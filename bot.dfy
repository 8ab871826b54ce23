/** The bot's in-memory state (the four globals loaded from their JSON files)
    and the handlers and jobs that change it. Saving to the JSON files is left
    out: each `save_json` call leaves the in-memory state as it is. */
module Bot {
  import opened Wrappers
  import opened Text
  import opened History
  import opened Ranking
  import opened PostLog
  import opened AutoPoster
  import opened Generation

  /** Queries shorter than this (after stripping) are refused. */
  const MinQueryLength := 2
  /** How many search results `handle_query` shows. */
  const PhotosShown := 6

  /** One photo-search result: its regular-size URL and its author's name. */
  datatype Photo = Photo(url: string, author: string)
  /** A photo the bot sends to the chat, with its caption. */
  datatype SentPhoto = SentPhoto(url: string, caption: string)

  /** What `handle_query` answers: "too short", "nothing found", or the photos. */
  datatype QueryReply = TooShort | NothingFound | Shown(photos: seq<SentPhoto>)

  /** What `ai_generate` ends with: the failure message, or the variants sent. */
  datatype GenerateReply = GenerationFailed | Generated(urls: seq<string>)

  /** The caption `handle_query` gives a search result. */
  function PhotoCaption(query: string, author: string): string {
    "🖼 " + query + "\nАвтор: " + author
  }

  /** The photos `handle_query` sends: the first six results, in order, each
      with the query and its author in the caption. */
  predicate ShowsFirstResults(sent: seq<SentPhoto>, query: string, found: seq<Photo>) {
    && |sent| == Min(PhotosShown, |found|)
    && forall k :: 0 <= k < |sent| ==>
         sent[k].url == found[k].url && sent[k].caption == PhotoCaption(query, found[k].author)
  }

  /** The sending loop of `handle_query`, over `images[:6]`. */
  method SendResults(query: string, found: seq<Photo>) returns (sent: seq<SentPhoto>)
    ensures ShowsFirstResults(sent, query, found)
  {
    sent := [];
    var n := Min(PhotosShown, |found|);
    for i := 0 to n
      invariant |sent| == i
      invariant forall k :: 0 <= k < i ==>
        sent[k].url == found[k].url && sent[k].caption == PhotoCaption(query, found[k].author)
    {
      sent := sent + [SentPhoto(found[i].url, PhotoCaption(query, found[i].author))];
    }
  }

  class BotState {
    /** Whether `HF_API_KEY` is set. */
    const hasHfKey: bool
    /** `BOT_TOKEN`, part of generated picture URLs. */
    const botToken: string
    /** `user_history` */
    var history: seq<ChatHistory>
    /** `daily_queue` */
    var queue: seq<QueueItem>
    /** `image_cache`: prompt to picture URL. */
    var cache: map<string, string>
    /** `published_posts` */
    var posts: seq<PostRecord>
    /** How many `generate_hf_image` calls went to the Hugging Face service. */
    ghost var hfRequests: nat

    /** `user_history` is a dictionary: one entry per chat. */
    ghost predicate Valid()
      reads this
    {
      UniqueChats(history)
    }

    /** The state as `load_json` leaves it. */
    constructor (hasHfKey: bool, botToken: string, history: seq<ChatHistory>,
                 queue: seq<QueueItem>, cache: map<string, string>, posts: seq<PostRecord>)
      requires UniqueChats(history)
      ensures Valid()
      ensures this.hasHfKey == hasHfKey && this.botToken == botToken
      ensures this.history == history && this.queue == queue
      ensures this.cache == cache && this.posts == posts && hfRequests == 0
    {
      this.hasHfKey := hasHfKey;
      this.botToken := botToken;
      this.history := history;
      this.queue := queue;
      this.cache := cache;
      this.posts := posts;
      hfRequests := 0;
    }

    /** `handle_query`: a stripped query of fewer than two characters is
        refused and changes nothing; any other is appended to the chat's
        history, then `found`, the photo search's results, decides the reply. */
    method HandleQuery(cid: int, text: string, found: seq<Photo>) returns (reply: QueryReply)
      requires Valid()
      modifies this
      ensures Valid()
      ensures var query := Strip(text);
        if |query| < MinQueryLength then reply == TooShort && history == old(history)
        else
          && history == Record(old(history), IntToString(cid), query)
          && (found == [] ==> reply == NothingFound)
          && (found != [] ==> reply.Shown? && ShowsFirstResults(reply.photos, query, found))
      ensures queue == old(queue) && cache == old(cache) && posts == old(posts)
      ensures hfRequests == old(hfRequests)
    {
      var query := Strip(text);
      if |query| < MinQueryLength {
        return TooShort;
      }
      var key := IntToString(cid);
      RecordKeepsChatsUnique(history, key, query);
      history := Record(history, key, query);
      if found == [] {
        return NothingFound;
      }
      var sent := SendResults(query, found);
      reply := Shown(sent);
    }

    /** `generate_daily_queue`: the queue is replaced by 100 items drawn from
        the top queries; `pick(i)` is the `i`-th `random.choice`. */
    method GenerateDailyQueue(pick: nat -> nat)
      requires Valid()
      modifies this
      ensures Valid()
      ensures queue == RebuiltQueue(old(history), pick)
      ensures history == old(history) && cache == old(cache) && posts == old(posts)
      ensures hfRequests == old(hfRequests)
    {
      var rebuilt := RebuiltQueue(history, pick);
      queue := rebuilt;
    }

    /** `log_post`: appends one unposted record. */
    method LogPost(url: string, caption: string, source: string, query: string, now: string)
      modifies this
      ensures posts == old(posts) + [NewRecord(url, caption, source, query, now)]
      ensures history == old(history) && queue == old(queue) && cache == old(cache)
      ensures hfRequests == old(hfRequests)
    {
      var post := NewRecord(url, caption, source, query, now);
      posts := posts + [post];
    }

    /** `post_one`: pops the head of the queue and, depending on `outcome`,
        puts it back at the tail, drops it, or publishes and logs it. */
    method PostOne(outcome: SearchOutcome, now: string)
      requires Valid()
      modifies this
      ensures Valid()
      ensures Cycle(queue, posts) == PostCycle(Cycle(old(queue), old(posts)), outcome, now)
      ensures history == old(history) && cache == old(cache)
      ensures hfRequests == old(hfRequests)
    {
      if queue == [] {
        return;
      }
      var post := queue[0];
      queue := queue[1..];
      match outcome {
        case Raised =>
          queue := queue + [post];
        case NoImage =>
        case Found(url, author) =>
          var caption := PostCaption(post.query, author);
          if url != "" {
            LogPost(url, caption, QueueSource, post.query, now);
          }
      }
    }

    /** `mark_as_posted(index)` */
    method MarkAsPosted(index: int) returns (reply: MarkReply)
      modifies this
      ensures (posts, reply) == Mark(old(posts), index)
      ensures history == old(history) && queue == old(queue) && cache == old(cache)
      ensures hfRequests == old(hfRequests)
    {
      if 0 <= index < |posts| {
        posts := posts[index := posts[index].(instagramPosted := true)];
        return MarkedOk;
      }
      return InvalidIndex;
    }

    /** `generate_hf_image(prompt)`; `reply` is what the service would give. */
    method GenerateHfImage(prompt: string, reply: Option<string>) returns (url: Option<string>)
      modifies this
      ensures var l := HfImage(hasHfKey, botToken, old(cache), prompt, reply);
        && url == l.url && cache == l.cache
        && hfRequests == old(hfRequests) + if l.requested then 1 else 0
      ensures history == old(history) && queue == old(queue) && posts == old(posts)
    {
      if !hasHfKey {
        return None;
      }
      if prompt in cache {
        return Some(cache[prompt]);
      }
      hfRequests := hfRequests + 1;
      match reply {
        case None =>
          url := None;
        case Some(fileId) =>
          var u := FileUrl(botToken, fileId);
          cache := cache[prompt := u];
          url := Some(u);
      }
    }

    /** `ai_generate`: up to four `generate_hf_image` calls, keeping the
        non-empty results in call order; `replies(i)` is what the service
        would answer on pass `i`. */
    method AiGenerate(prompt: string, replies: nat -> Option<string>) returns (reply: GenerateReply)
      modifies this
      ensures var b := Collect(hasHfKey, botToken, old(cache), prompt, replies, Variants);
        && cache == b.cache
        && hfRequests == old(hfRequests) + b.requests
        && reply == if b.results == [] then GenerationFailed else Generated(b.results)
      ensures history == old(history) && queue == old(queue) && posts == old(posts)
    {
      var results: seq<string> := [];
      var attempt := 0;
      while attempt < Variants
        invariant 0 <= attempt <= Variants
        invariant |results| <= attempt
        invariant var b := Collect(hasHfKey, botToken, old(cache), prompt, replies, attempt);
          results == b.results && cache == b.cache && hfRequests == old(hfRequests) + b.requests
        invariant history == old(history) && queue == old(queue) && posts == old(posts)
      {
        var url := GenerateHfImage(prompt, replies(attempt));
        if url.Some? && url.value != "" {
          results := results + [url.value];
        }
        attempt := attempt + 1;
        if |results| == Variants {
          break;
        }
      }
      if results == [] {
        return GenerationFailed;
      }
      return Generated(results);
    }
  }
}
