/** `post_one`, the job that publishes one queued query to the channel and
    logs it for the Instagram hand-off. */
module AutoPoster {
  import opened Ranking
  import opened PostLog

  /** What the `try` block of `post_one` met. `Raised`: the photo search, the
      channel send or anything else in the block threw. `NoImage`: there is no
      Unsplash key or the search found nothing. `Found`: `random.choice`
      picked a picture with this URL and author, and the send went through. */
  datatype SearchOutcome = Raised | NoImage | Found(url: string, author: string)

  /** The caption of an auto-post before the author line. */
  function BaseCaption(query: string): string {
    "✨ " + query + "\n\n#авто #подборка"
  }

  /** The caption with the author line `post_one` adds for a found picture. */
  function PostCaption(query: string, author: string): string {
    BaseCaption(query) + "\nАвтор: " + author
  }

  /** The two globals `post_one` changes. */
  datatype Cycle = Cycle(queue: seq<QueueItem>, log: seq<PostRecord>)

  /** A picture counts only when its URL is non-empty. */
  predicate Publishes(outcome: SearchOutcome) {
    outcome.Found? && outcome.url != ""
  }

  /** One run of `post_one`; `now` is the timestamp `log_post` would record. */
  function PostCycle(c: Cycle, outcome: SearchOutcome, now: string): (r: Cycle)
    ensures c.queue == [] ==> r == c
    ensures c.queue != [] ==>
      && |r.queue| == |c.queue| - (if outcome.Raised? then 0 else 1)
      && r.queue[..|c.queue| - 1] == c.queue[1..]
      && (outcome.Raised? ==> r.queue[|c.queue| - 1] == c.queue[0])
      && |r.log| == |c.log| + (if Publishes(outcome) then 1 else 0)
      && r.log[..|c.log|] == c.log
      && (Publishes(outcome) ==>
            && !r.log[|c.log|].instagramPosted
            && r.log[|c.log|].imageUrl == outcome.url
            && r.log[|c.log|].query == c.queue[0].query
            && r.log[|c.log|].source == QueueSource
            && r.log[|c.log|].caption == PostCaption(c.queue[0].query, outcome.author))
  {
    if c.queue == [] then c
    else
      var post := c.queue[0];
      var rest := c.queue[1..];
      match outcome
      case Raised => Cycle(rest + [post], c.log)
      case NoImage => Cycle(rest, c.log)
      case Found(url, author) =>
        if url == "" then Cycle(rest, c.log)
        else
          var caption := PostCaption(post.query, author);
          Cycle(rest, c.log + [NewRecord(url, caption, QueueSource, post.query, now)])
  }

  /** A failed cycle keeps every queued item: the queue is the same multiset. */
  lemma RaisedKeepsItems(c: Cycle, now: string)
    ensures multiset(PostCycle(c, Raised, now).queue) == multiset(c.queue)
    ensures PostCycle(c, Raised, now).log == c.log
  {
    if c.queue != [] {
      assert c.queue == [c.queue[0]] + c.queue[1..];
    }
  }

  /** One scheduler tick: what the cycle met and the clock reading. */
  datatype Tick = Tick(outcome: SearchOutcome, now: string)

  /** Successive runs of `post_one`. */
  function Run(c: Cycle, ticks: seq<Tick>): Cycle
    decreases |ticks|
  {
    if ticks == [] then c else Run(PostCycle(c, ticks[0].outcome, ticks[0].now), ticks[1..])
  }

  /** Over any number of cycles the log only grows at its end, every added
      record is unposted and from `unsplash`, and the queue never grows. */
  lemma {:induction false} RunOnlyAppends(c: Cycle, ticks: seq<Tick>)
    ensures var r := Run(c, ticks);
      && |r.queue| <= |c.queue|
      && |c.log| <= |r.log| && r.log[..|c.log|] == c.log
      && forall k :: |c.log| <= k < |r.log| ==> !r.log[k].instagramPosted && r.log[k].source == QueueSource
    decreases |ticks|
  {
    if ticks != [] {
      var next := PostCycle(c, ticks[0].outcome, ticks[0].now);
      RunOnlyAppends(next, ticks[1..]);
      var r := Run(c, ticks);
      assert r.log[..|next.log|][..|c.log|] == r.log[..|c.log|];
    }
  }

  /** `k` failed cycles in a row move the first `k` items to the back in
      their order, so a failure on every item brings the queue back to
      where it started. */
  lemma {:induction false} FailuresRotateQueue(c: Cycle, ticks: seq<Tick>)
    requires |ticks| <= |c.queue|
    requires forall k :: 0 <= k < |ticks| ==> ticks[k].outcome.Raised?
    ensures Run(c, ticks).queue == c.queue[|ticks|..] + c.queue[..|ticks|]
    ensures Run(c, ticks).log == c.log
    decreases |ticks|
  {
    if ticks != [] {
      var q := c.queue;
      var next := PostCycle(c, Raised, ticks[0].now);
      assert next.queue == q[1..] + [q[0]];
      FailuresRotateQueue(next, ticks[1..]);
      var n := |ticks|;
      assert (q[1..] + [q[0]])[n - 1..] == q[n..] + [q[0]];
      assert (q[1..] + [q[0]])[..n - 1] == q[1..n];
      assert q[..n] == [q[0]] + q[1..n];
    }
  }
}
