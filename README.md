# Image bot core, modelled in Dafny

The repository is a Telegram bot, written in Python, that does three things.
It searches stock photos (Unsplash) for a user's query. It generates images
from a prompt (Hugging Face), and a suggestion step can add a style suffix
to that prompt. It also auto-posts to a channel from a daily queue built
from the most frequent queries, and logs each post so that an Instagram
tool can fetch and mark it. Almost all of `main.py` is glue around Telegram,
HTTP, Flask and a scheduler. This project models the logic that works on
the bot's in-memory state:

- `Prompt`: `enhance_prompt` and the style tag the suggestion buttons hand to it.
- `History`: `user_history` as an insertion-ordered dictionary, and the
  append in `handle_query`.
- `Ranking`: the top-five tally of `generate_daily_queue` and the 100-item
  queue built from it.
- `AutoPoster`: the `post_one` cycle, as a queue and log state machine.
- `PostLog`: the post records, `log_post`, `get_instagram_posts` and
  `mark_as_posted`.
- `Generation`: the prompt cache of `generate_hf_image` and the collection
  loop of `ai_generate`.
- `Bot`: class `BotState` holds the four globals (`user_history`,
  `daily_queue`, `image_cache`, `published_posts`). Its methods are the
  handlers and jobs that update them in place. Each method is proved equal
  to the specification function of its module.
- `Text` and `Wrappers`: Python's `str.strip`, `in`, `split` and `str(int)`,
  and an `Option` type.

Inputs the program gets from outside are parameters of the model:

- what a search or generation request returned
- what `random.choice` drew (an index, or a function from draw number to index)
- the `datetime.now()` timestamp
- whether `HF_API_KEY` is set, and the bot token

Each `save_json` call counts as leaving the in-memory state unchanged.

Results of note, all proved:

- `enhance_prompt` tests four Russian keywords and the English `random`,
  while the buttons send the English tags `realistic`, `anime`, `space`,
  `castle` and `random`. So four of the five buttons leave the prompt unchanged, and only `random` adds a
  suffix (`Prompt.OnlyRandomButtonChangesPrompt`).
- `ai_generate`'s loop calls `generate_hf_image` with the same prompt on
  every pass. After the first success, the prompt is cached, so every later
  pass returns a copy of that URL without a request. The "four variants" are
  therefore always one picture repeated. The count is 4 minus the failed
  passes before the first success (`Generation.MissAfterFirstReply`,
  `Generation.GenerationOutcome`).
- The `break` in that loop never ends it early. At most one result is added
  per pass, so four results can only exist after the fourth pass (`|results| <=
  attempt` is an invariant of `Bot.BotState.AiGenerate`).
- The comment on `get_instagram_posts` (main.py:359) says it returns the
  five latest records. That comment is wrong: the endpoint returns the five
  oldest unposted records (`PostLog.HandOffIsOldestPending`).
- `mark_as_posted` does not check the flag. Marking an already-marked
  record succeeds again and changes nothing (`PostLog.MarkIdempotent`).

A reading of the code that the model does not depend on:

- `handle_query` (main.py:206) and `suggest` (main.py:229) call `InlineKeyboardMarkup`
  without a module-level import; it is only imported locally inside other
  functions (main.py:52, 61, 75, 88). So each of those calls raises
  `NameError` after the photos or the enhanced prompt have been handled.
  Line 210 is then never reached, `last_query` is never set, and `suggest`
  always falls back to `искусство` (`Prompt.OnlyRandomButtonChangesPrompt`
  covers both cases). Also, the `ai_gen` button made at main.py:231 has no
  handler. None of this changes a contract of the model.

## Model

| member | source | states |
|---|---|---|
| `Prompt.EnhancePrompt` | main.py:101-114 | The result always has the prompt as a prefix, and adds nothing, one of the four fixed suffixes, or one of the four `random` extras. |
| `Prompt.EnhanceUnchangedIffNoKeyword` | main.py:101-114 | The prompt comes back unchanged if and only if the style contains none of the five keywords. |
| `Prompt.RandomStyleAddsOneExtra` | main.py:111-113 | If `random` is the only keyword in the style, the result is the prompt plus the drawn extra and no other extra. |
| `Prompt.CallbackStyle` | main.py:223 | A style is found exactly when the button data holds an underscore, and the style found holds none; `None` stands for the `IndexError` otherwise. |
| `Prompt.SuggestedPrompt` | main.py:223-226 | A prompt is produced exactly when the data holds an underscore, and it always starts with the last query, or with `искусство` when there is none. |
| `Prompt.ButtonStyle` | main.py:223 | For button data `suggest_<tag>` where the tag has no underscore, the part after the first underscore is the tag. |
| `Prompt.EnglishTagsHoldNoKeyword` | main.py:64-70 | None of `realistic`, `anime`, `space` and `castle` contains any keyword that `enhance_prompt` tests. |
| `Prompt.OnlyRandomButtonChangesPrompt` | main.py:220-227 | The prompt that `suggest` stores is the last query (default `искусство`) unchanged for four buttons, and that query plus the drawn extra for `suggest_random`. |
| `Text.Strip` | main.py:183 | The stripped text is never longer than the input; its partner lemmas below pin down what is kept. |
| `Text.StripIsSlice` | main.py:183 | `strip()` keeps one contiguous slice of the text, starting after the leading white space. |
| `Text.StripRemovesOnlySpace` | main.py:183 | Everything `strip()` removes, before and after the slice, is white space. |
| `Text.StripKeepsNoEdgeSpace` | main.py:183 | The part `strip()` keeps neither starts nor ends with white space. |
| `Text.StripIdempotent` | main.py:183 | Stripping twice gives the same result as stripping once. |
| `Text.Contains` | main.py:103-111 | The empty piece is in every string, and a contained piece is never longer than the string. |
| `Text.ContainsIffOccurs` | main.py:103-111 | Python's `in` on strings holds exactly when the piece starts at some position of the string. |
| `Text.MissingCharNotContained` | main.py:103-111 | A string cannot contain a piece that has a character the string lacks. |
| `Text.Split` | main.py:223 | There is always at least one piece, no piece holds the separator, and there is exactly one piece when the string holds no separator. |
| `Text.JoinSplit` | main.py:223 | Joining the pieces of `split(sep)` with `sep` gives back the original string. |
| `Text.SplitAtFirst` | main.py:223 | A leading piece without the separator is split off whole. |
| `Text.IntToString` | main.py:188 | The decimal text is non-empty and starts with `-` exactly for a negative number. |
| `Text.IntToStringInjective` | main.py:188-190 | Distinct chat ids give distinct history keys `str(cid)`. |
| `History.Record` | main.py:188-190 | The dictionary gains an entry exactly when the chat is new, and the chat has an entry afterwards. |
| `History.RecordAppendsToChat` | main.py:188-190 | Recording a query appends it to that chat's list and changes no other chat's list. |
| `History.RecordKeys` | main.py:188-189 | Existing keys keep their order, and a new chat's key goes at the end. |
| `History.RecordKeepsChatsUnique` | main.py:188-189 | Recording keeps the keys distinct, as a dictionary's are. |
| `History.Flatten` | main.py:301 | A query is in the flattened list exactly when some chat's list holds it. |
| `History.FlattenAppend` | main.py:301 | Flattening the entries of two parts of the dictionary gives the two flattened lists joined. |
| `History.FlattenSingle` | main.py:301 | One entry flattens to its own query list. |
| `History.CountOverEntries` | main.py:301-304 | A query's tally over all chats is the sum of its tallies over the earlier entries and over the next entry. |
| `History.Count` | main.py:304 | The count is at most the list's length, and positive exactly when the value occurs. |
| `History.RecordRaisesCount` | main.py:188-190 | Recording a query raises that query's tally over all chats by one, and leaves every other tally unchanged. |
| `History.CountConcat` | main.py:304 | `list.count` on a concatenation is the sum of the counts on the two parts. |
| `Ranking.AllQueries` | main.py:301-303 | The list is never empty, and it is the recorded queries whenever there are any. |
| `Ranking.Distinct` | main.py:304 | The result lists every distinct query once, which is one possible iteration order of `set(all_queries)`. |
| `Ranking.SortByCount` | main.py:304 | The sort returns a permutation (same multiset) of its input. |
| `Ranking.Insert` | main.py:304 | Insertion adds exactly the one element (multiset). |
| `Ranking.InsertSorted` | main.py:304 | Inserting into a list sorted by descending count keeps it sorted. |
| `Ranking.InsertNoDups` | main.py:304 | Inserting a new element into a list without duplicates keeps it without duplicates. |
| `Ranking.SortByCountSorted` | main.py:304 | The result is ordered by non-increasing count, and distinct inputs stay distinct. |
| `Ranking.Top` | main.py:304 | The top list has min(5, number of candidates) entries, all candidates. |
| `Ranking.TopIsMostFrequent` | main.py:304 | For any iteration order, the top set holds min(5, number of distinct queries) distinct queries, all from the history, and none left out is more frequent than one kept. |
| `Ranking.TopQueries` | main.py:301-304 | The top set has between 1 and 5 queries, all from the queries tallied, so `random.choice(top)` always has something to draw from. |
| `Ranking.RebuiltQueue` | main.py:305 | The queue has exactly 100 items, each with source `unsplash` and a query from the top set. |
| `Ranking.RebuiltQueueShape` | main.py:299-305 | The rebuilt queue has exactly 100 items. Every item has `src == "unsplash"` and a query from the top set, which comes from the history, or from the three defaults when the history is empty. |
| `Ranking.EmptyHistoryTopIsDefaults` | main.py:302-304 | With an empty history, the top set is exactly `["природа", "кошки", "город"]`. |
| `PostLog.NewRecord` | main.py:343-350 | The record `log_post` builds carries the given URL, caption, source and query, with the Instagram flag false. |
| `PostLog.Pending` | main.py:358 | The filtered list holds only unposted records taken from the log. |
| `PostLog.PendingInLogOrder` | main.py:358 | Every unposted record appears in the pending list at the position given by how many unposted records come before it, and the list holds nothing else. |
| `PostLog.InstagramPosts` | main.py:356-359 | The endpoint returns at most 5 records, all unposted, all from the log. |
| `PostLog.HandOffIsOldestPending` | main.py:358-359 | The endpoint returns min(5, number of unposted) records: the oldest unposted ones, in log order. |
| `PostLog.AppendedRecordIsPending` | main.py:349-358 | A record that `log_post` appends joins the end of the pending list. |
| `PostLog.Mark` | main.py:362-368 | An in-range index sets only that record's flag and replies ok. Any other index leaves the log untouched and replies with the error. The log's length never changes. |
| `PostLog.MarkIdempotent` | main.py:364-367 | Marking the same index twice gives the same log and reply as marking it once. |
| `PostLog.MarkLowersPending` | main.py:364-365 | Marking lowers the number of unposted records by one when the record was unposted, and by zero when it was not. |
| `AutoPoster.PostCycle` | main.py:308-338 | An empty queue is left as it is. Otherwise the head is removed and the rest keeps its order. On an exception the head goes back at the tail and the length is unchanged. Otherwise the length drops by one. The log gains exactly one unposted `unsplash` record (URL, query, caption) only when a picture with a non-empty URL was published. |
| `AutoPoster.RaisedKeepsItems` | main.py:334-336 | A failed cycle keeps the same multiset of queue items and the same log. |
| `AutoPoster.RunOnlyAppends` | main.py:308-338 | Over any run of cycles, the queue never grows and the log only grows at its end, with unposted `unsplash` records. |
| `AutoPoster.FailuresRotateQueue` | main.py:313-336 | k failed cycles in a row move the first k items to the back in order, so a failure on every item restores the queue. |
| `Generation.FileUrl` | main.py:156-158 | A generated picture's URL starts with the Telegram file prefix and is never empty. |
| `Generation.HfImage` | main.py:128-167 | With no key: `None`, no request, cache unchanged. A cached prompt returns its cached URL with no request. The cache only gains the prompt, and only on success; existing entries never change. A request is made exactly on a miss with a key, succeeds exactly when the service replies, and then returns the Telegram file URL of the reply. |
| `Generation.NoKeyNoImages` | main.py:129-130 | Without an API key, the loop collects nothing and makes no request. |
| `Generation.CachedPromptIsServedFromCache` | main.py:131-132 | A cached prompt yields its URL on every pass (nothing when the URL is empty), with no request and the cache unchanged. |
| `Generation.MissBeforeFirstReply` | main.py:137-167 | Until the service first answers, every pass makes a request and collects nothing. |
| `Generation.MissAfterFirstReply` | main.py:131-161 | After the first answer on pass j, the URL is cached, and passes j to n−1 (counted from 0, for any number n of passes) each add that URL with no further request. |
| `Generation.Collect` | main.py:251-257 | After n passes there are at most n results, all non-empty, at most n requests, and the cache keeps every earlier entry. |
| `Generation.GenerationOutcome` | main.py:251-260 | At most 4 results, all non-empty copies of the URL cached for the prompt. The cache keeps every earlier entry. At most 4 `generate_hf_image` calls reach the service (each with one or two POSTs; the 503 retry is left out): none without a key or for a cached prompt; for an uncached prompt, 4 when all fail, and otherwise one per pass up to the first success, so 5 minus the number of results. The result is empty (the failure branch) exactly when there is no key, the cached URL is empty, or the prompt is uncached and all four calls fail. |
| `Bot.SendResults` | main.py:200-203 | The photos sent are the first six results, in order, each captioned with the query and its author. |
| `Bot.BotState.constructor` | main.py:45-48 | The state starts as loaded, with one history entry per chat. |
| `Bot.BotState.HandleQuery` | main.py:181-210 | A stripped query shorter than 2 characters replies "too short" and leaves the history unchanged. Otherwise the query is appended to the chat's history, and the reply is "nothing found" or the first six photos. The other globals are unchanged. |
| `Bot.BotState.GenerateDailyQueue` | main.py:299-306 | The queue is replaced by the rebuilt queue of the current history. Nothing else changes. |
| `Bot.BotState.LogPost` | main.py:341-352 | The log becomes the old log plus one new unposted record. Nothing else changes. |
| `Bot.BotState.PostOne` | main.py:308-338 | The new queue and log are those of `PostCycle` on the old ones. History and cache are unchanged. |
| `Bot.BotState.MarkAsPosted` | main.py:361-368 | The new log and the reply are those of `Mark` on the old log. |
| `Bot.BotState.GenerateHfImage` | main.py:128-167 | The returned URL and the new cache are those of `HfImage`; the request count rises only when the service was asked. |
| `Bot.BotState.AiGenerate` | main.py:247-260 | The new cache and the request count are those of four passes of `Collect`. The reply is the failure when nothing was collected, and the collected URLs otherwise. |

## Left out

- Telegram transport: sending and editing messages, inline keyboards, media
  groups, the `/start` handler, polling. These are calls into a foreign
  library. `HandleQuery` and `AiGenerate` return what would be sent as a value.
- The Unsplash and Hugging Face HTTP requests, the 503 sleep-and-retry, the
  PIL JPEG conversion, and the upload that yields a Telegram file id. These
  are network and image-library calls. Their results are inputs: a list of
  photos, a `SearchOutcome`, or an optional file id per generation pass.
  So in the `Generation` and `Bot` rows a "request" is one
  `generate_hf_image` call that reaches the service. After a 503 that call
  sends a second POST (main.py:142-145), which no count here includes.
- JSON loading and saving. This is file I/O; the constructor takes the loaded
  state. `save_json` is taken never to fail. If it raised inside `log_post`
  after the append, `post_one` would re-queue an item whose record is already
  logged. The model does not capture that case.
- The Flask server, the APScheduler jobs and the background thread. These are
  process plumbing, and the unguarded sharing between them is a concurrency
  matter outside a sequential model.
- `user_context`: writing `last_query`, `ai_prompt` and `chosen`, and the
  `ai_start`, `ai_custom`, `custom_prompt_step`, `choose_img`, `similar` and
  `save` handlers. This is session glue. `SuggestedPrompt` models the prompt
  that `suggest` computes, but not storing it (including the `KeyError` when
  the chat has no context). `save` does not check the chosen index against
  the number of images, and the model adds no such guarantee.
- `search_unsplash`'s request parameters (6 per page). The photo list is an input.
- Ranking.Distinct: Python iterates `set(all_queries)` in an unspecified
  order. The model uses first-occurrence order, and `TopIsMostFrequent` is
  proved for every order.
- Ranking.SortByCount: it is a stable insertion sort, as Python's `sorted`
  is. Its stability is by construction and is not proved; only order and
  permutation are.
- Text.IsSpace: the set of characters for which Python's `str.isspace`
  holds is written out by hand. It is not derived from the Unicode database.
- Bot.BotState.MarkAsPosted: Flask's `<int:index>` route does not match
  negative numbers. The model accepts any integer and rejects negatives with
  the same guard as the code.
