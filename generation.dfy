/** AI generation: the prompt cache of `generate_hf_image` and the collection
    loop of `ai_generate`. */
module Generation {
  import opened Wrappers

  /** How many variants `ai_generate` asks for, and how many passes its loop makes. */
  const Variants := 4

  const FileUrlPrefix := "https://api.telegram.org/file/bot"

  /** The URL `generate_hf_image` builds for a picture Telegram stored under
      `fileId`. */
  function FileUrl(token: string, fileId: string): (u: string)
    ensures |FileUrlPrefix| < |u| && u[..|FileUrlPrefix|] == FileUrlPrefix
  {
    FileUrlPrefix + token + "/" + fileId
  }

  /** What one `generate_hf_image` call did: the value it returned, the cache
      afterwards and whether it reached the Hugging Face service (with one
      POST, or two after a 503; the retry itself is not modelled). */
  datatype Lookup = Lookup(url: Option<string>, cache: map<string, string>, requested: bool)

  /** `generate_hf_image(prompt)`. `reply` is what the service round trip would
      give: the Telegram file id of the stored picture, or `None` for a failed
      status, an exception or a cold model that stayed cold. */
  function HfImage(hasKey: bool, token: string, cache: map<string, string>, prompt: string,
                   reply: Option<string>): (r: Lookup)
    ensures !hasKey ==> r == Lookup(None, cache, false)
    ensures hasKey && prompt in cache ==> r == Lookup(Some(cache[prompt]), cache, false)
    ensures r.cache.Keys == cache.Keys + (if r.url.Some? then {prompt} else {})
    ensures forall k :: k in cache ==> r.cache[k] == cache[k]
    ensures r.url.Some? ==> r.cache[prompt] == r.url.value
    ensures r.requested ==> prompt !in cache && (r.url.Some? <==> reply.Some?)
    ensures hasKey && prompt !in cache ==> r.requested
    ensures r.requested && reply.Some? ==> r.url == Some(FileUrl(token, reply.value))
  {
    if !hasKey then Lookup(None, cache, false)
    else if prompt in cache then Lookup(Some(cache[prompt]), cache, false)
    else match reply
      case None => Lookup(None, cache, true)
      case Some(fileId) =>
        var url := FileUrl(token, fileId);
        Lookup(Some(url), cache[prompt := url], true)
  }

  /** The truth test `ai_generate` applies to a result: `None` and the empty
      string both fail it. */
  predicate Truthy(u: Option<string>) {
    u.Some? && u.value != ""
  }

  /** The loop state of `ai_generate`: `results`, the cache, and how many
      `generate_hf_image` calls reached the service. */
  datatype Batch = Batch(results: seq<string>, cache: map<string, string>, requests: nat)

  /** The state after `n` passes of the loop in `ai_generate`; `replies(i)` is
      what the service would answer if pass `i` reaches it. */
  function Collect(hasKey: bool, token: string, cache: map<string, string>, prompt: string,
                   replies: nat -> Option<string>, n: nat): (r: Batch)
    ensures |r.results| <= n && r.requests <= n
    ensures forall k :: 0 <= k < |r.results| ==> r.results[k] != ""
    ensures cache.Keys <= r.cache.Keys && forall k :: k in cache ==> r.cache[k] == cache[k]
  {
    if n == 0 then Batch([], cache, 0)
    else
      var b := Collect(hasKey, token, cache, prompt, replies, n - 1);
      var l := HfImage(hasKey, token, b.cache, prompt, replies(n - 1));
      Batch(if Truthy(l.url) then b.results + [l.url.value] else b.results,
            l.cache,
            b.requests + if l.requested then 1 else 0)
  }

  /** `n` copies of `v`. */
  function Copies(v: string, n: nat): (r: seq<string>)
    ensures |r| == n && forall k :: 0 <= k < n ==> r[k] == v
  {
    if n == 0 then [] else Copies(v, n - 1) + [v]
  }

  /** With no API key nothing is generated and nothing is requested. */
  lemma {:induction false} NoKeyNoImages(token: string, cache: map<string, string>, prompt: string,
                                         replies: nat -> Option<string>, n: nat)
    ensures Collect(false, token, cache, prompt, replies, n) == Batch([], cache, 0)
  {
    if n > 0 {
      NoKeyNoImages(token, cache, prompt, replies, n - 1);
    }
  }

  /** A cached prompt is answered from the cache on every pass: its URL once
      per pass (none when it is empty), no request, the cache unchanged. */
  lemma {:induction false} CachedPromptIsServedFromCache(token: string, cache: map<string, string>, prompt: string,
                                                         replies: nat -> Option<string>, n: nat)
    requires prompt in cache
    ensures Collect(true, token, cache, prompt, replies, n) ==
      Batch(if cache[prompt] != "" then Copies(cache[prompt], n) else [], cache, 0)
  {
    if n > 0 {
      CachedPromptIsServedFromCache(token, cache, prompt, replies, n - 1);
    }
  }

  /** Before the service first answers, every pass requests and fails. */
  lemma {:induction false} MissBeforeFirstReply(token: string, cache: map<string, string>, prompt: string,
                                                replies: nat -> Option<string>, n: nat)
    requires prompt !in cache
    requires forall i :: 0 <= i < n ==> replies(i).None?
    ensures Collect(true, token, cache, prompt, replies, n) == Batch([], cache, n)
  {
    if n > 0 {
      MissBeforeFirstReply(token, cache, prompt, replies, n - 1);
    }
  }

  /** Once the service answers on pass `j`, its URL is cached, and it and
      every later pass yield that URL without a further request. */
  lemma {:induction false} MissAfterFirstReply(token: string, cache: map<string, string>, prompt: string,
                                               replies: nat -> Option<string>, j: nat, n: nat)
    requires prompt !in cache
    requires j < n && replies(j).Some?
    requires forall i :: 0 <= i < j ==> replies(i).None?
    ensures var url := FileUrl(token, replies(j).value);
      Collect(true, token, cache, prompt, replies, n) == Batch(Copies(url, n - j), cache[prompt := url], j + 1)
  {
    if n - 1 == j {
      MissBeforeFirstReply(token, cache, prompt, replies, j);
    } else {
      MissAfterFirstReply(token, cache, prompt, replies, j, n - 1);
    }
  }

  /** What `ai_generate` collects: at most four results, all copies of one
      URL, which the cache then holds for the prompt; the cache keeps every
      earlier entry; no more than one call per pass reaches the service, none for a
      cached prompt, and for a prompt not yet cached every pass up to the
      first success makes one and no later pass does; and the failure branch (no results) is taken exactly when there is no
      key, the prompt is cached with an empty URL, or the prompt is not cached
      and all four requests fail. */
  lemma GenerationOutcome(hasKey: bool, token: string, cache: map<string, string>, prompt: string,
                          replies: nat -> Option<string>)
    ensures var b := Collect(hasKey, token, cache, prompt, replies, Variants);
      && |b.results| <= Variants
      && (forall k :: 0 <= k < |b.results| ==> b.results[k] != "" && b.results[k] == b.results[0])
      && (b.results != [] ==> prompt in b.cache && b.cache[prompt] == b.results[0])
      && cache.Keys <= b.cache.Keys
      && (forall k :: k in cache ==> b.cache[k] == cache[k])
      && b.requests <= Variants
      && (!hasKey || prompt in cache ==> b.requests == 0)
      && (hasKey && prompt !in cache ==>
            b.requests == if b.results == [] then Variants else Variants + 1 - |b.results|)
      && (b.results == [] <==>
            || !hasKey
            || (prompt in cache && cache[prompt] == "")
            || (prompt !in cache && forall i :: 0 <= i < Variants ==> replies(i).None?))
  {
    if !hasKey {
      NoKeyNoImages(token, cache, prompt, replies, Variants);
    } else if prompt in cache {
      CachedPromptIsServedFromCache(token, cache, prompt, replies, Variants);
    } else if forall i :: 0 <= i < Variants ==> replies(i).None? {
      MissBeforeFirstReply(token, cache, prompt, replies, Variants);
    } else {
      var j :| 0 <= j < Variants && replies(j).Some? && forall i :: 0 <= i < j ==> replies(i).None?;
      MissAfterFirstReply(token, cache, prompt, replies, j, Variants);
    }
  }
}
