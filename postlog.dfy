/** `published_posts`, the log `log_post` appends to, and the two hand-off
    endpoints: `/instagram-posts` (`get_instagram_posts`) and
    `/mark-instagram/<index>` (`mark_as_posted`). */
module PostLog {

  /** One entry of `published_posts`. */
  datatype PostRecord = PostRecord(
    imageUrl: string,
    caption: string,
    source: string,
    query: string,
    publishedAt: string,
    instagramPosted: bool)

  /** How many posts `/instagram-posts` returns at most. */
  const HandOffLimit := 5

  /** The record `log_post` builds; `now` is `datetime.now().isoformat()`. */
  function NewRecord(url: string, caption: string, source: string, query: string, now: string): (p: PostRecord)
    ensures !p.instagramPosted
    ensures p.imageUrl == url && p.caption == caption && p.source == source && p.query == query
  {
    PostRecord(url, caption, source, query, now, false)
  }

  /** The records not yet posted to Instagram, in log order. */
  function Pending(log: seq<PostRecord>): (r: seq<PostRecord>)
    ensures |r| <= |log|
    ensures forall k :: 0 <= k < |r| ==> !r[k].instagramPosted && r[k] in log
  {
    if log == [] then []
    else if log[0].instagramPosted then Pending(log[1..])
    else [log[0]] + Pending(log[1..])
  }

  /** How many records before index `i` are not yet posted to Instagram. */
  function PendingBefore(log: seq<PostRecord>, i: nat): nat
    requires i <= |log|
  {
    if i == 0 then 0
    else PendingBefore(log, i - 1) + if log[i - 1].instagramPosted then 0 else 1
  }

  lemma {:induction false} PendingBeforeDrop(log: seq<PostRecord>, i: nat)
    requires 1 <= i <= |log|
    ensures PendingBefore(log, i) ==
      PendingBefore(log[1..], i - 1) + if log[0].instagramPosted then 0 else 1
  {
    if i > 1 {
      PendingBeforeDrop(log, i - 1);
      assert log[1..][i - 2] == log[i - 1];
    }
  }

  lemma {:induction false} PendingLength(log: seq<PostRecord>)
    ensures |Pending(log)| == PendingBefore(log, |log|)
  {
    if log != [] {
      PendingLength(log[1..]);
      PendingBeforeDrop(log, |log|);
    }
  }

  lemma {:induction false} PendingAt(log: seq<PostRecord>, i: nat)
    requires i < |log| && !log[i].instagramPosted
    ensures PendingBefore(log, i) < |Pending(log)|
    ensures Pending(log)[PendingBefore(log, i)] == log[i]
  {
    if i == 0 {
      assert Pending(log) == [log[0]] + Pending(log[1..]);
    } else {
      PendingAt(log[1..], i - 1);
      PendingBeforeDrop(log, i);
    }
  }

  /** The pending list holds the unposted records in log order: the record at
      index `i`, when unposted, sits at the position given by how many
      unposted records precede it, and there are as many pending records as
      unposted ones. */
  lemma PendingInLogOrder(log: seq<PostRecord>)
    ensures |Pending(log)| == PendingBefore(log, |log|)
    ensures forall i :: 0 <= i < |log| && !log[i].instagramPosted ==>
      PendingBefore(log, i) < |Pending(log)| && Pending(log)[PendingBefore(log, i)] == log[i]
  {
    PendingLength(log);
    forall i | 0 <= i < |log| && !log[i].instagramPosted
      ensures PendingBefore(log, i) < |Pending(log)| && Pending(log)[PendingBefore(log, i)] == log[i]
    {
      PendingAt(log, i);
    }
  }

  /** `get_instagram_posts`: the first five pending records. */
  function InstagramPosts(log: seq<PostRecord>): (r: seq<PostRecord>)
    ensures |r| <= HandOffLimit
    ensures forall k :: 0 <= k < |r| ==> !r[k].instagramPosted && r[k] in log
  {
    var pending := Pending(log);
    if |pending| <= HandOffLimit then pending else pending[..HandOffLimit]
  }

  /** The hand-off returns the oldest unposted records: five of them when there
      are that many, and each unposted record among the first five unposted
      ones at its place in log order. */
  lemma HandOffIsOldestPending(log: seq<PostRecord>)
    ensures |InstagramPosts(log)| ==
      if PendingBefore(log, |log|) < HandOffLimit then PendingBefore(log, |log|) else HandOffLimit
    ensures forall i :: 0 <= i < |log| && !log[i].instagramPosted && PendingBefore(log, i) < HandOffLimit ==>
      PendingBefore(log, i) < |InstagramPosts(log)| && InstagramPosts(log)[PendingBefore(log, i)] == log[i]
  {
    PendingInLogOrder(log);
  }

  /** A record appended unposted joins the end of the pending list. */
  lemma {:induction false} AppendedRecordIsPending(log: seq<PostRecord>, p: PostRecord)
    requires !p.instagramPosted
    ensures Pending(log + [p]) == Pending(log) + [p]
  {
    if log == [] {
      assert log + [p] == [p];
    } else {
      assert (log + [p])[1..] == log[1..] + [p];
      AppendedRecordIsPending(log[1..], p);
    }
  }

  /** The reply of `mark_as_posted`: the success status, or the error for a bad index. */
  datatype MarkReply = MarkedOk | InvalidIndex

  /** `mark_as_posted(index)`: sets the flag of record `index` when the index is
      in range; otherwise the log is untouched and the reply is the error. */
  function Mark(log: seq<PostRecord>, index: int): (r: (seq<PostRecord>, MarkReply))
    ensures |r.0| == |log|
    ensures r.1 == MarkedOk <==> 0 <= index < |log|
    ensures r.1 == InvalidIndex ==> r.0 == log
    ensures r.1 == MarkedOk ==>
      && r.0[index] == log[index].(instagramPosted := true)
      && forall j :: 0 <= j < |log| && j != index ==> r.0[j] == log[j]
  {
    if 0 <= index < |log| then (log[index := log[index].(instagramPosted := true)], MarkedOk)
    else (log, InvalidIndex)
  }

  /** Marking the same index twice is marking it once. */
  lemma MarkIdempotent(log: seq<PostRecord>, index: int)
    ensures Mark(Mark(log, index).0, index) == Mark(log, index)
  {
    if 0 <= index < |log| {
      var once := Mark(log, index).0;
      assert once[index := once[index].(instagramPosted := true)] == once;
    }
  }

  /** Marking removes the record from the pending count exactly when it was
      pending, and changes no other record's flag. */
  lemma {:induction false} MarkLowersPending(log: seq<PostRecord>, index: int)
    requires 0 <= index < |log|
    ensures PendingBefore(Mark(log, index).0, |log|) ==
      PendingBefore(log, |log|) - if log[index].instagramPosted then 0 else 1
  {
    MarkAgreesBefore(log, index, index);
    MarkPendingAfter(log, index, |log|);
  }

  lemma {:induction false} MarkAgreesBefore(log: seq<PostRecord>, index: nat, i: nat)
    requires index < |log| && i <= index
    ensures PendingBefore(Mark(log, index).0, i) == PendingBefore(log, i)
  {
    if i > 0 {
      MarkAgreesBefore(log, index, i - 1);
    }
  }

  lemma {:induction false} MarkPendingAfter(log: seq<PostRecord>, index: nat, i: nat)
    requires index < i <= |log|
    ensures PendingBefore(Mark(log, index).0, i) ==
      PendingBefore(log, i) - if log[index].instagramPosted then 0 else 1
  {
    if i == index + 1 {
      MarkAgreesBefore(log, index, index);
    } else {
      MarkPendingAfter(log, index, i - 1);
    }
  }
}
