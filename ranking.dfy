/** The top-query computation behind `generate_daily_queue`: tally every
    query of every chat, sort the distinct ones by descending count and keep
    the first five; then the queue of 100 items drawn from them. */
module Ranking {
  import opened History

  /** The queries used when no chat has any history. */
  const DefaultQueries: seq<string> := ["природа", "кошки", "город"]
  /** How many of the most frequent queries the queue is drawn from. */
  const TopSize := 5
  /** How many items the rebuilt queue holds. */
  const QueueSize := 100
  /** The source tag every rebuilt queue item carries. */
  const QueueSource := "unsplash"

  /** One `daily_queue` entry: a query and the source to search it in. */
  datatype QueueItem = QueueItem(query: string, src: string)

  /** `all_queries`, with its fall-back to the defaults. */
  function AllQueries(h: seq<ChatHistory>): (r: seq<string>)
    ensures r != []
    ensures Flatten(h) != [] ==> r == Flatten(h)
  {
    if Flatten(h) == [] then DefaultQueries else Flatten(h)
  }

  /** `order` lists each distinct element of `all` once. It stands for
      iterating over `set(all_queries)`, whose order Python leaves open. */
  predicate Enumerates(order: seq<string>, all: seq<string>) {
    && NoDups(order)
    && (forall x :: x in order ==> x in all)
    && (forall x :: x in all ==> x in order)
  }

  /** The distinct elements of `s` in order of first occurrence: one of the
      orders `set(all_queries)` may be iterated in. */
  function Distinct(s: seq<string>): (r: seq<string>)
    ensures Enumerates(r, s)
  {
    if s == [] then []
    else
      var d := Distinct(s[..|s| - 1]);
      assert s == s[..|s| - 1] + [s[|s| - 1]];
      if s[|s| - 1] in d then d else d + [s[|s| - 1]]
  }

  /** Counts (in `all`) never increase along `s`. */
  predicate SortedByCount(s: seq<string>, all: seq<string>) {
    forall i, j :: 0 <= i < j < |s| ==> Count(all, s[i]) >= Count(all, s[j])
  }

  /** Puts `x` after every element whose count is at least its own. */
  function Insert(x: string, s: seq<string>, all: seq<string>): (r: seq<string>)
    ensures multiset(r) == multiset(s) + multiset{x}
  {
    if s == [] then [x]
    else if Count(all, s[0]) < Count(all, x) then [x] + s
    else
      assert s == [s[0]] + s[1..];
      [s[0]] + Insert(x, s[1..], all)
  }

  lemma {:induction false} InsertSorted(x: string, s: seq<string>, all: seq<string>)
    requires SortedByCount(s, all)
    ensures SortedByCount(Insert(x, s, all), all)
  {
    if s != [] && Count(all, s[0]) >= Count(all, x) {
      var rest := Insert(x, s[1..], all);
      InsertSorted(x, s[1..], all);
      assert s == [s[0]] + s[1..];
      forall j | 0 <= j < |rest| ensures Count(all, s[0]) >= Count(all, rest[j]) {
        assert rest[j] in multiset(rest);
        if rest[j] != x {
          assert rest[j] in multiset(s[1..]);
          var k :| 0 <= k < |s[1..]| && s[1..][k] == rest[j];
          assert s[k + 1] == rest[j];
        }
      }
    }
  }

  lemma {:induction false} InsertNoDups(x: string, s: seq<string>, all: seq<string>)
    requires NoDups(s) && x !in s
    ensures NoDups(Insert(x, s, all))
  {
    if s != [] && Count(all, s[0]) >= Count(all, x) {
      var rest := Insert(x, s[1..], all);
      assert s == [s[0]] + s[1..];
      InsertNoDups(x, s[1..], all);
      assert s[0] !in multiset(s[1..]) + multiset{x};
      assert s[0] !in rest;
    }
  }

  /** The tallies sorted stably by descending count. */
  function SortByCount(s: seq<string>, all: seq<string>): (r: seq<string>)
    ensures multiset(r) == multiset(s)
  {
    if s == [] then []
    else
      var init := s[..|s| - 1];
      assert s == init + [s[|s| - 1]];
      Insert(s[|s| - 1], SortByCount(init, all), all)
  }

  /** The sort orders by count and keeps distinct elements distinct. */
  lemma {:induction false} SortByCountSorted(s: seq<string>, all: seq<string>)
    ensures SortedByCount(SortByCount(s, all), all)
    ensures NoDups(s) ==> NoDups(SortByCount(s, all))
  {
    if s != [] {
      var init := s[..|s| - 1];
      var x := s[|s| - 1];
      SortByCountSorted(init, all);
      InsertSorted(x, SortByCount(init, all), all);
      if NoDups(s) {
        assert NoDups(init);
        assert x !in multiset(init);
        assert x !in multiset(SortByCount(init, all));
        InsertNoDups(x, SortByCount(init, all), all);
      }
    }
  }

  function Min(a: int, b: int): int {
    if a <= b then a else b
  }

  /** `top`: the first five queries after sorting by descending count. */
  function Top(all: seq<string>, order: seq<string>): (r: seq<string>)
    ensures |r| == Min(TopSize, |order|)
    ensures forall x :: x in r ==> x in order
  {
    var sorted := SortByCount(order, all);
    assert |sorted| == |multiset(sorted)| == |multiset(order)| == |order|;
    assert forall x :: x in sorted[..Min(TopSize, |sorted|)] ==> x in multiset(sorted);
    sorted[..Min(TopSize, |sorted|)]
  }

  /** The top set holds at most five distinct queries, all taken from `all`,
      five of them unless fewer distinct queries exist; no query left out is
      more frequent than a query kept. This holds for every iteration order. */
  lemma TopIsMostFrequent(all: seq<string>, order: seq<string>)
    requires Enumerates(order, all)
    ensures var top := Top(all, order);
      && |top| == Min(TopSize, |order|)
      && NoDups(top)
      && (forall q :: q in top ==> q in all)
      && (forall i, x :: 0 <= i < |top| && x in all && x !in top ==>
            Count(all, top[i]) >= Count(all, x))
  {
    var sorted := SortByCount(order, all);
    var top := Top(all, order);
    SortByCountSorted(order, all);
    assert |sorted| == |multiset(sorted)| == |multiset(order)| == |order|;
    forall q | q in top ensures q in all {
      assert q in multiset(sorted);
    }
    forall i, x | 0 <= i < |top| && x in all && x !in top
      ensures Count(all, top[i]) >= Count(all, x)
    {
      assert x in multiset(order);
      var j :| 0 <= j < |sorted| && sorted[j] == x;
    }
  }

  /** The top set `generate_daily_queue` draws from. */
  function TopQueries(h: seq<ChatHistory>): (r: seq<string>)
    ensures 1 <= |r| <= TopSize
    ensures forall x :: x in r ==> x in AllQueries(h)
  {
    var all := AllQueries(h);
    assert all[0] in Distinct(all);
    Top(all, Distinct(all))
  }

  /** The rebuilt `daily_queue`: item `i` holds the query `random.choice(top)`
      returns on the `i`-th draw, which `pick(i)` selects. */
  function RebuiltQueue(h: seq<ChatHistory>, pick: nat -> nat): (r: seq<QueueItem>)
    ensures |r| == QueueSize
    ensures forall i :: 0 <= i < |r| ==> r[i].src == QueueSource && r[i].query in TopQueries(h)
  {
    var top := TopQueries(h);
    seq(QueueSize, i requires 0 <= i < QueueSize => QueueItem(top[pick(i) % |top|], QueueSource))
  }

  /** The rebuilt queue has exactly 100 items, all from `unsplash`, each query
      one of the top set, which is drawn from the history or, when the history
      is empty, from the three defaults. */
  lemma RebuiltQueueShape(h: seq<ChatHistory>, pick: nat -> nat)
    ensures var q := RebuiltQueue(h, pick);
      && |q| == QueueSize
      && (forall i :: 0 <= i < |q| ==> q[i].src == QueueSource && q[i].query in TopQueries(h))
      && (forall i :: 0 <= i < |q| ==>
            if Flatten(h) == [] then q[i].query in DefaultQueries else q[i].query in Flatten(h))
  {
    var all := AllQueries(h);
    TopIsMostFrequent(all, Distinct(all));
  }

  lemma DefaultsAreDistinct()
    ensures Distinct(DefaultQueries) == DefaultQueries
  {
    var all := DefaultQueries;
    var a, b, c := all[0], all[1], all[2];
    assert a != b && a != c && b != c;
    assert all[..2] == [a, b] && [a, b][..1] == [a] && [a][..0] == [];
    assert Distinct([a]) == [a];
    assert Distinct([a, b]) == [a, b];
  }

  lemma DefaultsCountOnce()
    ensures forall q :: q in DefaultQueries ==> Count(DefaultQueries, q) == 1
  {
    var all := DefaultQueries;
    var a, b, c := all[0], all[1], all[2];
    assert a != b && a != c && b != c;
    assert all[1..] == [b, c] && all[1..][1..] == [c];
  }

  lemma DefaultsStaySorted()
    ensures SortByCount(DefaultQueries, DefaultQueries) == DefaultQueries
  {
    var all := DefaultQueries;
    var a, b, c := all[0], all[1], all[2];
    DefaultsCountOnce();
    assert all[..2] == [a, b] && [a, b][..1] == [a] && [a][..0] == [];
    assert SortByCount([a], all) == [a];
    assert [a, b][1..] == [b];
    assert Insert(b, [a], all) == [a, b];
    assert SortByCount([a, b], all) == [a, b];
    assert [a, b, c][1..] == [b, c];
    assert Insert(c, [b], all) == [b, c];
    assert Insert(c, [a, b], all) == [a, b, c];
  }

  /** With no history the top set is the three defaults, in their order. */
  lemma EmptyHistoryTopIsDefaults(h: seq<ChatHistory>)
    requires Flatten(h) == []
    ensures TopQueries(h) == DefaultQueries
  {
    DefaultsAreDistinct();
    DefaultsStaySorted();
  }
}
