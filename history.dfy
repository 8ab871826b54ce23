/** `user_history`: for each chat (keyed by the chat id written as a string)
    the queries it sent, in order. Python dicts keep insertion order, so the
    dictionary is a sequence of entries with distinct keys. */
module History {

  datatype ChatHistory = ChatHistory(chat: string, queries: seq<string>)

  /** No value occurs twice. */
  predicate NoDups(s: seq<string>) {
    forall i, j :: 0 <= i < j < |s| ==> s[i] != s[j]
  }

  /** The keys of the dictionary, in insertion order. */
  function Chats(h: seq<ChatHistory>): (r: seq<string>)
    ensures |r| == |h| && forall i :: 0 <= i < |h| ==> r[i] == h[i].chat
  {
    if h == [] then [] else [h[0].chat] + Chats(h[1..])
  }

  /** Every chat has one entry, as in a dictionary. */
  predicate UniqueChats(h: seq<ChatHistory>) {
    NoDups(Chats(h))
  }

  /** The queries recorded for `chat`, or none when the chat has no entry. */
  function QueriesOf(h: seq<ChatHistory>, chat: string): seq<string> {
    if h == [] then []
    else if h[0].chat == chat then h[0].queries
    else QueriesOf(h[1..], chat)
  }

  /** Records query `q` for `chat`: a chat seen for the first time gets a new
      entry at the end, an existing one gets `q` appended to its list. */
  function Record(h: seq<ChatHistory>, chat: string, q: string): (r: seq<ChatHistory>)
    ensures |r| == if chat in Chats(h) then |h| else |h| + 1
    ensures chat in Chats(r)
  {
    if h == [] then [ChatHistory(chat, [q])]
    else if h[0].chat == chat then [h[0].(queries := h[0].queries + [q])] + h[1..]
    else [h[0]] + Record(h[1..], chat, q)
  }

  /** Recording a query appends it to that chat's queries and to no other's. */
  lemma {:induction false} RecordAppendsToChat(h: seq<ChatHistory>, chat: string, q: string, other: string)
    ensures QueriesOf(Record(h, chat, q), other) ==
      if other == chat then QueriesOf(h, other) + [q] else QueriesOf(h, other)
  {
    if h != [] && h[0].chat != chat {
      RecordAppendsToChat(h[1..], chat, q, other);
    }
  }

  /** Recording keeps the keys in place and adds the chat's key at the end
      when it is new. */
  lemma {:induction false} RecordKeys(h: seq<ChatHistory>, chat: string, q: string)
    ensures Chats(Record(h, chat, q)) ==
      if chat in Chats(h) then Chats(h) else Chats(h) + [chat]
  {
    if h != [] {
      var r := Record(h, chat, q);
      if h[0].chat == chat {
        assert Chats(r) == [chat] + Chats(h[1..]);
      } else {
        RecordKeys(h[1..], chat, q);
        assert r == [h[0]] + Record(h[1..], chat, q);
        assert Chats(h) == [h[0].chat] + Chats(h[1..]);
        assert Chats(r) == [h[0].chat] + Chats(Record(h[1..], chat, q));
      }
    }
  }

  /** So recording keeps the keys distinct. */
  lemma RecordKeepsChatsUnique(h: seq<ChatHistory>, chat: string, q: string)
    ensures UniqueChats(h) ==> UniqueChats(Record(h, chat, q))
  {
    RecordKeys(h, chat, q);
  }

  /** Every recorded query, chat by chat in entry order. */
  function Flatten(h: seq<ChatHistory>): (r: seq<string>)
    ensures forall x :: x in r <==> exists i :: 0 <= i < |h| && x in h[i].queries
  {
    if h == [] then [] else h[0].queries + Flatten(h[1..])
  }

  /** Flattening distributes over joining two dictionaries' entries. */
  lemma {:induction false} FlattenAppend(a: seq<ChatHistory>, b: seq<ChatHistory>)
    ensures Flatten(a + b) == Flatten(a) + Flatten(b)
  {
    if a != [] {
      assert (a + b)[0] == a[0] && (a + b)[1..] == a[1..] + b;
      FlattenAppend(a[1..], b);
    } else {
      assert a + b == b;
    }
  }

  /** One entry flattens to its own queries. */
  lemma FlattenSingle(e: ChatHistory)
    ensures Flatten([e]) == e.queries
  {
    assert [e][1..] == [];
  }

  /** The tally of a query over all chats is the sum of its tallies per entry,
      so the ranking counts every occurrence, not just one per query. */
  lemma CountOverEntries(a: seq<ChatHistory>, e: ChatHistory, x: string)
    ensures Count(Flatten(a + [e]), x) == Count(Flatten(a), x) + Count(e.queries, x)
  {
    FlattenAppend(a, [e]);
    FlattenSingle(e);
    CountConcat(Flatten(a), e.queries, x);
  }

  /** Python's `list.count(x)`. */
  function Count(s: seq<string>, x: string): (n: nat)
    ensures n <= |s|
    ensures n > 0 <==> x in s
  {
    if s == [] then 0 else (if s[0] == x then 1 else 0) + Count(s[1..], x)
  }

  lemma {:induction false} CountConcat(a: seq<string>, b: seq<string>, x: string)
    ensures Count(a + b, x) == Count(a, x) + Count(b, x)
  {
    if a == [] {
      assert a + b == b;
    } else {
      assert (a + b)[0] == a[0] && (a + b)[1..] == a[1..] + b;
      CountConcat(a[1..], b, x);
    }
  }

  /** Recording a query raises its tally over all chats by one and leaves every
      other query's tally as it was. */
  lemma {:induction false} RecordRaisesCount(h: seq<ChatHistory>, chat: string, q: string, x: string)
    ensures Count(Flatten(Record(h, chat, q)), x) ==
      Count(Flatten(h), x) + if x == q then 1 else 0
  {
    if h == [] {
      assert Flatten(Record(h, chat, q)) == [q];
    } else if h[0].chat == chat {
      var r := Record(h, chat, q);
      assert r[1..] == h[1..];
      assert Flatten(r) == (h[0].queries + [q]) + Flatten(h[1..]);
      CountConcat(h[0].queries + [q], Flatten(h[1..]), x);
      CountConcat(h[0].queries, [q], x);
      CountConcat(h[0].queries, Flatten(h[1..]), x);
    } else {
      var r := Record(h, chat, q);
      assert r[1..] == Record(h[1..], chat, q);
      RecordRaisesCount(h[1..], chat, q, x);
      CountConcat(h[0].queries, Flatten(r[1..]), x);
      CountConcat(h[0].queries, Flatten(h[1..]), x);
    }
  }
}
