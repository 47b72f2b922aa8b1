/**
 * Stored chat messages and the history query both chat views share:
 * `get_last_n_messages(user, n)` takes the user's `n` newest messages
 * (`order_by("-created_at")[:n]`) and returns them oldest first.
 */
module ChatHistory {

  /** A row of the ChatMessage table; `createdAt` is the `auto_now_add` timestamp. */
  datatype ChatMessage = ChatMessage(user: int, message: string, reply: string, source: string, createdAt: int)

  /** The server-side state the chat views touch. */
  class Backend {
    /** The ChatMessage table, in insertion order. */
    var chatRows: seq<ChatMessage>
    /** The message lists sent to the language-model provider, in order. */
    var llmCalls: seq<seq<Entry>>

    constructor ()
      ensures chatRows == [] && llmCalls == []
    {
      chatRows := [];
      llmCalls := [];
    }

    /** `ChatMessage.objects.create(...)`. */
    method Store(m: ChatMessage)
      modifies this`chatRows
      ensures chatRows == old(chatRows) + [m]
    {
      chatRows := chatRows + [m];
    }

    /** Records one outbound call to the provider. */
    method Call(messages: seq<Entry>)
      modifies this`llmCalls
      ensures llmCalls == old(llmCalls) + [messages]
    {
      llmCalls := llmCalls + [messages];
    }
  }

  datatype Role = System | User | Assistant

  /** One `{"role": ..., "content": ...}` element of a chat-completion request. */
  datatype Entry = Entry(role: Role, content: string)

  /** The user's rows, in table order: `filter(user=user)`. */
  function OfUser(rows: seq<ChatMessage>, user: int): (r: seq<ChatMessage>)
    ensures forall i :: 0 <= i < |r| ==> r[i].user == user
    ensures multiset(r) <= multiset(rows)
    ensures forall m :: m in multiset(rows) && m.user == user ==> multiset(r)[m] == multiset(rows)[m]
  {
    if rows == [] then []
    else
      var rest := OfUser(rows[..|rows| - 1], user);
      var last := rows[|rows| - 1];
      assert rows == rows[..|rows| - 1] + [last];
      if last.user == user then rest + [last] else rest
  }

  predicate NewestFirst(s: seq<ChatMessage>) {
    forall i, j :: 0 <= i < j < |s| ==> s[i].createdAt >= s[j].createdAt
  }

  predicate OldestFirst(s: seq<ChatMessage>) {
    forall i, j :: 0 <= i < j < |s| ==> s[i].createdAt <= s[j].createdAt
  }

  /** Inserts `m` into a newest-first run, after every row at least as new. */
  function Insert(m: ChatMessage, s: seq<ChatMessage>): (r: seq<ChatMessage>)
    requires NewestFirst(s)
    ensures NewestFirst(r)
    ensures multiset(r) == multiset(s) + multiset{m}
    ensures r[0] == if s == [] || m.createdAt > s[0].createdAt then m else s[0]
  {
    if s == [] then [m]
    else if s[0].createdAt >= m.createdAt then
      assert s == [s[0]] + s[1..];
      [s[0]] + Insert(m, s[1..])
    else
      [m] + s
  }

  /** `order_by("-created_at")`: the rows sorted newest first. */
  function SortNewestFirst(s: seq<ChatMessage>): (r: seq<ChatMessage>)
    ensures NewestFirst(r)
    ensures multiset(r) == multiset(s)
  {
    if s == [] then []
    else
      assert s == [s[0]] + s[1..];
      Insert(s[0], SortNewestFirst(s[1..]))
  }

  function Reverse(s: seq<ChatMessage>): (r: seq<ChatMessage>)
    ensures |r| == |s|
    ensures forall i :: 0 <= i < |s| ==> r[i] == s[|s| - 1 - i]
  {
    if s == [] then [] else Reverse(s[1..]) + [s[0]]
  }

  function Min(a: nat, b: nat): nat { if a <= b then a else b }

  /**
   * `get_last_n_messages(user, n)`: the user's messages sorted newest first,
   * the first `n` of them, reversed.
   */
  function LastN(rows: seq<ChatMessage>, user: int, n: nat): (r: seq<ChatMessage>)
    ensures |r| == Min(n, |OfUser(rows, user)|)
  {
    var sorted := SortNewestFirst(OfUser(rows, user));
    Reverse(sorted[..Min(n, |sorted|)])
  }

  /**
   * What `get_last_n_messages` returns: at most `n` of the user's messages,
   * oldest first, and no message of the user left out is newer than one kept.
   */
  lemma LastNAreTheNewest(rows: seq<ChatMessage>, user: int, n: nat)
    ensures forall i :: 0 <= i < |LastN(rows, user, n)| ==> LastN(rows, user, n)[i].user == user
    ensures OldestFirst(LastN(rows, user, n))
    ensures multiset(LastN(rows, user, n)) <= multiset(OfUser(rows, user))
    ensures forall m, x :: m in multiset(OfUser(rows, user)) - multiset(LastN(rows, user, n)) && x in LastN(rows, user, n) ==>
              m.createdAt <= x.createdAt
  {
    var mine := OfUser(rows, user);
    var sorted := SortNewestFirst(mine);
    var k := Min(n, |sorted|);
    var r := LastN(rows, user, n);
    assert r == Reverse(sorted[..k]);
    TakeNewest(sorted, k);
    ReverseOfNewestFirst(sorted[..k]);
    forall i | 0 <= i < |r| ensures r[i].user == user {
      assert r[i] in multiset(mine);
    }
    forall m, x | m in multiset(mine) - multiset(r) && x in r ensures m.createdAt <= x.createdAt {
      assert x in multiset(sorted[..k]);
    }
  }

  /** Reversing keeps the elements and turns newest-first into oldest-first. */
  lemma {:induction false} ReverseOfNewestFirst(s: seq<ChatMessage>)
    requires NewestFirst(s)
    ensures OldestFirst(Reverse(s))
    ensures multiset(Reverse(s)) == multiset(s)
  {
    if s != [] {
      ReverseOfNewestFirst(s[1..]);
      assert s == [s[0]] + s[1..];
    }
  }

  /** In a newest-first run, everything after the first `k` is no newer than anything in them. */
  lemma TakeNewest(sorted: seq<ChatMessage>, k: nat)
    requires NewestFirst(sorted) && k <= |sorted|
    ensures multiset(sorted) - multiset(sorted[..k]) == multiset(sorted[k..])
    ensures forall m, x :: m in multiset(sorted[k..]) && x in multiset(sorted[..k]) ==> m.createdAt <= x.createdAt
  {
    assert sorted == sorted[..k] + sorted[k..];
    forall m, x | m in multiset(sorted[k..]) && x in multiset(sorted[..k]) ensures m.createdAt <= x.createdAt {
      var j :| 0 <= j < |sorted[k..]| && sorted[k..][j] == m;
      var i :| 0 <= i < k && sorted[..k][i] == x;
      assert sorted[k + j] == m && sorted[i] == x;
    }
  }
}
