/**
 * The in-memory fake API the screens import in place of the HTTP client.
 * Its one piece of state is the transaction list, which a post to
 * "transactions/" prepends to; every other path answers with fixed data.
 * The simulated network delay is left out.
 */
module MockApi {
  import opened Base
  import opened Text
  import opened Js

  const Token: string := "mock-token-123"
  const InvalidCredentials: string := "Invalid credentials"
  const LowerOfNonString: string := "TypeError: question.toLowerCase is not a function"
  const KnownQuestion: string := "how am i doing"
  const KnownAnswer: string := "Your financial health is good. Keep going!"
  const DefaultAnswer: string := "Sorry, I do not know that yet. Try \"how am i doing\"."

  /** `mock.chatbotReplies`. */
  const ChatbotReplies: map<string, string> := map[KnownQuestion := KnownAnswer, "default" := DefaultAnswer]

  const Score: JsValue := JObj(map[
    "financial_score" := JNum(72.0),
    "status" := JStr("Healthy"),
    "advice" := JStr("Keep tracking expenses. Try to save 10% monthly.")])

  const Forecast: JsValue := JObj(map[
    "next_7_days" := JList([JNum(120.0), JNum(90.0), JNum(100.0), JNum(110.0), JNum(95.0), JNum(130.0), JNum(105.0)])])

  const Seed: seq<Record> := [
    map["id" := JNum(1.0), "category" := JStr("expense"), "amount" := JNum(45.5), "description" := JStr("Lunch")],
    map["id" := JNum(2.0), "category" := JStr("income"), "amount" := JNum(500.0), "description" := JStr("Salary")],
    map["id" := JNum(3.0), "category" := JStr("expense"), "amount" := JNum(20.0), "description" := JStr("Taxi")]]

  /** `post('token/', body)`: the fixed token exactly when username and password are both truthy. */
  function TokenReply(body: Record): (r: Result<JsValue, string>)
    ensures r.Ok? <==> Truthy(Get(body, "username")) && Truthy(Get(body, "password"))
    ensures r.Ok? ==> r.value == JObj(map["access" := JStr(Token)])
    ensures r.Err? ==> r.error == InvalidCredentials
  {
    if Truthy(Get(body, "username")) && Truthy(Get(body, "password")) then Ok(JObj(map["access" := JStr(Token)]))
    else Err(InvalidCredentials)
  }

  /** `{ id, ...body }`: the fresh id, unless the body carries its own. */
  function NewTransaction(count: nat, body: Record): (tx: Record)
    ensures tx.Keys == body.Keys + {"id"}
    ensures tx["id"] == if "id" in body then body["id"] else JNum((count + 1) as real)
    ensures forall k :: k in body && k != "id" ==> tx[k] == body[k]
  {
    map["id" := JNum((count + 1) as real)] + body
  }

  /**
   * `post('chatbot/', body)`: the reply for the lower-cased question, or the
   * default reply; a truthy question that is not a string cannot be
   * lower-cased and throws.
   */
  function ChatbotReply(body: Record): (r: Result<JsValue, string>)
    ensures Truthy(Get(body, "question")) && !Get(body, "question").JStr? <==> r.Err?
    ensures r.Ok? ==>
              var q := if Truthy(Get(body, "question")) then Lower(Get(body, "question").s) else "";
              r.value == JObj(map["answer" := JStr(if q == KnownQuestion then KnownAnswer else DefaultAnswer)])
  {
    var question := Or(Get(body, "question"), JStr(""));
    if !question.JStr? then Err(LowerOfNonString)
    else
      var q := Lower(question.s);
      var answer := if q in ChatbotReplies then ChatbotReplies[q] else ChatbotReplies["default"];
      Ok(JObj(map["answer" := JStr(answer)]))
  }

  /** The id a transaction shows, or 0 when it has no numeric id. */
  function IdOf(tx: Record): real {
    if "id" in tx && tx["id"].JNum? then tx["id"].x else 0.0
  }

  function Ids(ts: seq<Record>): (r: seq<real>)
    ensures |r| == |ts| && forall i :: 0 <= i < |ts| ==> r[i] == IdOf(ts[i])
  {
    seq(|ts|, i requires 0 <= i < |ts| => IdOf(ts[i]))
  }

  /** 1, 2, ..., n. */
  function OneTo(n: nat): (r: seq<real>)
    ensures |r| == n && forall i :: 0 <= i < n ==> r[i] == (i + 1) as real
  {
    seq(n, i => (i + 1) as real)
  }

  /** The ids of the list are 1 to its length, each once, in some order. */
  predicate IdsExact(ts: seq<Record>) {
    multiset(Ids(ts)) == multiset(OneTo(|ts|))
  }

  lemma SeedIdsExact()
    ensures IdsExact(Seed)
  {
    assert Ids(Seed) == OneTo(3);
  }

  /** Prepending a posted transaction whose body has no id keeps the ids exact. */
  lemma PrependKeepsIdsExact(ts: seq<Record>, body: Record)
    requires IdsExact(ts) && "id" !in body
    ensures IdsExact([NewTransaction(|ts|, body)] + ts)
  {
    var t2 := [NewTransaction(|ts|, body)] + ts;
    assert Ids(t2) == [(|ts| + 1) as real] + Ids(ts);
    assert OneTo(|t2|) == OneTo(|ts|) + [(|ts| + 1) as real];
  }

  lemma {:induction false} OneToOnce(n: nat, v: real)
    ensures multiset(OneTo(n))[v] <= 1
  {
    if n > 0 {
      OneToOnce(n - 1, v);
      assert OneTo(n) == OneTo(n - 1) + [n as real];
      if v == n as real {
        assert v !in OneTo(n - 1);
      }
    }
  }

  /**
   * Exact ids are distinct and cover 1 to the length: every id is in that
   * range, each number in it is some transaction's id, and no two
   * transactions share one.
   */
  lemma IdsExactMeansOneToN(ts: seq<Record>)
    requires IdsExact(ts)
    ensures forall i :: 0 <= i < |ts| ==> 1.0 <= IdOf(ts[i]) <= |ts| as real
    ensures forall x :: x in OneTo(|ts|) <==> x in Ids(ts)
    ensures forall i, j :: 0 <= i < j < |ts| ==> IdOf(ts[i]) != IdOf(ts[j])
  {
    var ids := Ids(ts);
    forall i | 0 <= i < |ts|
      ensures 1.0 <= IdOf(ts[i]) <= |ts| as real
    {
      assert ids[i] in multiset(OneTo(|ts|));
      var k :| 0 <= k < |ts| && OneTo(|ts|)[k] == ids[i];
    }
    forall x
      ensures x in OneTo(|ts|) <==> x in ids
    {
      assert x in OneTo(|ts|) <==> x in multiset(OneTo(|ts|));
      assert x in ids <==> x in multiset(ids);
    }
    forall i, j | 0 <= i < j < |ts|
      ensures IdOf(ts[i]) != IdOf(ts[j])
    {
      if ids[i] == ids[j] {
        var v := ids[i];
        assert ids == ids[..i] + [v] + ids[i + 1..j] + [v] + ids[j + 1..];
        assert multiset(ids)[v] >= 2;
        OneToOnce(|ts|, v);
        assert false;
      }
    }
  }

  /** The module-level `mock` object: the transaction list it holds. */
  class MockServer {
    var transactions: seq<Record>

    constructor()
      ensures transactions == Seed && IdsExact(transactions)
    {
      transactions := Seed;
      SeedIdsExact();
    }

    /**
     * `post(path, body)`. Only "transactions/" changes state: it puts the new
     * transaction at the front and keeps the rest in order.
     */
    method Post(path: string, body: Record) returns (r: Result<JsValue, string>)
      modifies this`transactions
      ensures path == "token/" ==> r == TokenReply(body) && transactions == old(transactions)
      ensures path == "register/" ==> r == Ok(JObj(map["ok" := JBool(true)]))
      ensures path == "transactions/" ==>
                var tx := NewTransaction(|old(transactions)|, body);
                r == Ok(JObj(tx)) && transactions == [tx] + old(transactions)
      ensures path == "chatbot/" ==> r == ChatbotReply(body)
      ensures path !in {"token/", "register/", "transactions/", "chatbot/"} ==> r == Ok(JObj(map[]))
      ensures path != "transactions/" ==> transactions == old(transactions)
      ensures path == "transactions/" && IdsExact(old(transactions)) && "id" !in body ==> IdsExact(transactions)
    {
      if path == "token/" {
        return TokenReply(body);
      }
      if path == "register/" {
        return Ok(JObj(map["ok" := JBool(true)]));
      }
      if path == "transactions/" {
        var tx := NewTransaction(|transactions|, body);
        if IdsExact(transactions) && "id" !in body {
          PrependKeepsIdsExact(transactions, body);
        }
        transactions := [tx] + transactions;
        return Ok(JObj(tx));
      }
      if path == "chatbot/" {
        return ChatbotReply(body);
      }
      return Ok(JObj(map[]));
    }

    /** `get(path)`: fixed data, or the current transaction list. */
    method Get(path: string) returns (r: JsValue)
      ensures path == "score/" ==> r == Score
      ensures path == "forecast/" ==> r == Forecast
      ensures path == "transactions/" ==>
                r.JList? && |r.items| == |transactions| &&
                forall i :: 0 <= i < |transactions| ==> r.items[i] == JObj(transactions[i])
      ensures path !in {"score/", "forecast/", "transactions/"} ==> r == JObj(map[])
    {
      if path == "score/" {
        return Score;
      }
      if path == "forecast/" {
        return Forecast;
      }
      if path == "transactions/" {
        return JList(seq(|transactions|, i requires 0 <= i < |transactions| reads this => JObj(transactions[i])));
      }
      return JObj(map[]);
    }
  }

  /** A posted transaction is listed first by the next `get('transactions/')`, the earlier ones after it. */
  method PostThenList(api: MockServer, body: Record) returns (listed: JsValue)
    modifies api
    ensures listed.JList? && |listed.items| == |old(api.transactions)| + 1
    ensures listed.items[0] == JObj(NewTransaction(|old(api.transactions)|, body))
    ensures forall i :: 0 <= i < |old(api.transactions)| ==> listed.items[i + 1] == JObj(old(api.transactions)[i])
  {
    ghost var before := api.transactions;
    var _ := api.Post("transactions/", body);
    ghost var after := api.transactions;
    assert after == [NewTransaction(|before|, body)] + before;
    listed := api.Get("transactions/");
    assert forall i :: 0 <= i < |after| ==> listed.items[i] == JObj(after[i]);
    forall i | 0 <= i < |before|
      ensures listed.items[i + 1] == JObj(before[i])
    {
      assert after[i + 1] == before[i];
    }
  }
}
