/**
 * The second Django backend (financial-ai-app). Its forecast view, local
 * chatbot and history query are the same code as the main backend's and are
 * modelled by `CoreViews.ForecastGet`, `CoreViews.ChatbotPost` and
 * `ChatHistory.LastN`; what differs is modelled here: exact category matches
 * in the health totals, and an OpenAI proxy with a system prompt, a shorter
 * history and a stripped reply.
 */
module AppViews {
  import opened Base
  import opened Text
  import opened Ledger
  import opened FinanceScore
  import opened ChatHistory
  import CoreViews

  /** `FinancialHealthView.get`: the score of the exact "income" and "expense" totals. */
  function HealthGet(ts: seq<Transaction>, round2: real -> real): (r: CoreViews.Response)
    requires IsCentRounding(round2)
    ensures r.status == 200 && r.body.Score?
    ensures r.body.report == CalculateFinancialScore(round2,
              SumWhere(ts, InCategory("income")), SumWhere(ts, InCategory("expense")))
  {
    var income := SumWhere(ts, InCategory("income"));
    var expense := SumWhere(ts, InCategory("expense"));
    CoreViews.Response(200, CoreViews.Score(CalculateFinancialScore(round2, income, expense)))
  }

  /**
   * The exact match ignores a capitalised category that the main backend's
   * case-insensitive match counts: a lone "Income" of 10 scores "Excellent"
   * there and "Poor" (no data) here.
   */
  lemma HealthTotalsDifferOnCase(round2: real -> real, d: Date)
    requires IsCentRounding(round2)
    ensures var ts := [Transaction("Income", 10.0, d)];
            CoreViews.HealthGet(ts, round2).body.report.status == "Excellent" &&
            HealthGet(ts, round2).body.report == ScoreReport(0.0, "Poor", NoDataAdvice)
  {
    var ts := [Transaction("Income", 10.0, d)];
    assert ts[..|ts| - 1] == [];
    assert Lower("Income") == "income" == Lower("income");
    assert Selects(InCategoryIgnoringCase("income"), ts[0]) && !Selects(InCategoryIgnoringCase("expense"), ts[0]);
    assert SumWhere(ts, InCategoryIgnoringCase("income")) == SumWhere([], InCategoryIgnoringCase("income")) + 10.0;
    assert SumWhere(ts, InCategoryIgnoringCase("expense")) == SumWhere([], InCategoryIgnoringCase("expense"));
    assert !Selects(InCategory("income"), ts[0]) && !Selects(InCategory("expense"), ts[0]);
    assert SumWhere(ts, InCategory("income")) == SumWhere([], InCategory("income"));
    assert SumWhere(ts, InCategory("expense")) == SumWhere([], InCategory("expense"));
    NoExpensesIsExcellent(round2, 10.0);
  }

  const SystemPrompt: string := "You are a finance assistant."
  const HistoryDepth: nat := 4

  /**
   * `(request.data.get("message") or "").strip()`: a missing, `null` or other
   * falsy message reads as empty; a truthy value that is not text raises.
   */
  function LlmMessage(field: CoreViews.MessageField): (r: Result<string, string>)
    ensures r.Err? <==> field.Other? && field.truthy
    ensures field.Str? ==> r == Ok(Strip(field.s, PythonSpace))
    ensures field.Other? && !field.truthy ==> r == Ok([])
  {
    CoreViews.StrippedOrEmpty(field)
  }

  /** The list this backend sends to the provider. */
  function Messages(prior: seq<ChatMessage>, userMsg: string): seq<Entry> {
    [Entry(System, SystemPrompt)] + CoreViews.Exchanges(prior) + [Entry(User, userMsg)]
  }

  /**
   * The history loop of this `ChatbotLLMView.post`: the system prompt, the
   * exchanges of the prior messages, then the new user message.
   */
  method BuildMessages(prior: seq<ChatMessage>, userMsg: string) returns (messages: seq<Entry>)
    ensures messages == Messages(prior, userMsg)
  {
    messages := [Entry(System, SystemPrompt)];
    for i := 0 to |prior|
      invariant messages == [Entry(System, SystemPrompt)] + CoreViews.Exchanges(prior[..i])
    {
      assert prior[..i + 1][..i] == prior[..i];
      messages := messages + [Entry(User, prior[i].message)];
      messages := messages + [Entry(Assistant, prior[i].reply)];
    }
    assert prior[..|prior|] == prior;
    messages := messages + [Entry(User, userMsg)];
  }

  /**
   * The list sent to the provider: one system prompt, the prior
   * user/assistant pairs in order, the new user message; 2k+2 entries.
   */
  lemma MessagesShape(prior: seq<ChatMessage>, msg: string)
    ensures |Messages(prior, msg)| == 2 * |prior| + 2
    ensures Messages(prior, msg)[0] == Entry(System, SystemPrompt)
    ensures Messages(prior, msg)[2 * |prior| + 1] == Entry(User, msg)
    ensures forall i :: 0 <= i < |prior| ==>
              Messages(prior, msg)[2 * i + 1] == Entry(User, prior[i].message) &&
              Messages(prior, msg)[2 * i + 2] == Entry(Assistant, prior[i].reply)
  {
    var ex := CoreViews.Exchanges(prior);
    var sent := Messages(prior, msg);
    forall i | 0 <= i < |prior|
      ensures sent[2 * i + 1] == Entry(User, prior[i].message) && sent[2 * i + 2] == Entry(Assistant, prior[i].reply)
    {
      assert sent[2 * i + 1] == ex[2 * i] && sent[2 * i + 2] == ex[2 * i + 1];
    }
  }

  /** At most four earlier exchanges reach the provider, all of them the user's own. */
  lemma HistoryIsBounded(rows: seq<ChatMessage>, user: int, msg: string)
    ensures |Messages(LastN(rows, user, HistoryDepth), msg)| <= 2 * HistoryDepth + 2
    ensures forall i :: 0 <= i < |LastN(rows, user, HistoryDepth)| ==> LastN(rows, user, HistoryDepth)[i].user == user
  {
    MessagesShape(LastN(rows, user, HistoryDepth), msg);
    LastNAreTheNewest(rows, user, HistoryDepth);
  }

  /**
   * `ChatbotLLMView.post` of this backend. A truthy message that is not text
   * raises (a 500 by the framework); a missing, `null`, falsy or blank message
   * is a 400 and a missing key a 503, both before any history is built; any
   * failure of the call is a 500 with nothing stored; an answer is stored
   * stripped, with source "llm".
   */
  method LlmPost(db: Backend, user: int, message: CoreViews.MessageField, apiKey: Option<string>,
                 provider: seq<Entry> -> CoreViews.ProviderReply, now: int)
    returns (resp: CoreViews.Response)
    modifies db
    ensures LlmMessage(message).Err? ==>
              resp == CoreViews.Response(500, CoreViews.Unhandled(LlmMessage(message).error)) &&
              db.chatRows == old(db.chatRows) && db.llmCalls == old(db.llmCalls)
    ensures LlmMessage(message) == Ok([]) ==>
              resp == CoreViews.Response(400, CoreViews.Detail("Message required.")) &&
              db.chatRows == old(db.chatRows) && db.llmCalls == old(db.llmCalls)
    ensures LlmMessage(message).Ok? && LlmMessage(message).value != [] && CoreViews.KeyMissing(apiKey) ==>
              resp == CoreViews.Response(503, CoreViews.Detail("OPENAI_API_KEY not set")) &&
              db.chatRows == old(db.chatRows) && db.llmCalls == old(db.llmCalls)
    ensures LlmMessage(message).Ok? && LlmMessage(message).value != [] && !CoreViews.KeyMissing(apiKey) ==>
              var msg := LlmMessage(message).value;
              var sent := Messages(LastN(old(db.chatRows), user, HistoryDepth), msg);
              db.llmCalls == old(db.llmCalls) + [sent] &&
              match provider(sent)
              case Answered(c) =>
                resp == CoreViews.Response(200, CoreViews.Saved(ChatMessage(user, msg, Strip(c, PythonSpace), "llm", now))) &&
                db.chatRows == old(db.chatRows) + [ChatMessage(user, msg, Strip(c, PythonSpace), "llm", now)]
              case CallFailed(e) =>
                resp == CoreViews.Response(500, CoreViews.Detail(e)) && db.chatRows == old(db.chatRows)
  {
    var read := LlmMessage(message);
    if read.Err? {
      return CoreViews.Response(500, CoreViews.Unhandled(read.error));
    }
    var msg := read.value;
    if msg == [] {
      return CoreViews.Response(400, CoreViews.Detail("Message required."));
    }
    if CoreViews.KeyMissing(apiKey) {
      return CoreViews.Response(503, CoreViews.Detail("OPENAI_API_KEY not set"));
    }
    var messages := BuildMessages(LastN(db.chatRows, user, HistoryDepth), msg);
    db.Call(messages);
    match provider(messages)
    case CallFailed(e) =>
      resp := CoreViews.Response(500, CoreViews.Detail(e));
    case Answered(content) =>
      var stored := ChatMessage(user, msg, Strip(content, PythonSpace), "llm", now);
      db.Store(stored);
      resp := CoreViews.Response(200, CoreViews.Saved(stored));
  }
}
