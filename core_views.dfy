/**
 * The request handlers of the main Django backend that hold logic: the expense
 * forecast guard, the financial health totals, the local keyword chatbot and
 * the language-model proxy with its conversation history.
 */
module CoreViews {
  import opened Base
  import opened Text
  import opened Dispatch
  import opened Ledger
  import opened FinanceScore
  import opened ChatHistory

  /** The JSON bodies the views return. */
  datatype Body =
    | Reply(reply: string)                   // {"reply": ...}
    | Detail(detail: string)                 // {"detail": ...}
    | Error(error: string)                   // {"error": ...}
    | Predictions(nextSevenDays: seq<real>)  // {"next_7_days": ...}
    | Score(report: ScoreReport)             // the score dictionary
    | Saved(message: ChatMessage)            // the serialized ChatMessage
    | Unhandled(exception: string)           // an exception the view lets escape: the framework's 500

  datatype Response = Response(status: int, body: Body)

  /**
   * The `"message"` key of the request body: missing, JSON `null`, a string,
   * or another JSON value (number, boolean, list, object), known by its Python
   * type name and its truth value.
   */
  datatype MessageField = Absent | Null | Str(s: string) | Other(typeName: string, truthy: bool)

  /** The `AttributeError` text of calling `.strip()` on a value of the named type. */
  function StripError(typeName: string): string {
    "'" + typeName + "' object has no attribute 'strip'"
  }

  /**
   * `(request.data.get("message") or "").strip()`: a falsy value reads as the
   * empty text, a string is stripped, and any other truthy value raises.
   */
  function StrippedOrEmpty(field: MessageField): (r: Result<string, string>)
    ensures r.Err? <==> field.Other? && field.truthy
    ensures r.Err? ==> r.error == StripError(field.typeName)
    ensures field.Str? ==> r == Ok(Strip(field.s, PythonSpace))
    ensures r.Ok? && !field.Str? ==> r.value == []
  {
    match field
    case Str(s) => Ok(Strip(s, PythonSpace))
    case Other(t, truthy) => if truthy then Err(StripError(t)) else Ok("")
    case _ => Ok("")
  }

  /** What `build_lstm_model(data)` does: returns predictions or raises. */
  datatype Prediction = Predicted(values: seq<real>) | PredictorFailed(reason: string)

  /** What the call to the language-model provider yields: the reply content, or an exception. */
  datatype ProviderReply = Answered(content: string) | CallFailed(reason: string)

  /** Python's text conversions used in replies: `f"{x:.2f}"`, `str(x)` of a number, `str(list)`. */
  datatype Formatter = Formatter(fixed2: real -> string, number: real -> string, list: seq<real> -> string)

  const NeedSevenRecords: string := "Need at least 7 expense records."

  /**
   * `ExpenseForecastView.get`: `ts` are the user's transactions in date order.
   * Fewer than seven expense amounts is a 400; a raising predictor is a 500.
   */
  function ForecastGet(ts: seq<Transaction>, predict: seq<real> -> Prediction): (r: Response)
    ensures |ExpenseAmounts(ts)| < 7 ==> r == Response(400, Error(NeedSevenRecords))
    ensures |ExpenseAmounts(ts)| >= 7 ==>
              match predict(ExpenseAmounts(ts))
              case Predicted(p) => r == Response(200, Predictions(p))
              case PredictorFailed(e) => r == Response(500, Error(e))
  {
    var data := ExpenseAmounts(ts);
    if |data| < 7 then Response(400, Error(NeedSevenRecords))
    else
      match predict(data)
      case Predicted(p) => Response(200, Predictions(p))
      case PredictorFailed(e) => Response(500, Error(e))
  }

  /** Below seven expense records the predictor is never consulted: any two predictors give the same response. */
  lemma ForecastGuardSkipsPredictor(ts: seq<Transaction>, p1: seq<real> -> Prediction, p2: seq<real> -> Prediction)
    requires |ExpenseAmounts(ts)| < 7
    ensures ForecastGet(ts, p1) == ForecastGet(ts, p2) == Response(400, Error(NeedSevenRecords))
  {
  }

  /** `FinancialHealthView.get`: the score of the case-insensitive income and expense totals. */
  function HealthGet(ts: seq<Transaction>, round2: real -> real): (r: Response)
    requires IsCentRounding(round2)
    ensures r.status == 200 && r.body.Score?
    ensures r.body.report == CalculateFinancialScore(round2,
              SumWhere(ts, InCategoryIgnoringCase("income")), SumWhere(ts, InCategoryIgnoringCase("expense")))
  {
    var income := SumWhere(ts, InCategoryIgnoringCase("income"));
    var expense := SumWhere(ts, InCategoryIgnoringCase("expense"));
    Response(200, Score(CalculateFinancialScore(round2, income, expense)))
  }

  // ---------------------------------------------------------------- local chatbot

  datatype Intent = Hello | IncomeQuery | SpendingQuery | HealthQuery | ForecastQuery | SavingTip | EmiQuery | Unsure

  /** The intent rules, in the order the view tries them. */
  const IntentRules: seq<Rule<Intent>> := [
    Rule(["hello", "hi", "hey"], Hello),
    Rule(["income"], IncomeQuery),
    Rule(["expense", "spent"], SpendingQuery),
    Rule(["score", "health"], HealthQuery),
    Rule(["forecast", "predict"], ForecastQuery),
    Rule(["save", "advice"], SavingTip),
    Rule(["emi"], EmiQuery)
  ]

  /** The `if`/`elif` chain of `ChatbotView.post` on the normalised message. */
  function IntentOf(msg: string): Intent {
    if Contains(msg, "hello") || Contains(msg, "hi") || Contains(msg, "hey") then Hello
    else if Contains(msg, "income") then IncomeQuery
    else if Contains(msg, "expense") || Contains(msg, "spent") then SpendingQuery
    else if Contains(msg, "score") || Contains(msg, "health") then HealthQuery
    else if Contains(msg, "forecast") || Contains(msg, "predict") then ForecastQuery
    else if Contains(msg, "save") || Contains(msg, "advice") then SavingTip
    else if Contains(msg, "emi") then EmiQuery
    else Unsure
  }

  lemma IntentRulesFire(msg: string)
    ensures Fires(IntentRules[0], msg) == (Contains(msg, "hello") || Contains(msg, "hi") || Contains(msg, "hey"))
    ensures Fires(IntentRules[1], msg) == Contains(msg, "income")
    ensures Fires(IntentRules[2], msg) == (Contains(msg, "expense") || Contains(msg, "spent"))
    ensures Fires(IntentRules[3], msg) == (Contains(msg, "score") || Contains(msg, "health"))
    ensures Fires(IntentRules[4], msg) == (Contains(msg, "forecast") || Contains(msg, "predict"))
    ensures Fires(IntentRules[5], msg) == (Contains(msg, "save") || Contains(msg, "advice"))
    ensures Fires(IntentRules[6], msg) == Contains(msg, "emi")
  {
    ContainsAnyOfThree(msg, "hello", "hi", "hey");
    ContainsAnyOfOne(msg, "income");
    ContainsAnyOfTwo(msg, "expense", "spent");
    ContainsAnyOfTwo(msg, "score", "health");
    ContainsAnyOfTwo(msg, "forecast", "predict");
    ContainsAnyOfTwo(msg, "save", "advice");
    ContainsAnyOfOne(msg, "emi");
  }

  /**
   * The chain picks exactly one intent: the topic of the first rule in
   * greeting, income, expense, score, forecast, saving, EMI order that fires.
   */
  lemma IntentIsFirstMatch(msg: string)
    ensures IntentOf(msg) == FirstMatch(IntentRules, msg, Unsure)
  {
    IntentRulesFire(msg);
    var k := FirstFiring(IntentRules, msg);
    assert |IntentRules| == 7;
    if k < 7 {
      assert Fires(IntentRules[k], msg);
    }
  }

  /** `(request.data.get("message") or "").strip().lower()`. */
  function LocalMessage(field: MessageField): (r: Result<string, string>)
    ensures r.Err? <==> StrippedOrEmpty(field).Err?
    ensures r.Err? ==> r.error == StrippedOrEmpty(field).error
    ensures r.Ok? ==> r.value == Lower(StrippedOrEmpty(field).value)
  {
    match StrippedOrEmpty(field)
    case Ok(text) => Ok(Lower(text))
    case Err(e) => Err(e)
  }

  const EmptyMessageReply: string := "Please type a message."
  const NeedSevenForForecast: string := "I need at least 7 expense records to generate a forecast."
  const SavingTipReply: string := "Tip: Use the 50-30-20 rule — 50% needs, 30% wants, 20% savings."
  const EmiReply: string := "EMI = Equated Monthly Installment — fixed monthly loan repayment."
  const UnsureReply: string := "I'm not sure how to respond to that. Try asking about income, expenses, score, or forecast."

  /**
   * The reply `ChatbotView.post` composes for a non-empty normalised message;
   * `Err` when the predictor raises (the view does not catch it).
   */
  function LocalReply(msg: string, username: string, ts: seq<Transaction>, round2: real -> real,
                      predict: seq<real> -> Prediction, fmt: Formatter): (r: Result<string, string>)
    requires IsCentRounding(round2)
    ensures IntentOf(msg) != ForecastQuery ==> r.Ok?
    ensures IntentOf(msg) == ForecastQuery && |ExpenseAmounts(ts)| < 7 ==> r == Ok(NeedSevenForForecast)
    ensures IntentOf(msg) == Unsure ==> r == Ok(UnsureReply)
  {
    var income := SumWhere(ts, InCategory("income"));
    var expense := SumWhere(ts, InCategory("expense"));
    match IntentOf(msg)
    case Hello => Ok("Hello " + username + "! How can I assist you today?")
    case IncomeQuery => Ok("Your total income is ₹" + fmt.fixed2(income) + ".")
    case SpendingQuery => Ok("You have spent a total of ₹" + fmt.fixed2(expense) + ".")
    case HealthQuery =>
      var report := CalculateFinancialScore(round2, income, expense);
      Ok("Your financial health score is " + fmt.number(report.score) + ". Status: " + report.status + ".")
    case ForecastQuery =>
      var data := ExpenseAmounts(ts);
      if |data| < 7 then Ok(NeedSevenForForecast)
      else (match predict(data)
            case Predicted(p) => Ok("Your next 7-day predicted expenses are: " + fmt.list(p))
            case PredictorFailed(e) => Err(e))
    case SavingTip => Ok(SavingTipReply)
    case EmiQuery => Ok(EmiReply)
    case Unsure => Ok(UnsureReply)
  }

  /** The income rule precedes the expense rule here (the reverse of the standalone assistant). */
  lemma IncomeBeforeExpense(msg: string, username: string, ts: seq<Transaction>, round2: real -> real,
                            predict: seq<real> -> Prediction, fmt: Formatter)
    requires IsCentRounding(round2)
    requires !Contains(msg, "hello") && !Contains(msg, "hi") && !Contains(msg, "hey")
    requires Contains(msg, "income") && Contains(msg, "expense")
    ensures LocalReply(msg, username, ts, round2, predict, fmt) ==
              Ok("Your total income is ₹" + fmt.fixed2(SumWhere(ts, InCategory("income"))) + ".")
  {
  }

  /**
   * `ChatbotView.post`: a truthy non-string message raises before anything
   * else; an empty normalised message is a 400 and stores nothing; otherwise
   * exactly one ChatMessage holding the normalised text, the reply and source
   * "local" is stored and returned with 201.
   */
  method ChatbotPost(db: Backend, user: int, username: string, message: MessageField, ts: seq<Transaction>,
                     now: int, round2: real -> real, predict: seq<real> -> Prediction, fmt: Formatter)
    returns (resp: Response)
    requires IsCentRounding(round2)
    modifies db`chatRows
    ensures LocalMessage(message).Err? ==>
              resp == Response(500, Unhandled(LocalMessage(message).error)) && db.chatRows == old(db.chatRows)
    ensures LocalMessage(message) == Ok([]) ==>
              resp == Response(400, Reply(EmptyMessageReply)) && db.chatRows == old(db.chatRows)
    ensures LocalMessage(message).Ok? && LocalMessage(message).value != [] ==>
              var msg := LocalMessage(message).value;
              match LocalReply(msg, username, ts, round2, predict, fmt)
              case Ok(reply) =>
                var stored := ChatMessage(user, msg, reply, "local", now);
                resp == Response(201, Saved(stored)) && db.chatRows == old(db.chatRows) + [stored]
              case Err(e) => resp == Response(500, Unhandled(e)) && db.chatRows == old(db.chatRows)
  {
    var normalised := LocalMessage(message);
    if normalised.Err? {
      return Response(500, Unhandled(normalised.error));
    }
    var msg := normalised.value;
    if msg == [] {
      return Response(400, Reply(EmptyMessageReply));
    }
    var reply := LocalReply(msg, username, ts, round2, predict, fmt);
    match reply
    case Err(e) =>
      resp := Response(500, Unhandled(e));
    case Ok(text) =>
      var stored := ChatMessage(user, msg, text, "local", now);
      db.Store(stored);
      resp := Response(201, Saved(stored));
  }

  /** Falsy JSON values other than text (`0`, `false`, `[]`, `{}`) read as an empty message, like a missing one. */
  lemma FalsyMessagesAreEmpty(typeName: string)
    ensures LocalMessage(Other(typeName, false)) == LocalMessage(Absent) == LocalMessage(Null) == Ok([])
  {
  }

  // ---------------------------------------------------------------- language-model proxy

  /** The conversation so far: a user entry and an assistant entry per prior message, in order. */
  function Exchanges(prior: seq<ChatMessage>): (r: seq<Entry>)
    ensures |r| == 2 * |prior|
    ensures forall i :: 0 <= i < |prior| ==>
              r[2 * i] == Entry(User, prior[i].message) && r[2 * i + 1] == Entry(Assistant, prior[i].reply)
  {
    if prior == [] then []
    else
      var last := prior[|prior| - 1];
      Exchanges(prior[..|prior| - 1]) + [Entry(User, last.message), Entry(Assistant, last.reply)]
  }

  /**
   * The history loop of `ChatbotLLMView.post`: the exchanges of the prior
   * messages, then the new user message.
   */
  method BuildHistory(prior: seq<ChatMessage>, userMsg: string) returns (history: seq<Entry>)
    ensures history == Exchanges(prior) + [Entry(User, userMsg)]
  {
    history := [];
    for i := 0 to |prior|
      invariant history == Exchanges(prior[..i])
    {
      assert prior[..i + 1][..i] == prior[..i];
      history := history + [Entry(User, prior[i].message)];
      history := history + [Entry(Assistant, prior[i].reply)];
    }
    assert prior[..|prior|] == prior;
    history := history + [Entry(User, userMsg)];
  }

  const NoneStripError: string := "'NoneType' object has no attribute 'strip'"
  const HistoryDepth: nat := 6

  /** `if not api_key`: the key is missing or empty. */
  predicate KeyMissing(key: Option<string>) {
    key == None || key == Some("")
  }

  /** The outbound message list is 2k+1 entries for the k <= 6 newest prior messages. */
  lemma HistoryShape(rows: seq<ChatMessage>, user: int, msg: string)
    ensures var prior := LastN(rows, user, HistoryDepth);
            var sent := Exchanges(prior) + [Entry(User, msg)];
            |prior| <= HistoryDepth && |sent| == 2 * |prior| + 1 && sent[|sent| - 1] == Entry(User, msg)
  {
  }

  /**
   * `ChatbotLLMView.post`. The message is checked before the key (400, then
   * 503), and neither error path calls the provider or stores anything; a
   * message that is neither text nor missing, `null` included, makes `.strip()`
   * raise, since there is no `or ""` here. Otherwise the provider gets
   * the history, and only an answer is stored, unstripped, as "openrouter".
   */
  method LlmPost(db: Backend, user: int, message: MessageField, apiKey: Option<string>,
                 provider: seq<Entry> -> ProviderReply, now: int)
    returns (resp: Response)
    modifies db
    ensures message.Null? ==>
              resp == Response(500, Unhandled(NoneStripError)) &&
              db.chatRows == old(db.chatRows) && db.llmCalls == old(db.llmCalls)
    ensures message.Other? ==>
              resp == Response(500, Unhandled(StripError(message.typeName))) &&
              db.chatRows == old(db.chatRows) && db.llmCalls == old(db.llmCalls)
    ensures (message.Absent? || (message.Str? && Strip(message.s, PythonSpace) == [])) ==>
              resp == Response(400, Detail("Message required.")) &&
              db.chatRows == old(db.chatRows) && db.llmCalls == old(db.llmCalls)
    ensures message.Str? && Strip(message.s, PythonSpace) != [] && KeyMissing(apiKey) ==>
              resp == Response(503, Detail("OpenRouter API key missing")) &&
              db.chatRows == old(db.chatRows) && db.llmCalls == old(db.llmCalls)
    ensures message.Str? && Strip(message.s, PythonSpace) != [] && !KeyMissing(apiKey) ==>
              var msg := Strip(message.s, PythonSpace);
              var sent := Exchanges(LastN(old(db.chatRows), user, HistoryDepth)) + [Entry(User, msg)];
              db.llmCalls == old(db.llmCalls) + [sent] &&
              match provider(sent)
              case Answered(c) =>
                resp == Response(200, Saved(ChatMessage(user, msg, c, "openrouter", now))) &&
                db.chatRows == old(db.chatRows) + [ChatMessage(user, msg, c, "openrouter", now)]
              case CallFailed(e) => resp == Response(500, Detail(e)) && db.chatRows == old(db.chatRows)
  {
    var msg: string;
    match message {
      case Null => return Response(500, Unhandled(NoneStripError));
      case Other(t, _) => return Response(500, Unhandled(StripError(t)));
      case Absent => msg := "";
      case Str(s) => msg := Strip(s, PythonSpace);
    }
    if msg == [] {
      return Response(400, Detail("Message required."));
    }
    if KeyMissing(apiKey) {
      return Response(503, Detail("OpenRouter API key missing"));
    }
    var history := BuildHistory(LastN(db.chatRows, user, HistoryDepth), msg);
    db.Call(history);
    match provider(history)
    case CallFailed(e) =>
      resp := Response(500, Detail(e));
    case Answered(content) =>
      var stored := ChatMessage(user, msg, content, "openrouter", now);
      db.Store(stored);
      resp := Response(200, Saved(stored));
  }
}
