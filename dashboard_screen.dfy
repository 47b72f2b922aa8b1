/**
 * The dashboard screen: the logout handler, the sequential `loadData`
 * fetches, and the income, expense and balance totals it displays.
 */
module DashboardScreen {
  import opened Base
  import opened Js
  import opened Client
  import opened AxiosClient

  /** The outcome of one awaited request: it threw, or it produced `res.data`. */
  datatype Fetch = Failed | Fetched(data: JsValue)

  /**
   * `v.key` on a response body: `null` and `undefined` throw, an object
   * gives its property, any other value has no such property.
   */
  function Prop(v: JsValue, key: string): (r: Option<JsValue>)
    ensures r.None? <==> v.JNull? || v.JUndefined?
    ensures v.JObj? ==> r == Some(Get(v.fields, key))
  {
    match v
    case JNull => None
    case JUndefined => None
    case JObj(fields) => Some(Get(fields, key))
    case _ => Some(JUndefined)
  }

  /** Some item of the list is `null` or `undefined`, so reading its `amount` throws. */
  predicate HasHole(items: seq<JsValue>) {
    exists i :: 0 <= i < |items| && Prop(items[i], "amount").None?
  }

  /**
   * `items.reduce((sum, i) => sum + Number(i.amount), 0)`, with `Number`
   * given as `toNumber`; `None` when reading some `i.amount` throws.
   */
  function Total(items: seq<JsValue>, toNumber: JsValue -> real): (t: Option<real>)
    ensures t.None? <==> HasHole(items)
    ensures items == [] ==> t == Some(0.0)
    ensures |items| == 1 && items[0].JObj? ==> t == Some(toNumber(Get(items[0].fields, "amount")))
  {
    if items == [] then Some(0.0)
    else
      var front := items[..|items| - 1];
      var last := items[|items| - 1];
      var t := Total(front, toNumber);
      assert HasHole(front) ==> HasHole(items) by {
        if HasHole(front) {
          var i :| 0 <= i < |front| && Prop(front[i], "amount").None?;
          assert items[i] == front[i];
        }
      }
      assert HasHole(items) && !HasHole(front) ==> Prop(last, "amount").None? by {
        if HasHole(items) && !HasHole(front) {
          var i :| 0 <= i < |items| && Prop(items[i], "amount").None?;
          assert forall j :: 0 <= j < |front| ==> items[j] == front[j];
        }
      }
      match (t, Prop(last, "amount"))
      case (Some(sum), Some(amount)) => Some(sum + toNumber(amount))
      case _ => None
  }

  /** The total of a concatenation is the sum of the totals, and throws exactly when either part does. */
  lemma {:induction false} TotalAppend(a: seq<JsValue>, b: seq<JsValue>, toNumber: JsValue -> real)
    ensures Total(a + b, toNumber).Some? <==> Total(a, toNumber).Some? && Total(b, toNumber).Some?
    ensures Total(a + b, toNumber).Some? ==>
              Total(a + b, toNumber).value == Total(a, toNumber).value + Total(b, toNumber).value
  {
    if b == [] {
      assert a + b == a;
    } else {
      var c := a + b;
      var b' := b[..|b| - 1];
      assert c[..|c| - 1] == a + b';
      assert c[|c| - 1] == b[|b| - 1];
      TotalAppend(a, b', toNumber);
    }
  }

  /** `totalIncome - totalExpense`; `None` when either total throws. */
  function Balance(income: seq<JsValue>, expenses: seq<JsValue>, toNumber: JsValue -> real): (b: Option<real>)
    ensures b.Some? <==> !HasHole(income) && !HasHole(expenses)
  {
    match (Total(income, toNumber), Total(expenses, toNumber))
    case (Some(i), Some(e)) => Some(i - e)
    case _ => None
  }

  /**
   * One more income object raises the balance by its amount; one more
   * expense object lowers it by its amount.
   */
  lemma BalanceMoves(income: seq<JsValue>, expenses: seq<JsValue>, item: JsValue, toNumber: JsValue -> real)
    requires item.JObj?
    requires Balance(income, expenses, toNumber).Some?
    ensures Balance(income + [item], expenses, toNumber) ==
              Some(Balance(income, expenses, toNumber).value + toNumber(Get(item.fields, "amount")))
    ensures Balance(income, expenses + [item], toNumber) ==
              Some(Balance(income, expenses, toNumber).value - toNumber(Get(item.fields, "amount")))
  {
    TotalAppend(income, [item], toNumber);
    TotalAppend(expenses, [item], toNumber);
  }

  /** A `null` or `undefined` item anywhere makes the render throw instead of showing a balance. */
  lemma HoleThrows(income: seq<JsValue>, expenses: seq<JsValue>, toNumber: JsValue -> real)
    requires JNull in income
    ensures Balance(income, expenses, toNumber) == None
  {
    var i :| 0 <= i < |income| && income[i] == JNull;
    assert Prop(income[i], "amount").None?;
  }

  /** With no data at all the balance is zero. */
  lemma EmptyBalanceIsZero(toNumber: JsValue -> real)
    ensures Balance([], [], toNumber) == Some(0.0)
  {
  }

  /** The stages of `loadData` that may throw, in order. */
  function StagesDone(score: Fetch, forecast: Fetch, income: Fetch, expenses: Fetch): (n: nat)
    ensures n <= 4
    ensures n == 0 <==> score.Failed?
    ensures n == 4 <==> score.Fetched? && forecast.Fetched? && Prop(forecast.data, "next_7_days").Some? &&
                        income.Fetched? && expenses.Fetched?
  {
    if score.Failed? then 0
    else if forecast.Failed? || Prop(forecast.data, "next_7_days").None? then 1
    else if income.Failed? then 2
    else if expenses.Failed? then 3
    else 4
  }

  /** The paths `loadData` requests, in order; the last is the one `getGoals` requests. */
  const LoadPaths: seq<string> := ["score/", "forecast-v2/", "income/", "expenses/", "goals/"]

  /** How many requests a load issues: each stage's request is sent, up to the first that fails, and goals after all four succeed. */
  function RequestsIssued(stagesDone: nat): (k: nat)
    requires stagesDone <= 4
    ensures 1 <= k <= |LoadPaths|
    ensures stagesDone < 4 ==> k == stagesDone + 1
    ensures stagesDone == 4 ==> k == |LoadPaths|
  {
    if stagesDone < 4 then stagesDone + 1 else 5
  }

  class Screen {
    var requested: seq<string>
    var score: JsValue
    var forecast: seq<JsValue>
    var goals: JsValue
    var income: seq<JsValue>
    var expenses: seq<JsValue>
    var animated: bool

    constructor()
      ensures score == JNull && forecast == [] && goals == JList([]) && income == [] && expenses == [] && !animated
      ensures requested == []
    {
      requested := [];
      score := JNull;
      forecast := [];
      goals := JList([]);
      income := [];
      expenses := [];
      animated := false;
    }

    /**
     * `loadData`: score, forecast, income and expenses are fetched in that
     * order and each is set as it arrives; the first failure skips the rest
     * and keeps what was already set. A missing forecast or list is an empty
     * list. A failed goals fetch is swallowed and the load completes.
     * `requested` logs the paths of the GET requests sent.
     */
    method LoadData(s: Fetch, f: Fetch, inc: Fetch, exp: Fetch, g: Fetch)
      modifies this
      ensures var n := StagesDone(s, f, inc, exp);
              score == (if n >= 1 then s.data else old(score)) &&
              forecast == (if n >= 2 then ListOr(Prop(f.data, "next_7_days").value) else old(forecast)) &&
              income == (if n >= 3 then ListOr(inc.data) else old(income)) &&
              expenses == (if n == 4 then ListOr(exp.data) else old(expenses)) &&
              goals == (if n == 4 && g.Fetched? then g.data else old(goals)) &&
              animated == (n == 4 || old(animated)) &&
              requested == old(requested) + LoadPaths[..RequestsIssued(n)]
    {
      requested := requested + [LoadPaths[0]];
      if s.Failed? { return; }
      score := s.data;
      requested := requested + [LoadPaths[1]];
      if f.Failed? { return; }
      var days := Prop(f.data, "next_7_days");
      if days.None? { return; }
      forecast := ListOr(days.value);
      requested := requested + [LoadPaths[2]];
      if inc.Failed? { return; }
      income := ListOr(inc.data);
      requested := requested + [LoadPaths[3]];
      if exp.Failed? { return; }
      expenses := ListOr(exp.data);
      requested := requested + [LoadPaths[4]];
      if g.Fetched? {
        goals := g.data;
      }
      animated := true;
    }
  }

  /**
   * The logout handler: remove the stored token, then dispatch `logout`,
   * then replace the route with the login screen. If the removal rejects,
   * the handler stops there and nothing changes.
   */
  method LogoutPressed(app: App, removeFails: bool)
    modifies app
    ensures removeFails ==>
              app.storage == old(app.storage) && app.session == old(app.session) &&
              app.stack == old(app.stack) && app.effects == old(app.effects)
    ensures !removeFails ==>
              app.storage == old(app.storage) - {AccessToken} && app.session == SignedOut &&
              app.stack == ReplaceTop(old(app.stack), LoginRoute) &&
              app.effects == old(app.effects) + [StorageRemoved(AccessToken), Dispatched(Logout), Replaced(LoginRoute)]
  {
    if removeFails {
      return;
    }
    app.storage := app.storage - {AccessToken};
    app.effects := app.effects + [StorageRemoved(AccessToken)];
    app.session := Reduce(app.session, Logout);
    app.effects := app.effects + [Dispatched(Logout)];
    app.stack := ReplaceTop(app.stack, LoginRoute);
    app.effects := app.effects + [Replaced(LoginRoute)];
  }

  /**
   * After a completed logout, the next request through the HTTP client
   * carries no Authorization header of its own making.
   */
  method LogoutThenRequest(app: App, config: RequestConfig, readFails: bool)
    requires Authorization !in config.headers
    modifies app, config
    ensures app.session == SignedOut
    ensures Authorization !in config.headers
  {
    LogoutPressed(app, false);
    var _ := Intercept(app, config, readFails);
  }
}
