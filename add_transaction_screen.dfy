/**
 * The add-transaction screen: the input checks that decide whether a
 * request is sent, the category choice, and the payload posted to the mock
 * API. JavaScript's number coercions (`isNaN`, `parseFloat`) are given as
 * parameters.
 */
module AddTransactionScreen {
  import opened Base
  import opened Text
  import opened Js
  import opened Client
  import opened MockApi

  datatype Category = Expense | Income {
    function Name(): (n: string)
      ensures n == "expense" || n == "income"
    {
      match this
      case Expense => "expense"
      case Income => "income"
    }
  }

  datatype Alert = Alert(title: string, message: string)

  const InvalidAmount: Alert := Alert("Invalid Amount", "Please enter a valid numeric amount")
  const MissingDescription: Alert := Alert("Missing Description", "Please enter a description")
  const Saved: Alert := Alert("Success! \U{2728}", "Transaction added successfully")

  /**
   * `validate`: an empty or non-numeric amount is refused first; then a
   * description that is blank once trimmed. `isNumeric(s)` is `!isNaN(s)`.
   */
  function Validate(amount: string, description: string, isNumeric: string -> bool): (r: Option<Alert>)
    ensures r.None? <==> amount != "" && isNumeric(amount) && Strip(description, JsSpace) != ""
    ensures amount == "" || !isNumeric(amount) ==> r == Some(InvalidAmount)
    ensures amount != "" && isNumeric(amount) && Strip(description, JsSpace) == "" ==> r == Some(MissingDescription)
  {
    if amount == "" || !isNumeric(amount) then Some(InvalidAmount)
    else if Strip(description, JsSpace) == "" then Some(MissingDescription)
    else None
  }

  /** A bad amount is reported whatever the description: the amount check runs first. */
  lemma AmountCheckedFirst(amount: string, d1: string, d2: string, isNumeric: string -> bool)
    requires amount == "" || !isNumeric(amount)
    ensures Validate(amount, d1, isNumeric) == Validate(amount, d2, isNumeric) == Some(InvalidAmount)
  {
  }

  /** The body posted to "transactions/": category, `parseFloat(amount)` and the trimmed description. */
  function Payload(category: Category, amount: string, description: string, parseFloat: string -> JsValue): (body: Record)
    ensures body.Keys == {"category", "amount", "description"}
    ensures body["category"] == JStr("expense") || body["category"] == JStr("income")
    ensures body["category"] == JStr(category.Name()) && body["amount"] == parseFloat(amount)
    ensures body["description"] == JStr(Strip(description, JsSpace))
    ensures "id" !in body
  {
    map["category" := JStr(category.Name()), "amount" := parseFloat(amount), "description" := JStr(Strip(description, JsSpace))]
  }

  class Screen {
    var category: Category
    var amount: string
    var description: string
    var loading: bool

    constructor()
      ensures category == Expense && amount == "" && description == "" && !loading
    {
      category := Expense;
      amount := "";
      description := "";
      loading := false;
    }

    /** The category buttons: the category becomes the one pressed. */
    method SelectCategory(c: Category)
      modifies this`category
      ensures category == c && category.Name() in {"expense", "income"}
    {
      category := c;
    }

    /**
     * `addTransaction`: invalid input is refused with its alert and no
     * request. Otherwise the payload is posted to the mock API, which puts
     * the new transaction first, and the screen reports success and goes
     * back. Loading is off again afterwards. (The mock never throws for
     * this path, so the "Unable to save transaction" alert cannot appear.)
     */
    method AddTransaction(app: App, api: MockServer, isNumeric: string -> bool, parseFloat: string -> JsValue)
      modifies this`loading, app`effects, app`stack, api
      ensures Validate(amount, description, isNumeric).Some? ==>
                loading == old(loading) && app.stack == old(app.stack) && api.transactions == old(api.transactions) &&
                app.effects == old(app.effects) + [Alerted(Validate(amount, description, isNumeric).value.title,
                                                           Validate(amount, description, isNumeric).value.message)]
      ensures Validate(amount, description, isNumeric).None? ==>
                loading == false && app.stack == Pop(old(app.stack))
      ensures Validate(amount, description, isNumeric).None? ==>
                api.transactions ==
                  [NewTransaction(|old(api.transactions)|, Payload(category, amount, description, parseFloat))] +
                  old(api.transactions)
      ensures Validate(amount, description, isNumeric).None? ==>
                app.effects == old(app.effects) +
                  [LoadingSet(true), Posted("transactions/", Payload(category, amount, description, parseFloat)),
                   Alerted(Saved.title, Saved.message), WentBack, LoadingSet(false)]
      ensures Validate(amount, description, isNumeric).None? && IdsExact(old(api.transactions)) ==>
                IdsExact(api.transactions)
    {
      var problem := Validate(amount, description, isNumeric);
      if problem.Some? {
        app.effects := app.effects + [Alerted(problem.value.title, problem.value.message)];
        return;
      }
      var body := Payload(category, amount, description, parseFloat);
      Submit(app, api, body);
    }

    /** The request part of `addTransaction`, once the input has passed. */
    method Submit(app: App, api: MockServer, body: Record)
      requires "id" !in body
      modifies this`loading, app`effects, app`stack, api
      ensures loading == false && app.stack == Pop(old(app.stack))
      ensures api.transactions == [NewTransaction(|old(api.transactions)|, body)] + old(api.transactions)
      ensures app.effects == old(app.effects) +
                [LoadingSet(true), Posted("transactions/", body), Alerted(Saved.title, Saved.message), WentBack, LoadingSet(false)]
      ensures IdsExact(old(api.transactions)) ==> IdsExact(api.transactions)
    {
      ghost var log := app.effects;
      ghost var before := api.transactions;
      loading := true;
      app.effects := app.effects + [LoadingSet(true)];
      app.effects := app.effects + [Posted("transactions/", body)];
      var _ := api.Post("transactions/", body);
      assert api.transactions == [NewTransaction(|before|, body)] + before;
      app.effects := app.effects + [Alerted(Saved.title, Saved.message)];
      app.stack := Pop(app.stack);
      app.effects := app.effects + [WentBack];
      loading := false;
      app.effects := app.effects + [LoadingSet(false)];
      assert app.effects == log + [LoadingSet(true), Posted("transactions/", body), Alerted(Saved.title, Saved.message),
                                   WentBack, LoadingSet(false)];
    }
  }
}
