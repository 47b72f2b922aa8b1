/**
 * The login screen's `login` step: ask the mock API for a token, publish
 * the session to the store and move to the dashboard, or show why it
 * failed. The token is never written to storage, so the HTTP client's
 * interceptor does not see it.
 */
module LoginScreen {
  import opened Base
  import opened Js
  import opened Client
  import opened MockApi
  import opened AxiosClient

  const LoginFailed: string := "Login failed"

  /** The credentials the screen posts to "token/". */
  function Credentials(username: string, password: string): (body: Record)
    ensures body.Keys == {"username", "password"}
    ensures body["username"] == JStr(username) && body["password"] == JStr(password)
  {
    map["username" := JStr(username), "password" := JStr(password)]
  }

  /** The token in a successful reply, `res.data.access`. */
  function AccessOf(reply: JsValue): string {
    if reply.JObj? && "access" in reply.fields && reply.fields["access"].JStr? then reply.fields["access"].s else ""
  }

  /** `e.message || 'Invalid credentials'`. */
  function FailureMessage(message: string): (m: string)
    ensures m != ""
    ensures message != "" ==> m == message
  {
    if message != "" then message else InvalidCredentials
  }

  /** The token the mock's login reply carries is the one `AccessOf` reads back. */
  lemma MockTokenIsRead()
    ensures AccessOf(JObj(map["access" := JStr(Token)])) == Token
  {
  }

  class Screen {
    var username: string
    var password: string
    var loading: bool

    constructor()
      ensures username == "demo_user" && password == "password" && !loading
    {
      username := "demo_user";
      password := "password";
      loading := false;
    }

    /**
     * `login`. On success the session becomes (username, token) and only
     * then is the route replaced by the dashboard; on failure session and
     * route stay and an alert is shown. Loading is on during the call and
     * off afterwards. Storage is never written.
     */
    method Login(app: App, api: MockServer)
      modifies this`loading, app`session, app`stack, app`effects, api`transactions
      ensures loading == false
      ensures app.storage == old(app.storage) && api.transactions == old(api.transactions)
      ensures TokenReply(Credentials(username, password)).Ok? ==>
                app.session == SignedIn(username, Token) &&
                app.stack == ReplaceTop(old(app.stack), DashboardRoute) &&
                app.effects == old(app.effects) +
                  [LoadingSet(true), Dispatched(SetCredentials(username, Token)), Replaced(DashboardRoute), LoadingSet(false)]
      ensures TokenReply(Credentials(username, password)).Err? ==>
                app.session == old(app.session) && app.stack == old(app.stack) &&
                app.effects == old(app.effects) + [LoadingSet(true), Alerted(LoginFailed, InvalidCredentials), LoadingSet(false)]
    {
      loading := true;
      app.effects := app.effects + [LoadingSet(true)];
      var res := api.Post("token/", Credentials(username, password));
      Settle(app, res);
      loading := false;
      app.effects := app.effects + [LoadingSet(false)];
    }

    /** The awaited part of `login`: store the credentials and navigate, or alert the failure. */
    method Settle(app: App, res: Result<JsValue, string>)
      requires res == TokenReply(Credentials(username, password))
      modifies app`session, app`stack, app`effects
      ensures res.Ok? ==>
                app.session == SignedIn(username, Token) &&
                app.stack == ReplaceTop(old(app.stack), DashboardRoute) &&
                app.effects == old(app.effects) + [Dispatched(SetCredentials(username, Token)), Replaced(DashboardRoute)]
      ensures res.Err? ==>
                app.session == old(app.session) && app.stack == old(app.stack) &&
                app.effects == old(app.effects) + [Alerted(LoginFailed, InvalidCredentials)]
    {
      match res {
        case Ok(data) =>
          MockTokenIsRead();
          var token := AccessOf(data);
          app.session := Reduce(app.session, SetCredentials(username, token));
          app.effects := app.effects + [Dispatched(SetCredentials(username, token))];
          app.stack := ReplaceTop(app.stack, DashboardRoute);
          app.effects := app.effects + [Replaced(DashboardRoute)];
        case Err(message) =>
          app.effects := app.effects + [Alerted(LoginFailed, FailureMessage(message))];
      }
    }
  }

  /**
   * The session gap: starting with no stored token, a successful login
   * signs the user in, yet the next request through the HTTP client goes
   * out without an Authorization header.
   */
  method LoginThenRequest(screen: Screen, app: App, api: MockServer, config: RequestConfig, readFails: bool)
    requires AccessToken !in app.storage && Authorization !in config.headers
    requires screen.username != "" && screen.password != ""
    modifies screen`loading, app, api, config
    ensures app.session == SignedIn(screen.username, Token)
    ensures Authorization !in config.headers
  {
    screen.Login(app, api);
    var _ := Intercept(app, config, readFails);
  }
}
