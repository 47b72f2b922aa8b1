/**
 * The client's shared state: persisted key-value storage (AsyncStorage),
 * the session held by the redux store, the navigation stack, and the
 * ordered log of what the user and the store observed. The store's reducers
 * and the navigator are not part of this model; their effect on the state is
 * written out by the screens as `Reduce`, `ReplaceTop` and `Pop` describe.
 */
module Client {
  import opened Js

  const AccessToken: string := "access_token"

  datatype Session = SignedOut | SignedIn(user: string, token: string)

  datatype Route = LoginRoute | RegisterRoute | DashboardRoute | AddTransactionRoute

  /** The store actions the screens dispatch. */
  datatype Action = SetCredentials(user: string, token: string) | Logout

  /** An observable step, in the order it happened. */
  datatype Effect =
    | Alerted(title: string, message: string)
    | LoadingSet(on: bool)
    | Dispatched(action: Action)
    | StorageRemoved(key: string)
    | Replaced(route: Route)
    | WentBack
    | Posted(path: string, body: Record)

  /** The session after an action, as the store's reducers are taken to behave. */
  function Reduce(s: Session, a: Action): (r: Session)
    ensures a.SetCredentials? ==> r == SignedIn(a.user, a.token)
    ensures a.Logout? ==> r == SignedOut
  {
    match a
    case SetCredentials(user, token) => SignedIn(user, token)
    case Logout => SignedOut
  }

  /** `navigation.replace(route)`: the current screen is swapped for `route`. */
  function ReplaceTop(stack: seq<Route>, route: Route): (r: seq<Route>)
    ensures |r| == if stack == [] then 1 else |stack|
    ensures r[|r| - 1] == route
    ensures stack != [] ==> r[..|r| - 1] == stack[..|stack| - 1]
  {
    if stack == [] then [route] else stack[..|stack| - 1] + [route]
  }

  /** `navigation.goBack()`: the current screen is left when there is one to go back to. */
  function Pop(stack: seq<Route>): (r: seq<Route>)
    ensures |stack| > 1 ==> r == stack[..|stack| - 1]
    ensures |stack| <= 1 ==> r == stack
  {
    if |stack| > 1 then stack[..|stack| - 1] else stack
  }

  class App {
    var storage: map<string, string>
    var session: Session
    var stack: seq<Route>
    var effects: seq<Effect>

    constructor(storage: map<string, string>)
      ensures this.storage == storage && session == SignedOut && stack == [LoginRoute] && effects == []
    {
      this.storage := storage;
      session := SignedOut;
      stack := [LoginRoute];
      effects := [];
    }
  }
}
