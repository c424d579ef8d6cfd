/**
 * The authentication state machine of App.js: a reducer over
 * {userToken, isLoading}, the token read at start-up, and the choice of the
 * screen stack to render.
 */
module AppAuth {
  import opened Wrappers

  /** `authState`; `None` is a null token. */
  datatype AuthState = AuthState(userToken: Option<string>, isLoading: bool)

  /** A dispatched action: its `type` and its `userToken` (null or absent is `None`). */
  datatype Action = Action(kind: string, userToken: Option<string>)

  const LOGIN := "LOGIN"
  const LOGOUT := "LOGOUT"
  const RETRIEVE_TOKEN := "RETRIEVE_TOKEN"

  /** The state before any action: no token, still loading. */
  const InitialState := AuthState(None, true)

  /** An action the reducer has a case for. */
  predicate Recognised(a: Action) {
    a.kind == LOGIN || a.kind == LOGOUT || a.kind == RETRIEVE_TOKEN
  }

  /** `authReducer`. */
  function AuthReducer(prev: AuthState, a: Action): (s: AuthState)
    ensures s.isLoading <==> prev.isLoading && !Recognised(a)
    ensures (a.kind == LOGIN || a.kind == RETRIEVE_TOKEN) ==> s.userToken == a.userToken
    ensures a.kind == LOGOUT ==> s.userToken == None
    ensures !Recognised(a) ==> s == prev
  {
    match a.kind
    case "LOGIN" => prev.(userToken := a.userToken, isLoading := false)
    case "LOGOUT" => prev.(userToken := None, isLoading := false)
    case "RETRIEVE_TOKEN" => prev.(userToken := a.userToken, isLoading := false)
    case _ => prev
  }

  /** The state after dispatching `actions` in order, as `useReducer` applies them. */
  function Dispatch(s: AuthState, actions: seq<Action>): AuthState
    decreases |actions|
  {
    if actions == [] then s else Dispatch(AuthReducer(s, actions[0]), actions[1..])
  }

  /** Once loading is over, no sequence of actions brings it back. */
  lemma {:induction false} LoadingNeverReturns(s: AuthState, actions: seq<Action>)
    requires !s.isLoading
    ensures !Dispatch(s, actions).isLoading
    decreases |actions|
  {
    if actions != [] { LoadingNeverReturns(AuthReducer(s, actions[0]), actions[1..]); }
  }

  /** From the initial state the app is still loading exactly when no action so far was recognised. */
  lemma {:induction false} LoadingUntilRecognised(s: AuthState, actions: seq<Action>)
    ensures Dispatch(s, actions).isLoading <==> s.isLoading && forall i :: 0 <= i < |actions| ==> !Recognised(actions[i])
    decreases |actions|
  {
    if actions != [] {
      var next := AuthReducer(s, actions[0]);
      LoadingUntilRecognised(next, actions[1..]);
      assert forall i :: 1 <= i < |actions| ==> actions[i] == actions[1..][i - 1];
      if !next.isLoading { LoadingNeverReturns(next, actions[1..]); }
    }
  }

  /** The token after a sequence of actions is the one set by the last recognised action. */
  lemma {:induction false} LastRecognisedDecides(s: AuthState, actions: seq<Action>, k: int)
    requires 0 <= k < |actions| && Recognised(actions[k])
    requires forall i :: k < i < |actions| ==> !Recognised(actions[i])
    ensures Dispatch(s, actions).userToken == (if actions[k].kind == LOGOUT then None else actions[k].userToken)
    ensures !Dispatch(s, actions).isLoading
    decreases |actions|
  {
    var next := AuthReducer(s, actions[0]);
    if k == 0 {
      UnrecognisedKeepState(next, actions[1..]);
    } else {
      assert forall i :: k - 1 < i < |actions[1..]| ==> actions[1..][i] == actions[i + 1];
      LastRecognisedDecides(next, actions[1..], k - 1);
    }
  }

  /** Actions the reducer does not know leave the state as it is. */
  lemma {:induction false} UnrecognisedKeepState(s: AuthState, actions: seq<Action>)
    requires forall i :: 0 <= i < |actions| ==> !Recognised(actions[i])
    ensures Dispatch(s, actions) == s
    decreases |actions|
  {
    if actions != [] {
      assert forall i :: 0 <= i < |actions[1..]| ==> actions[1..][i] == actions[i + 1];
      UnrecognisedKeepState(AuthReducer(s, actions[0]), actions[1..]);
    }
  }

  /** The app starts with no token and loading, so it first renders nothing. */
  lemma InitialStateLoads()
    ensures InitialState.userToken == None && InitialState.isLoading
    ensures Render(InitialState) == Blank
  {
  }

  /** The screen stack rendered for a state; `Blank` is a null render. */
  datatype Screen = Blank | AuthStack | HomeStack

  /** The render decision. */
  function Render(s: AuthState): (r: Screen)
    ensures r == Blank <==> s.isLoading
    ensures r == AuthStack <==> !s.isLoading && s.userToken == None
    ensures r == HomeStack <==> !s.isLoading && s.userToken.Some?
  {
    if s.isLoading then Blank
    else if s.userToken == None then AuthStack
    else HomeStack
  }

  /** The result of `AsyncStorage.getItem('TOKEN')`: a stored value or null, or a rejected read. */
  datatype StoredToken = Read(value: Option<string>) | ReadFailed

  /**
   * `retrieveToken`: a truthy (non-empty) stored token is dispatched, a missing
   * or empty one dispatches null, and a failed read dispatches nothing.
   */
  function RetrieveTokenAction(stored: StoredToken): (a: Option<Action>)
    ensures a.None? <==> stored.ReadFailed?
    ensures a.Some? ==> a.value.kind == RETRIEVE_TOKEN
    ensures a.Some? ==> (a.value.userToken.Some? <==> stored.value.Some? && stored.value.value != "")
    ensures a.Some? && a.value.userToken.Some? ==> a.value.userToken == stored.value
  {
    match stored
    case ReadFailed => None
    case Read(v) =>
      if v.Some? && v.value != "" then Some(Action(RETRIEVE_TOKEN, v))
      else Some(Action(RETRIEVE_TOKEN, None))
  }

  /** The state after start-up: the retrieved token, if any, dispatched to the initial state. */
  function Startup(stored: StoredToken): (s: AuthState)
    ensures stored.ReadFailed? ==> s == InitialState
    ensures stored.Read? ==> !s.isLoading
    ensures stored.Read? ==> (s.userToken.Some? <==> stored.value.Some? && stored.value.value != "")
    ensures s.userToken.Some? ==> s.userToken == stored.value
  {
    match RetrieveTokenAction(stored)
    case None => InitialState
    case Some(a) => AuthReducer(InitialState, a)
  }

  /** At start-up a non-empty stored token opens HomeStack, a missing or empty one AuthStack, a failed read nothing. */
  lemma StartupRender(stored: StoredToken)
    ensures stored.ReadFailed? ==> Render(Startup(stored)) == Blank
    ensures stored.Read? && stored.value.Some? && stored.value.value != "" ==> Render(Startup(stored)) == HomeStack
    ensures stored.Read? && (stored.value.None? || stored.value.value == "") ==> Render(Startup(stored)) == AuthStack
  {
  }

  /** `login`: the dispatched action carries the token as stored. */
  function LoginAction(tokenString: string): (a: Action)
    ensures Recognised(a) && a.userToken == Some(tokenString)
  {
    Action(LOGIN, Some(tokenString))
  }

  /** `logout`. */
  const LogoutAction := Action(LOGOUT, None)

  /**
   * A login with an empty token string opens HomeStack for the session, but the
   * stored empty string is falsy, so the next start-up opens AuthStack.
   */
  lemma EmptyTokenLostOnRestart(s: AuthState)
    ensures Render(AuthReducer(s, LoginAction(""))) == HomeStack
    ensures Render(Startup(Read(Some("")))) == AuthStack
  {
  }

  /** Logging in and then out returns to AuthStack whatever the state was. */
  lemma LoginLogout(s: AuthState, token: string)
    ensures Render(Dispatch(s, [LoginAction(token), LogoutAction])) == AuthStack
  {
    LastRecognisedDecides(s, [LoginAction(token), LogoutAction], 1);
  }
}
