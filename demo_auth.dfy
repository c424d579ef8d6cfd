/**
 * The authentication reducer of src/demo.js: a state holding only
 * `userToken`, a reducer without a default case, and a token read at start-up
 * that is parsed as JSON.
 */
module DemoAuth {
  import opened Wrappers
  import opened AppAuth

  /** `authState`; `None` is a null token. */
  datatype DemoState = DemoState(userToken: Option<string>)

  /** The state before any action. */
  const DemoInitial: Option<DemoState> := Some(DemoState(None))

  /** The app starts with a null token and therefore shows AuthStack. */
  lemma DemoInitialShowsAuth()
    ensures DemoInitial == Some(DemoState(None))
    ensures DemoRender(DemoInitial) == Rendered(AuthStack)
  {
  }

  /**
   * `authReducer` applied to a state that may be undefined (`None`). Spreading
   * undefined yields `{}`, so a recognised action defines the state again; an
   * action without a case falls off the end of the switch and yields undefined.
   */
  function DemoReducer(prev: Option<DemoState>, a: Action): (s: Option<DemoState>)
    ensures s.Some? <==> Recognised(a)
    ensures (a.kind == LOGIN || a.kind == RETRIEVE_TOKEN) ==> s == Some(DemoState(a.userToken))
    ensures a.kind == LOGOUT ==> s == Some(DemoState(None))
  {
    match a.kind
    case "LOGIN" => Some(DemoState(a.userToken))
    case "LOGOUT" => Some(DemoState(None))
    case "RETRIEVE_TOKEN" => Some(DemoState(a.userToken))
    case _ => None
  }

  /** On the actions both handle, this reducer and the one of App.js set the same token. */
  lemma AgreesWithApp(prev: Option<DemoState>, appPrev: AuthState, a: Action)
    requires Recognised(a)
    ensures DemoReducer(prev, a).value.userToken == AuthReducer(appPrev, a).userToken
  {
  }

  function DemoDispatch(s: Option<DemoState>, actions: seq<Action>): Option<DemoState>
    decreases |actions|
  {
    if actions == [] then s else DemoDispatch(DemoReducer(s, actions[0]), actions[1..])
  }

  /** After a non-empty run of actions the state is undefined exactly when the last action was not recognised. */
  lemma {:induction false} UndefinedIffLastUnknown(s: Option<DemoState>, actions: seq<Action>)
    requires actions != []
    ensures DemoDispatch(s, actions).None? <==> !Recognised(actions[|actions| - 1])
    decreases |actions|
  {
    if |actions| > 1 {
      assert actions[1..][|actions[1..]| - 1] == actions[|actions| - 1];
      UndefinedIffLastUnknown(DemoReducer(s, actions[0]), actions[1..]);
    }
  }

  /** What rendering produces: a screen stack, or an error reading `userToken` of undefined. */
  datatype DemoView = Rendered(screen: Screen) | RenderError

  /** The render decision: there is no loading state, so nothing renders blank. */
  function DemoRender(s: Option<DemoState>): (v: DemoView)
    ensures v == RenderError <==> s.None?
    ensures v == Rendered(AuthStack) <==> s.Some? && s.value.userToken.None?
    ensures v == Rendered(HomeStack) <==> s.Some? && s.value.userToken.Some?
    ensures v != Rendered(Blank)
  {
    match s
    case None => RenderError
    case Some(st) => if st.userToken.None? then Rendered(AuthStack) else Rendered(HomeStack)
  }

  /** An unknown action leaves the app unable to render. */
  lemma UnknownActionBreaksRender(s: Option<DemoState>, a: Action)
    requires !Recognised(a)
    ensures DemoRender(DemoReducer(s, a)) == RenderError
  {
  }

  /** `JSON.parse` on the stored token: a string or null, or a thrown error. */
  datatype ParsedToken = Parsed(token: Option<string>) | ParseError

  /**
   * `retriveToken`: a truthy stored value is parsed and its result dispatched,
   * a missing or empty one dispatches null, and a parse error dispatches nothing.
   * `parse` stands for `JSON.parse`.
   */
  function DemoRetrieveToken(stored: Option<string>, parse: string -> ParsedToken): (a: Option<Action>)
    ensures a.None? <==> stored.Some? && stored.value != "" && parse(stored.value).ParseError?
    ensures a.Some? ==> a.value.kind == RETRIEVE_TOKEN
    ensures a.Some? && stored.Some? && stored.value != "" ==> a.value.userToken == parse(stored.value).token
    ensures a.Some? && (stored.None? || stored.value == "") ==> a.value.userToken == None
  {
    if stored.Some? && stored.value != "" then
      match parse(stored.value)
      case ParseError => None
      case Parsed(t) => Some(Action(RETRIEVE_TOKEN, t))
    else Some(Action(RETRIEVE_TOKEN, None))
  }

  /** At start-up the app opens HomeStack exactly when a stored token parses to a string. */
  lemma DemoStartupRender(stored: Option<string>, parse: string -> ParsedToken)
    ensures
      var s := match DemoRetrieveToken(stored, parse) case None => DemoInitial case Some(a) => DemoReducer(DemoInitial, a);
      DemoRender(s) == Rendered(HomeStack) <==> stored.Some? && stored.value != "" && parse(stored.value).Parsed? && parse(stored.value).token.Some?
  {
  }
}
