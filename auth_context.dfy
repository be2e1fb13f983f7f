/** The authentication provider: three pieces of state (`isAuthenticated`, `isLoading`,
    `user`), a session check, a reaction to identity events, Google sign-in and logout.
    Calls into the identity SDK are outcomes passed in as parameters; what the provider
    asks of the SDK and of the router is recorded in two logs. */
module AuthContext {
  import opened Common

  /** The record `getCurrentUser` resolves with. */
  datatype User = User(username: string, userId: string)

  /** How `getCurrentUser` ended: with the signed-in user, or by throwing because there is none. */
  datatype SessionCheck = CurrentUser(user: User) | NoCurrentUser

  /** A call the provider makes into the identity SDK. */
  datatype Request =
    | GetCurrentUser
    | SignInWithRedirect(provider: string, preferPrivateSession: bool)
    | SignOut(global: bool)

  /** The provider's state, the navigations it has issued and the SDK calls it has made, oldest first. */
  datatype Model = Model(
    isAuthenticated: bool,
    isLoading: bool,
    user: Option<User>,
    navLog: seq<Nav>,
    requests: seq<Request>)

  /** A transition's new model together with the value the operation returns. */
  datatype After<R> = After(model: Model, result: R)

  const Home := "/"
  const Login := "/login"
  const AuthCallback := "/auth/callback"
  const GoogleProvider := "Google"

  /** The initial values of the three state hooks. */
  function Initial(): Model
  {
    Model(false, true, None, [], [])
  }

  // ---------------------------------------------------------------------------
  // checkAuthState

  /** The model while `getCurrentUser` is being awaited. */
  function BeginCheck(m: Model): (r: Model)
    ensures r.isLoading
    ensures r.isAuthenticated == m.isAuthenticated && r.user == m.user && r.navLog == m.navLog
    ensures r.requests == m.requests + [GetCurrentUser]
  {
    m.(isLoading := true, requests := m.requests + [GetCurrentUser])
  }

  /** The navigation a finished check issues, if any. */
  function CheckRedirect(outcome: SessionCheck, path: string): seq<Nav>
  {
    match outcome
    case CurrentUser(_) => if path != Home then [Nav(Home, true)] else []
    case NoCurrentUser => if path != Login && path != AuthCallback then [Nav(Login, true)] else []
  }

  /** A whole session check started from `m` on the page at `path`. */
  function CheckTransition(m: Model, outcome: SessionCheck, path: string): (r: After<bool>)
    // it returns true exactly when it authenticated, and the three fields agree with that
    ensures r.result <==> outcome.CurrentUser?
    ensures r.model.isAuthenticated == r.result
    ensures !r.model.isLoading
    ensures outcome.CurrentUser? ==> r.model.user == Some(outcome.user)
    ensures outcome.NoCurrentUser? ==> r.model.user == None
    // on success: to "/" with replace, unless already there
    ensures outcome.CurrentUser? && path != Home ==> r.model.navLog == m.navLog + [Nav(Home, true)]
    ensures outcome.CurrentUser? && path == Home ==> r.model.navLog == m.navLog
    // on failure: to "/login" with replace, unless on "/login" or "/auth/callback"
    ensures outcome.NoCurrentUser? && path != Login && path != AuthCallback ==>
              r.model.navLog == m.navLog + [Nav(Login, true)]
    ensures outcome.NoCurrentUser? && (path == Login || path == AuthCallback) ==> r.model.navLog == m.navLog
    // the previous state is overwritten, and the SDK is asked exactly once
    ensures r.model.requests == m.requests + [GetCurrentUser]
  {
    var pending := BeginCheck(m);
    var authed := outcome.CurrentUser?;
    var model := pending.(
      isAuthenticated := authed,
      user := if authed then Some(outcome.user) else None,
      navLog := pending.navLog + CheckRedirect(outcome, path),
      isLoading := false);
    After(model, authed)
  }

  // ---------------------------------------------------------------------------
  // The identity event handler

  /** What the event handler does for an event name. */
  datatype Reaction = Recheck | ClearAndRedirect | NoChange

  function ReactionTo(event: string): (r: Reaction)
    ensures r == Recheck <==> event == "signInWithRedirect" || event == "signedIn" || event == "tokenRefresh"
    ensures r == ClearAndRedirect <==> event == "signedOut"
  {
    if event == "signInWithRedirect" || event == "signedIn" || event == "tokenRefresh" then Recheck
    else if event == "signedOut" then ClearAndRedirect
    else NoChange
  }

  /** One identity event, handled as a single step; `outcome` and `path` are used only
      when the event triggers a new session check. */
  function EventTransition(m: Model, event: string, outcome: SessionCheck, path: string): (r: Model)
    ensures ReactionTo(event) == Recheck ==> r == CheckTransition(m, outcome, path).model
    ensures ReactionTo(event) == ClearAndRedirect ==>
              !r.isAuthenticated && r.user == None && r.isLoading == m.isLoading &&
              r.navLog == m.navLog + [Nav(Login, true)] && r.requests == m.requests
    ensures ReactionTo(event) == NoChange ==> r == m
  {
    match ReactionTo(event)
    case Recheck => CheckTransition(m, outcome, path).model
    case ClearAndRedirect => m.(isAuthenticated := false, user := None, navLog := m.navLog + [Nav(Login, true)])
    case NoChange => m
  }

  // ---------------------------------------------------------------------------
  // signInWithGoogle

  /** Starting Google sign-in: one redirect request, no change to the authentication
      state, and any error from the redirect call passed on unchanged. */
  function SignInTransition(m: Model, redirect: Outcome): (r: After<Outcome>)
    ensures r.model.isAuthenticated == m.isAuthenticated && r.model.isLoading == m.isLoading
    ensures r.model.user == m.user && r.model.navLog == m.navLog
    ensures r.model.requests == m.requests + [SignInWithRedirect(GoogleProvider, false)]
    ensures r.result == redirect
  {
    After(m.(requests := m.requests + [SignInWithRedirect(GoogleProvider, false)]), redirect)
  }

  // ---------------------------------------------------------------------------
  // logout

  /** The model while the remote `signOut` is being awaited: local state is already cleared. */
  function BeginLogout(m: Model): (r: Model)
    ensures !r.isAuthenticated && r.user == None
    ensures r.isLoading == m.isLoading && r.navLog == m.navLog
    ensures r.requests == m.requests + [SignOut(true)]
  {
    m.(isAuthenticated := false, user := None, requests := m.requests + [SignOut(true)])
  }

  /** A whole logout: whether the remote call resolves or throws, it ends on "/login". */
  function LogoutTransition(m: Model, remote: Outcome): (r: Model)
    ensures !r.isAuthenticated && r.user == None && r.isLoading == m.isLoading
    ensures r.navLog == m.navLog + [Nav(Login, true)]
    ensures r.requests == m.requests + [SignOut(true)]
  {
    var pending := BeginLogout(m);
    match remote
    case Resolved => pending.(navLog := pending.navLog + [Nav(Login, true)])
    case Rejected(_) => pending.(navLog := pending.navLog + [Nav(Login, true)])
  }

  // ---------------------------------------------------------------------------
  // The provider component, whose methods update its state step by step

  class AuthProvider {
    var isAuthenticated: bool
    var isLoading: bool
    var user: Option<User>
    var navLog: seq<Nav>
    var requests: seq<Request>

    function Snapshot(): Model
      reads this
    {
      Model(isAuthenticated, isLoading, user, navLog, requests)
    }

    constructor ()
      ensures Snapshot() == Initial()
      ensures !isAuthenticated && isLoading && user == None
    {
      isAuthenticated := false;
      isLoading := true;
      user := None;
      navLog := [];
      requests := [];
    }

    method CheckAuthState(outcome: SessionCheck, pathname: string) returns (authenticated: bool)
      modifies this
      ensures After(Snapshot(), authenticated) == CheckTransition(old(Snapshot()), outcome, pathname)
    {
      isLoading := true;
      requests := requests + [GetCurrentUser];
      assert Snapshot() == BeginCheck(old(Snapshot()));
      match outcome {
        case CurrentUser(u) =>
          isAuthenticated := true;
          user := Some(u);
          if pathname != Home {
            navLog := navLog + [Nav(Home, true)];
          }
          authenticated := true;
        case NoCurrentUser =>
          isAuthenticated := false;
          user := None;
          if pathname != Login && pathname != AuthCallback {
            navLog := navLog + [Nav(Login, true)];
          }
          authenticated := false;
      }
      isLoading := false;
    }

    method HandleAuthEvent(event: string, outcome: SessionCheck, pathname: string)
      modifies this
      ensures Snapshot() == EventTransition(old(Snapshot()), event, outcome, pathname)
    {
      if event == "signInWithRedirect" || event == "signedIn" || event == "tokenRefresh" {
        var _ := CheckAuthState(outcome, pathname);
      } else if event == "signedOut" {
        isAuthenticated := false;
        user := None;
        navLog := navLog + [Nav(Login, true)];
      }
    }

    method SignInWithGoogle(redirect: Outcome) returns (result: Outcome)
      modifies this
      ensures After(Snapshot(), result) == SignInTransition(old(Snapshot()), redirect)
    {
      requests := requests + [SignInWithRedirect(GoogleProvider, false)];
      result := redirect;
    }

    method Logout(remote: Outcome)
      modifies this
      ensures Snapshot() == LogoutTransition(old(Snapshot()), remote)
    {
      isAuthenticated := false;
      user := None;
      requests := requests + [SignOut(true)];
      assert Snapshot() == BeginLogout(old(Snapshot()));
      match remote {
        case Resolved =>
          navLog := navLog + [Nav(Login, true)];
        case Rejected(_) =>
          navLog := navLog + [Nav(Login, true)];
      }
    }
  }
}
