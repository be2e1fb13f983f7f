/** The route guard in front of the protected pages: a decision over the provider's
    `isLoading` and `isAuthenticated`, and what it decides during and after runs of the
    provider. */
module ProtectedRoute {
  import opened Common
  import opened AuthContext
  import opened AuthTrace

  /** What the guard renders: the loading view, the protected child route, or a redirect. */
  datatype View = LoadingView | OutletView | RedirectView(nav: Nav)

  function Decide(isLoading: bool, isAuthenticated: bool): (v: View)
    ensures v == LoadingView <==> isLoading
    ensures v == OutletView <==> !isLoading && isAuthenticated
    ensures v.RedirectView? <==> !isLoading && !isAuthenticated
    ensures v.RedirectView? ==> v.nav == Nav(Login, true)
  {
    if isLoading then LoadingView
    else if isAuthenticated then OutletView
    else RedirectView(Nav(Login, true))
  }

  function Guard(m: Model): View
  {
    Decide(m.isLoading, m.isAuthenticated)
  }

  /** From the provider's initial state, the guard shows the loading view, and neither the
      protected content nor a redirect, until a run has performed its first check. */
  lemma LoadingUntilFirstCheck(steps: seq<Step>)
    requires forall i :: 0 <= i < |steps| ==> !RunsCheck(steps[i])
    ensures Guard(Run(Initial(), steps)) == LoadingView
  {
    RunLoading(Initial(), steps);
  }

  /** From the provider's initial state, the protected content is shown exactly when the
      last step that decided authentication was a successful session check. */
  lemma OutletIffSuccessfulCheck(steps: seq<Step>)
    ensures Guard(Run(Initial(), steps)) == OutletView <==> LastVerdict(steps) == Some(true)
  {
    RunAuthenticated(Initial(), steps);
    RunLoading(Initial(), steps);
    if LastVerdict(steps) == Some(true) {
      VerdictTrueRunsCheck(steps);
    }
  }

  /** When steps do not overlap, once any check has completed the guard never shows the
      loading view again. */
  lemma NoLoadingAfterCheck(m: Model, steps: seq<Step>, i: nat)
    requires i < |steps| && RunsCheck(steps[i])
    ensures Guard(Run(m, steps)) != LoadingView
  {
    RunLoading(m, steps);
  }

  /** While a session check awaits the SDK, and no other check is pending, the guard shows the
      loading view; while a logout awaits the remote sign-out it never shows the protected content. */
  lemma GuardAtAwaitPoints(m: Model)
    ensures Guard(BeginCheck(m)) == LoadingView
    ensures Guard(BeginLogout(m)) != OutletView
  {
  }
}
