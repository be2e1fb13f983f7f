/** Runs of the authentication provider: any sequence of session checks, identity
    events, sign-ins and logouts, each taken as one atomic step, and what holds of the
    state after every such run. */
module AuthTrace {
  import opened Common
  import opened AuthContext

  /** One atomic step of the provider. */
  datatype Step =
    | CheckStep(outcome: SessionCheck, path: string)
    | EventStep(event: string, outcome: SessionCheck, path: string)
    | SignInStep(redirect: Outcome)
    | LogoutStep(remote: Outcome)

  function Apply(m: Model, s: Step): Model
  {
    match s
    case CheckStep(outcome, path) => CheckTransition(m, outcome, path).model
    case EventStep(event, outcome, path) => EventTransition(m, event, outcome, path)
    case SignInStep(redirect) => SignInTransition(m, redirect).model
    case LogoutStep(remote) => LogoutTransition(m, remote)
  }

  function Run(m: Model, steps: seq<Step>): Model
    decreases |steps|
  {
    if steps == [] then m else Run(Apply(m, steps[0]), steps[1..])
  }

  /** Whether a step runs a session check. */
  predicate RunsCheck(s: Step)
  {
    s.CheckStep? || (s.EventStep? && ReactionTo(s.event) == Recheck)
  }

  /** What a step decides about `isAuthenticated`: a check decides by its outcome,
      `signedOut` and logout decide false, anything else leaves it as it was. */
  function Verdict(s: Step): Option<bool>
  {
    match s
    case CheckStep(outcome, _) => Some(outcome.CurrentUser?)
    case EventStep(event, outcome, _) =>
      (match ReactionTo(event)
       case Recheck => Some(outcome.CurrentUser?)
       case ClearAndRedirect => Some(false)
       case NoChange => None)
    case SignInStep(_) => None
    case LogoutStep(_) => Some(false)
  }

  /** The verdict of the last deciding step of a run, if any. */
  function LastVerdict(steps: seq<Step>): Option<bool>
    decreases |steps|
  {
    if steps == [] then None
    else
      var later := LastVerdict(steps[1..]);
      if later.Some? then later else Verdict(steps[0])
  }

  /** The last step of a run that decided authentication, if any. */
  function LastDecision(steps: seq<Step>): Option<Step>
    decreases |steps|
  {
    if steps == [] then None
    else
      var later := LastDecision(steps[1..]);
      if later.Some? then later else if Verdict(steps[0]).Some? then Some(steps[0]) else None
  }

  /** The user a deciding step leaves behind: the one a successful check returned, else none. */
  function DecidedUser(s: Step): Option<User>
  {
    match s
    case CheckStep(outcome, _) => if outcome.CurrentUser? then Some(outcome.user) else None
    case EventStep(event, outcome, _) =>
      if ReactionTo(event) == Recheck && outcome.CurrentUser? then Some(outcome.user) else None
    case SignInStep(_) => None
    case LogoutStep(_) => None
  }

  /** `isAuthenticated` and `user` agree: a user is held exactly when authenticated. */
  predicate Consistent(m: Model)
  {
    m.isAuthenticated <==> m.user.Some?
  }

  /** A navigation the provider may issue: to "/" or to "/login", always replacing. */
  predicate ProviderRedirect(n: Nav)
  {
    n == Nav(Home, true) || n == Nav(Login, true)
  }

  lemma {:induction false} RunAppend(m: Model, steps: seq<Step>, s: Step)
    ensures Run(m, steps + [s]) == Apply(Run(m, steps), s)
    decreases |steps|
  {
    if steps != [] {
      assert (steps + [s])[1..] == steps[1..] + [s];
      RunAppend(Apply(m, steps[0]), steps[1..], s);
    }
  }

  /** After any run, `isAuthenticated` is the verdict of the last deciding step, or what
      it was before when no step decided: it is never true after a failed check,
      a `signedOut` event or a logout unless a successful check came later. */
  lemma {:induction false} RunAuthenticated(m: Model, steps: seq<Step>)
    ensures Run(m, steps).isAuthenticated ==
            (if LastVerdict(steps).Some? then LastVerdict(steps).value else m.isAuthenticated)
    decreases |steps|
  {
    if steps != [] {
      RunAuthenticated(Apply(m, steps[0]), steps[1..]);
    }
  }

  /** Every step keeps `isAuthenticated` and `user` in agreement. */
  lemma {:induction false} RunConsistent(m: Model, steps: seq<Step>)
    requires Consistent(m)
    ensures Consistent(Run(m, steps))
    decreases |steps|
  {
    if steps != [] {
      RunConsistent(Apply(m, steps[0]), steps[1..]);
    }
  }

  /** After any run, `user` is the user returned by the last deciding step when that was a
      successful check, none when it was anything else, and unchanged when no step decided. */
  lemma {:induction false} RunUser(m: Model, steps: seq<Step>)
    ensures Run(m, steps).user ==
            (if LastDecision(steps).Some? then DecidedUser(LastDecision(steps).value) else m.user)
    decreases |steps|
  {
    if steps != [] {
      RunUser(Apply(m, steps[0]), steps[1..]);
    }
  }

  /** A run whose last deciding step authenticated contains a session check. */
  lemma {:induction false} VerdictTrueRunsCheck(steps: seq<Step>)
    requires LastVerdict(steps) == Some(true)
    ensures exists i :: 0 <= i < |steps| && RunsCheck(steps[i])
    decreases |steps|
  {
    if LastVerdict(steps[1..]).Some? {
      VerdictTrueRunsCheck(steps[1..]);
      var i :| 0 <= i < |steps[1..]| && RunsCheck(steps[1..][i]);
      assert RunsCheck(steps[i + 1]);
    } else {
      assert RunsCheck(steps[0]);
    }
  }

  /** `isLoading` is false after a run that performed a check, and unchanged otherwise:
      nothing but a check ever touches it. */
  lemma {:induction false} RunLoading(m: Model, steps: seq<Step>)
    ensures Run(m, steps).isLoading ==
            (m.isLoading && forall i :: 0 <= i < |steps| ==> !RunsCheck(steps[i]))
    decreases |steps|
  {
    if steps != [] {
      RunLoading(Apply(m, steps[0]), steps[1..]);
      assert forall i :: 1 <= i < |steps| ==> steps[i] == steps[1..][i - 1];
    }
  }

  /** The navigation log only grows, and everything a run adds to it is a replacing
      navigation to "/" or to "/login". */
  lemma {:induction false} RunNavigations(m: Model, steps: seq<Step>)
    ensures m.navLog <= Run(m, steps).navLog
    ensures forall i :: |m.navLog| <= i < |Run(m, steps).navLog| ==> ProviderRedirect(Run(m, steps).navLog[i])
    decreases |steps|
  {
    if steps != [] {
      RunNavigations(Apply(m, steps[0]), steps[1..]);
    }
  }

  /** Whatever came before, a `signedOut` event leaves the provider unauthenticated,
      without a user, and issues exactly one navigation, to "/login" with replace. */
  lemma SignedOutLast(m: Model, steps: seq<Step>, outcome: SessionCheck, path: string)
    ensures var before := Run(m, steps);
            var after := Run(m, steps + [EventStep("signedOut", outcome, path)]);
            !after.isAuthenticated && after.user == None &&
            after.navLog == before.navLog + [Nav(Login, true)]
  {
    RunAppend(m, steps, EventStep("signedOut", outcome, path));
  }

  /** Whatever came before, a logout ends unauthenticated on "/login", whether the
      remote sign-out resolved or threw. */
  lemma LogoutLast(m: Model, steps: seq<Step>, remote: Outcome)
    ensures var before := Run(m, steps);
            var after := Run(m, steps + [LogoutStep(remote)]);
            !after.isAuthenticated && after.user == None &&
            after.navLog == before.navLog + [Nav(Login, true)]
  {
    RunAppend(m, steps, LogoutStep(remote));
  }
}
