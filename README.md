# Client-side authentication state machine and password forms, in Dafny

This project models the client-side authentication logic of a single-page app that signs users in through a managed identity provider. Two parts are modelled:

- **The authentication provider** (`AuthContext`). It holds three pieces of state: `isAuthenticated`, `isLoading` and `user`. Around them sit:
  - a session check (`checkAuthState`), which asks the identity SDK for the current user and then redirects depending on the outcome and the current path;
  - a handler for identity events: `signInWithRedirect`, `signedIn` and `tokenRefresh` re-check, `signedOut` clears the state;
  - Google sign-in, which starts a redirect and re-throws its errors;
  - logout, which clears local state before the remote sign-out and always ends on `/login`.
- **The route guard** (`ProtectedRoute`). It chooses between the loading view, the protected content and a redirect to `/login`.
- **Three form pages** (`ResetPassword`, `ConfirmRegistration`, `ForgotPassword`). Each runs an ordered chain of input checks with fixed error messages, then calls an external operation. It then sets `error`, `isLoading` and a success flag or message from the outcome.

Every identity SDK call and every page operation is an outcome passed in as a parameter: `SessionCheck` for `getCurrentUser`, and `Outcome` (resolved, or rejected with a message) for the rest. Navigation and SDK calls are not performed. Each is appended to a log (`navLog`, `requests`), so the model can state which calls happen, in what order, and with which arguments.

Each source component is modelled in two parts:

- Pure transition functions over a state value (`AuthContext.Model`, and one `Form` record per page). Their contracts state the component's behaviour.
- A class with the component's own fields. Its methods update those fields in the source's order. Each method's postcondition ties the new state to the matching transition function.

Two awaits in the provider are made explicit:

- `BeginCheck` is the state while `getCurrentUser` is pending.
- `BeginLogout` is the state while the remote `signOut` is pending.

The class methods assert at those points that the state is exactly this. Both describe the await when no other check is pending: steps are taken one at a time, so overlapping checks are not modelled (see "## Left out").

`AuthTrace` takes any sequence of provider steps (checks, events, sign-ins, logouts), each run to completion before the next begins, and proves by induction what holds after it:

- `isAuthenticated` is decided by the last step that decides it.
- `user` is held exactly when `isAuthenticated` is true, and it is the user the last deciding check returned.
- `isLoading` is false once any check has run.
- The navigation log only grows, and only by replacing redirects to `/` or `/login`.

`ProtectedRoute` uses these results. Starting from the initial state, it shows protected content exactly when the last deciding step was a successful check, and shows only the loading view until the first check.

### Behaviour the code does not have

- No check coalescing and no check generation counter. There is no in-flight flag and no merging of overlapping checks; each check simply overwrites all three fields when it settles.
- Redirect exemptions on a failed check. Only `/login` and `/auth/callback` are exempt (`src/context/AuthContext.tsx:56-59`). Other public pages such as `/register` or `/forgot-password` are not exempt, so a failed check on them redirects to `/login`.
- Redirect after a successful check. It goes to `/` from every path other than `/`. No path is allowed to stay while authenticated.
- Form operations. The pages take `confirmForgotPassword`, `confirmRegistration` and `forgotPassword` from the authentication context. Neither `AuthContextType` (`src/context/AuthContext.tsx:14-20`) nor the value the provider supplies (`src/context/AuthContext.tsx:136-143`) contains them, so as the code stands each is `undefined` in the page. The model treats them as external operations that resolve or reject; see "## Left out" for what that means for the success branches.

## Model

| member | source | states |
|---|---|---|
| `Common.ErrorText` | src/pages/ResetPassword.tsx:46 | The shown error is the error's message when that is non-empty, else the page's fixed fallback text; it is never empty. |
| `AuthContext.AuthProvider.constructor` | src/context/AuthContext.tsx:25-27 | The provider starts not authenticated, loading, with no user, and has issued no navigation and no SDK call. |
| `AuthContext.BeginCheck` | src/context/AuthContext.tsx:32-36 | While `getCurrentUser` is awaited and no other check is pending, `isLoading` is true, one `getCurrentUser` call has been issued, and nothing else has changed. |
| `AuthContext.CheckTransition` | src/context/AuthContext.tsx:32-68 | A check returns true exactly when `getCurrentUser` resolved. It ends with `isLoading` false, `isAuthenticated` equal to the result, and `user` equal to the returned user or none. On success it navigates to `/` with replace iff the path is not `/`. On failure it navigates to `/login` with replace iff the path is neither `/login` nor `/auth/callback`. Otherwise the navigation log is unchanged. |
| `AuthContext.ReactionTo` | src/context/AuthContext.tsx:78-91 | The event triggers a re-check iff it is `signInWithRedirect`, `signedIn` or `tokenRefresh`. It clears the state iff it is `signedOut`. Every other event has no effect. |
| `AuthContext.EventTransition` | src/context/AuthContext.tsx:75-92 | A re-check event is exactly a session check. `signedOut` clears `isAuthenticated` and `user`, leaves `isLoading` alone and adds one replacing navigation to `/login`, from any prior state. Any other event changes nothing. |
| `AuthContext.SignInTransition` | src/context/AuthContext.tsx:98-112 | Google sign-in issues one redirect request (provider `Google`, no private session). It leaves the authentication state and the navigation log untouched, and passes the redirect call's outcome or error through unchanged. |
| `AuthContext.BeginLogout` | src/context/AuthContext.tsx:114-123 | When the remote `signOut` (global) is issued, `isAuthenticated` is already false and `user` already none. |
| `AuthContext.LogoutTransition` | src/context/AuthContext.tsx:114-133 | Logout ends not authenticated, with no user and `isLoading` unchanged. It issues one global `signOut` and exactly one replacing navigation to `/login`, whether the remote call resolved or threw. |
| `AuthContext.AuthProvider.CheckAuthState` | src/context/AuthContext.tsx:32-68 | The imperative check: its return value and new fields are those of `CheckTransition`. At the await, the state is `BeginCheck`'s. |
| `AuthContext.AuthProvider.HandleAuthEvent` | src/context/AuthContext.tsx:78-91 | The switch over the event name leaves the fields as `EventTransition` gives them. |
| `AuthContext.AuthProvider.SignInWithGoogle` | src/context/AuthContext.tsx:98-112 | Records the redirect request, changes no authentication field, and returns the redirect call's outcome, error included. |
| `AuthContext.AuthProvider.Logout` | src/context/AuthContext.tsx:114-133 | Clears local state before the remote call (asserted at the await). The final fields are `LogoutTransition`'s. |
| `AuthTrace.RunAuthenticated` | src/context/AuthContext.tsx:32-133 | After any sequence of checks, events, sign-ins and logouts, `isAuthenticated` is the verdict of the last deciding step, or the initial value if no step decided. Successful checks decide true. Failed checks, `signedOut` and logout decide false. So it is never true after a failed check, `signedOut` or logout unless a successful check came later. |
| `AuthTrace.RunConsistent` | src/context/AuthContext.tsx:32-133 | Every run keeps `isAuthenticated` and `user` in agreement: a user is held exactly when authenticated. |
| `AuthTrace.RunUser` | src/context/AuthContext.tsx:32-133 | After any run, `user` is the user returned by the last deciding step when that was a successful check, none when that step was a failed check, `signedOut` or logout, and unchanged when no step decided. |
| `AuthTrace.VerdictTrueRunsCheck` | src/context/AuthContext.tsx:36-39 | Only a session check can authenticate: a run whose last deciding step authenticated contains a check. |
| `AuthTrace.RunLoading` | src/context/AuthContext.tsx:32-133 | After a run, `isLoading` is false iff a check ran in it or it was already false. Nothing but a check changes it. |
| `AuthTrace.RunNavigations` | src/context/AuthContext.tsx:32-133 | A run only appends to the navigation log. Everything it appends is a replacing navigation to `/` or to `/login`. |
| `AuthTrace.SignedOutLast` | src/context/AuthContext.tsx:85-90 | After any run, a `signedOut` event leaves the provider unauthenticated with no user. It adds exactly one navigation, to `/login` with replace. |
| `AuthTrace.LogoutLast` | src/context/AuthContext.tsx:114-133 | After any run, a logout leaves the provider unauthenticated with no user. It adds exactly one navigation, to `/login` with replace, whatever the remote outcome. |
| `ProtectedRoute.Decide` | src/components/ProtectedRoute.tsx:6-22 | The guard shows the loading view iff loading, whatever `isAuthenticated` is, and then issues no redirect. It shows the protected outlet iff not loading and authenticated. It redirects to `/login` with replace iff not loading and not authenticated. It depends only on the two flags. |
| `ProtectedRoute.LoadingUntilFirstCheck` | src/components/ProtectedRoute.tsx:12-19 | From the provider's initial state, until a check has run, the guard shows only the loading view: no protected content and no redirect. |
| `ProtectedRoute.OutletIffSuccessfulCheck` | src/components/ProtectedRoute.tsx:22 | From the provider's initial state, the protected outlet is shown exactly when the last deciding step was a successful check. |
| `ProtectedRoute.NoLoadingAfterCheck` | src/components/ProtectedRoute.tsx:12-19 | Between steps (no check pending), once a run contains a check, the guard no longer shows the loading view. |
| `ProtectedRoute.GuardAtAwaitPoints` | src/components/ProtectedRoute.tsx:12-22 | While a check awaits the SDK and no other check is pending, the guard shows the loading view. While a logout awaits the remote sign-out, it never shows the protected outlet. |
| `ResetPassword.MissingUsernameRedirect` | src/pages/ResetPassword.tsx:16-21 | The page redirects to `/forgot-password` with replace iff the navigation state has no username (missing, null or empty). |
| `ResetPassword.Validate` | src/pages/ResetPassword.tsx:25-40 | The checks run in order. Any empty field gives "All fields are required". Otherwise a mismatch gives "Passwords do not match". Otherwise a password shorter than 8 gives "Password must be at least 8 characters long". No error iff the code is non-empty, the passwords match, and the password has at least 8 characters. |
| `ResetPassword.Submit` | src/pages/ResetPassword.tsx:23-49 | On a validation error, only `error` changes (to that error). The reset operation is not called and `isLoading` is untouched. Otherwise the operation is called once with (username, code, new password). Success leaves `error` none and `isLoading` true (no finally). Failure sets the message-or-fallback error and clears `isLoading`. |
| `ResetPassword.AcceptsMatchingLongPassword` | src/pages/ResetPassword.tsx:42-44 | A password of length at least 8, typed the same twice, with a non-empty code, reaches the call with (username, code, password). |
| `ResetPassword.ResetPasswordPage.constructor` | src/pages/ResetPassword.tsx:10-14 | The form starts with empty inputs, no error, not loading and no calls. |
| `ResetPassword.ResetPasswordPage.HandleSubmit` | src/pages/ResetPassword.tsx:23-49 | The imperative handler leaves the inputs alone and the rest of the state as `Submit` gives it. |
| `ConfirmRegistration.Render` | src/pages/ConfirmRegistration.tsx:15-56 | Without a username, the page redirects to `/register` with replace. Otherwise it shows the confirmed view iff `isConfirmed`, and the form iff not. |
| `ConfirmRegistration.Submit` | src/pages/ConfirmRegistration.tsx:22-42 | An empty code sets only the error "Verification code is required": no call, no loading change. Otherwise the operation is called once with (username, code), and `isLoading` is false afterwards. Success sets `isConfirmed` and leaves `error` none. Failure sets the message-or-fallback error and keeps `isConfirmed` as it was. |
| `ConfirmRegistration.SubmitThenRender` | src/pages/ConfirmRegistration.tsx:31-56 | From the form view, a submit leads to the confirmed view exactly when the code was given and the operation succeeded. Otherwise the form stays. |
| `ConfirmRegistration.ConfirmRegistrationPage.constructor` | src/pages/ConfirmRegistration.tsx:10-13 | The form starts with an empty code, no error, not loading, not confirmed and no calls. |
| `ConfirmRegistration.ConfirmRegistrationPage.HandleSubmit` | src/pages/ConfirmRegistration.tsx:22-42 | The imperative handler leaves the code alone and the rest of the state as `Submit` gives it. |
| `ForgotPassword.Submit` | src/pages/ForgotPassword.tsx:14-35 | An error and a success message are never both set. An empty username gives "Email is required": no call, no loading change. Otherwise the operation is called once with the username, and `isLoading` is false afterwards. Success sets the fixed confirmation text and no error. Failure sets the message-or-fallback error and no success message. |
| `ForgotPassword.SubmitForgetsEarlierMessages` | src/pages/ForgotPassword.tsx:16-17 | Both messages are cleared first, so what a submit shows never depends on an earlier submit's messages. |
| `ForgotPassword.ForgotPasswordPage.constructor` | src/pages/ForgotPassword.tsx:9-12 | The form starts with an empty username, no messages, not loading and no calls. |
| `ForgotPassword.ForgotPasswordPage.HandleSubmit` | src/pages/ForgotPassword.tsx:14-35 | The imperative handler leaves the username alone and the rest of the state as `Submit` gives it. |

## Left out

- Identity SDK calls (`getCurrentUser`, `signInWithRedirect`, `signOut`): foreign code. Each is an outcome parameter, and the call is recorded in `requests`.
- Page operations (`confirmForgotPassword`, `confirmRegistration`, `forgotPassword`): foreign code. Each is an outcome parameter, and its arguments are recorded per page.
- Page operations as the code stands: the provider's value (`src/context/AuthContext.tsx:136-143`) does not supply them, so each is `undefined` in its page. Every call that passes validation then throws a TypeError ("… is not a function") inside the `try`, and the page shows that message. The `Resolved` branches of the three `Submit` functions model the pages as if the operations existed; as written they are never taken.
- Event-bus subscription and unsubscription: event plumbing. Each event is one atomic step.
- Re-checks on path changes: the effect at `src/context/AuthContext.tsx:70-96` depends on `checkAuthState`, which is rebuilt whenever `location.pathname` changes. So the effect runs again, and calls `checkAuthState`, after every path change, including the provider's own navigations. The model leaves it to the caller whether a `CheckStep` follows a navigation. It therefore does not show two consequences: every path change sets `isLoading` back to true, and an authenticated user who reaches any path other than `/` is sent back to `/` by that re-check.
- Interleaving of awaited promises: asynchrony. Only the provider's two awaits are states of their own (`BeginCheck`, `BeginLogout`), and a step never overlaps another step. In the code two checks can be pending together: the mount check and an event re-check, or the `signInWithRedirect` and `signedIn` re-checks of one redirect sign-in. Overlapping checks clear `isLoading` early, since the first to settle runs its `finally` while the other still awaits, and they settle in completion order, so an older check that settles last wins. The model does not capture either.
- Form pages during their await (error cleared, `isLoading` true): submits are atomic. The model gives only the final state.
- Path changes during a check: the current path is an input. The model does not capture how the event handler's closure picks up a path.
- Router path matching and the router's history stack: library code. A navigation is a logged (path, replace) pair.
- Input `onChange` handlers: trivial assignments. The pages' input fields are plain fields set by the caller.
- Errors without a `message`, and `null` errors: an error with a missing message is modelled as the empty message. A thrown `null`, on which reading `message` would itself throw, is not modelled.
- String length: `newPassword.length` counts UTF-16 code units. The model treats each `char` as one code unit.
- `console.log` output, JSX and CSS rendering, `useAuth`'s context lookup, the home page, the OAuth callback page, the application's route table and the provider configuration: UI, logging and static configuration with no state logic.
