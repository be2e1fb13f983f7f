/** The page that confirms a new account with the code sent to the user: a username
    carried in the navigation state, one input, and a confirmed view once it succeeds. */
module ConfirmRegistration {
  import opened Common

  const RegisterPath := "/register"
  const CodeRequired := "Verification code is required"
  const ConfirmFailed := "Failed to confirm registration. Please try again."

  /** What the page renders: a redirect, the confirmed view, or the form. */
  datatype View = RedirectView(nav: Nav) | ConfirmedView | FormView

  function Render(username: Option<string>, isConfirmed: bool): (v: View)
    ensures v.RedirectView? <==> !Present(username)
    ensures v.RedirectView? ==> v.nav == Nav(RegisterPath, true)
    ensures v == ConfirmedView <==> Present(username) && isConfirmed
    ensures v == FormView <==> Present(username) && !isConfirmed
  {
    if !Present(username) then RedirectView(Nav(RegisterPath, true))
    else if isConfirmed then ConfirmedView
    else FormView
  }

  /** The arguments of one call to the confirmation operation. */
  datatype ConfirmRequest = ConfirmRequest(username: string, code: string)

  datatype Form = Form(error: Option<string>, isLoading: bool, isConfirmed: bool, requests: seq<ConfirmRequest>)

  /** One submit of the form with the given code; `outcome` is how the confirmation
      operation ends when it is called. */
  function Submit(f: Form, username: string, code: string, outcome: Outcome): (r: Form)
    // an empty code is shown, and nothing is called and the loading flag is untouched
    ensures code == [] ==> r == f.(error := Some(CodeRequired))
    ensures code != [] ==> r.requests == f.requests + [ConfirmRequest(username, code)]
    // the loading flag is false after the call, whichever way it ended
    ensures code != [] ==> !r.isLoading
    ensures code != [] && outcome.Resolved? ==> r.isConfirmed && r.error == None
    ensures code != [] && outcome.Rejected? ==>
              r.isConfirmed == f.isConfirmed && r.error == Some(ErrorText(outcome.message, ConfirmFailed))
  {
    if code == [] then
      f.(error := Some(CodeRequired))
    else
      var called := f.(error := None, isLoading := true, requests := f.requests + [ConfirmRequest(username, code)]);
      var settled :=
        match outcome
        case Resolved => called.(isConfirmed := true)
        case Rejected(message) => called.(error := Some(ErrorText(message, ConfirmFailed)));
      settled.(isLoading := false)
  }

  /** A submit from the form view leads to the confirmed view exactly when the code was
      given and the confirmation succeeded; otherwise the form stays. */
  lemma SubmitThenRender(f: Form, username: Option<string>, code: string, outcome: Outcome)
    requires Render(username, f.isConfirmed) == FormView
    ensures var r := Submit(f, username.value, code, outcome);
            Render(username, r.isConfirmed) == (if code != [] && outcome.Resolved? then ConfirmedView else FormView)
  {
  }

  /** The page once a username is present; `code` is the input's current value. */
  class ConfirmRegistrationPage {
    const username: string
    var code: string
    var error: Option<string>
    var isLoading: bool
    var isConfirmed: bool
    var requests: seq<ConfirmRequest>

    function Snapshot(): Form
      reads this
    {
      Form(error, isLoading, isConfirmed, requests)
    }

    constructor (username: string)
      requires username != []
      ensures this.username == username && code == []
      ensures Snapshot() == Form(None, false, false, [])
    {
      this.username := username;
      code := [];
      error := None;
      isLoading := false;
      isConfirmed := false;
      requests := [];
    }

    method HandleSubmit(outcome: Outcome)
      modifies this
      ensures code == old(code)
      ensures Snapshot() == Submit(old(Snapshot()), username, code, outcome)
    {
      error := None;
      if code == [] {
        error := Some(CodeRequired);
        return;
      }
      isLoading := true;
      requests := requests + [ConfirmRequest(username, code)];
      match outcome {
        case Resolved =>
          isConfirmed := true;
        case Rejected(message) =>
          error := Some(ErrorText(message, ConfirmFailed));
      }
      isLoading := false;
    }
  }
}
