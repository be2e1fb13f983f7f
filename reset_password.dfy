/** The page that completes a password reset: a username carried in the navigation state,
    three inputs, an ordered chain of checks and the call that confirms the new password. */
module ResetPassword {
  import opened Common

  const ForgotPasswordPath := "/forgot-password"
  const MinPasswordLength := 8
  const AllFieldsRequired := "All fields are required"
  const PasswordsDoNotMatch := "Passwords do not match"
  const PasswordTooShort := "Password must be at least 8 characters long"
  const ResetFailed := "Failed to reset password. Please try again."

  /** Without a username in the navigation state the page only redirects, replacing history. */
  function MissingUsernameRedirect(username: Option<string>): (r: Option<Nav>)
    ensures r.Some? <==> !Present(username)
    ensures r.Some? ==> r.value == Nav(ForgotPasswordPath, true)
  {
    if Present(username) then None else Some(Nav(ForgotPasswordPath, true))
  }

  /** The checks of a submit, in order; the first that fails gives the error shown. */
  function Validate(code: string, newPassword: string, confirmPassword: string): (r: Option<string>)
    ensures r == Some(AllFieldsRequired) <==> code == [] || newPassword == [] || confirmPassword == []
    ensures r == Some(PasswordsDoNotMatch) <==>
              code != [] && newPassword != [] && confirmPassword != [] && newPassword != confirmPassword
    ensures r == Some(PasswordTooShort) <==>
              code != [] && newPassword != [] && newPassword == confirmPassword && |newPassword| < MinPasswordLength
    ensures r == None <==>
              code != [] && newPassword == confirmPassword && |newPassword| >= MinPasswordLength
  {
    if code == [] || newPassword == [] || confirmPassword == [] then Some(AllFieldsRequired)
    else if newPassword != confirmPassword then Some(PasswordsDoNotMatch)
    else if |newPassword| < MinPasswordLength then Some(PasswordTooShort)
    else None
  }

  /** The arguments of one call to the reset operation. */
  datatype ResetRequest = ResetRequest(username: string, code: string, newPassword: string)

  /** What a submit changes: the error shown, the loading flag, and the calls made so far. */
  datatype Form = Form(error: Option<string>, isLoading: bool, requests: seq<ResetRequest>)

  /** One submit of the form with the given inputs; `outcome` is how the reset operation
      ends when it is called. */
  function Submit(f: Form, username: string, code: string, newPassword: string, confirmPassword: string,
                  outcome: Outcome): (r: Form)
    // a failed check is shown, and nothing is called and the loading flag is untouched
    ensures Validate(code, newPassword, confirmPassword).Some? ==>
              r == f.(error := Validate(code, newPassword, confirmPassword))
    // otherwise the operation is called once, with the username, the code and the new password
    ensures Validate(code, newPassword, confirmPassword).None? ==>
              r.requests == f.requests + [ResetRequest(username, code, newPassword)]
    // success leaves the form loading with no error: there is no `finally`
    ensures Validate(code, newPassword, confirmPassword).None? && outcome.Resolved? ==>
              r.error == None && r.isLoading
    ensures Validate(code, newPassword, confirmPassword).None? && outcome.Rejected? ==>
              r.error == Some(ErrorText(outcome.message, ResetFailed)) && !r.isLoading
  {
    var checked := Validate(code, newPassword, confirmPassword);
    if checked.Some? then
      f.(error := checked)
    else
      var called := f.(error := None, isLoading := true, requests := f.requests + [ResetRequest(username, code, newPassword)]);
      match outcome
      case Resolved => called
      case Rejected(message) => called.(error := Some(ErrorText(message, ResetFailed)), isLoading := false)
  }

  /** A password of at least eight characters, typed the same twice, with a code, is accepted. */
  lemma AcceptsMatchingLongPassword(f: Form, username: string, code: string, password: string, outcome: Outcome)
    requires code != [] && |password| >= MinPasswordLength
    ensures Submit(f, username, code, password, password, outcome).requests ==
            f.requests + [ResetRequest(username, code, password)]
  {
  }

  /** The page once a username is present; `code`, `newPassword` and `confirmPassword`
      are the inputs' current values. */
  class ResetPasswordPage {
    const username: string
    var code: string
    var newPassword: string
    var confirmPassword: string
    var error: Option<string>
    var isLoading: bool
    var requests: seq<ResetRequest>

    function Snapshot(): Form
      reads this
    {
      Form(error, isLoading, requests)
    }

    constructor (username: string)
      requires username != []
      ensures this.username == username
      ensures code == [] && newPassword == [] && confirmPassword == []
      ensures Snapshot() == Form(None, false, [])
    {
      this.username := username;
      code, newPassword, confirmPassword := [], [], [];
      error := None;
      isLoading := false;
      requests := [];
    }

    method HandleSubmit(outcome: Outcome)
      modifies this
      ensures code == old(code) && newPassword == old(newPassword) && confirmPassword == old(confirmPassword)
      ensures Snapshot() == Submit(old(Snapshot()), username, code, newPassword, confirmPassword, outcome)
    {
      error := None;
      if code == [] || newPassword == [] || confirmPassword == [] {
        error := Some(AllFieldsRequired);
        return;
      }
      if newPassword != confirmPassword {
        error := Some(PasswordsDoNotMatch);
        return;
      }
      if |newPassword| < MinPasswordLength {
        error := Some(PasswordTooShort);
        return;
      }
      isLoading := true;
      requests := requests + [ResetRequest(username, code, newPassword)];
      match outcome {
        case Resolved =>
        case Rejected(message) =>
          error := Some(ErrorText(message, ResetFailed));
          isLoading := false;
      }
    }
  }
}
