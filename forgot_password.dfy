/** The page that starts a password reset: one input for the username (an email
    address), and a success message or an error after the call. */
module ForgotPassword {
  import opened Common

  const EmailRequired := "Email is required"
  const InstructionsSent := "Password reset instructions sent to your email."
  const ForgotFailed := "Failed to initiate password reset. Please try again."

  /** What a submit changes: the two messages, the loading flag and the usernames for
      which the reset operation was called. */
  datatype Form = Form(error: Option<string>, successMessage: Option<string>, isLoading: bool, requests: seq<string>)

  /** One submit of the form with the given username; `outcome` is how the reset
      operation ends when it is called. */
  function Submit(f: Form, username: string, outcome: Outcome): (r: Form)
    // both messages are cleared first, so at most one is shown afterwards
    ensures r.error == None || r.successMessage == None
    // an empty username is shown, and nothing is called and the loading flag is untouched
    ensures username == [] ==>
              r.error == Some(EmailRequired) && r.successMessage == None &&
              r.isLoading == f.isLoading && r.requests == f.requests
    ensures username != [] ==> r.requests == f.requests + [username] && !r.isLoading
    ensures username != [] && outcome.Resolved? ==> r.successMessage == Some(InstructionsSent) && r.error == None
    ensures username != [] && outcome.Rejected? ==>
              r.error == Some(ErrorText(outcome.message, ForgotFailed)) && r.successMessage == None
  {
    var cleared := f.(error := None, successMessage := None);
    if username == [] then
      cleared.(error := Some(EmailRequired))
    else
      var called := cleared.(isLoading := true, requests := f.requests + [username]);
      var settled :=
        match outcome
        case Resolved => called.(successMessage := Some(InstructionsSent))
        case Rejected(message) => called.(error := Some(ErrorText(message, ForgotFailed)));
      settled.(isLoading := false)
  }

  /** What is shown after a submit depends only on the username and the outcome, never
      on the messages an earlier submit left behind. */
  lemma SubmitForgetsEarlierMessages(f: Form, g: Form, username: string, outcome: Outcome)
    ensures Submit(f, username, outcome).error == Submit(g, username, outcome).error
    ensures Submit(f, username, outcome).successMessage == Submit(g, username, outcome).successMessage
  {
  }

  /** The page; `username` is the input's current value. */
  class ForgotPasswordPage {
    var username: string
    var error: Option<string>
    var isLoading: bool
    var successMessage: Option<string>
    var requests: seq<string>

    function Snapshot(): Form
      reads this
    {
      Form(error, successMessage, isLoading, requests)
    }

    constructor ()
      ensures username == []
      ensures Snapshot() == Form(None, None, false, [])
    {
      username := [];
      error := None;
      isLoading := false;
      successMessage := None;
      requests := [];
    }

    method HandleSubmit(outcome: Outcome)
      modifies this
      ensures username == old(username)
      ensures Snapshot() == Submit(old(Snapshot()), username, outcome)
    {
      error := None;
      successMessage := None;
      if username == [] {
        error := Some(EmailRequired);
        return;
      }
      isLoading := true;
      requests := requests + [username];
      match outcome {
        case Resolved =>
          successMessage := Some(InstructionsSent);
        case Rejected(message) =>
          error := Some(ErrorText(message, ForgotFailed));
      }
      isLoading := false;
    }
  }
}
