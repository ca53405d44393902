/** The password-change form opened from a reset link. */
module ChangePassword {
  import opened Outcomes

  datatype PasswordResetBody = PasswordResetBody(resetSessionId: string, newPassword: string)

  const InvalidLinkError := "Invalid reset link. Please request a new password reset."
  const MismatchError := "Passwords do not match"
  const FallbackError := "Failed to change password. Please try again."

  /** A session id from the link is used only when it is truthy. */
  predicate HasSession(sessionId: Option<string>)
  {
    sessionId.Some? && sessionId.value != ""
  }

  /** The error shown when the reset request fails: the reply's `detail` when it
      is a non-empty string, otherwise the fixed fallback. */
  function ErrorFor(reply: Reply<string, Option<string>>): (e: string)
    requires !reply.Ok?
    ensures e != ""
    ensures reply.HttpError? && reply.body.Some? && reply.body.value != "" ==> e == reply.body.value
    ensures !(reply.HttpError? && reply.body.Some? && reply.body.value != "") ==> e == FallbackError
  {
    if reply.HttpError? && reply.body.Some? && reply.body.value != "" then reply.body.value
    else FallbackError
  }

  class PasswordReset {
    var password: string
    var confirmPassword: string
    var message: string
    var error: string
    var resetSessionId: string

    /** Mounting reads the `session_id` of the link: a truthy one is stored,
        otherwise the link is reported invalid. */
    constructor (sessionId: Option<string>)
      ensures password == "" && confirmPassword == "" && message == ""
      ensures HasSession(sessionId) ==> resetSessionId == sessionId.value && error == ""
      ensures !HasSession(sessionId) ==> resetSessionId == "" && error == InvalidLinkError
    {
      password, confirmPassword, message := "", "", "";
      if HasSession(sessionId) {
        resetSessionId, error := sessionId.value, "";
      } else {
        resetSessionId, error := "", InvalidLinkError;
      }
    }

    method EditPassword(text: string)
      modifies this`password
      ensures password == text
    {
      password := text;
    }

    method EditConfirmPassword(text: string)
      modifies this`confirmPassword
      ensures confirmPassword == text
    {
      confirmPassword := text;
    }

    /** Submitting: both messages are cleared first; mismatched passwords stop
        there with an error; otherwise the new password is posted with the
        stored session id, and success clears both fields while failure keeps
        them. */
    method ChangePassword(reply: Reply<string, Option<string>>) returns (request: Option<PasswordResetBody>)
      modifies this`message, this`error, this`password, this`confirmPassword
      ensures request == if old(password) == old(confirmPassword)
                         then Some(PasswordResetBody(resetSessionId, old(password))) else None
      ensures request == None ==>
        message == "" && error == MismatchError
        && password == old(password) && confirmPassword == old(confirmPassword)
      ensures request != None && reply.Ok? ==>
        message == reply.payload && error == "" && password == "" && confirmPassword == ""
      ensures request != None && !reply.Ok? ==>
        message == "" && error == ErrorFor(reply)
        && password == old(password) && confirmPassword == old(confirmPassword)
    {
      message := "";
      error := "";
      if password != confirmPassword {
        error := MismatchError;
        return None;
      }
      request := Some(PasswordResetBody(resetSessionId, password));
      if reply.Ok? {
        message := reply.payload;
        password, confirmPassword := "", "";
      } else {
        error := ErrorFor(reply);
      }
    }
  }
}
