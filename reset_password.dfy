/**
 * The password-reset page: the token from the link, then a submit handler that
 * checks the token, then the password confirmation, before sending the request.
 */
module ResetPassword {
  import opened JsText

  const NoToken := "No token found."
  const InvalidToken := "Invalid or missing token"
  const PasswordMismatch := "Passwords do not match"
  const ResetDone := "Password has been reset successfully. Redirecting to login page..."
  const ResetFailed := "Failed to reset password. Please try again."
  const ThrownSuffix := " An error occurred while resetting the password."

  /** The reset helper's answer: a status code, or a thrown error as `String(err)` prints it. */
  datatype ResetOutcome = Responded(statusCode: int) | Threw(text: string)

  class Page {
    /** The link's `token` parameter. */
    var token: Option<string>
    var error: Option<string>
    var successMessage: Option<string>
    var loading: bool
    /** `None` until the token has been looked at. */
    var isTokenValid: Option<bool>

    constructor (token0: Option<string>)
      ensures token == token0 && error == None && successMessage == None
      ensures !loading && isTokenValid == None
    {
      token := token0;
      error, successMessage := None, None;
      loading := false;
      isTokenValid := None;
    }

    /** Looking at the token: a present, non-empty token is valid; otherwise the page says none was found. */
    method CheckToken()
      modifies this
      ensures isTokenValid == Some(Truthy(token))
      ensures !Truthy(token) ==> error == Some(NoToken)
      ensures Truthy(token) ==> error == old(error)
      ensures token == old(token) && successMessage == old(successMessage) && loading == old(loading)
    {
      if Truthy(token) {
        isTokenValid := Some(true);
      } else {
        error := Some(NoToken);
        isTokenValid := Some(false);
      }
    }

    /**
     * Submit. An invalid or unchecked token stops first, then mismatched passwords;
     * neither sends anything. Status 200 shows the success message (and leaves any
     * earlier error shown); any other status or a thrown error shows an error.
     */
    method HandleSubmit(password: string, confirmPassword: string, outcome: ResetOutcome) returns (sent: bool)
      modifies this
      ensures sent <==> old(isTokenValid) == Some(true) && password == confirmPassword
      ensures old(isTokenValid) != Some(true) ==> error == Some(InvalidToken)
      ensures old(isTokenValid) == Some(true) && password != confirmPassword ==> error == Some(PasswordMismatch)
      ensures sent && outcome == Responded(200) ==> successMessage == Some(ResetDone) && error == old(error)
      ensures sent && outcome.Responded? && outcome.statusCode != 200 ==> error == Some(ResetFailed)
      ensures sent && outcome.Threw? ==> error == Some(outcome.text + ThrownSuffix)
      ensures !(sent && outcome == Responded(200)) ==> successMessage == old(successMessage)
      ensures !loading
      ensures token == old(token) && isTokenValid == old(isTokenValid)
    {
      loading := true;
      if isTokenValid != Some(true) {
        error := Some(InvalidToken);
        loading := false;
        return false;
      }
      if password != confirmPassword {
        error := Some(PasswordMismatch);
        loading := false;
        return false;
      }
      sent := true;
      match outcome {
        case Responded(code) =>
          if code == 200 {
            successMessage := Some(ResetDone);
          } else {
            error := Some(ResetFailed);
          }
        case Threw(text) =>
          error := Some(text + ThrownSuffix);
      }
      loading := false;
    }
  }

  /** A page opened without a token refuses every submission, whatever the passwords. */
  method NoTokenNeverSends(password: string, confirmPassword: string, outcome: ResetOutcome) returns (sent: bool)
    ensures !sent
  {
    var p := new Page(None);
    p.CheckToken();
    sent := p.HandleSubmit(password, confirmPassword, outcome);
  }

  /**
   * The page imports `resetPassword` from the auth hook module, which exports only
   * the hook itself: calling the unbound name throws a TypeError, which prints as
   * this text.
   */
  const ResetUnbound := "TypeError: resetPassword is not a function"

  /**
   * A submission as the page is written: the success message never appears; a
   * submission that gets past both checks shows the TypeError instead.
   */
  method SubmitAsWritten(token: Option<string>, password: string, confirmPassword: string)
    returns (sent: bool, successMessage: Option<string>, error: Option<string>)
    ensures sent <==> Truthy(token) && password == confirmPassword
    ensures successMessage == None
    ensures sent ==> error == Some(ResetUnbound + ThrownSuffix)
  {
    var p := new Page(token);
    p.CheckToken();
    sent := p.HandleSubmit(password, confirmPassword, Threw(ResetUnbound));
    successMessage, error := p.successMessage, p.error;
  }

  /** With a reset helper bound, a link token and matching passwords that the server accepts show the success message. */
  method SubmitReset(token: Option<string>, password: string) returns (successMessage: Option<string>)
    ensures Truthy(token) ==> successMessage == Some(ResetDone)
    ensures !Truthy(token) ==> successMessage == None
  {
    var p := new Page(token);
    p.CheckToken();
    var _ := p.HandleSubmit(password, password, Responded(200));
    successMessage := p.successMessage;
  }
}
