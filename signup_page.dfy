/**
 * The sign-up page: the institution choices, the password confirmation check, the
 * registration payload and what the page does with the answer.
 */
module SignupPage {
  import opened JsText

  datatype Institution = Institution(id: string, initial: string, city: string, state: string)

  datatype SelectOption = SelectOption(value: string, caption: string)

  /** An institution choice: its id, labelled ` (initial- city - state)`. */
  function InstitutionOption(i: Institution): (r: SelectOption)
    ensures r.value == i.id
    ensures r.caption == " (" + i.initial + "- " + i.city + " - " + i.state + ")"
  {
    SelectOption(i.id, " (" + i.initial + "- " + i.city + " - " + i.state + ")")
  }

  function InstitutionOptions(xs: seq<Institution>): (r: seq<SelectOption>)
    ensures |r| == |xs|
    ensures forall i :: 0 <= i < |xs| ==> r[i] == InstitutionOption(xs[i])
  {
    if xs == [] then [] else [InstitutionOption(xs[0])] + InstitutionOptions(xs[1..])
  }

  /** The form's fields. */
  datatype Values = Values(
    title: string, fullname: string, tags: seq<string>, email: string,
    phoneNumber: string, password: string, confirmPassword: string)

  /** The registration request's body. */
  datatype Registration = Registration(
    title: string, fullname: string, tags: seq<string>, email: string,
    phoneNumber: string, password: string, role: string, createdBy: string)

  /** Every registration is a data-entry account created by the user. */
  function Payload(v: Values): (r: Registration)
    ensures r.role == "data-entry" && r.createdBy == "user"
    ensures r.title == v.title && r.fullname == v.fullname && r.tags == v.tags
    ensures r.email == v.email && r.phoneNumber == v.phoneNumber && r.password == v.password
  {
    Registration(v.title, v.fullname, v.tags, v.email, v.phoneNumber, v.password, "data-entry", "user")
  }

  /** The registration helper's answer: a status code and message, or a thrown error's message. */
  datatype RegisterOutcome = Responded(statusCode: int, message: Option<string>) | Threw(reason: string)

  const PasswordMismatch := "Passwords do not match"

  class Page {
    /** The error line; `None` while nothing is shown. */
    var error: Option<string>
    var loading: bool

    constructor ()
      ensures error == None && !loading
    {
      error := None;
      loading := false;
    }

    /**
     * Submit. Mismatched passwords stop before any request. Otherwise the
     * registration is sent: status 200 goes to the login page, and the answer's
     * message is shown in both cases; a thrown error is shown with a prefix.
     */
    method HandleFinish(v: Values, outcome: RegisterOutcome) returns (sent: Option<Registration>, navigateTo: Option<string>)
      modifies this
      ensures v.password != v.confirmPassword ==> sent == None && navigateTo == None && error == Some(PasswordMismatch)
      ensures v.password == v.confirmPassword ==> sent == Some(Payload(v))
      ensures v.password == v.confirmPassword && outcome.Responded? ==>
        error == outcome.message && (navigateTo == Some("/login") <==> outcome.statusCode == 200)
      ensures v.password == v.confirmPassword && outcome.Threw? ==>
        error == Some("An error occurred while registering: " + outcome.reason) && navigateTo == None
      ensures navigateTo.Some? ==> navigateTo == Some("/login")
      ensures !loading
    {
      loading := true;
      navigateTo := None;
      if v.password != v.confirmPassword {
        error := Some(PasswordMismatch);
        loading := false;
        return None, None;
      }
      sent := Some(Payload(v));
      match outcome {
        case Responded(code, message) =>
          error := message;
          if code == 200 {
            navigateTo := Some("/login");
          }
        case Threw(reason) =>
          error := Some("An error occurred while registering: " + reason);
      }
      loading := false;
    }
  }

  /**
   * The page imports `registerUser` from the auth hook module, which exports only
   * the hook itself, so the name is bound to nothing: calling it throws a TypeError
   * inside the handler's error handling.
   */
  const RegisterUnbound := "registerUser is not a function"

  /** A submission as the page is written: no registration ever leads to the login page, and the TypeError is shown. */
  method FinishAsWritten(v: Values) returns (navigateTo: Option<string>, error: Option<string>)
    ensures navigateTo == None
    ensures v.password == v.confirmPassword ==> error == Some("An error occurred while registering: " + RegisterUnbound)
    ensures v.password != v.confirmPassword ==> error == Some(PasswordMismatch)
  {
    var p := new Page();
    var sent;
    sent, navigateTo := p.HandleFinish(v, Threw(RegisterUnbound));
    error := p.error;
  }

  /** With a registration helper bound, matching passwords that the server accepts lead to the login page with its message shown. */
  method FinishRegistered(v: Values, message: Option<string>) returns (navigateTo: Option<string>, error: Option<string>)
    ensures v.password == v.confirmPassword ==> navigateTo == Some("/login") && error == message
    ensures v.password != v.confirmPassword ==> navigateTo == None && error == Some(PasswordMismatch)
  {
    var p := new Page();
    var sent;
    sent, navigateTo := p.HandleFinish(v, Responded(200, message));
    error := p.error;
  }
}
