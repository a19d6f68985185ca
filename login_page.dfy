/**
 * The login page: a message carried over from a previous page, and the login
 * handler that sends each role to its home page.
 */
module LoginPage {
  import opened JsText

  /** The `user` of a login reply: only its role matters here. */
  datatype User = User(role: Option<string>)

  /**
   * What the login helper resolves to: success with the reply's `user` (`None` when
   * the reply has none, so `data` is undefined), or failure with a message.
   */
  datatype LoginResult = Succeeded(user: Option<User>) | Refused(message: string)

  /** The home page of a role. */
  function RouteFor(role: Option<string>): (r: string)
    ensures role == Some("admin") ==> r == "/admin"
    ensures role == Some("institution") ==> r == "/institution"
    ensures role == Some("assessor") || role == Some("data-entry") ==> r == "/assessor"
    ensures role !in {Some("admin"), Some("institution"), Some("assessor"), Some("data-entry")} ==> r == "/dashboard"
  {
    if role == Some("admin") then "/admin"
    else if role == Some("institution") then "/institution"
    else if role == Some("assessor") || role == Some("data-entry") then "/assessor"
    else "/dashboard"
  }

  class Page {
    var message: string
    var isProcessing: bool

    constructor ()
      ensures message == "" && !isProcessing
    {
      message := "";
      isProcessing := false;
    }

    /**
     * On mount: a stored message that is present and non-empty is shown and then
     * removed from storage, so it is shown once.
     */
    method ShowStoredMessage(stored: Option<string>) returns (removed: bool)
      modifies this
      ensures removed <==> Truthy(stored)
      ensures removed ==> message == stored.value
      ensures !removed ==> message == old(message)
      ensures isProcessing == old(isProcessing)
    {
      removed := Truthy(stored);
      if removed {
        message := stored.value;
      }
    }

    /**
     * Log in. Success navigates to the role of the reply's user and leaves the
     * message; a success whose reply has no user throws on reading its role
     * (`threw`), after processing has ended, and navigates nowhere. Failure shows
     * the helper's message and navigates nowhere. Processing ends in every case.
     */
    method HandleLogin(result: LoginResult) returns (navigateTo: Option<string>, threw: bool)
      modifies this
      ensures threw <==> result.Succeeded? && result.user.None?
      ensures result.Succeeded? && result.user.Some? ==> navigateTo == Some(RouteFor(result.user.value.role))
      ensures result.Succeeded? ==> message == old(message)
      ensures result.Succeeded? && result.user.None? ==> navigateTo == None
      ensures result.Refused? ==> navigateTo == None && message == result.message
      ensures !isProcessing
    {
      isProcessing := true;
      isProcessing := false;
      navigateTo, threw := None, false;
      if result.Succeeded? {
        if result.user.None? {
          threw := true;
          return;
        }
        navigateTo := Some(RouteFor(result.user.value.role));
      } else {
        message := result.message;
      }
    }
  }
}
