/**
 * The stored login session as the pages read it: the token, a top-level role, and
 * the user record with its name, e-mail, role and institution tags.
 */
module Session {
  import opened JsText

  datatype User = User(
    email: string,
    fullname: string,
    role: Option<string>,
    /** `tags`: `None` when the user has none. */
    tags: Option<seq<string>>)

  datatype Session = Session(token: Option<string>, role: Option<string>, user: Option<User>)
}
