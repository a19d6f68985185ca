/**
 * The assessor's and the institution user's home pages: both list the institutions
 * whose ids are the user's tags, with the name cut to 40 characters and the contact
 * column built from e-mail and phone.
 */
module TaggedInstitutions {
  import opened JsText
  import opened Session
  import opened Actions

  datatype Institution = Institution(id: string, name: string, email: string, phone: string)

  /** `session?.user?.tags || []`. */
  function TagsOf(session: Option<Session>): (r: seq<string>)
    ensures session.Some? && session.value.user.Some? && session.value.user.value.tags.Some? ==> r == session.value.user.value.tags.value
    ensures !(session.Some? && session.value.user.Some? && session.value.user.value.tags.Some?) ==> r == []
  {
    if session.Some? && session.value.user.Some? && session.value.user.value.tags.Some? then session.value.user.value.tags.value else []
  }

  /** `session?.token`. */
  function TokenOf(session: Option<Session>): Option<string> {
    if session.Some? then session.value.token else None
  }

  /** The name column: more than 40 characters shows the first 40 and "...". */
  function NameCell(i: Institution): (r: string)
    ensures |i.name| <= 40 ==> r == i.name
    ensures |i.name| > 40 ==> r == i.name[..40] + "..." && |r| == 43
  {
    Truncate40(i.name)
  }

  /** The contact column: e-mail and phone separated by a comma and a space. */
  function ContactCell(i: Institution): (r: string)
    ensures |r| == |i.email| + 2 + |i.phone|
    ensures r[..|i.email|] == i.email && r[|i.email|..|i.email| + 2] == ", " && r[|i.email| + 2..] == i.phone
  {
    i.email + ", " + i.phone
  }

  class Page {
    var institutions: seq<Institution>
    var filteredInstitutions: seq<Institution>
    var loading: bool

    constructor ()
      ensures institutions == [] && filteredInstitutions == [] && !loading
    {
      institutions, filteredInstitutions := [], [];
      loading := false;
    }

    /**
     * The fetch of the tagged institutions. Nothing is requested without a token or
     * without tags; otherwise a fetch that resolves replaces both lists, and one
     * that throws leaves them.
     */
    method FetchData(session: Option<Session>, resp: FetchResponse<Institution>) returns (requested: bool)
      modifies this
      ensures requested <==> Truthy(TokenOf(session)) && |TagsOf(session)| > 0
      ensures requested ==> FetchInstitutionsByIds(Some(TagsOf(session)), resp).requested
      ensures requested && resp.FetchOk? ==> institutions == ArrayOrEmpty(resp.payload) && filteredInstitutions == ArrayOrEmpty(resp.payload)
      ensures !(requested && resp.FetchOk?) ==> institutions == old(institutions) && filteredInstitutions == old(filteredInstitutions)
      ensures loading == (old(loading) && !requested)
    {
      var tags := TagsOf(session);
      if !Truthy(TokenOf(session)) || |tags| == 0 {
        return false;
      }
      loading := true;
      var fetched := FetchInstitutionsByIds(Some(tags), resp);
      if fetched.result.Items? {
        institutions := fetched.result.items;
        filteredInstitutions := fetched.result.items;
      }
      loading := false;
      return true;
    }
  }
}
