/**
 * The onboarding steps' request table: which endpoint, method, headers and body
 * each step submits to.
 */
module UseOnboarding {
  import opened JsText

  datatype Action = PersonalDetails | TeamMembers | RoomsSetup

  datatype HttpMethod = Put | Post

  /** The action of an onboarding step; steps other than 0, 1 and 2 have none. */
  function ActionFor(currentStep: int): (r: Option<Action>)
    ensures currentStep == 0 <==> r == Some(PersonalDetails)
    ensures currentStep == 1 <==> r == Some(TeamMembers)
    ensures currentStep == 2 <==> r == Some(RoomsSetup)
    ensures r.None? <==> !(0 <= currentStep <= 2)
  {
    match currentStep
    case 0 => Some(PersonalDetails)
    case 1 => Some(TeamMembers)
    case 2 => Some(RoomsSetup)
    case _ => None
  }

  /** The endpoint path; only the profile path depends on the user id. */
  function Endpoint(a: Action, id: string): (r: string)
    ensures a == PersonalDetails ==> r == "/auth/users/profile/" + id
    ensures a == TeamMembers ==> r == "/teams/"
    ensures a == RoomsSetup ==> r == "/rooms/"
  {
    match a
    case PersonalDetails => "/auth/users/profile/" + id
    case TeamMembers => "/teams/"
    case RoomsSetup => "/rooms/"
  }

  function Method(a: Action): (r: HttpMethod)
    ensures r == Put <==> a == PersonalDetails
  {
    if a == PersonalDetails then Put else Post
  }

  /** The request headers; only the team and rooms requests carry the bearer token. */
  function Headers(a: Action, token: string): (r: seq<(string, string)>)
    ensures a == PersonalDetails ==> r == [("Content-Type", "application/json")]
    ensures a != PersonalDetails ==> r == [("Content-Type", "application/json"), ("Authorization", "Bearer " + token)]
  {
    if a == PersonalDetails then [("Content-Type", "application/json")]
    else [("Content-Type", "application/json"), ("Authorization", "Bearer " + token)]
  }

  /**
   * The request body: the data serialised by `stringify` (JSON serialisation is a
   * parameter here) for the team and rooms requests; the profile entry defines none.
   */
  function Body<D>(a: Action, stringify: D -> string, data: D): (r: Option<string>)
    ensures r.None? <==> a == PersonalDetails
    ensures r.Some? ==> r.value == stringify(data)
  {
    if a == PersonalDetails then None else Some(stringify(data))
  }

  /** The three steps send to three different endpoints, whatever the user id. */
  lemma StepsDistinct(s1: int, s2: int, id: string)
    requires ActionFor(s1).Some? && ActionFor(s2).Some? && s1 != s2
    ensures Endpoint(ActionFor(s1).value, id) != Endpoint(ActionFor(s2).value, id)
  {
    var e1, e2 := Endpoint(ActionFor(s1).value, id), Endpoint(ActionFor(s2).value, id);
    if s1 == 0 || s2 == 0 {
      var p := "/auth/users/profile/" + id;
      assert p[1] == 'a';
      assert "/teams/"[1] == 't' && "/rooms/"[1] == 'r';
    }
  }
}
