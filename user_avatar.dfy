/** The signed-in user's badge: initials, name and e-mail, or nothing without a user. */
module UserAvatar {
  import opened JsText
  import opened Session

  /** `s.charAt(0)`: the first character, or "" for the empty text. */
  function FirstChar(s: string): (r: string)
    ensures |r| <= 1
    ensures s != "" ==> r == [s[0]]
  {
    if s == "" then "" else [s[0]]
  }

  /**
   * The initials: the first character of the text before the name's first space,
   * then the first character of the text after its last space. A part that is
   * empty (a leading or trailing space) contributes nothing.
   */
  function Initials(fullname: string): (r: string)
    ensures |r| <= 2
    ensures r == FirstChar(fullname[..IndexOf(fullname, ' ')]) + FirstChar(AfterLast(fullname, ' '))
  {
    var parts := Split(fullname, ' ');
    SplitFirst(fullname, ' ');
    SplitLast(fullname, ' ');
    var first, last := parts[0], parts[|parts| - 1];
    assert first == fullname[..IndexOf(fullname, ' ')] && last == AfterLast(fullname, ' ');
    FirstChar(first) + FirstChar(last)
  }

  /** A one-word name gives its first character twice. */
  lemma OneWordInitials(name: string)
    requires name != "" && ' ' !in name
    ensures Initials(name) == [name[0], name[0]]
  {
    SplitFirst(name, ' ');
  }

  /** Two words give the first character of each. */
  lemma {:induction false} TwoWordInitials(first: string, last: string)
    requires first != "" && last != "" && ' ' !in first && ' ' !in last
    ensures Initials(first + " " + last) == [first[0], last[0]]
  {
    SplitCons(first, ' ', last);
    SplitFirst(last, ' ');
    assert first + " " + last == first + [' '] + last;
  }

  /** A name of three words or more gives the first character of its first and of its last word; the middle is ignored. */
  lemma {:induction false} ManyWordInitials(first: string, middle: string, last: string)
    requires ' ' !in first && ' ' !in last
    ensures Initials(first + " " + middle + " " + last) == FirstChar(first) + FirstChar(last)
  {
    var s := first + " " + middle + " " + last;
    assert s == first + [' '] + (middle + " " + last);
    IndexOfCons(first, ' ', middle + " " + last);
    assert s[..|first|] == first;
    assert s == (first + " " + middle) + [' '] + last;
    AfterLastCons(first + " " + middle, ' ', last);
    AfterLastNone(last, ' ');
  }

  /** A leading space leaves the first part empty: only the last part's first character is shown. */
  lemma {:induction false} LeadingSpaceInitials(rest: string, last: string)
    requires ' ' !in last
    ensures Initials(" " + rest + " " + last) == FirstChar(last)
  {
    var s := " " + rest + " " + last;
    assert s == ([] + [' '] + (rest + " " + last));
    IndexOfCons([], ' ', rest + " " + last);
    assert s == (" " + rest) + [' '] + last;
    AfterLastCons(" " + rest, ' ', last);
    AfterLastNone(last, ' ');
  }

  /** What the badge shows. */
  datatype Badge = Badge(initials: string, fullname: string, email: string)

  /** Nothing without a session or without a user in it. */
  function Render(session: Option<Session>): (r: Option<Badge>)
    ensures r.None? <==> session.None? || session.value.user.None?
    ensures r.Some? ==> r.value.initials == Initials(session.value.user.value.fullname)
  {
    if session.None? || session.value.user.None? then None
    else
      var u := session.value.user.value;
      Some(Badge(Initials(u.fullname), u.fullname, u.email))
  }
}
