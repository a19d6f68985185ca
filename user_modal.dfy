/**
 * The create/edit member modal: its mode, the group choices, the institution
 * choices and the payload it hands to its submit callback.
 */
module UserModal {
  import opened JsText

  /** A form's or payload's text fields by name, with the chosen institution tags beside them. */
  datatype Values = Values(fields: map<string, string>, tags: seq<string>)

  datatype SelectOption = SelectOption(value: string, caption: string)

  /** The role sent: the form's role when present and non-empty, otherwise "admin". */
  function RoleOrAdmin(fields: map<string, string>): (r: string)
    ensures "role" in fields && fields["role"] != "" ==> r == fields["role"]
    ensures !("role" in fields && fields["role"] != "") ==> r == "admin"
    ensures r != ""
  {
    if "role" in fields && fields["role"] != "" then fields["role"] else "admin"
  }

  /**
   * The submitted payload: every form value, the tags copied in order, created by
   * "admin", and the role defaulted.
   */
  function Payload(v: Values): (r: Values)
    ensures r.fields.Keys == v.fields.Keys + {"createdBy", "role"}
    ensures r.fields["createdBy"] == "admin"
    ensures r.fields["role"] == RoleOrAdmin(v.fields)
    ensures forall k :: k in v.fields && k != "createdBy" && k != "role" ==> r.fields[k] == v.fields[k]
    ensures r.tags == v.tags
  {
    Values(v.fields["createdBy" := "admin"]["role" := RoleOrAdmin(v.fields)], v.tags)
  }

  /** Submitting twice gives the same payload: an already-built payload is a fixed point. */
  lemma PayloadIdempotent(v: Values)
    ensures Payload(Payload(v)) == Payload(v)
  {
    var p := Payload(v);
    assert RoleOrAdmin(p.fields) == RoleOrAdmin(v.fields);
    assert Payload(p).fields == p.fields;
  }

  /** The group choice for number `n`. */
  function Group(n: nat): (r: SelectOption)
    ensures r.value == r.caption == "Group " + NatText(n)
  {
    SelectOption("Group " + NatText(n), "Group " + NatText(n))
  }

  /** The groups numbered `from` up to `last`, in order. */
  function GroupsFrom(from: nat, last: nat): (r: seq<SelectOption>)
    requires from <= last + 1
    ensures |r| == last + 1 - from
    ensures forall i :: 0 <= i < |r| ==> r[i] == Group(from + i)
    decreases last + 1 - from
  {
    if from > last then [] else [Group(from)] + GroupsFrom(from + 1, last)
  }

  /** The eleven group choices, "Group 1" to "Group 11", each labelled by its own value. */
  function GroupOptions(): (r: seq<SelectOption>)
    ensures |r| == 11
    ensures forall i :: 0 <= i < 11 ==> r[i].value == r[i].caption == "Group " + NatText(i + 1)
  {
    GroupsFrom(1, 11)
  }

  /** No two group choices share a value. */
  lemma GroupOptionsDistinct(i: nat, j: nat)
    requires i < j < 11
    ensures GroupOptions()[i].value != GroupOptions()[j].value
  {
    var r := GroupOptions();
    if r[i].value == r[j].value {
      var a, b := "Group " + NatText(i + 1), "Group " + NatText(j + 1);
      assert a[6..] == NatText(i + 1);
      assert b[6..] == NatText(j + 1);
      NatTextInjective(i + 1, j + 1);
    }
  }

  /** The institution choice: its id, labelled `name (initial)`. */
  function InstitutionOption(id: string, name: string, initial: string): (r: SelectOption)
    ensures r.value == id
    ensures r.caption == name + " (" + initial + ")"
  {
    SelectOption(id, name + " (" + initial + ")")
  }

  /** What the modal shows: edit mode exactly when a member was given; the password only when creating. */
  datatype Mode = Mode(isEdit: bool, title: string, showsPassword: bool)

  function ModeFor<U>(user: Option<U>): (r: Mode)
    ensures r.isEdit <==> user.Some?
    ensures r.title == (if user.Some? then "Edit Member" else "Create New Member")
    ensures r.showsPassword <==> !r.isEdit
  {
    var isEdit := user.Some?;
    Mode(isEdit, if isEdit then "Edit Member" else "Create New Member", !isEdit)
  }
}
