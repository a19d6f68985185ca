/**
 * The equipment sheet: a list of rows, each a set of named fields that hold text or
 * a picked image file. Rows can be added, removed and edited; submitting sends the
 * rows one request each, checking each row's image just before sending it.
 */
module AddEquipmentForm {
  import opened JsText
  import opened Collections
  import opened FormUpload

  /** A sheet row: field name to value. */
  type Row = map<string, Value>

  const FieldNames: seq<string> :=
    ["image", "serialNo", "name", "taxonomy", "department", "description", "quantity", "availability", "status"]

  /** Every field present and empty. */
  const InitialRow: Row :=
    map["image" := Text(""), "serialNo" := Text(""), "name" := Text(""), "taxonomy" := Text(""),
        "department" := Text(""), "description" := Text(""), "quantity" := Text(""),
        "availability" := Text(""), "status" := Text("")]

  const InvalidFile := "Please select a valid image file for all rows."
  const SubmitFailed := "Failed to submit equipment"

  /** A new row: the initial row with a generated serial number. */
  function FreshRow(serialNo: string): (r: Row)
    ensures r.Keys == InitialRow.Keys && r["serialNo"] == Text(serialNo)
    ensures forall k :: k in InitialRow && k != "serialNo" ==> r[k] == Text("")
  {
    InitialRow["serialNo" := Text(serialNo)]
  }

  /** `row.image`, with a missing field read as empty text. */
  function ImageOf(row: Row): Value {
    if "image" in row then row["image"] else Text("")
  }

  /**
   * Why the row at `k` stops the submission, if it does: its image is not a file,
   * or not of an allowed type (the row is then not sent), or its request, the
   * `k`-th, did not go through.
   */
  function RowFailure(row: Row, k: nat, respond: nat -> Delivery): (r: Option<string>)
    ensures CheckImage(ImageOf(row)) == NotAFile ==> r == Some(InvalidFile)
    ensures CheckImage(ImageOf(row)) == BadFormat ==> r == Some(InvalidFormat)
    ensures CheckImage(ImageOf(row)) == ImageOk ==> (r.None? <==> respond(k).Delivered?)
  {
    match CheckImage(ImageOf(row))
    case NotAFile => Some(InvalidFile)
    case BadFormat => Some(InvalidFormat)
    case ImageOk =>
      match respond(k)
      case Delivered => None
      case NotOk => Some(SubmitFailed)
      case Threw(m) => Some(m)
  }

  /** Whether the row at `k` was sent: its image passed the check. */
  predicate Sends(row: Row) {
    CheckImage(ImageOf(row)) == ImageOk
  }

  /** The index of the first row, from `k` on, that stops the submission, or |rows| when none does. */
  function StopFrom(rows: seq<Row>, k: nat, respond: nat -> Delivery): (s: nat)
    requires k <= |rows|
    ensures k <= s <= |rows|
    ensures s < |rows| ==> RowFailure(rows[s], s, respond).Some?
    decreases |rows| - k
  {
    if k == |rows| then k
    else if RowFailure(rows[k], k, respond).Some? then k
    else StopFrom(rows, k + 1, respond)
  }

  /** The stopping row is the first failing one: every row before it went through. */
  lemma {:induction false} StopFromMeaning(rows: seq<Row>, k: nat, respond: nat -> Delivery)
    requires k <= |rows|
    ensures forall j :: k <= j < StopFrom(rows, k, respond) ==> RowFailure(rows[j], j, respond).None?
    decreases |rows| - k
  {
    if k < |rows| && RowFailure(rows[k], k, respond).None? {
      StopFromMeaning(rows, k + 1, respond);
    }
  }

  /** The rows that were sent: every row before the stopping one, and the stopping one when it was sent. */
  function SentRows(rows: seq<Row>, respond: nat -> Delivery): (r: seq<Row>)
    ensures r <= rows
    ensures StopFrom(rows, 0, respond) <= |r| <= StopFrom(rows, 0, respond) + 1
    ensures |r| > StopFrom(rows, 0, respond) <==>
              StopFrom(rows, 0, respond) < |rows| && Sends(rows[StopFrom(rows, 0, respond)])
    ensures StopFrom(rows, 0, respond) == |rows| ==> r == rows
  {
    var s := StopFrom(rows, 0, respond);
    if s < |rows| && Sends(rows[s]) then rows[..s + 1] else rows[..s]
  }

  /**
   * The submission loop over the rows: each row's image is checked and then the
   * row is sent, `respond(k)` being how the `k`-th request ended. It stops at the
   * first failure and returns its message with the rows sent so far.
   */
  method SendRows(rows: seq<Row>, respond: nat -> Delivery) returns (sent: seq<Row>, failure: Option<string>)
    ensures sent == SentRows(rows, respond)
    ensures failure.None? <==> StopFrom(rows, 0, respond) == |rows|
    ensures StopFrom(rows, 0, respond) < |rows| ==>
      failure == RowFailure(rows[StopFrom(rows, 0, respond)], StopFrom(rows, 0, respond), respond)
  {
    sent := [];
    var k := 0;
    while k < |rows|
      invariant 0 <= k <= |rows|
      invariant StopFrom(rows, 0, respond) == StopFrom(rows, k, respond)
      invariant sent == rows[..k]
    {
      var row := rows[k];
      var image := ImageOf(row);
      if !image.FileValue? {
        return sent, Some(InvalidFile);
      }
      if image.file.mimeType !in AllowedTypes {
        return sent, Some(InvalidFormat);
      }
      sent := sent + [row];
      match respond(k) {
        case Delivered =>
        case NotOk =>
          return sent, Some(SubmitFailed);
        case Threw(m) =>
          return sent, Some(m);
      }
      assert sent == rows[..k + 1];
      k := k + 1;
    }
    assert sent == rows[..k];
    return sent, None;
  }

  class Sheet {
    var rows: seq<Row>
    var isLoading: bool
    var error: string

    /** There is always at least one row. */
    predicate Valid()
      reads this
    {
      |rows| >= 1
    }

    constructor ()
      ensures rows == [InitialRow] && !isLoading && error == ""
      ensures Valid()
    {
      rows := [InitialRow];
      isLoading := false;
      error := "";
    }

    /**
     * Opening the form for an institution (and switching to another one) starts the
     * sheet over with a single fresh row; the error and the loading flag stay.
     */
    method ResetForInstitution(serialNo: string)
      modifies this
      ensures Valid()
      ensures rows == [FreshRow(serialNo)]
      ensures isLoading == old(isLoading) && error == old(error)
    {
      rows := [FreshRow(serialNo)];
    }

    /** "Add row": one fresh row at the end; the other rows are untouched. */
    method HandleAddRow(serialNo: string)
      requires Valid()
      modifies this
      ensures Valid()
      ensures rows == old(rows) + [FreshRow(serialNo)]
      ensures isLoading == old(isLoading) && error == old(error)
    {
      rows := rows + [FreshRow(serialNo)];
    }

    /**
     * "Remove row", offered only while there are two rows or more: the row at
     * `index` goes and the others keep their order.
     */
    method HandleDeleteRow(index: int)
      requires Valid() && |rows| > 1
      modifies this
      ensures Valid()
      ensures rows == DropIndex(old(rows), index)
      ensures 0 <= index < |old(rows)| ==> |rows| == |old(rows)| - 1
      ensures isLoading == old(isLoading) && error == old(error)
    {
      rows := DropIndex(rows, index);
    }

    /** Editing a field: only that field of the row at `index` changes. */
    method HandleInputChange(index: int, field: string, value: Value)
      requires 0 <= index < |rows|
      requires Valid()
      modifies this
      ensures Valid()
      ensures |rows| == |old(rows)|
      ensures rows[index] == old(rows)[index][field := value]
      ensures forall i :: 0 <= i < |rows| && i != index ==> rows[i] == old(rows)[i]
      ensures isLoading == old(isLoading) && error == old(error)
    {
      var updated := rows;
      updated := updated[index := updated[index][field := value]];
      rows := updated;
    }

    /**
     * Submit. The rows are visited in order; each row's image is checked and then
     * the row is sent, `respond(k)` being how the `k`-th request ended. The first
     * failure stops the loop and shows its message, and the rows before it have
     * already been sent. When every row goes through, the sheet starts over with one
     * fresh row.
     */
    method HandleSubmit(respond: nat -> Delivery, serialNo: string) returns (sent: seq<Row>)
      requires Valid()
      modifies this
      ensures Valid()
      ensures sent == SentRows(old(rows), respond)
      ensures StopFrom(old(rows), 0, respond) == |old(rows)| ==> rows == [FreshRow(serialNo)] && error == ""
      ensures StopFrom(old(rows), 0, respond) < |old(rows)| ==>
        rows == old(rows) && error == RowFailure(old(rows)[StopFrom(old(rows), 0, respond)], StopFrom(old(rows), 0, respond), respond).value
      ensures !isLoading
    {
      isLoading := true;
      error := "";
      var failure;
      sent, failure := SendRows(rows, respond);
      if failure.Some? {
        error := failure.value;
      } else {
        rows := [FreshRow(serialNo)];
      }
      isLoading := false;
    }
  }

  /** Every row before the one that stopped the submission was sent, in order. */
  lemma SentBeforeFailure(rows: seq<Row>, respond: nat -> Delivery)
    ensures var s := StopFrom(rows, 0, respond);
      && rows[..s] <= SentRows(rows, respond)
      && (forall j :: 0 <= j < s ==> Sends(rows[j]) && respond(j).Delivered?)
  {
    StopFromMeaning(rows, 0, respond);
  }
}
