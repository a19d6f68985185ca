/**
 * The bulk-upload page: the chosen spreadsheet, the four message lines (start,
 * accepted, success, error), the list of skipped rows and the uploading flag. Its
 * submit handler clears the messages, sends the file, applies each progress event
 * as it is reported, and then applies the final result.
 */
module BulkUploadPage {
  import opened JsText
  import opened UploadStream
  import opened Actions

  /** A picked file; only its identity matters here. */
  datatype FileRef = FileRef(name: string)

  /**
   * What the page shows. A message line is `None` when it was set to an event's
   * missing `message` (an undefined state value).
   */
  datatype Messages = Messages(
    error: Option<string>,
    start: Option<string>,
    accepted: Option<string>,
    success: Option<string>,
    skippedRows: seq<SkipRecord>)

  const FileRequired := "Excel file is required for bulk upload."
  const UnknownFailure := "Unknown error occurred."
  const UploadFailure := "Error during bulk upload."

  /** The messages right before a request is sent: every line empty, no skipped rows. */
  const Cleared := Messages(Some(""), Some(""), Some(""), Some(""), [])

  /** What one reported event does to the messages, by its status code. */
  function OnStatus(m: Messages, e: Event): (r: Messages)
    ensures e.status == Some(201) ==> r == m.(start := e.message)
    ensures e.status == Some(202) ==> r == m.(accepted := e.message)
    ensures e.status == Some(200) ==> r == m.(success := e.message, skippedRows := RowsOf(e))
    ensures e.status == Some(501) ==> r == m.(error := e.message)
    ensures e.status !in {Some(200), Some(201), Some(202), Some(501)} ==> r == m
  {
    if e.status == Some(201) then m.(start := e.message)
    else if e.status == Some(202) then m.(accepted := e.message)
    else if e.status == Some(200) then m.(success := e.message, skippedRows := RowsOf(e))
    else if e.status == Some(501) then m.(error := e.message)
    else m
  }

  /**
   * The messages after the events, applied in order; events whose status the page
   * does not handle leave every line as it was.
   */
  function Replay(m: Messages, evs: seq<Event>): (r: Messages)
    ensures (forall i :: 0 <= i < |evs| ==> evs[i].status !in {Some(200), Some(201), Some(202), Some(501)}) ==> r == m
  {
    if evs == [] then m else OnStatus(Replay(m, evs[..|evs| - 1]), evs[|evs| - 1])
  }

  const SavedTail := " record saved\n           and "
  const SkippedTail := " duplicate record(s) skipped"

  /** The text shown when the upload completes: it opens with the saved count and closes with the skipped count. */
  function SuccessText(saved: int, skipped: int): (r: string)
    ensures IntText(saved) <= r
    ensures |IntText(skipped) + SkippedTail| <= |r| && r[|r| - |IntText(skipped) + SkippedTail|..] == IntText(skipped) + SkippedTail
  {
    var head := IntText(saved) + SavedTail;
    var tail := IntText(skipped) + SkippedTail;
    assert (head + tail)[..|IntText(saved)|] == IntText(saved);
    assert (head + tail)[|head|..] == tail;
    head + tail
  }

  /**
   * What the final result does to the messages: a completed upload sets the success
   * line and the skipped rows; a failure sets a non-empty error line, its own message
   * or the default; the start and accepted lines are always kept.
   */
  function Finish(m: Messages, outcome: Outcome): (r: Messages)
    ensures r.start == m.start && r.accepted == m.accepted
    ensures outcome.Completed? ==>
              r.error == m.error && r.skippedRows == outcome.skippedRows &&
              r.success == Some(SuccessText(outcome.totalSaved, outcome.totalSkipped))
    ensures !outcome.Completed? ==>
              r.success == m.success && r.skippedRows == m.skippedRows && r.error.Some? && r.error.value != ""
    ensures !outcome.Completed? && outcome.message != "" ==> r.error == Some(outcome.message)
    ensures outcome.HttpFailure? && outcome.message == "" ==> r.error == Some(UnknownFailure)
    ensures outcome.Threw? && outcome.message == "" ==> r.error == Some(UploadFailure)
  {
    match outcome
    case Completed(_, saved, skipped, rows) => m.(success := Some(SuccessText(saved, skipped)), skippedRows := rows)
    case HttpFailure(_, message) => m.(error := Some(OrElse(Some(message), UnknownFailure)))
    case Threw(message) => m.(error := Some(OrElse(Some(message), UploadFailure)))
  }

  class Page {
    var excelFile: Option<FileRef>
    var errorMessage: Option<string>
    var startMessage: Option<string>
    var acceptedMessage: Option<string>
    var successMessage: Option<string>
    var skippedRows: seq<SkipRecord>
    var isUploading: bool

    function View(): Messages
      reads this
    {
      Messages(errorMessage, startMessage, acceptedMessage, successMessage, skippedRows)
    }

    constructor ()
      ensures excelFile == None && !isUploading
      ensures View() == Cleared
    {
      excelFile := None;
      errorMessage, startMessage, acceptedMessage, successMessage := Some(""), Some(""), Some(""), Some("");
      skippedRows := [];
      isUploading := false;
    }

    /** Choosing a file replaces the selection only when a file was actually picked. */
    method HandleUploadFileChange(selected: Option<FileRef>)
      modifies this
      ensures excelFile == if selected.Some? then selected else old(excelFile)
      ensures View() == old(View()) && isUploading == old(isUploading)
    {
      if selected.Some? {
        excelFile := selected;
      }
    }

    method HandleDeleteFile()
      modifies this
      ensures excelFile == None
      ensures View() == old(View()) && isUploading == old(isUploading)
    {
      excelFile := None;
    }

    /** The per-event status callback. */
    method ApplyStatus(e: Event)
      modifies this
      ensures View() == OnStatus(old(View()), e)
      ensures excelFile == old(excelFile) && isUploading == old(isUploading)
    {
      if e.status == Some(201) {
        startMessage := e.message;
      }
      if e.status == Some(202) {
        acceptedMessage := e.message;
      }
      if e.status == Some(200) {
        successMessage := e.message;
        skippedRows := RowsOf(e);
      }
      if e.status == Some(501) {
        errorMessage := e.message;
      }
    }

    /** Apply the reported events in order, as the callback receives them. */
    method ApplyAll(reported: seq<Event>)
      modifies this
      ensures View() == Replay(old(View()), reported)
      ensures excelFile == old(excelFile) && isUploading == old(isUploading)
    {
      ghost var m0 := View();
      var k := 0;
      while k < |reported|
        invariant 0 <= k <= |reported|
        invariant View() == Replay(m0, reported[..k])
        invariant excelFile == old(excelFile) && isUploading == old(isUploading)
      {
        assert reported[..k + 1][..k] == reported[..k];
        ApplyStatus(reported[k]);
        k := k + 1;
      }
      assert reported[..k] == reported;
    }

    /** Apply the final result of the upload. */
    method ApplyOutcome(outcome: Outcome)
      modifies this
      ensures View() == Finish(old(View()), outcome)
      ensures excelFile == old(excelFile) && isUploading == old(isUploading)
    {
      match outcome
      case Completed(_, saved, skipped, rows) =>
        successMessage := Some(SuccessText(saved, skipped));
        skippedRows := rows;
      case HttpFailure(_, message) =>
        errorMessage := Some(OrElse(Some(message), UnknownFailure));
      case Threw(message) =>
        errorMessage := Some(OrElse(Some(message), UploadFailure));
    }

    /**
     * The upload itself, once a file is chosen: clear the message lines, replay
     * the events the callback received, then apply the final result.
     */
    method Upload(outcome: Outcome, reported: seq<Event>)
      modifies this
      ensures View() == Finish(Replay(Cleared, reported), outcome)
      ensures excelFile == old(excelFile) && !isUploading
    {
      isUploading := true;
      errorMessage, startMessage, successMessage, acceptedMessage := Some(""), Some(""), Some(""), Some("");
      skippedRows := [];
      ApplyAll(reported);
      ApplyOutcome(outcome);
      isUploading := false;
    }

    /**
     * Submit the chosen file. `resp` is what the upload request gets back and
     * `parse` stands for `JSON.parse`; `sent` says whether the request went out.
     */
    method HandleBulkUploadSubmit(resp: Response, parse: string -> Option<Event>) returns (sent: bool)
      modifies this
      ensures sent <==> old(excelFile).Some?
      ensures !sent ==> View() == old(View()).(error := Some(FileRequired))
      ensures sent ==> View() == Finish(Replay(Cleared, BulkReports(resp, parse, true)), BulkOutcome(resp, parse))
      ensures excelFile == old(excelFile)
      ensures isUploading == (old(isUploading) && !sent)
    {
      if excelFile.None? {
        errorMessage := Some(FileRequired);
        return false;
      }
      var outcome, reported := SendBulkEquipment(resp, parse, true);
      Upload(outcome, reported);
      return true;
    }
  }

  // ------------------------------------------------------------------ properties

  /** The message of the last event with the given status, or `absent` when none has it. */
  function LastMessage(evs: seq<Event>, status: int, absent: Option<string>): Option<string> {
    if evs == [] then absent
    else if evs[|evs| - 1].status == Some(status) then evs[|evs| - 1].message
    else LastMessage(evs[..|evs| - 1], status, absent)
  }

  /** The skipped rows of the last event with status 200, or `absent` when none has it. */
  function LastRows(evs: seq<Event>, absent: seq<SkipRecord>): seq<SkipRecord> {
    if evs == [] then absent
    else if evs[|evs| - 1].status == Some(200) then RowsOf(evs[|evs| - 1])
    else LastRows(evs[..|evs| - 1], absent)
  }

  /**
   * Each message line shows the message of the last event carrying its status
   * (201 start, 202 accepted, 200 success, 501 error), and the skipped rows are
   * those of the last 200 event; events with any other status change nothing.
   */
  lemma {:induction false} ReplayMeaning(m: Messages, evs: seq<Event>)
    ensures Replay(m, evs).start == LastMessage(evs, 201, m.start)
    ensures Replay(m, evs).accepted == LastMessage(evs, 202, m.accepted)
    ensures Replay(m, evs).success == LastMessage(evs, 200, m.success)
    ensures Replay(m, evs).error == LastMessage(evs, 501, m.error)
    ensures Replay(m, evs).skippedRows == LastRows(evs, m.skippedRows)
  {
    if evs != [] {
      ReplayMeaning(m, evs[..|evs| - 1]);
    }
  }

  /**
   * A completed upload ends with the success text built from its totals and with
   * the aggregated skipped rows, whatever the events said; the start, accepted and
   * error lines keep what the events left in them.
   */
  lemma CompletedUpload(status: int, chunks: seq<string>, parse: string -> Option<Event>)
    requires IsOk(status)
    ensures var resp := Http(status, None, chunks, None);
      var evs := StreamEvents(chunks, parse);
      var m := Finish(Replay(Cleared, BulkReports(resp, parse, true)), BulkOutcome(resp, parse));
      && m.success == Some(SuccessText(ValueOr0(LastDefined(evs, Saved)), ValueOr0(LastDefined(evs, Skipped))))
      && m.skippedRows == AllRows(evs)
      && m.start == LastMessage(evs, 201, Some(""))
      && m.accepted == LastMessage(evs, 202, Some(""))
      && m.error == LastMessage(evs, 501, Some(""))
  {
    var evs := StreamEvents(chunks, parse);
    CompletedMeaning(status, chunks, parse);
    ReplayMeaning(Cleared, evs);
  }

  /**
   * A response that is not ok leaves every line empty except the error, which shows
   * the server's message or the default text.
   */
  lemma FailedUpload(resp: Response, parse: string -> Option<Event>)
    requires resp.Http? && !IsOk(resp.status)
    ensures Finish(Replay(Cleared, BulkReports(resp, parse, true)), BulkOutcome(resp, parse))
         == Cleared.(error := Some(OrElse(resp.errorMessage, UnknownError)))
  {
    NotOkReadsNothing(resp, parse, true);
  }

  /**
   * A thrown upload shows the thrown message itself: it is never empty, so the
   * page's own fallback text is never needed.
   */
  lemma ThrownMessageKept(m: Messages, resp: Response, parse: string -> Option<Event>)
    requires BulkOutcome(resp, parse).Threw?
    ensures Finish(m, BulkOutcome(resp, parse)).error == Some(BulkOutcome(resp, parse).message)
    ensures BulkOutcome(resp, parse).message != ""
  {
    var o := BulkOutcome(resp, parse);
    if resp.Http? {
      assert IsOk(resp.status) && resp.readFailure.Some?;
    }
    assert o.message != "";
  }
}
