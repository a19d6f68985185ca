/**
 * The request helpers of the dashboard's action hook that do more than forward a
 * call: the bulk upload, which reads the streamed progress of an equipment import
 * and aggregates it, the id-list check of the institution lookup, and the rule that a
 * list fetch yields an empty list whenever the payload is not an array.
 * The network is an input: a response is given, never fetched.
 */
module Actions {
  import opened JsText
  import opened UploadStream

  // ------------------------------------------------------------------ bulk upload

  /**
   * What the bulk-upload request gives back. `Rejected` is a request that throws
   * before any progress is read (no network, or an error body that is not JSON).
   * `Http` is a response: its status, the `message` of its error body, the decoded
   * text of each read of its body, and the failure of a later read, if one fails.
   */
  datatype Response =
    | Rejected(reason: string)
    | Http(status: int, errorMessage: Option<string>, chunks: seq<string>, readFailure: Option<string>)

  /** What the upload resolves to, or the message of the error it throws. */
  datatype Outcome =
    | Completed(message: string, totalSaved: int, totalSkipped: int, skippedRows: seq<SkipRecord>)
    | HttpFailure(statusCode: int, message: string)
    | Threw(message: string)
  {
    /** The `statusCode` field the caller inspects. */
    function StatusCode(): int
      requires !Threw?
    {
      if Completed? then 200 else statusCode
    }
  }

  /** `response.ok`. */
  predicate IsOk(status: int) {
    200 <= status <= 299
  }

  const UnknownError := "Unknown error occurred"
  const UploadError := "Error during bulk upload"

  /** The outcome the upload promises for a response. */
  function BulkOutcome(resp: Response, parse: string -> Option<Event>): Outcome {
    match resp
    case Rejected(reason) => Threw(if reason != "" then reason else UploadError)
    case Http(status, errorMessage, chunks, readFailure) =>
      if !IsOk(status) then HttpFailure(status, OrElse(errorMessage, UnknownError))
      else if readFailure.Some? then Threw(if readFailure.value != "" then readFailure.value else UploadError)
      else
        Summary(Aggregate(StreamEvents(chunks, parse)))
  }

  /** The result a completed read resolves to: the messages joined by ", ", then the tally's other fields. */
  function Summary(t: Tally): Outcome {
    Completed(Join(t.messages, ", "), t.totalSaved, t.totalSkipped, t.skippedRows)
  }

  /** The events handed to the status callback, in order; none when there is no callback. */
  function BulkReports(resp: Response, parse: string -> Option<Event>, notify: bool): seq<Event> {
    if notify && resp.Http? && IsOk(resp.status) then StreamEvents(resp.chunks, parse) else []
  }

  /**
   * Collect one parsed event into the running `result`: its skipped rows are
   * appended, a truthy message is kept, and each total it carries replaces the last.
   */
  method Collect(result: Tally, e: Event) returns (next: Tally)
    ensures next == Record(result, e)
  {
    next := result;
    if e.skippedRows.Some? {
      next := next.(skippedRows := next.skippedRows + e.skippedRows.value);
    }
    if Truthy(e.message) {
      next := next.(messages := next.messages + [e.message.value]);
    }
    if e.totalSaved.Some? {
      next := next.(totalSaved := e.totalSaved.value);
    }
    if e.totalSkipped.Some? {
      next := next.(totalSkipped := e.totalSkipped.value);
    }
  }

  /**
   * Read the parts of one chunk: blank parts and parts that do not parse are passed
   * over; every other part's event is handed to the status callback, when there is
   * one, and collected. `before` is the ghost history of the events read so far.
   */
  method ReadParts(result0: Tally, reported0: seq<Event>, parts: seq<string>,
                   parse: string -> Option<Event>, notify: bool, ghost before: seq<Event>)
    returns (result: Tally, reported: seq<Event>)
    requires result0 == Aggregate(before)
    requires notify ==> reported0 == before
    requires !notify ==> reported0 == []
    ensures result == Aggregate(before + PartsEvents(parts, parse))
    ensures notify ==> reported == before + PartsEvents(parts, parse)
    ensures !notify ==> reported == []
  {
    result, reported := result0, reported0;
    var j := 0;
    assert parts[..0] == [] && before + [] == before;
    while j < |parts|
      invariant 0 <= j <= |parts|
      invariant result == Aggregate(before + PartsEvents(parts[..j], parse))
      invariant notify ==> reported == before + PartsEvents(parts[..j], parse)
      invariant !notify ==> reported == []
    {
      var part := parts[j];
      PartRead(before, parts, j, parse);
      if Trim(part) != "" {
        var parsed := parse(part);
        if parsed.Some? {
          result := Collect(result, parsed.value);
          if notify {
            reported := reported + [parsed.value];
          }
        }
        // a part that does not parse is logged and skipped
      }
      j := j + 1;
    }
    assert parts[..j] == parts;
  }

  /**
   * Read every chunk of an ok response to the end. The `result` object of the read
   * loop is local to the request and never shared before it is returned, so it is
   * the local `result` here, replaced as each event arrives.
   */
  method ReadStream(chunks: seq<string>, parse: string -> Option<Event>, notify: bool)
    returns (result: Tally, reported: seq<Event>)
    ensures result == Aggregate(StreamEvents(chunks, parse))
    ensures notify ==> reported == StreamEvents(chunks, parse)
    ensures !notify ==> reported == []
  {
    result := Tally([], [], 0, 0);
    reported := [];
    var i := 0;
    while i < |chunks|
      invariant 0 <= i <= |chunks|
      invariant result == Aggregate(StreamEvents(chunks[..i], parse))
      invariant notify ==> reported == StreamEvents(chunks[..i], parse)
      invariant !notify ==> reported == []
    {
      var chunk := chunks[i];
      ChunkRead(chunks, i, parse);
      if chunk != "" {
        result, reported := ReadParts(result, reported, Split(chunk, '\n'), parse, notify,
                                      StreamEvents(chunks[..i], parse));
      }
      i := i + 1;
    }
    assert chunks[..i] == chunks;
  }

  /**
   * Send the upload and read its progress stream to the end. `parse` stands for
   * `JSON.parse` (None: the text is not valid JSON); `notify` says whether a status
   * callback was given, and `reported` is the sequence of calls it receives.
   */
  method SendBulkEquipment(resp: Response, parse: string -> Option<Event>, notify: bool)
    returns (outcome: Outcome, reported: seq<Event>)
    ensures outcome == BulkOutcome(resp, parse)
    ensures reported == BulkReports(resp, parse, notify)
  {
    match resp
    case Rejected(reason) =>
      outcome, reported := Threw(if reason != "" then reason else UploadError), [];
    case Http(status, errorMessage, chunks, readFailure) =>
      if !IsOk(status) {
        outcome, reported := HttpFailure(status, OrElse(errorMessage, UnknownError)), [];
      } else {
        var result;
        result, reported := ReadStream(chunks, parse, notify);
        if readFailure.Some? {
          var reason := readFailure.value;
          outcome := Threw(if reason != "" then reason else UploadError);
        } else {
          outcome := Completed(Join(result.messages, ", "), result.totalSaved, result.totalSkipped, result.skippedRows);
        }
      }
  }

  /** What reading the part at index j adds, on each path of the read loop. */
  lemma PartRead(before: seq<Event>, parts: seq<string>, j: int, parse: string -> Option<Event>)
    requires 0 <= j < |parts|
    ensures Trim(parts[j]) == "" || parse(parts[j]).None? ==>
      PartsEvents(parts[..j + 1], parse) == PartsEvents(parts[..j], parse)
    ensures Trim(parts[j]) != "" && parse(parts[j]).Some? ==>
      && before + PartsEvents(parts[..j + 1], parse) == before + PartsEvents(parts[..j], parse) + [parse(parts[j]).value]
      && Aggregate(before + PartsEvents(parts[..j + 1], parse))
         == Record(Aggregate(before + PartsEvents(parts[..j], parse)), parse(parts[j]).value)
  {
    assert parts[..j + 1][..j] == parts[..j];
    if Trim(parts[j]) != "" && parse(parts[j]).Some? {
      var done, e := PartsEvents(parts[..j], parse), parse(parts[j]).value;
      assert before + (done + [e]) == (before + done) + [e];
      AggregateSnoc(before + done, e);
    }
  }

  /** What reading the chunk at index i adds: nothing when it is empty, else the events of its lines. */
  lemma ChunkRead(chunks: seq<string>, i: int, parse: string -> Option<Event>)
    requires 0 <= i < |chunks|
    ensures chunks[i] == "" ==> StreamEvents(chunks[..i + 1], parse) == StreamEvents(chunks[..i], parse)
    ensures chunks[i] != "" ==>
      StreamEvents(chunks[..i + 1], parse) == StreamEvents(chunks[..i], parse) + PartsEvents(Split(chunks[i], '\n'), parse)
  {
    assert chunks[..i + 1][..i] == chunks[..i];
  }

  /** A response that is not ok reports its status and message and reads nothing of the body. */
  lemma NotOkReadsNothing(resp: Response, parse: string -> Option<Event>, notify: bool)
    requires resp.Http? && !IsOk(resp.status)
    ensures BulkOutcome(resp, parse) == HttpFailure(resp.status, OrElse(resp.errorMessage, UnknownError))
    ensures BulkOutcome(resp, parse).StatusCode() != 200
    ensures BulkReports(resp, parse, notify) == []
  {
  }

  /** A stream with nothing in it completes with an empty message, no skipped rows and zero totals. */
  lemma {:induction false} EmptyStream(status: int, chunks: seq<string>, parse: string -> Option<Event>)
    requires IsOk(status)
    requires forall i :: 0 <= i < |chunks| ==> chunks[i] == ""
    ensures BulkOutcome(Http(status, None, chunks, None), parse) == Completed("", 0, 0, [])
  {
    NoEventsFromEmptyChunks(chunks, parse);
    assert BulkOutcome(Http(status, None, chunks, None), parse) == Summary(Aggregate([]));
  }

  lemma {:induction false} NoEventsFromEmptyChunks(chunks: seq<string>, parse: string -> Option<Event>)
    requires forall i :: 0 <= i < |chunks| ==> chunks[i] == ""
    ensures StreamEvents(chunks, parse) == []
  {
    if chunks != [] {
      NoEventsFromEmptyChunks(chunks[..|chunks| - 1], parse);
    }
  }

  /**
   * A completed upload is the fold of every parsed event: rows concatenated in
   * order, truthy messages joined by ", ", the last value of each total (0 if none),
   * and the status callback sees exactly those events, once each, in order.
   */
  lemma CompletedMeaning(status: int, chunks: seq<string>, parse: string -> Option<Event>)
    requires IsOk(status)
    ensures BulkOutcome(Http(status, None, chunks, None), parse)
         == Completed(Join(Recorded(StreamEvents(chunks, parse)), ", "),
                      ValueOr0(LastDefined(StreamEvents(chunks, parse), Saved)),
                      ValueOr0(LastDefined(StreamEvents(chunks, parse), Skipped)),
                      AllRows(StreamEvents(chunks, parse)))
    ensures BulkReports(Http(status, None, chunks, None), parse, true) == StreamEvents(chunks, parse)
  {
    CompletedSummary(status, chunks, parse);
    SummaryMeaning(StreamEvents(chunks, parse));
    CompletedReports(status, chunks, parse);
  }

  lemma CompletedSummary(status: int, chunks: seq<string>, parse: string -> Option<Event>)
    requires IsOk(status)
    ensures BulkOutcome(Http(status, None, chunks, None), parse) == Summary(Aggregate(StreamEvents(chunks, parse)))
  {
  }

  lemma CompletedReports(status: int, chunks: seq<string>, parse: string -> Option<Event>)
    requires IsOk(status)
    ensures BulkReports(Http(status, None, chunks, None), parse, true) == StreamEvents(chunks, parse)
  {
  }

  /** The summary of any run of events, in terms of the reference descriptions of the fold. */
  lemma SummaryMeaning(evs: seq<Event>)
    ensures Summary(Aggregate(evs))
         == Completed(Join(Recorded(evs), ", "), ValueOr0(LastDefined(evs, Saved)),
                      ValueOr0(LastDefined(evs, Skipped)), AllRows(evs))
  {
    AggregateMeaning(evs);
  }

  /**
   * The events of a typical import: a start event, a progress event and the final
   * event with the totals and the skipped rows. The upload resolves to the three
   * messages joined by ", ", the final totals and the rows.
   */
  lemma ThreeEventRun(m1: string, m2: string, m3: string, rows: seq<SkipRecord>, saved: int, skipped: int)
    requires m1 != "" && m2 != "" && m3 != ""
    ensures var t := Aggregate([Event(Some(201), Some(m1), None, None, None),
                                Event(Some(202), Some(m2), None, None, None),
                                Event(Some(200), Some(m3), Some(rows), Some(saved), Some(skipped))]);
      && t == Tally([m1, m2, m3], rows, saved, skipped)
      && Join(t.messages, ", ") == m1 + ", " + m2 + ", " + m3
  {
    var e1 := Event(Some(201), Some(m1), None, None, None);
    var e2 := Event(Some(202), Some(m2), None, None, None);
    var e3 := Event(Some(200), Some(m3), Some(rows), Some(saved), Some(skipped));
    AggregateThree(e1, e2, e3);
    assert Record(Start, e1) == Tally([m1], [], 0, 0);
    assert Record(Tally([m1], [], 0, 0), e2) == Tally([m1, m2], [], 0, 0);
    assert [] + rows == rows;
    JoinThree(m1, m2, m3, ", ");
  }

  lemma AggregateThree(e1: Event, e2: Event, e3: Event)
    ensures Aggregate([e1, e2, e3]) == Record(Record(Record(Start, e1), e2), e3)
  {
    AggregateSnoc([], e1);
    assert [] + [e1] == [e1];
    AggregateSnoc([e1], e2);
    assert [e1] + [e2] == [e1, e2];
    AggregateSnoc([e1, e2], e3);
    assert [e1, e2] + [e3] == [e1, e2, e3];
  }

  lemma JoinThree(a: string, b: string, c: string, sep: string)
    ensures Join([a, b, c], sep) == a + sep + b + sep + c
  {
    assert [a, b, c][1..] == [b, c];
    assert [b, c][1..] == [c];
    assert Join([c], sep) == c;
    assert Join([b, c], sep) == b + sep + c;
    assert a + sep + (b + sep + c) == a + sep + b + sep + c;
  }

  lemma OnePart(part: string, parse: string -> Option<Event>)
    ensures PartsEvents([part], parse) == PartEvent(part, parse)
  {
    assert [part][..0] == [];
  }

  // ------------------------------------------------------------------ list fetches

  /** What a list fetch gets back; `payload` is None when the list field is not an array. */
  datatype FetchResponse<T> =
    | FetchRejected(reason: string)
    | FetchNotOk(message: Option<string>)
    | FetchOk(payload: Option<seq<T>>)

  datatype Fetched<T> = Items(items: seq<T>) | Failed(message: string)

  /** Whether a request went out, and what the fetch resolves to or throws. */
  datatype IdsFetch<T> = IdsFetch(requested: bool, result: Fetched<T>)

  /** The list a fetch helper resolves to: the payload when it is an array, [] otherwise. */
  function ArrayOrEmpty<T>(payload: Option<seq<T>>): (r: seq<T>)
    ensures payload.Some? ==> r == payload.value
    ensures payload.None? ==> r == []
  {
    if payload.Some? then payload.value else []
  }

  const InvalidIds := "Invalid input: 'ids' must be a non-empty array."

  /**
   * Fetch the institutions with the given ids. `ids` is None when it is not an array.
   */
  function FetchInstitutionsByIds<T>(ids: Option<seq<string>>, resp: FetchResponse<T>): (r: IdsFetch<T>)
    ensures r.requested <==> ids.Some? && |ids.value| > 0
    ensures !r.requested ==> r.result == Failed(InvalidIds)
    ensures r.requested && resp.FetchOk? ==> r.result == Items(ArrayOrEmpty(resp.payload))
    ensures r.requested && resp.FetchNotOk? ==> r.result == Failed(OrElse(resp.message, "Failed to fetch institutions."))
    ensures r.requested && resp.FetchRejected? ==> r.result == Failed(OrElse(Some(resp.reason), "Error fetching institutions."))
    ensures r.result.Failed? ==> r.result.message != ""
  {
    if ids.None? || |ids.value| == 0 then IdsFetch(false, Failed(InvalidIds))
    else match resp
      case FetchRejected(reason) => IdsFetch(true, Failed(OrElse(Some(reason), "Error fetching institutions.")))
      case FetchNotOk(message) => IdsFetch(true, Failed(OrElse(message, "Failed to fetch institutions.")))
      case FetchOk(payload) => IdsFetch(true, Items(ArrayOrEmpty(payload)))
  }

  // ------------------------------------------------------------------ deletes

  /** The `Authorization` header every helper sends: `Bearer ${token}`, where a token that was not passed prints as "undefined". */
  function BearerHeader(token: Option<string>): (r: string)
    ensures token.Some? ==> r == "Bearer " + token.value
    ensures token.None? ==> r == "Bearer undefined"
  {
    "Bearer " + (if token.Some? then token.value else "undefined")
  }

  /** A call of `deleteAssetById(id, token)` or `deleteContactById(id, token)`; `None` is an argument left out. */
  datatype DeleteCall = DeleteCall(id: Option<string>, token: Option<string>)

  /**
   * The delete call the asset and contact pages make: the record's id alone. The
   * session token the page holds is not passed, so the request is sent with the
   * header "Bearer undefined" whatever the session is.
   */
  function DeleteAsWritten(id: Option<string>, token: Option<string>): (c: DeleteCall)
    ensures c.id == id
    ensures BearerHeader(c.token) == "Bearer undefined"
  {
    DeleteCall(id, None)
  }

  /** The delete call with the session token passed on: a signed-in session is what authorises it. */
  function DeleteWithToken(id: Option<string>, token: Option<string>): (c: DeleteCall)
    ensures c.id == id
    ensures token.Some? ==> BearerHeader(c.token) == "Bearer " + token.value
  {
    DeleteCall(id, token)
  }

  /** As written, the header of a page's delete never depends on the session; with the token passed on it always does. */
  lemma DeleteIgnoresSession(id: Option<string>, t1: string, t2: string)
    requires t1 != t2
    ensures BearerHeader(DeleteAsWritten(id, Some(t1)).token) == BearerHeader(DeleteAsWritten(id, Some(t2)).token)
    ensures BearerHeader(DeleteWithToken(id, Some(t1)).token) != BearerHeader(DeleteWithToken(id, Some(t2)).token)
  {
    var h1, h2 := BearerHeader(Some(t1)), BearerHeader(Some(t2));
    assert h1[7..] == t1 && h2[7..] == t2;
  }
}
