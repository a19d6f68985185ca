/**
 * The progress stream of the bulk equipment upload: how each decoded chunk of the
 * response body is cut into parts, which parts become progress events, and how the
 * events fold into the final summary. These functions are the specification that the
 * read loop in Actions.SendBulkEquipment is proved against.
 */
module UploadStream {
  import opened JsText

  /** One row the server refused, as the page lists it. */
  datatype SkipRecord = SkipRecord(serialNo: string, reason: Option<string>)

  /**
   * One parsed line of the stream. `None` is a field that is undefined; for
   * `skippedRows` it also stands for a value that is not an array.
   */
  datatype Event = Event(
    status: Option<int>,
    message: Option<string>,
    skippedRows: Option<seq<SkipRecord>>,
    totalSaved: Option<int>,
    totalSkipped: Option<int>)

  /** The running `result` object of the read loop. */
  datatype Tally = Tally(messages: seq<string>, skippedRows: seq<SkipRecord>, totalSaved: int, totalSkipped: int)

  const Start := Tally([], [], 0, 0)

  /** One event folded into the tally. */
  function Record(t: Tally, e: Event): Tally {
    Tally(
      if Truthy(e.message) then t.messages + [e.message.value] else t.messages,
      if e.skippedRows.Some? then t.skippedRows + e.skippedRows.value else t.skippedRows,
      if e.totalSaved.Some? then e.totalSaved.value else t.totalSaved,
      if e.totalSkipped.Some? then e.totalSkipped.value else t.totalSkipped)
  }

  /**
   * The tally after the events, folded in arrival order: at most one message per
   * event, and a total that is 0 or the value some event carried.
   */
  function Aggregate(evs: seq<Event>): (r: Tally)
    ensures |r.messages| <= |evs|
    ensures r.totalSaved == 0 || exists i :: 0 <= i < |evs| && evs[i].totalSaved == Some(r.totalSaved)
    ensures r.totalSkipped == 0 || exists i :: 0 <= i < |evs| && evs[i].totalSkipped == Some(r.totalSkipped)
  {
    if evs == [] then Start else Record(Aggregate(evs[..|evs| - 1]), evs[|evs| - 1])
  }

  lemma AggregateSnoc(evs: seq<Event>, e: Event)
    ensures Aggregate(evs + [e]) == Record(Aggregate(evs), e)
  {
    assert (evs + [e])[..|evs|] == evs;
  }

  // ------------------------------------------------- reference descriptions of the fold

  function RowsOf(e: Event): seq<SkipRecord> {
    if e.skippedRows.Some? then e.skippedRows.value else []
  }

  /** Every event's skipped rows, concatenated in arrival order. */
  function AllRows(evs: seq<Event>): seq<SkipRecord> {
    if evs == [] then [] else RowsOf(evs[0]) + AllRows(evs[1..])
  }

  /** The truthy messages, in arrival order. */
  function Recorded(evs: seq<Event>): seq<string> {
    if evs == [] then []
    else (if Truthy(evs[0].message) then [evs[0].message.value] else []) + Recorded(evs[1..])
  }

  /** The value of the last event that defines the field `pick` selects. */
  function LastDefined(evs: seq<Event>, pick: Event -> Option<int>): Option<int> {
    if evs == [] then None
    else
      var later := LastDefined(evs[1..], pick);
      if later.Some? then later else pick(evs[0])
  }

  function Saved(e: Event): Option<int> { e.totalSaved }
  function Skipped(e: Event): Option<int> { e.totalSkipped }

  function ValueOr0(v: Option<int>): int {
    if v.Some? then v.value else 0
  }

  lemma {:induction false} AllRowsSnoc(evs: seq<Event>, e: Event)
    ensures AllRows(evs + [e]) == AllRows(evs) + RowsOf(e)
  {
    if evs != [] {
      assert (evs + [e])[1..] == evs[1..] + [e];
      AllRowsSnoc(evs[1..], e);
    }
  }

  lemma {:induction false} RecordedSnoc(evs: seq<Event>, e: Event)
    ensures Recorded(evs + [e]) == Recorded(evs) + (if Truthy(e.message) then [e.message.value] else [])
  {
    if evs != [] {
      assert (evs + [e])[1..] == evs[1..] + [e];
      RecordedSnoc(evs[1..], e);
    }
  }

  lemma {:induction false} LastDefinedSnoc(evs: seq<Event>, e: Event, pick: Event -> Option<int>)
    ensures LastDefined(evs + [e], pick) == if pick(e).Some? then pick(e) else LastDefined(evs, pick)
  {
    if evs != [] {
      assert (evs + [e])[1..] == evs[1..] + [e];
      LastDefinedSnoc(evs[1..], e, pick);
    }
  }

  /**
   * The summary the fold produces: every array of skipped rows concatenated in
   * arrival order with nothing removed, the truthy messages in order, and each total
   * equal to the last value the stream gave for it (0 when none did), never a sum.
   */
  lemma {:induction false} AggregateMeaning(evs: seq<Event>)
    ensures Aggregate(evs).skippedRows == AllRows(evs)
    ensures Aggregate(evs).messages == Recorded(evs)
    ensures Aggregate(evs).totalSaved == ValueOr0(LastDefined(evs, Saved))
    ensures Aggregate(evs).totalSkipped == ValueOr0(LastDefined(evs, Skipped))
  {
    if evs != [] {
      var init, e := evs[..|evs| - 1], evs[|evs| - 1];
      assert evs == init + [e];
      AggregateMeaning(init);
      AllRowsSnoc(init, e);
      RecordedSnoc(init, e);
      LastDefinedSnoc(init, e, Saved);
      LastDefinedSnoc(init, e, Skipped);
    }
  }

  // ------------------------------------------------- from chunks to events

  /** The parts of one decoded chunk: an empty chunk is passed over, any other is split on "\n". */
  function ChunkParts(chunk: string): seq<string> {
    if chunk == "" then [] else Split(chunk, '\n')
  }

  /** What one part contributes: nothing when it is blank or does not parse, else its event. */
  function PartEvent(part: string, parse: string -> Option<Event>): seq<Event> {
    if Trim(part) == "" then []
    else match parse(part)
      case None => []
      case Some(e) => [e]
  }

  function PartsEvents(parts: seq<string>, parse: string -> Option<Event>): seq<Event> {
    if parts == [] then []
    else PartsEvents(parts[..|parts| - 1], parse) + PartEvent(parts[|parts| - 1], parse)
  }

  /** `f` applied to each element, the results concatenated in order. */
  function Concat<A, B>(xs: seq<A>, f: A -> seq<B>): seq<B> {
    if xs == [] then [] else Concat(xs[..|xs| - 1], f) + f(xs[|xs| - 1])
  }

  lemma {:induction false} ConcatAppend<A, B>(a: seq<A>, b: seq<A>, f: A -> seq<B>)
    ensures Concat(a + b, f) == Concat(a, f) + Concat(b, f)
    decreases |b|
  {
    if b == [] {
      assert a + b == a;
    } else {
      var init, ab := b[..|b| - 1], a + b;
      assert ab[..|ab| - 1] == a + init;
      assert ab[|ab| - 1] == b[|b| - 1];
      ConcatAppend(a, init, f);
    }
  }

  /**
   * The events of a whole stream, in the order they are read: a single read yields
   * the events of its own parts (and StreamEventsAppend joins reads).
   */
  function StreamEvents(chunks: seq<string>, parse: string -> Option<Event>): (r: seq<Event>)
    ensures chunks == [] ==> r == []
    ensures |chunks| == 1 ==> r == PartsEvents(ChunkParts(chunks[0]), parse)
  {
    var f := (chunk: string) => PartsEvents(ChunkParts(chunk), parse);
    assert |chunks| == 1 ==> chunks[..0] == [] && Concat(chunks, f) == Concat(chunks[..0], f) + f(chunks[0]);
    Concat(chunks, f)
  }

  lemma {:induction false} PartsEventsAppend(a: seq<string>, b: seq<string>, parse: string -> Option<Event>)
    ensures PartsEvents(a + b, parse) == PartsEvents(a, parse) + PartsEvents(b, parse)
    decreases |b|
  {
    if b == [] {
      assert a + b == a;
    } else {
      var init, last := b[..|b| - 1], b[|b| - 1];
      assert a + b == (a + init) + [last];
      assert (a + b)[..|a + b| - 1] == a + init;
      PartsEventsAppend(a, init, parse);
    }
  }

  /** Each read is split on its own: the events of two runs of reads are the events of each, in order. */
  lemma StreamEventsAppend(a: seq<string>, b: seq<string>, parse: string -> Option<Event>)
    ensures StreamEvents(a + b, parse) == StreamEvents(a, parse) + StreamEvents(b, parse)
  {
    ConcatAppend(a, b, (chunk: string) => PartsEvents(ChunkParts(chunk), parse));
  }

  /**
   * A part that fails to parse is skipped and nothing else is lost: the parts before
   * it and every part after it contribute exactly what they would without it.
   */
  lemma MalformedPartSkipped(before: seq<string>, bad: string, after: seq<string>, parse: string -> Option<Event>)
    requires parse(bad).None?
    ensures PartsEvents(before + [bad] + after, parse) == PartsEvents(before, parse) + PartsEvents(after, parse)
  {
    assert PartEvent(bad, parse) == [];
    PartsEventsAppend(before + [bad], after, parse);
    assert (before + [bad])[..|before|] == before;
    assert PartsEvents(before + [bad], parse) == PartsEvents(before, parse);
  }

  /**
   * Each read is split on its own: two reads without a newline are two separate
   * fragments, so a JSON text cut by a read boundary reaches the parser as two pieces.
   */
  lemma LineAcrossReads(a: string, b: string, parse: string -> Option<Event>)
    requires a != "" && b != "" && '\n' !in a && '\n' !in b
    ensures StreamEvents([a, b], parse) == PartEvent(a, parse) + PartEvent(b, parse)
  {
    assert [a, b] == [a] + [b];
    StreamEventsAppend([a], [b], parse);
    SingleRead(a, parse);
    SingleRead(b, parse);
  }

  /** A read without a newline is one part. */
  lemma SingleRead(x: string, parse: string -> Option<Event>)
    requires x != "" && '\n' !in x
    ensures StreamEvents([x], parse) == PartEvent(x, parse)
  {
    SplitFirst(x, '\n');
    assert ChunkParts(x) == [x];
    assert [x][..0] == [];
    assert PartsEvents([x], parse) == PartEvent(x, parse);
    var f := (chunk: string) => PartsEvents(ChunkParts(chunk), parse);
    assert Concat([x], f) == Concat([x][..0], f) + f(x);
  }

  /** Every event of the stream is the parse of a non-blank part of one of the chunks. */
  lemma {:induction false} StreamEventsFromParts(chunks: seq<string>, parse: string -> Option<Event>, e: Event)
    requires e in StreamEvents(chunks, parse)
    ensures exists i, part :: 0 <= i < |chunks| && part in ChunkParts(chunks[i]) && Trim(part) != "" && parse(part) == Some(e)
  {
    var init := chunks[..|chunks| - 1];
    if e in StreamEvents(init, parse) {
      StreamEventsFromParts(init, parse, e);
      var i, part :| 0 <= i < |init| && part in ChunkParts(init[i]) && Trim(part) != "" && parse(part) == Some(e);
      assert chunks[i] == init[i];
    } else {
      PartsEventsFromParts(ChunkParts(chunks[|chunks| - 1]), parse, e);
    }
  }

  lemma {:induction false} PartsEventsFromParts(parts: seq<string>, parse: string -> Option<Event>, e: Event)
    requires e in PartsEvents(parts, parse)
    ensures exists part :: part in parts && Trim(part) != "" && parse(part) == Some(e)
  {
    var init, last := parts[..|parts| - 1], parts[|parts| - 1];
    if e in PartsEvents(init, parse) {
      PartsEventsFromParts(init, parse, e);
      var part :| part in init && Trim(part) != "" && parse(part) == Some(e);
      assert part in parts;
    } else {
      assert e in PartEvent(last, parse);
    }
  }
}
