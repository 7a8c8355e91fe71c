/** The audit trail both services write and read back: every structured event
    is one log line `... EVENT_JSON {json}`; excerpts are capped at 200
    characters, and `/api/logs` scans the tail of the log file for such lines. */
module Audit {
  import opened Wrappers
  import opened Text
  import opened Json

  const PreviewLimit: nat := 200
  const Ellipsis: char := '\U{2026}'
  const Marker: string := "EVENT_JSON "
  const DefaultLimit: int := 500

  /** An excerpt for the log: absent for a missing or empty text, otherwise its
      first 200 characters, followed by an ellipsis exactly when something was cut. */
  function Preview(text: Option<string>): (p: Option<string>)
    ensures p.None? <==> text.None? || text.value == ""
    ensures p.Some? ==> |p.value| <= PreviewLimit + 1
    ensures p.Some? && |text.value| <= PreviewLimit ==> p.value == text.value
    ensures p.Some? && |text.value| > PreviewLimit ==>
              |p.value| == PreviewLimit + 1
              && p.value[..PreviewLimit] == text.value[..PreviewLimit]
              && p.value[PreviewLimit] == Ellipsis
  {
    if text.None? || text.value == "" then None
    else
      var s := text.value;
      Some(if |s| > PreviewLimit then s[..PreviewLimit] + [Ellipsis] else s)
  }

  /** `text[:200] if text else None`: a plain cut without an ellipsis. */
  function Truncate(text: Option<string>): (p: Option<string>)
    ensures p.None? <==> text.None? || text.value == ""
    ensures p.Some? ==> |p.value| <= PreviewLimit && p.value <= text.value
    ensures p.Some? && |text.value| <= PreviewLimit ==> p.value == text.value
    ensures p.Some? && |text.value| > PreviewLimit ==> p.value == text.value[..PreviewLimit]
  {
    if text.None? || text.value == "" then None
    else if |text.value| > PreviewLimit then Some(text.value[..PreviewLimit])
    else text
  }

  // ---------------------------------------------------------------------------
  // Reading the log back: GET /api/logs
  // ---------------------------------------------------------------------------

  /** Python's `lines[-limit:]`. A positive limit keeps the last `limit` lines;
      `-0` is `0`, so a zero limit keeps the whole file; a negative limit
      drops the first `-limit` lines. */
  function Tail(lines: seq<string>, limit: int): (t: seq<string>)
    ensures |t| <= |lines| && t == lines[|lines| - |t|..]
    ensures limit > 0 ==> |t| == if limit < |lines| then limit else |lines|
    ensures limit == 0 ==> t == lines
    ensures limit < 0 ==> |t| == if -limit < |lines| then |lines| + limit else 0
  {
    if limit > 0 then
      (if limit < |lines| then lines[|lines| - limit..] else lines)
    else if -limit < |lines| then lines[-limit..]
    else []
  }

  /** The JSON text a log line carries: what follows the first `EVENT_JSON `
      marker, stripped; None for a line without the marker. */
  function Payload(line: string): (p: Option<string>)
    ensures p.Some? <==> Contains(line, Marker)
    ensures p.Some? ==> p.value == Strip(line[Find(line, Marker) + |Marker|..])
  {
    var idx := Find(line, Marker);
    if idx == -1 then None else Some(Strip(line[idx + |Marker|..]))
  }

  /** The event a line contributes: its payload, if it has one and it decodes. */
  function LineEvent(line: string, decode: string -> Option<Value>): Option<Value> {
    var p := Payload(line);
    if p.None? then None else decode(p.value)
  }

  /** The events carried by `lines`, in file order, malformed ones skipped. */
  function Events(lines: seq<string>, decode: string -> Option<Value>): (es: seq<Value>)
    ensures |es| <= |lines|
  {
    if |lines| == 0 then []
    else
      var first := LineEvent(lines[0], decode);
      (if first.Some? then [first.value] else []) + Events(lines[1..], decode)
  }

  /** Scanning two stretches of the log one after the other gives their events
      one after the other: the result keeps file order. */
  lemma {:induction false} EventsConcat(a: seq<string>, b: seq<string>, decode: string -> Option<Value>)
    ensures Events(a + b, decode) == Events(a, decode) + Events(b, decode)
  {
    if |a| > 0 {
      assert (a + b)[1..] == a[1..] + b;
      EventsConcat(a[1..], b, decode);
    } else {
      assert a + b == b;
    }
  }

  /** Scanning one more line adds that line's event, if any, at the end. */
  lemma EventsStep(lines: seq<string>, i: nat, decode: string -> Option<Value>)
    requires i < |lines|
    ensures var e := LineEvent(lines[i], decode);
            Events(lines[..i + 1], decode) == Events(lines[..i], decode) + (if e.Some? then [e.value] else [])
  {
    assert lines[..i + 1] == lines[..i] + [lines[i]];
    assert [lines[i]][1..] == [];
    EventsConcat(lines[..i], [lines[i]], decode);
  }

  /** Every event returned was decoded from the payload of one of the lines. */
  lemma {:induction false} EventsComeFromLines(lines: seq<string>, decode: string -> Option<Value>, e: Value)
    requires e in Events(lines, decode)
    ensures exists i :: 0 <= i < |lines| && LineEvent(lines[i], decode) == Some(e)
  {
    var first := LineEvent(lines[0], decode);
    if first != Some(e) {
      assert e in Events(lines[1..], decode);
      EventsComeFromLines(lines[1..], decode, e);
      var i :| 0 <= i < |lines[1..]| && LineEvent(lines[1..][i], decode) == Some(e);
      assert lines[i + 1] == lines[1..][i];
    }
  }

  /** A line whose payload is missing or malformed contributes nothing. */
  lemma SkipsMalformedLine(before: seq<string>, line: string, after: seq<string>, decode: string -> Option<Value>)
    requires LineEvent(line, decode).None?
    ensures Events(before + [line] + after, decode) == Events(before, decode) + Events(after, decode)
  {
    EventsConcat(before + [line], after, decode);
    EventsConcat(before, [line], decode);
  }

  /** What the log file read gave: no file, an I/O failure, or its lines. */
  datatype LogFile = Missing | Unreadable | Lines(lines: seq<string>)

  /** `{"events": [...]}` with status 200, or `{"error": ...}` with status 500. */
  datatype LogsReply = EventList(events: seq<Value>) | ReadFailure {
    function Code(): int { if ReadFailure? then 500 else 200 }
  }

  /** One line of the scan: locate the marker, strip what follows, decode it. */
  method ReadLine(line: string, decode: string -> Option<Value>) returns (evt: Option<Value>)
    ensures evt == LineEvent(line, decode)
  {
    var idx := Find(line, Marker);
    if idx == -1 {
      return None;
    }
    evt := decode(Strip(line[idx + |Marker|..]));
  }

  /** GET /api/logs: scan the last `limit` lines (500 when the query gives no
      usable limit) for structured events, keeping the ones whose JSON decodes. */
  method GetLogs(file: LogFile, limit: Option<int>, decode: string -> Option<Value>) returns (r: LogsReply)
    ensures file.Unreadable? <==> r == ReadFailure
    ensures file.Missing? ==> r == EventList([])
    ensures file.Lines? ==> r == EventList(Events(Tail(file.lines, limit.GetOr(DefaultLimit)), decode))
    ensures r.EventList? && limit.GetOr(DefaultLimit) > 0 ==> |r.events| <= limit.GetOr(DefaultLimit)
  {
    if file.Missing? {
      return EventList([]);
    }
    if file.Unreadable? {
      return ReadFailure;
    }
    var n := limit.GetOr(DefaultLimit);
    var tail := Tail(file.lines, n);
    var events: seq<Value> := [];
    for i := 0 to |tail|
      invariant events == Events(tail[..i], decode)
    {
      var line := tail[i];
      var evt := ReadLine(line, decode);
      if evt.Some? {
        events := events + [evt.value];
      }
      EventsStep(tail, i, decode);
    }
    assert tail[..|tail|] == tail;
    return EventList(events);
  }
}
