/** Server-sent events between the sandbox and its client: `codeWriter.event` and `streamSSE` on the
    writing side, `parseSSEResult` on the reading side. JSON decoding is a parameter. */
module Sse {
  import opened Wrappers

  /** One event as written: a name and a compact JSON payload. */
  datatype Event = Event(name: string, data: string)

  type Json = string

  datatype StreamText = StreamText(name: string, text: string)
  datatype ResultPayload = ResultPayload(data: Option<Json>, executionCount: int)
  datatype ReplyPayload = ReplyPayload(status: string, executionCount: int)
  datatype CodeError = CodeError(ename: string, evalue: string, traceback: seq<string>)

  /** `json.Unmarshal` into each of the client's payload types; None is its error. */
  datatype Decoders = Decoders(
    stream: string -> Option<StreamText>,
    result: string -> Option<ResultPayload>,
    display: string -> Option<Json>,
    error: string -> Option<CodeError>,
    reply: string -> Option<ReplyPayload>,
    done: string -> Option<int>)

  /** No payload decodes from the empty string. */
  ghost predicate RefusesEmpty(dec: Decoders) {
    && dec.stream("").None? && dec.result("").None? && dec.display("").None?
    && dec.error("").None? && dec.reply("").None? && dec.done("").None?
  }

  datatype CodeExecResult = CodeExecResult(
    stdout: string, stderr: string, result: Option<Json>, displays: seq<Json>, error: Option<CodeError>,
    status: string, executionCount: int, dropped: int)

  const NOTHING: CodeExecResult := CodeExecResult("", "", None, [], None, "", 0, 0)

  // ---- what a sequence of events means --------------------------------------------------

  /** The values `f` finds in `xs`, in order. */
  function Collect<X, T>(f: X -> Option<T>, xs: seq<X>): seq<T> {
    if xs == [] then []
    else
      Collect(f, xs[..|xs| - 1])
      + match f(xs[|xs| - 1]) case None => [] case Some(v) => [v]
  }

  function Concatenated(texts: seq<string>): string {
    if texts == [] then "" else Concatenated(texts[..|texts| - 1]) + texts[|texts| - 1]
  }

  function LastOr<T>(values: seq<T>, default: T): T {
    if values == [] then default else values[|values| - 1]
  }

  function Text(dec: Decoders, stderr: bool): Event -> Option<string> {
    (e: Event) =>
      if e.name != "stream" then None
      else match dec.stream(e.data) case None => None case Some(s) => if (s.name == "stderr") == stderr then Some(s.text) else None
  }

  function ResultIn(dec: Decoders): Event -> Option<Option<Json>> {
    (e: Event) =>
      if e.name != "result" then None
      else match dec.result(e.data) case None => None case Some(r) => Some(r.data)
  }

  function DisplayIn(dec: Decoders): Event -> Option<Json> {
    (e: Event) => if e.name == "display" then dec.display(e.data) else None
  }

  function ErrorIn(dec: Decoders): Event -> Option<CodeError> {
    (e: Event) => if e.name == "error" then dec.error(e.data) else None
  }

  function StatusIn(dec: Decoders): Event -> Option<string> {
    (e: Event) =>
      if e.name != "reply" then None
      else match dec.reply(e.data) case None => None case Some(r) => Some(r.status)
  }

  /** Results and replies both carry an execution count; only positive ones say something. */
  function CountIn(dec: Decoders): Event -> Option<int> {
    (e: Event) =>
      var count :=
        if e.name == "result" then (match dec.result(e.data) case None => 0 case Some(r) => r.executionCount)
        else if e.name == "reply" then (match dec.reply(e.data) case None => 0 case Some(r) => r.executionCount)
        else 0;
      if count > 0 then Some(count) else None
  }

  function DroppedIn(dec: Decoders): Event -> Option<int> {
    (e: Event) => if e.name == "done" then dec.done(e.data) else None
  }

  /** The result an execution's events stand for: outputs concatenated, displays in order, and of
      everything else the last one. */
  function Summary(dec: Decoders, events: seq<Event>): CodeExecResult {
    var errors := Collect(ErrorIn(dec), events);
    var error := if errors == [] then None else Some(LastOr(errors, CodeError("", "", [])));
    CodeExecResult(
      Concatenated(Collect(Text(dec, false), events)),
      Concatenated(Collect(Text(dec, true), events)),
      LastOr(Collect(ResultIn(dec), events), None),
      Collect(DisplayIn(dec), events),
      error,
      LastOr(Collect(StatusIn(dec), events), ""),
      LastOr(Collect(CountIn(dec), events), 0),
      LastOr(Collect(DroppedIn(dec), events), 0))
  }

  /** A missing status is filled in at the very end. */
  function WithStatus(r: CodeExecResult): CodeExecResult {
    if r.status != "" then r else r.(status := if r.error.Some? then "error" else "incomplete")
  }

  // ---- the reader ------------------------------------------------------------------------

  /** What `finalize` does to the result for one finished event. */
  function Apply(dec: Decoders, out: CodeExecResult, e: Event): CodeExecResult {
    if e.name == "stream" then
      match dec.stream(e.data)
      case None => out
      case Some(s) => if s.name == "stderr" then out.(stderr := out.stderr + s.text) else out.(stdout := out.stdout + s.text)
    else if e.name == "result" then
      match dec.result(e.data)
      case None => out
      case Some(r) => out.(result := r.data, executionCount := if r.executionCount > 0 then r.executionCount else out.executionCount)
    else if e.name == "display" then
      match dec.display(e.data)
      case None => out
      case Some(d) => out.(displays := out.displays + [d])
    else if e.name == "error" then
      match dec.error(e.data)
      case None => out
      case Some(x) => out.(error := Some(x))
    else if e.name == "reply" then
      match dec.reply(e.data)
      case None => out
      case Some(r) => out.(status := r.status, executionCount := if r.executionCount > 0 then r.executionCount else out.executionCount)
    else if e.name == "done" then
      match dec.done(e.data)
      case None => out
      case Some(n) => out.(dropped := n)
    else out
  }

  /** `event`, `data` and the result so far. */
  datatype Reader = Reader(event: string, data: string, out: CodeExecResult)

  /** An event without a name is passed over and leaves its data behind. */
  function Finalized(dec: Decoders, r: Reader): Reader {
    if r.event == "" then r else Reader("", "", Apply(dec, r.out, Event(r.event, r.data)))
  }

  const EVENT_PREFIX := "event: "
  const DATA_PREFIX := "data: "

  function ReadLine(dec: Decoders, r: Reader, line: string): Reader {
    if line == "" then Finalized(dec, r)
    else if EVENT_PREFIX <= line then r.(event := line[|EVENT_PREFIX|..])
    else if DATA_PREFIX <= line then r.(data := line[|DATA_PREFIX|..])
    else r
  }

  function ReadLines(dec: Decoders, r: Reader, lines: seq<string>): Reader {
    if lines == [] then r else ReadLine(dec, ReadLines(dec, r, lines[..|lines| - 1]), lines[|lines| - 1])
  }

  /** The scanner's buffer: a line of this many bytes, its end not counted, no longer fits. A `char` of the
      text here stands for one byte of it. */
  const MAX_LINE: nat := 0x80_0000

  function LineEnd(text: string): (n: nat)
    ensures n <= |text| && '\n' !in text[..n] && (n < |text| ==> text[n] == '\n')
  {
    if text == "" || text[0] == '\n' then 0
    else
      var n := 1 + LineEnd(text[1..]);
      assert text[..n] == [text[0]] + text[1..][..n - 1];
      n
  }

  function WithoutCR(line: string): string {
    if line != "" && line[|line| - 1] == '\r' then line[..|line| - 1] else line
  }

  /** An event line or data line without anything after its prefix counts. */
  lemma EmptyFields(dec: Decoders, r: Reader)
    ensures ReadLine(dec, r, "event: ") == r.(event := "") && ReadLine(dec, r, "data: ") == r.(data := "")
    ensures ReadLine(dec, r, "event:") == r && ReadLine(dec, r, ": comment") == r
  {
    assert "event:"[0] == 'e' && ": comment"[0] == ':' && EVENT_PREFIX[0] == 'e' && DATA_PREFIX[0] == 'd';
  }

  datatype Lines = Lines(lines: seq<string>, tooLong: bool)

  /** The lines the scanner yields, and whether a line too long stopped it. */
  function Scanned(text: string): Lines
    decreases |text|
  {
    var n := LineEnd(text);
    if text == "" then Lines([], false)
    else if n >= MAX_LINE then Lines([], true)
    else if n == |text| then Lines([WithoutCR(text)], false)
    else
      var rest := Scanned(text[n + 1..]);
      Lines([WithoutCR(text[..n])] + rest.lines, rest.tooLong)
  }

  /** One line end, in either style, ends one line. */
  lemma LineEnds(line: string, rest: string)
    requires '\n' !in line && |line| + 1 < MAX_LINE && (line == "" || line[|line| - 1] != '\r')
    ensures Scanned(line + "\n" + rest) == Lines([line] + Scanned(rest).lines, Scanned(rest).tooLong)
    ensures Scanned(line + "\r\n" + rest) == Lines([line] + Scanned(rest).lines, Scanned(rest).tooLong)
  {
    hide Scanned, WithoutCR;
    OneLineScanned(line, rest);
    OneLineScanned(line + "\r", rest);
    assert line + "\r\n" + rest == (line + "\r") + "\n" + rest;
    CarriageReturn(line);
  }

  lemma CarriageReturn(line: string)
    requires line == "" || line[|line| - 1] != '\r'
    ensures WithoutCR(line) == line && WithoutCR(line + "\r") == line
  {
    assert (line + "\r")[..|line|] == line;
  }

  lemma OneLineScanned(line: string, rest: string)
    requires '\n' !in line
    ensures Scanned(line + "\n" + rest) ==
            if |line| >= MAX_LINE then Lines([], true) else Lines([WithoutCR(line)] + Scanned(rest).lines, Scanned(rest).tooLong)
  {
    hide WithoutCR;
    var text := line + "\n" + rest;
    LineEndAt(line, rest);
    assert text[..|line|] == line && text[|line| + 1..] == rest;
  }

  datatype Parsed = Parsed(result: CodeExecResult, tooLong: bool)

  function Parse(dec: Decoders, text: string): Parsed {
    var s := Scanned(text);
    Parsed(WithStatus(Finalized(dec, ReadLines(dec, Reader("", "", NOTHING), s.lines)).out), s.tooLong)
  }

  lemma ReadLinesStep(dec: Decoders, r: Reader, lines: seq<string>, line: string)
    ensures ReadLines(dec, r, lines + [line]) == ReadLine(dec, ReadLines(dec, r, lines), line)
  {
    assert (lines + [line])[..|lines|] == lines;
  }

  method NextLine(text: string, pos: nat) returns (end: nat)
    requires pos <= |text|
    ensures pos <= end <= |text| && end - pos == LineEnd(text[pos..])
  {
    end := pos;
    while end < |text| && text[end] != '\n'
      invariant pos <= end <= |text|
      invariant LineEnd(text[pos..]) == end - pos + LineEnd(text[end..])
    {
      assert text[end..][1..] == text[end + 1..];
      end := end + 1;
    }
  }

  /** One round of the scanner. */
  lemma ScannedStep(text: string, pos: nat, end: nat)
    requires pos < |text| && pos <= end <= |text| && end - pos == LineEnd(text[pos..])
    ensures Scanned(text[pos..]) ==
            if end - pos >= MAX_LINE then Lines([], true)
            else
              var rest := Scanned(text[if end < |text| then end + 1 else end..]);
              Lines([WithoutCR(text[pos..end])] + rest.lines, rest.tooLong)
  {
    hide WithoutCR, LineEnd;
    var rest := text[pos..];
    assert rest[..end - pos] == text[pos..end] && rest != "";
    if end < |text| {
      assert rest[end - pos + 1..] == text[end + 1..];
    } else {
      assert rest == text[pos..end] && text[end..] == "";
      NothingScanned();
    }
  }

  lemma NothingScanned()
    ensures Scanned("") == Lines([], false)
  {}

  /** The scanning loop; the two builders and the fields of the result are one accumulator here. */
  method ParseSSEResult(dec: Decoders, text: string) returns (result: CodeExecResult, tooLong: bool)
    ensures Parsed(result, tooLong) == Parse(dec, text)
  {
    hide Scanned, ReadLine, Finalized, WithStatus;
    var reader := Reader("", "", NOTHING);
    var pos := 0;
    tooLong := false;
    ghost var done := [];
    assert text[0..] == text;
    while pos < |text| && !tooLong
      invariant pos <= |text|
      invariant reader == ReadLines(dec, Reader("", "", NOTHING), done)
      invariant if tooLong then Scanned(text) == Lines(done, true)
                else Scanned(text) == Lines(done + Scanned(text[pos..]).lines, Scanned(text[pos..]).tooLong)
      decreases |text| - pos, !tooLong
    {
      var end := NextLine(text, pos);
      ScannedStep(text, pos, end);
      if end - pos >= MAX_LINE {
        assert done + [] == done;
        tooLong := true;
      } else {
        var line := WithoutCR(text[pos..end]);
        reader := ReadLine(dec, reader, line);
        ReadLinesStep(dec, Reader("", "", NOTHING), done, line);
        pos := if end < |text| then end + 1 else end;
        assert done + ([line] + Scanned(text[pos..]).lines) == (done + [line]) + Scanned(text[pos..]).lines;
        done := done + [line];
      }
    }
    ScannedNothing(text[pos..]);
    assert done + [] == done;
    reader := Finalized(dec, reader);
    result := WithStatus(reader.out);
  }

  lemma ScannedNothing(text: string)
    ensures text == "" ==> Scanned(text) == Lines([], false)
  {}

  // ---- the writer ------------------------------------------------------------------------

  function Block(e: Event): string {
    EVENT_PREFIX + e.name + "\n" + (DATA_PREFIX + e.data + "\n" + "\n")
  }

  function BlockLines(e: Event): seq<string> {
    [EVENT_PREFIX + e.name, DATA_PREFIX + e.data, ""]
  }

  function Written(events: seq<Event>): string {
    if events == [] then "" else Written(events[..|events| - 1]) + Block(events[|events| - 1])
  }

  /** Compact JSON holds no raw line break; names come from the protocol. */
  predicate OneLine(s: string) {
    '\n' !in s && '\r' !in s
  }

  ghost predicate SingleLines(events: seq<Event>) {
    forall e :: e in events ==> OneLine(e.name) && OneLine(e.data)
  }

  /** One of its two lines overflows the reader's buffer. */
  predicate TooLong(e: Event) {
    |EVENT_PREFIX + e.name| >= MAX_LINE || |DATA_PREFIX + e.data| >= MAX_LINE
  }

  /** The events before the first one too long. */
  function Readable(events: seq<Event>): seq<Event> {
    if events == [] || TooLong(events[0]) then [] else [events[0]] + Readable(events[1..])
  }

  ghost predicate AllFit(events: seq<Event>) {
    forall e :: e in events ==> !TooLong(e)
  }

  ghost predicate AllNamed(events: seq<Event>) {
    forall e :: e in events ==> e.name != ""
  }

  lemma {:induction false} AllReadable(events: seq<Event>)
    requires AllFit(events)
    ensures Readable(events) == events
  {
    if events != [] {
      AllReadable(events[1..]);
    }
  }

  // ---- reading what was written ------------------------------------------------------------

  lemma {:induction false} WrittenFront(e: Event, events: seq<Event>)
    ensures Written([e] + events) == Block(e) + Written(events)
  {
    hide Block;
    if events == [] {
      assert ([e] + events)[..0] == [] && ([e] + events)[0] == e;
    } else {
      var n := |events| - 1;
      WrittenFront(e, events[..n]);
      assert ([e] + events)[..n + 1] == [e] + events[..n];
    }
  }

  lemma {:induction false} LineEndAt(line: string, rest: string)
    requires '\n' !in line
    ensures LineEnd(line + "\n" + rest) == |line|
  {
    var text := line + "\n" + rest;
    if line != "" {
      assert text[0] == line[0] && line[0] in line;
      assert text[1..] == line[1..] + "\n" + rest;
      LineEndAt(line[1..], rest);
    }
  }

  lemma ScannedLine(line: string, rest: string)
    requires OneLine(line)
    ensures Scanned(line + "\n" + rest) ==
            if |line| >= MAX_LINE then Lines([], true) else Lines([line] + Scanned(rest).lines, Scanned(rest).tooLong)
  {
    OneLineScanned(line, rest);
    assert line != "" ==> line[|line| - 1] in line;
  }

  lemma ScannedBlock(e: Event, rest: string)
    requires OneLine(e.name) && OneLine(e.data)
    ensures var s := Scanned(Block(e) + rest);
            if |EVENT_PREFIX + e.name| >= MAX_LINE then s == Lines([], true)
            else if TooLong(e) then s == Lines([EVENT_PREFIX + e.name], true)
            else s == Lines(BlockLines(e) + Scanned(rest).lines, Scanned(rest).tooLong)
  {
    hide Scanned;
    var first, second := EVENT_PREFIX + e.name, DATA_PREFIX + e.data;
    var tail := second + "\n" + ("" + "\n" + rest);
    assert Block(e) + rest == first + "\n" + tail;
    ScannedLine(first, tail);
    ScannedLine(second, "" + "\n" + rest);
    ScannedLine("", rest);
    if |first| < MAX_LINE && |second| < MAX_LINE {
      assert [first] + ([second] + ([""] + Scanned(rest).lines)) == [first, second, ""] + Scanned(rest).lines;
    }
  }

  lemma {:induction false} ReadLinesSplit(dec: Decoders, r: Reader, a: seq<string>, b: seq<string>)
    ensures ReadLines(dec, r, a + b) == ReadLines(dec, ReadLines(dec, r, a), b)
  {
    if b == [] {
      assert a + b == a;
    } else {
      var n := |b| - 1;
      assert (a + b)[..|a| + n] == a + b[..n];
      ReadLinesSplit(dec, r, a, b[..n]);
    }
  }

  lemma NamelessIgnored(dec: Decoders, out: CodeExecResult, e: Event)
    ensures e.name == "" ==> Apply(dec, out, e) == out
  {}

  lemma ReadBlock(dec: Decoders, r: Reader, e: Event)
    requires r.event == ""
    ensures var after := ReadLines(dec, r, BlockLines(e));
            && after.event == "" && after.out == Apply(dec, r.out, e)
            && (r.data == "" && e.name != "" ==> after.data == "")
  {
    hide Apply;
    var first, second := EVENT_PREFIX + e.name, DATA_PREFIX + e.data;
    ReadLinesStep(dec, r, [first, second], "");
    ReadLinesStep(dec, r, [first], second);
    ReadLinesStep(dec, r, [], first);
    assert [first, second] + [""] == [first, second, ""] && [first] + [second] == [first, second] && [] + [first] == [first];
    assert first[|EVENT_PREFIX|..] == e.name && second[|DATA_PREFIX|..] == e.data;
    assert second[0] == 'd' && EVENT_PREFIX[0] == 'e';
    assert ReadLines(dec, r, [first, second]) == r.(event := e.name, data := e.data);
    NamelessIgnored(dec, r.out, e);
  }

  /** The events folded one by one into a result. */
  function Folded(dec: Decoders, out: CodeExecResult, events: seq<Event>): CodeExecResult {
    if events == [] then out else Apply(dec, Folded(dec, out, events[..|events| - 1]), events[|events| - 1])
  }

  lemma {:induction false} FoldedFront(dec: Decoders, out: CodeExecResult, e: Event, events: seq<Event>)
    ensures Folded(dec, out, [e] + events) == Folded(dec, Apply(dec, out, e), events)
  {
    hide Apply;
    var all := [e] + events;
    if events == [] {
      assert all[..0] == [] && Folded(dec, out, all[..0]) == out;
    } else {
      var n := |events| - 1;
      FoldedFront(dec, out, e, events[..n]);
      assert all[..n + 1] == [e] + events[..n];
    }
  }

  lemma CollectStep<T>(f: Event -> Option<T>, events: seq<Event>)
    requires events != []
    ensures var before, e := Collect(f, events[..|events| - 1]), events[|events| - 1];
            Collect(f, events) == match f(e) case None => before case Some(v) => before + [v]
  {}

  lemma ConcatenatedStep(texts: seq<string>, text: string)
    ensures Concatenated(texts + [text]) == Concatenated(texts) + text
  {
    assert (texts + [text])[..|texts|] == texts;
  }

  lemma SummaryStep(dec: Decoders, events: seq<Event>)
    requires events != []
    ensures Summary(dec, events) == Apply(dec, Summary(dec, events[..|events| - 1]), events[|events| - 1])
  {
    hide Collect, Concatenated;
    var before, e := events[..|events| - 1], events[|events| - 1];
    CollectStep(Text(dec, false), events);
    CollectStep(Text(dec, true), events);
    CollectStep(ResultIn(dec), events);
    CollectStep(DisplayIn(dec), events);
    CollectStep(ErrorIn(dec), events);
    CollectStep(StatusIn(dec), events);
    CollectStep(CountIn(dec), events);
    CollectStep(DroppedIn(dec), events);
    if e.name == "stream" && dec.stream(e.data).Some? {
      ConcatenatedStep(Collect(Text(dec, dec.stream(e.data).value.name == "stderr"), before), dec.stream(e.data).value.text);
    }
  }

  /** Folding with overwriting and appending is the same as looking at each kind of output alone. */
  lemma {:induction false} FoldedIsSummary(dec: Decoders, events: seq<Event>)
    ensures Folded(dec, NOTHING, events) == Summary(dec, events)
  {
    if events != [] {
      FoldedIsSummary(dec, events[..|events| - 1]);
      SummaryStep(dec, events);
    }
  }

  lemma Front(events: seq<Event>)
    requires events != [] && SingleLines(events)
    ensures var e, rest := events[0], events[1..];
            && OneLine(e.name) && OneLine(e.data) && SingleLines(rest)
            && (AllFit(events) <==> !TooLong(e) && AllFit(rest))
            && (AllNamed(events) <==> e.name != "" && AllNamed(rest))
  {
    assert events == [events[0]] + events[1..];
  }

  /** Reading on through what was written of `events`. */
  lemma {:induction false} ReadWritten(dec: Decoders, r: Reader, events: seq<Event>)
    requires r.event == "" && SingleLines(events)
    requires AllFit(events) || (r.data == "" && RefusesEmpty(dec) && AllNamed(events))
    ensures var s := Scanned(Written(events));
            && s.tooLong == !AllFit(events)
            && Finalized(dec, ReadLines(dec, r, s.lines)).out == Folded(dec, r.out, Readable(events))
    decreases |events|
  {
    if events == [] {
      ScannedNothing("");
    } else {
      Front(events);
      hide Apply, Scanned, ReadLines, ReadLine, Finalized, Written, Block, BlockLines, Folded, SingleLines, AllFit, AllNamed, TooLong;
      var e, rest := events[0], events[1..];
      assert events == [e] + rest;
      WrittenFront(e, rest);
      ScannedBlock(e, Written(rest));
      if TooLong(e) {
        CutShort(dec, r, e);
      } else {
        ReadBlock(dec, r, e);
        ReadWritten(dec, ReadLines(dec, r, BlockLines(e)), rest);
        ReadOn(dec, r, e, Scanned(Written(rest)).lines, Readable(rest));
      }
    }
  }

  lemma ReadOn(dec: Decoders, r: Reader, e: Event, lines: seq<string>, rest: seq<Event>)
    requires r.event == ""
    requires var next := ReadLines(dec, r, BlockLines(e)); Finalized(dec, ReadLines(dec, next, lines)).out == Folded(dec, next.out, rest)
    ensures Finalized(dec, ReadLines(dec, r, BlockLines(e) + lines)).out == Folded(dec, r.out, [e] + rest)
  {
    hide Apply, ReadLines, ReadLine, Finalized, Folded;
    ReadBlock(dec, r, e);
    ReadLinesSplit(dec, r, BlockLines(e), lines);
    FoldedFront(dec, r.out, e, rest);
  }

  /** An event cut off by an overlong line adds nothing. */
  lemma CutShort(dec: Decoders, r: Reader, e: Event)
    requires r.event == "" && r.data == "" && RefusesEmpty(dec)
    ensures Finalized(dec, ReadLines(dec, r, [EVENT_PREFIX + e.name])).out == Folded(dec, r.out, [])
    ensures Finalized(dec, ReadLines(dec, r, [])).out == Folded(dec, r.out, [])
  {
    var line := EVENT_PREFIX + e.name;
    ReadLinesStep(dec, r, [], line);
    assert [] + [line] == [line] && line[|EVENT_PREFIX|..] == e.name;
  }

  /** End to end: reading back what any sequence of events was written as gives the summary of the
      events, provided every line fits the reader's buffer. */
  lemma ParseOfWritten(dec: Decoders, events: seq<Event>)
    requires SingleLines(events) && AllFit(events)
    ensures Parse(dec, Written(events)) == Parsed(WithStatus(Summary(dec, events)), false)
  {
    AllReadable(events);
    ReadWritten(dec, Reader("", "", NOTHING), events);
    FoldedIsSummary(dec, events);
  }

  /** And when a line does not fit, the client is told so and has the summary of exactly the events
      before it. */
  lemma ParseOfOverlong(dec: Decoders, events: seq<Event>)
    requires SingleLines(events) && RefusesEmpty(dec) && AllNamed(events)
    ensures Parse(dec, Written(events)) ==
            Parsed(WithStatus(Summary(dec, Readable(events))), !AllFit(events))
  {
    ReadWritten(dec, Reader("", "", NOTHING), events);
    FoldedIsSummary(dec, Readable(events));
  }

  lemma {:induction false} NothingCollected<T>(f: Event -> Option<T>, events: seq<Event>)
    ensures Collect(f, events) == [] <==> forall e :: e in events ==> f(e).None?
  {
    if events != [] {
      var front, last := events[..|events| - 1], events[|events| - 1];
      NothingCollected(f, front);
      assert events == front + [last];
    }
  }

  /** The status of an execution the client saw no reply of: "error" if any error can be read, "incomplete" if
      none. */
  lemma StatusWithoutReply(dec: Decoders, events: seq<Event>)
    requires SingleLines(events) && AllFit(events) && forall e :: e in events && e.name == "reply" ==> dec.reply(e.data).None?
    ensures Parse(dec, Written(events)).result.status
            == if exists e :: e in events && e.name == "error" && dec.error(e.data).Some? then "error" else "incomplete"
  {
    ParseOfWritten(dec, events);
    NothingCollected(StatusIn(dec), events);
    NothingCollected(ErrorIn(dec), events);
    hide SingleLines, AllFit, Written, Collect, Parse;
  }

  lemma {:induction false} CollectJoin<T>(f: Event -> Option<T>, a: seq<Event>, b: seq<Event>)
    ensures Collect(f, a + b) == Collect(f, a) + Collect(f, b)
  {
    if b == [] {
      assert a + b == a;
    } else {
      var n := |b| - 1;
      assert (a + b)[..|a| + n] == a + b[..n];
      CollectJoin(f, a, b[..n]);
    }
  }

  /** And with replies it is that of the last one, if that says anything. */
  lemma StatusOfLastReply(dec: Decoders, before: seq<Event>, e: Event, later: seq<Event>)
    requires var events := before + [e] + later; SingleLines(events) && AllFit(events)
    requires e.name == "reply" && dec.reply(e.data).Some? && dec.reply(e.data).value.status != ""
    requires forall x :: x in later && x.name == "reply" ==> dec.reply(x.data).None?
    ensures Parse(dec, Written(before + [e] + later)).result.status == dec.reply(e.data).value.status
  {
    hide SingleLines, AllFit, Written, Parse, Collect, StatusIn, Concatenated;
    ParseOfWritten(dec, before + [e] + later);
    LastReply(dec, before, e, later);
  }

  lemma LastReply(dec: Decoders, before: seq<Event>, e: Event, later: seq<Event>)
    requires e.name == "reply" && dec.reply(e.data).Some?
    requires forall x :: x in later && x.name == "reply" ==> dec.reply(x.data).None?
    ensures LastOr(Collect(StatusIn(dec), before + [e] + later), "") == dec.reply(e.data).value.status
  {
    hide Collect;
    CollectJoin(StatusIn(dec), before + [e], later);
    NothingCollected(StatusIn(dec), later);
    CollectStep(StatusIn(dec), before + [e]);
    assert (before + [e])[|before + [e]| - 1] == e;
    assert Collect(StatusIn(dec), before + [e]) + [] == Collect(StatusIn(dec), before + [e]);
  }

  /** A blank line after a nameless event leaves its data for the next event. */
  lemma StaleData(dec: Decoders, r: Reader, name: string, data: string)
    requires r.event == "" && name != ""
    ensures ReadLines(dec, r, ["data: " + data, "", "event: " + name, ""]) == Reader("", "", Apply(dec, r.out, Event(name, data)))
  {
    var a, b := "data: " + data, "event: " + name;
    assert DATA_PREFIX <= a && a[|DATA_PREFIX|..] == data && a[0] == 'd' && EVENT_PREFIX[0] == 'e';
    assert EVENT_PREFIX <= b && b[|EVENT_PREFIX|..] == name;
    hide Apply;
    ReadLinesStep(dec, r, [], a);
    ReadLinesStep(dec, r, [a], "");
    ReadLinesStep(dec, r, [a, ""], b);
    ReadLinesStep(dec, r, [a, "", b], "");
    assert [] + [a] == [a] && [a] + [""] == [a, ""] && [a, ""] + [b] == [a, "", b] && [a, "", b] + [""] == [a, "", b, ""];
  }
}
