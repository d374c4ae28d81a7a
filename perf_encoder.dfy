/** The trace2 performance-table encoder (internal/log/tr2-perf-encoder.go):
    one fixed-column, pipe-delimited line per event, built from the fields
    the encoder has collected so far, with a per-event table of required
    fields whose absence fails the encoding with no output. */
module PerfEncoder {
  import opened Wrappers
  import opened Text
  import opened Strconv
  import opened ZapFields
  import opened Tr2Names

  const FileLineWidth: nat := 28
  const ThreadWidth: nat := 24
  const EventWidth: nat := 12
  const CategoryWidth: nat := 12

  datatype EncodeError =
    | MissingField(name: string)
    /** A Go panic: a failed type assertion on the named field, or a
        negative repeat count. */
    | Panicked(field: string)

  function ErrorText(e: EncodeError): string {
    match e
    case MissingField(name) => "missing required field '" + name + "'"
    case Panicked(field) => "panic on field '" + field + "'"
  }

  /** What zap hands the encoder besides the fields: the event name (the
      entry's message) and its time of day, already rendered as
      "15:04:05.000000" (the clock is an input of this model). */
  datatype Entry = Entry(message: string, clock: string)

  type FieldMap = map<string, Value>

  /** The map after a map encoder has taken the fields one by one: later
      fields overwrite earlier ones, nothing is ever removed. */
  function AddFields(m: FieldMap, fs: seq<Field>): FieldMap {
    if fs == [] then m
    else AddFields(m, fs[..|fs| - 1])[fs[|fs| - 1].key := fs[|fs| - 1].value]
  }

  function GetField(m: FieldMap, name: string): (r: Option<Value>)
    ensures r.Some? <==> name in m
    ensures r.Some? ==> r.value == m[name]
  {
    if name in m then Some(m[name]) else None
  }

  function GetRequiredField(m: FieldMap, name: string): (r: Result<Value, EncodeError>)
    ensures r.Failure? <==> name !in m
    ensures r.Failure? ==> ErrorText(r.error) == "missing required field '" + name + "'"
    ensures r.Success? ==> r.value == m[name]
  {
    if name in m then Success(m[name]) else Failure(MissingField(name))
  }

  /** The fields each event's summary needs, in the order they are checked. */
  function RequiredFields(event: string): seq<string> {
    if event == EvCmdName then [FName]
    else if event == EvChildStart then [FChildId, FChildClass, FArgv]
    else if event == EvChildReady then [FChildId, FPid, FReady]
    else if event == EvChildExit then [FChildId, FPid, FCode]
    else if event == EvExit || event == EvAtExit then [FCode]
    else []
  }

  /** The first of `names` that the map lacks. */
  function FirstMissing(m: FieldMap, names: seq<string>): (r: Option<string>)
    ensures r.None? <==> forall i :: 0 <= i < |names| ==> names[i] in m
    ensures r.Some? ==> r.value !in m && r.value in names
    ensures r.Some? ==> exists i :: 0 <= i < |names| && names[i] == r.value && forall j :: 0 <= j < i ==> names[j] in m
  {
    if names == [] then None
    else if names[0] !in m then Some(names[0])
    else
      var rest := FirstMissing(m, names[1..]);
      if rest.Some? then
        FirstMissingShift(m, names, rest.value); rest
      else rest
  }

  /** A name first missing after a bound head is first missing with it. */
  lemma FirstMissingShift(m: FieldMap, names: seq<string>, v: string)
    requires names != [] && names[0] in m
    requires exists i :: 0 <= i < |names| - 1 && names[1..][i] == v && forall j :: 0 <= j < i ==> names[1..][j] in m
    ensures exists i :: 0 <= i < |names| && names[i] == v && forall j :: 0 <= j < i ==> names[j] in m
  {
    var i :| 0 <= i < |names| - 1 && names[1..][i] == v && forall j :: 0 <= j < i ==> names[1..][j] in m;
    assert names[i + 1] == v;
    assert forall j :: 0 <= j < i + 1 ==> names[j] in m by {
      forall j | 0 <= j < i + 1 ensures names[j] in m {
        if j > 0 { assert names[j] == names[1..][j - 1]; }
      }
    }
  }

  /** The event-specific summary at the end of the line. */
  function GetEventLog(m: FieldMap, event: string): Result<string, EncodeError> {
    if event == EvCmdName then
      var name :- GetRequiredField(m, FName);
      if name.Str? then Success(name.s) else Failure(Panicked(FName))
    else if event == EvError then
      if FMsg !in m then Success("")
      else if m[FMsg].Str? then Success(m[FMsg].s) else Failure(Panicked(FMsg))
    else if event == EvChildStart then
      var childId :- GetRequiredField(m, FChildId);
      var childClass :- GetRequiredField(m, FChildClass);
      var argv :- GetRequiredField(m, FArgv);
      Success("[ch" + FmtD(childId) + "] class:" + FmtS(childClass) + " argv:" + Json(argv))
    else if event == EvChildReady then
      var childId :- GetRequiredField(m, FChildId);
      var pid :- GetRequiredField(m, FPid);
      var ready :- GetRequiredField(m, FReady);
      Success("[ch" + FmtD(childId) + "] pid:" + FmtD(pid) + " ready:" + FmtS(ready))
    else if event == EvChildExit then
      var childId :- GetRequiredField(m, FChildId);
      var pid :- GetRequiredField(m, FPid);
      var code :- GetRequiredField(m, FCode);
      Success("[ch" + FmtD(childId) + "] pid:" + FmtD(pid) + " code:" + FmtD(code))
    else if event == EvRegionEnter || event == EvRegionLeave then
      if FLabel !in m then Success("") else Success("label:" + FmtS(m[FLabel]))
    else if event == EvExit || event == EvAtExit then
      var code :- GetRequiredField(m, FCode);
      Success("code:" + FmtD(code))
    else
      Success("")
  }

  /** The `file:line` text, cut when its UTF-8 encoding is longer than the
      column: its last three characters become "..." and its length stays
      what it was. */
  function ElideFileLine(fl: string): string {
    if ByteLength(fl) > FileLineWidth then ByteLengthBounds(fl); fl[..|fl| - 3] + "..." else fl
  }

  /** The `%s:%d` text of the call site, cut in place when its encoding is
      longer than the column. */
  method ElideInPlace(text: string) returns (fl: string)
    ensures fl == ElideFileLine(text)
  {
    fl := text;
    if ByteLength(fl) > FileLineWidth {
      ByteLengthBounds(fl);
      fl := fl[..|fl| - 3] + "...";
    }
  }

  function FileLineColumn(file: Value, line: Value): string {
    PadRight(ElideFileLine(FmtS(file) + ":" + FmtD(line)), FileLineWidth) + " | "
  }

  /** Go's `%.6f` of a duration's seconds: the nanosecond count rounded to
      whole microseconds, half away from zero. */
  function Seconds(nanos: int): string {
    var micros := ((if nanos < 0 then -nanos else nanos) + 500) / 1000;
    var frac := Digits(1_000_000 + micros % 1_000_000)[1..];
    (if nanos < 0 then "-" else "") + Decimal(micros / 1_000_000) + "." + frac
  }

  /** The column of an elapsed time: nine blanks when absent, else `%9.6f`. */
  function TimeColumn(m: FieldMap, name: string): Result<string, EncodeError> {
    if name !in m then Success(Spaces(9) + " | ")
    else if m[name].Duration? then Success(PadLeft(Seconds(m[name].nanos), 9) + " | ")
    else Failure(Panicked(name))
  }

  function CategoryText(m: FieldMap): string {
    if FCategory in m then FmtS(m[FCategory]) else ""
  }

  function CategoryColumn(m: FieldMap): string {
    PadRight(Truncate(CategoryText(m), CategoryWidth), CategoryWidth) + " | "
  }

  predicate IsLevel(v: Value) {
    IsInteger(v) && v.i >= 0
  }

  /** One dot per nesting level, from any integer kind zap may store. */
  function NestingDots(m: FieldMap): (r: Result<string, EncodeError>)
    ensures FNesting !in m ==> r == Success("")
    ensures FNesting in m && IsLevel(m[FNesting]) ==>
      r.Success? && |r.value| == m[FNesting].i && forall i :: 0 <= i < |r.value| ==> r.value[i] == '.'
    ensures FNesting in m && !IsLevel(m[FNesting]) ==> r == Failure(Panicked(FNesting))
  {
    if FNesting !in m then Success("")
    else if IsLevel(m[FNesting]) then Success(Repeat('.', m[FNesting].i))
    else Failure(Panicked(FNesting))
  }

  /** The nesting prefix as the source writes it: a type assertion to a plain
      Go `int`, which fails on the 64-bit integer that zap.Int stores. */
  function NestingDotsAsWritten(m: FieldMap): Result<string, EncodeError> {
    if FNesting !in m then Success("")
    else if m[FNesting].GoInt? && m[FNesting].i >= 0 then Success(Repeat('.', m[FNesting].i))
    else Failure(Panicked(FNesting))
  }

  function Head(isBrief: bool, m: FieldMap, ent: Entry): Result<string, EncodeError> {
    if isBrief then Success("")
    else
      var file :- GetRequiredField(m, FFile);
      var line :- GetRequiredField(m, FLine);
      Success(ent.clock + " " + FileLineColumn(file, line))
  }

  function ThreadColumn(thread: Value): string {
    PadRight(FmtS(thread), ThreadWidth) + " | "
  }

  function EventColumn(event: string): string {
    PadRight(event, EventWidth) + " | "
  }

  /** The columns from the depth marker on, put together: the depth (always
      0), thread, event, the empty repository slot, the two times, the
      category, then the dots, the summary and the newline. */
  function Columns(tc: string, ec: string, ta: string, tr: string, cc: string, dots: string,
                   summary: string): string {
    "d0 | " + tc + ec + "    | " + ta + tr + cc + dots + summary + "\n"
  }

  /** Everything from the depth marker on: the whole line in brief mode. */
  function Body(m: FieldMap, ent: Entry): Result<string, EncodeError> {
    var thread :- GetRequiredField(m, FThread);
    var tAbs :- TimeColumn(m, FTAbs);
    var tRel :- TimeColumn(m, FTRel);
    var dots :- NestingDots(m);
    var summary :- GetEventLog(m, ent.message);
    Success(Columns(ThreadColumn(thread), EventColumn(ent.message), tAbs, tRel, CategoryColumn(m), dots, summary))
  }

  /** The whole line for one entry, or the error that stops it. */
  function PerfLine(isBrief: bool, m: FieldMap, ent: Entry): Result<string, EncodeError> {
    var head :- Head(isBrief, m, ent);
    var body :- Body(m, ent);
    Success(head + body)
  }

  // ---------------------------------------------------------------------
  // Properties of the line

  /** The well-typedness the line needs to avoid a Go panic: durations in
      the time fields, a non-negative integer level, strings for the name
      and message that the summaries assert to be strings. */
  predicate WellTyped(m: FieldMap) {
    && (FTAbs in m ==> m[FTAbs].Duration?)
    && (FTRel in m ==> m[FTRel].Duration?)
    && (FNesting in m ==> IsLevel(m[FNesting]))
    && (FName in m ==> m[FName].Str?)
    && (FMsg in m ==> m[FMsg].Str?)
  }

  /** The fields checked for an event, in checking order: file and line
      (full mode only), the thread, then the event's own required fields. */
  function CheckOrder(isBrief: bool, event: string): seq<string> {
    (if isBrief then [] else [FFile, FLine]) + [FThread] + RequiredFields(event)
  }

  lemma {:induction false} FirstMissingAppend(m: FieldMap, a: seq<string>, b: seq<string>)
    ensures FirstMissing(m, a + b) == if FirstMissing(m, a).Some? then FirstMissing(m, a) else FirstMissing(m, b)
  {
    if a != [] {
      assert (a + b)[1..] == a[1..] + b;
      FirstMissingAppend(m, a[1..], b);
    } else {
      assert a + b == b;
    }
  }

  /** The summary fails exactly on the first required field that is absent,
      and succeeds once all are present. */
  lemma EventLogOutcome(m: FieldMap, event: string)
    requires WellTyped(m)
    ensures match FirstMissing(m, RequiredFields(event))
      case Some(f) => GetEventLog(m, event) == Failure(MissingField(f))
      case None => GetEventLog(m, event).Success?
  {
    var req := RequiredFields(event);
    if FirstMissing(m, req).None? {
      assert forall i :: 0 <= i < |req| ==> req[i] in m;
      if event == EvChildStart || event == EvChildReady || event == EvChildExit {
        assert req[0] in m && req[1] in m && req[2] in m;
      } else if event == EvCmdName || event == EvExit || event == EvAtExit {
        assert req[0] in m;
      }
    }
  }

  /** The child_ready summary: the child id in brackets, the pid and the
      ready state. */
  lemma ChildReadySummary()
    ensures GetEventLog(map[FChildId := Int32(3), FPid := Int64(42), FReady := Str("error")], EvChildReady)
      == Success("[ch3] pid:42 ready:error")
  {
    SampleNumbers();
    assert "[ch" + "3" + "] pid:" + "42" + " ready:" + "error" == "[ch3] pid:42 ready:error";
  }

  /** The child_exit summary: the child id in brackets, the pid and the
      exit code. */
  lemma ChildExitSummary()
    ensures GetEventLog(map[FChildId := Int32(3), FPid := Int64(42), FCode := Int64(0)], EvChildExit)
      == Success("[ch3] pid:42 code:0")
  {
    SampleNumbers();
    assert "[ch" + "3" + "] pid:" + "42" + " code:" + "0" == "[ch3] pid:42 code:0";
  }

  lemma SampleNumbers()
    ensures FmtD(Int32(3)) == "3" && FmtD(Int64(42)) == "42" && FmtD(Int64(0)) == "0"
  {
    assert Digits(42) == "42" by { assert Digits(4) == "4"; }
  }

  /** The other summaries: the exit code, the region's label or nothing,
      and the error's message or nothing; events without one get "". */
  lemma OtherSummaries()
    ensures GetEventLog(map[FCode := Int64(1)], EvAtExit) == Success("code:1")
    ensures GetEventLog(map[FLabel := Str("fetch")], EvRegionLeave) == Success("label:fetch")
    ensures GetEventLog(map[], EvRegionEnter) == Success("")
    ensures GetEventLog(map[FMsg := Str("boom")], EvError) == Success("boom")
    ensures GetEventLog(map[], EvError) == Success("")
    ensures GetEventLog(map[FName := Str("init")], EvStart) == Success("")
  {
    assert Decimal(1) == "1";
    assert "code:" + "1" == "code:1";
    assert "label:" + "fetch" == "label:fetch";
  }

  /** A line is refused with `missing required field '<f>'` exactly when `f`
      is the first absent field in checking order; otherwise it is produced. */
  lemma PerfLineOutcome(isBrief: bool, m: FieldMap, ent: Entry)
    requires WellTyped(m)
    ensures match FirstMissing(m, CheckOrder(isBrief, ent.message))
      case Some(f) => PerfLine(isBrief, m, ent) == Failure(MissingField(f))
      case None => PerfLine(isBrief, m, ent).Success?
  {
    var pre := if isBrief then [] else [FFile, FLine];
    FirstMissingAppend(m, pre + [FThread], RequiredFields(ent.message));
    FirstMissingAppend(m, pre, [FThread]);
    EventLogOutcome(m, ent.message);
  }

  /** Full mode is brief mode with the time of day and the file:line column
      put in front; the file and line are checked first. */
  lemma FullLineExtendsBrief(m: FieldMap, ent: Entry)
    ensures PerfLine(true, m, ent) == Body(m, ent)
    ensures PerfLine(false, m, ent) ==
      if FFile !in m then Failure(MissingField(FFile))
      else if FLine !in m then Failure(MissingField(FLine))
      else match Body(m, ent)
        case Failure(e) => Failure(e)
        case Success(line) => Success(ent.clock + " " + FileLineColumn(m[FFile], m[FLine]) + line)
  {
    if Body(m, ent).Success? {
      assert "" + Body(m, ent).value == Body(m, ent).value;
    }
  }

  /** The file:line column: a text whose UTF-8 encoding is longer than 28
      bytes keeps its length with its last three characters turned into
      "..."; the column is padded with blanks to 28 characters and is never
      narrower. */
  lemma FileLineColumnShape(file: Value, line: Value)
    ensures var fl := FmtS(file) + ":" + FmtD(line);
      var col := FileLineColumn(file, line);
      && |col| == Max(|fl|, FileLineWidth) + 3
      && (ByteLength(fl) > FileLineWidth ==> |fl| >= 8 && col[..|fl|] == fl[..|fl| - 3] + "...")
      && (ByteLength(fl) <= FileLineWidth ==> |fl| <= FileLineWidth && col[..|fl|] == fl)
      && col[|fl|..] == Spaces(if |fl| < FileLineWidth then FileLineWidth - |fl| else 0) + " | "
  {
    ElidedColumn(FmtS(file) + ":" + FmtD(line));
  }

  /** The column built from any `file:line` text. */
  lemma ElidedColumn(fl: string)
    ensures var col := PadRight(ElideFileLine(fl), FileLineWidth) + " | ";
      && |col| == Max(|fl|, FileLineWidth) + 3
      && (ByteLength(fl) > FileLineWidth ==> |fl| >= 8 && col[..|fl|] == fl[..|fl| - 3] + "...")
      && (ByteLength(fl) <= FileLineWidth ==> |fl| <= FileLineWidth && col[..|fl|] == fl)
      && col[|fl|..] == Spaces(if |fl| < FileLineWidth then FileLineWidth - |fl| else 0) + " | "
  {
    ByteLengthBounds(fl);
    var e := ElideFileLine(fl);
    assert |e| == |fl|;
    var col := PadRight(e, FileLineWidth) + " | ";
    assert col[..|fl|] == e;
    assert col[|fl|..] == PadRight(e, FileLineWidth)[|fl|..] + " | ";
  }

  /** The test counts bytes, not characters: thirteen two-byte letters and
      `.go:12` make 19 characters but 32 bytes, so the text is elided. */
  lemma ElisionCountsBytes()
    ensures ElideFileLine("\U{00E9}\U{00E9}\U{00E9}\U{00E9}\U{00E9}\U{00E9}\U{00E9}\U{00E9}\U{00E9}\U{00E9}\U{00E9}\U{00E9}\U{00E9}.go:12")
         == "\U{00E9}\U{00E9}\U{00E9}\U{00E9}\U{00E9}\U{00E9}\U{00E9}\U{00E9}\U{00E9}\U{00E9}\U{00E9}\U{00E9}\U{00E9}.go..."
  {
    var letters := "\U{00E9}\U{00E9}\U{00E9}\U{00E9}\U{00E9}\U{00E9}\U{00E9}\U{00E9}\U{00E9}\U{00E9}\U{00E9}\U{00E9}\U{00E9}";
    var tail := ".go:12";
    UniformByteLength(letters, 2);
    UniformByteLength(tail, 1);
    ByteLengthAppend(letters, tail);
    assert letters + tail == "\U{00E9}\U{00E9}\U{00E9}\U{00E9}\U{00E9}\U{00E9}\U{00E9}\U{00E9}\U{00E9}\U{00E9}\U{00E9}\U{00E9}\U{00E9}.go:12";
  }

  /** When the last three characters are ASCII, cutting them removes exactly
      three bytes, so the character cut and Go's byte cut agree. */
  lemma AsciiTailCut(fl: string)
    requires |fl| >= 3 && forall i :: |fl| - 3 <= i < |fl| ==> fl[i] as int < 0x80
    ensures ByteLength(fl[..|fl| - 3]) == ByteLength(fl) - 3
  {
    assert fl == fl[..|fl| - 3] + fl[|fl| - 3..];
    ByteLengthAppend(fl[..|fl| - 3], fl[|fl| - 3..]);
    UniformByteLength(fl[|fl| - 3..], 1);
  }

  /** Where each column sits when the thread column is 27 characters, the
      event column 15, the times 12 each and the category 15. */
  lemma ColumnOffsets(tc: string, ec: string, ta: string, tr: string, cc: string, dots: string, summary: string)
    requires |tc| == 27 && |ec| == 15 && |ta| == 12 && |tr| == 12 && |cc| == 15
    ensures var line := Columns(tc, ec, ta, tr, cc, dots, summary);
      && |line| == 93 + |dots| + |summary|
      && line[..5] == "d0 | " && line[5..32] == tc && line[32..47] == ec && line[47..53] == "    | "
      && line[53..65] == ta && line[65..77] == tr && line[77..92] == cc
      && line[92..] == dots + summary + "\n"
  {
    var line := Columns(tc, ec, ta, tr, cc, dots, summary);
    var p1 := "d0 | " + tc;
    var p2 := p1 + ec;
    var p3 := p2 + "    | ";
    var p4 := p3 + ta;
    var p5 := p4 + tr;
    var p6 := p5 + cc;
    assert line == p6 + dots + summary + "\n";
    assert line == p6 + (dots + summary + "\n");
    assert line[..92] == p6;
    assert p6[..77] == p5 && p5[..65] == p4 && p4[..53] == p3 && p3[..47] == p2 && p2[..32] == p1;
  }

  /** Brief-mode columns sit at fixed offsets when the thread and event
      names fit their widths and the times fit nine characters: depth marker,
      thread (24), event (12), the empty repository slot, the two times (9
      each), the category cut and padded to exactly 12, then the dots and
      the summary from offset 92 to the closing newline. */
  lemma BriefColumns(m: FieldMap, ent: Entry)
    requires Body(m, ent).Success?
    requires |FmtS(m[FThread])| <= ThreadWidth && |ent.message| <= EventWidth
    requires FTAbs in m && m[FTAbs].Duration? ==> |Seconds(m[FTAbs].nanos)| <= 9
    requires FTRel in m && m[FTRel].Duration? ==> |Seconds(m[FTRel].nanos)| <= 9
    ensures var line := Body(m, ent).value;
      && |line| >= 93
      && line[..5] == "d0 | "
      && line[5..32] == PadRight(FmtS(m[FThread]), ThreadWidth) + " | "
      && line[32..47] == PadRight(ent.message, EventWidth) + " | "
      && line[47..53] == "    | "
      && line[53..65] == (if FTAbs in m then PadLeft(Seconds(m[FTAbs].nanos), 9) else Spaces(9)) + " | "
      && line[65..77] == (if FTRel in m then PadLeft(Seconds(m[FTRel].nanos), 9) else Spaces(9)) + " | "
      && line[77..92] == PadRight(Truncate(CategoryText(m), CategoryWidth), CategoryWidth) + " | "
      && line[92..] == NestingDots(m).value + GetEventLog(m, ent.message).value + "\n"
  {
    var tc, ec := ThreadColumn(m[FThread]), EventColumn(ent.message);
    var ta, tr := TimeColumn(m, FTAbs).value, TimeColumn(m, FTRel).value;
    var cc := CategoryColumn(m);
    ColumnOffsets(tc, ec, ta, tr, cc, NestingDots(m).value, GetEventLog(m, ent.message).value);
  }

  /** `line` ends in a newline, and in exactly one when `summary` does not
      itself end in one. */
  predicate EndsInNewline(line: string, summary: string) {
    && |line| >= 2 && line[|line| - 1] == '\n'
    && (summary == [] || summary[|summary| - 1] != '\n' ==> line[|line| - 2] != '\n')
  }

  /** The body ends in a newline, and in exactly one when the summary does
      not itself end in one. */
  lemma BodyEnding(m: FieldMap, ent: Entry)
    requires Body(m, ent).Success?
    ensures EndsInNewline(Body(m, ent).value, GetEventLog(m, ent.message).value)
  {
    var cc := CategoryColumn(m);
    assert cc[|cc| - 1] == ' ';
    ColumnsEnding(ThreadColumn(m[FThread]), EventColumn(ent.message), TimeColumn(m, FTAbs).value,
                  TimeColumn(m, FTRel).value, cc, NestingDots(m).value, GetEventLog(m, ent.message).value);
  }

  /** The assembled columns end in the newline, preceded by the summary's
      last character, else the last dot, else the category column's blank. */
  lemma ColumnsEnding(tc: string, ec: string, ta: string, tr: string, cc: string, dots: string, summary: string)
    requires |cc| > 0 && cc[|cc| - 1] == ' '
    requires forall i :: 0 <= i < |dots| ==> dots[i] == '.'
    ensures EndsInNewline(Columns(tc, ec, ta, tr, cc, dots, summary), summary)
  {
    var p := "d0 | " + tc + ec + "    | " + ta + tr + cc;
    var line := Columns(tc, ec, ta, tr, cc, dots, summary);
    assert line == p + dots + summary + "\n";
    assert p[|p| - 1] == ' ';
    if summary != [] {
      assert line[|line| - 2] == summary[|summary| - 1];
    } else if dots != [] {
      assert line[|line| - 2] == dots[|dots| - 1];
    } else {
      assert line[|line| - 2] == p[|p| - 1];
    }
  }

  /** Every produced line ends in a newline, and in exactly one when the
      summary does not itself end in one. */
  lemma LineEnding(isBrief: bool, m: FieldMap, ent: Entry)
    requires PerfLine(isBrief, m, ent).Success?
    ensures GetEventLog(m, ent.message).Success?
    ensures EndsInNewline(PerfLine(isBrief, m, ent).value, GetEventLog(m, ent.message).value)
  {
    PerfLineParts(isBrief, m, ent);
    BodyEnding(m, ent);
    SuffixEnding(Head(isBrief, m, ent).value, Body(m, ent).value, GetEventLog(m, ent.message).value);
  }

  /** A produced line is its head followed by its body. */
  lemma PerfLineParts(isBrief: bool, m: FieldMap, ent: Entry)
    requires PerfLine(isBrief, m, ent).Success?
    ensures Head(isBrief, m, ent).Success? && Body(m, ent).Success?
    ensures PerfLine(isBrief, m, ent).value == Head(isBrief, m, ent).value + Body(m, ent).value
  {
  }

  /** Text put in front keeps the ending. */
  lemma SuffixEnding(head: string, body: string, summary: string)
    requires EndsInNewline(body, summary)
    ensures EndsInNewline(head + body, summary)
  {
    var s := head + body;
    assert s[|s| - 1] == body[|body| - 1] && s[|s| - 2] == body[|body| - 2];
  }

  // ---------------------------------------------------------------------
  // The encoder's map across entries

  /** After the encoder takes a field list, a key is bound exactly when it
      was bound before or the list has it, to the list's last value for it
      if any, else to its old value: nothing is removed. */
  lemma {:induction false} AddFieldsBinds(m: FieldMap, fs: seq<Field>, key: string)
    ensures key in AddFields(m, fs) <==> key in m || Lookup(fs, key).Some?
    ensures key in AddFields(m, fs) ==>
      AddFields(m, fs)[key] == if Lookup(fs, key).Some? then Lookup(fs, key).value else m[key]
  {
    if fs != [] {
      AddFieldsBinds(m, fs[..|fs| - 1], key);
    }
  }

  lemma AddFieldsSnoc(m: FieldMap, fs: seq<Field>, f: Field)
    ensures AddFields(m, fs + [f]) == AddFields(m, fs)[f.key := f.value]
  {
    assert (fs + [f])[..|fs|] == fs;
  }

  /** Three fields taken one after another. */
  lemma AddThree(m: FieldMap, a: Field, b: Field, c: Field)
    ensures AddFields(m, [a, b, c]) == m[a.key := a.value][b.key := b.value][c.key := c.value]
  {
    AddFieldsSnoc(m, [], a);
    AddFieldsSnoc(m, [a], b);
    AddFieldsSnoc(m, [a, b], c);
    assert [] + [a] == [a] && [a] + [b] == [a, b] && [a, b] + [c] == [a, b, c];
  }

  /** Fields persist: a pid left in the map by an earlier child_ready entry
      satisfies a later child_exit entry that carries no pid, which a fresh
      encoder refuses. */
  lemma StaleFieldSatisfiesLaterEntry()
    ensures var ready := [Field(FThread, Str("main")), Field(FChildId, Int32(0)), Field(FPid, Int64(42)),
                          Field(FReady, Str("ready"))];
      var exit := [Field(FThread, Str("main")), Field(FChildId, Int32(0)), Field(FCode, Int64(0))];
      && PerfLine(true, AddFields(map[], exit), Entry(EvChildExit, "")) == Failure(MissingField(FPid))
      && PerfLine(true, AddFields(AddFields(map[], ready), exit), Entry(EvChildExit, "")).Success?
  {
    var thread, id := Field(FThread, Str("main")), Field(FChildId, Int32(0));
    var pid, ready := Field(FPid, Int64(42)), Field(FReady, Str("ready"));
    var code := Field(FCode, Int64(0));
    AddThree(map[], thread, id, pid);
    AddFieldsSnoc(map[], [thread, id, pid], ready);
    assert [thread, id, pid] + [ready] == [thread, id, pid, ready];
    var m0 := AddFields(map[], [thread, id, pid, ready]);
    AddThree(m0, thread, id, code);
    AddThree(map[], thread, id, code);
    var m1 := AddFields(map[], [thread, id, code]);
    var m2 := AddFields(m0, [thread, id, code]);
    assert FTAbs !in m1 && FTRel !in m1 && FNesting !in m1 && FName !in m1 && FMsg !in m1;
    assert FTAbs !in m2 && FTRel !in m2 && FNesting !in m2 && FName !in m2 && FMsg !in m2;
    ChildExitOutcome(m1);
    ChildExitOutcome(m2);
  }

  /** A brief child_exit line from a map with the thread, child id and code
      fails on the pid exactly when the map has none. */
  lemma ChildExitOutcome(m: FieldMap)
    requires WellTyped(m) && FThread in m && FChildId in m && FCode in m
    ensures FPid !in m ==> PerfLine(true, m, Entry(EvChildExit, "")) == Failure(MissingField(FPid))
    ensures FPid in m ==> PerfLine(true, m, Entry(EvChildExit, "")).Success?
  {
    var order := CheckOrder(true, EvChildExit);
    assert order == [FThread, FChildId, FPid, FCode];
    assert order[1..] == [FChildId, FPid, FCode] && order[2..] == [FPid, FCode] && order[3..] == [FCode];
    assert FirstMissing(m, order) == FirstMissing(m, order[2..]);
    if FPid in m {
      assert FirstMissing(m, order[3..]) == None;
    }
    PerfLineOutcome(true, m, Entry(EvChildExit, ""));
  }

  // ---------------------------------------------------------------------
  // The nesting prefix as written

  /** The source's `val.(int)` sees the 64-bit integer that zap.Int stored
      for the nesting level, so every region line panics, while the
      corrected prefix gives one dot per level. */
  lemma NestingAssertionPanics(level: nat)
    ensures NestingDotsAsWritten(map[FNesting := Int64(level)]) == Failure(Panicked(FNesting))
    ensures NestingDots(map[FNesting := Int64(level)]) == Success(Repeat('.', level))
  {
  }

  /** The encoder object: the map of every field it has been handed, and
      whether it leaves out the time and file:line columns. */
  class Tr2PerfEncoder {
    var fields: FieldMap
    const isBrief: bool

    constructor (isBrief: bool)
      ensures this.isBrief == isBrief && fields == map[]
    {
      this.isBrief := isBrief;
      fields := map[];
    }

    method Clone() returns (c: Tr2PerfEncoder)
      ensures fresh(c) && c.isBrief == isBrief && c.fields == map[]
    {
      c := new Tr2PerfEncoder(isBrief);
    }

    method EncodeEntry(ent: Entry, fs: seq<Field>) returns (r: Result<string, EncodeError>)
      modifies this
      ensures fields == AddFields(old(fields), fs)
      ensures r == PerfLine(isBrief, fields, ent)
    {
      var i := 0;
      while i < |fs|
        invariant 0 <= i <= |fs|
        invariant fields == AddFields(old(fields), fs[..i])
      {
        assert fs[..i + 1][..i] == fs[..i];
        fields := fields[fs[i].key := fs[i].value];
        i := i + 1;
      }
      assert fs[..|fs|] == fs;

      var buffer := "";
      if !isBrief {
        buffer := buffer + ent.clock + " ";
        var file := GetRequiredField(fields, FFile);
        if file.Failure? {
          return Failure(file.error);
        }
        var line := GetRequiredField(fields, FLine);
        if line.Failure? {
          return Failure(line.error);
        }
        var fl := FmtS(file.value) + ":" + FmtD(line.value);
        fl := ElideInPlace(fl);
        assert buffer == ent.clock + " ";
        buffer := buffer + PadRight(fl, FileLineWidth) + " | ";
        assert buffer == ent.clock + " " + FileLineColumn(file.value, line.value);
      }
      ghost var head := buffer;
      assert Head(isBrief, fields, ent) == Success(head);

      ghost var body := "d0 | ";
      buffer := buffer + "d0 | ";
      var thread := GetRequiredField(fields, FThread);
      if thread.Failure? {
        return Failure(thread.error);
      }
      buffer := buffer + ThreadColumn(thread.value);
      AppendAssoc(head, body, ThreadColumn(thread.value));
      body := body + ThreadColumn(thread.value);
      buffer := buffer + EventColumn(ent.message);
      AppendAssoc(head, body, EventColumn(ent.message));
      body := body + EventColumn(ent.message);
      buffer := buffer + "    | ";
      AppendAssoc(head, body, "    | ");
      body := body + "    | ";

      var tAbs := TimeColumn(fields, FTAbs);
      if tAbs.Failure? {
        return Failure(tAbs.error);
      }
      buffer := buffer + tAbs.value;
      AppendAssoc(head, body, tAbs.value);
      body := body + tAbs.value;
      var tRel := TimeColumn(fields, FTRel);
      if tRel.Failure? {
        return Failure(tRel.error);
      }
      buffer := buffer + tRel.value;
      AppendAssoc(head, body, tRel.value);
      body := body + tRel.value;

      buffer := buffer + CategoryColumn(fields);
      AppendAssoc(head, body, CategoryColumn(fields));
      body := body + CategoryColumn(fields);

      var dots := NestingDots(fields);
      if dots.Failure? {
        return Failure(dots.error);
      }
      buffer := buffer + dots.value;
      AppendAssoc(head, body, dots.value);
      body := body + dots.value;
      var logMsg := GetEventLog(fields, ent.message);
      if logMsg.Failure? {
        return Failure(logMsg.error);
      }
      buffer := buffer + logMsg.value;
      AppendAssoc(head, body, logMsg.value);
      body := body + logMsg.value;
      buffer := buffer + "\n";
      AppendAssoc(head, body, "\n");
      body := body + "\n";
      assert Body(fields, ent) == Success(body);
      r := Success(buffer);
    }
  }
}
