/** The trace2 recorder (internal/log/trace2.go): the fields every event
    shares, the records each operation hands to the logger, and the
    recorder object with its child-process counter. The logger itself is
    modelled as the sequence of records it has been handed; the clock,
    uuid.New, runtime.Caller and the child process's state are inputs. */
module Trace2 {
  import opened Wrappers
  import opened ZapFields
  import opened Tr2Names
  import opened Tr2Context
  import PerfEncoder
  import Text

  // ---------------------------------------------------------------------
  // File names

  function TrimTrailingSlashes(p: string): (r: string)
    ensures |r| <= |p| && r == p[..|r|]
    ensures r == [] || r[|r| - 1] != '/'
    ensures forall i :: |r| <= i < |p| ==> p[i] == '/'
  {
    if p != [] && p[|p| - 1] == '/' then TrimTrailingSlashes(p[..|p| - 1]) else p
  }

  /** The text after the last slash. */
  function AfterLastSlash(p: string): (r: string)
    ensures |r| <= |p| && r == p[|p| - |r|..]
    ensures forall i :: 0 <= i < |r| ==> r[i] != '/'
    ensures |r| < |p| ==> p[|p| - |r| - 1] == '/'
  {
    if p == [] || p[|p| - 1] == '/' then [] else AfterLastSlash(p[..|p| - 1]) + [p[|p| - 1]]
  }

  /** filepath.Base with '/' as the separator: "." for an empty path, "/"
      for a path of slashes only, else the last element once trailing
      slashes are dropped. */
  function Base(path: string): (r: string)
    ensures |r| > 0
    ensures r == "/" || forall i :: 0 <= i < |r| ==> r[i] != '/'
  {
    if path == [] then "."
    else
      var t := TrimTrailingSlashes(path);
      if t == [] then "/" else AfterLastSlash(t)
  }

  /** The base name of a file in a directory is the file's own name, with or
      without the directory in front. */
  lemma BaseOfJoin(dir: string, name: string)
    requires |name| > 0 && forall i :: 0 <= i < |name| ==> name[i] != '/'
    ensures Base(dir + "/" + name) == name
    ensures Base(name) == name
  {
    var p := dir + "/" + name;
    assert TrimTrailingSlashes(p) == p;
    AfterLastSlashOf(dir + "/", name);
    AfterLastSlashOf([], name);
    assert [] + name == name;
  }

  lemma {:induction false} AfterLastSlashOf(prefix: string, name: string)
    requires prefix == [] || prefix[|prefix| - 1] == '/'
    requires forall i :: 0 <= i < |name| ==> name[i] != '/'
    ensures AfterLastSlash(prefix + name) == name
    decreases |name|
  {
    var p := prefix + name;
    if name != [] {
      var init, last := name[..|name| - 1], name[|name| - 1];
      assert p[|p| - 1] == last != '/';
      assert p[..|p| - 1] == prefix + init;
      AfterLastSlashOf(prefix, init);
      assert AfterLastSlash(p) == AfterLastSlash(prefix + init) + [last];
      assert init + [last] == name;
    } else {
      assert p == prefix;
    }
  }

  // ---------------------------------------------------------------------
  // Shared fields

  /** What runtime.Caller reports for the code that called the recorder. */
  datatype CallSite = CallSite(file: string, line: int)

  predicate SharedKey(k: string) {
    k == FSid || k == FThread || k == FFile || k == FLine
  }

  /** The caller's file base name and line, when runtime.Caller succeeds. */
  function CallerFields(caller: Option<CallSite>): (r: seq<Field>)
    ensures caller.None? ==> r == []
    ensures caller.Some? ==>
      && Lookup(r, FFile) == Some(Str(Base(caller.value.file)))
      && Lookup(r, FLine) == Some(Int64(caller.value.line))
    ensures Lookup(r, FSid).None? && Lookup(r, FThread).None?
    ensures forall i :: 0 <= i < |r| ==> r[i].key == FFile || r[i].key == FLine
  {
    match caller
    case None => []
    case Some(site) =>
      var r := [Field(FFile, Str(Base(site.file))), Field(FLine, Int64(site.line))];
      LookupDistinct(r);
      r
  }

  /** sharedFields: the session id (ensured in the context, from `minted`
      when it has none), the thread "main", and the caller's file base name
      and line when runtime.Caller succeeds. */
  function SharedFields(ctx: Context, minted: string, caller: Option<CallSite>): (r: (Context, seq<Field>))
    ensures r.0 == GetOrSetSid(ctx, minted).0
    ensures Lookup(r.1, FSid) == Some(Str(GetOrSetSid(ctx, minted).1))
    ensures Lookup(r.1, FThread) == Some(Str("main"))
    ensures caller.None? ==> Lookup(r.1, FFile).None? && Lookup(r.1, FLine).None?
    ensures caller.Some? ==>
      && Lookup(r.1, FFile) == Some(Str(Base(caller.value.file)))
      && Lookup(r.1, FLine) == Some(Int64(caller.value.line))
  {
    var (c, sid) := GetOrSetSid(ctx, minted);
    var fields := [Field(FSid, Str(sid)), Field(FThread, Str("main"))];
    var extra := CallerFields(caller);
    LookupDistinct(fields);
    LookupAppend(fields, extra, FSid);
    LookupAppend(fields, extra, FThread);
    LookupAppend(fields, extra, FFile);
    LookupAppend(fields, extra, FLine);
    (c, fields + extra)
  }

  /** The shared fields bind nothing but the session id, the thread, the
      file and the line. */
  lemma SharedKeysOnly(ctx: Context, minted: string, caller: Option<CallSite>, k: string)
    requires !SharedKey(k)
    ensures Lookup(SharedFields(ctx, minted, caller).1, k).None?
  {
    var sid := GetOrSetSid(ctx, minted).1;
    var fields := [Field(FSid, Str(sid)), Field(FThread, Str("main"))];
    LookupDistinct(fields);
    LookupAbsent(CallerFields(caller), k);
    LookupAppend(fields, CallerFields(caller), k);
  }

  /** fieldList.withTime: the time since the process started, as t_abs. */
  function WithTime(l: seq<Field>, sinceStart: int): (r: seq<Field>)
    ensures |r| == |l| + 1 && r[..|l|] == l
    ensures Lookup(r, FTAbs) == Some(Duration(sinceStart))
  {
    l + [Field(FTAbs, Duration(sinceStart))]
  }

  /** fieldList.withNesting: the region's level, and on request the time
      since the region started (`now` is the current clock reading). */
  function WithNesting(l: seq<Field>, region: Region, includeTRel: bool, now: int): (r: seq<Field>)
    ensures |r| == |l| + (if includeTRel then 2 else 1) && r[..|l|] == l
    ensures Lookup(r, FNesting) == Some(Int64(region.level))
    ensures includeTRel ==> Lookup(r, FTRel) == Some(Duration(now - region.tStart))
    ensures !includeTRel ==> r == l + [Field(FNesting, Int64(region.level))]
  {
    var nested := l + [Field(FNesting, Int64(region.level))];
    if includeTRel then nested + [Field(FTRel, Duration(now - region.tStart))] else nested
  }

  // ---------------------------------------------------------------------
  // Records

  datatype Level = DebugLevel | InfoLevel | ErrorLevel

  /** One call of the logger: its level, the event name and the fields. */
  datatype Record = Record(level: Level, event: string, fields: seq<Field>)

  function StartRecord(shared: seq<Field>, sinceStart: int, argv: seq<string>): Record {
    Record(InfoLevel, EvStart, WithTime(shared, sinceStart) + [Field(FArgv, Strings(argv))])
  }

  function CommandRecord(shared: seq<Field>, name: string): Record {
    Record(InfoLevel, EvCmdName, shared + [Field(FName, Str(name))])
  }

  function RegionFields(category: string, labelText: string): seq<Field> {
    [Field(FCategory, Str(category)), Field(FLabel, Str(labelText))]
  }

  /** region_enter, from the shared fields already carrying t_abs. */
  function RegionEnterRecord(timed: seq<Field>, region: Region, category: string, labelText: string): Record {
    Record(DebugLevel, EvRegionEnter, WithNesting(timed, region, false, 0) + RegionFields(category, labelText))
  }

  /** region_leave, from the same captured fields and region, at `now`. */
  function RegionLeaveRecord(timed: seq<Field>, region: Region, category: string, labelText: string, now: int): Record {
    Record(DebugLevel, EvRegionLeave, WithNesting(timed, region, true, now) + RegionFields(category, labelText))
  }

  function ChildStartFields(id: int, argv: seq<string>): seq<Field> {
    [Field(FChildId, Int32(id)), Field(FChildClass, Str("?")), Field(FUseShell, Bool(false)), Field(FArgv, Strings(argv))]
  }

  function ChildStartRecord(shared: seq<Field>, id: int, argv: seq<string>): Record {
    Record(DebugLevel, EvChildStart, shared + ChildStartFields(id, argv))
  }

  function ReadyText(execFailed: bool): string {
    if execFailed then "error" else "ready"
  }

  function ChildReadyFields(id: int, pid: int, execFailed: bool, argv: seq<string>): seq<Field> {
    [Field(FChildId, Int32(id)), Field(FPid, Int64(pid)), Field(FReady, Str(ReadyText(execFailed))),
     Field(FArgv, Strings(argv))]
  }

  function ChildReadyRecord(shared: seq<Field>, id: int, pid: int, execFailed: bool, argv: seq<string>): Record {
    Record(DebugLevel, EvChildReady, shared + ChildReadyFields(id, pid, execFailed, argv))
  }

  function ChildExitFields(id: int, pid: int, code: int, elapsed: int): seq<Field> {
    [Field(FChildId, Int32(id)), Field(FPid, Int64(pid)), Field(FCode, Int64(code)), Field(FTRel, Duration(elapsed))]
  }

  function ChildExitRecord(shared: seq<Field>, id: int, pid: int, code: int, elapsed: int): Record {
    Record(DebugLevel, EvChildExit, shared + ChildExitFields(id, pid, code, elapsed))
  }

  /** logExit: exit then atexit, each with the code and its own t_abs. */
  function ExitRecords(shared: seq<Field>, code: int, tExit: int, tAtExit: int): (r: seq<Record>)
    ensures |r| == 2 && r[0].event == EvExit && r[1].event == EvAtExit
  {
    var fields := shared + [Field(FCode, Int64(code))];
    [Record(InfoLevel, EvExit, WithTime(fields, tExit)), Record(InfoLevel, EvAtExit, WithTime(fields, tAtExit))]
  }

  // ---------------------------------------------------------------------
  // Errors

  /** An error value: its text (what Error() returns) and whether it carries
      the already-logged marker. Marking keeps the text. */
  datatype Err = Err(text: string, logged: bool)

  function MarkLogged(e: Err): (r: Err)
    ensures r.logged && r.text == e.text
  {
    e.(logged := true)
  }

  /** An argument of Errorf: an error value, or anything else. */
  datatype FmtArg = ErrorArg(err: Err) | OtherArg

  predicate IsLoggedArg(a: FmtArg) {
    a.ErrorArg? && a.err.logged
  }

  predicate AnyLogged(args: seq<FmtArg>) {
    exists i :: 0 <= i < |args| && IsLoggedArg(args[i])
  }

  /** What Error hands the logger: one error-level record with the error's
      text as message and format, unless the error is already marked. */
  function ErrorEmission(shared: seq<Field>, err: Err): seq<Record> {
    if err.logged then []
    else [Record(ErrorLevel, EvError, shared + [Field(FMsg, Str(err.text)), Field(FFmt, Str(err.text))])]
  }

  /** What Errorf hands the logger: one info-level record with the formatted
      text and the raw format, when some argument is already marked. */
  function ErrorfEmission(shared: seq<Field>, format: string, args: seq<FmtArg>, rendered: string): seq<Record> {
    if AnyLogged(args) then [Record(InfoLevel, EvError, shared + [Field(FMsg, Str(rendered)), Field(FFmt, Str(format))])]
    else []
  }

  /** The assertion `v.(loggedError)` as written. The conversion
      `loggedError(err)` of a value of type `error` only compiles when
      `loggedError` is an interface whose only method is `Error() string`,
      and every error value satisfies that interface: the assertion holds
      for any error, marked or not. */
  predicate AssertsLoggedAsWritten(a: FmtArg) {
    a.ErrorArg?
  }

  /** Error as written: the assertion holds for its error, so nothing is
      emitted. */
  function ErrorEmissionAsWritten(shared: seq<Field>, err: Err): seq<Record> {
    if AssertsLoggedAsWritten(ErrorArg(err)) then []
    else [Record(ErrorLevel, EvError, shared + [Field(FMsg, Str(err.text)), Field(FFmt, Str(err.text))])]
  }

  /** Errorf as written: it emits as soon as any argument is an error. */
  function ErrorfEmissionAsWritten(shared: seq<Field>, format: string, args: seq<FmtArg>, rendered: string): seq<Record> {
    if exists i :: 0 <= i < |args| && AssertsLoggedAsWritten(args[i]) then
      [Record(InfoLevel, EvError, shared + [Field(FMsg, Str(rendered)), Field(FFmt, Str(format))])]
    else []
  }

  // ---------------------------------------------------------------------
  // Properties of the records

  /** region_enter and region_leave built from the same captured fields and
      region agree on every field but t_rel: session id, thread, file, line,
      t_abs, nesting, category and label. Only region_leave has t_rel, the
      time since the region started. */
  lemma RegionRecordsAgree(timed: seq<Field>, region: Region, category: string, labelText: string, now: int,
                           k: string)
    requires Lookup(timed, FTRel).None? && k != FTRel
    ensures var enter := RegionEnterRecord(timed, region, category, labelText).fields;
      var leave := RegionLeaveRecord(timed, region, category, labelText, now).fields;
      && Lookup(enter, k) == Lookup(leave, k)
      && Lookup(enter, FNesting) == Lookup(leave, FNesting) == Some(Int64(region.level))
      && Lookup(enter, FTRel).None?
      && Lookup(leave, FTRel) == Some(Duration(now - region.tStart))
  {
    var nested := WithNesting(timed, region, false, now);
    var rf := RegionFields(category, labelText);
    assert WithNesting(timed, region, true, now) == nested + [Field(FTRel, Duration(now - region.tStart))];
    LookupAppend(nested, rf, k);
    LookupAppend(nested + [Field(FTRel, Duration(now - region.tStart))], rf, k);
    LookupAppend(nested, [Field(FTRel, Duration(now - region.tStart))], k);
    LookupAppend(nested, rf, FTRel);
    LookupAppend(timed, [Field(FNesting, Int64(region.level))], FTRel);
    LookupAppend(nested + [Field(FTRel, Duration(now - region.tStart))], rf, FTRel);
    LookupAppend(nested, rf, FNesting);
    LookupAppend(nested + [Field(FTRel, Duration(now - region.tStart))], rf, FNesting);
    LookupAppend(nested, [Field(FTRel, Duration(now - region.tStart))], FNesting);
  }

  /** The captured fields of a region have no t_rel. */
  lemma TimedHasNoTRel(ctx: Context, minted: string, caller: Option<CallSite>, sinceStart: int)
    ensures Lookup(WithTime(SharedFields(ctx, minted, caller).1, sinceStart), FTRel).None?
  {
    var shared := SharedFields(ctx, minted, caller).1;
    SharedKeysOnly(ctx, minted, caller, FTRel);
    LookupAppend(shared, [Field(FTAbs, Duration(sinceStart))], FTRel);
  }

  /** child_start, child_ready and child_exit of one child carry its id and
      the same shared fields; child_ready says "error" exactly when the
      start failed. */
  lemma ChildRecordsAgree(shared: seq<Field>, id: int, argv: seq<string>, pid: int, execFailed: bool,
                          code: int, elapsed: int, k: string)
    requires SharedKey(k)
    ensures var start := ChildStartRecord(shared, id, argv).fields;
      var ready := ChildReadyRecord(shared, id, pid, execFailed, argv).fields;
      var exit := ChildExitRecord(shared, id, pid, code, elapsed).fields;
      && Lookup(start, FChildId) == Lookup(ready, FChildId) == Lookup(exit, FChildId) == Some(Int32(id))
      && Lookup(start, k) == Lookup(ready, k) == Lookup(exit, k) == Lookup(shared, k)
      && Lookup(ready, FPid) == Lookup(exit, FPid) == Some(Int64(pid))
      && (Lookup(ready, FReady) == Some(Str("error")) <==> execFailed)
      && Lookup(ready, FReady) == Some(Str(if execFailed then "error" else "ready"))
  {
    ChildStartLookups(shared, id, argv, k);
    ChildReadyLookups(shared, id, pid, execFailed, argv, k);
    ChildExitLookups(shared, id, pid, code, elapsed, k);
  }

  lemma ChildStartLookups(shared: seq<Field>, id: int, argv: seq<string>, k: string)
    requires SharedKey(k)
    ensures var start := ChildStartRecord(shared, id, argv).fields;
      Lookup(start, FChildId) == Some(Int32(id)) && Lookup(start, k) == Lookup(shared, k)
  {
    var es := ChildStartFields(id, argv);
    LookupDistinct(es);
    assert es[0].key == FChildId;
    LookupAppend(shared, es, k);
    LookupAppend(shared, es, FChildId);
  }

  lemma ChildReadyLookups(shared: seq<Field>, id: int, pid: int, execFailed: bool, argv: seq<string>, k: string)
    requires SharedKey(k)
    ensures var ready := ChildReadyRecord(shared, id, pid, execFailed, argv).fields;
      && Lookup(ready, FChildId) == Some(Int32(id)) && Lookup(ready, k) == Lookup(shared, k)
      && Lookup(ready, FPid) == Some(Int64(pid))
      && Lookup(ready, FReady) == Some(Str(if execFailed then "error" else "ready"))
  {
    var er := ChildReadyFields(id, pid, execFailed, argv);
    LookupDistinct(er);
    assert er[0].key == FChildId && er[1].key == FPid && er[2].key == FReady;
    LookupAppend(shared, er, k);
    LookupAppend(shared, er, FChildId);
    LookupAppend(shared, er, FPid);
    LookupAppend(shared, er, FReady);
  }

  lemma ChildExitLookups(shared: seq<Field>, id: int, pid: int, code: int, elapsed: int, k: string)
    requires SharedKey(k)
    ensures var exit := ChildExitRecord(shared, id, pid, code, elapsed).fields;
      && Lookup(exit, FChildId) == Some(Int32(id)) && Lookup(exit, k) == Lookup(shared, k)
      && Lookup(exit, FPid) == Some(Int64(pid))
  {
    var ee := ChildExitFields(id, pid, code, elapsed);
    LookupDistinct(ee);
    assert ee[0].key == FChildId && ee[1].key == FPid;
    LookupAppend(shared, ee, k);
    LookupAppend(shared, ee, FChildId);
    LookupAppend(shared, ee, FPid);
  }

  /** Error emits at most once for one error: once it has been through
      Error, handing the result to Error again emits nothing. The record
      has the error's text as both message and format. */
  lemma ErrorOnce(shared1: seq<Field>, shared2: seq<Field>, err: Err)
    ensures var first := ErrorEmission(shared1, err);
      var second := ErrorEmission(shared2, MarkLogged(err));
      && second == []
      && |first| == (if err.logged then 0 else 1)
      && (first != [] ==>
            && first[0].level == ErrorLevel && first[0].event == EvError
            && Lookup(first[0].fields, FMsg) == Lookup(first[0].fields, FFmt) == Some(Str(err.text)))
    ensures MarkLogged(MarkLogged(err)) == MarkLogged(err)
  {
    LookupAppend(shared1, [Field(FMsg, Str(err.text)), Field(FFmt, Str(err.text))], FMsg);
    LookupAppend(shared1, [Field(FMsg, Str(err.text)), Field(FFmt, Str(err.text))], FFmt);
  }

  /** As written, Error never emits, and Errorf emits exactly when some
      argument is an error, marked or not. */
  lemma MarkerTestAsWritten(shared: seq<Field>, err: Err, format: string, args: seq<FmtArg>, rendered: string)
    ensures ErrorEmissionAsWritten(shared, err) == []
    ensures |ErrorfEmissionAsWritten(shared, format, args, rendered)| == 1 <==> exists i :: 0 <= i < |args| && args[i].ErrorArg?
    ensures |ErrorfEmissionAsWritten(shared, format, args, rendered)| == 0 <==> forall i :: 0 <= i < |args| ==> args[i].OtherArg?
  {
  }

  /** The two readings part on a fresh, unmarked error `boom`: as written,
      Error stays silent where the marker reading emits, and Errorf with
      `boom` as its argument emits where the marker reading does not. */
  lemma MarkerReadingsDiffer(shared: seq<Field>)
    ensures ErrorEmissionAsWritten(shared, Err("boom", false)) == []
    ensures |ErrorEmission(shared, Err("boom", false))| == 1
    ensures |ErrorfEmissionAsWritten(shared, "x: %w", [ErrorArg(Err("boom", false))], "x: boom")| == 1
    ensures ErrorfEmission(shared, "x: %w", [ErrorArg(Err("boom", false))], "x: boom") == []
  {
    var args := [ErrorArg(Err("boom", false))];
    assert AssertsLoggedAsWritten(args[0]);
    assert !AnyLogged(args) by {
      forall i | 0 <= i < |args| ensures !IsLoggedArg(args[i]) {
        assert args[i] == ErrorArg(Err("boom", false));
      }
    }
  }

  /** Errorf emits exactly when some argument is already marked, at info
      level, with the formatted text as message and the raw format. */
  lemma ErrorfOutcome(shared: seq<Field>, format: string, args: seq<FmtArg>, rendered: string)
    ensures var out := ErrorfEmission(shared, format, args, rendered);
      && (|out| == 1 <==> exists i :: 0 <= i < |args| && args[i].ErrorArg? && args[i].err.logged)
      && (|out| == 0 <==> forall i :: 0 <= i < |args| ==> !(args[i].ErrorArg? && args[i].err.logged))
      && (out != [] ==>
            && out[0].level == InfoLevel && out[0].event == EvError
            && Lookup(out[0].fields, FMsg) == Some(Str(rendered))
            && Lookup(out[0].fields, FFmt) == Some(Str(format)))
  {
    LookupAppend(shared, [Field(FMsg, Str(rendered)), Field(FFmt, Str(format))], FMsg);
    LookupAppend(shared, [Field(FMsg, Str(rendered)), Field(FFmt, Str(format))], FFmt);
  }

  /** exit and atexit carry the same fields and code; only t_abs differs. */
  lemma ExitRecordsAgree(shared: seq<Field>, code: int, tExit: int, tAtExit: int, k: string)
    requires k != FTAbs
    ensures var r := ExitRecords(shared, code, tExit, tAtExit);
      && r[0].level == r[1].level == InfoLevel
      && Lookup(r[0].fields, k) == Lookup(r[1].fields, k)
      && Lookup(r[0].fields, FCode) == Lookup(r[1].fields, FCode) == Some(Int64(code))
      && Lookup(r[0].fields, FTAbs) == Some(Duration(tExit))
      && Lookup(r[1].fields, FTAbs) == Some(Duration(tAtExit))
  {
    var fields := shared + [Field(FCode, Int64(code))];
    LookupAppend(fields, [Field(FTAbs, Duration(tExit))], k);
    LookupAppend(fields, [Field(FTAbs, Duration(tAtExit))], k);
    LookupAppend(fields, [Field(FTAbs, Duration(tExit))], FCode);
    LookupAppend(fields, [Field(FTAbs, Duration(tAtExit))], FCode);
    LookupAppend(shared, [Field(FCode, Int64(code))], FCode);
  }

  // ---------------------------------------------------------------------
  // The records through the performance-table encoder

  /** The field types the encoder relies on, read from a field list. */
  predicate TypedFields(fs: seq<Field>) {
    && (Lookup(fs, FTAbs).Some? ==> Lookup(fs, FTAbs).value.Duration?)
    && (Lookup(fs, FTRel).Some? ==> Lookup(fs, FTRel).value.Duration?)
    && (Lookup(fs, FNesting).Some? ==> PerfEncoder.IsLevel(Lookup(fs, FNesting).value))
    && (Lookup(fs, FName).Some? ==> Lookup(fs, FName).value.Str?)
    && (Lookup(fs, FMsg).Some? ==> Lookup(fs, FMsg).value.Str?)
  }

  /** Whether a fresh encoder turns the record into a line. */
  predicate Encodes(isBrief: bool, r: Record, clock: string) {
    FreshLine(isBrief, r.fields, PerfEncoder.Entry(r.event, clock))
  }

  /** Whether a fresh encoder turns a field list and entry into a line. */
  predicate FreshLine(isBrief: bool, fs: seq<Field>, ent: PerfEncoder.Entry) {
    PerfEncoder.PerfLine(isBrief, PerfEncoder.AddFields(map[], fs), ent).Success?
  }

  /** A fresh encoder produces a line from a well-typed field list that has
      every field the checking order asks for. */
  lemma FreshEncoderLine(isBrief: bool, fs: seq<Field>, ent: PerfEncoder.Entry)
    requires TypedFields(fs)
    requires forall n :: n in PerfEncoder.CheckOrder(isBrief, ent.message) ==> Lookup(fs, n).Some?
    ensures FreshLine(isBrief, fs, ent)
  {
    var m := PerfEncoder.AddFields(map[], fs);
    forall k | Lookup(fs, k).Some?
      ensures k in m && m[k] == Lookup(fs, k).value
    {
      PerfEncoder.AddFieldsBinds(map[], fs, k);
    }
    forall k | Lookup(fs, k).None?
      ensures k !in m
    {
      PerfEncoder.AddFieldsBinds(map[], fs, k);
    }
    var order := PerfEncoder.CheckOrder(isBrief, ent.message);
    assert forall i :: 0 <= i < |order| ==> order[i] in m;
    PerfEncoder.PerfLineOutcome(isBrief, m, ent);
  }

  /** Fields of the shape sharedFields gives: nothing but the session id,
      the thread, the file and the line, with the thread present. */
  ghost predicate SharedShape(shared: seq<Field>) {
    && Lookup(shared, FThread).Some?
    && forall k :: !SharedKey(k) ==> Lookup(shared, k).None?
  }

  lemma SharedFieldsShape(ctx: Context, minted: string, caller: Option<CallSite>)
    ensures SharedShape(SharedFields(ctx, minted, caller).1)
  {
    forall k | !SharedKey(k)
      ensures Lookup(SharedFields(ctx, minted, caller).1, k).None?
    {
      SharedKeysOnly(ctx, minted, caller, k);
    }
  }

  /** Shared fields followed by an event's own fields encode whenever the
      event's own fields hold what the event requires and the mode has its
      file and line (brief mode, or a known caller). */
  lemma SharedRecordEncodes(shared: seq<Field>, extra: seq<Field>, event: string, isBrief: bool, clock: string)
    requires SharedShape(shared)
    requires isBrief || (Lookup(shared, FFile).Some? && Lookup(shared, FLine).Some?)
    requires TypedFields(extra)
    requires forall n :: n in PerfEncoder.RequiredFields(event) ==> Lookup(extra, n).Some?
    ensures FreshLine(isBrief, shared + extra, PerfEncoder.Entry(event, clock))
  {
    var fs := shared + extra;
    SharedTyped(shared, extra);
    var pre := if isBrief then [] else [FFile, FLine];
    forall n | n in PerfEncoder.CheckOrder(isBrief, event)
      ensures Lookup(fs, n).Some?
    {
      LookupAppend(shared, extra, n);
      if n !in PerfEncoder.RequiredFields(event) {
        assert n in pre + [FThread];
      }
    }
    FreshEncoderLine(isBrief, fs, PerfEncoder.Entry(event, clock));
  }

  /** Shared fields take nothing from the typing of the event's own fields. */
  lemma SharedTyped(shared: seq<Field>, extra: seq<Field>)
    requires SharedShape(shared) && TypedFields(extra)
    ensures TypedFields(shared + extra)
  {
    LookupAppend(shared, extra, FTAbs);
    LookupAppend(shared, extra, FTRel);
    LookupAppend(shared, extra, FNesting);
    LookupAppend(shared, extra, FName);
    LookupAppend(shared, extra, FMsg);
  }

  /** Without a caller, the full-mode line of any record fails on the file. */
  lemma FullModeNeedsCaller(ctx: Context, minted: string, extra: seq<Field>, event: string, clock: string)
    requires Lookup(extra, FFile).None?
    ensures PerfEncoder.PerfLine(false, PerfEncoder.AddFields(map[], SharedFields(ctx, minted, None).1 + extra),
                                 PerfEncoder.Entry(event, clock)) == Failure(PerfEncoder.MissingField(FFile))
  {
    var fs := SharedFields(ctx, minted, None).1 + extra;
    LookupAppend(SharedFields(ctx, minted, None).1, extra, FFile);
    PerfEncoder.AddFieldsBinds(map[], fs, FFile);
    PerfEncoder.FullLineExtendsBrief(PerfEncoder.AddFields(map[], fs), PerfEncoder.Entry(event, clock));
  }

  /** Shared fields a line can be built on in the given mode. */
  ghost predicate Admits(shared: seq<Field>, isBrief: bool) {
    SharedShape(shared) && (isBrief || (Lookup(shared, FFile).Some? && Lookup(shared, FLine).Some?))
  }

  /** The recorder's shared fields admit brief lines always, and full lines
      whenever runtime.Caller succeeded. */
  lemma RecorderSharedAdmits(ctx: Context, minted: string, caller: Option<CallSite>, isBrief: bool)
    requires isBrief || caller.Some?
    ensures Admits(SharedFields(ctx, minted, caller).1, isBrief)
  {
    SharedFieldsShape(ctx, minted, caller);
  }

  /** start and cmd_name records encode. */
  lemma StartCommandEncode(shared: seq<Field>, isBrief: bool, clock: string, sinceStart: int, argv: seq<string>,
                           name: string)
    requires Admits(shared, isBrief)
    ensures Encodes(isBrief, StartRecord(shared, sinceStart, argv), clock)
    ensures Encodes(isBrief, CommandRecord(shared, name), clock)
  {
    var e := [Field(FTAbs, Duration(sinceStart)), Field(FArgv, Strings(argv))];
    assert StartRecord(shared, sinceStart, argv).fields == shared + e;
    LookupDistinct(e);
    SharedRecordEncodes(shared, e, EvStart, isBrief, clock);
    LookupDistinct([Field(FName, Str(name))]);
    SharedRecordEncodes(shared, [Field(FName, Str(name))], EvCmdName, isBrief, clock);
  }

  /** A record made of shared fields and the event's own fields encodes. */
  lemma RecordEncodes(shared: seq<Field>, extra: seq<Field>, r: Record, isBrief: bool, clock: string)
    requires r.fields == shared + extra
    requires Admits(shared, isBrief) && TypedFields(extra)
    requires forall n :: n in PerfEncoder.RequiredFields(r.event) ==> Lookup(extra, n).Some?
    ensures Encodes(isBrief, r, clock)
  {
    SharedRecordEncodes(shared, extra, r.event, isBrief, clock);
  }

  /** The category and label add nothing the encoder types. */
  lemma RegionFieldsTyped(pre: seq<Field>, category: string, labelText: string)
    requires TypedFields(pre)
    ensures TypedFields(pre + RegionFields(category, labelText))
  {
    var rf := RegionFields(category, labelText);
    LookupDistinct(rf);
    assert rf[0].key == FCategory && rf[1].key == FLabel;
    LookupAppend(pre, rf, FTAbs);
    LookupAppend(pre, rf, FTRel);
    LookupAppend(pre, rf, FNesting);
    LookupAppend(pre, rf, FName);
    LookupAppend(pre, rf, FMsg);
  }

  /** region_enter records of a region with a level that is not negative
      encode. */
  lemma RegionEnterEncodes(shared: seq<Field>, isBrief: bool, clock: string, sinceStart: int, region: Region,
                           category: string, labelText: string)
    requires Admits(shared, isBrief) && region.level >= 0
    ensures Encodes(isBrief, RegionEnterRecord(WithTime(shared, sinceStart), region, category, labelText), clock)
  {
    var tAbs := Field(FTAbs, Duration(sinceStart));
    var nesting := Field(FNesting, Int64(region.level));
    var rf := RegionFields(category, labelText);
    var pre := [tAbs, nesting];
    FieldsAssoc(shared, [tAbs], [nesting]);
    assert [tAbs] + [nesting] == pre;
    FieldsAssoc(shared, pre, rf);
    LookupDistinct(pre);
    assert pre[0].key == FTAbs && pre[1].key == FNesting;
    RegionFieldsTyped(pre, category, labelText);
    RecordEncodes(shared, pre + rf, RegionEnterRecord(WithTime(shared, sinceStart), region, category, labelText),
                  isBrief, clock);
  }

  /** region_leave records of a region with a level that is not negative
      encode. */
  lemma RegionLeaveEncodes(shared: seq<Field>, isBrief: bool, clock: string, sinceStart: int, region: Region,
                           category: string, labelText: string, now: int)
    requires Admits(shared, isBrief) && region.level >= 0
    ensures Encodes(isBrief, RegionLeaveRecord(WithTime(shared, sinceStart), region, category, labelText, now), clock)
  {
    var tAbs := Field(FTAbs, Duration(sinceStart));
    var nesting := Field(FNesting, Int64(region.level));
    var tRel := Field(FTRel, Duration(now - region.tStart));
    var rf := RegionFields(category, labelText);
    var pre := [tAbs, nesting, tRel];
    FieldsAssoc(shared, [tAbs], [nesting]);
    FieldsAssoc(shared, [tAbs, nesting], [tRel]);
    assert [tAbs] + [nesting] == [tAbs, nesting];
    assert [tAbs, nesting] + [tRel] == pre;
    FieldsAssoc(shared, pre, rf);
    LookupDistinct(pre);
    assert pre[0].key == FTAbs && pre[1].key == FNesting && pre[2].key == FTRel;
    RegionFieldsTyped(pre, category, labelText);
    RecordEncodes(shared, pre + rf, RegionLeaveRecord(WithTime(shared, sinceStart), region, category, labelText, now),
                  isBrief, clock);
  }

  /** child_start records encode. */
  lemma ChildStartEncodes(shared: seq<Field>, isBrief: bool, clock: string, id: int, argv: seq<string>)
    requires Admits(shared, isBrief)
    ensures Encodes(isBrief, ChildStartRecord(shared, id, argv), clock)
  {
    var es := ChildStartFields(id, argv);
    LookupDistinct(es);
    assert es[0].key == FChildId && es[1].key == FChildClass && es[3].key == FArgv;
    RecordEncodes(shared, es, ChildStartRecord(shared, id, argv), isBrief, clock);
  }

  /** child_ready records encode. */
  lemma ChildReadyEncodes(shared: seq<Field>, isBrief: bool, clock: string, id: int, pid: int, execFailed: bool,
                          argv: seq<string>)
    requires Admits(shared, isBrief)
    ensures Encodes(isBrief, ChildReadyRecord(shared, id, pid, execFailed, argv), clock)
  {
    var er := ChildReadyFields(id, pid, execFailed, argv);
    LookupDistinct(er);
    assert er[0].key == FChildId && er[1].key == FPid && er[2].key == FReady;
    RecordEncodes(shared, er, ChildReadyRecord(shared, id, pid, execFailed, argv), isBrief, clock);
  }

  /** child_exit records encode. */
  lemma ChildExitEncodes(shared: seq<Field>, isBrief: bool, clock: string, id: int, pid: int, code: int,
                         elapsed: int)
    requires Admits(shared, isBrief)
    ensures Encodes(isBrief, ChildExitRecord(shared, id, pid, code, elapsed), clock)
  {
    var ee := ChildExitFields(id, pid, code, elapsed);
    LookupDistinct(ee);
    assert ee[0].key == FChildId && ee[1].key == FPid && ee[2].key == FCode && ee[3].key == FTRel;
    RecordEncodes(shared, ee, ChildExitRecord(shared, id, pid, code, elapsed), isBrief, clock);
  }

  /** The error records of Error and Errorf encode. */
  lemma ErrorRecordsEncode(shared: seq<Field>, isBrief: bool, clock: string, err: Err, format: string,
                           args: seq<FmtArg>, rendered: string)
    requires Admits(shared, isBrief)
    ensures forall r :: r in ErrorEmission(shared, err) ==> Encodes(isBrief, r, clock)
    ensures forall r :: r in ErrorfEmission(shared, format, args, rendered) ==> Encodes(isBrief, r, clock)
  {
    MessageRecordEncodes(shared, isBrief, clock, ErrorLevel, err.text, err.text);
    MessageRecordEncodes(shared, isBrief, clock, InfoLevel, rendered, format);
  }

  /** An error record with its message and format encodes. */
  lemma MessageRecordEncodes(shared: seq<Field>, isBrief: bool, clock: string, level: Level, msg: string,
                             format: string)
    requires Admits(shared, isBrief)
    ensures Encodes(isBrief, Record(level, EvError, shared + [Field(FMsg, Str(msg)), Field(FFmt, Str(format))]), clock)
  {
    var e := [Field(FMsg, Str(msg)), Field(FFmt, Str(format))];
    LookupDistinct(e);
    assert e[0].key == FMsg && e[1].key == FFmt;
    RecordEncodes(shared, e, Record(level, EvError, shared + e), isBrief, clock);
  }

  /** A record of the shared fields, a code and a t_abs encodes. */
  lemma CodeRecordEncodes(shared: seq<Field>, isBrief: bool, clock: string, event: string, code: int, t: int)
    requires Admits(shared, isBrief)
    requires PerfEncoder.RequiredFields(event) == [FCode]
    ensures Encodes(isBrief, Record(InfoLevel, event, WithTime(shared + [Field(FCode, Int64(code))], t)), clock)
  {
    var c := Field(FCode, Int64(code));
    var e := [c, Field(FTAbs, Duration(t))];
    FieldsAssoc(shared, [c], [Field(FTAbs, Duration(t))]);
    LookupDistinct(e);
    assert e[0].key == FCode && e[1].key == FTAbs;
    RecordEncodes(shared, e, Record(InfoLevel, event, WithTime(shared + [c], t)), isBrief, clock);
  }

  /** The exit and atexit records encode. */
  lemma ExitRecordsEncode(shared: seq<Field>, isBrief: bool, clock: string, code: int, tExit: int, tAtExit: int)
    requires Admits(shared, isBrief)
    ensures forall r :: r in ExitRecords(shared, code, tExit, tAtExit) ==> Encodes(isBrief, r, clock)
  {
    var fields := shared + [Field(FCode, Int64(code))];
    var r0 := Record(InfoLevel, EvExit, WithTime(fields, tExit));
    var r1 := Record(InfoLevel, EvAtExit, WithTime(fields, tAtExit));
    assert ExitRecords(shared, code, tExit, tAtExit) == [r0, r1];
    CodeRecordEncodes(shared, isBrief, clock, EvExit, code, tExit);
    CodeRecordEncodes(shared, isBrief, clock, EvAtExit, code, tAtExit);
  }

  /** The nesting assertion as written rejects every region record the
      recorder emits, since zap.Int stores the level as a 64-bit integer;
      the corrected prefix gives one dot per level. */
  lemma RegionLinesPanicAsWritten(timed: seq<Field>, region: Region, category: string, labelText: string)
    requires region.level >= 0
    ensures var m := PerfEncoder.AddFields(map[], RegionEnterRecord(timed, region, category, labelText).fields);
      && PerfEncoder.NestingDotsAsWritten(m) == Failure(PerfEncoder.Panicked(FNesting))
      && PerfEncoder.NestingDots(m) == Success(Text.Repeat('.', region.level))
  {
    var fs := RegionEnterRecord(timed, region, category, labelText).fields;
    var rf := RegionFields(category, labelText);
    LookupDistinct(rf);
    assert rf[0].key == FCategory && rf[1].key == FLabel;
    LookupAppend(WithNesting(timed, region, false, 0), rf, FNesting);
    PerfEncoder.AddFieldsBinds(map[], fs, FNesting);
  }

  // ---------------------------------------------------------------------
  // The child-process counter

  const MinInt32: int := -0x8000_0000
  const MaxInt32: int := 0x7fff_ffff

  /** atomic.AddInt32: the sum, wrapped into the 32-bit range. */
  function AddInt32(a: int, b: int): (r: int)
    requires MinInt32 <= a <= MaxInt32 && MinInt32 <= b <= MaxInt32
    ensures MinInt32 <= r <= MaxInt32
    ensures (r - (a + b)) % 0x1_0000_0000 == 0
    ensures MinInt32 <= a + b <= MaxInt32 ==> r == a + b
  {
    if a + b > MaxInt32 then a + b - 0x1_0000_0000
    else if a + b < MinInt32 then a + b + 0x1_0000_0000
    else a + b
  }

  /** The counter after `n` spawns, from its initial -1. */
  function CounterAfter(n: nat): (r: int)
    ensures MinInt32 <= r <= MaxInt32
  {
    if n == 0 then -1 else AddInt32(CounterAfter(n - 1), 1)
  }

  /** The first 2^31 spawns get the ids 0, 1, 2, ... in order. */
  lemma {:induction false} CounterCounts(n: nat)
    requires n <= 0x8000_0000
    ensures CounterAfter(n) == n - 1
  {
    if n > 0 {
      CounterCounts(n - 1);
    }
  }

  /** The ids a recorder has handed out, when they are the counter's
      successive values: the first 2^31 are distinct and increasing. */
  lemma ChildIdsIncrease(ids: seq<int>)
    requires |ids| <= 0x8000_0000
    requires forall i :: 0 <= i < |ids| ==> ids[i] == CounterAfter(i + 1)
    ensures forall i :: 0 <= i < |ids| ==> ids[i] == i
    ensures forall i, j :: 0 <= i < j < |ids| ==> ids[i] < ids[j]
  {
    forall i | 0 <= i < |ids|
      ensures ids[i] == i
    {
      CounterCounts(i + 1);
    }
  }

  // ---------------------------------------------------------------------
  // The recorder

  /** What the region_leave closure captures. */
  datatype RegionLeave = RegionLeave(timed: seq<Field>, region: Region, category: string, labelText: string)

  /** What the child_ready and child_exit closures capture. */
  datatype ChildHandle = ChildHandle(shared: seq<Field>, id: int, argv: seq<string>, startTime: int)

  /** A finished child's process state: its pid and exit code. */
  datatype ProcessState = ProcessState(pid: int, exitCode: int)

  class Tracer {
    /** The last child id handed out; a 32-bit integer. */
    var lastChildId: int
    /** Every record handed to the logger, in order. */
    ghost var log: seq<Record>
    /** Every child id handed out, in order. */
    ghost var childIds: seq<int>

    ghost predicate Valid()
      reads this
    {
      && lastChildId == CounterAfter(|childIds|)
      && forall i :: 0 <= i < |childIds| ==> childIds[i] == CounterAfter(i + 1)
    }

    /** NewTrace2. */
    constructor ()
      ensures Valid() && lastChildId == -1 && log == [] && childIds == []
    {
      lastChildId := -1;
      log := [];
      childIds := [];
    }

    /** logStart: start with t_abs and argv; returns the context holding the
        session id. */
    method LogStart(ctx: Context, minted: string, caller: Option<CallSite>, sinceStart: int, argv: seq<string>)
      returns (ctx': Context)
      modifies this
      ensures ctx' == SharedFields(ctx, minted, caller).0
      ensures log == old(log) + [StartRecord(SharedFields(ctx, minted, caller).1, sinceStart, argv)]
      ensures lastChildId == old(lastChildId) && childIds == old(childIds)
    {
      var shared;
      ctx', shared := SharedFields(ctx, minted, caller).0, SharedFields(ctx, minted, caller).1;
      log := log + [StartRecord(shared, sinceStart, argv)];
    }

    /** LogCommand: cmd_name with the command's name. */
    method LogCommand(ctx: Context, name: string, minted: string, caller: Option<CallSite>)
      returns (ctx': Context)
      modifies this
      ensures ctx' == SharedFields(ctx, minted, caller).0
      ensures log == old(log) + [CommandRecord(SharedFields(ctx, minted, caller).1, name)]
      ensures lastChildId == old(lastChildId) && childIds == old(childIds)
    {
      var shared;
      ctx', shared := SharedFields(ctx, minted, caller).0, SharedFields(ctx, minted, caller).1;
      log := log + [CommandRecord(shared, name)];
    }

    /** Region: enters a region below the context's innermost one, bound in
        the returned context only, emits region_enter and returns what the
        leave closure needs. */
    method Region(ctx: Context, category: string, labelText: string, minted: string, caller: Option<CallSite>,
                  sinceStart: int, tStart: int)
      returns (ctx': Context, leave: RegionLeave)
      modifies this
      ensures var c := SharedFields(ctx, minted, caller).0;
        ctx' == EnterRegion(c, tStart).0 && leave.region == EnterRegion(c, tStart).1
      ensures leave == RegionLeave(WithTime(SharedFields(ctx, minted, caller).1, sinceStart), leave.region,
                                   category, labelText)
      ensures log == old(log) + [RegionEnterRecord(leave.timed, leave.region, category, labelText)]
      ensures lastChildId == old(lastChildId) && childIds == old(childIds)
    {
      var c, shared := SharedFields(ctx, minted, caller).0, SharedFields(ctx, minted, caller).1;
      var timed := WithTime(shared, sinceStart);
      var region;
      ctx', region := EnterRegion(c, tStart).0, EnterRegion(c, tStart).1;
      leave := RegionLeave(timed, region, category, labelText);
      log := log + [RegionEnterRecord(timed, region, category, labelText)];
    }

    /** The leave closure of Region, called at clock reading `now`. */
    method Leave(leave: RegionLeave, now: int)
      modifies this
      ensures log == old(log) + [RegionLeaveRecord(leave.timed, leave.region, leave.category, leave.labelText, now)]
      ensures lastChildId == old(lastChildId) && childIds == old(childIds)
    {
      log := log + [RegionLeaveRecord(leave.timed, leave.region, leave.category, leave.labelText, now)];
    }

    /** ChildProcess: takes the next child id and emits child_start. */
    method ChildProcess(ctx: Context, argv: seq<string>, minted: string, caller: Option<CallSite>, startTime: int)
      returns (h: ChildHandle)
      requires Valid()
      modifies this
      ensures Valid()
      ensures lastChildId == AddInt32(old(lastChildId), 1) && h.id == lastChildId
      ensures childIds == old(childIds) + [h.id]
      ensures h == ChildHandle(SharedFields(ctx, minted, caller).1, h.id, argv, startTime)
      ensures log == old(log) + [ChildStartRecord(h.shared, h.id, argv)]
    {
      var shared := SharedFields(ctx, minted, caller).1;
      lastChildId := AddInt32(lastChildId, 1);
      childIds := childIds + [lastChildId];
      h := ChildHandle(shared, lastChildId, argv, startTime);
      log := log + [ChildStartRecord(shared, h.id, argv)];
    }

    /** The ready closure: `execFailed` says whether the start returned an
        error, `pid` is the started process's id; without a process the Go
        code dereferences nil and panics, and nothing is emitted. */
    method ChildReady(h: ChildHandle, execFailed: bool, pid: Option<int>) returns (panicked: bool)
      modifies this
      ensures panicked <==> pid.None?
      ensures log == old(log) + (if pid.Some? then [ChildReadyRecord(h.shared, h.id, pid.value, execFailed, h.argv)] else [])
      ensures lastChildId == old(lastChildId) && childIds == old(childIds)
    {
      if pid.None? {
        return true;
      }
      log := log + [ChildReadyRecord(h.shared, h.id, pid.value, execFailed, h.argv)];
      return false;
    }

    /** The exit closure at clock reading `now`; without a process state the
        Go code panics on its pid, and nothing is emitted. */
    method ChildExit(h: ChildHandle, state: Option<ProcessState>, now: int) returns (panicked: bool)
      modifies this
      ensures panicked <==> state.None?
      ensures log == old(log) + (if state.Some?
        then [ChildExitRecord(h.shared, h.id, state.value.pid, state.value.exitCode, now - h.startTime)] else [])
      ensures lastChildId == old(lastChildId) && childIds == old(childIds)
    {
      match state {
        case None => return true;
        case Some(st) =>
          log := log + [ChildExitRecord(h.shared, h.id, st.pid, st.exitCode, now - h.startTime)];
          return false;
      }
    }

    /** Error: emits unless the error is already marked, and returns it
        marked. */
    method Error(ctx: Context, err: Err, minted: string, caller: Option<CallSite>) returns (r: Err)
      modifies this
      ensures r == MarkLogged(err)
      ensures log == old(log) + ErrorEmission(SharedFields(ctx, minted, caller).1, err)
      ensures lastChildId == old(lastChildId) && childIds == old(childIds)
    {
      if !err.logged {
        var shared := SharedFields(ctx, minted, caller).1;
        log := log + [Record(ErrorLevel, EvError, shared + [Field(FMsg, Str(err.text)), Field(FFmt, Str(err.text))])];
      }
      r := MarkLogged(err);
    }

    /** Errorf: `rendered` is what fmt.Errorf makes of the format and the
        arguments; the result is marked, and an error event is emitted when
        some argument was already marked. */
    method Errorf(ctx: Context, format: string, args: seq<FmtArg>, rendered: string, minted: string,
                  caller: Option<CallSite>) returns (r: Err)
      modifies this
      ensures r == Err(rendered, true)
      ensures log == old(log) + ErrorfEmission(SharedFields(ctx, minted, caller).1, format, args, rendered)
      ensures lastChildId == old(lastChildId) && childIds == old(childIds)
    {
      var isLogged := false;
      var i := 0;
      while i < |args|
        invariant 0 <= i <= |args|
        invariant !isLogged
        invariant forall j :: 0 <= j < i ==> !IsLoggedArg(args[j])
      {
        if IsLoggedArg(args[i]) {
          isLogged := true;
          break;
        }
        i := i + 1;
      }
      r := Err(rendered, true);
      if isLogged {
        var shared := SharedFields(ctx, minted, caller).1;
        log := log + [Record(InfoLevel, EvError, shared + [Field(FMsg, Str(rendered)), Field(FFmt, Str(format))])];
      }
    }

    /** Exit: exit and atexit with the code (at clock readings `tExit` and
        `tAtExit`); the returned status is what os.Exit receives. */
    method Exit(ctx: Context, code: int, minted: string, caller: Option<CallSite>, tExit: int, tAtExit: int)
      returns (status: int)
      modifies this
      ensures status == code
      ensures log == old(log) + ExitRecords(SharedFields(ctx, minted, caller).1, code, tExit, tAtExit)
      ensures lastChildId == old(lastChildId) && childIds == old(childIds)
    {
      var shared := SharedFields(ctx, minted, caller).1;
      log := log + ExitRecords(shared, code, tExit, tAtExit);
      status := code;
    }

    /** Fatal: Exit with status 1; the error is not recorded. */
    method Fatal(ctx: Context, err: Err, minted: string, caller: Option<CallSite>, tExit: int, tAtExit: int)
      returns (status: int)
      modifies this
      ensures status == 1
      ensures log == old(log) + ExitRecords(SharedFields(ctx, minted, caller).1, 1, tExit, tAtExit)
      ensures lastChildId == old(lastChildId) && childIds == old(childIds)
    {
      status := Exit(ctx, 1, minted, caller, tExit, tAtExit);
    }

    /** Fatalf: Exit with status 1; the format and arguments are not used. */
    method Fatalf(ctx: Context, format: string, args: seq<FmtArg>, minted: string, caller: Option<CallSite>,
                  tExit: int, tAtExit: int)
      returns (status: int)
      modifies this
      ensures status == 1
      ensures log == old(log) + ExitRecords(SharedFields(ctx, minted, caller).1, 1, tExit, tAtExit)
      ensures lastChildId == old(lastChildId) && childIds == old(childIds)
    {
      status := Exit(ctx, 1, minted, caller, tExit, tAtExit);
    }
  }

  // ---------------------------------------------------------------------
  // A session

  /** A command's trace from a fresh recorder: start, cmd_name, then exit
      and atexit, each carrying the one session id that the first call put
      in the context, whatever ids uuid.New offers later. */
  method CommandSession(ctx: Context, argv: seq<string>, name: string, code: int, m1: string, m2: string,
                        m3: string, caller: Option<CallSite>, t0: int, t1: int, t2: int)
    returns (t: Tracer, status: int)
    ensures fresh(t) && status == code && |t.log| == 4
    ensures t.log[0].event == EvStart && t.log[1].event == EvCmdName
    ensures t.log[2].event == EvExit && t.log[3].event == EvAtExit
    ensures forall i :: 0 <= i < 4 ==> Lookup(t.log[i].fields, FSid) == Some(Str(GetOrSetSid(ctx, m1).1))
  {
    t := new Tracer();
    var c1 := t.LogStart(ctx, m1, caller, t0, argv);
    var c2 := t.LogCommand(c1, name, m2, caller);
    status := t.Exit(c2, code, m3, caller, t1, t2);
    SessionSids(ctx, m1, m2, m3, caller);
    SessionRecords(SharedFields(ctx, m1, caller).1, SharedFields(c1, m2, caller).1,
                   SharedFields(c1, m3, caller).1, GetOrSetSid(ctx, m1).1, argv, name, code, t0, t1, t2);
  }

  /** Once the first call has bound the session id, the later calls keep
      the context and read back the same id. */
  lemma SessionSids(ctx: Context, m1: string, m2: string, m3: string, caller: Option<CallSite>)
    ensures var c1 := SharedFields(ctx, m1, caller).0;
      var sid := GetOrSetSid(ctx, m1).1;
      && SharedFields(c1, m2, caller).0 == c1
      && Lookup(SharedFields(ctx, m1, caller).1, FSid) == Some(Str(sid))
      && Lookup(SharedFields(c1, m2, caller).1, FSid) == Some(Str(sid))
      && Lookup(SharedFields(c1, m3, caller).1, FSid) == Some(Str(sid))
  {
    GetOrSetStable(ctx, SidKey, SidValue(m1), SidValue(m2));
    GetOrSetStable(ctx, SidKey, SidValue(m1), SidValue(m3));
  }

  /** The records of a session keep the session id of the shared fields
      they were built from. */
  lemma SessionRecords(s1: seq<Field>, s2: seq<Field>, s3: seq<Field>, sid: string, argv: seq<string>,
                       name: string, code: int, t0: int, t1: int, t2: int)
    requires Lookup(s1, FSid) == Lookup(s2, FSid) == Lookup(s3, FSid) == Some(Str(sid))
    ensures Lookup(StartRecord(s1, t0, argv).fields, FSid) == Some(Str(sid))
    ensures Lookup(CommandRecord(s2, name).fields, FSid) == Some(Str(sid))
    ensures forall r :: r in ExitRecords(s3, code, t1, t2) ==> Lookup(r.fields, FSid) == Some(Str(sid))
  {
    LookupAppend(s1, [Field(FTAbs, Duration(t0))], FSid);
    LookupAppend(WithTime(s1, t0), [Field(FArgv, Strings(argv))], FSid);
    LookupAppend(s2, [Field(FName, Str(name))], FSid);
    var fields := s3 + [Field(FCode, Int64(code))];
    LookupAppend(s3, [Field(FCode, Int64(code))], FSid);
    LookupAppend(fields, [Field(FTAbs, Duration(t1))], FSid);
    LookupAppend(fields, [Field(FTAbs, Duration(t2))], FSid);
  }
}
