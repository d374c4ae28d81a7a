# git-bundle-server trace2 instrumentation and route handling, in Dafny

This project models the Git Trace2 instrumentation of git-bundle-server and
proves properties of the model. It also models the small string routines
around it: web-server route parsing, the web server's option checks,
clone-URL route derivation in `init`, and the tests' `BoolArg` helper.

- `perf_encoder.dfy` (module `PerfEncoder`): the performance-table encoder.
  - A class `Tr2PerfEncoder` holds the map of every field it has been handed, plus its `isBrief` flag.
  - `EncodeEntry` fills that map in place with a loop, then appends column after column.
  - It is proved to produce exactly `PerfLine`, a specification of the line as a function of the map and the entry.
  - Lemmas about `PerfLine` cover:
    - which missing field fails the line, and in what checking order;
    - the column offsets and the `file:line` elision;
    - the summaries, the nesting dots and the closing newline;
    - fields that persist from one entry to the next.
- `trace2.dfy` (module `Trace2`): the recorder.
  - The shared fields and the records each operation hands to the logger.
  - A class `Tracer` with the `lastChildId` counter, a ghost log of records, and the ids handed out.
  - The closures returned by `Region` and `ChildProcess` become the methods `Leave`, `ChildReady` and `ChildExit`. They take the captured values as a datatype.
  - Lemmas relate the records to one another: the same session id, the same child id, region enter vs. leave, exit vs. atexit.
  - Further lemmas show every record the recorder emits is accepted by a fresh encoder, under the corrected nesting reading (see Findings).
- `tr2_context.dfy` (module `Tr2Context`): the context chain as an immutable datatype.
  - Covers getContextValue, getOrSetContextValue and region entry.
  - Proves that a lineage binds its session id at most once and that region levels count the enclosing regions.
- `tr2_sink.dfy` (module `Tr2Sink`): the choice of output sink from the environment value.
- `tr2_names.dfy`: the event and field names.
- `zap_fields.dfy` (module `ZapFields`): the field values zap stores, and how they are printed:
  - Go's `%s` and `%d`;
  - `time.Duration`;
  - `json.Marshal` of strings, with a proved escape/unescape round trip.
- `strconv.dfy`: `%d` and `strconv.Atoi`, with a round-trip lemma.
- `text.dfy`: padding, truncation and repetition as Go's fmt verbs do them.
- `web_server.dfy` (module `WebServer`): `parseRoute` and the `strings.FieldsFunc` split, the default file, and the port and certificate checks.
- `init_route.dfy` (module `InitRoute`): the route `init` derives from a clone URL.
  - The regular expression is a declarative split predicate.
  - The greedy `.*` is shown to have no choice to make: the match is unique.
- `test_helpers.dfy` (module `TestHelpers`): `BoolArg.ToBoolList`.

These values become inputs, since they come from outside the code modelled:
- the clock readings;
- the ids `uuid.New` would make;
- the call site `runtime.Caller` reports;
- whether a path names a directory;
- a child's pid and exit state;
- the text `fmt.Errorf` renders.

## Model

| member | source | states |
|---|---|---|
| PerfEncoder.GetField | internal/log/tr2-perf-encoder.go:45-48 | a field is found exactly when the map binds its name, and then it is the bound value |
| PerfEncoder.GetRequiredField | internal/log/tr2-perf-encoder.go:50-58 | fails exactly when the name is unbound, with the text `missing required field '<name>'`; otherwise gives the bound value |
| PerfEncoder.FirstMissing | internal/log/tr2-perf-encoder.go:159-185 | none is missing exactly when every name is bound; a reported name is unbound, is one of those checked, and every name checked before it is bound |
| PerfEncoder.EventLogOutcome | internal/log/tr2-perf-encoder.go:60-144 | for well-typed fields, the summary fails on the first absent required field of the event (cmd_name: name; child_start: child_id, child_class, argv; child_ready: child_id, pid, ready; child_exit: child_id, pid, code; exit/atexit: code), and succeeds once all are present; every other event requires nothing |
| PerfEncoder.ChildReadySummary | internal/log/tr2-perf-encoder.go:95-107 | a child_ready summary reads `[ch3] pid:42 ready:error` |
| PerfEncoder.ChildExitSummary | internal/log/tr2-perf-encoder.go:109-121 | a child_exit summary reads `[ch3] pid:42 code:0` |
| PerfEncoder.OtherSummaries | internal/log/tr2-perf-encoder.go:69-142 | exit codes print as `code:1`; a region label as `label:fetch`, or nothing without one; an error as its message, or nothing without one; start has no summary |
| PerfEncoder.PerfLineOutcome | internal/log/tr2-perf-encoder.go:159-221 | a line is refused with `missing required field '<f>'` exactly when f is the first absent name in the order file, line (full mode only), thread, then the event's own fields; otherwise it is produced |
| PerfEncoder.FullLineExtendsBrief | internal/log/tr2-perf-encoder.go:159-177 | the brief line is the body alone; the full line checks file, then line, and puts the clock and the file:line column in front of the same body |
| PerfEncoder.FileLineColumnShape | internal/log/tr2-perf-encoder.go:172-176 | `file:line` whose UTF-8 encoding is longer than 28 bytes keeps its length with its last three characters turned into `...`; one of at most 28 bytes is kept whole; either is padded with blanks to 28 characters, and the column ends in a blank, a bar and a blank |
| PerfEncoder.ElidedColumn | internal/log/tr2-perf-encoder.go:173-176 | the same shape for any `file:line` text |
| PerfEncoder.ElisionCountsBytes | internal/log/tr2-perf-encoder.go:173-174 | the length test counts bytes: thirteen two-byte letters and `.go:12` (19 characters, 32 bytes) are elided to end in `.go...` |
| PerfEncoder.AsciiTailCut | internal/log/tr2-perf-encoder.go:174 | when the last three characters are ASCII, cutting three characters removes exactly three bytes, as Go's `fl[:len(fl)-3]` does |
| PerfEncoder.ElideInPlace | internal/log/tr2-perf-encoder.go:172-175 | the text is cut in place exactly as ElideFileLine specifies, whose column shape ElidedColumn states |
| PerfEncoder.ColumnOffsets | internal/log/tr2-perf-encoder.go:180-224 | with columns of the standard widths, each literal and column sits at a fixed offset, and the dots and summary start at offset 92 |
| PerfEncoder.BriefColumns | internal/log/tr2-perf-encoder.go:180-222 | a brief line is the depth marker `d0`, the thread's `%s` text padded to 24, the event padded to 12, the empty repository slot, the two times (9 blanks when absent), the category's `%s` text truncated and padded to exactly 12, then the dots and the summary; exact for string and duration values, the only kinds the recorder writes there |
| PerfEncoder.NestingDots | internal/log/tr2-perf-encoder.go:215-217 | no nesting gives no dots; a level gives exactly that many `.`; a value that is not a level is a panic (corrected reading, see Findings) |
| PerfEncoder.BodyEnding | internal/log/tr2-perf-encoder.go:180-224 | the body ends in a newline, and in exactly one unless the summary ends in one |
| PerfEncoder.ColumnsEnding | internal/log/tr2-perf-encoder.go:208-224 | the assembled columns end in one newline after the summary, the dots or the category column |
| PerfEncoder.LineEnding | internal/log/tr2-perf-encoder.go:159-225 | every produced line ends in a newline, and in exactly one unless the summary ends in one |
| PerfEncoder.AddFieldsBinds | internal/log/tr2-perf-encoder.go:153-155 | after a field list is added, a key is bound exactly when it was bound before or the list has it; it is bound to the list's last value for it if any, else to its old value; nothing is removed |
| PerfEncoder.StaleFieldSatisfiesLaterEntry | internal/log/tr2-perf-encoder.go:153-155 | a pid left by an earlier child_ready entry lets a later child_exit without a pid through, which a fresh encoder refuses with `missing required field 'pid'` |
| PerfEncoder.ChildExitOutcome | internal/log/tr2-perf-encoder.go:109-121 | a brief child_exit with thread, child id and code fails on the pid exactly when the map lacks one |
| PerfEncoder.NestingAssertionPanics | internal/log/tr2-perf-encoder.go:215-217 | the `val.(int)` as written panics on the 64-bit level zap.Int stores, while the corrected prefix gives one dot per level |
| PerfEncoder.Tr2PerfEncoder.constructor | internal/log/tr2-perf-encoder.go:29-35 | a new encoder has an empty map and the given brief flag |
| PerfEncoder.Tr2PerfEncoder.Clone | internal/log/tr2-perf-encoder.go:37-43 | a clone is a fresh encoder with an empty map and the same brief flag |
| PerfEncoder.Tr2PerfEncoder.EncodeEntry | internal/log/tr2-perf-encoder.go:146-226 | the map becomes the old map with the entry's fields added in order, and the result is exactly the line (or the error) PerfLine gives for that map |
| Trace2.TrimTrailingSlashes | internal/log/trace2.go:229 | the path with its trailing slashes removed, and only those |
| Trace2.AfterLastSlash | internal/log/trace2.go:229 | the slash-free suffix that follows the last slash |
| Trace2.Base | internal/log/trace2.go:229 | filepath.Base is never empty, and is `/` or free of slashes |
| Trace2.BaseOfJoin | internal/log/trace2.go:229 | the base of `dir/name` and of `name` is `name` for a slash-free name |
| Trace2.CallerFields | internal/log/trace2.go:226-232 | no fields when runtime.Caller fails; otherwise the file's base name and the line |
| Trace2.SharedFields | internal/log/trace2.go:210-235 | the context with the session id ensured, and fields binding that session id, the thread `main`, and the caller's file and line when known (absent otherwise) |
| Trace2.SharedKeysOnly | internal/log/trace2.go:210-235 | the shared fields bind no other key |
| Trace2.WithTime | internal/log/trace2.go:166-168 | appends one field, t_abs, with the time since start |
| Trace2.WithNesting | internal/log/trace2.go:170-176 | appends the region's level, and t_rel (now minus the region's start) only on request |
| Trace2.ExitRecords | internal/log/trace2.go:247-256 | logExit emits two records: exit, then atexit |
| Trace2.MarkLogged | internal/log/trace2.go:347 | the marked error keeps its text and is marked |
| Trace2.RegionRecordsAgree | internal/log/trace2.go:275-283 | region_enter and region_leave agree on every field but t_rel (session id, thread, file, line, t_abs, nesting, category, label); only leave has t_rel, the time since the region started |
| Trace2.TimedHasNoTRel | internal/log/trace2.go:259-260 | the fields a region captures have no t_rel |
| Trace2.ChildRecordsAgree | internal/log/trace2.go:286-319 | child_start, child_ready and child_exit carry the same child id and shared fields; ready and exit carry the pid; ready is `error` exactly when the start failed, else `ready` |
| Trace2.ChildStartLookups | internal/log/trace2.go:292-297 | child_start carries the child id and the shared fields |
| Trace2.ChildReadyLookups | internal/log/trace2.go:299-310 | child_ready carries the child id, the shared fields, the pid and the ready state |
| Trace2.ChildExitLookups | internal/log/trace2.go:312-319 | child_exit carries the child id, the shared fields and the pid |
| Trace2.ErrorOnce | internal/log/trace2.go:338-348 | Error emits one error-level record (msg = fmt = the error's text) exactly when the error is not marked, and nothing for the error it returns; marking is idempotent (marker reading, see Findings) |
| Trace2.MarkerTestAsWritten | internal/log/trace2.go:341-364 | as written, Error emits nothing for any error, and Errorf emits exactly when some argument is an error |
| Trace2.MarkerReadingsDiffer | internal/log/trace2.go:341-364 | on an unmarked error `boom`, the as-written Error is silent where the marker reading emits, and the as-written Errorf emits where the marker reading does not |
| Trace2.ErrorfOutcome | internal/log/trace2.go:350-370 | Errorf emits exactly when some argument is a marked error, at info level, with the rendered text as msg and the raw format as fmt (marker reading, see Findings) |
| Trace2.ExitRecordsAgree | internal/log/trace2.go:247-256 | exit and atexit are info records with the same fields and code; only t_abs differs |
| Trace2.FreshEncoderLine | internal/log/tr2-perf-encoder.go:146-226 | a fresh encoder, under the corrected nesting reading, produces a line from well-typed fields holding every field the checking order asks for |
| Trace2.SharedFieldsShape | internal/log/trace2.go:210-235 | the shared fields hold the thread and nothing but session id, thread, file and line |
| Trace2.SharedRecordEncodes | internal/log/trace2.go:210-235 | on a fresh encoder, shared fields plus an event's own required fields encode, in brief mode always and in full mode when the caller is known |
| Trace2.SharedTyped | internal/log/trace2.go:210-235 | shared fields add nothing to the typing of the event's own fields |
| Trace2.FullModeNeedsCaller | internal/log/trace2.go:226-232 | when runtime.Caller fails, every full-mode line on a fresh encoder fails with `missing required field 'file'`; a `file` left in the map by an earlier entry would let it through |
| Trace2.RecorderSharedAdmits | internal/log/trace2.go:226-232 | the recorder's shared fields admit brief lines always, and full lines when the caller is known |
| Trace2.StartCommandEncode | internal/log/trace2.go:237-245 | start and cmd_name records encode on a fresh encoder |
| Trace2.RegionFieldsTyped | internal/log/trace2.go:275-278 | category and label add nothing the encoder types |
| Trace2.RegionEnterEncodes | internal/log/trace2.go:280 | region_enter records encode on a fresh encoder, under the corrected nesting reading |
| Trace2.RegionLeaveEncodes | internal/log/trace2.go:281-283 | region_leave records, with their t_rel, encode on a fresh encoder, under the corrected nesting reading |
| Trace2.ChildStartEncodes | internal/log/trace2.go:292-297 | child_start records encode on a fresh encoder |
| Trace2.ChildReadyEncodes | internal/log/trace2.go:299-310 | child_ready records encode on a fresh encoder |
| Trace2.ChildExitEncodes | internal/log/trace2.go:312-319 | child_exit records encode on a fresh encoder |
| Trace2.ErrorRecordsEncode | internal/log/trace2.go:338-370 | every record Error or Errorf emits encodes on a fresh encoder |
| Trace2.MessageRecordEncodes | internal/log/trace2.go:343-345 | an error record with msg and fmt encodes on a fresh encoder, at any level |
| Trace2.CodeRecordEncodes | internal/log/trace2.go:249-253 | a record with the shared fields, a code and t_abs encodes on a fresh encoder for an event requiring only the code |
| Trace2.ExitRecordsEncode | internal/log/trace2.go:247-256 | exit and atexit records encode on a fresh encoder |
| Trace2.RegionLinesPanicAsWritten | internal/log/trace2.go:280 | every region_enter record the recorder emits makes the nesting assertion as written panic, while the corrected prefix gives one dot per level |
| Trace2.AddInt32 | internal/log/trace2.go:291 | atomic.AddInt32: the sum wrapped into the 32-bit range, equal to the sum when it fits |
| Trace2.CounterAfter | internal/log/trace2.go:160 | the counter after n spawns, from -1, stays in the 32-bit range |
| Trace2.CounterCounts | internal/log/trace2.go:291 | for the first 2^31 spawns the counter is n - 1 |
| Trace2.ChildIdsIncrease | internal/log/trace2.go:291 | successive child ids are 0, 1, 2, ..., distinct and increasing |
| Trace2.Tracer.constructor | internal/log/trace2.go:157-162 | a new recorder has counter -1, no ids and an empty log |
| Trace2.Tracer.LogStart | internal/log/trace2.go:237-245 | appends start with the shared fields, t_abs and argv, and returns the context holding the session id |
| Trace2.Tracer.LogCommand | internal/log/trace2.go:330-336 | appends cmd_name with the name, and returns the context holding the session id |
| Trace2.Tracer.Region | internal/log/trace2.go:258-284 | enters a region below the context's innermost one, bound only in the returned context; appends region_enter; returns what the leave closure captured |
| Trace2.Tracer.Leave | internal/log/trace2.go:281-283 | appends region_leave from the captured fields and region |
| Trace2.Tracer.ChildProcess | internal/log/trace2.go:286-297 | bumps the counter by one (32-bit), uses the new value as the child id, records it, and appends child_start |
| Trace2.Tracer.ChildReady | internal/log/trace2.go:299-310 | appends child_ready for a started process; with no process the Go code panics and nothing is appended |
| Trace2.Tracer.ChildExit | internal/log/trace2.go:312-319 | appends child_exit with pid, code and elapsed time; with no process state it panics and nothing is appended |
| Trace2.Tracer.Error | internal/log/trace2.go:338-348 | appends what ErrorEmission gives and returns the error marked (marker reading, see Findings) |
| Trace2.Tracer.Errorf | internal/log/trace2.go:350-370 | scans the arguments for a marked error, appends what ErrorfEmission gives, and returns the rendered error marked (marker reading, see Findings) |
| Trace2.Tracer.Exit | internal/log/trace2.go:372-375 | appends exit and atexit with the code and returns the code as the exit status |
| Trace2.Tracer.Fatal | internal/log/trace2.go:377-379 | exits with status 1; the error is not recorded |
| Trace2.Tracer.Fatalf | internal/log/trace2.go:381-383 | exits with status 1; the format is not used |
| Trace2.CommandSession | internal/log/trace2.go:237-256 | start, cmd_name, exit and atexit, in that order, all carry the session id the first call bound |
| Trace2.SessionSids | internal/log/trace2.go:210-235 | after the first call binds the session id, later calls keep the context and their shared fields carry that same id |
| Trace2.SessionRecords | internal/log/trace2.go:214-253 | start, cmd_name, exit and atexit keep the session id of their shared fields |
| Tr2Context.Value | internal/log/trace2.go:188 | ctx.Value finds nothing exactly when the key was never bound |
| Tr2Context.GetContextValue | internal/log/trace2.go:182-193 | the nearest binding, when it has the expected type; nothing otherwise |
| Tr2Context.GetOrSetContextValue | internal/log/trace2.go:195-208 | the returned context answers the key with the returned value, of the expected type |
| Tr2Context.GetOrSetStable | internal/log/trace2.go:195-208 | a bound key returns the same context and value whatever the factory offers; a second call returns what the first did; an unbound key gives the fresh value in an extended context |
| Tr2Context.GetOrSetSid | internal/log/trace2.go:214 | the returned context holds the returned session id |
| Tr2Context.GetRegion | internal/log/trace2.go:263 | the innermost region, present exactly when one of the right type is bound |
| Tr2Context.EnterRegion | internal/log/trace2.go:263-273 | the new region is bound only in a new context extending the old, with the given start time |
| Tr2Context.WellNestedLookup | internal/log/trace2.go:263-273 | in a well-nested context the innermost level is the number of enclosing regions minus one |
| Tr2Context.EnterRegionLevel | internal/log/trace2.go:263-273 | entering gives level 0 with no region, else the parent's level + 1; the context stays well nested |
| Tr2Context.GetOrSetSidOnce | internal/log/trace2.go:214 | ensuring the session id never adds a second one, and returns the same context when one exists |
| Tr2Context.LineageInvariant | internal/log/trace2.go:195-273 | along any lineage of recorder steps, at most one session id is bound and levels count the enclosing regions |
| Tr2Context.SidNeverReassigned | internal/log/trace2.go:195-215 | once a lineage has a session id, later steps keep it |
| Tr2Sink.GeneratedName | internal/log/trace2.go:104 | `trace2_<start time>.txt`, a bare name |
| Tr2Sink.WriteSyncer | internal/log/trace2.go:88-120 | stderr exactly for the integer 1; discard for the empty value or any other integer; otherwise a file: the generated name when the value is a directory, else the path itself with its parents created |
| Tr2Sink.IntegerValues | internal/log/trace2.go:92-97 | the decimal text of any 64-bit integer gives stderr for 1 and discard otherwise |
| Tr2Sink.PathValues | internal/log/trace2.go:98-110 | a value with a character that is no digit or sign gives a file |
| Tr2Sink.OutOfRangeNumeral | internal/log/trace2.go:92-110 | a numeral beyond 64 bits is taken as a file name |
| Tr2Sink.SampleValues | internal/log/trace2.go:88-120 | `1`, `+1`, `01` give stderr; `0` and the empty value discard; a directory gives the generated name; a path gives itself |
| Strconv.ParseInt | cmd/git-bundle-web-server/main.go:111 | strconv.Atoi accepts only a sign and digits, in the 64-bit range |
| Strconv.DecimalRoundTrip | internal/log/trace2.go:92 | every 64-bit integer's decimal text reads back as itself |
| Strconv.NoDigitNoNumber | cmd/git-bundle-web-server/main.go:111-114 | text without digits is no number |
| Text.Repeat | internal/log/tr2-perf-encoder.go:216 | n copies of the character |
| Text.PadRight | internal/log/tr2-perf-encoder.go:176 | `%-*s`: the text, then blanks up to the width, never cut |
| Text.PadLeft | internal/log/tr2-perf-encoder.go:198 | `%9s`-style: blanks, then the text, never cut |
| Text.Truncate | internal/log/tr2-perf-encoder.go:212 | the `.12` precision: a prefix of at most that length |
| ZapFields.FmtS | internal/log/tr2-perf-encoder.go:172 | `%s` of a string is the string |
| ZapFields.FmtD | internal/log/tr2-perf-encoder.go:172 | `%d` of an integer or duration is its decimal text |
| ZapFields.EscapeRoundTrip | internal/log/tr2-perf-encoder.go:89 | a string json.Marshal quotes reads back unchanged |
| ZapFields.EscapeHasNoControl | internal/log/tr2-perf-encoder.go:89 | json.Marshal leaves no control character in a string body |
| ZapFields.UnescapeChar | internal/log/tr2-perf-encoder.go:89 | each escaped character reads back as itself, then the rest |
| WebServer.Segments | cmd/git-bundle-web-server/main.go:20 | strings.FieldsFunc yields only non-empty segments free of `/` |
| WebServer.SegmentsOfSlash | cmd/git-bundle-web-server/main.go:20 | splitting at a `/` splits the segments |
| WebServer.SlashesIgnored | cmd/git-bundle-web-server/main.go:20 | leading, trailing and repeated slashes do not change the segments |
| WebServer.ComponentSegments | cmd/git-bundle-web-server/main.go:20 | a single component is its own only segment |
| WebServer.ParseRoute | cmd/git-bundle-web-server/main.go:19-33 | succeeds exactly for 2 or 3 segments, with non-empty slash-free parts; 0 gives `empty route`, 1 gives `route has owner, but no repo`, more than 3 gives `path has depth exceeding three` |
| WebServer.ParseRouteRoundTrip | cmd/git-bundle-web-server/main.go:19-29 | components joined by `/` parse back to themselves, with no file for two |
| WebServer.ParseRouteCanonical | cmd/git-bundle-web-server/main.go:19-33 | a parsed route rebuilt with `/` parses the same way |
| WebServer.ServedFile | cmd/git-bundle-web-server/main.go:61-63 | an empty file is served as `bundle-list`; any other file is itself |
| WebServer.ServeTarget | cmd/git-bundle-web-server/main.go:36-65 | serve finds a target exactly when the route parses, else it has the parse error |
| WebServer.ServeTargetKey | cmd/git-bundle-web-server/main.go:45-63 | the repository key `owner/repo` itself parses to that owner and repository, and no file means bundle-list |
| WebServer.PortRange | cmd/git-bundle-web-server/main.go:111-114 | the decimal text of an integer is a valid port exactly when it lies in 0..65535 |
| WebServer.CheckOptions | cmd/git-bundle-web-server/main.go:111-117 | the server starts exactly when the port is valid and cert and key are both given or both empty; an invalid port is reported first, as `Invalid port '<port>'.` |
| WebServer.AcceptedOptions | cmd/git-bundle-web-server/main.go:111-117 | `8080` with no TLS files, and `+443` with both, start the server |
| WebServer.DefaultPort | cmd/git-bundle-web-server/main.go:111-117 | the default `8080` with no TLS files passes both checks |
| WebServer.SignedTlsPort | cmd/git-bundle-web-server/main.go:111-117 | `+443`, which Atoi reads as 443, with both TLS files passes both checks |
| WebServer.RejectedOptions | cmd/git-bundle-web-server/main.go:111-117 | `65536`, `-1` and `http` are refused as ports, each with its `Invalid port` text; a certificate without a key is refused with the pairing message |
| WebServer.PortAboveRange | cmd/git-bundle-web-server/main.go:111-114 | `65536` parses but is above the range, and is refused with `Invalid port '65536'.` |
| WebServer.NegativePort | cmd/git-bundle-web-server/main.go:111-114 | `-1` is refused with `Invalid port '-1'.` |
| WebServer.WordPort | cmd/git-bundle-web-server/main.go:111-114 | `http` is no number and is refused with `Invalid port 'http'.` |
| WebServer.LoneCertificate | cmd/git-bundle-web-server/main.go:115-117 | a valid port with a certificate but no key is refused with the pairing message |
| InitRoute.SplitUnique | cmd/git-bundle-server/init.go:46 | the expression matches a URL in at most one way |
| InitRoute.MiddleSlash | cmd/git-bundle-server/init.go:46 | the `/` between the groups is the first `/` after the separator |
| InitRoute.SplitFrom | cmd/git-bundle-server/init.go:46-47 | the match with its separator at or before an index, or none exists there |
| InitRoute.Match | cmd/git-bundle-server/init.go:46-48 | FindStringSubmatch: a match when there is one, none exactly when no split exists |
| InitRoute.DeriveRoute | cmd/git-bundle-server/init.go:44-52 | an explicit route is kept unchanged; otherwise the two groups joined by `/`, or the usage error exactly when the URL does not match |
| InitRoute.RouteOfPieces | cmd/git-bundle-server/init.go:46-51 | a URL built as prefix, separator, owner, `/`, repo, any character and `git` derives `owner/repo` |
| InitRoute.PiecesOfRoute | cmd/git-bundle-server/init.go:46 | a matched URL is exactly those pieces |
| InitRoute.DerivedRouteServes | cmd/git-bundle-server/init.go:51 | a derived route parses on the web server as that owner and repository, with no file, and rebuilds to itself |
| InitRoute.SshUrl | cmd/git-bundle-server/init.go:46-51 | `git@github.com:o/r.git` gives `o/r` |
| InitRoute.HttpsUrl | cmd/git-bundle-server/init.go:46-51 | `https://github.com/x/o/r.git` gives `o/r` |
| InitRoute.UnescapedDot | cmd/git-bundle-server/init.go:46 | the unescaped `.` admits `r_git` as `r` plus any character plus `git` |
| TestHelpers.ToBoolList | internal/testhelpers/types.go:15-26 | False gives `[false]`, True gives `[true]`, Any gives `[false, true]`; each boolean at most once |

## Left out

- zap's own plumbing is not modelled: core and tee construction, the JSON event-stream encoder, atomic levels and `Sync`. Emission is appending a record to the recorder's ghost log.
- Clocks are inputs. `time.Now`, `time.Since` and `globalStart` become nanosecond readings, and the time of day is an already-rendered string.
- PerfEncoder.Seconds: `%9.6f` of `Duration.Seconds()` is floating point. It is modelled as the nanoseconds rounded to whole microseconds, half away from zero, which can differ from the float's rounding at exact ties.
- `runtime.Caller` is an optional call-site input.
- `uuid.New` is a parameter: the id it would return.
- `os.Args` is the `argv` parameter.
- Tr2Sink.WriteSyncer: `os.Stat` becomes the `isDir` flag. `path.Dir`, `os.MkdirAll`, `zap.Open` and the panic on an open failure are not modelled.
- `os.Exit` becomes the returned status.
- Trace2.Tracer.ChildProcess: the atomicity of `atomic.AddInt32` is not modelled. The counter is updated sequentially, so concurrent spawns are out of scope.
- `Goroutine` is an empty stub in the source and has no counterpart here.
- Trace2.Tracer.ChildReady and Trace2.Tracer.ChildExit:
  - The Go closures read `cmd.Process` and `cmd.ProcessState`. Here the caller passes the pid and the exit state.
  - `startTime` is taken at the end of ChildProcess and passed in as the handle's start time.
- Trace2.Tracer.Errorf: what `fmt.Errorf` renders from the format and arguments is the `rendered` parameter.
- Trace2.Tracer.Error and Trace2.Tracer.Errorf: the "already logged" marker is the `logged` flag of `Err`, the reading the comments at internal/log/trace2.go:339-340 and :351-352 describe. As written, the assertions at :341 and :355 hold for every error, marked or not (see Findings). A nil error, on which `err.Error()` panics, is not modelled.
- Trace2.ErrorOnce: states the marker reading, not the code as written: as written, Error emits nothing for any error (Trace2.MarkerTestAsWritten, see Findings).
- Trace2.ErrorfOutcome: states the marker reading, not the code as written: as written, Errorf emits for any error argument, marked or not (Trace2.MarkerTestAsWritten, see Findings).
- Trace2.Tracer.ChildReady: a `ready:error` record needs a pid from the caller. After a failed `exec.Cmd.Start` the process handle is normally nil, so `cmd.Process.Pid` at internal/log/trace2.go:306 panics before anything is logged; in the model that is `pid` None, which appends nothing.
- PerfEncoder.Tr2PerfEncoder.EncodeEntry and PerfEncoder.BriefColumns: the thread and category columns pad (and, for the category, truncate) the value's whole `%s` text. Go's fmt does the same for strings and durations. For other kinds, fmt keeps the directive's width and precision when it prints the value: it pads inside the bad-verb marker (`%-24s` of `int64(5)` is `%!s(int64=5` followed by 23 blanks and `)`), and it pads or cuts each element of a string list on its own. The model does not capture this. The recorder only writes strings there (internal/log/trace2.go:219 and :276).
- PerfEncoder.BriefColumns: the layout it states is Go's only for a thread and category that are strings or durations (see the line above).
- PerfEncoder.ElideFileLine: the length test counts UTF-8 bytes as Go's `len` does, but the cut removes the last three characters where `fl[:len(fl)-3]` removes three bytes. The two agree when those characters are ASCII (PerfEncoder.AsciiTailCut), as for any line number of two or more digits and for the ASCII file names of this repository. A byte cut through a multi-byte character leaves invalid UTF-8, which a string of characters cannot hold.
- PerfEncoder and Trace2: the lemmas that records encode are stated for a fresh encoder. Fields an earlier entry left in the map can make a later line succeed where a fresh encoder refuses it (PerfEncoder.StaleFieldSatisfiesLaterEntry).
- ZapFields.Json: the `json.Marshal` error path (tr2-perf-encoder.go:89-92) is not modelled. Json only models the kinds of value zap stores here, and Marshal does not fail on those.
- ZapFields.DurationText: only the sub-second forms are checked on samples. The hour-minute-second form is written out, but no sample lemma covers it.
- The configuration of the three trace2 environment variables and the wiring in createTrace2EventCore are not modelled; the encoder's brief flag is an explicit parameter.
- HTTP serving, the repository lookup, file reads, TLS start-up, signal handling and the wait group of the web server are not modelled. They are I/O and concurrency.
- The repository and bundle provider calls of `init` after the route is derived are not modelled: they call into components whose code is not part of this model.
- internal/common/filesystem.go, internal/cmd/command.go, internal/daemon/daemon.go, cmd/git-bundle-server/status.go, cmd/git-bundle-server/main.go, cmd/git-bundle-server/subcommand.go and internal/utils/types.go are not part of this model. They are OS and process wrappers and entry-point wiring.

Where the code's behaviour differs from what a reader might expect, the model follows the code:
- The `file:line` elision (internal/log/tr2-perf-encoder.go:173-174) keeps the text's length and replaces its end with `...`. It does not cut the text to 28 characters (PerfEncoder.FileLineColumnShape).
- The encoder's switch has no `start` case, so a start line requires no event field (internal/log/tr2-perf-encoder.go:141-142).
- The encoder's map is never cleared, so fields from earlier entries satisfy later ones (PerfEncoder.StaleFieldSatisfiesLaterEntry).
- internal/log/trace2.go:142 passes an `EncoderConfig` where `NewTr2PerfEncoder` takes a `bool`, so the brief flag is a parameter here.
- The comment at internal/log/trace2.go:351-352 says Errorf logs only errors not already logged, but the check at :355-364 emits only when an argument is already logged. The model follows the check.
- logExit, ChildProcess, Error and Errorf (internal/log/trace2.go:364) discard the context sharedFields returns, so a session id they mint is not kept. The model returns no context from them.

## Findings

| source | as written | input that shows it | evidently intended | confidence | as-written member | corrected member |
|---|---|---|---|---|---|---|
| internal/log/tr2-perf-encoder.go:215-217 | `val.(int)` asserts a plain `int`, but zap.Int (internal/log/trace2.go:171) stores the nesting level as an `int64`, so the assertion panics | any region_enter or region_leave record, e.g. level 0 | one `.` per nesting level for the stored integer | not executed | PerfEncoder.NestingDotsAsWritten, PerfEncoder.NestingAssertionPanics, Trace2.RegionLinesPanicAsWritten | PerfEncoder.NestingDots |
| internal/log/trace2.go:341-355 | `loggedError(err)` at :347 converts an `error`, which compiles only if `loggedError` is an interface whose only method is `Error() string`; every error satisfies it, so `err.(loggedError)` at :341 and `fmtArg.(loggedError)` at :355 hold for any error, marked or not | `Error(ctx, errors.New("boom"))` emits nothing; `Errorf(ctx, "x: %w", errors.New("boom"))` emits an error record | a marker that only errors returned by Error and Errorf carry: Error logs an unmarked error once, and Errorf tests for marked arguments | not executed | Trace2.ErrorEmissionAsWritten, Trace2.ErrorfEmissionAsWritten, Trace2.MarkerTestAsWritten, Trace2.MarkerReadingsDiffer | Trace2.ErrorEmission, Trace2.ErrorfEmission, Trace2.ErrorOnce, Trace2.ErrorfOutcome |
