/** Where a trace2 target writes, chosen from the value of its environment
    variable (internal/log/trace2.go, lines 88-120). Reading the variable,
    asking the file system whether the value names a directory, and opening
    the file are left to the caller: their answers are parameters here. */
module Tr2Sink {
  import opened Wrappers
  import opened Strconv

  /** The standard error stream, a sink that drops everything, or a file
      opened by name (after creating its parent directories when
      `createParents` is set). */
  datatype Sink = Stderr | Discard | File(name: string, createParents: bool)

  /** The name of the file written inside an existing directory, built from
      the process start time rendered as "2006-01-02T15:04:05.000000Z". It
      is a bare name: it is not joined to the directory. */
  function GeneratedName(startStamp: string): (r: string)
    ensures |r| == |startStamp| + 11
    ensures r[..7] == "trace2_" && r[|r| - 4..] == ".txt"
  {
    "trace2_" + startStamp + ".txt"
  }

  /** getTrace2WriteSyncer: `isDir` says whether the value names an existing
      directory, `startStamp` is the rendered start time. */
  function WriteSyncer(env: string, isDir: bool, startStamp: string): (s: Sink)
    ensures s.Stderr? <==> ParseInt(env) == Some(1)
    ensures s.Discard? <==> env == [] || (ParseInt(env).Some? && ParseInt(env).value != 1)
    ensures s.File? <==> env != [] && ParseInt(env).None?
    ensures s.File? ==> (if isDir then s == File(GeneratedName(startStamp), false) else s == File(env, true))
  {
    match ParseInt(env)
    case Some(n) => if n == 1 then Stderr else Discard
    case None =>
      if env == [] then Discard
      else if isDir then File(GeneratedName(startStamp), false)
      else File(env, true)
  }

  /** The decimal text of a 64-bit integer selects standard error exactly
      for 1 and discards for every other integer; whether a directory exists
      and the start time do not matter then. */
  lemma IntegerValues(n: int, isDir: bool, startStamp: string)
    requires MinInt64 <= n <= MaxInt64
    ensures WriteSyncer(Decimal(n), isDir, startStamp) == if n == 1 then Stderr else Discard
  {
    DecimalRoundTrip(n);
  }

  /** A value with a character that is neither a digit nor a sign, such as a
      path, always selects a file. */
  lemma PathValues(env: string, isDir: bool, startStamp: string)
    requires exists i :: 0 <= i < |env| && !IsDigit(env[i]) && env[i] != '+' && env[i] != '-'
    ensures WriteSyncer(env, isDir, startStamp).File?
  {
  }

  /** A numeral beyond the 64-bit range is not an integer for strconv.Atoi,
      so it is taken as a file name. */
  lemma OutOfRangeNumeral(n: nat, startStamp: string)
    requires n > MaxInt64
    ensures WriteSyncer(Digits(n), false, startStamp) == File(Digits(n), true)
  {
    DigitsRoundTrip(n);
  }

  /** Sample values: strconv.Atoi accepts a sign and leading zeros, and an
      empty value is dropped whatever the file system says. */
  lemma SampleValues(startStamp: string)
    ensures WriteSyncer("1", false, startStamp) == Stderr
    ensures WriteSyncer("+1", false, startStamp) == Stderr
    ensures WriteSyncer("01", false, startStamp) == Stderr
    ensures WriteSyncer("0", false, startStamp) == Discard
    ensures WriteSyncer("", true, startStamp) == Discard
    ensures WriteSyncer("/tmp/traces", true, startStamp) == File("trace2_" + startStamp + ".txt", false)
    ensures WriteSyncer("/tmp/t.txt", false, startStamp) == File("/tmp/t.txt", true)
  {
    assert DigitsValue("1") == 1 by { assert "1"[..0] == ""; }
    assert DigitsValue("01") == 1 by { assert "01"[..1] == "0"; assert "0"[..0] == ""; }
    assert "+1"[1..] == "1";
    assert DigitsValue("0") == 0 by { assert "0"[..0] == ""; }
    assert !IsDigit("/tmp/traces"[0]) && !IsDigit("/tmp/t.txt"[0]);
  }
}
