/** The values that zap fields leave in a map encoder, and how Go's fmt and
    encoding/json render them. The source builds fields with zap.String,
    zap.Int (stored as a 64-bit integer), zap.Int32, zap.Bool, zap.Duration
    and zap.Strings (stored as a list). */
module ZapFields {
  import opened Wrappers
  import opened Strconv
  import opened Text

  datatype Value =
    | Str(s: string)
    | Int64(i: int)
    | Int32(i: int)
    /** A plain Go `int`. No zap field constructor used here stores one. */
    | GoInt(i: int)
    | Bool(b: bool)
    /** A time.Duration, in nanoseconds. */
    | Duration(nanos: int)
    | Strings(list: seq<string>)

  datatype Field = Field(key: string, value: Value)

  /** The last binding of `key` in a field list: later fields win, as they
      do when a map encoder takes the fields one after another. */
  function Lookup(fields: seq<Field>, key: string): Option<Value> {
    if fields == [] then None
    else if fields[|fields| - 1].key == key then Some(fields[|fields| - 1].value)
    else Lookup(fields[..|fields| - 1], key)
  }

  /** A key is looked up in vain exactly when no field has it; a value
      found is the value of the last field with that key. */
  lemma {:induction false} LookupSpec(fields: seq<Field>, key: string)
    ensures Lookup(fields, key).None? <==> forall i :: 0 <= i < |fields| ==> fields[i].key != key
    ensures Lookup(fields, key).Some? ==>
      exists i :: 0 <= i < |fields| && fields[i] == Field(key, Lookup(fields, key).value)
        && forall j :: i < j < |fields| ==> fields[j].key != key
  {
    if fields != [] && fields[|fields| - 1].key != key {
      var init := fields[..|fields| - 1];
      LookupSpec(init, key);
      if Lookup(init, key).Some? {
        var i :| 0 <= i < |init| && init[i] == Field(key, Lookup(init, key).value)
          && forall j :: i < j < |init| ==> init[j].key != key;
        assert fields[i] == init[i];
      }
    }
  }

  lemma LookupAbsent(fields: seq<Field>, key: string)
    requires forall i :: 0 <= i < |fields| ==> fields[i].key != key
    ensures Lookup(fields, key).None?
  {
    LookupSpec(fields, key);
  }

  /** A key held by one field only is looked up to that field's value. */
  lemma LookupUnique(fields: seq<Field>, i: nat)
    requires i < |fields|
    requires forall j :: 0 <= j < |fields| && j != i ==> fields[j].key != fields[i].key
    ensures Lookup(fields, fields[i].key) == Some(fields[i].value)
  {
    LookupSpec(fields, fields[i].key);
  }

  lemma FieldsAssoc(a: seq<Field>, b: seq<Field>, c: seq<Field>)
    ensures (a + b) + c == a + (b + c)
  {
  }

  predicate DistinctKeys(fields: seq<Field>) {
    forall i, j :: 0 <= i < j < |fields| ==> fields[i].key != fields[j].key
  }

  /** In a list whose keys are all different, each field's key is looked
      up to its value and every other key to nothing. */
  lemma LookupDistinct(fields: seq<Field>)
    requires DistinctKeys(fields)
    ensures forall i :: 0 <= i < |fields| ==> Lookup(fields, fields[i].key) == Some(fields[i].value)
    ensures forall k :: (forall i :: 0 <= i < |fields| ==> fields[i].key != k) ==> Lookup(fields, k).None?
  {
    forall i | 0 <= i < |fields|
      ensures Lookup(fields, fields[i].key) == Some(fields[i].value)
    {
      LookupUnique(fields, i);
    }
    forall k | forall i :: 0 <= i < |fields| ==> fields[i].key != k
      ensures Lookup(fields, k).None?
    {
      LookupAbsent(fields, k);
    }
  }

  lemma {:induction false} LookupAppend(a: seq<Field>, b: seq<Field>, key: string)
    ensures Lookup(a + b, key) == if Lookup(b, key).Some? then Lookup(b, key) else Lookup(a, key)
    decreases |b|
  {
    if b != [] {
      assert (a + b)[..|a + b| - 1] == a + b[..|b| - 1];
      LookupAppend(a, b[..|b| - 1], key);
    } else {
      assert a + b == a;
    }
  }

  /** Go's type name for the value, as fmt prints it in a bad-verb marker. */
  function TypeName(v: Value): string {
    match v
    case Str(_) => "string"
    case Int64(_) => "int64"
    case Int32(_) => "int32"
    case GoInt(_) => "int"
    case Bool(_) => "bool"
    case Duration(_) => "time.Duration"
    case Strings(_) => "[]interface {}"
  }

  function BoolText(b: bool): string {
    if b then "true" else "false"
  }

  /** The text without its trailing '0' characters. */
  function TrimZeros(s: string): (r: string)
    ensures |r| <= |s| && r == s[..|r|]
    ensures r == [] || r[|r| - 1] != '0'
  {
    if s != [] && s[|s| - 1] == '0' then TrimZeros(s[..|s| - 1]) else s
  }

  /** The fraction `v` leaves below `unit` (a power of ten), as
      time.Duration prints it: a '.' and the digits without trailing
      zeros, or nothing at all. */
  function FracText(v: nat, unit: nat): string
    requires unit > 1
  {
    var digits := TrimZeros(Digits(unit + v % unit)[1..]);
    if digits == [] then "" else "." + digits
  }

  /** A duration of at least one second: seconds, with minutes and hours in
      front once they are not zero ("1h0m0s"). */
  function LongDurationText(u: nat): string {
    var secs := u / 1_000_000_000;
    var sec := Digits(secs % 60) + FracText(u, 1_000_000_000) + "s";
    var mins := secs / 60;
    if mins == 0 then sec
    else if mins / 60 == 0 then Digits(mins) + "m" + sec
    else Digits(mins / 60) + "h" + Digits(mins % 60) + "m" + sec
  }

  /** time.Duration's String method: a '-' before the text of the
      magnitude when negative; "0s", then ns, \U{00B5}s or ms below a
      second, else the long form. */
  function DurationText(n: int): (r: string)
    ensures |r| >= 2 && r[|r| - 1] == 's'
    decreases if n < 0 then 1 else 0
  {
    if n < 0 then "-" + DurationText(-n)
    else if n == 0 then "0s"
    else if n < 1_000 then Digits(n) + "ns"
    else if n < 1_000_000 then Digits(n / 1_000) + FracText(n, 1_000) + "\U{00B5}s"
    else if n < 1_000_000_000 then Digits(n / 1_000_000) + FracText(n, 1_000_000) + "ms"
    else LongDurationText(n)
  }

  /** Zero and small durations: "0s", and nanoseconds with the sign in
      front. */
  lemma NanoDurations()
    ensures DurationText(0) == "0s"
    ensures DurationText(-42) == "-42ns"
  {
    assert Digits(42) == "42";
  }

  /** Durations below a millisecond take microseconds, with the fraction's
      trailing zeros dropped. */
  lemma MicroDuration()
    ensures DurationText(1_500) == "1.5\U{00B5}s"
  {
    MicroFraction();
    assert Digits(1) == "1";
  }

  lemma MicroFraction()
    ensures FracText(1_500, 1_000) == ".5"
  {
    assert Digits(1_500) == "1500";
    assert TrimZeros("500") == "5";
  }

  /** fmt's `%v`, used inside the bad-verb marker. */
  function Plain(v: Value): string {
    match v
    case Str(s) => s
    case Int64(i) => Decimal(i)
    case Int32(i) => Decimal(i)
    case GoInt(i) => Decimal(i)
    case Bool(b) => BoolText(b)
    case Duration(n) => DurationText(n)
    case Strings(l) => "[" + Join(l, " ") + "]"
  }

  function BadVerb(verb: char, v: Value): string {
    "%!" + [verb] + "(" + TypeName(v) + "=" + Plain(v) + ")"
  }

  predicate IsInteger(v: Value) {
    v.Int64? || v.Int32? || v.GoInt?
  }

  /** Go's `%s` of a field value. */
  function FmtS(v: Value): (r: string)
    ensures v.Str? ==> r == v.s
  {
    match v
    case Str(s) => s
    case Strings(l) => "[" + Join(l, " ") + "]"
    case Duration(n) => DurationText(n)
    case _ => BadVerb('s', v)
  }

  function BadVerbEach(l: seq<string>): seq<string>
    ensures |BadVerbEach(l)| == |l|
  {
    if l == [] then [] else [BadVerb('d', Str(l[0]))] + BadVerbEach(l[1..])
  }

  /** Go's `%d` of a field value. A duration prints its nanosecond count. */
  function FmtD(v: Value): (r: string)
    ensures IsInteger(v) ==> r == Decimal(v.i)
    ensures v.Duration? ==> r == Decimal(v.nanos)
  {
    match v
    case Int64(i) => Decimal(i)
    case Int32(i) => Decimal(i)
    case GoInt(i) => Decimal(i)
    case Duration(n) => Decimal(n)
    case Strings(l) => "[" + Join(BadVerbEach(l), " ") + "]"
    case _ => BadVerb('d', v)
  }

  // ---------------------------------------------------------------------
  // encoding/json, as json.Marshal renders the values (HTML escaping on)

  const HexDigits: string := "0123456789abcdef"

  /** The escape json.Marshal writes for one character of a string. */
  function EscapeChar(c: char): (r: string)
    ensures |r| > 0
  {
    if c == '"' || c == '\\' then ['\\', c]
    else if c == '\n' then "\\n"
    else if c == '\r' then "\\r"
    else if c == '\t' then "\\t"
    else if c < ' ' || c == '<' || c == '>' || c == '&' then
      "\\u00" + [HexDigits[c as int / 16], HexDigits[c as int % 16]]
    else if c == '\U{2028}' then "\\u2028"
    else if c == '\U{2029}' then "\\u2029"
    else [c]
  }

  function Escape(s: string): string {
    if s == [] then "" else EscapeChar(s[0]) + Escape(s[1..])
  }

  function JsonString(s: string): string {
    "\"" + Escape(s) + "\""
  }

  function JsonStrings(l: seq<string>): string {
    if l == [] then "" else if |l| == 1 then JsonString(l[0]) else JsonString(l[0]) + "," + JsonStrings(l[1..])
  }

  /** json.Marshal of a field value; it never fails on these kinds. */
  function Json(v: Value): string {
    match v
    case Str(s) => JsonString(s)
    case Int64(i) => Decimal(i)
    case Int32(i) => Decimal(i)
    case GoInt(i) => Decimal(i)
    case Bool(b) => BoolText(b)
    case Duration(n) => Decimal(n)
    case Strings(l) => "[" + JsonStrings(l) + "]"
  }

  function HexValue(c: char): (r: Option<nat>)
    ensures r.Some? ==> r.value < 16
  {
    if '0' <= c <= '9' then Some((c - '0') as nat)
    else if 'a' <= c <= 'f' then Some((c - 'a') as nat + 10)
    else None
  }

  /** Reads back a JSON string body: the inverse of Escape. */
  function Unescape(s: string): Option<string>
    decreases |s|
  {
    if s == [] then Some([])
    else if s[0] != '\\' then
      match Unescape(s[1..]) case None => None case Some(t) => Some([s[0]] + t)
    else if |s| < 2 then None
    else if s[1] == '"' || s[1] == '\\' then
      match Unescape(s[2..]) case None => None case Some(t) => Some([s[1]] + t)
    else if s[1] == 'n' then
      match Unescape(s[2..]) case None => None case Some(t) => Some(['\n'] + t)
    else if s[1] == 'r' then
      match Unescape(s[2..]) case None => None case Some(t) => Some(['\r'] + t)
    else if s[1] == 't' then
      match Unescape(s[2..]) case None => None case Some(t) => Some(['\t'] + t)
    else if s[1] == 'u' && |s| >= 6 && HexValue(s[2]).Some? && HexValue(s[3]).Some?
            && HexValue(s[4]).Some? && HexValue(s[5]).Some? then
      var code := ((HexValue(s[2]).value * 16 + HexValue(s[3]).value) * 16
                   + HexValue(s[4]).value) * 16 + HexValue(s[5]).value;
      if 0xD800 <= code < 0xE000 then None
      else match Unescape(s[6..]) case None => None case Some(t) => Some([code as char] + t)
    else None
  }

  /** Reading back one escaped character, then the rest. */
  lemma UnescapeChar(c: char, rest: string)
    ensures Unescape(EscapeChar(c) + rest) ==
      match Unescape(rest) case None => None case Some(t) => Some([c] + t)
  {
    if c == '"' || c == '\\' || c == '\n' || c == '\r' || c == '\t' {
      UnescapeShort(c, rest);
    } else if c < ' ' || c == '<' || c == '>' || c == '&' {
      UnescapeHex(c, rest);
    } else if c == '\U{2028}' || c == '\U{2029}' {
      UnescapeSeparator(c, rest);
    } else {
      assert (EscapeChar(c) + rest)[1..] == rest;
    }
  }

  /** The two-character escapes. */
  lemma UnescapeShort(c: char, rest: string)
    requires c == '"' || c == '\\' || c == '\n' || c == '\r' || c == '\t'
    ensures Unescape(EscapeChar(c) + rest) ==
      match Unescape(rest) case None => None case Some(t) => Some([c] + t)
  {
    assert (EscapeChar(c) + rest)[2..] == rest;
  }

  /** The `\u00XX` escapes of control characters and of <, > and &. */
  lemma UnescapeHex(c: char, rest: string)
    requires c < ' ' || c == '<' || c == '>' || c == '&'
    requires c != '\n' && c != '\r' && c != '\t'
    ensures Unescape(EscapeChar(c) + rest) ==
      match Unescape(rest) case None => None case Some(t) => Some([c] + t)
  {
    var hi, lo := c as int / 16, c as int % 16;
    var e := EscapeChar(c) + rest;
    assert EscapeChar(c) == ['\\', 'u', '0', '0', HexDigits[hi], HexDigits[lo]];
    assert e[0] == '\\' && e[1] == 'u' && e[2] == '0' && e[3] == '0' && e[4] == HexDigits[hi] && e[5] == HexDigits[lo];
    assert e[6..] == rest;
    HexDigitValue(hi);
    HexDigitValue(lo);
    assert ((0 * 16 + 0) * 16 + hi) * 16 + lo == c as int;
  }

  /** A hexadecimal digit as written reads back as its value. */
  lemma HexDigitValue(d: nat)
    requires d < 16
    ensures HexValue(HexDigits[d]) == Some(d)
  {
  }

  /** The escapes of the line and paragraph separators. */
  lemma UnescapeSeparator(c: char, rest: string)
    requires c == '\U{2028}' || c == '\U{2029}'
    ensures Unescape(EscapeChar(c) + rest) ==
      match Unescape(rest) case None => None case Some(t) => Some([c] + t)
  {
    assert (EscapeChar(c) + rest)[6..] == rest;
  }

  /** A string quoted by json.Marshal reads back unchanged. */
  lemma {:induction false} EscapeRoundTrip(s: string)
    ensures Unescape(Escape(s)) == Some(s)
  {
    if s != [] {
      EscapeRoundTrip(s[1..]);
      UnescapeChar(s[0], Escape(s[1..]));
      assert [s[0]] + s[1..] == s;
    }
  }

  /** The escaped body has no control character, which a JSON string may
      not contain unescaped (RFC 8259, section 7). */
  lemma {:induction false} EscapeHasNoControl(s: string)
    ensures forall i :: 0 <= i < |Escape(s)| ==> Escape(s)[i] >= ' '
  {
    if s != [] {
      EscapeHasNoControl(s[1..]);
      var e := EscapeChar(s[0]);
      assert forall i :: 0 <= i < |e| ==> e[i] >= ' ';
      var r := Escape(s);
      assert r == e + Escape(s[1..]);
      forall i | 0 <= i < |r| ensures r[i] >= ' ' {
        if i >= |e| {
          assert r[i] == Escape(s[1..])[i - |e|];
        }
      }
    }
  }
}
