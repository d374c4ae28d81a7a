/** Text helpers shared by the formatters: padding as done by Go's `%-*s` and
    `%*s` verbs, truncation as done by a `.N` precision, and repetition. */
module Text {

  function Max(a: int, b: int): int {
    if a < b then b else a
  }

  /** `n` copies of the character `c` (Go's strings.Repeat on one character). */
  function Repeat(c: char, n: nat): (r: string)
    ensures |r| == n
    ensures forall i :: 0 <= i < n ==> r[i] == c
  {
    if n == 0 then [] else Repeat(c, n - 1) + [c]
  }

  function Spaces(n: nat): (r: string)
    ensures |r| == n && forall i :: 0 <= i < n ==> r[i] == ' '
  {
    Repeat(' ', n)
  }

  /** Left-justified in a field of at least `w` characters (`%-*s`): never cut. */
  function PadRight(s: string, w: nat): (r: string)
    ensures |r| == Max(|s|, w)
    ensures r[..|s|] == s
    ensures forall i :: |s| <= i < |r| ==> r[i] == ' '
  {
    if |s| < w then s + Spaces(w - |s|) else s
  }

  /** Right-justified in a field of at least `w` characters (`%*s`): never cut. */
  function PadLeft(s: string, w: nat): (r: string)
    ensures |r| == Max(|s|, w)
    ensures r[|r| - |s|..] == s
    ensures forall i :: 0 <= i < |r| - |s| ==> r[i] == ' '
  {
    if |s| < w then Spaces(w - |s|) + s else s
  }

  /** At most the first `n` characters (the precision of `%.*s`). */
  function Truncate(s: string, n: nat): (r: string)
    ensures |r| == if |s| < n then |s| else n
    ensures r == s[..|r|]
  {
    if |s| <= n then s else s[..n]
  }

  /** Elements joined with a separator (Go's strings.Join). */
  function Join(parts: seq<string>, sep: string): string {
    if |parts| == 0 then ""
    else if |parts| == 1 then parts[0]
    else parts[0] + sep + Join(parts[1..], sep)
  }

  /** The number of bytes UTF-8 spends on one character. */
  function ByteWidth(c: char): nat {
    if c as int < 0x80 then 1
    else if c as int < 0x800 then 2
    else if c as int < 0x1_0000 then 3
    else 4
  }

  /** The length of the UTF-8 encoding of `s`, which Go's `len` counts. */
  function ByteLength(s: string): nat {
    if s == [] then 0 else ByteLength(s[..|s| - 1]) + ByteWidth(s[|s| - 1])
  }

  lemma {:induction false} ByteLengthAppend(a: string, b: string)
    ensures ByteLength(a + b) == ByteLength(a) + ByteLength(b)
    decreases |b|
  {
    if b == [] {
      assert a + b == a;
    } else {
      assert (a + b)[..|a + b| - 1] == a + b[..|b| - 1];
      ByteLengthAppend(a, b[..|b| - 1]);
    }
  }

  /** Every character takes one to four bytes. */
  lemma {:induction false} ByteLengthBounds(s: string)
    ensures |s| <= ByteLength(s) <= 4 * |s|
  {
    if s != [] {
      ByteLengthBounds(s[..|s| - 1]);
    }
  }

  /** A text whose characters all take `w` bytes is `w` bytes per character. */
  lemma {:induction false} UniformByteLength(s: string, w: nat)
    requires forall i :: 0 <= i < |s| ==> ByteWidth(s[i]) == w
    ensures ByteLength(s) == w * |s|
  {
    if s != [] {
      UniformByteLength(s[..|s| - 1], w);
    }
  }

  lemma AppendAssoc(a: string, b: string, c: string)
    ensures (a + b) + c == a + (b + c)
  {
  }
}
