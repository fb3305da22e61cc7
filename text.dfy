/** The optional values of the source (`undefined`, a missing optional field). */
module Wrappers {
  datatype Option<+T> = None | Some(value: T) {
    /** `x ?? fallback` */
    function GetOr(fallback: T): T {
      match this
      case Some(v) => v
      case None => fallback
    }
  }
}

/**
  Character-level building blocks shared by the GUID renderings: hex digits,
  the two-character rendering of a byte, ASCII upper-casing (what
  `toUpperCase` does on the ASCII strings rendered here), removal of a set of
  characters (a global regular-expression replace with the empty string) and
  the decimal text of a quick-pick label.
*/
module Text {

  /** The placeholder that the named snippets leave for the user to rename. */
  const NamePlaceholder: string := "__NAME__"

  /** One octet of a Node `Buffer`. */
  newtype Byte = x: int | 0 <= x < 256

  const LowerHexDigits: string := "0123456789abcdef"

  /** A character matched by the class `[0-9a-fA-F]`. */
  predicate IsHexChar(c: char) {
    ('0' <= c <= '9') || ('a' <= c <= 'f') || ('A' <= c <= 'F')
  }

  /** A hex digit as Node's 'hex' encoding writes it: lower case. */
  predicate IsLowerHexChar(c: char) {
    ('0' <= c <= '9') || ('a' <= c <= 'f')
  }

  /** The value of one hex digit, as `parseInt(_, 16)` reads it. */
  function HexValue(c: char): (v: nat)
    requires IsHexChar(c)
    ensures v < 16
  {
    if '0' <= c <= '9' then c as int - '0' as int
    else if 'a' <= c <= 'f' then c as int - 'a' as int + 10
    else c as int - 'A' as int + 10
  }

  /** The lower-case digit of a value below 16. */
  function HexDigit(n: nat): (c: char)
    requires n < 16
    ensures IsLowerHexChar(c) && IsHexChar(c)
    ensures HexValue(c) == n
  {
    LowerHexDigits[n]
  }

  /** The byte that a matched two-digit run denotes. */
  function PairValue(hi: char, lo: char): Byte
    requires IsHexChar(hi) && IsHexChar(lo)
  {
    (HexValue(hi) * 16 + HexValue(lo)) as Byte
  }

  /** One byte in Node's 'hex' encoding: two lower-case digits, high nibble first. */
  function ByteHex(b: Byte): (s: string)
    ensures |s| == 2 && IsLowerHexChar(s[0]) && IsLowerHexChar(s[1])
    ensures PairValue(s[0], s[1]) == b
  {
    [HexDigit(b as int / 16), HexDigit(b as int % 16)]
  }

  /** `buffer.toString('hex')` of a whole byte sequence. */
  function Hex(bs: seq<Byte>): (s: string)
    ensures |s| == 2 * |bs|
    ensures forall i :: 0 <= i < |s| ==> IsLowerHexChar(s[i])
  {
    if bs == [] then [] else ByteHex(bs[0]) + Hex(bs[1..])
  }

  lemma {:induction false} HexConcat(a: seq<Byte>, b: seq<Byte>)
    ensures Hex(a + b) == Hex(a) + Hex(b)
  {
    if a != [] {
      assert (a + b)[0] == a[0] && (a + b)[1..] == a[1..] + b;
      HexConcat(a[1..], b);
    } else {
      assert a + b == b;
    }
  }

  lemma SliceConcat<T>(b: seq<T>, i: nat, j: nat, k: nat)
    requires i <= j <= k <= |b|
    ensures b[i..j] + b[j..k] == b[i..k]
  {
  }

  /** The hex of two adjacent slices is the hex of their union. */
  lemma HexSlices(b: seq<Byte>, i: nat, j: nat, k: nat)
    requires i <= j <= k <= |b|
    ensures Hex(b[i..j]) + Hex(b[j..k]) == Hex(b[i..k])
  {
    SliceConcat(b, i, j, k);
    HexConcat(b[i..j], b[j..k]);
  }

  /**
    `buf.toString('hex', start, end)`: Node clamps both offsets to the
    buffer's length and renders the bytes in between.
  */
  function HexRange(bs: seq<Byte>, start: nat, end: nat): (s: string)
    requires start <= end
    ensures end <= |bs| ==> s == Hex(bs[start..end])
    ensures start < |bs| < end ==> s == Hex(bs[start..])
    ensures |bs| <= start ==> s == ""
  {
    var lo := if start < |bs| then start else |bs|;
    var hi := if end < |bs| then end else |bs|;
    assert hi == |bs| ==> bs[lo..hi] == bs[lo..];
    Hex(bs[lo..hi])
  }

  /** ASCII upper-casing of one character. */
  function UpperChar(c: char): (u: char)
    ensures 'a' <= c <= 'z' ==> u as int == c as int - 32
    ensures !('a' <= c <= 'z') ==> u == c
  {
    if 'a' <= c <= 'z' then (c as int - 32) as char else c
  }

  /** `toUpperCase` on the ASCII strings this engine renders. */
  function ToUpper(s: string): (r: string)
    ensures |r| == |s|
    ensures forall i :: 0 <= i < |s| ==> r[i] == UpperChar(s[i])
  {
    seq(|s|, i requires 0 <= i < |s| => UpperChar(s[i]))
  }

  /** `s.replace(/[...]/g, '')`: every character of `drop` removed, the rest kept in order. */
  function RemoveChars(s: string, drop: set<char>): (r: string)
    ensures |r| <= |s|
    ensures forall i :: 0 <= i < |r| ==> r[i] !in drop
  {
    if s == [] then []
    else (if s[0] in drop then [] else [s[0]]) + RemoveChars(s[1..], drop)
  }

  lemma {:induction false} RemoveCharsConcat(a: string, b: string, drop: set<char>)
    ensures RemoveChars(a + b, drop) == RemoveChars(a, drop) + RemoveChars(b, drop)
  {
    if a != [] {
      assert (a + b)[0] == a[0] && (a + b)[1..] == a[1..] + b;
      RemoveCharsConcat(a[1..], b, drop);
    } else {
      assert a + b == b;
    }
  }

  /** A removed separator character joins what is left on either side. */
  lemma {:induction false} RemoveCharsDropped(x: string, c: char, y: string, drop: set<char>)
    requires c in drop
    ensures RemoveChars(x + [c] + y, drop) == RemoveChars(x, drop) + RemoveChars(y, drop)
  {
    var w := x + [c] + y;
    if x == [] {
      assert w[0] == c && w[1..] == y;
    } else {
      assert w[0] == x[0] && w[1..] == x[1..] + [c] + y;
      RemoveCharsDropped(x[1..], c, y, drop);
    }
  }

  /** Removing characters that do not occur leaves the string as it was. */
  lemma {:induction false} RemoveCharsAbsent(s: string, drop: set<char>)
    requires forall i :: 0 <= i < |s| ==> s[i] !in drop
    ensures RemoveChars(s, drop) == s
  {
    if s != [] {
      RemoveCharsAbsent(s[1..], drop);
    }
  }

  /** The decimal digits, in order of value. */
  const DecimalDigits: string := "0123456789"

  /** Decimal digits of a natural number, as `Number.prototype.toString` writes them. */
  function NatToString(n: nat): (s: string)
    ensures |s| >= 1
    ensures forall i :: 0 <= i < |s| ==> '0' <= s[i] <= '9'
    decreases n
  {
    if n < 10 then [DecimalDigits[n]] else NatToString(n / 10) + [DecimalDigits[n % 10]]
  }

  /** `Number.prototype.toString` of an integer, with a leading minus sign when negative. */
  function IntToString(i: int): string
  {
    if i >= 0 then NatToString(i) else "-" + NatToString(-i)
  }
}
