/**
  The GUID value type: a 16-byte buffer, the lenient constructor that fills
  it from every two-hex-digit run of its input, the `toBuffer` view that hands
  out the live buffer, and the `toString` renderings.
*/
module Guids {
  import opened Wrappers
  import opened Text

  /** `n` zero bytes. */
  function Zeros(n: nat): (z: seq<Byte>)
    ensures |z| == n
    ensures forall i :: 0 <= i < n ==> z[i] == 0
  {
    seq(n, _ => 0)
  }

  /**
    The bytes a global scan with `/[0-9a-fA-F]{2}/g` matches, left to right:
    a run of two hex digits is one byte and the scan resumes after it; any
    other position (a lone digit, a hyphen, a brace, ...) is stepped over.
  */
  function Scan(s: string): (r: seq<Byte>)
    ensures 2 * |r| <= |s|
    decreases |s|
  {
    if |s| < 2 then []
    else if IsHexChar(s[0]) && IsHexChar(s[1]) then [PairValue(s[0], s[1])] + Scan(s[2..])
    else Scan(s[1..])
  }

  /**
    What the constructor stores for an input string: the first sixteen
    matched bytes, and zero in every position the input did not fill.
  */
  function Parse(s: string): (r: seq<Byte>)
    ensures |r| == 16
  {
    var found := Scan(s);
    if |found| >= 16 then found[..16] else found + Zeros(16 - |found|)
  }

  /** Byte `k` of a parsed GUID is the `k`-th matched run, or zero when there were fewer runs. */
  lemma ParseByte(s: string, k: nat)
    requires k < 16
    ensures Parse(s)[k] == if k < |Scan(s)| then Scan(s)[k] else 0
  {
  }

  /** A character that is not a hex digit splits the scan: nothing can match across it. */
  lemma {:induction false} ScanSplit(s: string, c: char, t: string)
    requires !IsHexChar(c)
    ensures Scan(s + [c] + t) == Scan(s) + Scan(t)
    decreases |s|
  {
    if |s| == 0 {
      ScanSplitEmpty(c, t);
    } else if |s| >= 2 && IsHexChar(s[0]) && IsHexChar(s[1]) {
      ScanSplit(s[2..], c, t);
      ScanSplitPair(s, c, t);
    } else {
      ScanSplit(s[1..], c, t);
      ScanSplitSkip(s, c, t);
    }
  }

  /** Dropping a prefix of the left operand of a concatenation. */
  lemma DropConcat<T>(s: seq<T>, u: seq<T>, k: nat)
    requires k <= |s|
    ensures (s + u)[k..] == s[k..] + u
  {
  }

  lemma ScanSplitEmpty(c: char, t: string)
    requires !IsHexChar(c)
    ensures Scan([] + [c] + t) == Scan([]) + Scan(t)
  {
    var w := [] + [c] + t;
    if |t| == 0 {
      assert w == [c];
    } else {
      assert w[0] == c && w[1..] == t;
    }
  }

  /** A leading run of the left part is matched before the split. */
  lemma ScanSplitPair(s: string, c: char, t: string)
    requires |s| >= 2 && IsHexChar(s[0]) && IsHexChar(s[1])
    requires Scan(s[2..] + [c] + t) == Scan(s[2..]) + Scan(t)
    ensures Scan(s + [c] + t) == Scan(s) + Scan(t)
  {
    var w := s + [c] + t;
    var head := [PairValue(s[0], s[1])];
    assert w[2..] == s[2..] + [c] + t by {
      DropConcat(s + [c], t, 2);
      DropConcat(s, [c], 2);
    }
    assert Scan(w) == head + Scan(s[2..] + [c] + t) by {
      assert w[0] == s[0] && w[1] == s[1];
    }
    assert Scan(s) == head + Scan(s[2..]);
    AppendAssoc(head, Scan(s[2..]), Scan(t));
  }

  lemma AppendAssoc<T>(a: seq<T>, b: seq<T>, c: seq<T>)
    ensures a + (b + c) == (a + b) + c
  {
  }

  /** A leading character of the left part that starts no run is stepped over before the split. */
  lemma ScanSplitSkip(s: string, c: char, t: string)
    requires !IsHexChar(c) && |s| >= 1 && !(|s| >= 2 && IsHexChar(s[0]) && IsHexChar(s[1]))
    requires Scan(s[1..] + [c] + t) == Scan(s[1..]) + Scan(t)
    ensures Scan(s + [c] + t) == Scan(s) + Scan(t)
  {
    var w := s + [c] + t;
    DropConcat(s + [c], t, 1);
    DropConcat(s, [c], 1);
    assert w[0] == s[0] && w[1] == (if |s| >= 2 then s[1] else c);
  }

  /**
    A separator with no run of its own and no hex digit at either end
    (", 0x", ", {0x", "-") contributes nothing and splits the scan.
  */
  lemma ScanJoin(x: string, sep: string, y: string)
    requires |sep| >= 1 && !IsHexChar(sep[0]) && !IsHexChar(sep[|sep| - 1])
    requires Scan(sep) == []
    ensures Scan(x + sep + y) == Scan(x) + Scan(y)
  {
    ScanDropHead(x, sep, y);
    if |sep| == 1 {
      assert sep[1..] + y == y;
    } else {
      ScanTail(sep);
      ScanSkipPrefix(sep[1..], y);
    }
  }

  /** The non-hex first character of a separator splits the scan. */
  lemma ScanDropHead(x: string, sep: string, y: string)
    requires |sep| >= 1 && !IsHexChar(sep[0])
    ensures Scan(x + sep + y) == Scan(x) + Scan(sep[1..] + y)
  {
    var c0, rest := sep[0], sep[1..];
    assert sep == [c0] + rest;
    assert x + sep + y == x + [c0] + (rest + y);
    ScanSplit(x, c0, rest + y);
  }

  /** A prefix that matches nothing and ends in a non-hex character is stepped over entirely. */
  lemma ScanSkipPrefix(p: string, y: string)
    requires |p| >= 1 && !IsHexChar(p[|p| - 1])
    requires Scan(p) == []
    ensures Scan(p + y) == Scan(y)
  {
    var mid, cl := p[..|p| - 1], p[|p| - 1];
    assert p == mid + [cl];
    ScanSplit(mid, cl, y);
    ScanSplit(mid, cl, []);
    assert mid + [cl] + [] == p;
    assert mid + [cl] + y == p + y;
  }

  /** A separator that matches nothing still matches nothing without its first character. */
  lemma ScanTail(sep: string)
    requires |sep| >= 1 && !IsHexChar(sep[0])
    ensures Scan(sep[1..]) == Scan(sep)
  {
    ScanSplit([], sep[0], sep[1..]);
    assert [] + [sep[0]] + sep[1..] == sep;
  }

  /** Scanning the hex rendering of bytes gives the bytes back. */
  lemma {:induction false} ScanHex(bs: seq<Byte>)
    ensures Scan(Hex(bs)) == bs
  {
    if bs != [] {
      var h := Hex(bs);
      assert h == ByteHex(bs[0]) + Hex(bs[1..]);
      assert h[2..] == Hex(bs[1..]);
      ScanHex(bs[1..]);
    }
  }

  /** Upper-casing never changes what the scan finds. */
  lemma {:induction false} ScanUpper(s: string)
    ensures Scan(ToUpper(s)) == Scan(s)
    decreases |s|
  {
    var u := ToUpper(s);
    if |s| >= 2 {
      if IsHexChar(s[0]) && IsHexChar(s[1]) {
        assert u[2..] == ToUpper(s[2..]);
        ScanUpper(s[2..]);
      } else {
        assert u[1..] == ToUpper(s[1..]);
        ScanUpper(s[1..]);
      }
    }
  }

  /** An input with no two adjacent hex digits matches nothing. */
  lemma {:induction false} ScanNoPairs(s: string)
    requires forall i :: 0 <= i < |s| - 1 ==> !(IsHexChar(s[i]) && IsHexChar(s[i + 1]))
    ensures Scan(s) == []
    decreases |s|
  {
    if |s| >= 2 {
      assert !(IsHexChar(s[0]) && IsHexChar(s[1]));
      ScanNoPairs(s[1..]);
    }
  }

  /** So such an input (for example "z" or "0") parses to the all-zero GUID. */
  lemma ParseNoPairs(s: string)
    requires forall i :: 0 <= i < |s| - 1 ==> !(IsHexChar(s[i]) && IsHexChar(s[i + 1]))
    ensures Parse(s) == Zeros(16)
  {
    ScanNoPairs(s);
    assert [] + Zeros(16) == Zeros(16);
  }

  // ---------------------------------------------------------------- rendering

  /** `Guid.unparse`: hex of bytes [0,4), [4,6), [6,8), [8,10), [10,16) joined by hyphens. */
  function Unparse(b: seq<Byte>): (r: string)
    ensures |b| >= 16 ==> |r| == 36 && r[8] == '-' && r[13] == '-' && r[18] == '-' && r[23] == '-'
  {
    HexRange(b, 0, 4) + "-" + HexRange(b, 4, 6) + "-" + HexRange(b, 6, 8) + "-" +
    HexRange(b, 8, 10) + "-" + HexRange(b, 10, 16)
  }

  /** The "0x"-prefixed, comma-separated fields of the struct rendering. */
  function Fields(groups: seq<seq<Byte>>): string
  {
    if groups == [] then ""
    else if |groups| == 1 then "0x" + Hex(groups[0])
    else Fields(groups[..|groups| - 1]) + ", 0x" + Hex(groups[|groups| - 1])
  }

  /** The 4-2-2 byte groups at the head of the struct layout. */
  function StructHead(b: seq<Byte>): seq<seq<Byte>>
    requires |b| == 16
  {
    [b[0..4], b[4..6], b[6..8]]
  }

  /** The eight single bytes at the tail of the struct layout. */
  function StructTail(b: seq<Byte>): seq<seq<Byte>>
    requires |b| == 16
  {
    [b[8..9], b[9..10], b[10..11], b[11..12], b[12..13], b[13..14], b[14..15], b[15..16]]
  }

  /** `{0xAAAAAAAA, 0xBBBB, 0xCCCC, {0xDD, 0xDD, 0xDD, 0xDD, 0xDD, 0xDD, 0xDD, 0xDD}}` */
  function StructText(b: seq<Byte>): string
    requires |b| == 16
  {
    "{" + Fields(StructHead(b)) + ", {" + Fields(StructTail(b)) + "}}"
  }

  /** The rendering a `toString` format key selects. */
  datatype Style = DefaultStyle | BracedStyle | NoHyphenStyle | StructStyle

  /**
    The dispatch of `toString(format)`: 'struct' and 'x' select the struct
    literal, 'braced' and 'b' the braced form, 'no-hyphen' the form without
    hyphens; an absent or any other key selects the default form.
  */
  function StyleOf(format: Option<string>): (r: Style)
    ensures r == StructStyle <==> format == Some("struct") || format == Some("x")
    ensures r == BracedStyle <==> format == Some("braced") || format == Some("b")
    ensures r == NoHyphenStyle <==> format == Some("no-hyphen")
    ensures r == DefaultStyle <==> format.None? || !KnownFormat(format.value)
  {
    if format == Some("struct") || format == Some("x") then StructStyle
    else if format == Some("braced") || format == Some("b") then BracedStyle
    else if format == Some("no-hyphen") then NoHyphenStyle
    else DefaultStyle
  }

  /** One rendering of sixteen bytes; the braced and no-hyphen forms start from the default one. */
  function RenderStyle(b: seq<Byte>, style: Style): string
    requires |b| == 16
  {
    match style
    case StructStyle => StructText(b)
    case BracedStyle => "{" + Unparse(b) + "}"
    case NoHyphenStyle => RemoveChars(Unparse(b), {'-'})
    case DefaultStyle => Unparse(b)
  }

  /**
    `toString(format)` of a 16-byte buffer: the default form has 36
    characters, the braced one 38 with a brace at each end, the no-hyphen one
    is the 32-digit hex of the bytes, and the struct literal opens with a brace.
  */
  function Render(b: seq<Byte>, format: Option<string>): (r: string)
    requires |b| == 16
    ensures StyleOf(format) == DefaultStyle ==> |r| == 36
    ensures StyleOf(format) == BracedStyle ==> |r| == 38 && r[0] == '{' && r[37] == '}'
    ensures StyleOf(format) == NoHyphenStyle ==> r == Hex(b)
    ensures StyleOf(format) == StructStyle ==> |r| > 0 && r[0] == '{'
  {
    NoHyphenIsHex(b);
    RenderStyle(b, StyleOf(format))
  }

  predicate KnownFormat(format: string) {
    format == "struct" || format == "x" || format == "braced" || format == "b" || format == "no-hyphen"
  }

  /** An absent or unrecognised key selects the default form. */
  lemma StyleFallback(format: Option<string>)
    requires format.None? || !KnownFormat(format.value)
    ensures StyleOf(format) == DefaultStyle
  {
  }

  /** Each recognised key and its alias select the same rendering. */
  lemma StyleKeys()
    ensures StyleOf(Some("struct")) == StyleOf(Some("x")) == StructStyle
    ensures StyleOf(Some("braced")) == StyleOf(Some("b")) == BracedStyle
    ensures StyleOf(Some("no-hyphen")) == NoHyphenStyle
    ensures StyleOf(None) == DefaultStyle
  {
  }

  /** Without clamping (a 16-byte buffer) the default form is the five hex groups joined by hyphens. */
  lemma UnparseGroups(b: seq<Byte>)
    requires |b| == 16
    ensures Unparse(b) == Hex(b[0..4]) + "-" + Hex(b[4..6]) + "-" + Hex(b[6..8]) + "-" +
                          Hex(b[8..10]) + "-" + Hex(b[10..16])
  {
  }

  /** The default form is 36 characters: 32 lower-case hex digits with hyphens at 8, 13, 18 and 23. */
  lemma UnparseLayout(b: seq<Byte>)
    requires |b| == 16
    ensures |Unparse(b)| == 36
    ensures forall i :: 0 <= i < 36 ==> (Unparse(b)[i] == '-' <==> i in {8, 13, 18, 23})
    ensures forall i :: 0 <= i < 36 && i !in {8, 13, 18, 23} ==> IsLowerHexChar(Unparse(b)[i])
  {
    UnparseGroups(b);
    var u := Unparse(b);
    var h0, h1, h2, h3, h4 := Hex(b[0..4]), Hex(b[4..6]), Hex(b[6..8]), Hex(b[8..10]), Hex(b[10..16]);
    forall i | 0 <= i < 36
      ensures u[i] == '-' <==> i in {8, 13, 18, 23}
      ensures i !in {8, 13, 18, 23} ==> IsLowerHexChar(u[i])
    {
      if i < 8 { assert u[i] == h0[i]; }
      else if i == 8 { }
      else if i < 13 { assert u[i] == h1[i - 9]; }
      else if i == 13 { }
      else if i < 18 { assert u[i] == h2[i - 14]; }
      else if i == 18 { }
      else if i < 23 { assert u[i] == h3[i - 19]; }
      else if i == 23 { }
      else { assert u[i] == h4[i - 24]; }
    }
  }

  /** Removing the hyphens of five hyphen-joined hyphen-free strings concatenates them. */
  lemma RemoveHyphens(h0: string, h1: string, h2: string, h3: string, h4: string)
    requires NoHyphen(h0) && NoHyphen(h1) && NoHyphen(h2) && NoHyphen(h3) && NoHyphen(h4)
    ensures RemoveChars(h0 + "-" + h1 + "-" + h2 + "-" + h3 + "-" + h4, {'-'}) == h0 + h1 + h2 + h3 + h4
  {
    var d: set<char> := {'-'};
    RemoveCharsAbsent(h0, d);
    RemoveCharsAbsent(h1, d);
    RemoveCharsAbsent(h2, d);
    RemoveCharsAbsent(h3, d);
    RemoveCharsAbsent(h4, d);
    RemoveCharsDropped(h0, '-', h1, d);
    RemoveCharsDropped(h0 + "-" + h1, '-', h2, d);
    RemoveCharsDropped(h0 + "-" + h1 + "-" + h2, '-', h3, d);
    RemoveCharsDropped(h0 + "-" + h1 + "-" + h2 + "-" + h3, '-', h4, d);
  }

  predicate NoHyphen(s: string) {
    forall i :: 0 <= i < |s| ==> s[i] != '-'
  }

  /** The 'no-hyphen' form is the plain hex of all sixteen bytes: 32 digits. */
  lemma NoHyphenIsHex(b: seq<Byte>)
    requires |b| == 16
    ensures RenderStyle(b, NoHyphenStyle) == Hex(b)
    ensures |RenderStyle(b, NoHyphenStyle)| == 32
  {
    UnparseGroups(b);
    RemoveHyphens(Hex(b[0..4]), Hex(b[4..6]), Hex(b[6..8]), Hex(b[8..10]), Hex(b[10..16]));
    HexSlices(b, 0, 4, 6);
    HexSlices(b, 0, 6, 8);
    HexSlices(b, 0, 8, 10);
    HexSlices(b, 0, 10, 16);
    assert b[0..16] == b;
  }

  /**
    The renderings of one buffer side by side: an alias renders as its key,
    the braced form is the default form in braces (38 characters), the
    no-hyphen form is the default form without its hyphens (32 hex digits),
    and the struct form is the struct literal.
  */
  lemma RenderForms(b: seq<Byte>)
    requires |b| == 16
    ensures Render(b, Some("b")) == Render(b, Some("braced")) == "{" + Render(b, None) + "}"
    ensures |Render(b, Some("braced"))| == 38
    ensures Render(b, Some("no-hyphen")) == RemoveChars(Render(b, None), {'-'}) == Hex(b)
    ensures |Render(b, Some("no-hyphen"))| == 32
    ensures Render(b, Some("x")) == Render(b, Some("struct")) == StructText(b)
  {
    StyleKeys();
    UnparseLayout(b);
    NoHyphenIsHex(b);
  }

  // ---------------------------------------------------------------- round trips

  /** Hyphens separate what the scan finds in five groups. */
  lemma ScanHyphens(h0: string, h1: string, h2: string, h3: string, h4: string)
    ensures Scan(h0 + "-" + h1 + "-" + h2 + "-" + h3 + "-" + h4) ==
            Scan(h0) + Scan(h1) + Scan(h2) + Scan(h3) + Scan(h4)
  {
    ScanSplit(h0, '-', h1);
    ScanSplit(h0 + "-" + h1, '-', h2);
    ScanSplit(h0 + "-" + h1 + "-" + h2, '-', h3);
    ScanSplit(h0 + "-" + h1 + "-" + h2 + "-" + h3, '-', h4);
  }

  lemma ScanHexRange(b: seq<Byte>, lo: nat, hi: nat)
    requires lo <= hi <= |b|
    ensures Scan(HexRange(b, lo, hi)) == b[lo..hi]
  {
    ScanHex(b[lo..hi]);
  }

  lemma ScanUnparse(b: seq<Byte>)
    requires |b| == 16
    ensures Scan(Unparse(b)) == b
  {
    ScanHyphens(HexRange(b, 0, 4), HexRange(b, 4, 6), HexRange(b, 6, 8), HexRange(b, 8, 10), HexRange(b, 10, 16));
    ScanHexRange(b, 0, 4);
    ScanHexRange(b, 4, 6);
    ScanHexRange(b, 6, 8);
    ScanHexRange(b, 8, 10);
    ScanHexRange(b, 10, 16);
    SliceConcat(b, 0, 4, 6);
    SliceConcat(b, 0, 6, 8);
    SliceConcat(b, 0, 8, 10);
    SliceConcat(b, 0, 10, 16);
    assert b[0..16] == b;
  }

  /** Braces around a string are stepped over by the scan. */
  lemma ScanBraced(u: string)
    ensures Scan("{" + u + "}") == Scan(u)
  {
    ScanSplit("{" + u, '}', []);
    assert "{" + u + ['}'] + [] == "{" + u + "}";
    ScanSplit([], '{', u);
    assert [] + ['{'] + u == "{" + u;
  }

  /** The bytes of a list of groups, one after the other. */
  function Flatten(groups: seq<seq<Byte>>): seq<Byte>
  {
    if groups == [] then [] else Flatten(groups[..|groups| - 1]) + groups[|groups| - 1]
  }

  /** Scanning the struct fields yields their bytes, group after group. */
  lemma {:induction false} ScanFields(groups: seq<seq<Byte>>)
    ensures Scan(Fields(groups)) == Flatten(groups)
  {
    if |groups| == 1 {
      ScanHexField(groups[0]);
      assert Flatten(groups) == Flatten([]) + groups[0];
    } else if |groups| > 1 {
      var init, last := groups[..|groups| - 1], groups[|groups| - 1];
      assert Scan(", 0x") == [];
      ScanJoin(Fields(init), ", 0x", Hex(last));
      ScanFields(init);
      ScanHex(last);
    }
  }

  /** "0x" in front of hex digits adds nothing to the scan. */
  lemma ScanHexField(g: seq<Byte>)
    ensures Scan("0x" + Hex(g)) == g
  {
    var h := Hex(g);
    ScanSplit("0", 'x', h);
    assert "0" + ['x'] + h == "0x" + h;
    ScanHex(g);
  }

  /** The braces and separators of the struct literal add nothing to the scan. */
  lemma ScanStructFrame(f1: string, f2: string)
    ensures Scan("{" + f1 + ", {" + f2 + "}}") == Scan(f1) + Scan(f2)
  {
    assert Scan("{") == [] && Scan(", {") == [] && Scan("}}") == [];
    ScanJoin("", "{", f1);
    assert "" + "{" + f1 == "{" + f1;
    ScanJoin("{" + f1, ", {", f2);
    ScanJoin("{" + f1 + ", {" + f2, "}}", "");
    assert "{" + f1 + ", {" + f2 + "}}" + "" == "{" + f1 + ", {" + f2 + "}}";
  }

  lemma FlattenHead(b: seq<Byte>)
    requires |b| == 16
    ensures Flatten(StructHead(b)) == b[0..8]
  {
    var g := StructHead(b);
    var g2, g1 := g[..2], g[..1];
    assert g2 == [b[0..4], b[4..6]] && g2[..1] == g1 == [b[0..4]] && g1[..0] == [];
    assert Flatten(g1) == Flatten([]) + b[0..4] == b[0..4];
    assert Flatten(g2) == Flatten(g1) + b[4..6];
    assert Flatten(g) == Flatten(g2) + b[6..8];
    SliceConcat(b, 0, 4, 6);
    SliceConcat(b, 0, 6, 8);
  }

  lemma FlattenTail(b: seq<Byte>)
    requires |b| == 16
    ensures Flatten(StructTail(b)) == b[8..16]
  {
    var g := StructTail(b);
    FlattenSingles(b, 8, 8);
    assert g == SingleBytes(b, 8, 8);
  }

  /** The `n` one-byte groups of `b` starting at `start`. */
  function SingleBytes(b: seq<Byte>, start: nat, n: nat): seq<seq<Byte>>
    requires start + n <= |b|
  {
    seq(n, k requires 0 <= k < n => b[start + k..start + k + 1])
  }

  lemma {:induction false} FlattenSingles(b: seq<Byte>, start: nat, n: nat)
    requires start + n <= |b|
    ensures Flatten(SingleBytes(b, start, n)) == b[start..start + n]
  {
    if n > 0 {
      var g := SingleBytes(b, start, n);
      assert g[..n - 1] == SingleBytes(b, start, n - 1);
      FlattenSingles(b, start, n - 1);
      SliceConcat(b, start, start + n - 1, start + n);
    }
  }

  lemma ScanStruct(b: seq<Byte>)
    requires |b| == 16
    ensures Scan(StructText(b)) == b
  {
    ScanStructFrame(Fields(StructHead(b)), Fields(StructTail(b)));
    ScanFields(StructHead(b));
    ScanFields(StructTail(b));
    FlattenHead(b);
    FlattenTail(b);
    SliceConcat(b, 0, 8, 16);
    assert b[0..16] == b;
  }

  /**
    Every rendering parses back to the bytes it was made from: the default,
    braced, no-hyphen and struct forms, and their upper-case variants.
  */
  lemma ParseRender(b: seq<Byte>, format: Option<string>)
    requires |b| == 16
    ensures Parse(Render(b, format)) == b
    ensures Parse(ToUpper(Render(b, format))) == b
  {
    var r := Render(b, format);
    match StyleOf(format) {
      case DefaultStyle => ScanUnparse(b);
      case BracedStyle => ScanUnparse(b); ScanBraced(Unparse(b));
      case NoHyphenStyle => NoHyphenIsHex(b); ScanHex(b);
      case StructStyle => ScanStruct(b);
    }
    ScanUpper(r);
  }

  // ---------------------------------------------------------------- the class

  /** A globally unique identifier: a mutable 16-byte buffer. */
  class Guid {
    var buffer: array<Byte>

    ghost predicate Valid()
      reads this
    {
      buffer.Length == 16
    }

    /** The current content of the buffer. */
    function Bytes(): seq<Byte>
      reads this, buffer
    {
      buffer[..]
    }

    /**
      `new Guid(input)`: every matched two-digit run fills the next byte
      while fewer than sixteen are filled; a zero fill completes the rest.
    */
    constructor (input: string)
      ensures Valid() && fresh(buffer)
      ensures Bytes() == Parse(input)
    {
      buffer := new Byte[16];
      new;
      var i := CopyScan(buffer, input);
      ghost var filled := i;
      ghost var found := Scan(input);
      while i < 16
        invariant filled <= i <= 16
        invariant buffer.Length == 16 && fresh(buffer)
        invariant forall k :: 0 <= k < filled ==> buffer[k] == found[k]
        invariant forall k :: filled <= k < i ==> buffer[k] == 0
      {
        buffer[i] := 0;
        i := i + 1;
      }
      ParseEqualsFill(input, buffer[..], filled);
    }

    /** A fresh identifier from the sixteen bytes of a random version-4 UUID. */
    constructor Generate(random: seq<Byte>)
      requires |random| == 16
      ensures Valid() && fresh(buffer)
      ensures Bytes() == random
    {
      buffer := new Byte[16](k => if 0 <= k < |random| then random[k] else 0);
    }

    /** `toBuffer`: the stored buffer itself, not a copy. */
    method ToBuffer() returns (b: array<Byte>)
      ensures b == buffer
    {
      b := buffer;
    }

    /** `toString(format)` of the current buffer content. */
    function ToString(format: Option<string>): (s: string)
      requires Valid()
      reads this, buffer
      ensures Parse(s) == buffer[..] && Parse(ToUpper(s)) == buffer[..]
    {
      ParseRender(buffer[..], format);
      Render(buffer[..], format)
    }
  }

  /**
    The scanning loop of the constructor: each matched run, in order, is
    written to the next free byte until sixteen are filled; the number of
    filled bytes is returned.
  */
  method CopyScan(buf: array<Byte>, input: string) returns (i: nat)
    requires buf.Length == 16
    modifies buf
    ensures i == if |Scan(input)| < 16 then |Scan(input)| else 16
    ensures forall k :: 0 <= k < i ==> buf[k] == Scan(input)[k]
    ensures forall k :: i <= k < 16 ==> buf[k] == old(buf[k])
  {
    i := 0;
    var p := 0;
    ghost var found: seq<Byte> := [];
    while p < |input|
      invariant 0 <= p <= |input|
      invariant found + Scan(input[p..]) == Scan(input)
      invariant i == if |found| < 16 then |found| else 16
      invariant i <= |found| && forall k :: 0 <= k < i ==> buf[k] == found[k]
      invariant forall k :: i <= k < 16 ==> buf[k] == old(buf[k])
      decreases |input| - p
    {
      ScanAt(input, p);
      if p + 1 < |input| && IsHexChar(input[p]) && IsHexChar(input[p + 1]) {
        var octet := PairValue(input[p], input[p + 1]);
        if i < 16 {
          buf[i] := octet;
          i := i + 1;
        }
        AppendAssoc(found, [octet], Scan(input[p + 2..]));
        found := found + [octet];
        p := p + 2;
      } else {
        p := p + 1;
      }
    }
    assert input[p..] == [];
  }

  /** One step of the scan at position `p` of the input. */
  lemma ScanAt(s: string, p: nat)
    requires p < |s|
    ensures p + 1 < |s| && IsHexChar(s[p]) && IsHexChar(s[p + 1]) ==>
              Scan(s[p..]) == [PairValue(s[p], s[p + 1])] + Scan(s[p + 2..])
    ensures !(p + 1 < |s| && IsHexChar(s[p]) && IsHexChar(s[p + 1])) ==> Scan(s[p..]) == Scan(s[p + 1..])
  {
    var t := s[p..];
    if p + 1 < |s| {
      assert t[0] == s[p] && t[1] == s[p + 1] && t[2..] == s[p + 2..] && t[1..] == s[p + 1..];
    } else {
      assert |t| == 1 && s[p + 1..] == [];
    }
  }

  /** The two loops of the constructor leave exactly `Parse(input)` in the buffer. */
  lemma ParseEqualsFill(input: string, buf: seq<Byte>, filled: nat)
    requires |buf| == 16
    requires filled == if |Scan(input)| < 16 then |Scan(input)| else 16
    requires forall k :: 0 <= k < filled ==> buf[k] == Scan(input)[k]
    requires forall k :: filled <= k < 16 ==> buf[k] == 0
    ensures buf == Parse(input)
  {
    var p := Parse(input);
    forall k | 0 <= k < 16 ensures buf[k] == p[k] {
      ParseByte(input, k);
    }
  }

  /** `Guid.EMPTY`: the identifier parsed from "0", all zero bytes. */
  method Empty() returns (g: Guid)
    ensures fresh(g) && fresh(g.buffer) && g.Valid()
    ensures g.Bytes() == Zeros(16)
  {
    g := new Guid("0");
    ParseNoPairs("0");
  }

  /** "z" and "0" hold no two-digit run, so they parse to the all-zero identifier. */
  lemma ParseLoneCharacters()
    ensures Parse("0") == Zeros(16)
    ensures Parse("z") == Zeros(16)
  {
    ParseNoPairs("0");
    ParseNoPairs("z");
  }

  /** The all-zero identifier renders as thirty-two zeros in the default form. */
  lemma EmptyRendering()
    ensures Render(Zeros(16), None) == "00000000-0000-0000-0000-000000000000"
  {
    var z := Zeros(16);
    assert StyleOf(None) == DefaultStyle;
    assert Render(z, None) == Unparse(z);
    UnparseZeros();
    ZeroLiteral();
  }

  /** From `i` on, `b` holds the bytes 01 23 45 67 89 ab cd ef. */
  predicate SampleHalfAt(b: seq<Byte>, i: nat) {
    i + 8 <= |b| && b[i] == 0x01 && b[i + 1] == 0x23 && b[i + 2] == 0x45 && b[i + 3] == 0x67 &&
    b[i + 4] == 0x89 && b[i + 5] == 0xab && b[i + 6] == 0xcd && b[i + 7] == 0xef
  }

  /** `b` holds the bytes 01 23 45 67 89 ab cd ef, twice. */
  predicate IsSample(b: seq<Byte>) {
    |b| == 16 && SampleHalfAt(b, 0) && SampleHalfAt(b, 8)
  }

  /** The renderings of a non-zero identifier, spelt out. */
  lemma SampleRendering(b: seq<Byte>)
    requires IsSample(b)
    ensures Render(b, None) == "01234567" + "-" + "89ab" + "-" + "cdef" + "-" + "0123" + "-" + "456789abcdef"
    ensures Render(b, Some("no-hyphen")) == "0123456789abcdef" + "0123456789abcdef"
    ensures Render(b, Some("x")) ==
      "{" + "0x01234567, 0x89ab, 0xcdef" + ", {" + ("0x01, 0x23, 0x45, 0x67" + ", 0x89, 0xab, 0xcd, 0xef") + "}}"
  {
    SampleGroups(b);
    SampleForms(b);
    RenderForms(b);
  }

  /** The default form, the hex and the struct text of the sample. */
  lemma SampleForms(b: seq<Byte>)
    requires SampleHex(b)
    ensures Unparse(b) == "01234567" + "-" + "89ab" + "-" + "cdef" + "-" + "0123" + "-" + "456789abcdef"
    ensures Hex(b) == "0123456789abcdef" + "0123456789abcdef"
    ensures StructText(b) ==
      "{" + "0x01234567, 0x89ab, 0xcdef" + ", {" + ("0x01, 0x23, 0x45, 0x67" + ", 0x89, 0xab, 0xcd, 0xef") + "}}"
  {
    SampleDefault(b);
    SampleNoHyphen(b);
    SampleHead(b);
    SampleTail(b);
  }

  /** The hex of the sample's groups, as the three forms use them. */
  predicate SampleHex(b: seq<Byte>) {
    |b| == 16 &&
    Hex(b[0..4]) == "01234567" && Hex(b[4..6]) == "89ab" && Hex(b[6..8]) == "cdef" &&
    Hex(b[8..10]) == "0123" && Hex(b[10..16]) == "456789abcdef" &&
    Hex(b[0..8]) == Hex(b[8..16]) == "0123456789abcdef" &&
    Hex(b[8..9]) == "01" && Hex(b[9..10]) == "23" && Hex(b[10..11]) == "45" &&
    Hex(b[11..12]) == "67" && Hex(b[12..13]) == "89" && Hex(b[13..14]) == "ab" &&
    Hex(b[14..15]) == "cd" && Hex(b[15..16]) == "ef"
  }

  lemma SampleGroups(b: seq<Byte>)
    requires IsSample(b)
    ensures SampleHex(b)
  {
    SampleLow(b);
    SampleHigh(b);
  }

  /** The groups of the first eight bytes. */
  lemma SampleLow(b: seq<Byte>)
    requires |b| == 16 && SampleHalfAt(b, 0)
    ensures Hex(b[0..4]) == "01234567" && Hex(b[4..6]) == "89ab" && Hex(b[6..8]) == "cdef"
    ensures Hex(b[0..8]) == "0123456789abcdef"
  {
    SampleDigits();
    SampleJoins();
    HexOneAt(b, 0); HexOneAt(b, 1); HexOneAt(b, 2); HexOneAt(b, 3);
    HexOneAt(b, 4); HexOneAt(b, 5); HexOneAt(b, 6); HexOneAt(b, 7);
    HexJoin(b, 0, 1, 2, "01", "23");
    HexJoin(b, 2, 3, 4, "45", "67");
    HexJoin(b, 4, 5, 6, "89", "ab");
    HexJoin(b, 6, 7, 8, "cd", "ef");
    HexJoin(b, 0, 2, 4, "0123", "4567");
    HexJoin(b, 4, 6, 8, "89ab", "cdef");
    HexJoin(b, 0, 4, 8, "01234567", "89abcdef");
  }

  /** The groups and single bytes of the last eight bytes. */
  lemma SampleHigh(b: seq<Byte>)
    requires |b| == 16 && SampleHalfAt(b, 8)
    ensures Hex(b[8..10]) == "0123" && Hex(b[10..16]) == "456789abcdef" && Hex(b[8..16]) == "0123456789abcdef"
    ensures Hex(b[8..9]) == "01" && Hex(b[9..10]) == "23" && Hex(b[10..11]) == "45"
    ensures Hex(b[11..12]) == "67" && Hex(b[12..13]) == "89" && Hex(b[13..14]) == "ab"
    ensures Hex(b[14..15]) == "cd" && Hex(b[15..16]) == "ef"
  {
    SampleHalf(b, 8);
    SampleSingles(b, 8);
  }

  lemma SampleDefault(b: seq<Byte>)
    requires |b| == 16
    requires Hex(b[0..4]) == "01234567" && Hex(b[4..6]) == "89ab" && Hex(b[6..8]) == "cdef"
    requires Hex(b[8..10]) == "0123" && Hex(b[10..16]) == "456789abcdef"
    ensures Unparse(b) == "01234567" + "-" + "89ab" + "-" + "cdef" + "-" + "0123" + "-" + "456789abcdef"
  {
    UnparseGroups(b);
  }

  lemma SampleNoHyphen(b: seq<Byte>)
    requires |b| == 16
    requires Hex(b[0..8]) == Hex(b[8..16]) == "0123456789abcdef"
    ensures Hex(b) == "0123456789abcdef" + "0123456789abcdef"
  {
    HexSlices(b, 0, 8, 16);
    HexWhole(b);
  }

  /** The slice over the whole buffer renders as the buffer does. */
  lemma HexWhole(bs: seq<Byte>)
    ensures Hex(bs[0..|bs|]) == Hex(bs)
  {
    assert bs[0..|bs|] == bs;
  }

  /** The digits of the sample's bytes. */
  lemma SampleDigits()
    ensures ByteHex(0x01) == "01" && ByteHex(0x23) == "23" && ByteHex(0x45) == "45" && ByteHex(0x67) == "67"
    ensures ByteHex(0x89) == "89" && ByteHex(0xab) == "ab" && ByteHex(0xcd) == "cd" && ByteHex(0xef) == "ef"
  {
  }

  /** Node's 'hex' of a slice: the first byte's digits, then the rest. */
  lemma HexCons(bs: seq<Byte>, i: nat, j: nat)
    requires i < j <= |bs|
    ensures Hex(bs[i..j]) == ByteHex(bs[i]) + Hex(bs[i + 1..j])
  {
    assert bs[i..j][0] == bs[i] && bs[i..j][1..] == bs[i + 1..j];
  }

  /** Node's 'hex' of a one-byte slice. */
  lemma HexOneAt(bs: seq<Byte>, k: nat)
    requires k < |bs|
    ensures Hex(bs[k..k + 1]) == ByteHex(bs[k])
  {
    HexCons(bs, k, k + 1);
    assert bs[k + 1..k + 1] == [];
  }

  /** The hex of each of the eight sample bytes starting at `i`. */
  lemma SampleSingles(b: seq<Byte>, i: nat)
    requires SampleHalfAt(b, i)
    ensures Hex(b[i..i + 1]) == "01" && Hex(b[i + 1..i + 2]) == "23" && Hex(b[i + 2..i + 3]) == "45"
    ensures Hex(b[i + 3..i + 4]) == "67" && Hex(b[i + 4..i + 5]) == "89" && Hex(b[i + 5..i + 6]) == "ab"
    ensures Hex(b[i + 6..i + 7]) == "cd" && Hex(b[i + 7..i + 8]) == "ef"
  {
    SampleDigits();
    HexOneAt(b, i); HexOneAt(b, i + 1); HexOneAt(b, i + 2); HexOneAt(b, i + 3);
    HexOneAt(b, i + 4); HexOneAt(b, i + 5); HexOneAt(b, i + 6); HexOneAt(b, i + 7);
  }

  /** Node's 'hex' of two adjacent slices, given the hex of each. */
  lemma HexJoin(b: seq<Byte>, i: nat, j: nat, k: nat, x: string, y: string)
    requires i <= j <= k <= |b| && Hex(b[i..j]) == x && Hex(b[j..k]) == y
    ensures Hex(b[i..k]) == x + y
  {
    HexSlices(b, i, j, k);
  }

  /** The digit strings the sample's groups join into. */
  lemma SampleJoins()
    ensures "01" + "23" == "0123" && "45" + "67" == "4567" && "89" + "ab" == "89ab" && "cd" + "ef" == "cdef"
    ensures "0123" + "4567" == "01234567" && "89ab" + "cdef" == "89abcdef"
    ensures "01234567" + "89abcdef" == "0123456789abcdef" && "4567" + "89abcdef" == "456789abcdef"
  {
  }

  /** The hex of the four byte pairs of the sample starting at `i`. */
  lemma SamplePairs(b: seq<Byte>, i: nat)
    requires SampleHalfAt(b, i)
    ensures Hex(b[i..i + 2]) == "0123" && Hex(b[i + 2..i + 4]) == "4567"
    ensures Hex(b[i + 4..i + 6]) == "89ab" && Hex(b[i + 6..i + 8]) == "cdef"
  {
    SampleSingles(b, i);
    SampleJoins();
    HexJoin(b, i, i + 1, i + 2, "01", "23");
    HexJoin(b, i + 2, i + 3, i + 4, "45", "67");
    HexJoin(b, i + 4, i + 5, i + 6, "89", "ab");
    HexJoin(b, i + 6, i + 7, i + 8, "cd", "ef");
  }

  /** The hex of the groups of eight sample bytes starting at `i`. */
  lemma SampleHalf(b: seq<Byte>, i: nat)
    requires SampleHalfAt(b, i)
    ensures Hex(b[i..i + 4]) == "01234567" && Hex(b[i + 4..i + 6]) == "89ab" && Hex(b[i + 6..i + 8]) == "cdef"
    ensures Hex(b[i..i + 8]) == "0123456789abcdef"
    ensures Hex(b[i..i + 2]) == "0123" && Hex(b[i + 2..i + 8]) == "456789abcdef"
  {
    SamplePairs(b, i);
    SampleJoins();
    HexJoin(b, i, i + 2, i + 4, "0123", "4567");
    HexJoin(b, i + 4, i + 6, i + 8, "89ab", "cdef");
    HexJoin(b, i, i + 4, i + 8, "01234567", "89abcdef");
    HexJoin(b, i + 2, i + 4, i + 8, "4567", "89abcdef");
  }

  /** The prefix as long as the whole sequence is the sequence. */
  lemma TakeWhole<T>(g: seq<T>)
    ensures g[..|g|] == g
  {
  }

  /** The struct fields of the first group. */
  lemma FieldsFirst(g: seq<seq<Byte>>)
    requires 1 <= |g|
    ensures Fields(g[..1]) == "0x" + Hex(g[0])
  {
  }

  /** The struct fields of one more group: a comma, then that group's field. */
  lemma FieldsSnoc(g: seq<seq<Byte>>, k: nat)
    requires 1 <= k < |g|
    ensures Fields(g[..k + 1]) == Fields(g[..k]) + ", 0x" + Hex(g[k])
  {
    assert g[..k + 1][..k] == g[..k];
  }

  /** The struct fields of three groups, one by one. */
  lemma FieldsThree(g: seq<seq<Byte>>)
    requires |g| == 3
    ensures Fields(g) == "0x" + Hex(g[0]) + ", 0x" + Hex(g[1]) + ", 0x" + Hex(g[2])
  {
    FieldsFirst(g);
    FieldsSnoc(g, 1);
    FieldsSnoc(g, 2);
    TakeWhole(g);
  }

  /** The struct fields of eight groups, one by one. */
  lemma FieldsEight(g: seq<seq<Byte>>)
    requires |g| == 8
    ensures Fields(g) == "0x" + Hex(g[0]) + ", 0x" + Hex(g[1]) + ", 0x" + Hex(g[2]) + ", 0x" + Hex(g[3]) +
                         ", 0x" + Hex(g[4]) + ", 0x" + Hex(g[5]) + ", 0x" + Hex(g[6]) + ", 0x" + Hex(g[7])
  {
    FieldsFirst(g);
    FieldsSnoc(g, 1); FieldsSnoc(g, 2); FieldsSnoc(g, 3); FieldsSnoc(g, 4);
    FieldsSnoc(g, 5); FieldsSnoc(g, 6); FieldsSnoc(g, 7);
    TakeWhole(g);
  }

  lemma SampleHead(b: seq<Byte>)
    requires |b| == 16
    requires Hex(b[0..4]) == "01234567" && Hex(b[4..6]) == "89ab" && Hex(b[6..8]) == "cdef"
    ensures Fields(StructHead(b)) == "0x01234567, 0x89ab, 0xcdef"
  {
    FieldsThree(StructHead(b));
    HeadLiteral();
  }

  lemma HeadLiteral()
    ensures "0x" + "01234567" + ", 0x" + "89ab" + ", 0x" + "cdef" == "0x01234567, 0x89ab, 0xcdef"
  {
  }

  lemma SampleTail(b: seq<Byte>)
    requires |b| == 16
    requires Hex(b[8..9]) == "01" && Hex(b[9..10]) == "23" && Hex(b[10..11]) == "45"
    requires Hex(b[11..12]) == "67" && Hex(b[12..13]) == "89" && Hex(b[13..14]) == "ab"
    requires Hex(b[14..15]) == "cd" && Hex(b[15..16]) == "ef"
    ensures Fields(StructTail(b)) == "0x01, 0x23, 0x45, 0x67" + ", 0x89, 0xab, 0xcd, 0xef"
  {
    FieldsEight(StructTail(b));
    TailLiteral();
  }

  lemma TailLiteral()
    ensures "0x" + "01" + ", 0x" + "23" + ", 0x" + "45" + ", 0x" + "67" +
            ", 0x" + "89" + ", 0x" + "ab" + ", 0x" + "cd" + ", 0x" + "ef" ==
            "0x01, 0x23, 0x45, 0x67" + ", 0x89, 0xab, 0xcd, 0xef"
  {
    TailLow();
    TailHigh("0x01, 0x23, 0x45, 0x67");
  }

  lemma TailLow()
    ensures "0x" + "01" + ", 0x" + "23" + ", 0x" + "45" + ", 0x" + "67" == "0x01, 0x23, 0x45, 0x67"
  {
  }

  lemma TailHigh(x: string)
    ensures x + ", 0x" + "89" + ", 0x" + "ab" + ", 0x" + "cd" + ", 0x" + "ef" == x + ", 0x89, 0xab, 0xcd, 0xef"
  {
  }

  lemma UnparseZeros()
    ensures Unparse(Zeros(16)) ==
            ZeroDigits(4) + "-" + ZeroDigits(2) + "-" + ZeroDigits(2) + "-" + ZeroDigits(2) + "-" + ZeroDigits(6)
  {
    var z := Zeros(16);
    ZeroRange(z, 0, 4);
    ZeroRange(z, 4, 6);
    ZeroRange(z, 6, 8);
    ZeroRange(z, 8, 10);
    ZeroRange(z, 10, 16);
  }

  lemma ZeroLiteral()
    ensures ZeroDigits(4) + "-" + ZeroDigits(2) + "-" + ZeroDigits(2) + "-" + ZeroDigits(2) + "-" + ZeroDigits(6) ==
            "00000000-0000-0000-0000-000000000000"
  {
  }

  /** `2 * n` zero digits, as a literal. */
  function ZeroDigits(n: nat): (s: string)
    requires n == 2 || n == 4 || n == 6
    ensures s == seq(2 * n, _ => '0')
  {
    if n == 2 then "0000" else if n == 4 then "00000000" else "000000000000"
  }

  lemma ZeroRange(z: seq<Byte>, lo: nat, hi: nat)
    requires z == Zeros(16) && lo <= hi <= 16
    ensures HexRange(z, lo, hi) == seq(2 * (hi - lo), _ => '0')
  {
    assert z[lo..hi] == Zeros(hi - lo);
    HexZeros(hi - lo);
  }

  lemma {:induction false} HexZeros(n: nat)
    ensures Hex(Zeros(n)) == seq(2 * n, _ => '0')
  {
    if n > 0 {
      assert Zeros(n)[0] == 0 && Zeros(n)[1..] == Zeros(n - 1);
      HexZeros(n - 1);
    }
  }

  /**
    Writing through the buffer that `toBuffer` returned changes what the same
    identifier renders afterwards (`g.toBuffer().fill(v)`).
  */
  method FillThroughBuffer(g: Guid, v: Byte)
    requires g.Valid()
    modifies g.buffer
    ensures g.Valid() && g.Bytes() == seq(16, _ => v)
    ensures g.ToString(None) == Unparse(seq(16, _ => v))
  {
    var b := g.ToBuffer();
    for k := 0 to 16
      invariant b == g.buffer
      invariant forall j :: 0 <= j < k ==> b[j] == v
    {
      b[k] := v;
    }
  }
}
