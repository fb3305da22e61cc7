/**
  The insert commands' format engine: the table of quick-pick renderings,
  the flag rule that selects and numbers them, the quick-pick item with its
  `label`, `description`, `text` and `named` views, and the
  paste-automatically template substitution.
*/
module Commands {
  import opened Wrappers
  import opened Text
  import opened Guids

  /** The category of a quick-pick format. */
  datatype FormatType = Lowercase | Uppercase | Snippet | Custom

  /**
    The rendering lambdas of the format table, the preface and epilogue
    lambdas of the named snippets, and the custom formatter of a
    paste-automatically template. Every table lambda renders one
    `toString(key)`, optionally strips its braces (`replace(/[{}]/g, '')`) or
    upper-cases it, and wraps it in fixed text.
  */
  datatype Rendering =
    | Rendered(prefix: string, key: Option<string>, unbrace: bool, upper: bool, suffix: string)
    | Fixed(text: string)
    | Substitution(template: string)

  /** What a rendering writes for the 16 bytes of a GUID (`util.format` is concatenation). */
  function Apply(r: Rendering, b: seq<Byte>): string
    requires |b| == 16
  {
    match r
    case Rendered(prefix, key, unbrace, upper, suffix) =>
      var t := if unbrace then RemoveChars(Render(b, key), {'{', '}'}) else Render(b, key);
      prefix + (if upper then ToUpper(t) else t) + suffix
    case Fixed(text) => text
    case Substitution(t) => Substitute(t, b)
  }

  /** A bare `toString(key)`, possibly upper-cased. */
  function Shown(key: Option<string>, upper: bool): Rendering {
    Rendered("", key, false, upper, "")
  }

  /** A bare rendering writes `toString(key)` and nothing around it. */
  lemma ShownApply(key: Option<string>, upper: bool, b: seq<Byte>)
    requires |b| == 16
    ensures Apply(Shown(key, upper), b) == if upper then ToUpper(Render(b, key)) else Render(b, key)
  {
    var t := Render(b, key);
    assert "" + t + "" == t;
    assert "" + ToUpper(t) + "" == ToUpper(t);
  }

  /** A framed rendering writes its prefix, `toString(key)` (upper-cased if asked) and its suffix. */
  lemma RenderedApply(prefix: string, key: Option<string>, upper: bool, suffix: string, b: seq<Byte>)
    requires |b| == 16
    ensures Apply(Rendered(prefix, key, false, upper, suffix), b) ==
      prefix + (if upper then ToUpper(Render(b, key)) else Render(b, key)) + suffix
  {
  }

  const LowerDefault: Rendering := Shown(None, false)
  const LowerBraced: Rendering := Shown(Some("braced"), false)
  const UpperDefault: Rendering := Shown(None, true)
  const UpperBraced: Rendering := Shown(Some("braced"), true)
  const StructDeclaration: Rendering :=
    Rendered("static const struct GUID " + NamePlaceholder + " = ", Some("struct"), false, false, ";")
  const DefineGuidMacro: Rendering :=
    Rendered("DEFINE_GUID(" + NamePlaceholder + ", ", Some("struct"), true, false, ");")
  const LowerNoHyphen: Rendering := Shown(Some("no-hyphen"), false)
  const UpperNoHyphen: Rendering := Shown(Some("no-hyphen"), true)
  const StructLiteral: Rendering := Shown(Some("x"), false)
  const RustConstant: Rendering :=
    Rendered("const " + NamePlaceholder + ": GUID = GUID", Some("structrs"), false, false, ";")
  /** The preface of the named snippets: the braced form as a comment line. */
  const BracedComment: Rendering := Rendered("// ", Some("braced"), false, false, "\n")
  /** The epilogue of the named snippets. */
  const LineBreak: Rendering := Fixed("\n")

  /** One entry of the format table: `GuidPickFormat`. */
  datatype PickFormat = PickFormat(
    format: Rendering,
    kind: FormatType,
    preface: Option<Rendering>,
    epilogue: Option<Rendering>,
    named: Option<bool>)

  /** A plain entry: no preface, no epilogue, no `named` flag. */
  function PlainFormat(format: Rendering, kind: FormatType): PickFormat {
    PickFormat(format, kind, None, None, None)
  }

  /** A named snippet: the braced form as a comment line before it and a line break after it. */
  function NamedSnippet(format: Rendering): PickFormat {
    PickFormat(format, Snippet, Some(BracedComment), Some(LineBreak), Some(true))
  }

  /** `FORMATS`, in table order. */
  const Formats: seq<PickFormat> := [
    PlainFormat(LowerDefault, Lowercase),
    PlainFormat(LowerBraced, Lowercase),
    PlainFormat(UpperDefault, Uppercase),
    PlainFormat(UpperBraced, Uppercase),
    NamedSnippet(StructDeclaration),
    NamedSnippet(DefineGuidMacro),
    PlainFormat(LowerNoHyphen, Lowercase),
    PlainFormat(UpperNoHyphen, Uppercase),
    PlainFormat(StructLiteral, Snippet),
    NamedSnippet(RustConstant)
  ]

  /** The text an item inserts: preface (if any), then the rendering, then epilogue (if any). */
  function TextOf(f: PickFormat, b: seq<Byte>): string
    requires |b| == 16
  {
    (if f.preface.Some? then Apply(f.preface.value, b) else "") +
    Apply(f.format, b) +
    (if f.epilogue.Some? then Apply(f.epilogue.value, b) else "")
  }

  // ---------------------------------------------------------------- selection

  /** Whether a format of this category is listed under the three show flags. */
  predicate Keep(kind: FormatType, lower: bool, upper: bool, snippets: bool) {
    ((lower || (!upper && !snippets)) && kind == Lowercase) ||
    (upper && kind == Uppercase) ||
    (snippets && kind == Snippet)
  }

  /** Entry `k` of `fs` if the flags keep it, and nothing otherwise. */
  function Entry(fs: seq<PickFormat>, k: nat, lower: bool, upper: bool, snippets: bool): seq<PickFormat>
    requires k < |fs|
  {
    if Keep(fs[k].kind, lower, upper, snippets) then [fs[k]] else []
  }

  /** The entries among the first `n` of `fs` that the flags keep, in order. */
  function Kept(fs: seq<PickFormat>, n: nat, lower: bool, upper: bool, snippets: bool): (r: seq<PickFormat>)
    requires n <= |fs|
    ensures |r| <= n
  {
    if n == 0 then [] else Kept(fs, n - 1, lower, upper, snippets) + Entry(fs, n - 1, lower, upper, snippets)
  }

  /** The formats offered in the quick pick: table entries whose category the flags keep. */
  function Selected(lower: bool, upper: bool, snippets: bool): (r: seq<PickFormat>)
    ensures |r| <= |Formats|
    ensures forall k :: 0 <= k < |r| ==> r[k] in Formats && Keep(r[k].kind, lower, upper, snippets)
  {
    KeptSound(Formats, |Formats|, lower, upper, snippets);
    Kept(Formats, |Formats|, lower, upper, snippets)
  }

  /** Every entry kept from the first `n` is an entry of `fs` whose category the flags keep. */
  lemma {:induction false} KeptSound(fs: seq<PickFormat>, n: nat, lower: bool, upper: bool, snippets: bool)
    requires n <= |fs|
    ensures forall k :: 0 <= k < |Kept(fs, n, lower, upper, snippets)| ==>
      Kept(fs, n, lower, upper, snippets)[k] in fs && Keep(Kept(fs, n, lower, upper, snippets)[k].kind, lower, upper, snippets)
  {
    if n > 0 {
      KeptSound(fs, n - 1, lower, upper, snippets);
    }
  }

  /** An entry among the first `n` is kept exactly when the flags keep its category. */
  lemma {:induction false} KeptMembers(fs: seq<PickFormat>, n: nat, lower: bool, upper: bool, snippets: bool, f: PickFormat)
    requires n <= |fs|
    ensures f in Kept(fs, n, lower, upper, snippets) <==>
      (exists k :: 0 <= k < n && fs[k] == f) && Keep(f.kind, lower, upper, snippets)
  {
    if n > 0 {
      KeptMembers(fs, n - 1, lower, upper, snippets, f);
    }
  }

  /** One more entry of the table, filtered. */
  lemma KeptStep(fs: seq<PickFormat>, n: nat, lower: bool, upper: bool, snippets: bool)
    requires 0 < n <= |fs|
    ensures Kept(fs, n, lower, upper, snippets) ==
      Kept(fs, n - 1, lower, upper, snippets) + Entry(fs, n - 1, lower, upper, snippets)
  {
  }

  /** A ten-entry table filtered entry by entry. */
  lemma KeptTen(fs: seq<PickFormat>, lower: bool, upper: bool, snippets: bool)
    requires |fs| == 10
    ensures Kept(fs, 10, lower, upper, snippets) ==
      Entry(fs, 0, lower, upper, snippets) + Entry(fs, 1, lower, upper, snippets) +
      Entry(fs, 2, lower, upper, snippets) + Entry(fs, 3, lower, upper, snippets) +
      Entry(fs, 4, lower, upper, snippets) + Entry(fs, 5, lower, upper, snippets) +
      Entry(fs, 6, lower, upper, snippets) + Entry(fs, 7, lower, upper, snippets) +
      Entry(fs, 8, lower, upper, snippets) + Entry(fs, 9, lower, upper, snippets)
  {
    KeptFive(fs, lower, upper, snippets);
    KeptStep(fs, 6, lower, upper, snippets);
    KeptStep(fs, 7, lower, upper, snippets);
    KeptStep(fs, 8, lower, upper, snippets);
    KeptStep(fs, 9, lower, upper, snippets);
    KeptStep(fs, 10, lower, upper, snippets);
  }

  lemma KeptFive(fs: seq<PickFormat>, lower: bool, upper: bool, snippets: bool)
    requires |fs| >= 5
    ensures Kept(fs, 5, lower, upper, snippets) ==
      Entry(fs, 0, lower, upper, snippets) + Entry(fs, 1, lower, upper, snippets) +
      Entry(fs, 2, lower, upper, snippets) + Entry(fs, 3, lower, upper, snippets) +
      Entry(fs, 4, lower, upper, snippets)
  {
    KeptStep(fs, 1, lower, upper, snippets);
    assert [] + Entry(fs, 0, lower, upper, snippets) == Entry(fs, 0, lower, upper, snippets);
    KeptStep(fs, 2, lower, upper, snippets);
    KeptStep(fs, 3, lower, upper, snippets);
    KeptStep(fs, 4, lower, upper, snippets);
    KeptStep(fs, 5, lower, upper, snippets);
  }

  /**
    The quick-pick list entry by entry: the table entries the flags keep, in
    table order.
  */
  lemma SelectedOrder(lower: bool, upper: bool, snippets: bool)
    ensures Selected(lower, upper, snippets) ==
      Entry(Formats, 0, lower, upper, snippets) + Entry(Formats, 1, lower, upper, snippets) +
      Entry(Formats, 2, lower, upper, snippets) + Entry(Formats, 3, lower, upper, snippets) +
      Entry(Formats, 4, lower, upper, snippets) + Entry(Formats, 5, lower, upper, snippets) +
      Entry(Formats, 6, lower, upper, snippets) + Entry(Formats, 7, lower, upper, snippets) +
      Entry(Formats, 8, lower, upper, snippets) + Entry(Formats, 9, lower, upper, snippets)
  {
    KeptTen(Formats, lower, upper, snippets);
  }

  /** The number of items is 3 per lowercase, 3 per uppercase and 4 per snippet category shown. */
  lemma SelectedCount(lower: bool, upper: bool, snippets: bool)
    ensures |Selected(lower, upper, snippets)| ==
      (if lower || (!upper && !snippets) then 3 else 0) + (if upper then 3 else 0) + (if snippets then 4 else 0)
    ensures |Selected(lower, upper, snippets)| > 0
  {
    SelectedOrder(lower, upper, snippets);
  }

  /** With every flag off the three lowercase entries are offered: default, braced, no-hyphen. */
  lemma SelectedNoFlags()
    ensures Selected(false, false, false) == [Formats[0], Formats[1], Formats[6]]
    ensures forall f :: f in Selected(false, false, false) ==> f.kind == Lowercase
  {
    SelectedOrder(false, false, false);
  }

  /** With every flag on the whole table is offered, in order. */
  lemma SelectedAllFlags()
    ensures Selected(true, true, true) == Formats
  {
    SelectedOrder(true, true, true);
  }

  /** The default settings (lowercase and snippets shown, uppercase hidden) offer seven items. */
  lemma SelectedDefaults()
    ensures Selected(true, false, true) ==
      [Formats[0], Formats[1], Formats[4], Formats[5], Formats[6], Formats[8], Formats[9]]
  {
    SelectedOrder(true, false, true);
  }

  /** An entry of the table is offered exactly when the flags keep its category. */
  lemma SelectedMembers(lower: bool, upper: bool, snippets: bool, f: PickFormat)
    ensures f in Selected(lower, upper, snippets) <==> f in Formats && Keep(f.kind, lower, upper, snippets)
  {
    KeptMembers(Formats, |Formats|, lower, upper, snippets, f);
  }

  // ---------------------------------------------------------------- entry texts

  /** Lower-case hex digits and the punctuation of the hyphenated and braced forms only. */
  predicate HexPunctuated(s: string) {
    forall i :: 0 <= i < |s| ==> IsLowerHexChar(s[i]) || s[i] == '-' || s[i] == '{' || s[i] == '}'
  }

  /** `upper` is `lower` with some letters a-f raised to A-F, and nothing else changed. */
  predicate CaseVariant(lower: string, upper: string) {
    |lower| == |upper| &&
    forall i :: 0 <= i < |lower| ==>
      lower[i] == upper[i] || ('a' <= lower[i] <= 'f' && upper[i] as int == lower[i] as int - 32)
  }

  lemma UpperOfHexPunctuated(s: string)
    requires HexPunctuated(s)
    ensures CaseVariant(s, ToUpper(s))
  {
  }

  /** The default, braced and no-hyphen forms: hex digits, hyphens and braces only. */
  lemma PlainRendering(b: seq<Byte>, key: Option<string>)
    requires |b| == 16
    requires key == None || key == Some("braced") || key == Some("no-hyphen")
    ensures HexPunctuated(Render(b, key))
  {
    StyleKeys();
    UnparseLayout(b);
    if key == Some("braced") {
      var u := Unparse(b);
      var w := "{" + u + "}";
      assert forall i :: 1 <= i < 37 ==> w[i] == u[i - 1];
    } else if key == Some("no-hyphen") {
      NoHyphenIsHex(b);
    }
  }

  /**
    Upper-casing the default, braced or no-hyphen form changes only the
    letters a-f, and the result still reads back as the same 16 bytes.
  */
  lemma UpperVariant(b: seq<Byte>, key: Option<string>)
    requires |b| == 16
    requires key == None || key == Some("braced") || key == Some("no-hyphen")
    ensures CaseVariant(Render(b, key), ToUpper(Render(b, key)))
    ensures Parse(Render(b, key)) == b && Parse(ToUpper(Render(b, key))) == b
  {
    PlainRendering(b, key);
    UpperOfHexPunctuated(Render(b, key));
    ParseRender(b, key);
  }

  /**
    The categories of the table: lowercase at positions 0, 1 and 6,
    uppercase at 2, 3 and 7, snippets at 4, 5, 8 and 9, and no custom entry.
  */
  lemma TableLayout()
    ensures |Formats| == 10
    ensures forall k :: 0 <= k < |Formats| ==> (Formats[k].kind == Lowercase <==> k == 0 || k == 1 || k == 6)
    ensures forall k :: 0 <= k < |Formats| ==> (Formats[k].kind == Uppercase <==> k == 2 || k == 3 || k == 7)
    ensures forall k :: 0 <= k < |Formats| ==>
      (Formats[k].kind == Snippet <==> k == 4 || k == 5 || k == 8 || k == 9)
    ensures forall k :: 0 <= k < |Formats| ==> Formats[k].kind != Custom
  {
  }

  /** The uppercase entry that stands beside a lowercase one in the table. */
  predicate Counterparts(lower: Rendering, upper: Rendering) {
    (lower == LowerDefault && upper == UpperDefault) ||
    (lower == LowerBraced && upper == UpperBraced) ||
    (lower == LowerNoHyphen && upper == UpperNoHyphen)
  }

  /**
    Each uppercase entry is `toUpperCase` of its lowercase counterpart
    (default, braced, no-hyphen), differs from it only in the letters a-f,
    and both read back as the same 16 bytes.
  */
  lemma UpperCounterparts(lower: Rendering, upper: Rendering, b: seq<Byte>)
    requires |b| == 16 && Counterparts(lower, upper)
    ensures Apply(upper, b) == ToUpper(Apply(lower, b))
    ensures CaseVariant(Apply(lower, b), Apply(upper, b))
    ensures Parse(Apply(upper, b)) == b && Parse(Apply(lower, b)) == b
  {
    var key := if lower == LowerDefault then None
               else if lower == LowerBraced then Some("braced")
               else Some("no-hyphen");
    assert lower == Shown(key, false) && upper == Shown(key, true);
    ShownApply(key, false, b);
    ShownApply(key, true, b);
    UpperVariant(b, key);
  }

  /** An entry without preface and epilogue inserts exactly its description. */
  lemma TextWithoutFrame(f: PickFormat, b: seq<Byte>)
    requires |b| == 16 && f.preface.None? && f.epilogue.None?
    ensures TextOf(f, b) == Apply(f.format, b)
  {
    assert "" + Apply(f.format, b) + "" == Apply(f.format, b);
  }

  /** A named snippet inserts the braced form as a comment line, its rendering and a line break. */
  lemma NamedSnippetText(format: Rendering, b: seq<Byte>)
    requires |b| == 16
    ensures TextOf(NamedSnippet(format), b) ==
      "// " + Render(b, Some("braced")) + "\n" + Apply(format, b) + "\n"
  {
    var f := NamedSnippet(format);
    assert f.preface == Some(BracedComment) && f.epilogue == Some(LineBreak);
    assert Apply(BracedComment, b) == "// " + Render(b, Some("braced")) + "\n";
    assert Apply(LineBreak, b) == "\n";
  }

  /**
    The named entries are the three snippets at positions 4, 5 and 9; they
    alone have a preface and an epilogue.
  */
  lemma NamedEntries()
    ensures forall k :: 0 <= k < |Formats| ==> (Formats[k].named.GetOr(false) <==> k == 4 || k == 5 || k == 9)
    ensures forall k :: 0 <= k < |Formats| && Formats[k].named.GetOr(false) ==>
      Formats[k] == NamedSnippet(Formats[k].format)
    ensures forall k :: 0 <= k < |Formats| && !Formats[k].named.GetOr(false) ==>
      Formats[k].preface.None? && Formats[k].epilogue.None?
  {
    TableLayout();
  }

  /** The struct fields hold hex digits, "0x" prefixes and ", " separators: no braces. */
  lemma {:induction false} FieldsUnbraced(groups: seq<seq<Byte>>)
    ensures forall i :: 0 <= i < |Fields(groups)| ==> Fields(groups)[i] != '{' && Fields(groups)[i] != '}'
  {
    if |groups| > 1 {
      FieldsUnbraced(groups[..|groups| - 1]);
    }
  }

  lemma BraceLiterals()
    ensures RemoveChars("{", {'{', '}'}) == ""
    ensures RemoveChars(", {", {'{', '}'}) == ", "
    ensures RemoveChars("}}", {'{', '}'}) == ""
  {
    assert RemoveChars([], {'{', '}'}) == [];
    assert "{"[1..] == [] && "}}"[1..] == "}" && "}"[1..] == [];
    assert ", {"[1..] == " {" && " {"[1..] == "{";
  }

  /** Removal distributes over a concatenation of five pieces. */
  lemma RemoveFive(a: string, b: string, c: string, d: string, e: string,
                   ra: string, rb: string, rc: string, rd: string, re: string, drop: set<char>)
    requires RemoveChars(a, drop) == ra && RemoveChars(b, drop) == rb && RemoveChars(c, drop) == rc
    requires RemoveChars(d, drop) == rd && RemoveChars(e, drop) == re
    ensures RemoveChars(a + b + c + d + e, drop) == ra + rb + rc + rd + re
  {
    RemoveCharsConcat(a, b, drop);
    RemoveCharsConcat(a + b, c, drop);
    RemoveCharsConcat(a + b + c, d, drop);
    RemoveCharsConcat(a + b + c + d, e, drop);
  }

  lemma DropEmptyEnds(f1: string, f2: string)
    ensures "" + f1 + ", " + f2 + "" == f1 + ", " + f2
  {
  }

  /** `{F1, {F2}}` with its braces removed is `F1, F2`. */
  lemma RemoveStructBraces(f1: string, f2: string)
    requires forall i :: 0 <= i < |f1| ==> f1[i] != '{' && f1[i] != '}'
    requires forall i :: 0 <= i < |f2| ==> f2[i] != '{' && f2[i] != '}'
    ensures RemoveChars("{" + f1 + ", {" + f2 + "}}", {'{', '}'}) == f1 + ", " + f2
  {
    RemoveCharsAbsent(f1, {'{', '}'});
    RemoveCharsAbsent(f2, {'{', '}'});
    BraceLiterals();
    RemoveFive("{", f1, ", {", f2, "}}", "", f1, ", ", f2, "", {'{', '}'});
    DropEmptyEnds(f1, f2);
  }

  /** The struct declaration and the `x` entry both embed the struct literal. */
  lemma StructBodies(b: seq<Byte>)
    requires |b| == 16
    ensures Apply(StructDeclaration, b) ==
      "static const struct GUID " + NamePlaceholder + " = " + StructText(b) + ";"
    ensures Apply(StructLiteral, b) == StructText(b)
  {
    StyleKeys();
    RenderedApply("static const struct GUID " + NamePlaceholder + " = ", Some("struct"), false, ";", b);
    ShownApply(Some("x"), false, b);
  }

  /** DEFINE_GUID takes the fields of the struct literal with every brace removed. */
  lemma DefineGuidBody(b: seq<Byte>)
    requires |b| == 16
    ensures Apply(DefineGuidMacro, b) ==
      "DEFINE_GUID(" + NamePlaceholder + ", " + Fields(StructHead(b)) + ", " + Fields(StructTail(b)) + ");"
  {
    var f1, f2 := Fields(StructHead(b)), Fields(StructTail(b));
    StyleKeys();
    assert Render(b, Some("struct")) == "{" + f1 + ", {" + f2 + "}}";
    FieldsUnbraced(StructHead(b));
    FieldsUnbraced(StructTail(b));
    RemoveStructBraces(f1, f2);
    UnbracedApply("DEFINE_GUID(" + NamePlaceholder + ", ", Some("struct"), ");", b, f1 + ", " + f2);
  }

  /** A rendering with its braces removed writes its prefix, the unbraced text and its suffix. */
  lemma UnbracedApply(prefix: string, key: Option<string>, suffix: string, b: seq<Byte>, body: string)
    requires |b| == 16 && RemoveChars(Render(b, key), {'{', '}'}) == body
    ensures Apply(Rendered(prefix, key, true, false, suffix), b) == prefix + body + suffix
  {
  }

  /** `structrs` is not a key `toString` knows, so the Rust constant embeds the default form. */
  lemma RustConstantBody(b: seq<Byte>)
    requires |b| == 16
    ensures Apply(RustConstant, b) == "const " + NamePlaceholder + ": GUID = GUID" + Unparse(b) + ";"
  {
    StyleFallback(Some("structrs"));
  }

  // ---------------------------------------------------------------- quick-pick items

  /** `GuidPickItem`: a numbered format bound to a GUID that `generate` may replace. */
  class PickItem {
    const index: int
    var guid: Guid
    const format: PickFormat

    ghost predicate Valid()
      reads this, guid
    {
      guid.Valid()
    }

    constructor (index: int, guid: Guid, format: PickFormat)
      requires guid.Valid()
      ensures Valid()
      ensures this.index == index && this.guid == guid && this.format == format
    {
      this.index := index;
      this.guid := guid;
      this.format := format;
    }

    /** `label`: the index in decimal. */
    function Label(): (s: string)
      reads this
      ensures index >= 0 ==> |s| >= 1 && forall i :: 0 <= i < |s| ==> '0' <= s[i] <= '9'
      ensures index < 0 ==> |s| >= 2 && s[0] == '-'
    {
      IntToString(index)
    }

    /** `description`: the rendering alone, which is the inserted text when there is no frame. */
    function Description(): (d: string)
      requires Valid()
      reads this, guid, guid.buffer
      ensures format.preface.None? && format.epilogue.None? ==> d == TextOf(format, guid.Bytes())
    {
      Apply(format.format, guid.Bytes())
    }

    /** `text`: preface, rendering and epilogue, built up in turn. */
    method Text() returns (s: string)
      requires Valid()
      ensures s == TextOf(format, guid.Bytes())
    {
      s := "";
      if format.preface.Some? {
        s := Apply(format.preface.value, guid.Bytes());
      }
      s := s + Description();
      if format.epilogue.Some? {
        s := s + Apply(format.epilogue.value, guid.Bytes());
      }
    }

    /** `named`: only an entry that says so is named. */
    function Named(): (r: bool)
      reads this
      ensures r <==> format.named == Some(true)
    {
      format.named.GetOr(false)
    }

    /** `generate`: this item alone moves on to a fresh GUID. */
    method Generate(random: seq<Byte>)
      requires |random| == 16
      modifies this
      ensures fresh(guid) && Valid() && guid.Bytes() == random
    {
      guid := new Guid.Generate(random);
    }
  }

  /**
    `getQuickPickItems`: one new item per selected format, numbered from 1 in
    table order, all bound to the same GUID.
  */
  method GetQuickPickItems(guid: Guid, lower: bool, upper: bool, snippets: bool) returns (items: seq<PickItem>)
    requires guid.Valid()
    ensures |items| == |Selected(lower, upper, snippets)|
    ensures forall k :: 0 <= k < |items| ==>
      fresh(items[k]) && items[k].Valid() && items[k].guid == guid &&
      items[k].index == k + 1 && items[k].format == Selected(lower, upper, snippets)[k]
    ensures forall k :: 0 <= k < |items| ==> items[k].Label() == NatToString(k + 1)
    ensures forall j, k :: 0 <= j < k < |items| ==> items[j] != items[k]
  {
    items := BuildItems(guid, Formats, lower, upper, snippets);
  }

  /** The loop of `getQuickPickItems` over a format table `fs`. */
  method BuildItems(guid: Guid, fs: seq<PickFormat>, lower: bool, upper: bool, snippets: bool)
    returns (items: seq<PickItem>)
    requires guid.Valid()
    ensures |items| == |Kept(fs, |fs|, lower, upper, snippets)|
    ensures forall k :: 0 <= k < |items| ==>
      fresh(items[k]) && items[k].Valid() && items[k].guid == guid &&
      items[k].index == k + 1 && items[k].format == Kept(fs, |fs|, lower, upper, snippets)[k]
    ensures forall k :: 0 <= k < |items| ==> items[k].Label() == NatToString(k + 1)
    ensures forall j, k :: 0 <= j < k < |items| ==> items[j] != items[k]
  {
    items := [];
    var nextIndex := 0;
    for i := 0 to |fs|
      invariant nextIndex == |items| == |Kept(fs, i, lower, upper, snippets)|
      invariant forall k :: 0 <= k < |items| ==>
        fresh(items[k]) && items[k].guid == guid &&
        items[k].index == k + 1 && items[k].format == Kept(fs, i, lower, upper, snippets)[k]
      invariant forall j, k :: 0 <= j < k < |items| ==> items[j] != items[k]
    {
      KeptStep(fs, i + 1, lower, upper, snippets);
      var format := fs[i];
      if Keep(format.kind, lower, upper, snippets) {
        nextIndex := nextIndex + 1;
        var item := new PickItem(nextIndex, guid, format);
        items := items + [item];
      }
    }
  }

  // ---------------------------------------------------------------- paste automatically

  /** One entry of the replacement dictionary: a token and the `toString` call it stands for. */
  datatype Replacement = Replacement(token: string, key: Option<string>, upper: bool)

  /** The dictionary in its insertion order, which is the order `for ... in` visits it. */
  const Replacements: seq<Replacement> := [
    Replacement("{b}", Some("braced"), false),
    Replacement("{B}", Some("braced"), true),
    Replacement("{d}", None, false),
    Replacement("{D}", None, true),
    Replacement("{n}", Some("no-hyphen"), false),
    Replacement("{N}", Some("no-hyphen"), true),
    Replacement("{x}", Some("x"), false),
    Replacement("{X}", Some("x"), true)
  ]

  /** What a token is replaced with. */
  function ReplacementText(r: Replacement, b: seq<Byte>): string
    requires |b| == 16
  {
    if r.upper then ToUpper(Render(b, r.key)) else Render(b, r.key)
  }

  /** `pat` occurs in `s` starting at index `i`. */
  predicate OccursAt(s: string, pat: string, i: nat) {
    i + |pat| <= |s| && s[i..i + |pat|] == pat
  }

  /** `s.indexOf(pat, from)`: the first occurrence at or after `from`, if any. */
  function IndexOf(s: string, pat: string, from: nat): (r: Option<nat>)
    ensures r.Some? ==> from <= r.value && OccursAt(s, pat, r.value)
    ensures r.Some? ==> forall j :: from <= j < r.value ==> !OccursAt(s, pat, j)
    ensures r.None? ==> forall j :: from <= j ==> !OccursAt(s, pat, j)
    decreases |s| - from
  {
    if from + |pat| > |s| then None
    else if s[from..from + |pat|] == pat then Some(from)
    else IndexOf(s, pat, from + 1)
  }

  /** `s.replace(pat, rep)` with a string pattern: only the first occurrence is replaced. */
  function ReplaceFirst(s: string, pat: string, rep: string): (r: string)
    ensures (forall j :: !OccursAt(s, pat, j)) ==> r == s
    ensures forall i: nat :: OccursAt(s, pat, i) && (forall j: nat :: j < i ==> !OccursAt(s, pat, j)) ==>
      r == s[..i] + rep + s[i + |pat|..]
  {
    match IndexOf(s, pat, 0)
    case None => s
    case Some(i) => s[..i] + rep + s[i + |pat|..]
  }

  /** The texts the eight tokens stand for, in dictionary order. */
  function ReplacementTexts(b: seq<Byte>): (ts: seq<string>)
    requires |b| == 16
    ensures |ts| == |Replacements|
    ensures forall k :: 0 <= k < |Replacements| ==> ts[k] == ReplacementText(Replacements[k], b)
  {
    seq(|Replacements|, k requires 0 <= k < |Replacements| => ReplacementText(Replacements[k], b))
  }

  /** What each token of the dictionary stands for, token by token. */
  lemma DictionaryTexts(b: seq<Byte>)
    requires |b| == 16
    ensures Replacements[0].token == "{b}" && ReplacementTexts(b)[0] == Render(b, Some("braced"))
    ensures Replacements[1].token == "{B}" && ReplacementTexts(b)[1] == ToUpper(Render(b, Some("braced")))
    ensures Replacements[2].token == "{d}" && ReplacementTexts(b)[2] == Render(b, None)
    ensures Replacements[3].token == "{D}" && ReplacementTexts(b)[3] == ToUpper(Render(b, None))
    ensures Replacements[4].token == "{n}" && ReplacementTexts(b)[4] == Render(b, Some("no-hyphen"))
    ensures Replacements[5].token == "{N}" && ReplacementTexts(b)[5] == ToUpper(Render(b, Some("no-hyphen")))
    ensures Replacements[6].token == "{x}" && ReplacementTexts(b)[6] == Render(b, Some("x"))
    ensures Replacements[7].token == "{X}" && ReplacementTexts(b)[7] == ToUpper(Render(b, Some("x")))
  {
    var ts := ReplacementTexts(b);
    assert ts[0] == ReplacementText(Replacements[0], b) && ts[1] == ReplacementText(Replacements[1], b);
    assert ts[2] == ReplacementText(Replacements[2], b) && ts[3] == ReplacementText(Replacements[3], b);
    assert ts[4] == ReplacementText(Replacements[4], b) && ts[5] == ReplacementText(Replacements[5], b);
    assert ts[6] == ReplacementText(Replacements[6], b) && ts[7] == ReplacementText(Replacements[7], b);
  }

  /** The template after the first `n` replacements, token `k` standing for `texts[k]`. */
  function SubstituteUpTo(template: string, texts: seq<string>, n: nat): string
    requires |texts| == |Replacements| && n <= |Replacements|
  {
    if n == 0 then template
    else ReplaceFirst(SubstituteUpTo(template, texts, n - 1), Replacements[n - 1].token, texts[n - 1])
  }

  /** The custom formatter of a paste-automatically template: one without any token is kept as it is. */
  function Substitute(template: string, b: seq<Byte>): (r: string)
    requires |b| == 16
    ensures NoTokens(template) ==> r == template
  {
    SubstituteClean(template, ReplacementTexts(b));
    SubstituteUpTo(template, ReplacementTexts(b), |Replacements|)
  }

  /** `customFormatter.format`: the replacement loop over the dictionary. */
  method CustomFormat(template: string, guid: Guid) returns (ret: string)
    requires guid.Valid()
    ensures ret == Substitute(template, guid.Bytes())
  {
    ghost var texts := ReplacementTexts(guid.Bytes());
    ret := template;
    for k := 0 to |Replacements|
      invariant ret == SubstituteUpTo(template, texts, k)
    {
      var text := TokenText(guid, k);
      ret := ReplaceFirst(ret, Replacements[k].token, text);
    }
  }

  /** `fn(g)` for the `k`-th entry of the dictionary. */
  method TokenText(guid: Guid, k: nat) returns (text: string)
    requires guid.Valid() && k < |Replacements|
    ensures text == ReplacementTexts(guid.Bytes())[k]
  {
    var r := Replacements[k];
    text := if r.upper then ToUpper(guid.ToString(r.key)) else guid.ToString(r.key);
  }

  /** No token of the dictionary occurs in `s`. */
  ghost predicate NoTokens(s: string) {
    forall k, j :: 0 <= k < |Replacements| ==> !OccursAt(s, Replacements[k].token, j)
  }

  /** One more replacement of the dictionary. */
  lemma SubstituteStep(template: string, texts: seq<string>, n: nat)
    requires |texts| == |Replacements| && n < |Replacements|
    ensures SubstituteUpTo(template, texts, n + 1) ==
      ReplaceFirst(SubstituteUpTo(template, texts, n), Replacements[n].token, texts[n])
  {
  }

  /** Once no token is left, the remaining replacements change nothing. */
  lemma {:induction false} SubstituteRest(template: string, texts: seq<string>, m: nat, n: nat)
    requires |texts| == |Replacements| && m <= n <= |Replacements|
    requires NoTokens(SubstituteUpTo(template, texts, m))
    ensures SubstituteUpTo(template, texts, n) == SubstituteUpTo(template, texts, m)
    decreases n - m
  {
    if m < n {
      var s := SubstituteUpTo(template, texts, m);
      SubstituteStep(template, texts, m);
      assert forall j :: !OccursAt(s, Replacements[m].token, j);
      SubstituteRest(template, texts, m + 1, n);
    }
  }

  /** Once the first `m` replacements leave a token-free `r`, the substitution is `r`. */
  lemma SubstituteAfter(template: string, b: seq<Byte>, m: nat, r: string)
    requires |b| == 16 && m <= |Replacements|
    requires SubstituteUpTo(template, ReplacementTexts(b), m) == r && NoTokens(r)
    ensures Substitute(template, b) == r
  {
    SubstituteRest(template, ReplacementTexts(b), m, |Replacements|);
  }

  /** With no token in the template, the whole dictionary changes nothing. */
  lemma SubstituteClean(template: string, texts: seq<string>)
    requires |texts| == |Replacements|
    ensures NoTokens(template) ==> SubstituteUpTo(template, texts, |Replacements|) == template
  {
    if NoTokens(template) {
      SubstituteRest(template, texts, 0, |Replacements|);
    }
  }

  /** Every token is an opening brace, one letter and a closing brace. */
  lemma TokenShape()
    ensures forall k :: 0 <= k < |Replacements| ==>
      |Replacements[k].token| == 3 && Replacements[k].token[0] == '{' && Replacements[k].token[2] == '}'
  {
  }

  /** A string with no brace pair two apart holds none of the tokens. */
  lemma NoTokensOf(s: string)
    requires forall j :: 0 <= j && j + 2 < |s| ==> !(s[j] == '{' && s[j + 2] == '}')
    ensures NoTokens(s)
  {
    TokenShape();
  }

  /** A token that is itself the whole template is replaced by its rendering. */
  lemma ReplaceWhole(t: string, rep: string)
    ensures ReplaceFirst(t, t, rep) == rep
  {
    assert OccursAt(t, t, 0);
    assert t[..0] == [] && t[|t|..] == [];
  }

  /** A three-character token does not occur in a different three-character string. */
  lemma OtherToken(s: string, t: string, rep: string)
    requires |s| == 3 && |t| == 3 && s != t
    ensures ReplaceFirst(s, t, rep) == s
  {
    assert forall j :: !OccursAt(s, t, j);
  }

  /** A three-character template that is not token `n` survives replacement `n`. */
  lemma StepOther(template: string, texts: seq<string>, n: nat)
    requires |texts| == |Replacements| && n < |Replacements|
    requires |template| == 3 && template != Replacements[n].token
    requires SubstituteUpTo(template, texts, n) == template
    ensures SubstituteUpTo(template, texts, n + 1) == template
  {
    SubstituteStep(template, texts, n);
    TokenShape();
    OtherToken(template, Replacements[n].token, texts[n]);
  }

  /** A template that is token `n` itself becomes that token's text at replacement `n`. */
  lemma StepWhole(template: string, texts: seq<string>, n: nat)
    requires |texts| == |Replacements| && n < |Replacements|
    requires template == Replacements[n].token
    requires SubstituteUpTo(template, texts, n) == template
    ensures SubstituteUpTo(template, texts, n + 1) == texts[n]
  {
    SubstituteStep(template, texts, n);
    ReplaceWhole(template, texts[n]);
  }

  /** The template "{d}" is left alone by "{b}" and "{B}" and then replaced whole. */
  lemma DefaultFirstSteps(texts: seq<string>)
    requires |texts| == |Replacements|
    ensures SubstituteUpTo("{d}", texts, 3) == texts[2]
  {
    StepOther("{d}", texts, 0);
    StepOther("{d}", texts, 1);
    StepWhole("{d}", texts, 2);
  }

  lemma DefaultTokenFree(b: seq<Byte>)
    requires |b| == 16
    ensures NoTokens(Render(b, None))
  {
    UnparseLayout(b);
    StyleKeys();
    NoTokensOf(Render(b, None));
  }

  /** The template "{d}" inserts the default form. */
  lemma SubstituteDefault(b: seq<Byte>)
    requires |b| == 16
    ensures Substitute("{d}", b) == Render(b, None)
  {
    DefaultFirstSteps(ReplacementTexts(b));
    DictionaryTexts(b);
    DefaultTokenFree(b);
    SubstituteAfter("{d}", b, 3, Render(b, None));
  }

  lemma BracedTokenFree(b: seq<Byte>)
    requires |b| == 16
    ensures NoTokens(Render(b, Some("braced")))
  {
    var w := Render(b, Some("braced"));
    StyleKeys();
    UnparseLayout(b);
    assert |w| == 38 && w[0] == '{' && w[37] == '}';
    assert forall j :: 1 <= j < 37 ==> w[j] != '{' && w[j] != '}' by {
      assert forall j :: 1 <= j < 37 ==> w[j] == Unparse(b)[j - 1];
    }
    NoTokensOf(w);
  }

  /** The template "{b}" inserts the braced form. */
  lemma SubstituteBraced(b: seq<Byte>)
    requires |b| == 16
    ensures Substitute("{b}", b) == Render(b, Some("braced"))
  {
    StepWhole("{b}", ReplacementTexts(b), 0);
    BracedTokenFree(b);
    SubstituteAfter("{b}", b, 1, Render(b, Some("braced")));
  }

  // ---------------------------------------------------------------- inserting

  /** Which GUID an insert command starts from, and whether it renews it per selection. */
  datatype GenerateType = EmptyGuid | SingleGuid | MultipleGuids

  /** The formatter of a paste-automatically template. */
  function CustomFormatter(template: string): PickFormat {
    PlainFormat(Substitution(template), Custom)
  }

  /**
    The bytes the text for selection `k` is rendered from: all zeros for the
    empty command, the one random GUID for the single command, and a new
    random GUID per selection for the many command.
  */
  function SelectionBytes(kind: GenerateType, random: seq<seq<Byte>>, k: nat): (b: seq<Byte>)
    requires k < |random| && forall j :: 0 <= j < |random| ==> |random[j]| == 16
    ensures |b| == 16
  {
    match kind
    case EmptyGuid => Zeros(16)
    case SingleGuid => random[0]
    case MultipleGuids => random[k]
  }

  /** `g(0), g(1), ..., g(n - 1)`. */
  function Collect(g: nat -> string, n: nat): (r: seq<string>)
    ensures |r| == n
  {
    if n == 0 then [] else Collect(g, n - 1) + [g(n - 1)]
  }

  lemma {:induction false} CollectAt(g: nat -> string, n: nat, j: nat)
    requires j < n
    ensures Collect(g, n)[j] == g(j)
  {
    if j < n - 1 {
      CollectAt(g, n - 1, j);
    }
  }

  /** The text selection `j` receives: the format rendered from that selection's bytes. */
  function SelectionText(f: PickFormat, kind: GenerateType, random: seq<seq<Byte>>): nat -> string
    requires forall i :: 0 <= i < |random| ==> |random[i]| == 16
  {
    (j: nat) => if j < |random| then TextOf(f, SelectionBytes(kind, random, j)) else ""
  }

  /** One more selection's text extends the collected texts by the text for selection `k`. */
  lemma CollectNext(f: PickFormat, kind: GenerateType, random: seq<seq<Byte>>, k: nat)
    requires k < |random| && forall j :: 0 <= j < |random| ==> |random[j]| == 16
    ensures Collect(SelectionText(f, kind, random), k + 1) ==
            Collect(SelectionText(f, kind, random), k) + [TextOf(f, SelectionBytes(kind, random, k))]
  {
  }

  /** The edit loop writes, to selection `k`, the format rendered from selection `k`'s bytes. */
  lemma PickedTexts(f: PickFormat, kind: GenerateType, random: seq<seq<Byte>>, selections: nat)
    requires selections <= |random| && forall j :: 0 <= j < |random| ==> |random[j]| == 16
    ensures forall k :: 0 <= k < selections ==>
      Collect(SelectionText(f, kind, random), selections)[k] == TextOf(f, SelectionBytes(kind, random, k))
  {
    forall k | 0 <= k < selections
      ensures Collect(SelectionText(f, kind, random), selections)[k] == TextOf(f, SelectionBytes(kind, random, k))
    {
      CollectAt(SelectionText(f, kind, random), selections, k);
    }
  }

  /** With a paste template, selection `k` receives the template substituted with selection `k`'s bytes. */
  lemma CustomTexts(paste: string, kind: GenerateType, random: seq<seq<Byte>>, selections: nat)
    requires selections <= |random| && forall j :: 0 <= j < |random| ==> |random[j]| == 16
    ensures forall k :: 0 <= k < selections ==>
      Collect(SelectionText(CustomFormatter(paste), kind, random), selections)[k] ==
      Substitute(paste, SelectionBytes(kind, random, k))
  {
    forall k | 0 <= k < selections
      ensures Collect(SelectionText(CustomFormatter(paste), kind, random), selections)[k] ==
              Substitute(paste, SelectionBytes(kind, random, k))
    {
      CollectAt(SelectionText(CustomFormatter(paste), kind, random), selections, k);
      TextWithoutFrame(CustomFormatter(paste), SelectionBytes(kind, random, k));
    }
  }

  /**
    The edit loop: the item's text for each selection in turn, the item moving
    on to the next random GUID after each one in the many command.
  */
  method WriteSelections(item: PickItem, kind: GenerateType, random: seq<seq<Byte>>, selections: nat)
    returns (out: seq<string>)
    requires selections < |random| && forall j :: 0 <= j < |random| ==> |random[j]| == 16
    requires item.Valid() && item.guid.Bytes() == SelectionBytes(kind, random, 0)
    modifies item
    ensures out == Collect(SelectionText(item.format, kind, random), selections)
    ensures item.Valid() && item.guid.Bytes() == SelectionBytes(kind, random, selections)
  {
    out := [];
    for k := 0 to selections
      invariant item.Valid()
      invariant item.guid.Bytes() == SelectionBytes(kind, random, k)
      invariant out == Collect(SelectionText(item.format, kind, random), k)
    {
      var t := WriteOne(item, kind, random, k);
      CollectNext(item.format, kind, random, k);
      out := out + [t];
    }
  }

  /** One pass of the edit loop: the text for selection `k`, then the GUID for selection `k + 1`. */
  method WriteOne(item: PickItem, kind: GenerateType, random: seq<seq<Byte>>, k: nat) returns (t: string)
    requires k + 1 < |random| && forall j :: 0 <= j < |random| ==> |random[j]| == 16
    requires item.Valid() && item.guid.Bytes() == SelectionBytes(kind, random, k)
    modifies item
    ensures t == TextOf(item.format, SelectionBytes(kind, random, k))
    ensures item.Valid() && item.guid.Bytes() == SelectionBytes(kind, random, k + 1)
  {
    t := item.Text();
    if kind == MultipleGuids {
      item.Generate(random[k + 1]);
    }
  }

  /**
    The texts an insert command writes, one per editor selection in order:
    with a paste-automatically template they come from the custom formatter,
    otherwise from the item the user picked, and a cancelled pick writes
    nothing. `random` supplies the random GUIDs the command would generate,
    `choice` the position of the picked item.
  */
  method InsertTexts(kind: GenerateType, random: seq<seq<Byte>>, selections: nat,
                     lower: bool, upper: bool, snippets: bool, paste: string, choice: Option<nat>)
    returns (texts: Option<seq<string>>)
    requires selections < |random| && forall j :: 0 <= j < |random| ==> |random[j]| == 16
    requires paste == "" && choice.Some? ==> choice.value < |Selected(lower, upper, snippets)|
    ensures paste == "" && choice.None? ==> texts.None?
    ensures paste != "" || choice.Some? ==> texts.Some? && |texts.value| == selections
    ensures paste != "" ==> forall k :: 0 <= k < |texts.value| ==>
      texts.value[k] == Substitute(paste, SelectionBytes(kind, random, k))
    ensures paste == "" && choice.Some? ==> forall k :: 0 <= k < |texts.value| ==>
      texts.value[k] == TextOf(Selected(lower, upper, snippets)[choice.value], SelectionBytes(kind, random, k))
  {
    var g: Guid;
    if kind == EmptyGuid {
      g := Empty();
    } else {
      g := new Guid.Generate(random[0]);
    }
    var items := GetQuickPickItems(g, lower, upper, snippets);
    var item: PickItem;
    if paste != "" {
      item := new PickItem(-1, g, CustomFormatter(paste));
    } else if choice.None? {
      return None;
    } else {
      item := items[choice.value];
    }
    var out := WriteSelections(item, kind, random, selections);
    texts := Some(out);
    if paste != "" {
      CustomTexts(paste, kind, random, selections);
    } else {
      PickedTexts(item.format, kind, random, selections);
    }
  }
}
