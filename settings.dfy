/**
  The extension's settings: the defaults, the flag getters that fall back to
  them, and the `formats` getter that prefers a configured list of templates
  and otherwise derives one from the flags and a small template table.
*/
module Settings {
  import opened Wrappers
  import opened Text

  /** `Settings`; a `formats` of `None` is `null`. */
  datatype Settings = Settings(
    showLowercase: bool,
    showUppercase: bool,
    showCodeSnippets: bool,
    pasteAutomatically: string,
    formats: Option<seq<string>>)

  /** `DEFAULTS` */
  const Defaults: Settings := Settings(true, false, true, "", None)

  /** The category of a template. */
  datatype TemplateType = Lowercase | Uppercase | Snippet

  datatype Template = Template(format: string, kind: TemplateType)

  const SnippetTemplate: string := "// {b}\nstatic const struct GUID " + NamePlaceholder + " = {x}\n"

  /** The template table `FORMATS`, in order. */
  const Templates: seq<Template> := [
    Template("{d}", Lowercase),
    Template("{b}", Lowercase),
    Template(SnippetTemplate, Snippet)
  ]

  /** What `get('formats')` returns: nothing (undefined), `null`, or a list. */
  datatype ConfigValue = Unset | Null | List(items: seq<string>)

  /** The `insertGuid` configuration section: each key's value, or `None` where it is undefined. */
  datatype Configuration = Configuration(
    showLowercase: Option<bool>,
    showUppercase: Option<bool>,
    showCodeSnippets: Option<bool>,
    pasteAutomatically: Option<string>,
    formats: ConfigValue)

  /** `get(key, DEFAULTS.key)` for each flag and the paste template. */
  function ShowLowercase(c: Configuration): bool { c.showLowercase.GetOr(Defaults.showLowercase) }
  function ShowUppercase(c: Configuration): bool { c.showUppercase.GetOr(Defaults.showUppercase) }
  function ShowCodeSnippets(c: Configuration): bool { c.showCodeSnippets.GetOr(Defaults.showCodeSnippets) }
  function PasteAutomatically(c: Configuration): string { c.pasteAutomatically.GetOr(Defaults.pasteAutomatically) }

  /** A configuration with nothing set reads as `DEFAULTS`; a set value is read as it is. */
  lemma FlagFallbacks(c: Configuration)
    ensures c.showLowercase.None? ==> ShowLowercase(c) == Defaults.showLowercase
    ensures c.showUppercase.None? ==> ShowUppercase(c) == Defaults.showUppercase
    ensures c.showCodeSnippets.None? ==> ShowCodeSnippets(c) == Defaults.showCodeSnippets
    ensures c.pasteAutomatically.None? ==> PasteAutomatically(c) == Defaults.pasteAutomatically
    ensures c.showLowercase.Some? ==> ShowLowercase(c) == c.showLowercase.value
    ensures c.showUppercase.Some? ==> ShowUppercase(c) == c.showUppercase.value
    ensures c.showCodeSnippets.Some? ==> ShowCodeSnippets(c) == c.showCodeSnippets.value
    ensures c.pasteAutomatically.Some? ==> PasteAutomatically(c) == c.pasteAutomatically.value
  {
  }

  // ---------------------------------------------------------------- derived list

  /** Whether the derivation loop pushes a template of this category. */
  predicate Pushed(kind: TemplateType, lower: bool, upper: bool, snippets: bool) {
    (kind == Lowercase && lower) || (kind == Uppercase && upper) || (kind == Snippet && snippets)
  }

  /** The templates among the first `n` of the table that the flags select, in table order. */
  function DerivedUpTo(n: nat, lower: bool, upper: bool, snippets: bool): (r: seq<string>)
    requires n <= |Templates|
    ensures |r| <= n
  {
    if n == 0 then []
    else
      DerivedUpTo(n - 1, lower, upper, snippets) +
      (if Pushed(Templates[n - 1].kind, lower, upper, snippets) then [Templates[n - 1].format] else [])
  }

  /** The list the getter derives when no list is configured. */
  function Derived(lower: bool, upper: bool, snippets: bool): seq<string> {
    DerivedUpTo(|Templates|, lower, upper, snippets)
  }

  /** The derivation loop of the `formats` getter. */
  method DeriveFormats(lower: bool, upper: bool, snippets: bool) returns (formats: seq<string>)
    ensures formats == Derived(lower, upper, snippets)
  {
    formats := [];
    for i := 0 to |Templates|
      invariant formats == DerivedUpTo(i, lower, upper, snippets)
    {
      var format := Templates[i];
      if format.kind == Lowercase && lower {
        formats := formats + [format.format];
      } else if format.kind == Uppercase && upper {
        formats := formats + [format.format];
      } else if format.kind == Snippet && snippets {
        formats := formats + [format.format];
      }
    }
  }

  /**
    The derived list in closed form: the two lowercase templates when
    lowercase is shown, then the snippet when snippets are shown. The table
    has no uppercase template, so `showUppercase` plays no part, and with
    every flag off the list is empty.
  */
  lemma DerivedClosedForm(lower: bool, upper: bool, snippets: bool)
    ensures Derived(lower, upper, snippets) ==
      (if lower then ["{d}", "{b}"] else []) + (if snippets then [SnippetTemplate] else [])
    ensures Derived(lower, upper, snippets) == Derived(lower, !upper, snippets)
    ensures |Derived(lower, upper, snippets)| <= 3
    ensures Derived(false, upper, false) == []
  {
    assert DerivedUpTo(1, lower, upper, snippets) == (if lower then ["{d}"] else []);
    assert DerivedUpTo(2, lower, upper, snippets) == (if lower then ["{d}", "{b}"] else []);
    assert DerivedUpTo(1, lower, !upper, snippets) == (if lower then ["{d}"] else []);
    assert DerivedUpTo(2, lower, !upper, snippets) == (if lower then ["{d}", "{b}"] else []);
    assert DerivedUpTo(1, false, upper, false) == [];
    assert DerivedUpTo(2, false, upper, false) == [];
  }

  /** Under `DEFAULTS` the derived list holds all three templates. */
  lemma DerivedDefaults()
    ensures Derived(Defaults.showLowercase, Defaults.showUppercase, Defaults.showCodeSnippets) ==
      ["{d}", "{b}", SnippetTemplate]
  {
    DerivedClosedForm(true, false, true);
  }

  // ---------------------------------------------------------------- the getter

  /** How a getter call ends: with a value, or with a thrown error. */
  datatype Outcome = Returned(value: seq<string>) | Threw(error: string)

  /**
    The `formats` getter as written: a configured value that is not
    undefined has its `length` read, which throws a TypeError when it is
    `null`.
  */
  function FormatsAsWritten(c: Configuration): (r: Outcome)
    ensures r.Threw? <==> c.formats == Null
  {
    match c.formats
    case Null => Threw("TypeError")
    case List(items) =>
      if |items| > 0 then Returned(items)
      else Returned(Derived(ShowLowercase(c), ShowUppercase(c), ShowCodeSnippets(c)))
    case Unset => Returned(Derived(ShowLowercase(c), ShowUppercase(c), ShowCodeSnippets(c)))
  }

  /** The configuration a fresh install reads: every key at its declared default, `formats` null. */
  const InstalledDefaults: Configuration := Configuration(None, None, None, None, Null)

  /** With the declared default of `formats`, the getter as written throws instead of deriving. */
  lemma InstalledDefaultsThrow()
    ensures FormatsAsWritten(InstalledDefaults).Threw?
  {
  }

  /**
    The `formats` getter as intended: a configured non-empty list wins;
    anything else (undefined, null, an empty list) falls back to the derived
    list. Wherever the getter as written returns, this one returns the same
    list; where that one throws, this one derives.
  */
  function Formats(c: Configuration): (r: seq<string>)
    ensures FormatsAsWritten(c).Returned? ==> r == FormatsAsWritten(c).value
    ensures FormatsAsWritten(c).Threw? ==> r == Derived(ShowLowercase(c), ShowUppercase(c), ShowCodeSnippets(c))
  {
    if c.formats.List? && |c.formats.items| > 0 then c.formats.items
    else Derived(ShowLowercase(c), ShowUppercase(c), ShowCodeSnippets(c))
  }

  /** The getter with the `null` guard: the configured list if non-empty, otherwise the derivation loop. */
  method GetFormats(c: Configuration) returns (formats: seq<string>)
    ensures formats == Formats(c)
  {
    if c.formats.List? && |c.formats.items| > 0 {
      return c.formats.items;
    }
    formats := DeriveFormats(ShowLowercase(c), ShowUppercase(c), ShowCodeSnippets(c));
  }

  /** A configured non-empty list is returned unchanged, whatever the flags. */
  lemma ConfiguredListWins(c: Configuration)
    requires c.formats.List? && |c.formats.items| > 0
    ensures Formats(c) == c.formats.items
    ensures FormatsAsWritten(c) == Returned(c.formats.items)
  {
  }

  /** With nothing configured the getter returns the three templates of a fresh install. */
  lemma InstalledDefaultsFormats()
    ensures Formats(InstalledDefaults) == ["{d}", "{b}", SnippetTemplate]
  {
    DerivedDefaults();
  }
}
