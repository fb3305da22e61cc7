# vscode-guid: the GUID formatting engine, in Dafny

This project models the formatting engine of the "Insert GUID" editor extension and proves what it does.

**The `Guid` value type** (`guid.dfy`, module `Guids`).
- A GUID is a class over a mutable 16-byte `array<Byte>`.
- Its constructor scans the input left to right for runs of two hex digits. Each run fills the next byte until sixteen are filled. A zero fill completes the rest. This is two loops, proved against the `Parse` function.
- `toBuffer` hands out the live array, and writing through it changes later renderings.
- `toString(format)` renders the buffer four ways: the default hyphenated form, the braced form (`braced`/`b`), the `no-hyphen` form and the C struct literal (`struct`/`x`). An absent or unknown key gives the default form.
- Every rendering, and every upper-cased rendering, parses back to the same 16 bytes.

**The insert commands** (`commands.dfy`, module `Commands`).
- The ten-entry quick-pick format table is data. Each entry is a `PickFormat`: a `Rendering` together with a category, an optional preface and epilogue (each a `Rendering` too), and an optional `named` flag.
- Three show flags select and number the entries, in table order. With every flag off, the three lowercase entries are offered.
- `GuidPickItem` is a class with `label`, `description`, `text`, `named` and `generate`.
- `getQuickPickItems` is a loop that builds the numbered items.
- The paste-automatically template is a loop over the dictionary of eight tokens. Each token is replaced at its first occurrence only, in dictionary order.
- `InsertTexts` abstracts the insert command. It gives the texts written to each editor selection, and in the "many" command it moves to a new GUID per selection.

**The settings** (`settings.dfy`, module `Settings`).
- `DEFAULTS` and the flag getters with their fallbacks.
- The three-template table.
- The `formats` getter. A configured non-empty list wins. Otherwise a list is derived from the flags by a loop over the table.

`text.dfy` holds the shared pieces:
- an `Option` type (module `Wrappers`);
- from module `Text`: Node's `'hex'` encoding of bytes with its offset clamping, ASCII `toUpperCase`, regex character removal, and the decimal text of a label.

Inputs the source takes from its host are parameters of the model:
- random UUID bytes;
- configuration values;
- the user's quick-pick choice;
- the number of editor selections.

## Model

| member | source | states |
|---|---|---|
| Text.HexValue | src/guid.ts:43 | `parseInt(_, 16)` of one hex digit is below 16 |
| Text.ByteHex | src/guid.ts:65-69 | a byte is two lower-case hex digits that read back as the byte |
| Text.Hex | src/guid.ts:65-69 | the hex encoding has two lower-case digits per byte |
| Text.HexConcat | src/guid.ts:65-69 | hex encoding distributes over concatenation |
| Text.HexRange | src/guid.ts:65-69 | `toString('hex', start, end)` renders `bytes[start..end]` when `end` is in range, `bytes[start..]` when only `end` is past the end, and the empty string when `start` is past the end |
| Text.ToUpper | src/commands.ts:110 | upper-casing keeps the length and raises exactly the letters a-z |
| Text.RemoveChars | src/guid.ts:96 | a global character-class replace leaves no dropped character and never lengthens the string |
| Text.RemoveCharsConcat | src/guid.ts:96 | removal distributes over concatenation |
| Text.RemoveCharsAbsent | src/guid.ts:96 | removing characters that do not occur changes nothing |
| Text.NatToString | src/commands.ts:59-61 | a label index is written as one or more decimal digits |
| Guids.Zeros | src/guid.ts:49-52 | the zero fill is `n` zero bytes |
| Guids.Scan | src/guid.ts:41-47 | the global scan finds at most one byte per two input characters |
| Guids.Parse | src/guid.ts:35-53 | construction from any string yields exactly 16 bytes |
| Guids.ParseByte | src/guid.ts:40-52 | byte k is the k-th non-overlapping two-digit run, or zero when there were fewer runs; runs after the 16th are ignored |
| Guids.ScanSplit | src/guid.ts:41 | a non-hex character ends every run, so the scan of `s + c + t` is the scan of `s` then the scan of `t` |
| Guids.ScanJoin | src/guid.ts:41 | a separator with no run and non-hex ends (", 0x", "-", braces) adds nothing to the scan |
| Guids.ScanHex | src/guid.ts:41-47 | scanning the hex encoding of bytes gives the bytes back |
| Guids.ScanUpper | src/guid.ts:41 | the pattern accepts both cases, so upper-casing never changes the scan |
| Guids.ScanNoPairs | src/guid.ts:41-47 | an input with no two adjacent hex digits matches nothing |
| Guids.ParseNoPairs | src/guid.ts:40-52 | such an input parses to sixteen zero bytes |
| Guids.StyleOf | src/guid.ts:87-103 | each form is selected by exactly its keys: `struct`/`x`, `braced`/`b`, `no-hyphen`, and the default by an absent or any other key |
| Guids.StyleFallback | src/guid.ts:85-104 | an absent key, or any key other than struct, x, braced, b and no-hyphen, selects the default form |
| Guids.StyleKeys | src/guid.ts:87-97 | `struct`/`x` select the struct literal, `braced`/`b` the braced form, `no-hyphen` its own form, no key the default form |
| Guids.Unparse | src/guid.ts:64-70 | on a buffer of at least 16 bytes the result has 36 characters with hyphens at 8, 13, 18 and 23 |
| Guids.UnparseGroups | src/guid.ts:64-70 | on 16 bytes the default form is the hex of [0,4), [4,6), [6,8), [8,10), [10,16) joined by hyphens |
| Guids.UnparseLayout | src/guid.ts:98-102 | the default form has 36 characters, hyphens exactly at 8, 13, 18 and 23, and lower-case hex digits everywhere else |
| Guids.NoHyphenIsHex | src/guid.ts:95-96 | the no-hyphen form is the 32-digit hex of all 16 bytes |
| Guids.Render | src/guid.ts:85-104 | the default form has 36 characters, the braced form 38 with a brace at each end, the no-hyphen form is the hex of the 16 bytes, and the struct literal opens with a brace |
| Guids.RenderForms | src/guid.ts:87-103 | `b` renders as `braced`, which is `{` + default + `}` (38 characters); `no-hyphen` is the default with every hyphen removed (32 characters); `x` renders as `struct` |
| Guids.ScanUnparse | src/guid.ts:41-47 | scanning the default form gives back the 16 bytes |
| Guids.ScanBraced | src/guid.ts:41 | braces around a string do not change its scan |
| Guids.ScanFields | src/guid.ts:88-92 | scanning the "0x"-prefixed, comma-separated struct fields gives their bytes in order |
| Guids.ScanStruct | src/guid.ts:87-92 | scanning the struct literal gives back the 16 bytes |
| Guids.ParseRender | src/guid.ts:40-52 | parsing any rendering, or its upper-case variant, gives back the bytes it was rendered from |
| Guids.FlattenSingles | src/guid.ts:90-92 | bytes 8..15, rendered one by one, are those bytes in order |
| Guids.Guid.constructor | src/guid.ts:34-53 | a new GUID owns a fresh 16-byte buffer holding `Parse(input)` |
| Guids.Guid.Generate | src/guid.ts:37-38 | a GUID made without input owns a fresh buffer holding the supplied random bytes |
| Guids.Guid.ToString | src/guid.ts:85-104 | whatever the format key, the text, and its upper-case variant, parse back to the buffer's bytes |
| Guids.Guid.ToBuffer | src/guid.ts:76-78 | `toBuffer` returns the stored array itself, not a copy |
| Guids.CopyScan | src/guid.ts:40-47 | the scanning loop writes the first min(runs, 16) matched bytes in order, returns that count, and leaves every byte from the count on as it was |
| Guids.ParseEqualsFill | src/guid.ts:49-52 | matched bytes followed by the zero fill are exactly `Parse(input)` |
| Guids.Empty | src/guid.ts:59 | `EMPTY` is a valid GUID of sixteen zero bytes |
| Guids.ParseLoneCharacters | src/guid.ts:59 | "0" and "z" both parse to all zeros |
| Guids.EmptyRendering | src/guid.ts:59 | the all-zero GUID renders as `00000000-0000-0000-0000-000000000000` |
| Guids.SampleRendering | src/guid.ts:85-104 | bytes `01 23 45 67 89 ab cd ef` twice render as `01234567-89ab-cdef-0123-456789abcdef` by default, as `0123456789abcdef0123456789abcdef` without hyphens, and as `{0x01234567, 0x89ab, 0xcdef, {0x01, 0x23, 0x45, 0x67, 0x89, 0xab, 0xcd, 0xef}}` in the struct form |
| Guids.FillThroughBuffer | src/guid.ts:76-78 | filling the array `toBuffer` returned changes what the same GUID renders afterwards |
| Commands.ShownApply | src/commands.ts:97-119 | a bare table lambda writes `toString(key)`, upper-cased for the uppercase entries |
| Commands.Kept | src/commands.ts:285-292 | filtering the first n entries keeps at most n |
| Commands.KeptMembers | src/commands.ts:285-292 | an entry is kept exactly when it is in the table and its category passes the flag test |
| Commands.Selected | src/commands.ts:285-292 | every offered format is a table entry whose category the flags keep, and there are at most as many as table entries |
| Commands.SelectedOrder | src/commands.ts:285-292 | the offered list is the kept entries, in table order |
| Commands.SelectedCount | src/commands.ts:95-177 | the item count is 3 if lowercase is shown (or no flag is set), plus 3 for uppercase, plus 4 for snippets; it is never zero |
| Commands.SelectedNoFlags | src/commands.ts:286 | with every flag off, exactly the default, braced and no-hyphen lowercase entries are offered |
| Commands.SelectedAllFlags | src/commands.ts:285-292 | with every flag on, the whole table is offered in order |
| Commands.SelectedDefaults | src/commands.ts:209-211 | the default flags offer seven entries: 0, 1, 4, 5, 6, 8, 9 |
| Commands.SelectedMembers | src/commands.ts:285-292 | a format is offered iff it is a table entry whose category the flags keep |
| Commands.PlainRendering | src/commands.ts:97-107 | the default, braced and no-hyphen forms contain only lower-case hex digits, hyphens and braces |
| Commands.UpperOfHexPunctuated | src/commands.ts:110 | upper-casing such a string changes only its letters a-f |
| Commands.UpperVariant | src/commands.ts:109-119 | the upper-cased default, braced and no-hyphen forms differ from the lower-case ones only in a-f, and both parse to the same bytes |
| Commands.TableLayout | src/commands.ts:95-177 | of the ten entries, exactly 0, 1 and 6 are lowercase, exactly 2, 3 and 7 uppercase, exactly 4, 5, 8 and 9 snippets, and none is custom |
| Commands.UpperCounterparts | src/commands.ts:108-119 | each uppercase entry is `toUpperCase` of its lowercase counterpart (also 146-157), differs only in a-f, and parses to the same bytes |
| Commands.TextWithoutFrame | src/commands.ts:67-81 | for an entry with no preface or epilogue, `text` equals `description` |
| Commands.NamedSnippetText | src/commands.ts:125-130 | a named snippet inserts `// ` + braced + newline, its rendering, then a newline |
| Commands.NamedEntries | src/commands.ts:120-176 | entries 4, 5 and 9 are named; those share the comment preface and newline epilogue, and the rest have neither |
| Commands.FieldsUnbraced | src/guid.ts:88 | the struct fields contain no brace |
| Commands.RemoveStructBraces | src/commands.ts:136 | removing every brace from `{F1, {F2}}` gives `F1, F2` |
| Commands.StructBodies | src/commands.ts:123 | the struct declaration embeds the struct literal (also 160); so does the `x` entry |
| Commands.DefineGuidBody | src/commands.ts:136 | DEFINE_GUID's body is the struct literal's fields with every brace removed |
| Commands.RustConstantBody | src/commands.ts:167 | `structrs` is not a known key, so the Rust constant embeds the default form |
| Commands.PickItem.constructor | src/commands.ts:53-57 | an item records its index, GUID and format |
| Commands.PickItem.Label | src/commands.ts:59-61 | the label is decimal digits, with a leading minus for a negative index |
| Commands.PickItem.Description | src/commands.ts:63-65 | the description is the entry's rendering, which is the whole inserted text for an entry with no preface or epilogue |
| Commands.PickItem.Text | src/commands.ts:67-81 | building `s` step by step gives preface (if any) + rendering + epilogue (if any) |
| Commands.PickItem.Named | src/commands.ts:83-85 | an item is named iff its format says `named: true`; an absent flag means false |
| Commands.PickItem.Generate | src/commands.ts:87-89 | `generate` rebinds only this item to a fresh GUID with the supplied bytes |
| Commands.GetQuickPickItems | src/commands.ts:281-295 | one fresh item per selected format, in order, all bound to the given GUID; indices and labels run 1..N with no gaps; items are distinct |
| Commands.BuildItems | src/commands.ts:282-294 | the push loop, over any table, creates one fresh item per kept entry, in order, with `nextIndex` running 1..N |
| Commands.DictionaryTexts | src/commands.ts:221-228 | `{b}` and `{B}` stand for `toString('braced')` and its upper case, `{d}` and `{D}` for `toString()`, `{n}` and `{N}` for `toString('no-hyphen')`, `{x}` and `{X}` for `toString('x')` |
| Commands.IndexOf | src/commands.ts:235 | the pattern search returns the first occurrence at or after `from`, or none when there is none |
| Commands.ReplaceFirst | src/commands.ts:235 | a pattern that does not occur leaves the string unchanged; otherwise exactly its first occurrence is replaced and the text around it is kept |
| Commands.CustomFormat | src/commands.ts:230-238 | the replacement loop gives `Substitute(template, bytes)`: one first-occurrence replace per token, in dictionary order |
| Commands.TokenText | src/commands.ts:234-235 | `fn(g)` for entry k is the k-th dictionary text of the GUID's bytes |
| Commands.Substitute | src/commands.ts:230-238 | a template containing none of the eight tokens is inserted unchanged |
| Commands.SubstituteRest | src/commands.ts:233-237 | once no token is left, the remaining replacements change nothing |
| Commands.StepOther | src/commands.ts:235 | a three-character template that is not the current token survives that replacement |
| Commands.StepWhole | src/commands.ts:235 | a template that is the current token becomes that token's text |
| Commands.DefaultFirstSteps | src/commands.ts:221-223 | `{d}` survives `{b}` and `{B}` and is then replaced whole by the third dictionary text |
| Commands.SubstituteAfter | src/commands.ts:233-237 | once the first m replacements leave a token-free string, that string is the result |
| Commands.TokenShape | src/commands.ts:220-229 | every token is a brace, one letter, and a brace |
| Commands.ReplaceWhole | src/commands.ts:235 | a template that is just the token becomes its replacement |
| Commands.SubstituteDefault | src/commands.ts:223 | the template `{d}` inserts the default form |
| Commands.SubstituteBraced | src/commands.ts:221 | the template `{b}` inserts the braced form |
| Commands.SelectionBytes | src/commands.ts:207 | each selection is rendered from 16 bytes: zeros for the empty command, one random GUID for the single command, a new one per selection for the many command |
| Commands.WriteSelections | src/commands.ts:254-265 | the edit loop writes one text per selection, in order (`Collect` of the per-selection text), and leaves the item on the GUID of the selection after the last |
| Commands.WriteOne | src/commands.ts:255-264 | one pass writes the item's text for selection k, then leaves the item on selection k + 1's GUID (a new one only in the many command) |
| Commands.PickedTexts | src/commands.ts:254-265 | selection k receives the picked format rendered from selection k's bytes |
| Commands.CustomTexts | src/commands.ts:230-241 | with a paste template, selection k receives the template substituted with selection k's bytes |
| Commands.InsertTexts | src/commands.ts:206-271 | a paste template writes its substitution for every selection; otherwise the picked item's text is written, and a cancelled pick writes nothing |
| Settings.FlagFallbacks | src/settings.ts:65-79 | an unset key reads as its `DEFAULTS` value, and a set key reads as itself |
| Settings.DerivedUpTo | src/settings.ts:87-96 | the first n templates give at most n derived entries |
| Settings.DeriveFormats | src/settings.ts:87-96 | the push loop builds exactly the flag-selected templates, in table order |
| Settings.DerivedClosedForm | src/settings.ts:43-57 | the derived list is `{d}`, `{b}` when lowercase is shown, then the snippet when snippets are shown; `showUppercase` never matters; it has at most 3 entries, none if the flags are off |
| Settings.DerivedDefaults | src/settings.ts:33-39 | the `DEFAULTS` flags derive all three templates |
| Settings.FormatsAsWritten | src/settings.ts:81-99 | the getter as written throws exactly when the configured value is `null` |
| Settings.InstalledDefaultsThrow | src/settings.ts:82-83 | with the declared `null` default of `formats`, the getter as written throws |
| Settings.Formats | src/settings.ts:81-99 | where the getter as written returns, the corrected getter returns the same list; where it throws on `null`, the corrected one derives the list from the flags |
| Settings.GetFormats | src/settings.ts:81-99 | the corrected getter returns the configured non-empty list, and otherwise the derived list; it never returns null |
| Settings.ConfiguredListWins | src/settings.ts:82-85 | a configured non-empty list is returned unchanged, whatever the flags |
| Settings.InstalledDefaultsFormats | src/settings.ts:33-39 | with nothing configured, the corrected getter returns the three templates |

## Left out

- Guids.Guid.Generate: the random bytes are a parameter. The uuid `v4` generator and its version and variant bits are not modelled.
- Commands.PickItem.Generate: the new random bytes are a parameter, for the same reason.
- Guids.Empty: `EMPTY` is a single object shared by every empty-GUID command. The model returns a fresh zero GUID each time, so writing through one `EMPTY` buffer and seeing it in another is not captured.
- The editor host, modelled by `Commands.InsertTexts`, is not captured beyond the texts it writes:
  - the asynchronous quick pick (replaced by the `choice` parameter);
  - `textEditor.edit`;
  - the choice between inserting at a cursor and replacing a selection (both write `item.text`);
  - the three exported command entry points.
- Configuration reads (`workspace.getConfiguration`, `get`) are parameters: the flags in `Commands`, and the `Configuration` value in `Settings`. The `SettingsImpl` class and its factory are not modelled as objects because their getters only read configuration.
- `util.format` is modelled as string concatenation; every format string used has only `%s` conversions.
- Text.ToUpper: upper-cases ASCII letters only. Every rendered string is ASCII, but a paste template with non-ASCII text is never upper-cased, so nothing is lost.
- Commands.ReplaceFirst: `String.replace` would expand `$` patterns in the replacement. Every replacement is a GUID rendering, which never contains `$`, so the literal insertion is exact.
- Commands.PickItem.Label: states the digits, and the minus sign for a negative index, rather than the decimal value. The labels of the listed items are pinned to `NatToString(k + 1)` in `GetQuickPickItems`.
- Text.NatToString: states that the result is decimal digits, not that they spell `n` in base 10.
- The `named` follow-up in the edit callback is an empty TODO in the source and has no effect.
- The tests in the repository come from other revisions, with other call signatures, 4/5/6/9-item lists and `x0`..`x10` formats. The model follows `src/commands.ts` and `src/guid.ts` as they are, which yields 7 items under the default flags.
- The source's `Settings.formats` getter is not called by `src/commands.ts`, which reads the flags directly with their own defaults. The model keeps the two separate in the same way.

## Findings

| source | as written | input that shows it | evidently intended | confidence | as-written member | corrected member |
|---|---|---|---|---|---|---|
| src/settings.ts:82-83 | any configured `formats` value other than `undefined` has its `length` read | the declared default of `formats` (`null`, the same value as `DEFAULTS.formats`, see src/test/suite/settings.test.ts:34), read on a fresh install: reading `length` of `null` throws a TypeError | treat `null` like `undefined` and return the derived list | not executed; medium, because it depends on the host returning the declared `null` default for an unset key | Settings.FormatsAsWritten, Settings.InstalledDefaultsThrow | Settings.GetFormats, Settings.InstalledDefaultsFormats |
