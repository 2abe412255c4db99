# Remote Party Finder — a verified model of its core

Remote Party Finder collects the game's Party Finder listings with a client plugin,
uploads them to a server, and shows them on web pages, through a JSON API and as statistics.
Its locale tables (duties, jobs, worlds, treasure maps and the auto-translate phrases) are Rust
source that a C# generator writes from the game data sheets.

This project models the core of that system in Dafny and proves properties of the model:

- the generator:
  - the selector grammar of auto-translate lookups (`selector.dfy`);
  - the five-language text record with its English fallback (`generator.dfy`);
  - the auto-translate table (`autotranslate_table.dfy`);
  - the duty, job, world and treasure-map tables, including the Chinese world corrections (`game_tables.dfy`);
- SeString flattening: the generator's `TextValue` (`sestring_text.dfy`) and the server's `full_text` (`sestring_ext.dfy`);
- the server's listing type and its rendering helpers (`listing.dfy`), and the older crate's copy (`legacy_listing.dfy`);
- the `ContentKind` codecs of both `duties.rs` files (`duties.dfy`);
- the choice of a display language from an `Accept-Language` header (`accept_language.dfy`);
- the statistics helpers (`stats.dfy`), and the two chart-folding functions that the statistics page script defines but never calls (`charts.dfy`);
- the pure logic of the JSON listings API: id parsing, validation, job filtering and pagination (`api.dfy`);
- the plugin:
  - the upload record (`uploadable.dfy`);
  - the batching of listings between uploads (`gatherer.dfy`);
  - its settings (`config.dfy`).

Pure code is modelled as datatypes, functions and lemmas. Loops are modelled as methods proved
against a specification function. Classes whose fields change are Dafny classes:
`Gatherer`, `Configuration` and `UploadUrl`.

Exceptions that nothing catches become an `Err` result, as do Rust panics in the code paths that
can panic. The game data is passed in as ordered row lists.

## Model

| member | source | states |
|---|---|---|
| Selector.DigitRun | csharp/SourceGenerator/AutoTranslate.cs:20-21 | the digit run is all ASCII digits and is maximal: the next character is not a digit |
| Selector.SkipWhitespace | csharp/SourceGenerator/AutoTranslate.cs:36 | never fails, never lengthens the text, and leaves text that does not start with whitespace |
| Selector.SkipWhitespaceIdempotent | csharp/SourceGenerator/AutoTranslate.cs:43-46 | skipping whitespace twice (the separator's skip and the item's skip) drops no more than once |
| Selector.UInt | csharp/SourceGenerator/AutoTranslate.cs:24-27 | a number parses to at most 4294967295 and consumes input; no match only without a leading digit |
| Selector.Item | csharp/SourceGenerator/AutoTranslate.cs:37-43 | an item parses to a part whose numbers fit in 32 bits and consumes input |
| Selector.Close | csharp/SourceGenerator/AutoTranslate.cs:52 | the closing bracket yields no parts and consumes input |
| Selector.ItemsAfterFirst | csharp/SourceGenerator/AutoTranslate.cs:46-50 | every part after a separator fits in 32 bits, and the tail consumes input |
| Selector.List | csharp/SourceGenerator/AutoTranslate.cs:48-52 | every part of a parsed list fits in 32 bits |
| Selector.SheetNameLength | csharp/SourceGenerator/AutoTranslate.cs:10-13 | the sheet name takes the first character unconditionally, then every character up to the first `[` or the end |
| Selector.Parse | csharp/SourceGenerator/AutoTranslate.cs:55-59 | empty input fails; the sheet name is a non-empty prefix with no `[` after its first character; no selector exactly when the whole input is the name; without `[` the result is the bare name; the result is well formed |
| Selector.ParseRender | csharp/SourceGenerator/AutoTranslate.cs:9-59 | completeness: any well-formed selector, written with whitespace chosen independently after `[`, after each comma and before `]`, parses back to itself whatever follows `]` |
| Selector.ItemRender | csharp/SourceGenerator/AutoTranslate.cs:37-43 | a written part followed by a delimiter parses back to that part (the `Try` on `numPair` re-reads a lone number as a single row) |
| Selector.ListRender | csharp/SourceGenerator/AutoTranslate.cs:48-52 | a written list with its own whitespace at each position, from after `[` up to the text after `]`, parses back to its parts |
| Selector.TailRender | csharp/SourceGenerator/AutoTranslate.cs:46-50 | the separator-and-item tail, with its own whitespace after each comma, plus the closing bracket parses back to the tail's parts |
| Selector.NameThenList | csharp/SourceGenerator/AutoTranslate.cs:55-59 | a sheet name followed by `[`: the parse is decided by the list after the bracket |
| Selector.ExampleNoSelector | csharp/SourceGenerator/AutoTranslate.cs:57-58 | `Foo` parses to the sheet `Foo` without a selector |
| Selector.ExampleRange | csharp/SourceGenerator/AutoTranslate.cs:15-23 | `Foo[1-3]` parses to the range 1 to 3 |
| Selector.ExampleColumnThenRow | csharp/SourceGenerator/AutoTranslate.cs:28-31 | `Foo[col-2,5]` parses to column 2 then row 5, in written order |
| Selector.ExampleNoun | csharp/SourceGenerator/AutoTranslate.cs:32-33 | `Foo[noun]` parses to the noun marker |
| Selector.ExampleMixedSpacing | csharp/SourceGenerator/AutoTranslate.cs:36-52 | `Foo[1, noun  ]`, with different whitespace at each position, parses to row 1 then the noun marker |
| Selector.ExampleUnterminated | csharp/SourceGenerator/AutoTranslate.cs:51-53 | `Foo[1-2` without a closing bracket fails to parse |
| Selector.UIntOverflow | csharp/SourceGenerator/AutoTranslate.cs:17-18 | a digit run above 4294967295 makes the unsigned parse throw |
| Selector.OverflowAborts | csharp/SourceGenerator/AutoTranslate.cs:24-27 | a selector whose first number exceeds 32 bits aborts with the overflow, not a parse failure |
| Selector.ExampleTrailingComma | csharp/SourceGenerator/AutoTranslate.cs:46-49 | a comma must be followed by an item: `Foo[1,]` fails |
| Selector.ExampleSpaceBeforeComma | csharp/SourceGenerator/AutoTranslate.cs:43-46 | whitespace is skipped after a comma but not before it: `Foo[1 ,2]` fails |
| Selector.ExampleLeadingBracket | csharp/SourceGenerator/AutoTranslate.cs:10-11 | the first character belongs to the sheet name even when it is `[`: `[1]` is a bare name |
| Selector.ExampleEmptyList | csharp/SourceGenerator/AutoTranslate.cs:48-52 | `Foo[ ]` is a selector with no parts, distinct from no selector |
| Generator.LanguagesDistinct | csharp/SourceGenerator/Program.cs:64-70 | five languages, pairwise distinct, with pairwise distinct keys |
| Generator.GetRow | csharp/SourceGenerator/Program.cs:73 | a row is found exactly when the sheet has one with that id, and it is the first such row |
| Generator.Capitalised | csharp/SourceGenerator/Program.cs:95 | capitalising keeps the length and the tail and upper-cases only the first character |
| Generator.LinesUpTo | csharp/SourceGenerator/Program.cs:84-104 | the first k languages produce at most k lines |
| Generator.GetLocalisedStruct | csharp/SourceGenerator/Program.cs:72-116 | the line-counting loop returns the record that the specification function `Localised` defines, or null |
| Generator.AddLine | csharp/SourceGenerator/Program.cs:83-104 | one pass of the language loop adds the language's line, or skips an empty text under capitalisation, and reports whether it added one |
| Generator.LinesUpToFull | csharp/SourceGenerator/Program.cs:84-104 | when every earlier language produced a line, language k produces the next one under its own key |
| Generator.LocalisedNeedsDefault | csharp/SourceGenerator/Program.cs:73-77 | no record without a non-empty English text |
| Generator.LocalisedLines | csharp/SourceGenerator/Program.cs:84-104 | a record has the five languages' lines in order; a missing row or null text carries the English text unescaped, a present text is escaped |
| Generator.LocalisedExists | csharp/SourceGenerator/Program.cs:72-116 | without capitalisation a record exists exactly when the English text is non-empty; with it, every language's text must also be non-empty |
| AutoTranslateTable.Int32Of | csharp/SourceGenerator/Program.cs:458 | the unchecked cast keeps values below 2^31 and makes the rest negative |
| AutoTranslateTable.Int32Succ | csharp/SourceGenerator/Program.cs:459 | the unchecked increment adds one below 2^31 - 1 and stays in 32-bit range |
| AutoTranslateTable.ResolveSelector | csharp/SourceGenerator/Program.cs:449-481 | the loop over the parts and the two defaults return what the specification function `Resolve` defines |
| AutoTranslateTable.CollectErrSticks | csharp/SourceGenerator/Program.cs:455-472 | once a part aborts, later parts change nothing |
| AutoTranslateTable.WithDefaults | csharp/SourceGenerator/Program.cs:475-481 | the resolved query always has at least one range and one column |
| AutoTranslateTable.RangeInclusive | csharp/SourceGenerator/Program.cs:457-461 | `a-b` with ends below 2^31 - 1 visits exactly rows a to b, inclusive |
| AutoTranslateTable.SingleRowSelectsOne | csharp/SourceGenerator/Program.cs:463-466 | a single row below 2^31 - 1 visits exactly that row |
| AutoTranslateTable.RangeWrapAround | csharp/SourceGenerator/Program.cs:458-460 | an end of 4294967295 wraps to an empty range; a start of 2^31 or more, or another end of 2^31 - 1 or more, throws |
| AutoTranslateTable.WithoutNouns | csharp/SourceGenerator/Program.cs:455-472 | the parts without noun markers: none remain and none are added |
| AutoTranslateTable.CollectFromNouns | csharp/SourceGenerator/Program.cs:455-472 | resolving from any query ignores noun markers |
| AutoTranslateTable.NounIgnored | csharp/SourceGenerator/Program.cs:455-472 | noun markers do not change the resolved query |
| AutoTranslateTable.CollectColumns | csharp/SourceGenerator/Program.cs:455-472 | the collected columns are the column parts in order, and there is one range per row part |
| AutoTranslateTable.ResolveDefaults | csharp/SourceGenerator/Program.cs:475-481 | the columns are the column parts, or `[0]` when there are none; with no row part the only range is the empty whole-sheet range |
| AutoTranslateTable.FindRow | csharp/SourceGenerator/Program.cs:502 | a found row has the id and is in the sheet; no row only when the id is absent |
| AutoTranslateTable.FirstText | csharp/SourceGenerator/Program.cs:501-512 | the first candidate column with non-empty text is chosen; none only when every candidate is empty |
| AutoTranslateTable.LinesFor | csharp/SourceGenerator/Program.cs:499-513 | the first k languages give at most k lines |
| AutoTranslateTable.LinesForErrSticks | csharp/SourceGenerator/Program.cs:499-513 | once a column read aborts, later languages change nothing |
| AutoTranslateTable.RangeErrSticks | csharp/SourceGenerator/Program.cs:489-522 | once a row aborts, later rows of the range change nothing |
| AutoTranslateTable.QueryErrSticks | csharp/SourceGenerator/Program.cs:484-523 | once a range aborts, later ranges change nothing |
| AutoTranslateTable.ReadLanguage | csharp/SourceGenerator/Program.cs:501-512 | the column loop with its `break` returns what `LanguageText` defines |
| AutoTranslateTable.ExtractRow | csharp/SourceGenerator/Program.cs:490-521 | the language loop that counts lines returns what `RowEntry` defines |
| AutoTranslateTable.ExtractRange | csharp/SourceGenerator/Program.cs:485-522 | the row loop over one range returns what `RangeEntries` defines |
| AutoTranslateTable.ExtractQuery | csharp/SourceGenerator/Program.cs:484-523 | the loop over the ranges returns what `QueryEntries` defines |
| AutoTranslateTable.LinesForShape | csharp/SourceGenerator/Program.cs:499-513 | lines come one per contributing language, in language order, each non-empty |
| AutoTranslateTable.FirstTextNonEmpty | csharp/SourceGenerator/Program.cs:506 | a language's chosen text is never empty |
| AutoTranslateTable.RowEntryAllOrNothing | csharp/SourceGenerator/Program.cs:489-522 | a row becomes a record exactly when it is in the English sheet and all five languages have text; the record is keyed (group, row) and carries each language's first non-empty candidate column |
| AutoTranslateTable.MissingLanguageDropsRow | csharp/SourceGenerator/Program.cs:499-519 | a language whose sheet lacks the row drops the row |
| AutoTranslateTable.RangeEntriesKeys | csharp/SourceGenerator/Program.cs:489-522 | every record of a range is keyed by the group and a row of that range |
| AutoTranslateTable.WholeSheetEmpty | csharp/SourceGenerator/Program.cs:479-481 | the default whole-sheet range contributes no records |
| AutoTranslateTable.OpenSheets | csharp/SourceGenerator/Program.cs:442-447 | an opened sheet has one table per language |
| AutoTranslateTable.RowResults | csharp/SourceGenerator/Program.cs:431-530 | one result per Completion row, each what that row contributes |
| AutoTranslateTable.FlattenErrSticks | csharp/SourceGenerator/Program.cs:431-530 | once a Completion row aborts, later rows change nothing |
| AutoTranslateTable.Lookup | csharp/SourceGenerator/Program.cs:434-523 | parsing, opening, resolving and walking return what `LookupEntries` defines |
| AutoTranslateTable.CompletionStep | csharp/SourceGenerator/Program.cs:432-529 | the body of the Completion loop: a selector lookup, or the direct text through `GetLocalisedStruct` |
| AutoTranslateTable.GenerateAutoTranslate | csharp/SourceGenerator/Program.cs:425-536 | the Completion loop returns what the specification function `Table` defines |
| AutoTranslateTable.BadSelectorRow | csharp/SourceGenerator/Program.cs:433-434 | a selector that does not parse aborts its row |
| AutoTranslateTable.BadSelectorAborts | csharp/SourceGenerator/Program.cs:431-434 | an unparsable selector on any Completion row aborts the whole table |
| AutoTranslateTable.AsMap | csharp/SourceGenerator/Program.cs:428 | every record's key is in the map, and every key comes from a record |
| AutoTranslateTable.AsMapLastWins | csharp/SourceGenerator/Program.cs:428 | the map holds the lines of the last record with each key |
| GameTables.Without | csharp/SourceGenerator/Program.cs:217 | removing a character leaves no occurrence of it and keeps every other character |
| GameTables.StripKind | csharp/SourceGenerator/Program.cs:188 | a stripped content-type name has no space and no ampersand |
| GameTables.KindOf | csharp/SourceGenerator/Program.cs:187-191 | the kind is the stripped content-type name when it is non-empty; otherwise `Other` of the type's id, or 0 when the link does not resolve |
| GameTables.DutyEntry | csharp/SourceGenerator/Program.cs:176-197 | a duty is emitted exactly when its id is not 0 and its capitalised five-language name exists; it carries that id, name, high-end flag and kind |
| GameTables.GenerateDuties | csharp/SourceGenerator/Program.cs:176-198 | the loop over the English rows returns what `DutiesUpTo` defines |
| GameTables.DutiesExactly | csharp/SourceGenerator/Program.cs:176-198 | every record comes from an English row that passes the filter, and every such row's record is emitted |
| GameTables.DutiesFromRows | csharp/SourceGenerator/Program.cs:176-198 | every record of the first k rows is the record of one of those rows |
| GameTables.DutiesFromEveryRow | csharp/SourceGenerator/Program.cs:176-198 | every one of the first k rows that has a record contributes it |
| GameTables.JobEntry | csharp/SourceGenerator/Program.cs:212-234 | a job is emitted exactly when its id is not 0 and its name without spaces is non-empty; it is non-combat iff its role is 0, and a class iff combat with job index 0 |
| GameTables.GenerateJobs | csharp/SourceGenerator/Program.cs:212-235 | the loop over the rows returns what `JobsUpTo` defines |
| GameTables.JobsFromRows | csharp/SourceGenerator/Program.cs:212-235 | at most one record per row; every record comes from a row that passes the filter, and every such row's record is emitted |
| GameTables.FindRow | csharp/SourceGenerator/Program.cs:354-360 | `GetRow` on the world and data-centre sheets: a found row has the requested id; none only when no row has it |
| GameTables.RenameDc | csharp/SourceGenerator/Program.cs:354-356 | the group's data centre is renamed and moved to region 5, in place, exactly when its row exists |
| GameTables.AssignWorlds | csharp/SourceGenerator/Program.cs:358-364 | every world of the group is made public, of user type 10 and in the group's data centre, in place, exactly when all its rows exist |
| GameTables.AssignWorld | csharp/SourceGenerator/Program.cs:360-363 | one world of the group is marked, in place, exactly when its row exists, taking the sheet to the assignment that includes it |
| GameTables.AssignStep | csharp/SourceGenerator/Program.cs:360-363 | writing one world row moves the sheet from one assignment map to the next |
| GameTables.ChangeWorldForCN | csharp/SourceGenerator/Program.cs:283-367 | succeeds exactly when every row the correction writes exists; the world and data-centre sheets are then the originals patched by the whole assignment |
| GameTables.WorldEntry | csharp/SourceGenerator/Program.cs:378-388 | a world is emitted exactly when its id, public flag, user type and data centre are set and its name is non-empty |
| GameTables.ListWorlds | csharp/SourceGenerator/Program.cs:378-389 | the filter loop returns what `WorldsUpTo` defines |
| GameTables.GenerateWorlds | csharp/SourceGenerator/Program.cs:370-395 | fails exactly when the correction does; otherwise the filtered list of the corrected sheet |
| GameTables.PatchedWorlds | csharp/SourceGenerator/Program.cs:352-365 | the corrected sheet has the same length, with each row patched by the whole assignment |
| GameTables.WorldsFromRows | csharp/SourceGenerator/Program.cs:378-389 | every world record comes from a row that passes the filter, and every such row's record is emitted |
| GameTables.CorrectedWorldListed | csharp/SourceGenerator/Program.cs:352-389 | after the correction every named Chinese world with a non-zero id is listed |
| GameTables.AssignedNonZero | csharp/SourceGenerator/Program.cs:285-349 | every data centre the correction assigns has an id other than 0, so corrected worlds pass the data-centre filter |
| GameTables.MapName | csharp/SourceGenerator/Program.cs:557-562 | the key item's name, or the item's name when that one is null or empty |
| GameTables.GenerateTreasureMaps | csharp/SourceGenerator/Program.cs:538-574 | the fixed record under key 0, then the kept rows' records under consecutive keys from 1 |
| GameTables.MapsFromRows | csharp/SourceGenerator/Program.cs:551-568 | every treasure-map record is the record of an untextured row |
| SeStringText.Contribution | csharp/SourceGenerator/SeStringExtensions.cs:9-15 | the per-payload case table: a text payload gives its raw text; a control payload gives `-` exactly when its second byte is 0x1F, and otherwise nothing (the flattening itself is stated by the lemmas below) |
| SeStringText.TextValueAppend | csharp/SourceGenerator/SeStringExtensions.cs:8-33 | flattening distributes over concatenation of payload lists |
| SeStringText.TextValueOfTexts | csharp/SourceGenerator/SeStringExtensions.cs:8-33 | text payloads alone flatten to the concatenation of their texts |
| SeStringText.TextValueEmpty | csharp/SourceGenerator/SeStringExtensions.cs:8-33 | the flattened text is empty exactly when no payload contributes anything |
| SeStringText.UnescapeEscape | csharp/SourceGenerator/Program.cs:505 | quote escaping loses nothing: reading it back gives the original text |
| SeStringText.EscapeStart | csharp/SourceGenerator/Program.cs:505 | an escaped non-empty text never starts with a bare quote |
| SeStringText.EscapeEmpty | csharp/SourceGenerator/Program.cs:88 | escaping keeps an empty text empty and a non-empty text non-empty |
| ServerSeString.Contribution | server/src/sestring_ext.rs:11-17 | the per-payload case table: text is kept; an auto-translate phrase gives the table's text when the (group, key) is present and nothing otherwise; other payloads give nothing; so only text and known phrases contribute anything (the flattening itself is stated by the lemmas below) |
| ServerSeString.FullTextAppend | server/src/sestring_ext.rs:8-20 | flattening distributes over appending payload lists |
| ServerSeString.Significant | server/src/sestring_ext.rs:11-17 | the significant payloads: only text and phrases found in the table remain |
| ServerSeString.FullTextSignificant | server/src/sestring_ext.rs:8-20 | dropping every payload that is not significant does not change the flattened text |
| ServerSeString.FullTextOfTexts | server/src/sestring_ext.rs:8-20 | text payloads alone flatten to their texts joined |
| ServerSeString.MissingPhraseDropped | server/src/sestring_ext.rs:13-15 | a phrase missing from the table leaves no trace in the text |
| Duties.FromU32 | server/src/ffxiv/duties.rs:43-71 | a code decodes to `Other` exactly when it is not one of the 24 listed codes, and then it keeps the code |
| Duties.AsU32 | server/src/ffxiv/duties.rs:73-101 | a named kind encodes to a listed code, and `Other` to its own code |
| Duties.AsFromU32 | server/src/ffxiv/duties.rs:42-102 | decoding and then encoding gives every code back |
| Duties.FromAsU32 | server/src/ffxiv/duties.rs:42-102 | encoding and then decoding gives back exactly the canonical kinds (`Other` only with an unlisted code) |
| Duties.FromU32Injective | src/ffxiv/duties.rs:41-70 | distinct codes decode to distinct kinds (the older crate's `from_u32` is the same function) |
| Duties.FromU32Canonical | server/src/ffxiv/duties.rs:43-71 | every decoded kind is canonical |
| Duties.TableKindsRoundTrip | server/src/ffxiv/duties.rs:104-134 | the stored `Other` codes (20, 22, 23, 27, 29) are unlisted, so every stored kind survives encoding and decoding |
| AcceptLanguage.ParsePart | server/src/ffxiv.rs:35-44 | a part's tag is its text before any `;`; its weight is 1 without `;`, and otherwise the tag parsed as a float, or 0 |
| AcceptLanguage.ParseParts | server/src/ffxiv.rs:34-45 | one weighted tag per part, in order |
| AcceptLanguage.Parts | server/src/ffxiv.rs:34-45 | the header has as many parts as comma-separated pieces, and at least one |
| AcceptLanguage.Insert | server/src/ffxiv.rs:46 | insertion adds exactly the new part to the collection |
| AcceptLanguage.InsertDescending | server/src/ffxiv.rs:46 | inserting into a descending list keeps it descending |
| AcceptLanguage.SortByWeight | server/src/ffxiv.rs:46 | the sort is a permutation of the parts |
| AcceptLanguage.SortByWeightDescending | server/src/ffxiv.rs:46 | the sorted parts are in descending weight |
| AcceptLanguage.TextFor | server/src/ffxiv.rs:53-57 | a recognised tag selects one of the four texts |
| AcceptLanguage.FromCodes | server/src/ffxiv.rs:33-63 | the loop over the sorted parts returns what `Scan` defines over `SortByWeight` |
| AcceptLanguage.ScanFirstRecognised | server/src/ffxiv.rs:51-62 | the scan returns the text of the first recognised part, or English when no part is recognised |
| AcceptLanguage.ScanPicksHeaviest | server/src/ffxiv.rs:46-62 | for every descending reordering: English when no tag is recognised, otherwise the text of a recognised part that no recognised part outweighs |
| AcceptLanguage.FromCodesResult | server/src/ffxiv.rs:33-63 | the result is one of the four texts, and English when no tag is recognised |
| AcceptLanguage.WeightedTag | server/src/ffxiv.rs:36 | the tag of `en;q=0.8` is `en` |
| AcceptLanguage.WeightedTagIgnoresQ | server/src/ffxiv.rs:39-42 | `en;q=0.8` weighs 0, because the tag is parsed as the weight rather than the `q` value |
| AcceptLanguage.ParsePartCorrected | server/src/ffxiv.rs:35-44 | the evidently intended weight: the same tag as the code; weight 1 without `;`, otherwise the parsed number after `q=` in the trimmed parameter, and 0 when the parameter is not a `q` value or does not parse |
| AcceptLanguage.QValueRead | server/src/ffxiv.rs:35-44 | with the `q` value read, `tag;q=value` keeps its tag and weighs what `value` parses to, or 0 when it does not parse, for every tag and value free of `;`, the value not ending in whitespace |
| AcceptLanguage.WeightedTagCorrected | server/src/ffxiv.rs:38-42 | `en;q=0.8` weighs 0.8 when the `q` value is read, where the code as written gives it 0 |
| AcceptLanguage.EmptyHeader | server/src/ffxiv.rs:34-62 | an empty header is one empty tag, which nothing recognises, so the result is English |
| Stats.AliasMap | server/src/stats.rs:31-40 | every record's content id is a key, and every key comes from a record |
| Stats.AliasMapLastWins | server/src/stats.rs:35-38 | the alias kept for a content id is that of its last record |
| Stats.NumListings | server/src/stats.rs:43-49 | the accessor alone: the first count record's value, or 0 when there is none |
| Stats.WorldOrUnknown | server/src/stats.rs:57-60 | the world's name when the world is known, `<unknown>` otherwise; so the result is always `<unknown>` or one of the table's names |
| Stats.PlayerName | server/src/stats.rs:51-63 | `<unknown>` for an unknown content id, otherwise the alias name, ` @ ` and the home world's name; the result is `<unknown>` exactly when the content id is unknown |
| Stats.PlayerNameFromRecords | server/src/stats.rs:31-63 | a content id read from the alias records is named by its last record |
| Stats.PlayerNameUnknown | server/src/stats.rs:31-63 | only a content id without any alias record is `<unknown>` |
| Stats.DutyTypeFromU8 | server/src/listing.rs:274-280 | a byte decodes exactly when it is 0, 1 or 2, to the type with that discriminant |
| Stats.DutyTypeRoundTrip | server/src/listing.rs:274-286 | encoding and then decoding gives every duty type back |
| Stats.DutyCategoryFromU32 | server/src/listing.rs:255-266 | a code decodes exactly when it is 0 or one of the six single bits, to the category with that discriminant |
| Stats.DutyCategoryRoundTrip | server/src/listing.rs:255-272 | encoding and then decoding gives every category back |
| Stats.DutyInfoName | server/src/stats.rs:93-103 | `<unknown>` unless both codes decode; otherwise the duty-naming function's text for the decoded values |
| Stats.DutyInfoNameOfCodes | server/src/stats.rs:93-103 | a key written from a duty type and a category is named by the naming function |
| Stats.DutyInfoNameCombinedCategory | server/src/stats.rs:98-101 | a category code with two bits set, such as 3, names no duty |
| Stats.NumOther | server/src/stats.rs:115-118 | defined exactly when the top hosts' counts do not exceed the total (the subtraction panics otherwise); then it is the rest of the total |
| Stats.SumAppend | server/src/stats.rs:116 | the top hosts' counts sum the same when split |
| Stats.NumOtherAddHost | server/src/stats.rs:115-118 | one more top host moves its count from the others into the top hosts' total |
| Stats.HostWorldName | server/src/stats.rs:120-125 | the created world's name, or `<unknown>`; so always `<unknown>` or one of the table's names |
| Stats.DayName | server/src/stats.rs:148-160 | days 1 to 7 are Sunday to Saturday; anything else is `<unknown>` |
| Stats.DayNameInjective | server/src/stats.rs:148-160 | the seven days get seven different names, none of them `<unknown>` |
| Charts.SumYAppend | server/assets/stats.js:80 | the running sum of the `y` values splits over concatenation |
| Charts.KeepCount | server/assets/stats.js:74-78 | the number of points kept is n clamped to the range 0 to the length |
| Charts.CombineTopN | server/assets/stats.js:66-86 | the single pass returns what `TopN` defines |
| Charts.TopNShape | server/assets/stats.js:66-86 | the first min(n, length) points are kept unchanged and in order, one `Other` point follows, and the total of `y` is unchanged |
| Charts.Above | server/assets/stats.js:52-59 | the kept points all lie above the threshold, and they are a sub-collection of the input |
| Charts.CountSide | server/assets/stats.js:53-55 | the count of points on one side never exceeds the length |
| Charts.AboveAndBelow | server/assets/stats.js:52-59 | every point is either kept or counted into `Other` |
| Charts.AboveAppend | server/assets/stats.js:52-59 | keeping the points above the threshold keeps their order |
| Charts.MedianAsWritten | server/assets/stats.js:37-44 | the threshold as written is undefined (the read throws) exactly for lengths 0 and 1 |
| Charts.CombineUnderMedian | server/assets/stats.js:36-64 | throws when the threshold does; otherwise keeps the points above it and counts the others, as `UnderMedian` defines |
| Charts.FoldUnder | server/assets/stats.js:46-63 | the loop returns what `UnderMedian` defines |
| Charts.UnderMedianShape | server/assets/stats.js:46-63 | the result is the points above the threshold, then one `Other` point whose `y` counts (not sums) the points at or below it |
| Charts.CountSidePrefix | server/assets/stats.js:53 | a prefix of points on one side is counted |
| Charts.CountSideSuffix | server/assets/stats.js:53 | a suffix of points on one side is counted |
| Charts.Median | server/assets/stats.js:36-44 | the median is defined exactly for a non-empty series |
| Charts.MedianSplitsInHalves | server/assets/stats.js:36-44 | on a series sorted in either direction, the median has at least half the points on each side |
| Charts.CombineUnderMedianCorrected | server/assets/stats.js:36-64 | defined exactly for a non-empty series; folds around the true median |
| Charts.MedianAsWrittenOffCentre | server/assets/stats.js:37-44 | for the sorted series 1, 2, 3 the threshold as written is 2.5 and does not split the series in halves, while the median is 2; a one-point series throws |
| Listing.SlotsFilled | server/src/listing.rs:40-42 | the count of non-zero job entries: at most the length, equal to it iff every entry is non-zero, zero iff every entry is zero |
| Listing.IsCrossWorld | server/src/listing.rs:44-46 | holds exactly when the data-centre bit (bit 0) of the search area is set |
| Listing.WorldString | server/src/listing.rs:101-119 | the world's name when `WORLDS` knows it, otherwise its number in decimal digits |
| Listing.HighEnd | server/src/listing.rs:160-168 | only a Normal duty found in `DUTIES` can be high-end, and then it is the table's flag |
| Listing.ContentKindCode | server/src/listing.rs:170-178 | 0 unless the duty is Normal and found in `DUTIES` |
| Listing.ContentKindDecodes | server/src/listing.rs:170-178 | the code reported for a Normal duty in the table decodes back to the duty's kind |
| Listing.DutyName | server/src/listing.rs:48-79 | the match arms in order: fixed names for Other-type Fates, The Hunt and Quest Battles; a Normal or Roulette duty takes its table's name, and when missing falls through to the category's debug name, never reaching the later arms |
| Listing.DutyNameOtherIgnoresDuties | server/src/listing.rs:49-60 | an Other-type duty's name never consults the duty or roulette tables |
| Listing.DutyNameNormalOnlyDuties | server/src/listing.rs:61-65 | a Normal duty's name depends only on `DUTIES` |
| Listing.DutyNameFixedArms | server/src/listing.rs:58-60 | Duty 0 is `None` and another Duty its debug name; deep dungeons 1 and 2 are the Palace of the Dead and Heaven-on-High; a treasure hunt takes its map's name or the debug name |
| Listing.AllCategoriesComplete | server/src/listing.rs:512-528 | `ALL` lists all 15 categories, each once |
| Listing.AsStrNameInjective | server/src/listing.rs:530-568 | distinct categories have distinct identifiers and distinct labels, and no identifier is `unknown` |
| Listing.PfCategory | server/src/listing.rs:180-208 | a roulette, a Quest Battles, FATEs, Treasure Hunt or The Hunt listing, or an Other-type duty missing from `DUTIES`, always has a category |
| Listing.PfCategoryRoulette | server/src/listing.rs:186-189 | a roulette is PvP exactly when its `ROULETTES` entry says so, and Duty Roulette otherwise |
| Listing.PfCategoryHighEnd | server/src/listing.rs:190-193 | a high-end Normal duty outside the forays is High-end Duty whatever its content kind |
| Listing.PfCategoryByKind | server/src/listing.rs:194-198 | a non-high-end Normal duty outside the forays takes the category of its content kind |
| Listing.HtmlPfCategory | server/src/listing.rs:210-214 | `unknown` exactly when there is no category, otherwise the category's identifier |
| Listing.PfCategoryUnmatched | server/src/listing.rs:199-204 | a Normal, non-high-end Eureka duty in the Duty category matches no rule and renders as `unknown` |
| Listing.SetBitsUpTo | server/src/listing.rs:377-489 | the set bits among bits 1 to n, each once, in ascending order |
| Listing.ClassJobs | server/src/listing.rs:377-489 | the bit-by-bit pushes give `ClassJobsOf` |
| Listing.ClassJobsAtSetBits | server/src/listing.rs:377-489 | `classjobs` lists the class or job of every set bit and nothing else, in ascending bit order |
| Listing.JobsUpToNone | server/src/listing.rs:377-489 | a mask with no job bit lists nothing |
| Listing.ClassJobsBlueMageDancer | server/src/listing.rs:470-486 | the mask 167772160 (bits 25 and 27) lists Blue Mage before Dancer |
| Listing.ShownTextsStep | server/src/listing.rs:125-150 | each further label adds its text exactly when its flag is set |
| Listing.ObjectiveTexts | server/src/listing.rs:125-138 | the three objective labels, in order, each present when its flag is set |
| Listing.ShownTextsExpand | server/src/listing.rs:125-150 | all six labels, in order, each present when its flag is set |
| Listing.PrependFlags | server/src/listing.rs:121-153 | the colour is that of the last objective set (loot over completion over practice, or empty), and the labels are the shown texts joined |
| Listing.ObjectiveFlags | server/src/listing.rs:125-138 | the three objective pushes give the colour of the last objective flag set and the objective labels, in order |
| Listing.ShownTextsExactly | server/src/listing.rs:125-150 | with distinct texts, a label is shown exactly when its flag is set |
| Listing.ShownTextsFrom | server/src/listing.rs:125-150 | every shown text is the text of one of the labels |
| Listing.PrependFlagsLabels | server/src/listing.rs:125-150 | each of the six labels appears exactly when its flag is set |
| Listing.RoleClasses | server/src/listing.rs:228-243 | at most three role names |
| Listing.RoleClassesContents | server/src/listing.rs:231-241 | healer, tank and dps are each listed exactly when an accepted class or job has that role, in that order |
| Listing.HtmlClasses | server/src/listing.rs:223-244 | the method returns what `HtmlClassesOf` defines |
| Listing.HtmlClassesEmptyIffAll | server/src/listing.rs:224-226 | the HTML class is `empty` exactly for a slot that accepts every class and job |
| Listing.MapCodes | server/src/listing.rs:247-249 | one code per class or job, in order |
| Listing.CodesSplit | server/src/listing.rs:246-252 | when no code holds a space, splitting `codes` on spaces gives back every code in bit order |
| Listing.SlotAt | server/src/listing.rs:84-95 | a slot is filled exactly when its job is in `JOBS`, with that job; an open slot past the end of `slots` panics |
| Listing.SlotsPanicSticks | server/src/listing.rs:83-96 | once a slot panics, every longer prefix panics |
| Listing.SlotsUpToStep | server/src/listing.rs:83-96 | each further slot is appended, or the whole result panics |
| Listing.RenderSlot | server/src/listing.rs:88-95 | one pass of the loop returns what `SlotAt` defines, for any rendering of an open slot |
| Listing.Slots | server/src/listing.rs:81-99 | the loop returns what `SlotsOf` defines |
| Listing.SlotsLoop | server/src/listing.rs:81-99 | for any rendering of an open slot, the loop keeps the slots built so far equal to the first i slots of `SlotsOf` and ends with all of them |
| Listing.PushSlot | server/src/listing.rs:83-96 | one pass of the loop extends the first i slots to the first i + 1 |
| Listing.SlotsUpToShape | server/src/listing.rs:83-96 | the first n slots are slots 0 to n - 1, one each, unless one of them panics |
| Listing.SlotsUpToPanics | server/src/listing.rs:83-96 | the first n slots panic exactly when one of them does |
| Listing.SlotsLength | server/src/listing.rs:81-99 | without a panic, the length is min(slots_available, jobs_present length); enough slot entries rule out the panic |
| Listing.CheckedSlotCount | server/src/listing.rs:83-86 | the corrected count is bounded by both vectors and equals one of the bounds |
| Listing.SlotsChecked | server/src/listing.rs:81-99 | the corrected loop cannot panic, gives `SlotAt` for each slot, and agrees with `slots()` whenever that does not panic |
| LegacyListing.DutyName | src/listing.rs:46-71 | the older arms: Fates by territory name, The Hunt, Duty 0 as `None`, Normal and Roulette from their tables; everything else, and a duty missing from its table, is the category's debug name |
| LegacyListing.Legacy | src/listing.rs:62-66 | the older tables are the current ones, with `ROULETTES` mapping each id straight to its name |
| LegacyListing.DutyNameAgrees | src/listing.rs:46-71 | on the same tables both versions agree on Normal and Roulette duties and on Other duties outside the quest-battle, deep-dungeon and treasure-hunt categories |
| LegacyListing.DutyNameDiffers | src/listing.rs:67-70 | where they differ, the older server shows those categories' debug names |
| LegacyListing.PracticeCompletionTexts | src/listing.rs:113-145 | objective 3 with conditions 1 and search area 1 shows exactly the Practice and Duty Completion labels, in that order |
| LegacyListing.PracticeCompletionFlags | src/listing.rs:113-145 | objective 3 with conditions 1 and search area 1 shows Practice then Duty Completion, in the blue of duty completion |
| LegacyListing.FixtureFlags | src/test.rs:21-25 | the test's listing shows `[Practice][Duty Completion]` in `desc-blue` |
| LegacyListing.FixtureCounts | src/test.rs:25-40 | the test's listing has one filled slot and is cross-world |
| LegacyListing.FixtureSlotJobs | src/test.rs:28 | the test's slot accepts Blue Mage and Dancer, in that order |
| LegacyListing.FixtureSlotsPanic | src/listing.rs:73-91 | with job id 0 absent from `JOBS`, `slots()` on the test's listing reads past its single slot entry and panics |
| LegacyListing.FixtureSlotsChecked | src/listing.rs:73-91 | the corrected loop stops after the one slot entry and fills it with job 5 |
| Api.PageOf | server/src/web/api.rs:125 | `page` defaults to 1 and is otherwise as given |
| Api.PerPageOf | server/src/web/api.rs:126 | `per_page` defaults to 20 and is capped at 100 |
| Api.ParseUnsigned | server/src/web/api.rs:207 | an unsigned parse succeeds exactly on an optional `+` and one or more ASCII digits whose value is below the type's limit, and gives that value |
| Api.ParseRendered | server/src/web/api.rs:207 | every value below the limit parses back from its decimal text, with or without `+` |
| Api.ParseRefuses | server/src/web/api.rs:247 | a `-` sign is refused, and so is a value at or above the limit |
| Api.MaxKey | server/src/web/api.rs:204 | the largest `JOBS` key, which bounds every key, or 0 when there is none |
| Api.ParsedIdsSound | server/src/web/api.rs:206-221 | every listed id was parsed from some item and passed the range check |
| Api.ParsedIdsComplete | server/src/web/api.rs:206-221 | every item that parses to an id within range contributes it |
| Api.ParsedIdsSnoc | server/src/web/api.rs:207-210 | one more item adds its id exactly when it parses and passes the range check |
| Api.PushIds | server/src/web/api.rs:216-220 | one form's loop pushes the ids that `ParsedIds` defines, after those already collected |
| Api.CollectIds | server/src/web/api.rs:202-221 | the loops over the comma-separated text and then the `[]` form give `ParsedIds` of both forms' items, in that order |
| Api.InsertUnique | server/src/web/api.rs:280-283 | inserting into an increasing list keeps it increasing and adds exactly the new id |
| Api.SortDedup | server/src/web/api.rs:280-283 | sorting then deduplicating gives an increasing list with the same ids |
| Api.IncreasingUnique | server/src/web/api.rs:280-283 | two increasing lists with the same ids are equal |
| Api.SortDedupCanonical | server/src/web/api.rs:279-283 | permuted or repeated ids give the same normalised list |
| Api.CategoryOfName | server/src/web/api.rs:129-150 | the category parameter's lookup: a category is found only for its exact name, and every one of the sixteen names finds one |
| Api.CategoryNameRoundTrip | server/src/web/api.rs:129-150 | each category's name requests that very category |
| Api.CategoryNamesExact | server/src/web/api.rs:129-150 | names are compared as written: `Dungeons` is known, `Dungeon`, `dungeons` and `PvP` are not |
| Api.Prepare | server/src/web/api.rs:125-296 | the id loops, the guards and the cache key give what `Prepared` defines |
| Api.PreparedIds | server/src/web/api.rs:202-283 | a request that passes the guards carries increasing, duplicate-free id lists; job ids fit 32 bits and do not exceed the largest `JOBS` key; duty ids fit 16 bits |
| Api.ParsedIdsSameItems | server/src/web/api.rs:206-221 | items with the same members give ids with the same members, whatever their order |
| Api.SameItemsSameIds | server/src/web/api.rs:202-283 | items with the same members give id lists that are empty together and normalise to the same list |
| Api.PreparedIgnoresIdOrder | server/src/web/api.rs:202-296 | queries that differ only in how the job and duty ids are written (order, repetition, comma or `[]` form) give the same outcome, cache key included, as long as each parameter is given in both or in neither |
| Api.PreparedIgnoresJobOrder | server/src/web/api.rs:279-296 | reordering or repeating the `jobs[]` items alone changes nothing |
| Api.PreparedEitherForm | server/src/web/api.rs:202-221 | comma-free items written as `jobs=a,b` or as `jobs[]=a&jobs[]=b` give the same outcome, and likewise for `duty` |
| Api.UnknownCategoryIgnored | server/src/web/api.rs:129-150 | a `category` text outside the sixteen names is handled as no `category` parameter: no filter and an empty key part |
| Api.KnownCategoryRequested | server/src/web/api.rs:129-150 | one of the sixteen names requests its category, which the request carries and whose Party Finder text the key holds |
| Api.JobBits | server/src/web/api.rs:368-381 | the shift `1u32 << job_id` succeeds exactly when every job id is below 32, one condition per job |
| Api.JobText33 | server/src/web/api.rs:206-211 | with 33 among the `JOBS` keys the text `33` yields the single job id 33 |
| Api.JobIdsOf33 | server/src/web/api.rs:202-221 | a query `jobs=33` collects the job ids `[33]` |
| Api.PreparedWithJobs | server/src/web/api.rs:152-283 | without world, data-centre or duty parameters, non-empty job ids proceed with their sorted, deduplicated list |
| Api.JobIdOverflowsShift | server/src/web/api.rs:202-381 | a query `jobs=33` passes every guard, and then the shift `1u32 << 33` of the database query overflows |
| Api.DatabaseJobMatchAcceptsAny | server/src/web/api.rs:367-390 | the database query's job filter (`$elemMatch` with `$bitsAllSet` of `1u32 << job_id`, under an `$or`) keeps exactly the listings with a slot that has the bit of some listed job id, the same test as the handler's own loop |
| Api.HasJob | server/src/web/api.rs:629-647 | the nested loops with the `has_job` flag, run after a text search, find a match exactly when some slot has the bit of some listed job id |
| Api.FilteredMembers | server/src/web/api.rs:621-684 | the survivors are exactly the listings that pass |
| Api.FilteredAppend | server/src/web/api.rs:621-684 | the filter keeps the original order |
| Api.FilteredKeepsAll | server/src/web/api.rs:681-683 | with neither a search term nor jobs, the filter keeps everything; the handler never reaches this branch |
| Api.FilterCandidates | server/src/web/api.rs:617-684 | the filter loops give what `Filtered` defines: the text test then the job test with a search term, which is the only case the handler reaches; the job test alone without one, written code that never runs |
| Api.HasJobCorrected | server/src/web/api.rs:629-647 | the corrected nested loops match exactly when some slot's decoded classes and jobs contain the class or job that `JOBS` lists under some id |
| Api.JobsUpToUnchanged | server/src/web/api.rs:636-637 | with no job bit among bits m + 1 to n, the decoded list stops growing at m |
| Api.PaladinOnlyJobs | server/src/web/api.rs:636-637 | a slot with bit 8 alone accepts Paladin alone |
| Api.NinjaOnlyJobs | server/src/web/api.rs:636-637 | a slot with bit 19 alone accepts Ninja alone |
| Api.JobIdIsNotBit | server/src/web/api.rs:636-637 | with `JOBS` listing Paladin under id 19, the test as written misses a Paladin-only slot and matches a Ninja-only one; the corrected test does the opposite |
| Api.TotalPages | server/src/web/api.rs:687-688 | the page count rounds up: it is defined exactly when `per_page` is not 0, and the pages cover the total with less than one page to spare |
| Api.PastLastPage | server/src/web/api.rs:694 | a page after the last one starts at or past the end |
| Api.WithinLastPage | server/src/web/api.rs:694-701 | a page up to the last one starts before the end |
| Api.PaginateCases | server/src/web/api.rs:694-701 | the handler's two branches agree with the plain page slice |
| Api.Paginate | server/src/web/api.rs:690-730 | panics exactly for page 0, `per_page` 0 or a start beyond `usize`; otherwise the slice of page `page` |
| Api.PageHolds | server/src/web/api.rs:690-730 | item i is on page i / per_page + 1, at position i % per_page |
| Api.PagesBeyondLastEmpty | server/src/web/api.rs:687-730 | pages up to the page count are non-empty, and those after it are empty |
| Uploadable.OrFoldCovers | csharp/RemotePartyFinder/UploadableListing.cs:69 | every accepted job flag's bits are in the slot's folded mask |
| Uploadable.OrFoldLeast | csharp/RemotePartyFinder/UploadableListing.cs:69 | the folded mask has no bit outside the accepted flags: any mask covering every flag covers it |
| Uploadable.OrFoldSmall | csharp/RemotePartyFinder/UploadableListing.cs:69 | the fold starts from 0 and a single flag folds to itself |
| Uploadable.UShort | csharp/RemotePartyFinder/UploadableListing.cs:41-43 | the `(ushort)` cast keeps a row id below 65536, changes only larger ones, and always differs from the row id by a multiple of 65536 |
| Uploadable.FromClient | csharp/RemotePartyFinder/UploadableListing.cs:36-60 | the three worlds are the `(ushort)` casts of their row ids; id, content id, name, description, category, duty, duty type, flags, counts, restart time and job ids are copied; one uploaded slot per client slot, each the fold of that slot's flags |
| Uploadable.ServerReading | server/src/listing.rs:10-37 | the server reads an upload exactly when its worlds fit `u8` and its category and duty type are enum values |
| Uploadable.ReadBack | csharp/RemotePartyFinder/UploadableListing.cs:36-60 | a listing reaches the server exactly when its cast world ids are below 256 and its category and duty type are known, and then with its three worlds (current world included), duty, flags, job ids and folded slots intact |
| Uploadable.WideWorldRefused | csharp/RemotePartyFinder/UploadableListing.cs:41 | world row id 400 is uploaded as 400 and refused by the server's `u8` field; worlds below 256 arrive unchanged |
| Uploadable.RowIdWraps | csharp/RemotePartyFinder/UploadableListing.cs:42 | home world row id 65537 is uploaded as 1 |
| Gathering.BatchOfNonEmpty | csharp/RemotePartyFinder/Gatherer.cs:61-67 | a batch that has received a listing holds at least one |
| Gathering.BatchOfMembers | csharp/RemotePartyFinder/Gatherer.cs:61-67 | a listing is in a batch exactly when it arrived with that batch number |
| Gathering.BatchOfAbsent | csharp/RemotePartyFinder/Gatherer.cs:61-67 | a batch number that never arrived has no listings |
| Gathering.OneMoreArrival | csharp/RemotePartyFinder/Gatherer.cs:66 | an arrival lengthens its own batch by one, at the end, and leaves the others alone |
| Gathering.GroupedSnoc | csharp/RemotePartyFinder/Gatherer.cs:61-67 | grouping one more arrival appends it to its batch, creating the batch when new |
| Gathering.Converted | csharp/RemotePartyFinder/Gatherer.cs:79-81 | one `UploadableListing` per listing of the batch, in order |
| Gathering.Gatherer.constructor | csharp/RemotePartyFinder/Gatherer.cs:31-39 | the map starts empty and the timer starts now |
| Gathering.Gatherer.OnListing | csharp/RemotePartyFinder/Gatherer.cs:61-67 | the listing is appended to its batch, which is created when new; the map stays the received listings grouped by batch |
| Gathering.Gatherer.OnUpdate | csharp/RemotePartyFinder/Gatherer.cs:69-100 | under ten seconds nothing changes; afterwards the timer restarts, the map empties and every batch is uploaded, converted |
| Config.UploadUrl.constructor | csharp/RemotePartyFinder/UploadUrl.cs:8-12 | a new endpoint is enabled and not a default one |
| Config.UploadUrl.Clone | csharp/RemotePartyFinder/UploadUrl.cs:14 | a fresh object with the same three settings |
| Config.UploadUrl.SetEnabled | csharp/RemotePartyFinder/UploadUrl.cs:6 | only the enabled flag changes |
| Config.UploadUrl.SetDefault | csharp/RemotePartyFinder/UploadUrl.cs:5 | only the default flag changes |
| Config.AllSettings | csharp/RemotePartyFinder/Configuration.cs:11 | one settings value per endpoint, in order |
| Config.Initialized | csharp/RemotePartyFinder/Configuration.cs:13-19 | a non-empty list is kept as it is, and the result is never empty |
| Config.InitializeIdempotent | csharp/RemotePartyFinder/Configuration.cs:15 | a second `Initialize` changes nothing |
| Config.InitializeDefaults | csharp/RemotePartyFinder/Configuration.cs:17-18 | on an empty list: the xivpf endpoint then the findingway one, both enabled and default |
| Config.Configuration.constructor | csharp/RemotePartyFinder/Configuration.cs:9-11 | version 1, advanced settings off, no endpoints |
| Config.Configuration.Initialize | csharp/RemotePartyFinder/Configuration.cs:13-19 | the endpoints become `Initialized` of the old ones; existing endpoint objects are kept and the defaults are new ones |

## Left out

- The generator's other tables (roulettes, territory names, content finder conditions and the rest of `Program.cs`) and the Rust source text it writes: only the table contents are modelled, as maps and record lists.
- Reading the game data (Lumina sheets): sheets enter as ordered row lists with their columns already read as text, and a column of the wrong type is an abort.
- Pidgin's parser machinery: the selector grammar is written as recursive descent with the same choices, and Unicode digits are left out because `uint.Parse` refuses them anyway.
- `ToUpperInvariant` and `to_lowercase`: the case mappings enter as function parameters.
- The byte encoding of SeStrings and the base64 transport of listing names: payloads are already decoded.
- The roles and short codes of classes and jobs come from a foreign library and enter as functions. The 16-variant category enum that `server/src/web/api.rs` imports from the crate's own `listing` module (line 17, matched at lines 131-146) and its `pf_category()` (line 290) belong to a later revision of `server/src/listing.rs` than the one modelled, and that revision is not part of this model: the text of a requested category's Party Finder category enters as a function. The category's numeric value in the database filter is not modelled; the request carries the category itself.
- The server files come from two revisions of the crate. `server/src/web/api.rs`, `server/src/ffxiv/duties.rs`, `server/src/ffxiv/treasure_maps.rs` and the generator's `AUTO_TRANSLATE` output (`csharp/SourceGenerator/Program.cs:428`) are language-aware: names are `LocalisedText`, and the handler calls `duty_name(&lang)` and `full_text(&lang)`. `server/src/listing.rs` and `server/src/sestring_ext.rs` are language-free: `duty_name(&self)` and `full_text(&self)` take no language, and duty names are plain text. The listing and SeString modules follow the language-free revision (`Duties.DutyInfo<string>`, an auto-translate table of plain text); the API module takes listing names and descriptions already flattened. The per-language choice of duty names, treasure-map names and auto-translate phrases in the later revision is not modelled; choosing a language from `Accept-Language` is.
- The large `DUTIES`, `ROULETTES`, `TERRITORY_NAMES`, `TREASURE_MAPS`, `JOBS` and `WORLDS` literals: they are data parameters.
- The API's database query, the MongoDB access, the HTTP layer, the cache store and the templates: only the request handling around them is modelled, and the candidates the database returns are an input.
- The statistics aggregation pipeline: its records are an input.
- The chart drawing of the statistics page (`makeTreeMap`, `makeBarPlot` and `extractData` in `server/assets/stats.js`): it passes the extracted series straight to the plots. `combineTopN` and `combineUnderMedian` are defined in that script but never called; they are modelled as written.
- `DutyType::from_u8`, `DutyCategory::from_u32` and `crate::ffxiv::duty_name`, which `server/src/stats.rs` calls, are not part of this model's source files: the two decoders are taken as the inverses of the `repr` discriminants of `server/src/listing.rs` (the values `Deserialize_repr` accepts), and the naming function is a parameter.
- The handler's filter without a search term (`server/src/web/api.rs:655-684`) never runs: without a search term the handler has already answered from the database's own page (lines 491-598), whose job filter is `DatabaseJobMatch`. `FilterCandidates` and `FilteredKeepsAll` still model that branch as written.
- Floating point: the weights of `Accept-Language` and the chart values are reals, without rounding, NaN or infinities; float parsing enters as a parameter.
- Overflow in release builds: Rust arithmetic that overflows is modelled as the panic of a debug build, not as the wrap-around of a release build.
- The plugin's signing, JSON serialisation, HTTP upload, logging, `Dispose` and the `Task.Run` concurrency: `OnUpdate` returns the converted batches it would upload.
- The `ConcurrentDictionary` enumeration order: the batches leave as a map from batch number to listings, which carries no order.
- The `Stopwatch`: the clock reading is an input, in `TimeSpan` ticks.
- `Configuration.Save` and the settings window: they call into the host application.
- Config.InitializeIdempotent: states the idempotence of `Initialize` on the endpoints' settings as values, not on the objects.
- AcceptLanguage.FromCodes: the library sort is modelled as one stable sort. The order of parts with equal weights is therefore one admissible order, not every one, and `ScanPicksHeaviest` is what holds for any order.

## Findings

| source | as written | input that shows it | evidently intended | confidence | as-written member | corrected member |
|---|---|---|---|---|---|---|
| server/src/listing.rs:81-99 | `slots()` walks `min(slots_available, jobs_present.len())` entries and, for a job id not in `JOBS`, indexes `slots[i]`, which panics once `i` passes `slots.len()` | the older server's test listing: eight `jobs_present` entries, `slots_available` 7 and one slot; entry 1 holds job id 0 | stop at the shortest of the three lengths, so every open slot has a `slots` entry | not executed | LegacyListing.FixtureSlotsPanic | Listing.SlotsChecked |
| server/assets/stats.js:37-44 | for an odd length the median is the mean of the middle point and the one after it; lengths 0 and 1 read a missing point and throw. Nothing in the script calls `combineUnderMedian`, so no page shows the effect | the sorted series 1, 2, 3 gives 2.5, not 2, and leaves one point of three at or above it; a one-point series throws | the middle value, with half of the points on each side | not executed | Charts.MedianAsWrittenOffCentre | Charts.MedianSplitsInHalves |
| server/src/ffxiv.rs:38-42 | a part with a `;` parameter is weighted by parsing the part's first piece, the language tag itself, as a float; the `q=` parameter is never read | `en;q=0.8` weighs 0 (the tag `en` is not a number), so in `fr;q=0.5,en;q=0.8` both parts weigh 0 and the unstable sort may put either first, so French can be picked | the `q` value is the weight (section 5.3.1 of RFC 7231): `en` weighs 0.8 and is picked | not executed | AcceptLanguage.WeightedTagIgnoresQ | AcceptLanguage.QValueRead |
| server/src/web/api.rs:629-647 | a job id checked against the keys of `JOBS` is used as a bit position of the slot's job mask (`1u32 << job_id`), here and in the database filter at line 371 | job id 19 (Paladin) tests bit 19, which is Ninja's; job id 33 passes the range check and overflows the 32-bit shift | ambiguous: the range check against `JOBS` (lines 202-221), the handler's doc pointing to the `JOBS` table (lines 104-105) and the detail API's `job_id` read the parameter as `JOBS` ids, so the test should compare decoded classes and jobs; the doc's own examples (`jobs=8,10,21`, lines 107-110) are instead the bit positions of Paladin, Warrior and Dark Knight, for which the shift is right. Either way an id of 32 or more that passes the range check overflows | not executed | Api.JobIdIsNotBit | Api.HasJobCorrected |
