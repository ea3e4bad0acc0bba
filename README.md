# Academic paper style transfer, modelled in Dafny

The repository transfers the formatting of a reference paper onto a manuscript
in three stages. This project models the deterministic core of each stage and
of two small helpers, and proves what the code promises about it.

1. **Reference analysis** (`scripts/analyze_docx.py`): a first-match-wins role
   classifier (module `Roles`); the citation-style detector, with one
   hand-written matcher per regular expression (`Citation`); and the paragraph,
   page-layout, table and document summaries (`Analyze`).
2. **Flowing-document formatting** (`scripts/format_docx.py`): the default
   format records and the overlay of the extracted rules on them, together with
   font-size and alignment resolution (`Resolve`); and the formatter itself
   (`FlowDoc`). The word-processor document is a class `FlowDoc.Document` with
   an append-only `paragraphs: seq<Para>` (text and role format) and a `page`
   record. Its methods append paragraphs and set page fields, and each one
   states the whole new state.
3. **LaTeX generation** (`scripts/generate_latex.py`, module `Latex`): escaping,
   the CJK test, the size table, every preamble builder, section rendering,
   citation-package choice and the assembled line sequence.
4. **Markdown reading** (`scripts/generate_docx.py`, module `Markdown`):
   `parse_markdown` is a method with a loop over lines and a paragraph buffer,
   proved against a specification function. The block order of the generated
   document is a function of the parsed sections.
5. **DOI extraction and verdict** (`scripts/verify_doi.py`, module `Doi`).

Shared modules:
- `Wrappers`: `Option` for Python's `None`.
- `Text`: character classes, strip, lower, substring tests and `str(n)`.
- `Json`: values as JSON carries them.
- `Schema`: the records the stages exchange.

Modelling choices:
- **Numbers** are exact decimals `Number(digits, scale)`, kept in the form
  Python prints them: an int has scale 0, a float at least 1. `Real(n)` is
  their value. `Json.Show` is `str(x)`, and `Json.Parse` is `float(s)` on plain
  decimals, with `None` for the `ValueError`. This keeps `"12.0pt"`-style
  strings exact without modelling floating point.
- **Page lengths in the formatter** are integer EMUs. `Cm(x)` truncates as
  `int(x * 360000)` does.
- **The network.** The two registry queries of the DOI checker are parameters.
- **Crash paths.** Where the scripts would raise on a rules or content file
  of the shape the model's types hold (for example, iterating a `null` font
  list or passing a text length to the library), the operation's precondition
  excludes that input. Inputs the types cannot hold are listed under
  "## Left out". The
  `...Readable` and `Applicable` predicates name those conditions. A present
  `null` (or non-string) `paper_size` is one of them: the generator calls
  `.lower()` on it, so `Latex.PaperReadable` keeps it apart from a missing key,
  which reads as `A4`. The analyser always writes a string there.
- **Empty page layout.** An empty `page_layout` list makes the generator
  raise, so `Latex.Readable`, the precondition of `Latex.GenerateLatex`,
  excludes it. The reading the code evidently intends, no layout at all, is
  `Latex.LatexPage` under Findings.
- **Line spacing.** The formatter applies the spacing branch as written
  (`FlowDoc.SpacingAsWritten`, used by `FlowDoc.ParaPropsOf`). The
  rule-first order it evidently intends is `FlowDoc.SpacingOf` under Findings.

## Model

| member | source | states |
|---|---|---|
| Text.Strip | scripts/generate_docx.py:96 | Python's strip: the result is empty exactly when the line is all whitespace, otherwise it starts and ends with a non-space, and it is never longer than the line |
| Text.StripIsSlice | scripts/generate_docx.py:96 | the stripped line is the slice of the line between its leading and its trailing whitespace |
| Text.Lower | scripts/generate_latex.py:417 | Python's lower on ASCII: the length is kept and every character is lowered on its own |
| Json.ParseShow | scripts/format_docx.py:122 | reading back the printed form of a recorded number, as `float(str(x))` does, gives the same number for every number |
| Json.ParseInt | scripts/generate_latex.py:133 | `int()` on a string: whenever it reads a number, `float()` reads the same whole number; a decimal point or an all-whitespace string is refused |
| Json.SignedWhole | scripts/generate_latex.py:133 | an optional sign and digits only, read as `float()`'s sign step reads them; a decimal point is refused |
| Json.PyStr | scripts/generate_latex.py:296-298 | `str()` as an f-string prints a value; a list prints in square brackets |
| Json.QuoteOf | scripts/generate_latex.py:296-298 | `repr` quotes a string in `"` exactly when it holds `'` and no `"` |
| Json.ReprChar | scripts/generate_latex.py:296-298 | `repr` writes a character as itself exactly when it is printable and neither the quote nor a backslash, else an escape that starts with a backslash |
| Json.ReprText | scripts/generate_latex.py:296-298 | `repr` of a string opens and closes with the chosen quote |
| Json.ReprPlain | scripts/generate_latex.py:296-298 | a string with nothing to escape appears inside the quotes unchanged |
| Json.ReprBodyNoBareQuote | scripts/generate_latex.py:296-298 | every quote character inside a string's `repr` is preceded by a backslash |
| Json.CanonCanon | scripts/analyze_docx.py:126-128 | a recorded float is brought to its shortest printed form, and doing so again changes nothing |
| Roles.HeadingLevel | scripts/analyze_docx.py:170-173 | a style name without any digit gives heading level 1; otherwise the level is the value of the first run of digits in the name |
| Roles.HeadingLevelOfRun | scripts/analyze_docx.py:170-173 | a digit-free prefix, a run of digits and then a non-digit or the end give the run's value as the level, for any number of digits and any suffix |
| Roles.HeadingLevelDigit | scripts/analyze_docx.py:170-173 | a digit-free prefix followed by one digit gives that digit as the level |
| Roles.StrippedRules | scripts/analyze_docx.py:164-196 | on the lower-cased name and stripped text, in both directions: empty iff the text is empty; heading iff the name contains "heading", at the name's level; title iff it contains "title" and not "heading"; then caption, reference, abstract and keywords each iff its test holds and no earlier test does; body iff none of them holds |
| Roles.ClassifyRules | scripts/analyze_docx.py:159-196 | the classifier is first-match-wins, in both directions: empty exactly for blank text; a "heading" name beats "title"; after them caption, reference, abstract and keywords each iff its test holds on the stripped text and no earlier test does; body iff none holds |
| Roles.RoleTagInjective | scripts/analyze_docx.py:174 | distinct roles get distinct keys; only the empty role is keyed "empty" |
| Roles.HeadingLevelTwo | scripts/analyze_docx.py:170-173 | the level of "heading 2" is 2 |
| Roles.HeadingLevelOne | scripts/analyze_docx.py:173 | the level of "heading" is 1 |
| Roles.HeadingTwoExample | scripts/analyze_docx.py:168-174 | style "Heading 2" gives heading_2 |
| Roles.HeadingDefaultExample | scripts/analyze_docx.py:173-174 | style "Heading" gives heading_1 |
| Roles.TitleExample | scripts/analyze_docx.py:171-172 | style "Subtitle" gives title |
| Citation.LowerRun | scripts/analyze_docx.py:262 | `[a-z]+` is greedy: the run stays in the text, holds only a-z, and the next character, if any, is not a-z |
| Citation.BracketLen | scripts/analyze_docx.py:260 | `\[\d+\]`: a match is "[", one or more digits and "]"; and whenever the text has "[", digits and "]" at that position, that is the match |
| Citation.SuperscriptLen | scripts/analyze_docx.py:261 | `\^\[\d+\]`: a match is "^" followed by a bracket match, and a "^" followed by a bracket match always matches |
| Citation.NameLen | scripts/analyze_docx.py:262 | `[A-Z][a-z]+`: a match is an upper-case letter followed by the whole run of lower-case letters after it; an upper-case letter followed by a lower-case one always matches |
| Citation.SecondAuthorEnd | scripts/analyze_docx.py:262 | `(?:\s(?:and|&)\s[A-Z][a-z]+)?`: a match is whitespace, "and" or "&", whitespace, and a name, and whenever one of those is present the match ends after it |
| Citation.YearCloseEnd | scripts/analyze_docx.py:262 | `,?\s*\d{4}\)`: a match is an optional comma, whitespace, four digits and ")", and whenever that shape is present the match ends at its ")" |
| Citation.ParenLen | scripts/analyze_docx.py:262 | an author-year match stays within the text |
| Citation.CjkRun | scripts/analyze_docx.py:263 | `[\u4e00-\u9fff]+` is greedy: the run stays in the text, holds only CJK characters, and the next character, if any, is not one |
| Citation.CnLen | scripts/analyze_docx.py:263 | a Chinese author-year match stays within the text |
| Citation.MatchLen | scripts/analyze_docx.py:259-264 | a match of any of the four patterns stays within the text |
| Citation.Lens | scripts/analyze_docx.py:270 | one match length per position, none running past the end |
| Citation.FirstMax | scripts/analyze_docx.py:272 | the index holds the largest count and every earlier count is strictly smaller |
| Citation.DetectCitationStyle | scripts/analyze_docx.py:257-284 | each count is the pattern's findall count summed over the paragraphs; the label is chosen from the counts |
| Citation.Tally | scripts/analyze_docx.py:268-270 | one paragraph adds its findall count to each pattern and nothing else |
| Citation.VerdictUnknownIff | scripts/analyze_docx.py:272 | the style is "unknown" exactly when all four counts are zero |
| Citation.LabelNotUnknown | scripts/analyze_docx.py:274-282 | no family's label is "unknown" |
| Citation.VerdictFirstMax | scripts/analyze_docx.py:272 | with some match, the label is the first family with the largest count |
| Citation.NoHitsBetween | scripts/analyze_docx.py:270 | positions without a match start add no matches |
| Citation.ScanIsHits | scripts/analyze_docx.py:270 | when matches never nest, resuming after each match counts every match position |
| Citation.BracketNoInnerMatch | scripts/analyze_docx.py:260 | no bracket match starts inside another |
| Citation.SuperscriptNoInnerMatch | scripts/analyze_docx.py:261 | no superscript match starts inside another |
| Citation.FindAllIsPositions | scripts/analyze_docx.py:270 | the bracket and superscript findall counts equal their numbers of match positions |
| Citation.SuperscriptBelowBracket | scripts/analyze_docx.py:260-261 | in one text, superscript matches never outnumber bracket matches |
| Citation.SuperscriptBelowBracketTotal | scripts/analyze_docx.py:267-270 | over all paragraphs, the superscript count never exceeds the bracket count |
| Citation.SuperscriptNeverDetected | scripts/analyze_docx.py:259-272 | the superscript label is never reported |
| Citation.NoMatchNoCount | scripts/analyze_docx.py:270 | a text with no match counts zero |
| Citation.BracketOnlyParagraph | scripts/analyze_docx.py:259-270 | "[d]" counts one bracket citation and nothing else |
| Citation.ThreeBracketParagraphs | scripts/analyze_docx.py:257-284 | paragraphs "[1]", "[2]", "[3]" give counts 3, 0, 0, 0 and the numeric label |
| Citation.TotalOfThree | scripts/analyze_docx.py:267-270 | the count over three paragraphs is the sum of their counts |
| Analyze.AlignmentName | scripts/analyze_docx.py:49-58 | the name is one of the five; "left" exactly for the members other than center, right, justify and distribute |
| Analyze.Dedup | scripts/analyze_docx.py:149 | the same elements, each once, no longer than the input |
| Analyze.DedupFirstSeenOrder | scripts/analyze_docx.py:149 | first-seen order: deduplicating a prefix gives a prefix of the deduplication |
| Analyze.RunFonts | scripts/analyze_docx.py:139-140 | only non-empty names; none exactly when no run names a font |
| Analyze.RunSizes | scripts/analyze_docx.py:141-142 | only non-zero sizes |
| Analyze.Marked | scripts/analyze_docx.py:143-146 | never more marked runs than runs |
| Analyze.NonZero | scripts/analyze_docx.py:113-116 | None exactly when the length is unset or zero, else the same value as a float |
| Analyze.Float | scripts/analyze_docx.py:27-31 | None exactly when unset, else the same value printed as a float |
| Analyze.SpacingEntries | scripts/analyze_docx.py:119-129 | no spacing gives no rule and no value; EXACTLY and AT_LEAST give "<value>pt"; every other rule gives the number; the rule name is recorded as read |
| Analyze.Preview | scripts/analyze_docx.py:108 | the first 80 characters, the whole text when shorter |
| Analyze.RunEntries | scripts/analyze_docx.py:148-154 | fonts and sizes recorded deduplicated only when some were seen; bold and italic recorded when there are runs, each by strict majority; other keys unchanged |
| Analyze.AnalyzeParagraphFormat | scripts/analyze_docx.py:104-156 | the summary equals the paragraph's specification summary |
| Analyze.AddRunEntries | scripts/analyze_docx.py:148-154 | the in-place updates give the run entries of the summary |
| Analyze.ScanRuns | scripts/analyze_docx.py:132-146 | the loop collects the fonts, sizes, bold and italic counts and run total of the runs |
| Analyze.MajorityRule | scripts/analyze_docx.py:152-154 | bold and italic are present exactly when there are runs, and true exactly when more than half the runs carry them |
| Analyze.HalfIsNotBold | scripts/analyze_docx.py:153 | one bold run out of two is not bold |
| Analyze.FontNamesRecorded | scripts/analyze_docx.py:148-149 | font names are present exactly when some run names a font, deduplicated in first-seen order |
| Analyze.ZeroIsAbsent | scripts/analyze_docx.py:113-115 | zero space before, space after and first-line indent are recorded as None |
| Analyze.PaperSize | scripts/analyze_docx.py:81-88 | A4 iff within 0.5 of 21.0 x 29.7; else Letter iff within 0.5 of 21.59 x 27.94; else custom |
| Analyze.PaperBoxesDisjoint | scripts/analyze_docx.py:83-86 | no page is in both boxes, so Letter exactly for the Letter box |
| Analyze.MissingDimensionIsCustom | scripts/analyze_docx.py:81-82 | a missing width or height gives custom |
| Analyze.NonBlank | scripts/analyze_docx.py:93 | only non-empty stripped texts, never more than given |
| Analyze.NonBlankEmpty | scripts/analyze_docx.py:93 | nothing is kept exactly when every text is blank |
| Analyze.JoinNonEmpty | scripts/analyze_docx.py:92 | joining parts whose first is non-empty is empty only when there are none |
| Analyze.JoinedText | scripts/analyze_docx.py:91-98 | absent without paragraphs; empty exactly when every paragraph is blank |
| Analyze.PageEntry | scripts/analyze_docx.py:64-100 | the entry's index, orientation, paper size and header and footer texts |
| Analyze.AnalyzePageLayout | scripts/analyze_docx.py:61-101 | one entry per section, the i-th built from section i with index i |
| Analyze.AllLeadBold | scripts/analyze_docx.py:247-251 | true iff every cell whose first paragraph has a run starts with a bold run |
| Analyze.FirstRowBold | scripts/analyze_docx.py:246-252 | absent iff the table has no rows; true when no first-row cell has a run |
| Analyze.AnalyzeTables | scripts/analyze_docx.py:235-254 | one entry per table, the i-th built from table i with index i |
| Analyze.GroupedSnoc | scripts/analyze_docx.py:294-299 | one more paragraph extends its role's list, unless its role is empty |
| Analyze.PrefixGroupedStep | scripts/analyze_docx.py:293-299 | the grouping of i + 1 paragraphs extends that of i by paragraph i |
| Analyze.GroupedIsCollected | scripts/analyze_docx.py:292-299 | no empty key; each present role maps to its summaries in document order; absent roles have none |
| Analyze.CollectCount | scripts/analyze_docx.py:309 | a role collects as many summaries as paragraphs have the role |
| Analyze.CollectNone | scripts/analyze_docx.py:297-299 | a role no paragraph has collects nothing |
| Analyze.CollectFirst | scripts/analyze_docx.py:307 | a role's first summary is that of its first paragraph |
| Analyze.SummaryOfFirst | scripts/analyze_docx.py:302-321 | a role's record counts its paragraphs and copies the first one's fields |
| Analyze.RoleAggregation | scripts/analyze_docx.py:291-321 | no empty key; a role's count is its number of paragraphs and its fields those of its first paragraph |
| Analyze.FirstOfRole | scripts/analyze_docx.py:294-299 | the first paragraph with a role is the first position of its key |
| Analyze.AbsentRole | scripts/analyze_docx.py:302-305 | a role no paragraph has has no summary |
| Analyze.ParagraphTexts | scripts/analyze_docx.py:267-268 | one text per paragraph, in order |
| Analyze.AnalyzeDocument | scripts/analyze_docx.py:287-332 | the role summaries, one layout entry per section, one table entry per table, and the citation counts and label of the paragraphs |
| Resolve.Lookup | scripts/format_docx.py:71-72 | a size exactly for a name in the table, the one the table pairs with it |
| Resolve.CnSize | scripts/format_docx.py:55-60 | a size exactly for the sixteen named sizes, the one the table pairs with the name |
| Resolve.ResolveFontSize | scripts/format_docx.py:63-79 | a number is returned unchanged and a flag as 1 or 0; None and lists give None; a table name gives its size; any other string has "pt" removed, is stripped and parsed, and gives the parsed value, or None when it does not parse |
| Resolve.XiaoSiIsTwelve | scripts/format_docx.py:55-72 | 小四 resolves to 12 |
| Resolve.WuHaoIsTenAndAHalf | scripts/format_docx.py:55-72 | 五号 resolves to 10.5 |
| Resolve.LookupSkip | scripts/format_docx.py:71-72 | entries before the first match do not change the lookup |
| Resolve.NumberNotNamed | scripts/format_docx.py:71-74 | a printed number is never a table name |
| Resolve.SizeTextRoundTrip | scripts/format_docx.py:73-76 | "<x>pt" and "<x>" for a printed number x resolve to x |
| Resolve.NoPtInPrinted | scripts/format_docx.py:74 | removing "pt" from a text without "p" changes nothing |
| Resolve.StripPrinted | scripts/format_docx.py:74 | stripping a printed number changes nothing |
| Resolve.UnreadableSize | scripts/format_docx.py:74-78 | "large" resolves to None |
| Resolve.StripPrinted2 | scripts/format_docx.py:74-78 | "large" strips to itself and does not parse |
| Resolve.ResolveAlignment | scripts/format_docx.py:82-91 | always one of the five alignments; anything but the five names gives justify |
| Resolve.AlignmentRoundTrip | scripts/format_docx.py:82-91 | reading back a recorded alignment name gives the alignment for the five named ones and left for the rest |
| Resolve.AlignmentNameRoundTrip | scripts/format_docx.py:82-91 | recording a resolved name gives the name back |
| Resolve.GetRoleFormat | scripts/format_docx.py:249-264 | the dictionary filled in place equals the defaults overlaid with the role's non-null listed values |
| Resolve.OverlayPointwise | scripts/format_docx.py:258-262 | a listed key takes the non-null extracted value; every other key keeps the base value |
| Resolve.RoleFormatPointwise | scripts/format_docx.py:249-264 | each of the ten keys takes the extracted value when non-null, else the default; every other key is the default's |
| Resolve.MissingRoleIsDefault | scripts/format_docx.py:252-256 | a role the rules lack yields a copy of the defaults |
| Resolve.SummaryOnlyKeysNotCopied | scripts/format_docx.py:258-262 | the extracted count and sample_text are never copied |
| Resolve.RoleFormatIdempotent | scripts/format_docx.py:249-264 | resolving again with the result as the defaults gives the same record |
| Resolve.BuiltInFor | scripts/format_docx.py:267-358 | each of the twelve keys names the role with that key |
| Resolve.BuiltInKey | scripts/format_docx.py:267-358 | each built-in role's key is a default key and names that role back |
| Resolve.DefaultFor | scripts/format_docx.py:267-358 | a record exactly for the twelve built-in keys, the built-in one |
| Resolve.DefaultsShape | scripts/format_docx.py:269-357 | every built-in record names Times New Roman and has an alignment, and none has a colour, a line-spacing rule, a count or a sample text |
| Resolve.ResolvedHasNoColour | scripts/format_docx.py:170-174 | no resolved role format has a colour, so the colour step never fires |
| FlowDoc.NumOf | scripts/format_docx.py:102-111 | a number is accepted as itself; anything but a number or a flag is refused |
| FlowDoc.LengthProp | scripts/format_docx.py:101-111 | a null length is left alone; a number is set; a string or a list makes the library raise |
| FlowDoc.SpacingAsWritten | scripts/format_docx.py:113-133 | as written, branch by branch: null is left alone; any "<x>pt" string is exact spacing, whatever the rule, and fails when x does not parse; otherwise EXACTLY gives exact and AT_LEAST at-least spacing of the value, failing when it does not parse; any other rule gives a multiple of a numeric value and leaves the rest alone |
| FlowDoc.AtLeastAppliedAsExactly | scripts/format_docx.py:117-126 | as written, the "<x>pt" the analyser records for AT_LEAST spacing is applied as EXACTLY |
| FlowDoc.SpacingOf | scripts/format_docx.py:117-126 | the corrected definition of the first Findings row, not what the script does: null spacing is left alone; with the rule EXACTLY the spacing is exact, with AT_LEAST it is at-least, whatever the "pt" suffix |
| FlowDoc.SpacingRoundTrip | scripts/format_docx.py:113-133 | with the corrected rule-first order of `FlowDoc.SpacingOf`, the spacing the analyser records, applied again, gives back its rule (EXACTLY, AT_LEAST, else multiple) and its value |
| FlowDoc.PointSpacingRead | scripts/format_docx.py:122 | "<x>pt" for a printed number x reads back as x |
| FlowDoc.ShowFloatNoP | scripts/format_docx.py:119 | a printed float holds no "p", so removing "pt" leaves it whole |
| FlowDoc.ParaPropsOf | scripts/format_docx.py:94-133 | a record exactly when the library would not raise; a truthy alignment is resolved and set, a falsy one left alone; the first-line and left indents and the space before and after are each the length the format gives; the line spacing is the as-written branch `SpacingAsWritten` |
| FlowDoc.FirstOr | scripts/format_docx.py:140-141 | an empty or missing list gives the fallback; a non-empty list gives its first element |
| FlowDoc.OnOff | scripts/format_docx.py:164-168 | null leaves bold or italic alone; a flag sets it to that flag |
| FlowDoc.SlotOf | scripts/format_docx.py:152-156 | the East Asian slot exactly for names with a character in U+4E00..U+9FFF |
| FlowDoc.RunPropsOf | scripts/format_docx.py:136-174 | a record exactly when the library would not raise; the font is the first listed name, else `font_name`, set exactly when truthy and in the slot its script calls for; the size is `ResolveFontSize` of the first listed size, else `font_size_pt`, set exactly when it resolves to a non-zero value; bold and italic are left alone exactly when null and set to the flag given; a colour is set exactly when truthy |
| FlowDoc.DefaultOf | scripts/format_docx.py:372 | a default exactly for the roles the defaults hold |
| FlowDoc.Cm | scripts/format_docx.py:204 | a whole number of centimetres is 360000 EMU per centimetre |
| FlowDoc.PageSetupProperties | scripts/format_docx.py:193-213 | no change without a layout or with an empty list; only the first entry counts; a landscape entry leaves the page landscape and at least as wide as high |
| FlowDoc.ApplyEntryProperties | scripts/format_docx.py:203-224 | a page already wide enough keeps the sizes set; a zero margin is applied; a zero width is not |
| FlowDoc.EmptyEntryIsNoOp | scripts/format_docx.py:199-246 | an empty layout entry changes nothing |
| FlowDoc.SetSize | scripts/format_docx.py:202-206 | the page with each non-zero width and height set |
| FlowDoc.SetOrientation | scripts/format_docx.py:208-213 | landscape set and width and height swapped when the page is narrower than high |
| FlowDoc.SetMargins | scripts/format_docx.py:215-224 | each present margin set, zero included |
| FlowDoc.SetDistances | scripts/format_docx.py:226-230 | each non-zero header and footer distance set |
| FlowDoc.SetTexts | scripts/format_docx.py:232-246 | each non-empty header and footer text set |
| FlowDoc.NumberedHeading | scripts/format_docx.py:366-368 | "prefix heading" when both are non-empty, else the heading alone |
| FlowDoc.BodyParas | scripts/format_docx.py:376-379 | never more paragraphs than content strings |
| FlowDoc.BodyParasFromContent | scripts/format_docx.py:377-379 | every body paragraph is a non-blank content string in the body format |
| FlowDoc.BodyParasComplete | scripts/format_docx.py:377-379 | every non-blank content string becomes a body paragraph |
| FlowDoc.BodyParasInOrder | scripts/format_docx.py:377-379 | with no blank strings, one paragraph per string, in order |
| FlowDoc.SectionParasHead | scripts/format_docx.py:370-373 | a section's paragraphs open with its numbered heading, in the format of its level's heading role |
| FlowDoc.ChildrenParasPrefix | scripts/format_docx.py:382-384 | the paragraphs of fewer subsections are a prefix of those of more |
| FlowDoc.SubsectionPlacement | scripts/format_docx.py:361-384 | subsection k sits, numbered "prefix.k", right after the heading, the body and the earlier subsections, and opens with its own heading |
| FlowDoc.NumberingChain | scripts/format_docx.py:366-384 | section 2 with nested subsections A, B, C gives the headings "2 A", "2.1 B", "2.1.1 C" |
| FlowDoc.EachAs | scripts/format_docx.py:409-410 | one paragraph per text, in order, all in the one format |
| FlowDoc.ReferencesLast | scripts/format_docx.py:436-442 | with references, the document ends with the "References" heading in the heading_1 format and then one paragraph per reference, in order |
| FlowDoc.TitleThenAuthors | scripts/format_docx.py:395-404 | a titled document opens with the title, then the authors joined by ", " when there are any |
| FlowDoc.PlainApplicable | scripts/format_docx.py:177-190 | a format whose values have the kinds their keys call for never makes the library raise |
| FlowDoc.PlainSpacing | scripts/format_docx.py:113-133 | null, numeric or readable "<x>pt" spacing never makes the spacing step raise |
| FlowDoc.PlainRunProps | scripts/format_docx.py:136-174 | a well-kinded format never makes the run step raise |
| FlowDoc.DefaultsPlain | scripts/format_docx.py:267-358 | every built-in default format is well-kinded |
| FlowDoc.ResolvedPlain | scripts/format_docx.py:249-264 | well-kinded rules over well-kinded defaults resolve to a well-kinded format |
| FlowDoc.PlainRulesUsable | scripts/format_docx.py:387-442 | well-kinded rules let every paragraph of any content be formatted without a raise |
| FlowDoc.Document.constructor | scripts/format_docx.py:389 | a new document has no paragraphs and the template's page |
| FlowDoc.Document.AddFormattedParagraph | scripts/format_docx.py:177-190 | exactly one paragraph with the text and the format is appended; the page is unchanged |
| FlowDoc.Document.SetupPage | scripts/format_docx.py:193-246 | the page becomes the page setup of the old page and the layout; no paragraph changes |
| FlowDoc.Document.AddBody | scripts/format_docx.py:376-379 | the body paragraphs of the content are appended |
| FlowDoc.Document.AddEach | scripts/format_docx.py:409-410 | one paragraph per text is appended, in order |
| FlowDoc.Document.AddHeader | scripts/format_docx.py:395-410 | the title, authors and affiliation paragraphs are appended |
| FlowDoc.Document.AddSummary | scripts/format_docx.py:412-423 | the abstract label, abstract and keyword paragraphs are appended |
| FlowDoc.Document.AddFrontMatter | scripts/format_docx.py:395-423 | the front matter paragraphs are appended |
| FlowDoc.Document.AddHead | scripts/format_docx.py:370-379 | the numbered heading and the body paragraphs of a section are appended |
| FlowDoc.Document.AddSectionContent | scripts/format_docx.py:361-384 | the section's paragraphs are appended, depth first, numbered from the prefix |
| FlowDoc.Document.AddSections | scripts/format_docx.py:425-427 | each top-level section's paragraphs are appended in order, section i numbered i |
| FlowDoc.Document.AddBackMatter | scripts/format_docx.py:429-442 | the acknowledgment and reference paragraphs are appended |
| FlowDoc.FormatDocument | scripts/format_docx.py:387-443 | a new document whose page is set up from the first layout entry and whose paragraphs are the document's paragraphs in the source's order |
| Latex.EscapeLatex | scripts/generate_latex.py:103-121 | the nine replacements applied one after the other equal a single left-to-right pass escaping each character |
| Latex.ReplaceConcat | scripts/generate_latex.py:120 | replacing a character in a concatenation replaces it in each part |
| Latex.ReplaceAbsent | scripts/generate_latex.py:120 | replacing a character that does not occur changes nothing |
| Latex.LaterAbsent | scripts/generate_latex.py:107-117 | no replacement text holds a character that a later replacement rewrites |
| Latex.PartialCharStep | scripts/generate_latex.py:119-120 | on one character, replacement k applied after the first k gives the first k + 1 |
| Latex.PartialStep | scripts/generate_latex.py:119-120 | on a text, replacement k applied after the first k gives the first k + 1 |
| Latex.AllEscaped | scripts/generate_latex.py:107-120 | after all nine replacements a character is its escape |
| Latex.PartialComplete | scripts/generate_latex.py:119-121 | after all nine replacements a text is its single-pass escape |
| Latex.PartialNone | scripts/generate_latex.py:119 | before any replacement the text is unchanged |
| Latex.EscapeCharWellEscaped | scripts/generate_latex.py:107-117 | each escape leaves & % $ # _ only after a backslash, no ~ or ^, and does not begin with one of & % $ # _ |
| Latex.EscapeIsWellEscaped | scripts/generate_latex.py:103-121 | in an escaped text every & % $ # _ follows a backslash and no ~ or ^ is left |
| Latex.EscapePlain | scripts/generate_latex.py:103-121 | a text without special characters is left unchanged |
| Latex.EscapeConcat | scripts/generate_latex.py:119-120 | escaping a concatenation escapes each part |
| Latex.EscapeTwiceDiffers | scripts/generate_latex.py:103-121 | escaping is not idempotent: "&" becomes "\&", and escaping that again changes it |
| Latex.HasChineseContent | scripts/generate_latex.py:61-71 | true exactly when some scanned text (title, abstract, joined keywords, section headings and contents) has a CJK ideograph |
| Latex.CjkConcat | scripts/generate_latex.py:54-58 | a concatenation has an ideograph exactly when one of its parts has |
| Latex.CjkJoin | scripts/generate_latex.py:66 | joining by a separator without ideographs has one exactly when some part has |
| Latex.SectionTextsCjk | scripts/generate_latex.py:68-70 | the section texts have an ideograph exactly when some top-level section's heading or content has |
| Latex.ChineseContentFields | scripts/generate_latex.py:61-71 | the manuscript is Chinese exactly when its title, abstract, some keyword or some top-level section has an ideograph; subsections are not scanned |
| Latex.ScanFront | scripts/generate_latex.py:63-71 | a list of three texts and the rest has an ideograph exactly when one of the three or some later text has |
| Latex.Nearest | scripts/generate_latex.py:92 | the index of a table size at least as close as every other, and strictly closer than every earlier one, so ties go to the first |
| Latex.SizeCommands | scripts/generate_latex.py:79-91 | every size in the table is a LaTeX control word |
| Latex.PtToLatexSize | scripts/generate_latex.py:74-93 | None exactly for None; otherwise the command of a table size nearest to the value, with ties going to the earlier entry |
| Latex.SixPointIsTiny | scripts/generate_latex.py:92 | 6pt, halfway between 5 and 7, gets \tiny |
| Latex.ThirteenPointIsLarge | scripts/generate_latex.py:92 | 13pt, halfway between 12 and 14, gets \large |
| Latex.EmptyLayoutRaises | scripts/generate_latex.py:126-127 | as written, an empty page_layout list raises while a missing one reads as an empty entry |
| Latex.LatexPage | scripts/generate_latex.py:126-127 | the entry read as written wherever that does not raise; an empty list reads as an empty entry |
| Latex.IntOf | scripts/generate_latex.py:133 | `int()`: a number is truncated toward zero (the result's magnitude is the whole part of the number's, with the same sign), a whole number is itself, a flag is 1 or 0, a string is `ParseInt` of it and agrees with `float()`, and null or a list raises |
| Latex.TruncDivBounds | scripts/generate_latex.py:133 | truncating division gives the whole part of the magnitude |
| Latex.TextBaseSize | scripts/generate_latex.py:133 | `int("12")` is 12 and `int("12.5")` raises, so a body size list `["12"]` gives the base size 12 |
| Latex.SnapBase | scripts/generate_latex.py:134-140 | the base size is 10, 11 or 12: the smallest of them not below the size, 12 for anything above |
| Latex.PaperLabels | scripts/generate_latex.py:143-144 | A4 and a missing label give a4paper; Letter and custom give letterpaper; a present null label is not readable, because `.lower()` on it raises |
| Latex.GeometryOptions | scripts/generate_latex.py:160-179 | one option per set margin, top first, printing its value in cm; the 2.54cm defaults exactly when no margin is set |
| Latex.NamesOf | scripts/generate_latex.py:189 | the listed font names in order, none when the key is absent |
| Latex.FirstFontIsFirst | scripts/generate_latex.py:193-196 | none exactly when no name has the asked script, else the earliest name that has it |
| Latex.FindFont | scripts/generate_latex.py:192-196 | the loop with its break finds the first name of the asked script |
| Latex.BuildFontConfig | scripts/generate_latex.py:182-226 | the lines of the font block joined by newlines |
| Latex.FontSlots | scripts/generate_latex.py:192-211 | the main font never has an ideograph, the CJK font always has one; without Chinese content the block has two lines |
| Latex.AtMostTenthsIsReal | scripts/generate_latex.py:246-251 | the thresholds 1.1, 1.6 and 2.1 compare the value the decimal denotes |
| Latex.RecordedPointSpacing | scripts/generate_latex.py:237-242 | the "<x>pt" spacing the analyser records gives natural stretch and a baseline skip of x points |
| Latex.PointSpacingLines | scripts/generate_latex.py:238-242 | a readable "<x>pt" spacing gives natural stretch and a baseline skip of its number |
| Latex.StretchThresholds | scripts/generate_latex.py:244-253 | a line-spacing multiple up to 1.1 gives single spacing, up to 1.6 one-half, up to 2.1 double and above that a stretch by the value itself |
| Latex.SpacingFallbacks | scripts/generate_latex.py:235-255 | no (falsy) spacing gives only the setspace package; a text that is neither "<x>pt" nor a number gives one-half spacing; a non-zero number gives its stretch command |
| Latex.PointTextParses | scripts/generate_latex.py:239 | "<x>pt" for a printed x ends in pt and reads back as x |
| Latex.FontSpec | scripts/generate_latex.py:279-283 | the font switches begin with a control word |
| Latex.LStripBackslash | scripts/generate_latex.py:294 | stripping leading backslashes never lengthens a text |
| Latex.FontSpecKept | scripts/generate_latex.py:294 | a backslash put back before the stripped switches restores them |
| Latex.BuildHeadingConfig | scripts/generate_latex.py:260-303 | the titlesec package, then two lines per heading level 1 to 3, joined by newlines |
| Latex.MissingHeadingDefaults | scripts/generate_latex.py:268-301 | a heading without a record is bold, hanging, with 12pt before and 6pt after |
| Latex.ListSpacingPrinted | scripts/generate_latex.py:284-298 | a heading spacing given as the list `[12]` is printed as `[12]pt`, not refused |
| Latex.NullBoldIsNotBold | scripts/generate_latex.py:272-279 | a present null bold gives \normalfont, not the bold default |
| Latex.IndentFallback | scripts/generate_latex.py:313-318 | a zero or negative indent falls back to 2em for Chinese and 0.5in otherwise |
| Latex.OneFooter | scripts/generate_latex.py:327-350 | there is always one centred footer line, the escaped footer text or the page number; five lines, six with a header |
| Latex.CitationKey | scripts/generate_latex.py:414-431 | every chosen key has a package |
| Latex.GbTakesPrecedence | scripts/generate_latex.py:417-421 | a name mentioning GB/T 7714 selects the GB/T 7714 author-year style when it says author-year, else the numeric one |
| Latex.UnknownSelectsDefault | scripts/generate_latex.py:433-438 | the "unknown" style selects no key and the default numeric natbib lines |
| Latex.GbWithoutY | scripts/generate_latex.py:416-420 | a detected style that mentions GB/T 7714 and has no y in either case selects the GB/T 7714 numeric package |
| Latex.GbOpeningAuthorYear | scripts/generate_latex.py:416-418 | a detected style that mentions GB/T 7714 and opens with author-year selects the GB/T 7714 author-year package |
| Latex.NumericLabelSelectsGb | scripts/generate_latex.py:414-421 | the analyser's numeric-bracket label, which names GB/T 7714, selects the GB/T 7714 numeric package |
| Latex.ChineseAuthorYearLabelSelectsGb | scripts/generate_latex.py:414-418 | the analyser's Chinese author-year label selects the GB/T 7714 author-year package |
| Latex.RefPrefix | scripts/generate_latex.py:492 | `^\[?\d+\]?\s*`: the prefix is non-empty exactly when digits follow the optional "["; it then runs past the optional "]" after the whole digit run and through all the whitespace after it |
| Latex.RefOpen | scripts/generate_latex.py:492 | `\[?`: one character is skipped exactly when the text starts with "[" |
| Latex.RefClose | scripts/generate_latex.py:492 | `\]?`: one character is skipped exactly when a "]" follows the digits |
| Latex.StripRefNumber | scripts/generate_latex.py:492 | the stripped reference is a suffix of the reference |
| Latex.StripNumberedReference | scripts/generate_latex.py:492 | "[n] text", "[n]text", "n text" and "ntext" all lose their number and the spaces after it |
| Latex.UnnumberedReferenceKept | scripts/generate_latex.py:492 | a reference starting with neither a digit nor "[" is kept whole |
| Latex.ParagraphsKept | scripts/generate_latex.py:364-367 | every non-blank paragraph appears escaped among the lines |
| Latex.BlankParagraphsDropped | scripts/generate_latex.py:364-367 | blank paragraphs give no lines |
| Latex.ChildLinesContain | scripts/generate_latex.py:369-370 | each subsection's lines appear in one piece among its parent's |
| Latex.RenderSection | scripts/generate_latex.py:353-372 | the lines of the section: its heading command at its depth, its paragraphs, its subsections one level deeper |
| Latex.RenderParagraphs | scripts/generate_latex.py:364-367 | the paragraph loop gives the paragraph lines |
| Latex.RenderChildren | scripts/generate_latex.py:369-370 | the subsection loop gives the subsections' lines, in order |
| Latex.EscapeEach | scripts/generate_latex.py:451 | one escaped text per text, in order |
| Latex.RefItems | scripts/generate_latex.py:490-493 | one item per reference, in order, its number stripped and its text escaped |
| Latex.RefHead | scripts/generate_latex.py:487-489 | the reference heading is two lines |
| Latex.RenderSections | scripts/generate_latex.py:474-476 | the section loop gives each top-level section's lines at level 1, in order |
| Latex.RenderReferences | scripts/generate_latex.py:490-493 | the reference loop gives the reference items |
| Latex.GenerateLatex | scripts/generate_latex.py:375-501 | the file text is the document's lines joined by newlines |
| Latex.DocumentFrame | scripts/generate_latex.py:375-497 | the file opens with the class line, ctexart exactly for Chinese content; \begin{document} follows the preamble; the last line is \end{document} |
| Latex.ClassEnding | scripts/generate_latex.py:154-157 | the class line ends in {ctexart} for Chinese content and {article} otherwise |
| Latex.ReferencesListed | scripts/generate_latex.py:486-494 | every reference is a line of the file, as an item with its number stripped and its text escaped |
| Latex.TopSectionsRendered | scripts/generate_latex.py:474-476 | every top-level section's lines appear in one piece in the body |
| Latex.BodyIsChildren | scripts/generate_latex.py:474-476 | the top-level loop renders the sections as subsections at level 1 would be |
| Markdown.SplitLines | scripts/generate_docx.py:95 | at least one piece, none holding a newline |
| Markdown.SplitLinesJoin | scripts/generate_docx.py:95 | joining the pieces with newlines gives the text back |
| Markdown.HashRun | scripts/generate_docx.py:99 | the longest run of "#" from a position |
| Markdown.HeadingOf | scripts/generate_docx.py:99-111 | a heading has one to four "#" and non-empty text |
| Markdown.HeadingText | scripts/generate_docx.py:99-111 | the heading text neither starts nor ends with whitespace |
| Markdown.HeadingTextStripped | scripts/generate_docx.py:111 | stripping the heading text changes nothing |
| Markdown.Hashes | scripts/generate_docx.py:99 | n "#" characters |
| Markdown.HeadingRoundTrip | scripts/generate_docx.py:99-111 | one to four "#", whitespace and a trimmed text read back as that level and that text |
| Markdown.FiveHashesNotHeading | scripts/generate_docx.py:99 | a line starting with five "#" is not a heading |
| Markdown.NoGapNotHeading | scripts/generate_docx.py:99 | "#" runs not followed by whitespace do not open a heading |
| Markdown.HeadingShape | scripts/generate_docx.py:99-111 | a heading line is exactly its level's "#" run, whitespace, then its text |
| Markdown.Classify | scripts/generate_docx.py:96-129 | a heading line has a level from 1 to 4 and text; a body line is stripped and non-empty |
| Markdown.Classified | scripts/generate_docx.py:95-96 | one classified line per line |
| Markdown.ClassifyBlankAndBody | scripts/generate_docx.py:96-129 | a line is blank exactly when it is all whitespace; a body line is the stripped line, which is not a heading |
| Markdown.FlushBuffer | scripts/generate_docx.py:102-106 | the buffer flush appends the joined, stripped buffer as a paragraph when it is not blank |
| Markdown.SaveSection | scripts/generate_docx.py:108-109 | the section is kept only when it has a heading or a paragraph |
| Markdown.ReadLine | scripts/generate_docx.py:96-129 | one pass of the loop on a raw line is the step on its classification |
| Markdown.ApplyLine | scripts/generate_docx.py:100-129 | one pass of the loop: a heading flushes, saves and opens a section; a blank line flushes; body text is buffered |
| Markdown.ParseMarkdown | scripts/generate_docx.py:89-139 | the loop and the final flush and save give the sections of the text |
| Markdown.JoinTrimmed | scripts/generate_docx.py:103 | stripped non-empty lines joined with spaces form a trimmed text |
| Markdown.FlushTrimmed | scripts/generate_docx.py:102-106 | a flushed buffer of stripped lines adds exactly their space-joined text, so the strip never empties it |
| Markdown.CloseWellFormed | scripts/generate_docx.py:108-109 | saving a well-formed section keeps the list well-formed |
| Markdown.FlushShaped | scripts/generate_docx.py:102-106 | flushing keeps a section well-formed and its heading |
| Markdown.StepGood | scripts/generate_docx.py:100-129 | one pass of the loop keeps the reader's invariant |
| Markdown.RunGood | scripts/generate_docx.py:95-129 | the invariant holds after every line |
| Markdown.LinesOfSound | scripts/generate_docx.py:95-99 | the classified lines of any text have valid levels and trimmed body text |
| Markdown.ParseWellFormed | scripts/generate_docx.py:89-139 | every section has a heading or a paragraph; only the first may lack a heading; a headed section has level 1 to 4 and is a references section exactly when its heading contains "reference" in any case |
| Markdown.HeadedClose | scripts/generate_docx.py:108-109 | saving a section adds its heading, if any, to the headings |
| Markdown.RunHeadings | scripts/generate_docx.py:95-129 | the saved and current sections hold the heading lines, in order |
| Markdown.ParseHeadings | scripts/generate_docx.py:89-139 | the sections' headings are the text's heading lines with their levels, in order, none dropped |
| Markdown.AllParasClose | scripts/generate_docx.py:108-109 | saving a section adds its paragraphs, in order |
| Markdown.GroupsAgreeClosing | scripts/generate_docx.py:120-126 | a heading or blank line closes the open run of body lines into a paragraph |
| Markdown.GroupsHeadingStep | scripts/generate_docx.py:100-118 | a heading line keeps paragraphs in step with the runs of body lines |
| Markdown.GroupsBlankStep | scripts/generate_docx.py:120-127 | a blank line keeps paragraphs in step with the runs of body lines |
| Markdown.GroupsBodyStep | scripts/generate_docx.py:129 | a body line keeps paragraphs in step with the runs of body lines |
| Markdown.RunGroups | scripts/generate_docx.py:95-129 | after every line, the finished paragraphs are the closed runs of body lines and the buffer is the open run |
| Markdown.ParseParagraphs | scripts/generate_docx.py:89-139 | the paragraphs of all sections, in order, are the maximal runs of body lines, each joined with single spaces |
| Markdown.GroupsCover | scripts/generate_docx.py:120-129 | the runs hold every body line once, in input order |
| Markdown.GroupsNonEmpty | scripts/generate_docx.py:122-126 | no run is empty |
| Markdown.ParagraphBlocks | scripts/generate_docx.py:174-179 | one paragraph per section paragraph |
| Markdown.AddParagraphs | scripts/generate_docx.py:174-179 | a references section's paragraphs are added as reference paragraphs, any other's as body paragraphs |
| Markdown.AddSection | scripts/generate_docx.py:169-179 | a section adds its heading, level clamped to 3, when it has one, then its paragraphs |
| Markdown.AddSections | scripts/generate_docx.py:168-179 | each section's blocks are added in order |
| Markdown.GenerateDocx | scripts/generate_docx.py:142-182 | the document holds the title block and a blank line when a title is given, then every section's blocks |
| Markdown.DocHeadingsConcat | scripts/generate_docx.py:168-179 | the headings of two block lists are the headings of each, in order |
| Markdown.NoHeadingsInParagraphs | scripts/generate_docx.py:174-179 | paragraphs add no headings |
| Markdown.SectionHeadings | scripts/generate_docx.py:170-171 | a section adds its heading with the level clamped to at most 3 |
| Markdown.ClampedConcat | scripts/generate_docx.py:171 | clamping a concatenation clamps each part |
| Markdown.BlocksHeadings | scripts/generate_docx.py:168-171 | the document's headings are the sections' headings, levels clamped to 3 |
| Markdown.TitleHasNoHeading | scripts/generate_docx.py:156-164 | the title adds no heading |
| Markdown.DocxHeadings | scripts/generate_docx.py:142-179 | the document's headings are the input's heading lines, in order, levels clamped to 3; the title blocks come first |
| Markdown.TitledHeadings | scripts/generate_docx.py:156-171 | with or without a title, the headings are those of the sections |
| Markdown.BlocksRouteParagraphs | scripts/generate_docx.py:174-179 | every paragraph of a references section becomes a reference paragraph and every other becomes a body paragraph |
| Markdown.BlocksReferencesFromReferences | scripts/generate_docx.py:174-176 | every reference paragraph comes from a references section |
| Markdown.DocxReferenceRouting | scripts/generate_docx.py:113-179 | a text is a reference paragraph exactly when it is a paragraph of a section whose heading contains "reference" in any case |
| Doi.NonSpaceRun | scripts/verify_doi.py:24 | the greedy `[^\s]+` run: non-whitespace up to the next whitespace or the end |
| Doi.MatchEnd | scripts/verify_doi.py:24 | a match ends after "10.", its digits, the slash and at least one more character, within the text |
| Doi.Search | scripts/verify_doi.py:29 | the leftmost match position from the start, or none when no position matches |
| Doi.RStripPunct | scripts/verify_doi.py:31 | the longest prefix not ending in . , ; : or ), with only those characters removed |
| Doi.LaterPatternsNeedBare | scripts/verify_doi.py:23-27 | where the doi.org or doi: pattern matches, the bare pattern matches at its captured group |
| Doi.OnlyBareDecides | scripts/verify_doi.py:28-32 | the first pattern alone decides the result; the other two are never reached with a different answer |
| Doi.NoneIffNoMatch | scripts/verify_doi.py:20-32 | no DOI exactly when the stripped input has no match of "10." with 4 to 9 digits, a slash and a non-space |
| Doi.GroupShaped | scripts/verify_doi.py:24-31 | the captured and stripped DOI is a piece of the input of the DOI shape, not ending in trailing punctuation |
| Doi.ExtractedShape | scripts/verify_doi.py:20-32 | every extracted DOI starts "10.", has 4 to 9 digits and a slash, no whitespace, and no trailing punctuation |
| Doi.ExtractedIsLeftmost | scripts/verify_doi.py:28-31 | the extracted DOI is read from the leftmost match in the stripped input |
| Doi.ExtractedNonEmpty | scripts/verify_doi.py:129-130 | an extracted DOI is never empty |
| Doi.NoDoiNoQuery | scripts/verify_doi.py:129-131 | without a DOI in the input the result is the extraction error, whatever the registries say, and it is not verified |
| Doi.QueriesExtracted | scripts/verify_doi.py:129-138 | with a DOI in the input, both registries are asked about the extracted DOI and their answers graded |
| Doi.GradeByFound | scripts/verify_doi.py:133-169 | verified exactly when some registry found the DOI; high exactly when both did, medium when one did, none when neither; metadata exactly when verified |
| Doi.OneFoundMetadata | scripts/verify_doi.py:152-163 | with one registry finding it, the metadata are that registry's fields, without a citation count |
| Doi.OrFallsBack | scripts/verify_doi.py:144-149 | `a or b` is a when a is truthy, else b |
| Doi.BothFoundMetadata | scripts/verify_doi.py:140-151 | with both finding it, each field is CrossRef's when non-empty, else doi.org's; the citation count is CrossRef's |

## Left out

- Word-processor I/O: loading and saving documents, the paragraph and run object graph, and the XML edits behind fonts, styles, headers and footers. Paragraphs are (text, format) records, and their effect is the property record the as-written `ParaPropsOf`/`RunPropsOf` computes.
- The effect of assigning `font.name` in `set_run_format` (scripts/format_docx.py:143): only the slot routing is modelled.
- `analyze_styles` (scripts/analyze_docx.py:199-232): it copies library style attributes and has no logic of its own.
- Rounding in `emu_to_cm`, `emu_to_pt` and `round(..., 2)`: lengths arrive already converted, as exact decimals.
- The rules file is modelled in the types the analyser writes. A `null` `page_layout` (the generator raises, the formatter returns early), a `null` `margins` record (both raise), and text-valued lengths in a page entry cannot be expressed, so neither the crash nor the early return is modelled for them.
- Json.ParseInt: `int()` also accepts underscores between digits and non-ASCII decimal digits; the model reads ASCII digits only and refuses the rest.
- Json.ReprChar: non-ASCII characters that Python does not count as printable (for example U+0085) are escaped by `repr`; the model writes every non-ASCII character as itself.
- Floating-point arithmetic: numbers are exact decimals. `Json.Parse` accepts plain decimals only, without exponents, `inf` or `nan`.
- `lower()` and `\d`: modelled on ASCII letters and the ASCII digits only.
- The header and footer centring and the `style_name` argument of `add_formatted_paragraph`: both are library calls that the paragraph record does not carry.
- Colours: they are kept as the analyser's text and never parsed into `RGBColor`.
- Dictionary order: format records are maps, so key order is not modelled.
- `add_heading_styled`, the run fonts and colours of `set_normal_style`, and the page margins of the literature-review generator (scripts/generate_docx.py:26-68): these are library calls. The heading-level clamp and the reference routing are modelled.
- The network: `query_crossref` and `query_doi_org` in `scripts/verify_doi.py` are passed in as functions from a DOI to the record each registry returns. `scripts/verify_chinese.py`, `scripts/search_cnki.py`, `scripts/search_crossref.py` and `scripts/verify_url.py` are not part of this model.
- `scripts/export_excel.py`: spreadsheet output only.
- Every `main()`: argument parsing, reading and writing JSON and LaTeX files, `print` and `sys.exit`.
- A present `null` font list, which would crash `build_font_config`, is excluded by the `NamesReadable` precondition. A present `null` heading size or bold flag is modelled as its own case.
- Text.Strip: its own contract states the emptiness test and the trimmed ends; that the result is the slice between the leading and the trailing whitespace is the separate lemma `Text.StripIsSlice`, which keeps every caller of `Strip` cheap to verify.
- Citation.ParenLen: states only that the match stays within the text; `Citation.BracketNoInnerMatch` and the detector lemmas carry the counting properties.
- Citation.CnLen: states only that the match stays within the text.
- Analyze.NonBlank: states only non-emptiness and a length bound.
- FlowDoc.BodyParas: states only a length bound; `FlowDoc.BodyParasComplete` and `FlowDoc.BodyParasInOrder` state which strings become paragraphs and in what order.
- Latex.FontSpec: states only that the result starts with a control word; `Latex.BuildHeadingConfig`, `Latex.MissingHeadingDefaults` and `Latex.NullBoldIsNotBold` state the defaults.
- Latex.CitationKey: states only that every chosen key has a package; `Latex.GbTakesPrecedence`, `Latex.UnknownSelectsDefault` and the label lemmas state the priority order.
- Latex.RefHead: states only that the heading is two lines.

## Findings

| source | as written | input that shows it | evidently intended | confidence | as-written member | corrected member |
|---|---|---|---|---|---|---|
| scripts/format_docx.py:117-126 | a line spacing written `"<x>pt"` is applied as EXACTLY before the rule is looked at, so the AT_LEAST branch cannot be reached for the strings the analyser records | the analyser's record `line_spacing: "14.0pt"`, `line_spacing_rule: "AT_LEAST"` | the recorded rule is applied, so AT_LEAST spacing stays AT_LEAST | not executed | FlowDoc.AtLeastAppliedAsExactly | FlowDoc.SpacingRoundTrip |
| scripts/generate_latex.py:126-127 | `layout[0] if isinstance(layout, list) and layout else layout` passes an empty list on, and the following `.get` raises AttributeError | style rules with `page_layout: []` | an empty list reads as no layout, as `setup_page`'s `if not layout: return` does | not executed | Latex.EmptyLayoutRaises | Latex.LatexPage |
