/**
 * The reference analyser (`analyze_docx.py`) over plain records: the word
 * processor's paragraphs, runs, sections and tables arrive already read and
 * with their lengths converted to points or centimetres, and the analyser
 * summarises them into style rules.
 */
module Analyze {
  import opened Wrappers
  import opened Text
  import opened Json
  import opened Schema
  import opened Roles
  import opened Citation

  // ---------------------------------------------------------------------------
  // Input records
  // ---------------------------------------------------------------------------

  /** The paragraph alignments of the word processor. */
  datatype WdAlign = Left | Center | Right | Justify | Distribute | JustifyMed | JustifyHi | JustifyLow | ThaiJustify

  /** One run: its font name, size in points and bold/italic flags, each possibly unset. */
  datatype Run = Run(fontName: Option<string>, sizePt: Option<Number>, bold: Option<bool>, italic: Option<bool>)

  /**
   * One body paragraph. `ruleName` is the line-spacing rule's member name as the
   * analyser spells it (`"EXACTLY"`, ...), `None` when the rule is unset or falsy.
   * `lineSpacing` is in points under the `EXACTLY`/`AT_LEAST` rules, a multiple otherwise.
   */
  datatype Paragraph = Paragraph(
    styleName: Option<string>,
    text: string,
    alignment: Option<WdAlign>,
    lineSpacing: Option<Number>,
    ruleName: Option<string>,
    spaceBeforePt: Option<Number>,
    spaceAfterPt: Option<Number>,
    firstLineIndentCm: Option<Number>,
    leftIndentCm: Option<Number>,
    runs: seq<Run>)

  /** One document section: page size, orientation, margins, distances, and its header and footer paragraph texts. */
  datatype PageSection = PageSection(
    widthCm: Option<Number>,
    heightCm: Option<Number>,
    landscape: bool,
    topCm: Option<Number>,
    bottomCm: Option<Number>,
    leftCm: Option<Number>,
    rightCm: Option<Number>,
    gutterCm: Option<Number>,
    headerDistanceCm: Option<Number>,
    footerDistanceCm: Option<Number>,
    header: seq<string>,
    footer: seq<string>)

  /** A table cell: for each of its paragraphs, the bold flag of each run. */
  datatype Cell = Cell(paragraphs: seq<seq<Option<bool>>>)

  datatype Table = Table(rows: seq<seq<Cell>>, columns: nat, style: Option<string>)

  datatype TableInfo = TableInfo(index: nat, rows: nat, columns: nat, style: Option<string>, firstRowBold: Option<bool>)

  datatype DocInput = DocInput(sections: seq<PageSection>, paragraphs: seq<Paragraph>, tables: seq<Table>)

  datatype Analysis = Analysis(
    layout: seq<PageInfo>,
    formatting: map<string, Format>,
    tables: seq<TableInfo>,
    citation: CitationStyle)

  // ---------------------------------------------------------------------------
  // Alignment names
  // ---------------------------------------------------------------------------

  const AlignmentNames: seq<string> := ["left", "center", "right", "justify", "distribute"]

  /** `get_alignment_str`: the five named alignments by name, every other member as `"left"`. */
  function AlignmentName(a: WdAlign): (r: string)
    ensures r in AlignmentNames
    ensures r == "left" <==> a !in {Center, Right, Justify, Distribute}
  {
    match a
    case Center => "center"
    case Right => "right"
    case Justify => "justify"
    case Distribute => "distribute"
    case _ => "left"
  }

  // ---------------------------------------------------------------------------
  // Paragraph format summary
  // ---------------------------------------------------------------------------

  /** `list(dict.fromkeys(xs))`: the distinct elements in order of first appearance. */
  function Dedup<T(==,!new)>(xs: seq<T>): (r: seq<T>)
    ensures forall x :: x in r <==> x in xs
    ensures forall i, j :: 0 <= i < j < |r| ==> r[i] != r[j]
    ensures |r| <= |xs|
  {
    if xs == [] then []
    else
      var d := Dedup(xs[..|xs| - 1]);
      var x := xs[|xs| - 1];
      assert forall y :: y in xs <==> y in xs[..|xs| - 1] || y == x by {
        assert xs == xs[..|xs| - 1] + [x];
      }
      if x in d then d else d + [x]
  }

  /** Appending never reorders what was already seen: the deduplication of a prefix is a prefix of the deduplication. */
  lemma {:induction false} DedupFirstSeenOrder<T(!new)>(xs: seq<T>, ys: seq<T>)
    ensures |Dedup(xs)| <= |Dedup(xs + ys)| && Dedup(xs + ys)[..|Dedup(xs)|] == Dedup(xs)
    decreases |ys|
  {
    if ys == [] {
      assert xs + ys == xs;
    } else {
      var ys' := ys[..|ys| - 1];
      assert (xs + ys)[..|xs + ys| - 1] == xs + ys';
      DedupFirstSeenOrder(xs, ys');
    }
  }

  /** The names of the runs whose font name is set and non-empty. */
  function RunFonts(runs: seq<Run>): (r: seq<string>)
    ensures forall x :: x in r ==> x != []
    ensures r == [] <==> forall i :: 0 <= i < |runs| ==> runs[i].fontName.None? || runs[i].fontName.value == []
  {
    if runs == [] then []
    else
      var run := runs[|runs| - 1];
      assert forall i :: 0 <= i < |runs| - 1 ==> runs[..|runs| - 1][i] == runs[i];
      RunFonts(runs[..|runs| - 1]) + (if run.fontName.Some? && run.fontName.value != [] then [run.fontName.value] else [])
  }

  /** The sizes of the runs whose size is set and non-zero, as floats. */
  function RunSizes(runs: seq<Run>): (r: seq<Number>)
    ensures forall x :: x in r ==> x.digits != 0
  {
    if runs == [] then []
    else
      var run := runs[|runs| - 1];
      RunSizes(runs[..|runs| - 1]) + (if run.sizePt.Some? && run.sizePt.value.digits != 0 then [Canon(run.sizePt.value)] else [])
  }

  /** The number of runs whose bold (`italic` false) or italic (`italic` true) flag is set to true. */
  function Marked(runs: seq<Run>, italic: bool): (n: nat)
    ensures n <= |runs|
  {
    if runs == [] then 0
    else
      var run := runs[|runs| - 1];
      Marked(runs[..|runs| - 1], italic) + (if (if italic then run.italic else run.bold) == Some(true) then 1 else 0)
  }

  /** A length the analyser keeps only when it is set and non-zero (`emu_to_pt(x) if x else None`). */
  function NonZero(x: Option<Number>): (v: Value)
    ensures v == Null <==> x.None? || x.value.digits == 0
    ensures v != Null ==> v == Num(Canon(x.value)) && Real(v.n) == Real(x.value)
  {
    if x.Some? && x.value.digits != 0 then Num(Canon(x.value)) else Null
  }

  /** A length kept whenever it is set (`emu_to_cm(x)`), as a float. */
  function Float(x: Option<Number>): (r: Option<Number>)
    ensures r.None? <==> x.None?
    ensures r.Some? ==> Real(r.value) == Real(x.value) && r.value.scale >= 1
  {
    if x.Some? then Some(Canon(x.value)) else None
  }

  /** The recorded `line_spacing` and `line_spacing_rule` of a paragraph. */
  function SpacingEntries(lineSpacing: Option<Number>, ruleName: Option<string>): (r: (Value, Value))
    ensures lineSpacing.None? ==> r == (Null, Null)
    ensures lineSpacing.Some? && ruleName.Some? && ruleName.value in {"EXACTLY", "AT_LEAST"} ==>
      r.0 == Text(ShowFloat(lineSpacing.value) + "pt")
    ensures lineSpacing.Some? && !(ruleName.Some? && ruleName.value in {"EXACTLY", "AT_LEAST"}) ==>
      r.0.Num? && Real(r.0.n) == Real(lineSpacing.value)
    ensures lineSpacing.Some? ==> r.1 == if ruleName.Some? then Text(ruleName.value) else Null
  {
    if lineSpacing.None? then (Null, Null)
    else
      var rule := if ruleName.Some? then Text(ruleName.value) else Null;
      if ruleName.Some? && ruleName.value in {"EXACTLY", "AT_LEAST"} then
        (Text(ShowFloat(lineSpacing.value) + "pt"), rule)
      else (Num(Canon(lineSpacing.value)), rule)
  }

  /** The first 80 characters of the text. */
  function Preview(text: string): (r: string)
    ensures |r| <= 80 && |r| <= |text| && r == text[..|r|]
    ensures |text| <= 80 ==> r == text
  {
    if |text| <= 80 then text else text[..80]
  }

  /** The keys every paragraph summary has. */
  function BaseInfo(p: Paragraph): Format {
    var sp := SpacingEntries(p.lineSpacing, p.ruleName);
    map[
      TextPreview := Text(Preview(p.text)),
      StyleName := (if p.styleName.Some? then Text(p.styleName.value) else Null),
      Alignment := (if p.alignment.Some? then Text(AlignmentName(p.alignment.value)) else Null),
      LineSpacing := sp.0,
      LineSpacingRule := sp.1,
      SpaceBefore := NonZero(p.spaceBeforePt),
      SpaceAfter := NonZero(p.spaceAfterPt),
      FirstLineIndent := NonZero(p.firstLineIndentCm),
      LeftIndent := NonZero(p.leftIndentCm)]
  }

  /**
   * The entries taken from the runs, added to `info`: the fonts and sizes seen when
   * there are any, and bold and italic (a strict majority of the `n` runs) when there are runs.
   */
  function RunEntries(info: Format, fonts: seq<string>, sizes: seq<Number>, bold: nat, italic: nat, n: nat): (r: Format)
    ensures forall k :: k !in {FontNames, FontSizes, Bold, Italic} ==> (k in r <==> k in info) && (k in info ==> r[k] == info[k])
    ensures FontNames in r <==> fonts != [] || FontNames in info
    ensures fonts != [] ==> r[FontNames] == Texts(Dedup(fonts))
    ensures FontSizes in r <==> sizes != [] || FontSizes in info
    ensures sizes != [] ==> r[FontSizes] == Nums(Dedup(sizes))
    ensures n > 0 ==> Bold in r && r[Bold] == Flag(bold > n - bold) && Italic in r && r[Italic] == Flag(italic > n - italic)
  {
    var info := if fonts != [] then info[FontNames := Texts(Dedup(fonts))] else info;
    var info := if sizes != [] then info[FontSizes := Nums(Dedup(sizes))] else info;
    if n > 0 then info[Bold := Flag(2 * bold > n)][Italic := Flag(2 * italic > n)] else info
  }

  /** The summary `analyze_paragraph_format` returns for a paragraph. */
  function ParagraphInfo(p: Paragraph): Format {
    RunEntries(BaseInfo(p), RunFonts(p.runs), RunSizes(p.runs), Marked(p.runs, false), Marked(p.runs, true), |p.runs|)
  }

  /** `analyze_paragraph_format`: one pass over the runs, counting and collecting, then the summary. */
  method AnalyzeParagraphFormat(p: Paragraph) returns (info: Format)
    ensures info == ParagraphInfo(p)
  {
    var fonts, sizes, boldRuns, italicRuns, totalRuns := ScanRuns(p.runs);
    info := AddRunEntries(BaseInfo(p), fonts, sizes, boldRuns, italicRuns, totalRuns);
  }

  /** The updates after the loop of `analyze_paragraph_format`. */
  method AddRunEntries(base: Format, fonts: seq<string>, sizes: seq<Number>, boldRuns: nat, italicRuns: nat, totalRuns: nat)
    returns (info: Format)
    ensures info == RunEntries(base, fonts, sizes, boldRuns, italicRuns, totalRuns)
  {
    info := base;
    if fonts != [] {
      info := info[FontNames := Texts(Dedup(fonts))];
    }
    if sizes != [] {
      info := info[FontSizes := Nums(Dedup(sizes))];
    }
    if totalRuns > 0 {
      info := info[Bold := Flag(2 * boldRuns > totalRuns)][Italic := Flag(2 * italicRuns > totalRuns)];
    }
  }

  /** The loop over the runs of `analyze_paragraph_format`. */
  method ScanRuns(runs: seq<Run>) returns (fonts: seq<string>, sizes: seq<Number>, boldRuns: nat, italicRuns: nat, totalRuns: nat)
    ensures fonts == RunFonts(runs) && sizes == RunSizes(runs)
    ensures boldRuns == Marked(runs, false) && italicRuns == Marked(runs, true)
    ensures totalRuns == |runs|
  {
    fonts, sizes := [], [];
    boldRuns, italicRuns, totalRuns := 0, 0, 0;
    for i := 0 to |runs|
      invariant fonts == RunFonts(runs[..i])
      invariant sizes == RunSizes(runs[..i])
      invariant boldRuns == Marked(runs[..i], false)
      invariant italicRuns == Marked(runs[..i], true)
      invariant totalRuns == i
    {
      var run := runs[i];
      assert runs[..i + 1][..i] == runs[..i];
      totalRuns := totalRuns + 1;
      if run.fontName.Some? && run.fontName.value != [] {
        fonts := fonts + [run.fontName.value];
      }
      if run.sizePt.Some? && run.sizePt.value.digits != 0 {
        sizes := sizes + [Canon(run.sizePt.value)];
      }
      if run.bold == Some(true) {
        boldRuns := boldRuns + 1;
      }
      if run.italic == Some(true) {
        italicRuns := italicRuns + 1;
      }
    }
    assert runs[..|runs|] == runs;
  }

  /**
   * Bold and italic are recorded exactly when the paragraph has runs, and each is
   * true exactly when strictly more than half of the runs carry it.
   */
  lemma MajorityRule(p: Paragraph)
    ensures Bold in ParagraphInfo(p) <==> p.runs != []
    ensures Italic in ParagraphInfo(p) <==> p.runs != []
    ensures p.runs != [] ==> ParagraphInfo(p)[Bold] == Flag(Marked(p.runs, false) > |p.runs| - Marked(p.runs, false))
    ensures p.runs != [] ==> ParagraphInfo(p)[Italic] == Flag(Marked(p.runs, true) > |p.runs| - Marked(p.runs, true))
  {
  }

  /** One bold run out of two is not a majority. */
  lemma {:induction false} HalfIsNotBold(p: Paragraph)
    requires |p.runs| == 2 && p.runs[0].bold == Some(true) && p.runs[1].bold != Some(true)
    ensures ParagraphInfo(p)[Bold] == Flag(false)
  {
    assert p.runs[..1][..0] == [];
    assert Marked(p.runs[..1], false) == 1;
    assert Marked(p.runs, false) == 1;
  }

  /** Font names are recorded exactly when some run names a font, deduplicated in first-seen order. */
  lemma FontNamesRecorded(p: Paragraph)
    ensures FontNames in ParagraphInfo(p) <==>
      exists i :: 0 <= i < |p.runs| && p.runs[i].fontName.Some? && p.runs[i].fontName.value != []
    ensures FontNames in ParagraphInfo(p) ==> ParagraphInfo(p)[FontNames] == Texts(Dedup(RunFonts(p.runs)))
  {
  }

  /** Zero spacing and indents are recorded as `None`, never as 0. */
  lemma ZeroIsAbsent(p: Paragraph)
    ensures p.spaceBeforePt.Some? && p.spaceBeforePt.value.digits == 0 ==> ParagraphInfo(p)[SpaceBefore] == Null
    ensures p.spaceAfterPt.Some? && p.spaceAfterPt.value.digits == 0 ==> ParagraphInfo(p)[SpaceAfter] == Null
    ensures p.firstLineIndentCm.Some? && p.firstLineIndentCm.value.digits == 0 ==> ParagraphInfo(p)[FirstLineIndent] == Null
  {
    var base := BaseInfo(p);
    assert base[SpaceBefore] == NonZero(p.spaceBeforePt);
    assert base[SpaceAfter] == NonZero(p.spaceAfterPt);
    assert base[FirstLineIndent] == NonZero(p.firstLineIndentCm);
  }

  // ---------------------------------------------------------------------------
  // Page layout
  // ---------------------------------------------------------------------------

  /** `abs(x - c) < 0.5` */
  predicate Near(x: real, c: real) {
    -0.5 < x - c < 0.5
  }

  function Length(x: Option<Number>): real {
    if x.Some? then Real(x.value) else 0.0
  }

  predicate A4Box(w: Option<Number>, h: Option<Number>) {
    Near(Length(w), 21.0) && Near(Length(h), 29.7)
  }

  predicate LetterBox(w: Option<Number>, h: Option<Number>) {
    Near(Length(w), 21.59) && Near(Length(h), 27.94)
  }

  /** The paper size guessed from the page dimensions, a missing dimension counting as 0. */
  function PaperSize(w: Option<Number>, h: Option<Number>): (r: string)
    ensures r == "A4" <==> A4Box(w, h)
    ensures r == "Letter" <==> !A4Box(w, h) && LetterBox(w, h)
    ensures r == "custom" <==> !A4Box(w, h) && !LetterBox(w, h)
  {
    if A4Box(w, h) then "A4" else if LetterBox(w, h) then "Letter" else "custom"
  }

  /** The two tolerance boxes are disjoint (their heights differ by more than 1 cm), so the order of the tests never matters. */
  lemma PaperBoxesDisjoint(w: Option<Number>, h: Option<Number>)
    ensures !(A4Box(w, h) && LetterBox(w, h))
    ensures PaperSize(w, h) == "Letter" <==> LetterBox(w, h)
  {
  }

  /** A page with a missing dimension is never A4 or Letter. */
  lemma MissingDimensionIsCustom(w: Option<Number>, h: Option<Number>)
    requires w.None? || h.None?
    ensures PaperSize(w, h) == "custom"
  {
  }

  /** The stripped, non-blank texts, in order. */
  function NonBlank(texts: seq<string>): (r: seq<string>)
    ensures |r| <= |texts|
    ensures forall i :: 0 <= i < |r| ==> r[i] != []
  {
    if texts == [] then []
    else
      var t := Strip(texts[|texts| - 1]);
      NonBlank(texts[..|texts| - 1]) + (if t != [] then [t] else [])
  }

  /** Nothing is kept exactly when every text is blank. */
  lemma {:induction false} NonBlankEmpty(texts: seq<string>)
    ensures NonBlank(texts) == [] <==> forall i :: 0 <= i < |texts| ==> AllSpace(texts[i])
  {
    if texts != [] {
      var front := texts[..|texts| - 1];
      NonBlankEmpty(front);
      assert forall i :: 0 <= i < |front| ==> front[i] == texts[i];
    }
  }

  /** A header or footer text: `None` without paragraphs, else the non-blank ones joined by `" | "`. */
  function JoinedText(texts: seq<string>): (r: Option<string>)
    ensures r.None? <==> texts == []
    ensures r.Some? ==> (r.value == [] <==> forall i :: 0 <= i < |texts| ==> AllSpace(texts[i]))
  {
    if texts == [] then None
    else
      var parts := NonBlank(texts);
      NonBlankEmpty(texts);
      assert parts != [] ==> |parts[0]| > 0;
      JoinNonEmpty(parts, " | ");
      Some(Join(parts, " | "))
  }

  lemma {:induction false} JoinNonEmpty(parts: seq<string>, sep: string)
    requires parts != [] ==> parts[0] != []
    ensures Join(parts, sep) == [] <==> parts == []
  {
    if |parts| > 1 {
      assert |Join(parts, sep)| >= |parts[0]|;
    }
  }

  /** The layout entry the analyser writes for section `i`. */
  function PageEntry(i: nat, s: PageSection): (e: PageInfo)
    ensures e.index == i && e.columns.None?
    ensures e.orientation == Some(if s.landscape then "landscape" else "portrait")
    ensures e.paperSize == Some(Text(PaperSize(s.widthCm, s.heightCm)))
    ensures e.headerText == JoinedText(s.header) && e.footerText == JoinedText(s.footer)
  {
    PageInfo(
      i, Float(s.widthCm), Float(s.heightCm),
      Some(if s.landscape then "landscape" else "portrait"),
      Float(s.topCm), Float(s.bottomCm), Float(s.leftCm), Float(s.rightCm),
      Float(s.gutterCm), Float(s.headerDistanceCm), Float(s.footerDistanceCm),
      Some(Text(PaperSize(Float(s.widthCm), Float(s.heightCm)))),
      JoinedText(s.header), JoinedText(s.footer), None)
  }

  /** `f` applied to every element together with its position, in order. */
  function Indexed<S, T>(f: (nat, S) -> T, xs: seq<S>): (r: seq<T>)
    ensures |r| == |xs|
  {
    if xs == [] then []
    else Indexed(f, xs[..|xs| - 1]) + [f(|xs| - 1, xs[|xs| - 1])]
  }

  lemma {:induction false} IndexedAt<S, T>(f: (nat, S) -> T, xs: seq<S>, i: nat)
    requires i < |xs|
    ensures Indexed(f, xs)[i] == f(i, xs[i])
    decreases |xs|
  {
    var n := |xs| - 1;
    if i < n {
      IndexedAt(f, xs[..n], i);
      assert xs[..n][i] == xs[i];
    }
  }

  lemma IndexedStep<S, T>(f: (nat, S) -> T, xs: seq<S>, i: nat)
    requires i < |xs|
    ensures Indexed(f, xs[..i + 1]) == Indexed(f, xs[..i]) + [f(i, xs[i])]
  {
    assert xs[..i + 1][..i] == xs[..i];
  }

  /** `analyze_page_layout`: one entry per section, in order. */
  method AnalyzePageLayout(sections: seq<PageSection>) returns (layout: seq<PageInfo>)
    ensures |layout| == |sections|
    ensures forall i :: 0 <= i < |sections| ==> layout[i] == PageEntry(i, sections[i])
  {
    layout := [];
    for i := 0 to |sections|
      invariant layout == Indexed(PageEntry, sections[..i])
    {
      var entry := PageEntry(i, sections[i]);
      IndexedStep(PageEntry, sections, i);
      layout := layout + [entry];
    }
    assert sections[..|sections|] == sections;
    forall i | 0 <= i < |sections|
      ensures layout[i] == PageEntry(i, sections[i])
    {
      IndexedAt(PageEntry, sections, i);
    }
  }


  // ---------------------------------------------------------------------------
  // Tables
  // ---------------------------------------------------------------------------

  /** A cell counts for the header test when its first paragraph has a run. */
  predicate HasRun(c: Cell) {
    |c.paragraphs| > 0 && |c.paragraphs[0]| > 0
  }

  /** `all(...)` over the cells that have a run, of their first run being bold. */
  function AllLeadBold(cells: seq<Cell>): (b: bool)
    ensures b <==> forall i :: 0 <= i < |cells| && HasRun(cells[i]) ==> cells[i].paragraphs[0][0] == Some(true)
  {
    if cells == [] then true
    else
      var c := cells[|cells| - 1];
      assert forall i :: 0 <= i < |cells| - 1 ==> cells[..|cells| - 1][i] == cells[i];
      AllLeadBold(cells[..|cells| - 1]) && (!HasRun(c) || c.paragraphs[0][0] == Some(true))
  }

  /** `first_row_bold`: absent without rows, else whether every first-row cell with a run starts bold. */
  function FirstRowBold(rows: seq<seq<Cell>>): (r: Option<bool>)
    ensures r.None? <==> rows == []
    ensures rows != [] && (forall i :: 0 <= i < |rows[0]| ==> !HasRun(rows[0][i])) ==> r == Some(true)
  {
    if rows == [] then None else Some(AllLeadBold(rows[0]))
  }

  function TableEntry(i: nat, t: Table): TableInfo {
    TableInfo(i, |t.rows|, t.columns, t.style, FirstRowBold(t.rows))
  }

  /** `analyze_tables`: one entry per table, in order. */
  method AnalyzeTables(tables: seq<Table>) returns (infos: seq<TableInfo>)
    ensures |infos| == |tables|
    ensures forall i :: 0 <= i < |tables| ==> infos[i] == TableEntry(i, tables[i])
  {
    infos := [];
    for i := 0 to |tables|
      invariant |infos| == i
      invariant forall k :: 0 <= k < i ==> infos[k] == TableEntry(k, tables[k])
    {
      infos := infos + [TableEntry(i, tables[i])];
    }
  }

  // ---------------------------------------------------------------------------
  // Grouping paragraphs by role
  // ---------------------------------------------------------------------------

  /** The role key of a paragraph. */
  function TagOf(p: Paragraph): string {
    RoleTag(Classify(p.styleName, p.text))
  }

  /** The role keys of the paragraphs, in order. */
  function Tags(ps: seq<Paragraph>): (r: seq<string>)
    ensures |r| == |ps|
  {
    if ps == [] then [] else Tags(ps[..|ps| - 1]) + [TagOf(ps[|ps| - 1])]
  }

  lemma {:induction false} TagsAt(ps: seq<Paragraph>, j: nat)
    requires j < |ps|
    ensures Tags(ps)[j] == TagOf(ps[j])
  {
    if j < |ps| - 1 {
      TagsAt(ps[..|ps| - 1], j);
    }
  }

  /** The format summaries of the paragraphs, in order. */
  function InfoSeq(ps: seq<Paragraph>): (r: seq<Format>)
    ensures |r| == |ps|
  {
    if ps == [] then [] else InfoSeq(ps[..|ps| - 1]) + [ParagraphInfo(ps[|ps| - 1])]
  }

  lemma {:induction false} InfoAt(ps: seq<Paragraph>, j: nat)
    requires j < |ps|
    ensures InfoSeq(ps)[j] == ParagraphInfo(ps[j])
  {
    if j < |ps| - 1 {
      InfoAt(ps[..|ps| - 1], j);
    }
  }

  /** The summaries whose paragraph has role key `t`, in document order. */
  function Collect(tags: seq<string>, infos: seq<Format>, t: string): seq<Format>
    requires |tags| == |infos|
  {
    if tags == [] then []
    else
      var n := |tags| - 1;
      Collect(tags[..n], infos[..n], t) + (if tags[n] == t then [infos[n]] else [])
  }

  /** The `classified` dictionary: every role key but `empty` to its summaries, in the order met. */
  function Grouped(tags: seq<string>, infos: seq<Format>): map<string, seq<Format>>
    requires |tags| == |infos|
  {
    if tags == [] then map[]
    else
      var n := |tags| - 1;
      var g := Grouped(tags[..n], infos[..n]);
      var t := tags[n];
      if t == "empty" then g
      else g[t := (if t in g then g[t] else []) + [infos[n]]]
  }

  /** One more paragraph extends the grouping of its role, unless it is empty. */
  lemma GroupedSnoc(tags: seq<string>, infos: seq<Format>, t: string, f: Format)
    requires |tags| == |infos|
    ensures Grouped(tags + [t], infos + [f]) ==
      var g := Grouped(tags, infos);
      if t == "empty" then g else g[t := (if t in g then g[t] else []) + [f]]
  {
    assert (tags + [t])[..|tags|] == tags;
    assert (infos + [f])[..|infos|] == infos;
  }

  /** The grouping of the first `i + 1` paragraphs extends that of the first `i` by paragraph `i`. */
  lemma PrefixGroupedStep(ps: seq<Paragraph>, i: nat)
    requires i < |ps|
    ensures Grouped(Tags(ps[..i + 1]), InfoSeq(ps[..i + 1])) ==
      var g := Grouped(Tags(ps[..i]), InfoSeq(ps[..i]));
      var t := TagOf(ps[i]);
      if t == "empty" then g else g[t := (if t in g then g[t] else []) + [ParagraphInfo(ps[i])]]
  {
    assert ps[..i + 1][..i] == ps[..i];
    GroupedSnoc(Tags(ps[..i]), InfoSeq(ps[..i]), TagOf(ps[i]), ParagraphInfo(ps[i]));
  }

  /** The representative record of a role: its count and the first paragraph's fields. */
  function Summary(count: nat, rep: Format): Format {
    map[
      Count := Num(Int(count)),
      FontNames := Get(rep, FontNames),
      FontSizes := Get(rep, FontSizes),
      Bold := Get(rep, Bold),
      Italic := Get(rep, Italic),
      Alignment := Get(rep, Alignment),
      LineSpacing := Get(rep, LineSpacing),
      LineSpacingRule := Get(rep, LineSpacingRule),
      FirstLineIndent := Get(rep, FirstLineIndent),
      SpaceBefore := Get(rep, SpaceBefore),
      SpaceAfter := Get(rep, SpaceAfter),
      SampleText := Get(rep, TextPreview)]
  }

  /** `paragraph_formatting`: one summary per role that has paragraphs. */
  function FormattingSummary(g: map<string, seq<Format>>): map<string, Format> {
    map t | t in g && g[t] != [] :: Summary(|g[t]|, g[t][0])
  }

  /** The role summaries of a document's paragraphs. */
  function DocumentFormatting(ps: seq<Paragraph>): map<string, Format> {
    FormattingSummary(Grouped(Tags(ps), InfoSeq(ps)))
  }

  /** The grouping holds, for every role other than `empty`, exactly that role's summaries in order. */
  lemma {:induction false} GroupedIsCollected(tags: seq<string>, infos: seq<Format>)
    requires |tags| == |infos|
    ensures "empty" !in Grouped(tags, infos)
    ensures forall t :: t in Grouped(tags, infos) ==> Grouped(tags, infos)[t] == Collect(tags, infos, t) != []
    ensures forall t :: t !in Grouped(tags, infos) && t != "empty" ==> Collect(tags, infos, t) == []
  {
    if tags != [] {
      var n := |tags| - 1;
      GroupedIsCollected(tags[..n], infos[..n]);
    }
  }

  /** Each role collects as many summaries as there are paragraphs with that role. */
  lemma {:induction false} CollectCount(tags: seq<string>, infos: seq<Format>, t: string)
    requires |tags| == |infos|
    ensures |Collect(tags, infos, t)| == multiset(tags)[t]
  {
    if tags != [] {
      var n := |tags| - 1;
      CollectCount(tags[..n], infos[..n], t);
      assert tags == tags[..n] + [tags[n]];
    }
  }

  lemma {:induction false} CollectNone(tags: seq<string>, infos: seq<Format>, t: string)
    requires |tags| == |infos|
    requires t !in tags
    ensures Collect(tags, infos, t) == []
  {
    if tags != [] {
      var n := |tags| - 1;
      assert t !in tags[..n];
      CollectNone(tags[..n], infos[..n], t);
    }
  }

  /** The first summary of a role is that of the first paragraph with the role. */
  lemma {:induction false} CollectFirst(tags: seq<string>, infos: seq<Format>, t: string, k: nat)
    requires |tags| == |infos|
    requires k < |tags| && tags[k] == t && t !in tags[..k]
    ensures Collect(tags, infos, t) != [] && Collect(tags, infos, t)[0] == infos[k]
  {
    var n := |tags| - 1;
    if k < n {
      assert tags[..n][..k] == tags[..k];
      CollectFirst(tags[..n], infos[..n], t, k);
    } else {
      assert tags[..n] == tags[..k];
      CollectNone(tags[..n], infos[..n], t);
    }
  }

  /** The grouped summary of role `t`, whose first paragraph is the `k`-th. */
  lemma SummaryOfFirst(tags: seq<string>, infos: seq<Format>, t: string, k: nat)
    requires |tags| == |infos|
    requires k < |tags| && tags[k] == t && t != "empty" && t !in tags[..k]
    ensures "empty" !in FormattingSummary(Grouped(tags, infos))
    ensures t in FormattingSummary(Grouped(tags, infos))
    ensures FormattingSummary(Grouped(tags, infos))[t] == Summary(multiset(tags)[t], infos[k])
  {
    GroupedIsCollected(tags, infos);
    CollectFirst(tags, infos, t, k);
    CollectCount(tags, infos, t);
  }

  /**
   * Role aggregation: no `empty` key; a role whose first paragraph is `ps[k]` is
   * present, with a count equal to the number of paragraphs having it and the
   * fields of `ps[k]`.
   */
  lemma RoleAggregation(ps: seq<Paragraph>, t: string, k: nat)
    requires k < |ps| && TagOf(ps[k]) == t && t != "empty"
    requires forall j :: 0 <= j < k ==> TagOf(ps[j]) != t
    ensures "empty" !in DocumentFormatting(ps)
    ensures t in DocumentFormatting(ps)
    ensures DocumentFormatting(ps)[t] == Summary(multiset(Tags(ps))[t], ParagraphInfo(ps[k]))
  {
    FirstOfRole(ps, t, k);
    InfoAt(ps, k);
    SummaryOfFirst(Tags(ps), InfoSeq(ps), t, k);
  }

  /** The `k`-th paragraph is the first whose role key is `t`. */
  lemma FirstOfRole(ps: seq<Paragraph>, t: string, k: nat)
    requires k < |ps| && TagOf(ps[k]) == t
    requires forall j :: 0 <= j < k ==> TagOf(ps[j]) != t
    ensures Tags(ps)[k] == t && t !in Tags(ps)[..k]
  {
    var tags := Tags(ps);
    forall j | 0 <= j < k
      ensures tags[..k][j] != t
    {
      assert tags[..k][j] == tags[j];
      TagsAt(ps, j);
    }
    TagsAt(ps, k);
  }

  /** A role no paragraph has is absent from the summary. */
  lemma AbsentRole(ps: seq<Paragraph>, t: string)
    requires forall j :: 0 <= j < |ps| ==> TagOf(ps[j]) != t
    ensures t !in DocumentFormatting(ps)
  {
    var tags, infos := Tags(ps), InfoSeq(ps);
    GroupedIsCollected(tags, infos);
    assert t !in tags by {
      forall j | 0 <= j < |ps| ensures tags[j] != t {
        TagsAt(ps, j);
      }
    }
    CollectNone(tags, infos, t);
  }

  /** The paragraph texts, as the citation detector reads them. */
  function ParagraphTexts(ps: seq<Paragraph>): (r: seq<string>)
    ensures |r| == |ps| && forall i :: 0 <= i < |ps| ==> r[i] == ps[i].text
  {
    seq(|ps|, i requires 0 <= i < |ps| => ps[i].text)
  }

  /** `analyze_document`: layout, role summaries, tables and citation style of one document. */
  method AnalyzeDocument(doc: DocInput) returns (a: Analysis)
    ensures a.formatting == DocumentFormatting(doc.paragraphs)
    ensures |a.layout| == |doc.sections| && forall i :: 0 <= i < |doc.sections| ==> a.layout[i] == PageEntry(i, doc.sections[i])
    ensures |a.tables| == |doc.tables| && forall i :: 0 <= i < |doc.tables| ==> a.tables[i] == TableEntry(i, doc.tables[i])
    ensures |a.citation.counts| == |Patterns|
    ensures forall k :: 0 <= k < |Patterns| ==> a.citation.counts[k] == Total(Patterns[k], ParagraphTexts(doc.paragraphs))
    ensures a.citation.detected == Verdict(a.citation.counts)
  {
    var ps := doc.paragraphs;
    var classified: map<string, seq<Format>> := map[];
    for i := 0 to |ps|
      invariant classified == Grouped(Tags(ps[..i]), InfoSeq(ps[..i]))
    {
      var p := ps[i];
      var role := Classify(p.styleName, p.text);
      var tag := RoleTag(role);
      assert tag == TagOf(ps[i]);
      PrefixGroupedStep(ps, i);
      if tag == "empty" {
        continue;
      }
      var info := AnalyzeParagraphFormat(p);
      var group := if tag in classified then classified[tag] else [];
      classified := classified[tag := group + [info]];
    }
    assert ps[..|ps|] == ps;
    var layout := AnalyzePageLayout(doc.sections);
    var tables := AnalyzeTables(doc.tables);
    var citation := DetectCitationStyle(ParagraphTexts(ps));
    a := Analysis(layout, FormattingSummary(classified), tables, citation);
  }
}
