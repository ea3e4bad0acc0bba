/**
 * The flowing-document formatter (`format_docx.py`): the document is an
 * append-only sequence of paragraphs, each with the paragraph and run
 * properties its role format sets, plus the first section's page record.
 *
 * A format that would make the word-processing library raise (a length given as
 * text, a font list that is a number, ...) is outside the operations'
 * preconditions: `ParaPropsOf` and `RunPropsOf` return `None` for it.
 */
module FlowDoc {
  import opened Wrappers
  import opened Text
  import opened Json
  import opened Schema
  import opened Analyze
  import opened Resolve

  // ---------------------------------------------------------------------------
  // Paragraph properties
  // ---------------------------------------------------------------------------

  /** The line-spacing rule and value a paragraph is given. */
  datatype Spacing = Exactly(pt: Number) | AtLeast(pt: Number) | Multiple(factor: Number)

  /** Where a run's font name is written: the East Asian slot, or the ASCII and high-ANSI slots. */
  datatype FontSlot = EastAsia | Latin

  /** Paragraph properties a format sets; `None` leaves the library's value alone. */
  datatype ParaProps = ParaProps(
    alignment: Option<WdAlign>,
    firstLineIndentCm: Option<Number>,
    leftIndentCm: Option<Number>,
    spaceBeforePt: Option<Number>,
    spaceAfterPt: Option<Number>,
    spacing: Option<Spacing>)

  /** Run properties a format sets; `colour` is the colour string handed to the library's parser. */
  datatype RunProps = RunProps(
    font: Option<(string, FontSlot)>,
    sizePt: Option<Number>,
    bold: Option<bool>,
    italic: Option<bool>,
    colour: Option<string>)

  /**
   * One paragraph of the document: its text (a single run) and the role format
   * applied to it, whose effect is `ParaPropsOf(format)` and `RunPropsOf(format)`.
   */
  datatype Para = Para(text: string, format: Format)

  /** A number the length constructors accept: a number, or a flag as 1 or 0. */
  function NumOf(v: Value): (r: Option<Number>)
    ensures v.Num? ==> r == Some(v.n)
    ensures !v.Num? && !v.Flag? ==> r.None?
  {
    match v
    case Num(n) => Some(n)
    case Flag(b) => Some(Int(if b then 1 else 0))
    case _ => None
  }

  /** A length set when the key is not null; `None` (outer) when the library would raise. */
  function LengthProp(v: Value): (r: Option<Option<Number>>)
    ensures v == Null ==> r == Some(None)
    ensures v.Num? ==> r == Some(Some(v.n))
    ensures v.Text? || v.List? ==> r.None?
  {
    if v == Null then Some(None)
    else
      var n := NumOf(v);
      if n.Some? then Some(n) else None
  }

  /** `float(str(v).replace("pt", ""))`, `None` for the `ValueError` it raises. */
  function StrFloat(v: Value): Option<Number> {
    if v.List? then None else Parse(RemoveAll(PyStr(v), "pt"))
  }

  /** A spacing string that ends in `pt`. */
  predicate PointText(ls: Value) {
    ls.Text? && EndsWith(ls.s, "pt")
  }

  /**
   * The line-spacing branch does not raise: a `"<x>pt"` string is a number once
   * `pt` is removed, and under the rule EXACTLY or AT_LEAST any other value is.
   */
  predicate SpacingOk(ls: Value, rule: Value) {
    ls == Null ||
    if PointText(ls) then Parse(RemoveAll(ls.s, "pt")).Some?
    else (rule == Text("EXACTLY") || rule == Text("AT_LEAST")) ==> StrFloat(ls).Some?
  }

  /**
   * The line-spacing branch of `set_paragraph_format` as written: a `"<x>pt"`
   * string is exact spacing before the rule is looked at. `None` (outer) when
   * `float` raises; `Some(None)` when the spacing is left alone.
   */
  function SpacingAsWritten(ls: Value, rule: Value): (r: Option<Option<Spacing>>)
    ensures r.Some? <==> SpacingOk(ls, rule)
    ensures ls == Null ==> r == Some(None)
    ensures PointText(ls) ==> (r.Some? <==> Parse(RemoveAll(ls.s, "pt")).Some?)
    ensures PointText(ls) && r.Some? ==> r.value == Some(Exactly(Parse(RemoveAll(ls.s, "pt")).value))
    ensures ls != Null && !PointText(ls) && rule == Text("EXACTLY") ==>
      (r.Some? <==> StrFloat(ls).Some?) && (r.Some? ==> r.value == Some(Exactly(StrFloat(ls).value)))
    ensures ls != Null && !PointText(ls) && rule == Text("AT_LEAST") ==>
      (r.Some? <==> StrFloat(ls).Some?) && (r.Some? ==> r.value == Some(AtLeast(StrFloat(ls).value)))
    ensures ls != Null && !PointText(ls) && rule != Text("EXACTLY") && rule != Text("AT_LEAST") ==>
      r.Some? && (r.value.Some? <==> FloatOf(ls).Some?) &&
      (r.value.Some? ==> r.value.value == Multiple(FloatOf(ls).value))
  {
    if ls == Null then Some(None)
    else if ls.Text? && EndsWith(ls.s, "pt") then
      var x := Parse(RemoveAll(ls.s, "pt"));
      if x.Some? then Some(Some(Exactly(x.value))) else None
    else if rule == Text("EXACTLY") then
      var x := StrFloat(ls);
      if x.Some? then Some(Some(Exactly(x.value))) else None
    else if rule == Text("AT_LEAST") then
      var x := StrFloat(ls);
      if x.Some? then Some(Some(AtLeast(x.value))) else None
    else
      var x := FloatOf(ls);
      if x.Some? then Some(Some(Multiple(x.value))) else Some(None)
  }

  /**
   * The line-spacing step with the recorded rule deciding first, so that a
   * recorded `AT_LEAST` spacing is applied as `AT_LEAST`.
   */
  function SpacingOf(ls: Value, rule: Value): (r: Option<Option<Spacing>>)
    ensures ls == Null ==> r == Some(None)
    ensures ls != Null && rule == Text("EXACTLY") && r.Some? ==> r.value.Some? && r.value.value.Exactly?
    ensures ls != Null && rule == Text("AT_LEAST") && r.Some? ==> r.value.Some? && r.value.value.AtLeast?
  {
    if ls == Null then Some(None)
    else if rule == Text("EXACTLY") then
      var x := StrFloat(ls);
      if x.Some? then Some(Some(Exactly(x.value))) else None
    else if rule == Text("AT_LEAST") then
      var x := StrFloat(ls);
      if x.Some? then Some(Some(AtLeast(x.value))) else None
    else if ls.Text? && EndsWith(ls.s, "pt") then
      var x := Parse(RemoveAll(ls.s, "pt"));
      if x.Some? then Some(Some(Exactly(x.value))) else None
    else
      var x := FloatOf(ls);
      if x.Some? then Some(Some(Multiple(x.value))) else Some(None)
  }

  /**
   * `set_paragraph_format` does not raise: the alignment is not a list, the four
   * lengths are null or numbers, and the line spacing can be read.
   */
  predicate ParaOk(fmt: Format) {
    !(Truthy(Get(fmt, Alignment)) && Get(fmt, Alignment).List?) &&
    LengthProp(Get(fmt, FirstLineIndent)).Some? && LengthProp(Get(fmt, LeftIndent)).Some? &&
    LengthProp(Get(fmt, SpaceBefore)).Some? && LengthProp(Get(fmt, SpaceAfter)).Some? &&
    SpacingOk(Get(fmt, LineSpacing), Get(fmt, LineSpacingRule))
  }

  /** `set_paragraph_format`: the properties a format sets, `None` when the library would raise. */
  function ParaPropsOf(fmt: Format): (r: Option<ParaProps>)
    ensures r.Some? && Truthy(Get(fmt, Alignment)) ==>
      !Get(fmt, Alignment).List? && r.value.alignment == Some(ResolveAlignment(Get(fmt, Alignment)))
    ensures r.Some? && !Truthy(Get(fmt, Alignment)) ==> r.value.alignment.None?
    ensures r.Some? && Get(fmt, FirstLineIndent).Num? ==> r.value.firstLineIndentCm == Some(Get(fmt, FirstLineIndent).n)
    ensures r.Some? <==> ParaOk(fmt)
    ensures r.Some? ==>
      Some(r.value.firstLineIndentCm) == LengthProp(Get(fmt, FirstLineIndent)) &&
      Some(r.value.leftIndentCm) == LengthProp(Get(fmt, LeftIndent)) &&
      Some(r.value.spaceBeforePt) == LengthProp(Get(fmt, SpaceBefore)) &&
      Some(r.value.spaceAfterPt) == LengthProp(Get(fmt, SpaceAfter))
    ensures r.Some? ==> Some(r.value.spacing) == SpacingAsWritten(Get(fmt, LineSpacing), Get(fmt, LineSpacingRule))
  {
    var a := Get(fmt, Alignment);
    var fi := LengthProp(Get(fmt, FirstLineIndent));
    var li := LengthProp(Get(fmt, LeftIndent));
    var sb := LengthProp(Get(fmt, SpaceBefore));
    var sa := LengthProp(Get(fmt, SpaceAfter));
    var sp := SpacingAsWritten(Get(fmt, LineSpacing), Get(fmt, LineSpacingRule));
    if (Truthy(a) && a.List?) || fi.None? || li.None? || sb.None? || sa.None? || sp.None? then None
    else
      Some(ParaProps(
        if Truthy(a) then Some(ResolveAlignment(a)) else None,
        fi.value, li.value, sb.value, sa.value, sp.value))
  }

  /** `font_names[0] if font_names else fallback`; `None` when the list value cannot be indexed. */
  function FirstOr(list: Value, fallback: Value): (r: Option<Value>)
    ensures !Truthy(list) ==> r == Some(fallback)
    ensures list.List? && list.items != [] ==> r == Some(list.items[0])
  {
    if !Truthy(list) then Some(fallback)
    else match list
      case List(items) => Some(items[0])
      case Text(s) => Some(Text([s[0]]))
      case _ => None
  }

  /** A bold or italic value the library accepts: a flag, or a number equal to 1 or 0. */
  function OnOff(v: Value): (r: Option<Option<bool>>)
    ensures v == Null ==> r == Some(None)
    ensures v.Flag? ==> r == Some(Some(v.b))
  {
    match v
    case Null => Some(None)
    case Flag(b) => Some(Some(b))
    case Num(n) => if n.digits == Pow10(n.scale) then Some(Some(true)) else if n.digits == 0 then Some(Some(false)) else None
    case _ => None
  }

  /** The slot a font name is written to. */
  function SlotOf(name: string): (s: FontSlot)
    ensures s == EastAsia <==> HasCjk(name)
  {
    if HasCjk(name) then EastAsia else Latin
  }

  /**
   * `set_run_format` does not raise: the font and size lists can be indexed, the
   * font name chosen is a string when it is set, bold and italic are flags (or 1
   * or 0) when present, and a colour that is set is a string.
   */
  predicate RunOk(fmt: Format) {
    var name := FirstOr(Get(fmt, FontNames), Get(fmt, FontName));
    name.Some? && (Truthy(name.value) ==> name.value.Text?) &&
    FirstOr(Get(fmt, FontSizes), Get(fmt, FontSize)).Some? &&
    OnOff(Get(fmt, Bold)).Some? && OnOff(Get(fmt, Italic)).Some? &&
    (Truthy(Get(fmt, Color)) ==> Get(fmt, Color).Text?)
  }

  /**
   * `set_run_format`: the first listed font (else `font_name`) in the slot its
   * script calls for; the first listed size (else `font_size_pt`) resolved, when
   * non-zero; bold, italic and colour as given.
   */
  function RunPropsOf(fmt: Format): (r: Option<RunProps>)
    ensures r.Some? && r.value.font.Some? ==> r.value.font.value.1 == SlotOf(r.value.font.value.0)
    ensures r.Some? && r.value.sizePt.Some? ==> r.value.sizePt.value.digits != 0
    ensures r.Some? <==> RunOk(fmt)
    ensures r.Some? ==> (Get(fmt, Bold) == Null <==> r.value.bold.None?)
    ensures r.Some? ==> (Get(fmt, Italic) == Null <==> r.value.italic.None?)
    ensures r.Some? && Get(fmt, Bold).Flag? ==> r.value.bold == Some(Get(fmt, Bold).b)
    ensures r.Some? && Get(fmt, Italic).Flag? ==> r.value.italic == Some(Get(fmt, Italic).b)
    ensures r.Some? ==>
      var name := FirstOr(Get(fmt, FontNames), Get(fmt, FontName));
      name.Some? && (r.value.font.Some? <==> Truthy(name.value)) &&
      (r.value.font.Some? ==> name.value.Text? && r.value.font.value.0 == name.value.s)
    ensures r.Some? ==>
      var size := FirstOr(Get(fmt, FontSizes), Get(fmt, FontSize));
      size.Some? &&
      (r.value.sizePt.Some? <==> ResolveFontSize(size.value).Some? && ResolveFontSize(size.value).value.digits != 0) &&
      (r.value.sizePt.Some? ==> r.value.sizePt == ResolveFontSize(size.value))
    ensures r.Some? ==> (r.value.colour.Some? <==> Truthy(Get(fmt, Color)))
  {
    var nv := FirstOr(Get(fmt, FontNames), Get(fmt, FontName));
    var sv := FirstOr(Get(fmt, FontSizes), Get(fmt, FontSize));
    var b := OnOff(Get(fmt, Bold));
    var i := OnOff(Get(fmt, Italic));
    var c := Get(fmt, Color);
    if nv.None? || (Truthy(nv.value) && !nv.value.Text?) || sv.None? || b.None? || i.None? || (Truthy(c) && !c.Text?) then None
    else
      var font := if Truthy(nv.value) then Some((nv.value.s, SlotOf(nv.value.s))) else None;
      var size := ResolveFontSize(sv.value);
      Some(RunProps(
        font,
        if size.Some? && size.value.digits != 0 then size else None,
        b.value, i.value,
        if Truthy(c) then Some(c.s) else None))
  }

  /** A format the library accepts without raising: `ParaPropsOf` and `RunPropsOf` both give a record. */
  predicate Applicable(fmt: Format) {
    ParaOk(fmt) && RunOk(fmt)
  }

  /** The format of each role, by role name. */
  type Formats = string -> Format

  /** `defaults.get(role)` */
  function DefaultOf(defaults: map<string, Format>, role: string): (r: Option<Format>)
    ensures r.Some? <==> role in defaults
  {
    if role in defaults then Some(defaults[role]) else None
  }

  /** The role formats `format_document` resolves: the rules' format over the role's default. */
  function RoleFormats(formatting: map<string, Format>, defaults: map<string, Format>): Formats {
    role => RoleFormat(formatting, role, DefaultOf(defaults, role))
  }

  // ---------------------------------------------------------------------------
  // Spacing recorded by the analyser and applied again
  // ---------------------------------------------------------------------------

  /** The characters `str(x)` prints for a float contain no `p`. */
  lemma ShowFloatNoP(n: Number)
    ensures forall i :: 0 <= i < |ShowFloat(n)| ==> ShowFloat(n)[i] != 'p'
  {
    ShowChars(Canon(n));
  }

  /**
   * As written, a recorded `AT_LEAST` spacing (`"<x>pt"`) is applied as exact
   * spacing: the string test comes before the rule test.
   */
  lemma AtLeastAppliedAsExactly(n: Number)
    ensures SpacingAsWritten(Text(ShowFloat(n) + "pt"), Text("AT_LEAST")) == Some(Some(Exactly(Canon(n))))
  {
    var s := ShowFloat(n);
    var t := s + "pt";
    ShowFloatNoP(n);
    RemovePtAfterNumber(s);
    ParseShow(Canon(n));
    assert t[|t| - 2..] == "pt";
    assert PointText(Text(t));
    assert Parse(RemoveAll(t, "pt")) == Some(Canon(n));
  }

  /**
   * The spacing the analyser records for a paragraph, applied again, gives the
   * paragraph's rule and value back: `EXACTLY` and `AT_LEAST` in points, any other
   * rule as a multiple.
   */
  lemma SpacingRoundTrip(n: Number, rule: Option<string>)
    ensures var e := SpacingEntries(Some(n), rule);
      SpacingOf(e.0, e.1) == Some(Some(
        if rule == Some("EXACTLY") then Exactly(Canon(n))
        else if rule == Some("AT_LEAST") then AtLeast(Canon(n))
        else Multiple(Canon(n))))
  {
    if rule == Some("EXACTLY") || rule == Some("AT_LEAST") {
      PointSpacingRead(n);
    }
  }

  /** A spacing recorded as `"<x>pt"` reads back as the number. */
  lemma PointSpacingRead(n: Number)
    ensures StrFloat(Text(ShowFloat(n) + "pt")) == Some(Canon(n))
  {
    var s := ShowFloat(n);
    ShowFloatNoP(n);
    RemovePtAfterNumber(s);
    ParseShow(Canon(n));
  }

  // ---------------------------------------------------------------------------
  // Page setup
  // ---------------------------------------------------------------------------

  /**
   * The first section's page record: lengths in English Metric Units (360000
   * to the centimetre), as the library stores them, and the text of the first
   * header and footer paragraph once one is set.
   */
  datatype Page = Page(
    width: int,
    height: int,
    landscape: bool,
    top: int,
    bottom: int,
    left: int,
    right: int,
    headerDistance: int,
    footerDistance: int,
    headerText: Option<string>,
    footerText: Option<string>)

  /** `Cm(x)`: `int(x * 360000)`, truncated toward zero. */
  function Cm(x: Number): (r: int)
    ensures x.scale == 0 ==> r == x.digits * 360000
  {
    TruncDiv(x.digits * 360000, Pow10(x.scale))
  }

  /** Page size: a width or height set when non-zero. */
  function SizeStep(page: Page, e: PageInfo): Page {
    page.(
      width := if Set(e.widthCm) then Cm(e.widthCm.value) else page.width,
      height := if Set(e.heightCm) then Cm(e.heightCm.value) else page.height)
  }

  /** Orientation: landscape, with width and height swapped when the page is narrower than high. */
  function OrientStep(page: Page, e: PageInfo): Page {
    if e.orientation != Some("landscape") then page
    else if page.width < page.height then
      page.(landscape := true, width := page.height, height := page.width)
    else page.(landscape := true)
  }

  /** Margins: each one set when present, zero included. */
  function MarginStep(page: Page, e: PageInfo): Page {
    page.(
      top := if e.topCm.Some? then Cm(e.topCm.value) else page.top,
      bottom := if e.bottomCm.Some? then Cm(e.bottomCm.value) else page.bottom,
      left := if e.leftCm.Some? then Cm(e.leftCm.value) else page.left,
      right := if e.rightCm.Some? then Cm(e.rightCm.value) else page.right)
  }

  /** Header and footer distances, set when non-zero. */
  function DistanceStep(page: Page, e: PageInfo): Page {
    page.(
      headerDistance := if Set(e.headerDistanceCm) then Cm(e.headerDistanceCm.value) else page.headerDistance,
      footerDistance := if Set(e.footerDistanceCm) then Cm(e.footerDistanceCm.value) else page.footerDistance)
  }

  /** Header and footer text, set when non-empty. */
  function TextStep(page: Page, e: PageInfo): Page {
    page.(
      headerText := if NonEmpty(e.headerText) then e.headerText else page.headerText,
      footerText := if NonEmpty(e.footerText) then e.footerText else page.footerText)
  }

  /** The page after one layout entry is applied to it, in `setup_page`'s order. */
  function ApplyEntry(page: Page, e: PageInfo): Page {
    TextStep(DistanceStep(MarginStep(OrientStep(SizeStep(page, e), e), e), e), e)
  }

  /** `setup_page`: nothing without a layout, else the first entry applied. */
  function PageSetup(page: Page, layout: Layout): Page {
    match layout
    case Missing => page
    case Sections(entries) => if entries == [] then page else ApplyEntry(page, entries[0])
    case Single(e) => ApplyEntry(page, e)
  }

  /**
   * `setup_page` changes nothing without a layout and reads only the first entry;
   * a landscape entry leaves the page at least as wide as high, and swaps only a
   * page that was narrower than high.
   */
  lemma PageSetupProperties(page: Page, layout: Layout)
    ensures layout == Missing || layout == Sections([]) ==> PageSetup(page, layout) == page
    ensures layout.Sections? && layout.entries != [] ==>
      PageSetup(page, layout) == PageSetup(page, Sections([layout.entries[0]]))
    ensures layout.Sections? && layout.entries != [] && layout.entries[0].orientation == Some("landscape") ==>
      var r := PageSetup(page, layout);
      r.landscape && r.width >= r.height
  {
  }

  /**
   * A landscape entry on a page already at least as wide as high keeps width and
   * height as set; a zero margin is applied, a zero width is not.
   */
  lemma ApplyEntryProperties(page: Page, e: PageInfo)
    ensures var w := if Set(e.widthCm) then Cm(e.widthCm.value) else page.width;
      var h := if Set(e.heightCm) then Cm(e.heightCm.value) else page.height;
      w >= h ==> ApplyEntry(page, e).width == w && ApplyEntry(page, e).height == h
    ensures e.topCm.Some? ==> ApplyEntry(page, e).top == Cm(e.topCm.value)
    ensures e.widthCm.Some? && e.widthCm.value.digits == 0 && e.orientation != Some("landscape") ==>
      ApplyEntry(page, e).width == page.width
  {
  }

  /** The `{}` entry changes nothing. */
  lemma EmptyEntryIsNoOp(page: Page)
    ensures ApplyEntry(page, EmptyPage) == page
  {
  }

  // ---------------------------------------------------------------------------
  // Sections
  // ---------------------------------------------------------------------------

  /** The role whose format a section heading gets: from its `level` field, not its depth. */
  function HeadingRole(level: nat): string {
    "heading_" + NatToString(level)
  }

  /** `f"{prefix} {heading}"` when both are non-empty, else the heading. */
  function NumberedHeading(prefix: string, heading: string): (r: string)
    ensures prefix != [] && heading != [] ==> r == prefix + " " + heading
    ensures prefix == [] || heading == [] ==> r == heading
  {
    if prefix != [] && heading != [] then prefix + " " + heading else heading
  }

  /** The prefix of the `i`-th subsection (from 1): `"p.i"`, or none under no prefix. */
  function SubPrefix(prefix: string, i: nat): string {
    if prefix != [] then prefix + "." + NatToString(i) else []
  }

  /** The content strings that are not blank, each a body paragraph, in order. */
  function BodyParas(content: seq<string>, fmt: Format): (r: seq<Para>)
    ensures |r| <= |content|
  {
    if content == [] then []
    else
      var n := |content| - 1;
      BodyParas(content[..n], fmt) + (if !AllSpace(content[n]) then [Para(content[n], fmt)] else [])
  }

  /** Every body paragraph is a non-blank content string in the body format. */
  lemma {:induction false} BodyParasFromContent(content: seq<string>, fmt: Format)
    ensures forall p :: p in BodyParas(content, fmt) ==> p.text in content && !AllSpace(p.text) && p.format == fmt
  {
    if content != [] {
      var n := |content| - 1;
      BodyParasFromContent(content[..n], fmt);
      assert content == content[..n] + [content[n]];
    }
  }

  /** Every non-blank content string becomes a body paragraph. */
  lemma {:induction false} BodyParasComplete(content: seq<string>, fmt: Format)
    ensures forall i :: 0 <= i < |content| && !AllSpace(content[i]) ==> Para(content[i], fmt) in BodyParas(content, fmt)
  {
    if content != [] {
      var n := |content| - 1;
      var front := content[..n];
      BodyParasComplete(front, fmt);
      assert forall i :: 0 <= i < n ==> front[i] == content[i];
    }
  }

  /** With no blank string, there is one body paragraph per content string, in order. */
  lemma {:induction false} BodyParasInOrder(content: seq<string>, fmt: Format)
    requires forall i :: 0 <= i < |content| ==> !AllSpace(content[i])
    ensures |BodyParas(content, fmt)| == |content|
    ensures forall i :: 0 <= i < |content| ==> BodyParas(content, fmt)[i].text == content[i]
  {
    if content != [] {
      var n := |content| - 1;
      var front := content[..n];
      assert forall i :: 0 <= i < n ==> front[i] == content[i];
      BodyParasInOrder(front, fmt);
    }
  }

  lemma BodyParasSnoc(content: seq<string>, i: nat, fmt: Format)
    requires i < |content|
    ensures BodyParas(content[..i + 1], fmt) ==
      BodyParas(content[..i], fmt) + (if !AllSpace(content[i]) then [Para(content[i], fmt)] else [])
  {
    assert content[..i + 1][..i] == content[..i];
  }

  /** The formats a section and its subsections use are ones the library accepts. */
  predicate SectionUsable(sec: Section, fmts: Formats)
    decreases sec, |sec.subsections| + 1
  {
    Applicable(fmts(HeadingRole(sec.level)))
    && ((exists i :: 0 <= i < |sec.content| && !AllSpace(sec.content[i])) ==> Applicable(fmts("body")))
    && ChildrenUsable(sec, fmts, |sec.subsections|)
  }

  predicate ChildrenUsable(sec: Section, fmts: Formats, k: nat)
    requires k <= |sec.subsections|
    decreases sec, k
  {
    k == 0 || (ChildrenUsable(sec, fmts, k - 1) && SectionUsable(sec.subsections[k - 1], fmts))
  }

  /** `add_section_content`: the heading, the non-blank content, then each subsection numbered under the prefix. */
  function SectionParas(sec: Section, fmts: Formats, prefix: string): seq<Para>
    decreases sec, |sec.subsections| + 1
  {
    HeadParas(sec, fmts, prefix) + ChildrenParas(sec, fmts, prefix, |sec.subsections|)
  }

  /** A section's own paragraphs: its numbered heading, then its non-blank content. */
  function HeadParas(sec: Section, fmts: Formats, prefix: string): seq<Para> {
    [Para(NumberedHeading(prefix, sec.heading), fmts(HeadingRole(sec.level)))] + BodyParas(sec.content, fmts("body"))
  }

  /** The paragraphs of the first `k` subsections. */
  function ChildrenParas(sec: Section, fmts: Formats, prefix: string, k: nat): seq<Para>
    requires k <= |sec.subsections|
    decreases sec, k
  {
    if k == 0 then []
    else ChildrenParas(sec, fmts, prefix, k - 1) + SectionParas(sec.subsections[k - 1], fmts, SubPrefix(prefix, k))
  }

  /** The paragraphs of the top-level sections, the `i`-th (from 1) numbered `"i"`. */
  function SectionsParas(secs: seq<Section>, fmts: Formats): seq<Para> {
    if secs == [] then []
    else
      var n := |secs| - 1;
      SectionsParas(secs[..n], fmts) + SectionParas(secs[n], fmts, NatToString(n + 1))
  }

  lemma {:induction false} ChildrenParasPrefix(sec: Section, fmts: Formats, prefix: string, j: nat, k: nat)
    requires j <= k <= |sec.subsections|
    ensures ChildrenParas(sec, fmts, prefix, j) <= ChildrenParas(sec, fmts, prefix, k)
    decreases k
  {
    if j < k {
      ChildrenParasPrefix(sec, fmts, prefix, j, k - 1);
    }
  }

  /**
   * The `k`-th subsection's paragraphs, numbered `"prefix.k"`, sit in one block
   * of its parent's paragraphs, after the heading, the body and the earlier
   * subsections; the block starts with the subsection's heading.
   */
  lemma SubsectionPlacement(sec: Section, fmts: Formats, prefix: string, k: nat)
    requires 1 <= k <= |sec.subsections|
    ensures var child := sec.subsections[k - 1];
      var cp := SectionParas(child, fmts, SubPrefix(prefix, k));
      var off := |HeadParas(sec, fmts, prefix)| + |ChildrenParas(sec, fmts, prefix, k - 1)|;
      var ps := SectionParas(sec, fmts, prefix);
      off + |cp| <= |ps| && ps[off..off + |cp|] == cp
      && cp[0] == Para(NumberedHeading(SubPrefix(prefix, k), child.heading), fmts(HeadingRole(child.level)))
  {
    var child := sec.subsections[k - 1];
    ChildrenParasStep(sec, fmts, prefix, k);
    Placed(SectionParas(sec, fmts, prefix), HeadParas(sec, fmts, prefix), ChildrenParas(sec, fmts, prefix, |sec.subsections|),
      ChildrenParas(sec, fmts, prefix, k - 1), SectionParas(child, fmts, SubPrefix(prefix, k)));
    SectionParasHead(child, fmts, SubPrefix(prefix, k));
  }

  /** The first `k` subsections' paragraphs are the first `k - 1` subsections' followed by the `k`-th's. */
  lemma ChildrenParasStep(sec: Section, fmts: Formats, prefix: string, k: nat)
    requires 1 <= k <= |sec.subsections|
    ensures ChildrenParas(sec, fmts, prefix, k - 1) + SectionParas(sec.subsections[k - 1], fmts, SubPrefix(prefix, k))
      <= ChildrenParas(sec, fmts, prefix, |sec.subsections|)
  {
    ChildrenParasPrefix(sec, fmts, prefix, k, |sec.subsections|);
  }

  /** A section's paragraphs open with its numbered heading in its level's heading format. */
  lemma SectionParasHead(sec: Section, fmts: Formats, prefix: string)
    ensures var ps := SectionParas(sec, fmts, prefix);
      ps != [] && ps[0] == Para(NumberedHeading(prefix, sec.heading), fmts(HeadingRole(sec.level)))
  {
  }

  /** A block that follows `head + before` in `ps` sits at offset `|head| + |before|`. */
  lemma Placed<T>(ps: seq<T>, head: seq<T>, all: seq<T>, before: seq<T>, cp: seq<T>)
    requires ps == head + all && before + cp <= all
    ensures |head| + |before| + |cp| <= |ps| && ps[|head| + |before|..|head| + |before| + |cp|] == cp
  {
    var rest := all[|before + cp|..];
    assert all == before + cp + rest;
    assert ps == (head + before) + cp + rest;
    SliceOfConcat(head + before, cp, rest);
  }

  /**
   * Section 2 with one subsection that has one subsection, all headed and with
   * no content, gives the headings "2 A", "2.1 B", "2.1.1 C".
   */
  lemma NumberingChain(a: Section, b: Section, c: Section, fmts: Formats)
    requires a.heading == "A" && b.heading == "B" && c.heading == "C"
    requires a.content == [] && b.content == [] && c.content == []
    requires a.subsections == [b] && b.subsections == [c] && c.subsections == []
    ensures var ps := SectionParas(a, fmts, "2");
      |ps| == 3 && ps[0].text == "2 A" && ps[1].text == "2.1 B" && ps[2].text == "2.1.1 C"
  {
    assert SubPrefix("2", 1) == "2.1";
    assert SubPrefix("2.1", 1) == "2.1.1";
    assert NumberedHeading("2.1.1", "C") == "2.1.1 C";
    assert NumberedHeading("2.1", "B") == "2.1 B";
    assert NumberedHeading("2", "A") == "2 A";
    var pc := SectionParas(c, fmts, "2.1.1");
    assert BodyParas(c.content, fmts("body")) == [];
    assert ChildrenParas(c, fmts, "2.1.1", 0) == [];
    assert pc == [Para("2.1.1 C", fmts(HeadingRole(c.level)))];
    var pb := SectionParas(b, fmts, "2.1");
    assert ChildrenParas(b, fmts, "2.1", 1) == pc;
    assert pb == [Para("2.1 B", fmts(HeadingRole(b.level)))] + pc;
    assert ChildrenParas(a, fmts, "2", 1) == pb;
  }

  // ---------------------------------------------------------------------------
  // The whole document
  // ---------------------------------------------------------------------------

  /** The formats `format_document` uses for this content are ones the library accepts. */
  predicate DocumentUsable(c: Content, fmts: Formats) {
    FrontUsable(c, fmts)
    && (forall i :: 0 <= i < |c.sections| ==> SectionUsable(c.sections[i], fmts))
    && BackUsable(c, fmts)
  }

  predicate FrontUsable(c: Content, fmts: Formats) {
    (c.title != [] ==> Applicable(fmts("title")))
    && (c.authors != [] ==> Applicable(fmts("authors")))
    && (c.affiliations != [] ==> Applicable(fmts("affiliations")))
    && (c.abstractText != [] ==> Applicable(fmts("abstract_label")) && Applicable(fmts("abstract")))
    && (c.keywords != [] ==> Applicable(fmts("keywords")))
  }

  predicate BackUsable(c: Content, fmts: Formats) {
    (c.acknowledgments != [] ==> Applicable(fmts("heading_1")) && Applicable(fmts("body")))
    && (c.references != [] ==> Applicable(fmts("heading_1")) && Applicable(fmts("reference")))
  }

  /** One paragraph per text, all in one format. */
  function EachAs(texts: seq<string>, fmt: Format): (r: seq<Para>)
    ensures |r| == |texts| && forall i :: 0 <= i < |texts| ==> r[i] == Para(texts[i], fmt)
  {
    seq(|texts|, i requires 0 <= i < |texts| => Para(texts[i], fmt))
  }

  function TitleParas(c: Content, fmts: Formats): seq<Para> {
    if c.title != [] then [Para(c.title, fmts("title"))] else []
  }

  function AuthorParas(c: Content, fmts: Formats): seq<Para> {
    if c.authors != [] then [Para(Join(c.authors, ", "), fmts("authors"))] else []
  }

  function AbstractParas(c: Content, fmts: Formats): seq<Para> {
    if c.abstractText != [] then [Para("Abstract", fmts("abstract_label")), Para(c.abstractText, fmts("abstract"))] else []
  }

  function KeywordParas(c: Content, fmts: Formats): seq<Para> {
    if c.keywords != [] then [Para("Keywords: " + Join(c.keywords, "; "), fmts("keywords"))] else []
  }

  function AckParas(c: Content, fmts: Formats): seq<Para> {
    if c.acknowledgments != [] then [Para("Acknowledgments", fmts("heading_1")), Para(c.acknowledgments, fmts("body"))] else []
  }

  function ReferenceParas(c: Content, fmts: Formats): seq<Para> {
    if c.references != [] then [Para("References", fmts("heading_1"))] + EachAs(c.references, fmts("reference")) else []
  }

  /** The paragraphs `format_document` emits, in its order. */
  function DocumentParas(c: Content, fmts: Formats): seq<Para> {
    FrontParas(c, fmts) + SectionsParas(c.sections, fmts) + BackParas(c, fmts)
  }

  /** Title, authors, affiliations, abstract and keywords. */
  function FrontParas(c: Content, fmts: Formats): seq<Para> {
    HeaderParas(c, fmts) + SummaryParas(c, fmts)
  }

  /** Title, authors and affiliations. */
  function HeaderParas(c: Content, fmts: Formats): seq<Para> {
    TitleParas(c, fmts) + AuthorParas(c, fmts) + EachAs(c.affiliations, fmts("affiliations"))
  }

  /** Abstract and keywords. */
  function SummaryParas(c: Content, fmts: Formats): seq<Para> {
    AbstractParas(c, fmts) + KeywordParas(c, fmts)
  }

  /** Acknowledgments and references. */
  function BackParas(c: Content, fmts: Formats): seq<Para> {
    AckParas(c, fmts) + ReferenceParas(c, fmts)
  }

  /** With references, the document ends with the "References" heading and one paragraph per reference, in order. */
  lemma ReferencesLast(c: Content, fmts: Formats)
    requires c.references != []
    ensures var ps := DocumentParas(c, fmts);
      var n := |c.references|;
      |ps| > n && ps[|ps| - n - 1] == Para("References", fmts("heading_1"))
      && forall i :: 0 <= i < n ==> ps[|ps| - n + i] == Para(c.references[i], fmts("reference"))
  {
    var front := FrontParas(c, fmts) + SectionsParas(c.sections, fmts);
    var ack, items := AckParas(c, fmts), EachAs(c.references, fmts("reference"));
    var head := Para("References", fmts("heading_1"));
    AppendAssoc(front, ack, [head] + items);
    Trailer(DocumentParas(c, fmts), front + ack, head, items);
    forall i | 0 <= i < |items|
      ensures items[i] == Para(c.references[i], fmts("reference"))
    {
    }
  }

  /** In `front + [head] + items`, `head` and `items` sit at the end. */
  lemma Trailer<T>(ps: seq<T>, front: seq<T>, head: T, items: seq<T>)
    requires ps == front + ([head] + items)
    ensures |ps| > |items| && ps[|ps| - |items| - 1] == head
    ensures forall i :: 0 <= i < |items| ==> ps[|ps| - |items| + i] == items[i]
  {
  }

  /** A titled document opens with its title, then the authors joined by ", " when there are any. */
  lemma TitleThenAuthors(c: Content, fmts: Formats)
    requires c.title != []
    ensures var ps := DocumentParas(c, fmts);
      ps != [] && ps[0] == Para(c.title, fmts("title"))
      && (c.authors != [] ==> |ps| > 1 && ps[1] == Para(Join(c.authors, ", "), fmts("authors")))
  {
  }

  lemma {:induction false} SectionUsableWhenAll(sec: Section, fmts: Formats)
    requires forall role :: Applicable(fmts(role))
    ensures SectionUsable(sec, fmts)
    decreases sec, |sec.subsections| + 1
  {
    ChildrenUsableWhenAll(sec, fmts, |sec.subsections|);
  }

  lemma {:induction false} ChildrenUsableWhenAll(sec: Section, fmts: Formats, k: nat)
    requires k <= |sec.subsections|
    requires forall role :: Applicable(fmts(role))
    ensures ChildrenUsable(sec, fmts, k)
    decreases sec, k
  {
    if k > 0 {
      ChildrenUsableWhenAll(sec, fmts, k - 1);
      SectionUsableWhenAll(sec.subsections[k - 1], fmts);
    }
  }

  /** A value of the kind the formatter reads under each key; `null` is always accepted. */
  predicate PlainEntry(k: Key, v: Value) {
    v == Null ||
    match k
    case Alignment => v.Text?
    case FirstLineIndent | LeftIndent | SpaceBefore | SpaceAfter => v.Num?
    case LineSpacing => v.Num? || (v.Text? && Parse(RemoveAll(v.s, "pt")).Some?)
    case LineSpacingRule => v.Text?
    case FontNames => v.List? && (v.items != [] ==> v.items[0].Text?)
    case FontSizes => v.List?
    case FontName | Color => v.Text?
    case Bold | Italic => v.Flag?
    case _ => true
  }

  /** A format whose every value is of the kind its key calls for. */
  predicate Plain(fmt: Format) {
    forall k :: k in fmt ==> PlainEntry(k, fmt[k])
  }

  lemma GetPlain(fmt: Format, k: Key)
    requires Plain(fmt)
    ensures PlainEntry(k, Get(fmt, k))
  {
  }

  /** A printed number read back after `"pt"` is removed. */
  lemma StrFloatOfNumber(n: Number)
    ensures StrFloat(Num(n)).Some?
  {
    ShowChars(n);
    NoPtInPrinted(Show(n));
    ParseShow(n);
  }

  /** The formatter accepts every plain format. */
  lemma PlainApplicable(fmt: Format)
    requires Plain(fmt)
    ensures Applicable(fmt)
  {
    PlainParaProps(fmt);
    PlainRunProps(fmt);
  }

  lemma PlainParaProps(fmt: Format)
    requires Plain(fmt)
    ensures ParaPropsOf(fmt).Some?
  {
    GetPlain(fmt, Alignment);
    GetPlain(fmt, FirstLineIndent);
    GetPlain(fmt, LeftIndent);
    GetPlain(fmt, SpaceBefore);
    GetPlain(fmt, SpaceAfter);
    GetPlain(fmt, LineSpacing);
    PlainSpacing(Get(fmt, LineSpacing), Get(fmt, LineSpacingRule));
  }

  lemma PlainSpacing(ls: Value, rule: Value)
    requires ls == Null || ls.Num? || (ls.Text? && Parse(RemoveAll(ls.s, "pt")).Some?)
    ensures SpacingAsWritten(ls, rule).Some?
  {
    if ls != Null && !PointText(ls) && (rule == Text("EXACTLY") || rule == Text("AT_LEAST")) {
      PlainStrFloat(ls);
      PointRuleSpacing(ls, rule);
    } else {
      OtherRuleSpacing(ls, rule);
    }
  }

  lemma PlainStrFloat(ls: Value)
    requires ls.Num? || (ls.Text? && Parse(RemoveAll(ls.s, "pt")).Some?)
    ensures StrFloat(ls).Some?
  {
    if ls.Num? {
      StrFloatOfNumber(ls.n);
    }
  }

  lemma PointRuleSpacing(ls: Value, rule: Value)
    requires ls != Null && !PointText(ls) && (rule == Text("EXACTLY") || rule == Text("AT_LEAST")) && StrFloat(ls).Some?
    ensures SpacingAsWritten(ls, rule).Some?
  {
  }

  lemma OtherRuleSpacing(ls: Value, rule: Value)
    requires ls == Null || PointText(ls) || (rule != Text("EXACTLY") && rule != Text("AT_LEAST"))
    requires PointText(ls) ==> Parse(RemoveAll(ls.s, "pt")).Some?
    ensures SpacingAsWritten(ls, rule).Some?
  {
  }

  lemma PlainRunProps(fmt: Format)
    requires Plain(fmt)
    ensures RunPropsOf(fmt).Some?
  {
    GetPlain(fmt, FontNames);
    GetPlain(fmt, FontSizes);
    GetPlain(fmt, FontName);
    GetPlain(fmt, Bold);
    GetPlain(fmt, Italic);
    GetPlain(fmt, Color);
  }

  /** Every built-in role format is plain. */
  lemma DefaultsPlain(b: BuiltIn)
    ensures Plain(BuiltInRecord(b))
  {
  }

  /** A role format resolved from plain rules over plain defaults is plain. */
  lemma ResolvedPlain(formatting: map<string, Format>, defaults: map<string, Format>, role: string)
    requires forall r :: r in formatting ==> Plain(formatting[r])
    requires forall r :: r in defaults ==> Plain(defaults[r])
    ensures Plain(RoleFormats(formatting, defaults)(role))
  {
    var fmt := RoleFormats(formatting, defaults)(role);
    forall k | k in fmt
      ensures PlainEntry(k, fmt[k])
    {
      RoleFormatPointwise(formatting, role, DefaultOf(defaults, role), k);
    }
  }

  /** Rules whose formats are all plain never make the formatter raise, whatever the content. */
  lemma {:induction false} PlainRulesUsable(c: Content, formatting: map<string, Format>)
    requires forall r :: r in formatting ==> Plain(formatting[r])
    ensures DocumentUsable(c, RoleFormats(formatting, DefaultFormats()))
  {
    var fmts := RoleFormats(formatting, DefaultFormats());
    forall role
      ensures Applicable(fmts(role))
    {
      forall r | r in DefaultFormats()
        ensures Plain(DefaultFormats()[r])
      {
        DefaultsPlain(BuiltInFor(r));
      }
      ResolvedPlain(formatting, DefaultFormats(), role);
      PlainApplicable(fmts(role));
    }
    forall i | 0 <= i < |c.sections|
      ensures SectionUsable(c.sections[i], fmts)
    {
      SectionUsableWhenAll(c.sections[i], fmts);
    }
  }

  // ---------------------------------------------------------------------------
  // The steps of `setup_page`, one block of assignments each
  // ---------------------------------------------------------------------------

  method SetSize(page: Page, e: PageInfo) returns (p: Page)
    ensures p == SizeStep(page, e)
  {
    p := page;
    if Set(e.widthCm) {
      p := p.(width := Cm(e.widthCm.value));
    }
    if Set(e.heightCm) {
      p := p.(height := Cm(e.heightCm.value));
    }
  }

  method SetOrientation(page: Page, e: PageInfo) returns (p: Page)
    ensures p == OrientStep(page, e)
  {
    p := page;
    if e.orientation == Some("landscape") {
      p := p.(landscape := true);
      if p.width < p.height {
        p := p.(width := p.height, height := p.width);
      }
    }
  }

  method SetMargins(page: Page, e: PageInfo) returns (p: Page)
    ensures p == MarginStep(page, e)
  {
    p := page;
    if e.topCm.Some? {
      p := p.(top := Cm(e.topCm.value));
    }
    if e.bottomCm.Some? {
      p := p.(bottom := Cm(e.bottomCm.value));
    }
    if e.leftCm.Some? {
      p := p.(left := Cm(e.leftCm.value));
    }
    if e.rightCm.Some? {
      p := p.(right := Cm(e.rightCm.value));
    }
  }

  method SetDistances(page: Page, e: PageInfo) returns (p: Page)
    ensures p == DistanceStep(page, e)
  {
    p := page;
    if Set(e.headerDistanceCm) {
      p := p.(headerDistance := Cm(e.headerDistanceCm.value));
    }
    if Set(e.footerDistanceCm) {
      p := p.(footerDistance := Cm(e.footerDistanceCm.value));
    }
  }

  method SetTexts(page: Page, e: PageInfo) returns (p: Page)
    ensures p == TextStep(page, e)
  {
    p := page;
    if NonEmpty(e.headerText) {
      p := p.(headerText := e.headerText);
    }
    if NonEmpty(e.footerText) {
      p := p.(footerText := e.footerText);
    }
  }

  // ---------------------------------------------------------------------------
  // The document object
  // ---------------------------------------------------------------------------

  /** The document being built: its paragraphs so far and its first section's page. */
  class Document {
    var paragraphs: seq<Para>
    var page: Page

    /** A new document from the library's template page. */
    constructor (template: Page)
      ensures paragraphs == [] && page == template
    {
      paragraphs := [];
      page := template;
    }

    /** `add_formatted_paragraph`: one more paragraph, formatted by the role format. */
    method AddFormattedParagraph(text: string, fmt: Format)
      requires Applicable(fmt)
      modifies this
      ensures paragraphs == old(paragraphs) + [Para(text, fmt)]
      ensures page == old(page)
    {
      paragraphs := paragraphs + [Para(text, fmt)];
    }

    /** `setup_page`: the first layout entry's page size, orientation, margins, distances and header/footer text. */
    method SetupPage(layout: Layout)
      modifies this
      ensures page == PageSetup(old(page), layout)
      ensures paragraphs == old(paragraphs)
    {
      if layout == Missing || layout == Sections([]) {
        return;
      }
      var e := if layout.Sections? then layout.entries[0] else layout.entry;
      var p := SetSize(page, e);
      p := SetOrientation(p, e);
      p := SetMargins(p, e);
      p := SetDistances(p, e);
      p := SetTexts(p, e);
      page := p;
    }

    /** The content loop of `add_section_content`: each non-blank string, in the body format. */
    method AddBody(content: seq<string>, fmt: Format)
      requires (exists i :: 0 <= i < |content| && !AllSpace(content[i])) ==> Applicable(fmt)
      modifies this
      ensures paragraphs == old(paragraphs) + BodyParas(content, fmt)
      ensures page == old(page)
    {
      for i := 0 to |content|
        invariant page == old(page)
        invariant paragraphs == old(paragraphs) + BodyParas(content[..i], fmt)
      {
        BodyParasSnoc(content, i, fmt);
        if !AllSpace(content[i]) {
          AddFormattedParagraph(content[i], fmt);
        }
      }
      assert content[..|content|] == content;
    }

    /** A loop of `format_document`: one paragraph per text, all in one role format. */
    method AddEach(texts: seq<string>, fmt: Format)
      requires texts != [] ==> Applicable(fmt)
      modifies this
      ensures paragraphs == old(paragraphs) + EachAs(texts, fmt)
      ensures page == old(page)
    {
      for i := 0 to |texts|
        invariant page == old(page)
        invariant paragraphs == old(paragraphs) + EachAs(texts[..i], fmt)
      {
        assert EachAs(texts[..i + 1], fmt) == EachAs(texts[..i], fmt) + [Para(texts[i], fmt)];
        AddFormattedParagraph(texts[i], fmt);
      }
      assert texts[..|texts|] == texts;
    }

    /** The first part of `format_document`: title, authors, affiliations, abstract and keywords. */
    method AddFrontMatter(c: Content, formatting: map<string, Format>, defaults: map<string, Format>)
      requires FrontUsable(c, RoleFormats(formatting, defaults))
      modifies this
      ensures paragraphs == old(paragraphs) + FrontParas(c, RoleFormats(formatting, defaults))
      ensures page == old(page)
    {
      ghost var fmts := RoleFormats(formatting, defaults);
      AddHeader(c, formatting, defaults);
      AddSummary(c, formatting, defaults);
      AppendAssoc(old(paragraphs), HeaderParas(c, fmts), SummaryParas(c, fmts));
    }

    /** Title, authors (joined by ", ") and one paragraph per affiliation. */
    method AddHeader(c: Content, formatting: map<string, Format>, defaults: map<string, Format>)
      requires FrontUsable(c, RoleFormats(formatting, defaults))
      modifies this
      ensures paragraphs == old(paragraphs) + HeaderParas(c, RoleFormats(formatting, defaults))
      ensures page == old(page)
    {
      ghost var fmts := RoleFormats(formatting, defaults);
      var titleFmt := GetRoleFormat(formatting, "title", DefaultOf(defaults, "title"));
      if c.title != [] {
        assert titleFmt == fmts("title");
        AddFormattedParagraph(c.title, titleFmt);
      }
      ghost var acc := old(paragraphs) + TitleParas(c, fmts);
      assert paragraphs == acc;
      if c.authors != [] {
        var authFmt := GetRoleFormat(formatting, "authors", DefaultOf(defaults, "authors"));
        assert authFmt == fmts("authors");
        AddFormattedParagraph(Join(c.authors, ", "), authFmt);
      }
      acc := acc + AuthorParas(c, fmts);
      assert paragraphs == acc;
      if c.affiliations != [] {
        var affFmt := GetRoleFormat(formatting, "affiliations", DefaultOf(defaults, "affiliations"));
        assert affFmt == fmts("affiliations");
        AddEach(c.affiliations, affFmt);
      }
      AppendAssoc(old(paragraphs), TitleParas(c, fmts), AuthorParas(c, fmts));
      AppendAssoc(old(paragraphs), TitleParas(c, fmts) + AuthorParas(c, fmts), EachAs(c.affiliations, fmts("affiliations")));
    }

    /** The "Abstract" label and the abstract, then the keywords joined by "; " after "Keywords: ". */
    method AddSummary(c: Content, formatting: map<string, Format>, defaults: map<string, Format>)
      requires FrontUsable(c, RoleFormats(formatting, defaults))
      modifies this
      ensures paragraphs == old(paragraphs) + SummaryParas(c, RoleFormats(formatting, defaults))
      ensures page == old(page)
    {
      ghost var fmts := RoleFormats(formatting, defaults);
      if c.abstractText != [] {
        var labelFmt := GetRoleFormat(formatting, "abstract_label", DefaultOf(defaults, "abstract_label"));
        assert labelFmt == fmts("abstract_label");
        AddFormattedParagraph("Abstract", labelFmt);
        var absFmt := GetRoleFormat(formatting, "abstract", DefaultOf(defaults, "abstract"));
        assert absFmt == fmts("abstract");
        AddFormattedParagraph(c.abstractText, absFmt);
        assert [Para("Abstract", labelFmt)] + [Para(c.abstractText, absFmt)] == AbstractParas(c, fmts);
        AppendAssoc(old(paragraphs), [Para("Abstract", labelFmt)], [Para(c.abstractText, absFmt)]);
      } else {
        assert old(paragraphs) + AbstractParas(c, fmts) == old(paragraphs);
      }
      ghost var acc := paragraphs;
      if c.keywords != [] {
        var kwFmt := GetRoleFormat(formatting, "keywords", DefaultOf(defaults, "keywords"));
        assert kwFmt == fmts("keywords");
        AddFormattedParagraph("Keywords: " + Join(c.keywords, "; "), kwFmt);
      } else {
        assert acc + KeywordParas(c, fmts) == acc;
      }
      AppendAssoc(old(paragraphs), AbstractParas(c, fmts), KeywordParas(c, fmts));
    }

    /** The last part of `format_document`: acknowledgments, then the references under their heading. */
    method AddBackMatter(c: Content, formatting: map<string, Format>, defaults: map<string, Format>)
      requires BackUsable(c, RoleFormats(formatting, defaults))
      modifies this
      ensures paragraphs == old(paragraphs) + BackParas(c, RoleFormats(formatting, defaults))
      ensures page == old(page)
    {
      ghost var fmts := RoleFormats(formatting, defaults);
      if c.acknowledgments != [] {
        var ackFmt := GetRoleFormat(formatting, "heading_1", DefaultOf(defaults, "heading_1"));
        assert ackFmt == fmts("heading_1");
        AddFormattedParagraph("Acknowledgments", ackFmt);
        var bodyFmt := GetRoleFormat(formatting, "body", DefaultOf(defaults, "body"));
        assert bodyFmt == fmts("body");
        AddFormattedParagraph(c.acknowledgments, bodyFmt);
      }
      ghost var acc := old(paragraphs) + AckParas(c, fmts);
      assert paragraphs == acc;
      if c.references != [] {
        var refHeadingFmt := GetRoleFormat(formatting, "heading_1", DefaultOf(defaults, "heading_1"));
        assert refHeadingFmt == fmts("heading_1");
        AddFormattedParagraph("References", refHeadingFmt);
        var refFmt := GetRoleFormat(formatting, "reference", DefaultOf(defaults, "reference"));
        assert refFmt == fmts("reference");
        AddEach(c.references, refFmt);
        AppendAssoc(acc, [Para("References", refHeadingFmt)], EachAs(c.references, refFmt));
      }
      acc := acc + ReferenceParas(c, fmts);
      assert paragraphs == acc;
      AppendAssoc(old(paragraphs), AckParas(c, fmts), ReferenceParas(c, fmts));
    }

    /** The section loop of `format_document`: section `i` (from 0) numbered `i + 1`. */
    method AddSections(sections: seq<Section>, formatting: map<string, Format>, defaults: map<string, Format>)
      requires forall i :: 0 <= i < |sections| ==> SectionUsable(sections[i], RoleFormats(formatting, defaults))
      modifies this
      ensures paragraphs == old(paragraphs) + SectionsParas(sections, RoleFormats(formatting, defaults))
      ensures page == old(page)
    {
      ghost var fmts := RoleFormats(formatting, defaults);
      for i := 0 to |sections|
        invariant page == old(page)
        invariant paragraphs == old(paragraphs) + SectionsParas(sections[..i], fmts)
      {
        assert sections[..i + 1][..i] == sections[..i];
        AddSectionContent(sections[i], formatting, defaults, NatToString(i + 1));
        ghost var sp := SectionParas(sections[i], fmts, NatToString(i + 1));
        assert SectionsParas(sections[..i + 1], fmts) == SectionsParas(sections[..i], fmts) + sp;
        AppendAssoc(old(paragraphs), SectionsParas(sections[..i], fmts), sp);
      }
      assert sections[..|sections|] == sections;
    }

    /** `add_section_content`: the section's paragraphs appended, depth first. */
    method AddSectionContent(sec: Section, formatting: map<string, Format>, defaults: map<string, Format>, prefix: string)
      requires SectionUsable(sec, RoleFormats(formatting, defaults))
      modifies this
      ensures paragraphs == old(paragraphs) + SectionParas(sec, RoleFormats(formatting, defaults), prefix)
      ensures page == old(page)
      decreases sec, |sec.subsections| + 1
    {
      ghost var fmts := RoleFormats(formatting, defaults);
      AddHead(sec, formatting, defaults, prefix);
      ghost var afterBody := paragraphs;
      for i := 0 to |sec.subsections|
        invariant page == old(page)
        invariant paragraphs == afterBody + ChildrenParas(sec, fmts, prefix, i)
      {
        ChildUsable(sec, fmts, i);
        AddSectionContent(sec.subsections[i], formatting, defaults, SubPrefix(prefix, i + 1));
        ghost var child := SectionParas(sec.subsections[i], fmts, SubPrefix(prefix, i + 1));
        ChildrenParasNext(sec, fmts, prefix, i);
        AppendAssoc(afterBody, ChildrenParas(sec, fmts, prefix, i), child);
      }
      AppendAssoc(old(paragraphs), HeadParas(sec, fmts, prefix), ChildrenParas(sec, fmts, prefix, |sec.subsections|));
    }

    /** The section's numbered heading in its level's format, then its non-blank content as body paragraphs. */
    method AddHead(sec: Section, formatting: map<string, Format>, defaults: map<string, Format>, prefix: string)
      requires SectionUsable(sec, RoleFormats(formatting, defaults))
      modifies this
      ensures paragraphs == old(paragraphs) + HeadParas(sec, RoleFormats(formatting, defaults), prefix)
      ensures page == old(page)
    {
      ghost var fmts := RoleFormats(formatting, defaults);
      var role := HeadingRole(sec.level);
      var fmt := GetRoleFormat(formatting, role, DefaultOf(defaults, role));
      assert fmt == fmts(role);
      AddFormattedParagraph(NumberedHeading(prefix, sec.heading), fmt);
      var bodyFmt := GetRoleFormat(formatting, "body", DefaultOf(defaults, "body"));
      assert bodyFmt == fmts("body");
      AddBody(sec.content, bodyFmt);
      AppendAssoc(old(paragraphs), [Para(NumberedHeading(prefix, sec.heading), fmt)], BodyParas(sec.content, bodyFmt));
    }
  }

  /** Every subsection of a section that can be formatted can be formatted. */
  lemma ChildUsable(sec: Section, fmts: Formats, i: nat)
    requires SectionUsable(sec, fmts) && i < |sec.subsections|
    ensures SectionUsable(sec.subsections[i], fmts)
  {
    ChildrenUsableDown(sec, fmts, |sec.subsections|, i + 1);
  }

  lemma ChildrenParasNext(sec: Section, fmts: Formats, prefix: string, i: nat)
    requires i < |sec.subsections|
    ensures ChildrenParas(sec, fmts, prefix, i + 1)
      == ChildrenParas(sec, fmts, prefix, i) + SectionParas(sec.subsections[i], fmts, SubPrefix(prefix, i + 1))
  {
  }

  lemma {:induction false} ChildrenUsableDown(sec: Section, fmts: Formats, k: nat, j: nat)
    requires j <= k <= |sec.subsections| && ChildrenUsable(sec, fmts, k)
    ensures ChildrenUsable(sec, fmts, j)
    decreases k
  {
    if j < k {
      ChildrenUsableStep(sec, fmts, k);
      ChildrenUsableDown(sec, fmts, k - 1, j);
    }
  }

  lemma ChildrenUsableStep(sec: Section, fmts: Formats, k: nat)
    requires 0 < k <= |sec.subsections| && ChildrenUsable(sec, fmts, k)
    ensures ChildrenUsable(sec, fmts, k - 1)
  {
  }

  /** `format_document`: a new document from the template, its page set up, then the content in order. */
  method FormatDocument(c: Content, rules: Rules, template: Page) returns (doc: Document)
    requires DocumentUsable(c, RoleFormats(rules.formatting, DefaultFormats()))
    ensures fresh(doc)
    ensures doc.page == PageSetup(template, rules.layout)
    ensures doc.paragraphs == DocumentParas(c, RoleFormats(rules.formatting, DefaultFormats()))
  {
    var defaults := DefaultFormats();
    ghost var fmts := RoleFormats(rules.formatting, defaults);
    doc := new Document(template);
    doc.SetupPage(rules.layout);
    doc.AddFrontMatter(c, rules.formatting, defaults);
    assert doc.paragraphs == FrontParas(c, fmts);
    doc.AddSections(c.sections, rules.formatting, defaults);
    doc.AddBackMatter(c, rules.formatting, defaults);
  }
}
