/**
 * The records the three stages hand to each other as JSON: the per-role format
 * dictionaries of the style rules, the page-layout entries, and the manuscript
 * content tree.
 *
 * A format dictionary is a `map<Key, Value>`: a key the JSON object lacks is
 * absent from the map, a key present with `null` maps to `Null`. Keys that no
 * script reads are not modelled.
 */
module Schema {
  import opened Wrappers
  import opened Json

  datatype Key =
    | FontNames | FontSizes | FontName | FontSize | Bold | Italic | Alignment
    | LineSpacing | LineSpacingRule | FirstLineIndent | LeftIndent
    | SpaceBefore | SpaceAfter | Color | Count | SampleText | TextPreview | StyleName

  /** The JSON key a `Key` stands for. */
  function KeyName(k: Key): string {
    match k
    case FontNames => "font_names"
    case FontSizes => "font_sizes_pt"
    case FontName => "font_name"
    case FontSize => "font_size_pt"
    case Bold => "bold"
    case Italic => "italic"
    case Alignment => "alignment"
    case LineSpacing => "line_spacing"
    case LineSpacingRule => "line_spacing_rule"
    case FirstLineIndent => "first_line_indent_cm"
    case LeftIndent => "left_indent_cm"
    case SpaceBefore => "space_before_pt"
    case SpaceAfter => "space_after_pt"
    case Color => "color"
    case Count => "count"
    case SampleText => "sample_text"
    case TextPreview => "text_preview"
    case StyleName => "style_name"
  }

  type Format = map<Key, Value>

  /** `fmt.get(key)`: the stored value, `None` (Python's `None`) when the key is absent. */
  function Get(fmt: Format, k: Key): (v: Value)
    ensures k !in fmt ==> v == Null
  {
    if k in fmt then fmt[k] else Null
  }

  /** A list of strings as a JSON value. */
  function Texts(xs: seq<string>): (v: Value)
    ensures v.List? && |v.items| == |xs|
    ensures forall i :: 0 <= i < |xs| ==> v.items[i] == Text(xs[i])
  {
    List(seq(|xs|, i requires 0 <= i < |xs| => Text(xs[i])))
  }

  /** A list of numbers as a JSON value. */
  function Nums(xs: seq<Number>): (v: Value)
    ensures v.List? && |v.items| == |xs|
    ensures forall i :: 0 <= i < |xs| ==> v.items[i] == Num(xs[i])
  {
    List(seq(|xs|, i requires 0 <= i < |xs| => Num(xs[i])))
  }

  /**
   * One entry of `page_layout`, with the keys the analyser writes. Lengths are
   * in centimetres, already converted. `None` is a missing key. For every key
   * but `paper_size` it is also a `null` value, which those readers treat alike;
   * `paper_size` keeps the JSON value, because the generator calls `.lower()`
   * on it and a `null` or a number there raises where a missing key does not.
   */
  datatype PageInfo = PageInfo(
    index: nat,
    widthCm: Option<Number>,
    heightCm: Option<Number>,
    orientation: Option<string>,
    topCm: Option<Number>,
    bottomCm: Option<Number>,
    leftCm: Option<Number>,
    rightCm: Option<Number>,
    gutterCm: Option<Number>,
    headerDistanceCm: Option<Number>,
    footerDistanceCm: Option<Number>,
    paperSize: Option<Value>,
    headerText: Option<string>,
    footerText: Option<string>,
    columns: Option<Number>)

  /** The `{}` page entry: every key missing. */
  const EmptyPage := PageInfo(0, None, None, None, None, None, None, None, None, None, None, None, None, None, None)

  /** A length entry Python reads as true: present, not null and not zero. */
  predicate Set(x: Option<Number>) {
    x.Some? && x.value.digits != 0
  }

  /** A text entry Python reads as true: present, not null and not empty. */
  predicate NonEmpty(x: Option<string>) {
    x.Some? && x.value != []
  }

  /** The `page_layout` value of a rules file: missing, a list of entries, or one entry on its own. */
  datatype Layout = Missing | Sections(entries: seq<PageInfo>) | Single(entry: PageInfo)

  /** A manuscript section of the content tree; `level` is 1 when the JSON omits it. */
  datatype Section = Section(level: nat, heading: string, content: seq<string>, subsections: seq<Section>)

  /** The manuscript content tree; a missing string is `""`, a missing list `[]`. */
  datatype Content = Content(
    title: string,
    authors: seq<string>,
    affiliations: seq<string>,
    abstractText: string,
    keywords: seq<string>,
    sections: seq<Section>,
    acknowledgments: string,
    references: seq<string>)

  /** The style rules read by the two generators: layout, per-role formats, and the detected citation label. */
  datatype Rules = Rules(layout: Layout, formatting: map<string, Format>, detectedStyle: string)
}
