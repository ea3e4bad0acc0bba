/**
 * Format resolution of the flowing-document formatter (`format_docx.py`): the
 * built-in default record of each role, the overlay of the extracted style
 * rules on it, and the conversions of size and alignment specifications.
 */
module Resolve {
  import opened Wrappers
  import opened Text
  import opened Json
  import opened Schema
  import opened Analyze

  // ---------------------------------------------------------------------------
  // Font sizes
  // ---------------------------------------------------------------------------

  /** The named Chinese font sizes (字号) and their sizes in points. */
  const CnFontSizes: seq<(string, Number)> := [
    ("初号", Int(42)), ("小初", Int(36)), ("一号", Int(26)), ("小一", Int(24)),
    ("二号", Int(22)), ("小二", Int(18)), ("三号", Int(16)), ("小三", Int(15)),
    ("四号", Int(14)), ("小四", Int(12)), ("五号", Number(105, 1)), ("小五", Int(9)),
    ("六号", Number(75, 1)), ("小六", Number(65, 1)), ("七号", Number(55, 1)), ("八号", Int(5))]

  /** The size a name denotes in the table, if it is one. */
  function CnSize(name: string): (r: Option<Number>)
    ensures r.Some? <==> exists i :: 0 <= i < |CnFontSizes| && CnFontSizes[i].0 == name
    ensures r.Some? ==> exists i :: 0 <= i < |CnFontSizes| && CnFontSizes[i] == (name, r.value)
  {
    Lookup(CnFontSizes, name)
  }

  function Lookup(table: seq<(string, Number)>, name: string): (r: Option<Number>)
    ensures r.Some? <==> exists i :: 0 <= i < |table| && table[i].0 == name
    ensures r.Some? ==> exists i :: 0 <= i < |table| && table[i] == (name, r.value)
  {
    if table == [] then None
    else if table[0].0 == name then Some(table[0].1)
    else
      var r := Lookup(table[1..], name);
      assert forall i :: 1 <= i < |table| ==> table[1..][i - 1] == table[i];
      r
  }

  /**
   * `resolve_font_size`: a number is returned as it is (a flag as 1 or 0), a
   * table name by its size, any other string with every `pt` removed as a
   * decimal; everything else, and an unreadable string, gives `None`.
   */
  function ResolveFontSize(spec: Value): (r: Option<Number>)
    ensures spec.Num? ==> r == Some(spec.n)
    ensures spec.Null? || spec.List? ==> r.None?
    ensures spec.Flag? ==> r == Some(Int(if spec.b then 1 else 0))
    ensures spec.Text? && CnSize(spec.s).Some? ==> r == CnSize(spec.s)
    ensures spec.Text? && CnSize(spec.s).None? ==>
      (r.Some? <==> Parse(Strip(RemoveAll(spec.s, "pt"))).Some?)
    ensures spec.Text? && CnSize(spec.s).None? && r.Some? ==>
      Real(r.value) == Real(Parse(Strip(RemoveAll(spec.s, "pt"))).value)
  {
    match spec
    case Null => None
    case Flag(b) => Some(Int(if b then 1 else 0))
    case Num(n) => Some(n)
    case Text(s) =>
      if CnSize(s).Some? then CnSize(s)
      else
        var t := Parse(Strip(RemoveAll(s, "pt")));
        if t.Some? then Some(Canon(t.value)) else None
    case List(_) => None
  }

  /** 小四 is 12 points. */
  lemma XiaoSiIsTwelve(a: string)
    requires a == "小四"
    ensures ResolveFontSize(Text(a)) == Some(Int(12))
  {
    var t := CnFontSizes;
    assert t[9] == (a, Int(12));
    assert forall i :: 0 <= i < 9 ==> t[i].0 != a;
    LookupSkip(t, a, 9);
  }

  /** 五号 is 10.5 points. */
  lemma WuHaoIsTenAndAHalf(b: string)
    requires b == "五号"
    ensures ResolveFontSize(Text(b)) == Some(Number(105, 1))
  {
    var t := CnFontSizes;
    assert t[10] == (b, Number(105, 1));
    assert forall i :: 0 <= i < 10 ==> t[i].0 != b;
    LookupSkip(t, b, 10);
  }

  /** Entries before the first one with the name do not change the lookup. */
  lemma {:induction false} LookupSkip(table: seq<(string, Number)>, name: string, k: nat)
    requires k <= |table|
    requires forall i :: 0 <= i < k ==> table[i].0 != name
    ensures Lookup(table, name) == Lookup(table[k..], name)
  {
    if k > 0 {
      assert table[1..][k - 1..] == table[k..];
      LookupSkip(table[1..], name, k - 1);
    }
  }

  /** A table name is never a printed number, which starts with a digit or `-`. */
  lemma {:induction false} NumberNotNamed(s: string)
    requires s != [] && (IsDigit(s[0]) || s[0] == '-')
    ensures CnSize(s).None?
  {
  }

  /** `"<x>pt"` and `"<x>"` for a printed number `x` both resolve to `x` as a float. */
  lemma SizeTextRoundTrip(n: Number)
    ensures ResolveFontSize(Text(Show(n) + "pt")) == Some(Canon(n))
    ensures ResolveFontSize(Text(Show(n))) == Some(Canon(n))
  {
    var s := Show(n);
    ShowChars(n);
    RemovePtAfterNumber(s);
    assert (s + "pt")[0] == s[0];
    NumberNotNamed(s + "pt");
    NumberNotNamed(s);
    StripPrinted(s);
    ParseShow(n);
    NoPtInPrinted(s);
  }

  lemma {:induction false} NoPtInPrinted(s: string)
    requires forall i :: 0 <= i < |s| ==> s[i] != 'p'
    ensures RemoveAll(s, "pt") == s
  {
  }

  /** A printed number has no surrounding whitespace. */
  lemma StripPrinted(s: string)
    requires s != [] && forall i :: 0 <= i < |s| ==> IsDigit(s[i]) || s[i] in "-."
    ensures Strip(s) == s
  {
    assert !IsSpace(s[0]) && !IsSpace(s[|s| - 1]);
    assert LStrip(s) == s;
    assert RStrip(s) == s;
  }

  /** A string with no number in it resolves to `None`. */
  lemma UnreadableSize(s: string)
    requires s == "large"
    ensures ResolveFontSize(Text(s)) == None
  {
    assert CnSize(s).None? by {
      forall i | 0 <= i < |CnFontSizes| ensures CnFontSizes[i].0 != s {
        assert |CnFontSizes[i].0| == 2;
      }
    }
    assert RemoveAll(s, "pt") == s;
    StripPrinted2(s);
  }

  lemma StripPrinted2(s: string)
    requires s == "large"
    ensures Strip(s) == s && Parse(s).None?
  {
    assert LStrip(s) == s;
    assert RStrip(s) == s;
    assert DigitRun(s, 0) == 0;
  }

  // ---------------------------------------------------------------------------
  // Alignment
  // ---------------------------------------------------------------------------

  /** `resolve_alignment`: the five names to their alignments, anything else to justified. */
  function ResolveAlignment(spec: Value): (r: WdAlign)
    requires !spec.List?
    ensures r in {Left, Center, Right, Justify, Distribute}
    ensures !spec.Text? || spec.s !in AlignmentNames ==> r == Justify
  {
    match spec
    case Text(s) =>
      if s == "left" then Left
      else if s == "center" then Center
      else if s == "right" then Right
      else if s == "distribute" then Distribute
      else Justify
    case _ => Justify
  }

  /** Reading back a recorded alignment name gives the alignment, for the five named ones. */
  lemma AlignmentRoundTrip(a: WdAlign)
    ensures a in {Left, Center, Right, Justify, Distribute} ==> ResolveAlignment(Text(AlignmentName(a))) == a
    ensures a !in {Left, Center, Right, Justify, Distribute} ==> ResolveAlignment(Text(AlignmentName(a))) == Left
  {
  }

  /** Recording a resolved name gives the name back. */
  lemma AlignmentNameRoundTrip(s: string)
    requires s in AlignmentNames
    ensures AlignmentName(ResolveAlignment(Text(s))) == s
  {
  }

  // ---------------------------------------------------------------------------
  // Role formats
  // ---------------------------------------------------------------------------

  /** The ten keys an extracted role record may override. */
  const RoleKeys: seq<Key> := [
    FontNames, FontSizes, Bold, Italic, Alignment,
    LineSpacing, LineSpacingRule, FirstLineIndent, SpaceBefore, SpaceAfter]

  /** The `fmt` dictionary after the loop has looked at `keys`: each non-null value of `data` replaces the base value. */
  function Overlay(base: Format, data: Format, keys: seq<Key>): Format {
    if keys == [] then base
    else
      var k := keys[|keys| - 1];
      var f := Overlay(base, data, keys[..|keys| - 1]);
      if Get(data, k) != Null then f[k := data[k]] else f
  }

  /**
   * `get_role_format`: a copy of the defaults (none when they are missing or
   * empty), overlaid with the role's extracted record when the rules have one.
   */
  function RoleFormat(formatting: map<string, Format>, role: string, defaults: Option<Format>): Format {
    var base := defaults.GetOr(map[]);
    if role in formatting then Overlay(base, formatting[role], RoleKeys) else base
  }

  /** `get_role_format`, filling the dictionary in place. */
  method GetRoleFormat(formatting: map<string, Format>, role: string, defaults: Option<Format>) returns (fmt: Format)
    ensures fmt == RoleFormat(formatting, role, defaults)
  {
    fmt := map[];
    if defaults.Some? && defaults.value != map[] {
      fmt := fmt + defaults.value;
    }
    if role in formatting {
      var roleData := formatting[role];
      for i := 0 to |RoleKeys|
        invariant fmt == Overlay(defaults.GetOr(map[]), roleData, RoleKeys[..i])
      {
        var key := RoleKeys[i];
        assert RoleKeys[..i + 1][..i] == RoleKeys[..i];
        if Get(roleData, key) != Null {
          fmt := fmt[key := roleData[key]];
        }
      }
      assert RoleKeys[..|RoleKeys|] == RoleKeys;
    }
  }

  /** Overlay, key by key: a listed key takes the non-null extracted value, every other key keeps the base. */
  lemma {:induction false} OverlayPointwise(base: Format, data: Format, keys: seq<Key>, k: Key)
    ensures var r := Overlay(base, data, keys);
      if k in keys && Get(data, k) != Null then k in r && r[k] == data[k]
      else (k in r <==> k in base) && (k in base ==> r[k] == base[k])
  {
    if keys != [] {
      var n := |keys| - 1;
      OverlayPointwise(base, data, keys[..n], k);
      assert k in keys <==> k in keys[..n] || k == keys[n] by {
        assert keys == keys[..n] + [keys[n]];
      }
    }
  }

  /**
   * For each of the ten keys the result holds the extracted value when it is
   * non-null and the default otherwise; every other key (`left_indent_cm`,
   * `color`, and the extracted `count` or `sample_text`) is the default's.
   */
  lemma RoleFormatPointwise(formatting: map<string, Format>, role: string, defaults: Option<Format>, k: Key)
    ensures var r := RoleFormat(formatting, role, defaults);
      var base := defaults.GetOr(map[]);
      if role in formatting && k in RoleKeys && Get(formatting[role], k) != Null then k in r && r[k] == formatting[role][k]
      else (k in r <==> k in base) && (k in base ==> r[k] == base[k])
  {
    if role in formatting {
      OverlayPointwise(defaults.GetOr(map[]), formatting[role], RoleKeys, k);
    }
  }

  /** A role the rules do not mention gets a copy of its defaults. */
  lemma MissingRoleIsDefault(formatting: map<string, Format>, role: string, defaults: Format)
    requires role !in formatting
    ensures RoleFormat(formatting, role, Some(defaults)) == defaults
  {
  }

  /** The extracted `count` and `sample_text` are never copied into a format. */
  lemma SummaryOnlyKeysNotCopied(formatting: map<string, Format>, role: string, defaults: Option<Format>)
    requires Count !in defaults.GetOr(map[]) && SampleText !in defaults.GetOr(map[])
    ensures Count !in RoleFormat(formatting, role, defaults)
    ensures SampleText !in RoleFormat(formatting, role, defaults)
  {
    RoleFormatPointwise(formatting, role, defaults, Count);
    RoleFormatPointwise(formatting, role, defaults, SampleText);
  }

  /** Resolving again with the result as the defaults changes nothing. */
  lemma RoleFormatIdempotent(formatting: map<string, Format>, role: string, defaults: Option<Format>)
    ensures var r := RoleFormat(formatting, role, defaults);
      RoleFormat(formatting, role, Some(r)) == r
  {
    var r := RoleFormat(formatting, role, defaults);
    var r2 := RoleFormat(formatting, role, Some(r));
    forall k ensures (k in r2 <==> k in r) && (k in r ==> r2[k] == r[k]) {
      RoleFormatPointwise(formatting, role, defaults, k);
      RoleFormatPointwise(formatting, role, Some(r), k);
    }
  }

  // ---------------------------------------------------------------------------
  // Default formats
  // ---------------------------------------------------------------------------

  const TimesNewRoman: Value := Texts(["Times New Roman"])

  function Sizes(pt: Number): Value {
    Nums([pt])
  }

  /** The roles `build_default_formats` builds a record for. */
  datatype BuiltIn =
    | TitleRole | AuthorsRole | AffiliationsRole | AbstractLabelRole
    | AbstractRole | KeywordsRole | Heading1Role | Heading2Role | Heading3Role
    | BodyRole | CaptionRole | ReferenceRole

  /** The dictionary key of a built-in role. */
  function BuiltInName(b: BuiltIn): string {
    match b
    case TitleRole => "title"
    case AuthorsRole => "authors"
    case AffiliationsRole => "affiliations"
    case AbstractLabelRole => "abstract_label"
    case AbstractRole => "abstract"
    case KeywordsRole => "keywords"
    case Heading1Role => "heading_1"
    case Heading2Role => "heading_2"
    case Heading3Role => "heading_3"
    case BodyRole => "body"
    case CaptionRole => "caption"
    case ReferenceRole => "reference"
  }

  /** The record `build_default_formats` builds for a role. */
  function BuiltInRecord(b: BuiltIn): Format {
    match b
    case TitleRole =>
      map[FontNames := TimesNewRoman, FontSizes := Sizes(Int(16)), Bold := Flag(true),
        Alignment := Text("center"), SpaceAfter := Num(Int(12))]
    case AuthorsRole =>
      map[FontNames := TimesNewRoman, FontSizes := Sizes(Int(12)),
        Alignment := Text("center"), SpaceAfter := Num(Int(6))]
    case AffiliationsRole =>
      map[FontNames := TimesNewRoman, FontSizes := Sizes(Int(10)), Italic := Flag(true),
        Alignment := Text("center"), SpaceAfter := Num(Int(12))]
    case AbstractLabelRole =>
      map[FontNames := TimesNewRoman, FontSizes := Sizes(Int(12)), Bold := Flag(true),
        Alignment := Text("left")]
    case AbstractRole =>
      map[FontNames := TimesNewRoman, FontSizes := Sizes(Int(10)), Alignment := Text("justify"),
        FirstLineIndent := Num(Int(0)), SpaceAfter := Num(Int(12))]
    case KeywordsRole =>
      map[FontNames := TimesNewRoman, FontSizes := Sizes(Int(10)),
        Alignment := Text("left"), SpaceAfter := Num(Int(12))]
    case Heading1Role =>
      map[FontNames := TimesNewRoman, FontSizes := Sizes(Int(14)), Bold := Flag(true),
        Alignment := Text("left"), SpaceBefore := Num(Int(18)), SpaceAfter := Num(Int(12))]
    case Heading2Role =>
      map[FontNames := TimesNewRoman, FontSizes := Sizes(Int(12)), Bold := Flag(true),
        Alignment := Text("left"), SpaceBefore := Num(Int(12)), SpaceAfter := Num(Int(6))]
    case Heading3Role =>
      map[FontNames := TimesNewRoman, FontSizes := Sizes(Int(12)), Bold := Flag(false),
        Italic := Flag(true), Alignment := Text("left"), SpaceBefore := Num(Int(6)), SpaceAfter := Num(Int(6))]
    case BodyRole =>
      map[FontNames := TimesNewRoman, FontSizes := Sizes(Int(12)), Alignment := Text("justify"),
        LineSpacing := Num(Number(15, 1)), FirstLineIndent := Num(Number(75, 2)), SpaceAfter := Num(Int(0))]
    case CaptionRole =>
      map[FontNames := TimesNewRoman, FontSizes := Sizes(Int(10)), Alignment := Text("center"),
        Bold := Flag(false), SpaceBefore := Num(Int(6)), SpaceAfter := Num(Int(6))]
    case ReferenceRole =>
      map[FontNames := TimesNewRoman, FontSizes := Sizes(Int(10)), Alignment := Text("justify"),
        FirstLineIndent := Num(Int(0)), LeftIndent := Num(Int(0)), SpaceAfter := Num(Int(3))]
  }

  /** The keys `build_default_formats` uses; any other role (`heading_4`, say) has no record. */
  const DefaultRoles: set<string> := {
    "title", "authors", "affiliations", "abstract_label", "abstract", "keywords",
    "heading_1", "heading_2", "heading_3", "body", "caption", "reference"}

  /** The built-in role a key names. */
  function BuiltInFor(role: string): (b: BuiltIn)
    requires role in DefaultRoles
    ensures BuiltInName(b) == role
  {
    if role == "title" then TitleRole
    else if role == "authors" then AuthorsRole
    else if role == "affiliations" then AffiliationsRole
    else if role == "abstract_label" then AbstractLabelRole
    else if role == "abstract" then AbstractRole
    else if role == "keywords" then KeywordsRole
    else if role == "heading_1" then Heading1Role
    else if role == "heading_2" then Heading2Role
    else if role == "heading_3" then Heading3Role
    else if role == "body" then BodyRole
    else if role == "caption" then CaptionRole
    else ReferenceRole
  }

  /** Each built-in role's key names that role and no other. */
  lemma {:induction false} BuiltInKey(b: BuiltIn)
    ensures BuiltInName(b) in DefaultRoles && BuiltInFor(BuiltInName(b)) == b
  {
    match b
    case TitleRole =>
    case AuthorsRole =>
    case AffiliationsRole =>
    case AbstractLabelRole =>
    case AbstractRole =>
    case KeywordsRole =>
    case Heading1Role =>
    case Heading2Role =>
    case Heading3Role =>
    case BodyRole =>
    case CaptionRole =>
    case ReferenceRole =>
  }

  /** `build_default_formats`: the built-in record of each role, under its key. */
  function DefaultFormats(): map<string, Format> {
    map role | role in DefaultRoles :: BuiltInRecord(BuiltInFor(role))
  }

  /** `defaults.get(role)` */
  function DefaultFor(role: string): (r: Option<Format>)
    ensures r.Some? <==> role in DefaultRoles
    ensures r.Some? ==> r.value == BuiltInRecord(BuiltInFor(role))
  {
    var d := DefaultFormats();
    if role in d then Some(d[role]) else None
  }

  /**
   * Every built-in record names Times New Roman, has an alignment and no colour,
   * and no built-in record carries a line-spacing rule.
   */
  lemma DefaultsShape(b: BuiltIn)
    ensures var f := BuiltInRecord(b);
      f[FontNames] == TimesNewRoman && Alignment in f && Color !in f && LineSpacingRule !in f
      && Count !in f && SampleText !in f
  {
  }

  /** Colour is never part of a resolved role format, so the run colour step never fires. */
  lemma ResolvedHasNoColour(formatting: map<string, Format>, role: string)
    ensures Color !in RoleFormat(formatting, role, DefaultFor(role))
  {
    RoleFormatPointwise(formatting, role, DefaultFor(role), Color);
    if role in DefaultRoles {
      DefaultsShape(BuiltInFor(role));
    }
  }
}
