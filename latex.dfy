/**
 * The LaTeX generator (`generate_latex.py`): character escaping, the CJK test,
 * the nearest size command, the preamble builders, section rendering, the
 * citation package and the assembled source, which the script writes out as
 * `"\n".join(lines)`.
 *
 * The builders read the style rules as they come: the `paragraph_formatting`
 * records untouched (not resolved against the formatter's defaults), the first
 * `page_layout` entry, and the detected citation label.
 */
module Latex {
  import opened Wrappers
  import opened Text
  import opened Json
  import opened Schema
  import opened Citation

  // ---------------------------------------------------------------------------
  // escape_latex
  // ---------------------------------------------------------------------------

  /** The substitutions of `escape_latex`, in the order its loop applies them. */
  const Specials: seq<(char, string)> := [
    ('&', "\\&"), ('%', "\\%"), ('$', "\\$"), ('#', "\\#"), ('_', "\\_"),
    ('{', "\\{"), ('}', "\\}"), ('~', "\\textasciitilde{}"), ('^', "\\textasciicircum{}")]

  /** What one character becomes in LaTeX source. */
  function EscapeChar(c: char): string {
    match c
    case '&' => "\\&"
    case '%' => "\\%"
    case '$' => "\\$"
    case '#' => "\\#"
    case '_' => "\\_"
    case '{' => "\\{"
    case '}' => "\\}"
    case '~' => "\\textasciitilde{}"
    case '^' => "\\textasciicircum{}"
    case _ => [c]
  }

  /** Escaping as a single left-to-right pass, each character replaced by its escape. */
  function Escape(s: string): string {
    if s == [] then [] else EscapeChar(s[0]) + Escape(s[1..])
  }

  /** Python's `s.replace(c, rep)` for a one-character `c`. */
  function ReplaceChar(s: string, c: char, rep: string): string {
    if s == [] then [] else (if s[0] == c then rep else [s[0]]) + ReplaceChar(s[1..], c, rep)
  }

  /** One character after the first `k` substitutions of the loop. */
  function PartialEscapeChar(x: char, k: nat): string
    requires k <= |Specials|
  {
    if k == 0 then [x]
    else if x == Specials[k - 1].0 then Specials[k - 1].1
    else PartialEscapeChar(x, k - 1)
  }

  /** The text after the first `k` substitutions of the loop. */
  function PartialEscape(s: string, k: nat): string
    requires k <= |Specials|
  {
    if s == [] then [] else PartialEscapeChar(s[0], k) + PartialEscape(s[1..], k)
  }

  /** `escape_latex`: the nine `str.replace` calls, one after the other. */
  method EscapeLatex(text: string) returns (r: string)
    ensures r == Escape(text)
  {
    if text == [] {
      return "";
    }
    r := text;
    PartialNone(text);
    for k := 0 to |Specials|
      invariant r == PartialEscape(text, k)
    {
      PartialStep(text, k);
      r := ReplaceChar(r, Specials[k].0, Specials[k].1);
    }
    PartialComplete(text);
  }

  lemma {:induction false} ReplaceConcat(a: string, b: string, c: char, rep: string)
    ensures ReplaceChar(a + b, c, rep) == ReplaceChar(a, c, rep) + ReplaceChar(b, c, rep)
  {
    if a != [] {
      assert (a + b)[1..] == a[1..] + b;
      ReplaceConcat(a[1..], b, c, rep);
    } else {
      assert a + b == b;
    }
  }

  lemma {:induction false} ReplaceAbsent(s: string, c: char, rep: string)
    requires forall i :: 0 <= i < |s| ==> s[i] != c
    ensures ReplaceChar(s, c, rep) == s
  {
    if s != [] {
      ReplaceAbsent(s[1..], c, rep);
    }
  }

  /** No replacement text contains a character a later step replaces. */
  lemma LaterAbsent(j: nat, k: nat)
    requires j < k < |Specials|
    ensures forall i :: 0 <= i < |Specials[j].1| ==> Specials[j].1[i] != Specials[k].0
  {
  }

  lemma {:induction false} PartialCharStep(x: char, k: nat)
    requires k < |Specials|
    ensures ReplaceChar(PartialEscapeChar(x, k), Specials[k].0, Specials[k].1) == PartialEscapeChar(x, k + 1)
  {
    var j := k;
    while j > 0 && x != Specials[j - 1].0
      invariant 0 <= j <= k
      invariant PartialEscapeChar(x, k) == PartialEscapeChar(x, j)
      decreases j
    {
      j := j - 1;
    }
    if j == 0 {
      assert ReplaceChar([x], Specials[k].0, Specials[k].1) == (if x == Specials[k].0 then Specials[k].1 else [x]) + [];
    } else {
      LaterAbsent(j - 1, k);
      ReplaceAbsent(Specials[j - 1].1, Specials[k].0, Specials[k].1);
    }
  }

  /** One more `replace` turns the first `k` substitutions into the first `k + 1`. */
  lemma {:induction false} PartialStep(s: string, k: nat)
    requires k < |Specials|
    ensures ReplaceChar(PartialEscape(s, k), Specials[k].0, Specials[k].1) == PartialEscape(s, k + 1)
  {
    if s != [] {
      ReplaceConcat(PartialEscapeChar(s[0], k), PartialEscape(s[1..], k), Specials[k].0, Specials[k].1);
      PartialCharStep(s[0], k);
      PartialStep(s[1..], k);
    }
  }

  lemma AllEscaped(x: char)
    ensures PartialEscapeChar(x, |Specials|) == EscapeChar(x)
  {
    assert PartialEscapeChar(x, 9) == (if x == '^' then "\\textasciicircum{}" else PartialEscapeChar(x, 8));
    assert PartialEscapeChar(x, 7) == (if x == '}' then "\\}" else PartialEscapeChar(x, 6));
    assert PartialEscapeChar(x, 5) == (if x == '_' then "\\_" else PartialEscapeChar(x, 4));
    assert PartialEscapeChar(x, 3) == (if x == '$' then "\\$" else PartialEscapeChar(x, 2));
    assert PartialEscapeChar(x, 1) == (if x == '&' then "\\&" else [x]);
  }

  lemma {:induction false} PartialComplete(s: string)
    ensures PartialEscape(s, |Specials|) == Escape(s)
  {
    if s != [] {
      AllEscaped(s[0]);
      PartialComplete(s[1..]);
    }
  }

  lemma {:induction false} PartialNone(s: string)
    ensures PartialEscape(s, 0) == s
  {
    if s != [] {
      PartialNone(s[1..]);
    }
  }

  /** The shape of escaped text: each `& % $ # _` right after a backslash, no `~` or `^` left. */
  predicate WellEscaped(r: string) {
    (forall i :: 0 <= i < |r| && r[i] in "&%$#_" ==> i > 0 && r[i - 1] == '\\')
    && (forall i :: 0 <= i < |r| ==> r[i] != '~' && r[i] != '^')
  }

  lemma EscapeCharWellEscaped(c: char)
    ensures WellEscaped(EscapeChar(c))
    ensures EscapeChar(c)[0] !in "&%$#_"
  {
    match c
    case '&' => BackslashEscaped(c);
    case '%' => BackslashEscaped(c);
    case '$' => BackslashEscaped(c);
    case '#' => BackslashEscaped(c);
    case '_' => BackslashEscaped(c);
    case '{' => BackslashEscaped(c);
    case '}' => BackslashEscaped(c);
    case '~' => WordEscaped("\\textasciitilde{}");
    case '^' => WordEscaped("\\textasciicircum{}");
    case _ =>
  }

  /** A backslash and one character is well escaped. */
  lemma BackslashEscaped(c: char)
    requires c != '~' && c != '^'
    ensures WellEscaped(['\\', c])
  {
  }

  /** A backslash and a command made of letters and braces is well escaped. */
  lemma WordEscaped(r: string)
    requires r != [] && r[0] == '\\'
    requires forall i :: 0 < i < |r| ==> 'a' <= r[i] <= 'z' || r[i] == '{' || r[i] == '}'
    ensures WellEscaped(r)
  {
  }

  lemma {:induction false} EscapeIsWellEscaped(s: string)
    ensures WellEscaped(Escape(s))
    ensures Escape(s) != [] ==> Escape(s)[0] !in "&%$#_"
  {
    if s != [] {
      var e := EscapeChar(s[0]);
      var rest := Escape(s[1..]);
      EscapeIsWellEscaped(s[1..]);
      EscapeCharWellEscaped(s[0]);
      var r := e + rest;
      assert r == Escape(s);
      forall i | 0 <= i < |r|
        ensures r[i] in "&%$#_" ==> i > 0 && r[i - 1] == '\\'
        ensures r[i] != '~' && r[i] != '^'
      {
        if i >= |e| {
          assert rest[i - |e|] == r[i];
          if i > |e| {
            assert rest[i - |e| - 1] == r[i - 1];
          }
        } else {
          assert e[i] == r[i];
          if i > 0 {
            assert e[i - 1] == r[i - 1];
          }
        }
      }
    }
  }

  /** Text without any of the nine characters is left as it is. */
  lemma {:induction false} EscapePlain(s: string)
    requires forall i :: 0 <= i < |s| ==> s[i] !in "&%$#_{}~^"
    ensures Escape(s) == s
  {
    if s != [] {
      EscapePlain(s[1..]);
    }
  }

  /** Escaping is applied piecewise: the escape of a concatenation is the concatenation of the escapes. */
  lemma {:induction false} EscapeConcat(a: string, b: string)
    ensures Escape(a + b) == Escape(a) + Escape(b)
  {
    if a == [] {
      assert a + b == b;
    } else {
      assert (a + b)[1..] == a[1..] + b;
      EscapeConcat(a[1..], b);
    }
  }

  /** Backslashes are not escaped, so escaping twice is not escaping once: `&` gives `\&`, then `\\&`. */
  lemma EscapeTwiceDiffers(s: string)
    requires s == "&"
    ensures Escape(s) == "\\&"
    ensures Escape(Escape(s)) != Escape(s)
  {
    assert Escape(s) == EscapeChar('&') + Escape([]);
    var e := Escape(s);
    assert e[1..] == "&";
    assert Escape(e[1..]) == EscapeChar('&') + Escape([]);
    assert |Escape(e)| == 3;
  }

  // ---------------------------------------------------------------------------
  // detect_chinese / has_chinese_content
  // ---------------------------------------------------------------------------

  /** The texts `has_chinese_content` looks at: title, abstract, the joined keywords, then each top-level section's heading and content. */
  function ScannedTexts(c: Content): seq<string> {
    [c.title, c.abstractText, Join(c.keywords, " ")] + SectionTexts(c.sections)
  }

  function SectionTexts(secs: seq<Section>): seq<string> {
    if secs == [] then []
    else
      var last := secs[|secs| - 1];
      SectionTexts(secs[..|secs| - 1]) + [last.heading] + last.content
  }

  /** `has_chinese_content`: some scanned text contains a CJK ideograph (`detect_chinese`). */
  predicate IsChinese(c: Content) {
    exists i :: 0 <= i < |ScannedTexts(c)| && HasCjk(ScannedTexts(c)[i])
  }

  /** `has_chinese_content`, building its list of texts and then testing each. */
  method HasChineseContent(c: Content) returns (b: bool)
    ensures b == IsChinese(c)
  {
    var texts := [c.title, c.abstractText, Join(c.keywords, " ")];
    for i := 0 to |c.sections|
      invariant texts == [c.title, c.abstractText, Join(c.keywords, " ")] + SectionTexts(c.sections[..i])
    {
      assert c.sections[..i + 1][..i] == c.sections[..i];
      texts := texts + [c.sections[i].heading] + c.sections[i].content;
    }
    assert c.sections[..|c.sections|] == c.sections;
    assert texts == ScannedTexts(c);
    b := false;
    for i := 0 to |texts|
      invariant b <==> exists j :: 0 <= j < i && HasCjk(texts[j])
    {
      if HasCjk(texts[i]) {
        b := true;
      }
    }
  }

  lemma {:induction false} CjkConcat(a: string, b: string)
    ensures HasCjk(a + b) <==> HasCjk(a) || HasCjk(b)
  {
    if HasCjk(a + b) {
      var i :| 0 <= i < |a + b| && IsCjk((a + b)[i]);
      if i >= |a| {
        assert b[i - |a|] == (a + b)[i];
      }
    }
    if HasCjk(a) {
      var i :| 0 <= i < |a| && IsCjk(a[i]);
      assert (a + b)[i] == a[i];
    }
    if HasCjk(b) {
      var i :| 0 <= i < |b| && IsCjk(b[i]);
      assert (a + b)[|a| + i] == b[i];
    }
  }

  /** A separator without ideographs: the joined text has one exactly when some part has one. */
  lemma {:induction false} CjkJoin(parts: seq<string>, sep: string)
    requires !HasCjk(sep)
    ensures HasCjk(Join(parts, sep)) <==> exists k :: 0 <= k < |parts| && HasCjk(parts[k])
    decreases |parts|
  {
    if |parts| > 1 {
      CjkJoin(parts[1..], sep);
      CjkConcat(parts[0] + sep, Join(parts[1..], sep));
      CjkConcat(parts[0], sep);
      if exists k :: 0 <= k < |parts| && HasCjk(parts[k]) {
        var k :| 0 <= k < |parts| && HasCjk(parts[k]);
        if k > 0 {
          assert parts[1..][k - 1] == parts[k];
        }
      }
      if exists k :: 0 <= k < |parts[1..]| && HasCjk(parts[1..][k]) {
        var k :| 0 <= k < |parts[1..]| && HasCjk(parts[1..][k]);
        assert parts[k + 1] == parts[1..][k];
      }
    }
  }

  /** A top-level section the detector reads: its heading or one of its paragraphs has an ideograph. */
  predicate ChineseSection(s: Section) {
    HasCjk(s.heading) || exists j :: 0 <= j < |s.content| && HasCjk(s.content[j])
  }

  lemma {:induction false} SectionTextsCjk(secs: seq<Section>)
    ensures (exists i :: 0 <= i < |SectionTexts(secs)| && HasCjk(SectionTexts(secs)[i]))
        <==> exists k :: 0 <= k < |secs| && ChineseSection(secs[k])
  {
    if secs != [] {
      var n := |secs| - 1;
      var pre := SectionTexts(secs[..n]);
      var last := secs[n];
      var ts := SectionTexts(secs);
      assert ts == pre + [last.heading] + last.content;
      SectionTextsCjk(secs[..n]);
      if exists i :: 0 <= i < |ts| && HasCjk(ts[i]) {
        var i :| 0 <= i < |ts| && HasCjk(ts[i]);
        if i < |pre| {
          assert pre[i] == ts[i];
          var k :| 0 <= k < n && ChineseSection(secs[..n][k]);
          assert secs[k] == secs[..n][k];
        } else if i == |pre| {
          assert ChineseSection(secs[n]);
        } else {
          assert last.content[i - |pre| - 1] == ts[i];
          assert ChineseSection(secs[n]);
        }
      }
      if exists k :: 0 <= k < |secs| && ChineseSection(secs[k]) {
        var k :| 0 <= k < |secs| && ChineseSection(secs[k]);
        if k < n {
          assert secs[..n][k] == secs[k];
          var i :| 0 <= i < |pre| && HasCjk(pre[i]);
          assert ts[i] == pre[i];
        } else if HasCjk(last.heading) {
          assert ts[|pre|] == last.heading;
        } else {
          var j :| 0 <= j < |last.content| && HasCjk(last.content[j]);
          assert ts[|pre| + 1 + j] == last.content[j];
        }
      }
    }
  }

  /**
   * What the detector reads: the title, the abstract, any keyword, and the
   * headings and paragraphs of top-level sections; not the authors,
   * affiliations, acknowledgments, references or subsections.
   */
  lemma ChineseContentFields(c: Content)
    ensures IsChinese(c) <==>
      HasCjk(c.title) || HasCjk(c.abstractText)
      || (exists k :: 0 <= k < |c.keywords| && HasCjk(c.keywords[k]))
      || (exists k :: 0 <= k < |c.sections| && ChineseSection(c.sections[k]))
  {
    assert !HasCjk(" ");
    CjkJoin(c.keywords, " ");
    SectionTextsCjk(c.sections);
    ScanFront(ScannedTexts(c), c.title, c.abstractText, Join(c.keywords, " "), SectionTexts(c.sections));
  }

  /** Some text of `[a, b, c] + rest` has CJK exactly when one of `a`, `b`, `c` or some text of `rest` has. */
  lemma ScanFront(ts: seq<string>, a: string, b: string, k: string, rest: seq<string>)
    requires ts == [a, b, k] + rest
    ensures (exists i :: 0 <= i < |ts| && HasCjk(ts[i])) <==>
      HasCjk(a) || HasCjk(b) || HasCjk(k) || exists i :: 0 <= i < |rest| && HasCjk(rest[i])
  {
    if exists i :: 0 <= i < |rest| && HasCjk(rest[i]) {
      var i :| 0 <= i < |rest| && HasCjk(rest[i]);
      assert ts[3 + i] == rest[i];
    }
    if exists i :: 0 <= i < |ts| && HasCjk(ts[i]) {
      var i :| 0 <= i < |ts| && HasCjk(ts[i]);
      if i >= 3 {
        assert rest[i - 3] == ts[i];
      }
    }
    assert ts[0] == a && ts[1] == b && ts[2] == k;
  }

  // ---------------------------------------------------------------------------
  // pt_to_latex_size
  // ---------------------------------------------------------------------------

  /** The point sizes of the standard size commands, smallest first. */
  const SizeTable: seq<(int, string)> := [
    (5, "\\tiny"), (7, "\\scriptsize"), (8, "\\footnotesize"), (9, "\\small"),
    (10, "\\normalsize"), (11, "\\normalsize"), (12, "\\large"), (14, "\\Large"),
    (17, "\\LARGE"), (20, "\\huge"), (25, "\\Huge")]

  /** `abs(size - x)`, scaled by `10^scale` so that distances from the same `x` compare exactly. */
  function Dist(x: Number, size: int): nat {
    Abs(size * Pow10(x.scale) - x.digits)
  }

  /** `min(size_map[:k], key=...)`: the first of the first `k` entries at least distance from `x`. */
  function Nearest(x: Number, k: nat): (i: nat)
    requires 1 <= k <= |SizeTable|
    ensures i < k
    ensures forall j :: 0 <= j < k ==> Dist(x, SizeTable[i].0) <= Dist(x, SizeTable[j].0)
    ensures forall j :: 0 <= j < i ==> Dist(x, SizeTable[i].0) < Dist(x, SizeTable[j].0)
  {
    if k == 1 then 0
    else
      var i := Nearest(x, k - 1);
      if Dist(x, SizeTable[k - 1].0) < Dist(x, SizeTable[i].0) then k - 1 else i
  }

  /** A control word: a backslash and then a letter, not a second backslash. */
  predicate IsCommand(s: string) {
    |s| > 1 && s[0] == '\\' && s[1] != '\\'
  }

  lemma SizeCommands()
    ensures forall i :: 0 <= i < |SizeTable| ==> IsCommand(SizeTable[i].1)
  {
    forall i | 0 <= i < |SizeTable| ensures IsCommand(SizeTable[i].1) {
      var c := SizeTable[i].1;
      assert c[0] == '\\' && c[1] in "tsfnlLhH";
    }
  }

  /** `pt_to_latex_size`: `None` for `None`, else the command of the nearest table size. */
  function PtToLatexSize(pt: Value): (r: Option<string>)
    requires pt != Null ==> FloatOf(pt).Some?
    ensures r.None? <==> pt == Null
    ensures r.Some? ==> exists i :: 0 <= i < |SizeTable| && r.value == SizeTable[i].1
    ensures pt != Null ==>
      exists i :: (0 <= i < |SizeTable| && r == Some(SizeTable[i].1) &&
        (forall j :: 0 <= j < |SizeTable| ==> Dist(FloatOf(pt).value, SizeTable[i].0) <= Dist(FloatOf(pt).value, SizeTable[j].0)) &&
        (forall j :: 0 <= j < i ==> Dist(FloatOf(pt).value, SizeTable[i].0) < Dist(FloatOf(pt).value, SizeTable[j].0)))
  {
    if pt == Null then None
    else
      var i := Nearest(FloatOf(pt).value, |SizeTable|);
      Some(SizeTable[i].1)
  }

  /** A tie goes to the earlier, smaller entry: 6pt is `\tiny`, not `\scriptsize`. */
  lemma SixPointIsTiny()
    ensures PtToLatexSize(Num(Int(6))) == Some("\\tiny")
  {
    var x := Int(6);
    var i := Nearest(x, |SizeTable|);
    assert Pow10(0) == 1;
    assert Dist(x, SizeTable[0].0) == 1;
    assert Dist(x, SizeTable[i].0) <= 1;
    assert i <= 1;
    assert Dist(x, SizeTable[1].0) == 1;
  }

  /** 13pt lies halfway between 12 and 14 and gets `\large`. */
  lemma ThirteenPointIsLarge()
    ensures PtToLatexSize(Num(Int(13))) == Some("\\large")
  {
    var x := Int(13);
    var i := Nearest(x, |SizeTable|);
    assert Pow10(0) == 1;
    assert Dist(x, SizeTable[6].0) == 1;
    assert Dist(x, SizeTable[i].0) <= 1;
    assert 6 <= i <= 7;
    assert Dist(x, SizeTable[7].0) == 1;
  }

  // ---------------------------------------------------------------------------
  // The page entry the builders read
  // ---------------------------------------------------------------------------

  /**
   * `layout[0] if isinstance(layout, list) and layout else layout` after
   * `style_rules.get("page_layout", [{}])`, as written: `None` stands for the
   * `AttributeError` of calling `.get` on an empty list.
   */
  function LatexPageAsWritten(layout: Layout): Option<PageInfo> {
    match layout
    case Missing => Some(EmptyPage)
    case Sections(entries) => if entries == [] then None else Some(entries[0])
    case Single(e) => Some(e)
  }

  /** An empty `page_layout` list reaches `[].get(...)`, while a missing one reads as `{}`. */
  lemma EmptyLayoutRaises()
    ensures LatexPageAsWritten(Sections([])).None?
    ensures LatexPageAsWritten(Missing) == Some(EmptyPage)
  {
  }

  /**
   * The page entry with an empty list read as no layout, as the formatter's
   * `if not layout: return` does; it agrees with the code wherever that does not raise.
   */
  function LatexPage(layout: Layout): (e: PageInfo)
    ensures LatexPageAsWritten(layout).Some? ==> e == LatexPageAsWritten(layout).value
    ensures layout == Sections([]) ==> e == EmptyPage
  {
    match layout
    case Missing => EmptyPage
    case Sections(entries) => if entries == [] then EmptyPage else entries[0]
    case Single(e) => e
  }

  /** `para_fmt.get(role, {})` */
  function RoleRecord(formatting: map<string, Format>, role: string): Format {
    if role in formatting then formatting[role] else map[]
  }

  // ---------------------------------------------------------------------------
  // build_document_class
  // ---------------------------------------------------------------------------

  /**
   * Python's `int(v)`: a number truncated toward zero, a flag as 1 or 0, a
   * string read as a whole number; `None` where it raises.
   */
  function IntOf(v: Value): (r: Option<int>)
    ensures v.Num? ==> (r.Some? && Abs(r.value) * Pow10(v.n.scale) <= Abs(v.n.digits) < (Abs(r.value) + 1) * Pow10(v.n.scale)
                         && (r.value < 0 ==> v.n.digits < 0) && (r.value > 0 ==> v.n.digits > 0))
    ensures v.Num? && v.n.scale == 0 ==> r == Some(v.n.digits)
    ensures v.Flag? ==> r == Some(if v.b then 1 else 0)
    ensures v.Text? ==> r == ParseInt(v.s) && (r.Some? ==> FloatOf(v) == Some(Int(r.value)))
    ensures v.Null? || v.List? ==> r.None?
  {
    match v
    case Num(n) =>
      TruncDivBounds(n.digits, Pow10(n.scale));
      Some(TruncDiv(n.digits, Pow10(n.scale)))
    case Flag(b) => Some(if b then 1 else 0)
    case Text(s) => ParseInt(s)
    case _ => None
  }

  /** Truncating division drops the fraction: the quotient's magnitude is the whole part of `|a| / b`. */
  lemma TruncDivBounds(a: int, b: nat)
    requires b > 0
    ensures Abs(TruncDiv(a, b)) * b <= Abs(a) < (Abs(TruncDiv(a, b)) + 1) * b
  {
    var q := Abs(a) / b;
    assert Abs(TruncDiv(a, b)) == q;
    assert q * b + Abs(a) % b == Abs(a);
  }

  /** A size written as text is read by `int()`: `["12"]` gives the base size 12, and a decimal text is refused. */
  lemma TextBaseSize()
    ensures IntOf(Text("12")) == Some(12)
    ensures IntOf(Text("12.5")).None?
    ensures var body := map[FontSizes := List([Text("12")])]; BaseSizeReadable(body) && FirstSize(body) == 12
  {
    TwelveText("12");
    DecimalText("12.5");
  }

  lemma TwelveText(s: string)
    requires s == "12"
    ensures ParseInt(s) == Some(12)
  {
    assert LStrip(s) == s;
    assert RStrip(s) == s;
    assert Strip(s) == s;
    assert DigitRun(s, 0) == 2;
    assert s[..1] == "1" && s[..1][..0] == "";
    assert DigitsValue(s[..1]) == 1;
    assert DigitsValue(s) == 12;
  }

  lemma DecimalText(s: string)
    requires s == "12.5"
    ensures ParseInt(s).None?
  {
    assert LStrip(s) == s;
    assert RStrip(s) == s;
    assert Strip(s)[2] == '.';
  }

  /** `body.get("font_sizes_pt", [12])` */
  function BaseSizes(body: Format): Value {
    if FontSizes in body then body[FontSizes] else Nums([Int(12)])
  }

  /** `int(sizes[0])` does not raise when the list is non-empty. */
  predicate BaseSizeReadable(body: Format) {
    var sizes := BaseSizes(body);
    Truthy(sizes) ==> sizes.List? && IntOf(sizes.items[0]).Some?
  }

  /** `int(sizes[0]) if sizes else 12` */
  function FirstSize(body: Format): int
    requires BaseSizeReadable(body)
  {
    var sizes := BaseSizes(body);
    if Truthy(sizes) then IntOf(sizes.items[0]).value else 12
  }

  /** The base size: the smallest of 10, 11 and 12 not below `size`, and 12 when `size` is above all three. */
  function SnapBase(size: int): (r: int)
    ensures r == 10 || r == 11 || r == 12
    ensures size <= 12 ==> size <= r
    ensures r == 10 || r - 1 < size
    ensures size > 12 ==> r == 12
  {
    if size <= 10 then 10 else if size <= 11 then 11 else 12
  }

  /** `sec.get("paper_size", "A4")` is a string, so `.lower()` does not raise. */
  predicate PaperReadable(sec: PageInfo) {
    sec.paperSize.None? || sec.paperSize.value.Text?
  }

  /** `sec.get("paper_size", "A4").lower()` contains `a4`. */
  predicate A4Paper(sec: PageInfo)
    requires PaperReadable(sec)
  {
    Contains(Lower(if sec.paperSize.Some? then sec.paperSize.value.s else "A4"), "a4")
  }

  /** `columns == 2` for `sec.get("columns", 1)`, comparing numbers by value. */
  predicate TwoColumns(sec: PageInfo) {
    sec.columns.Some? && sec.columns.value.digits == 2 * Pow10(sec.columns.value.scale)
  }

  /** `build_document_class` */
  function DocumentClass(body: Format, sec: PageInfo, chinese: bool): string
    requires BaseSizeReadable(body) && PaperReadable(sec)
  {
    var opts := [NatToString(SnapBase(FirstSize(body)) as nat) + "pt", if A4Paper(sec) then "a4paper" else "letterpaper"]
      + (if TwoColumns(sec) then ["twocolumn"] else []);
    "\\documentclass[" + Join(opts, ", ") + "]" + (if chinese then "{ctexart}" else "{article}")
  }

  lemma {:induction false} AbsentCharNotContained(s: string, p: string, j: nat)
    requires j < |p|
    requires forall i :: 0 <= i < |s| ==> s[i] != p[j]
    ensures !Contains(s, p)
  {
    forall i | 0 <= i <= |s| - |p|
      ensures !OccursAt(s, p, i)
    {
      assert s[i..i + |p|][j] == s[i + j];
    }
  }

  /** The analyser's paper labels: `A4` selects `a4paper`, `Letter` and `custom` select `letterpaper`. */
  lemma PaperLabels(sec: PageInfo)
    ensures sec.paperSize == Some(Text("A4")) ==> A4Paper(sec)
    ensures sec.paperSize == Some(Text("Letter")) ==> !A4Paper(sec)
    ensures sec.paperSize == Some(Text("custom")) ==> !A4Paper(sec)
    ensures sec.paperSize.None? ==> A4Paper(sec)
    ensures sec.paperSize == Some(Null) ==> !PaperReadable(sec)
  {
    LabelA4();
    LabelLetter();
    LabelCustom();
  }

  lemma LabelA4()
    ensures Contains(Lower("A4"), "a4")
  {
    assert Lower("A4") == "a4";
    assert OccursAt("a4", "a4", 0);
  }

  lemma LabelLetter()
    ensures !Contains(Lower("Letter"), "a4")
  {
    assert Lower("Letter") == "letter";
    AbsentCharNotContained("letter", "a4", 1);
  }

  lemma LabelCustom()
    ensures !Contains(Lower("custom"), "a4")
  {
    assert Lower("custom") == "custom";
    AbsentCharNotContained("custom", "a4", 1);
  }

  // ---------------------------------------------------------------------------
  // build_geometry
  // ---------------------------------------------------------------------------

  /** `f"{name}={x}cm"` */
  function MarginOption(name: string, x: Number): string {
    name + "=" + Show(x) + "cm"
  }

  function MarginIf(name: string, x: Option<Number>): seq<string> {
    if Set(x) then [MarginOption(name, x.value)] else []
  }

  /** The options for the margins that are set, in the order top, bottom, left, right. */
  function MarginParts(sec: PageInfo): seq<string> {
    MarginIf("top", sec.topCm) + MarginIf("bottom", sec.bottomCm) + MarginIf("left", sec.leftCm) + MarginIf("right", sec.rightCm)
  }

  const DefaultMargins: seq<string> := ["top=2.54cm", "bottom=2.54cm", "left=2.54cm", "right=2.54cm"]

  /** `build_geometry` */
  function Geometry(sec: PageInfo): string {
    var parts := MarginParts(sec);
    "\\usepackage[" + Join(if parts == [] then DefaultMargins else parts, ", ") + "]{geometry}"
  }

  /** One option per set margin, each printing the margin's value; the one-inch default only when none is set. */
  lemma GeometryOptions(sec: PageInfo)
    ensures var parts := MarginParts(sec);
      |parts| == (if Set(sec.topCm) then 1 else 0) + (if Set(sec.bottomCm) then 1 else 0)
        + (if Set(sec.leftCm) then 1 else 0) + (if Set(sec.rightCm) then 1 else 0)
    ensures Set(sec.topCm) ==> MarginParts(sec)[0] == "top=" + Show(sec.topCm.value) + "cm"
    ensures MarginParts(sec) == [] <==> !Set(sec.topCm) && !Set(sec.bottomCm) && !Set(sec.leftCm) && !Set(sec.rightCm)
    ensures Geometry(sec) == "\\usepackage[" + Join(if MarginParts(sec) == [] then DefaultMargins else MarginParts(sec), ", ") + "]{geometry}"
  {
  }

  // ---------------------------------------------------------------------------
  // build_font_config
  // ---------------------------------------------------------------------------

  /** `font_names` is absent or a list of names, so the loops can read each name's characters. */
  predicate NamesReadable(fmt: Format) {
    FontNames !in fmt || (fmt[FontNames].List? && forall i :: 0 <= i < |fmt[FontNames].items| ==> fmt[FontNames].items[i].Text?)
  }

  /** `fmt.get("font_names", [])` as a list of names. */
  function NamesOf(fmt: Format): (r: seq<string>)
    requires NamesReadable(fmt)
    ensures FontNames in fmt ==> |r| == |fmt[FontNames].items| && forall i :: 0 <= i < |r| ==> fmt[FontNames].items[i] == Text(r[i])
    ensures FontNames !in fmt ==> r == []
  {
    if FontNames !in fmt then []
    else
      var items := fmt[FontNames].items;
      seq(|items|, i requires 0 <= i < |items| && items[i].Text? => items[i].s)
  }

  /** The name the `for fn in font_names: ... break` loops stop at: the first whose CJK test gives `cjk`. */
  function FirstFont(names: seq<string>, cjk: bool): Option<string> {
    if names == [] then None
    else if HasCjk(names[0]) == cjk then Some(names[0])
    else FirstFont(names[1..], cjk)
  }

  /** `FirstFont` finds nothing exactly when no name passes the test, and otherwise the earliest name that does. */
  lemma {:induction false} FirstFontIsFirst(names: seq<string>, cjk: bool)
    ensures FirstFont(names, cjk).None? <==> forall i :: 0 <= i < |names| ==> HasCjk(names[i]) != cjk
    ensures FirstFont(names, cjk).Some? ==> exists i :: (0 <= i < |names| && names[i] == FirstFont(names, cjk).value
      && HasCjk(names[i]) == cjk && forall j :: 0 <= j < i ==> HasCjk(names[j]) != cjk)
  {
    if names != [] && HasCjk(names[0]) != cjk {
      var r := FirstFont(names[1..], cjk);
      FirstFontIsFirst(names[1..], cjk);
      assert forall i :: 1 <= i < |names| ==> names[i] == names[1..][i - 1];
      if r.Some? {
        var i :| 0 <= i < |names[1..]| && names[1..][i] == r.value && HasCjk(names[1..][i]) == cjk
          && forall j :: 0 <= j < i ==> HasCjk(names[1..][j]) != cjk;
        assert names[i + 1] == r.value;
      }
    }
  }

  /** One of the font loops: scan in order, stop at the first name whose CJK test gives `cjk`. */
  method FindFont(names: seq<string>, cjk: bool) returns (r: Option<string>)
    ensures r == FirstFont(names, cjk)
  {
    r := None;
    var i := 0;
    while i < |names|
      invariant 0 <= i <= |names|
      invariant forall j :: 0 <= j < i ==> HasCjk(names[j]) != cjk
      invariant FirstFont(names, cjk) == FirstFont(names[i..], cjk)
    {
      if HasCjk(names[i]) == cjk {
        r := Some(names[i]);
        return;
      }
      assert names[i..][1..] == names[i + 1..];
      i := i + 1;
    }
  }

  /** `\setmainfont` with the name found, Times New Roman when none (or an empty one) is. */
  function MainFontLine(main: Option<string>): string {
    if NonEmpty(main) then "\\setmainfont{" + main.value + "}" else "\\setmainfont{Times New Roman}"
  }

  /** The xeCJK lines: the CJK body font found (or a commented-out placeholder), then the CJK heading font if one is found. */
  function CjkFontLines(cn: Option<string>, cnHeading: Option<string>): seq<string> {
    ["\\usepackage{xeCJK}",
     if NonEmpty(cn) then "\\setCJKmainfont{" + cn.value + "}"
     else "% \\setCJKmainfont{SimSun}  % Uncomment and set appropriate Chinese font"]
    + (if NonEmpty(cnHeading) then ["\\setCJKsansfont{" + cnHeading.value + "}"] else [])
  }

  /** The lines of `build_font_config`. */
  function FontConfigLines(body: Format, heading: Format, chinese: bool): seq<string>
    requires NamesReadable(body) && (chinese ==> NamesReadable(heading))
  {
    ["\\usepackage{fontspec}", MainFontLine(FirstFont(NamesOf(body), false))]
    + if chinese then CjkFontLines(FirstFont(NamesOf(body), true), FirstFont(NamesOf(heading), true)) else []
  }

  /** `build_font_config` */
  method BuildFontConfig(body: Format, heading: Format, chinese: bool) returns (text: string)
    requires NamesReadable(body) && (chinese ==> NamesReadable(heading))
    ensures text == Join(FontConfigLines(body, heading, chinese), "\n")
  {
    var names := NamesOf(body);
    var main := FindFont(names, false);
    var lines := ["\\usepackage{fontspec}", MainFontLine(main)];
    if chinese {
      var cn := FindFont(names, true);
      var cnHeading := FindFont(NamesOf(heading), true);
      lines := lines + CjkFontLines(cn, cnHeading);
    }
    text := Join(lines, "\n");
  }

  /** The main font is never a CJK name, and the CJK main font, when named, always is. */
  lemma FontSlots(body: Format, heading: Format, chinese: bool)
    requires NamesReadable(body) && (chinese ==> NamesReadable(heading))
    ensures var main := FirstFont(NamesOf(body), false);
      main.Some? ==> !HasCjk(main.value)
    ensures var cn := FirstFont(NamesOf(body), true);
      cn.Some? ==> HasCjk(cn.value)
    ensures !chinese ==> |FontConfigLines(body, heading, chinese)| == 2
  {
    FirstFontIsFirst(NamesOf(body), false);
    FirstFontIsFirst(NamesOf(body), true);
  }

  // ---------------------------------------------------------------------------
  // build_spacing_config
  // ---------------------------------------------------------------------------

  /** `x <= t / 10`, compared exactly on the decimal. */
  predicate AtMostTenths(x: Number, t: int) {
    x.digits * 10 <= t * Pow10(x.scale)
  }

  /** The stretch command for a multiple: single up to 1.1, one-half up to 1.6, double up to 2.1, else the factor itself. */
  function StretchCommand(x: Number): string {
    if AtMostTenths(x, 11) then "\\singlespacing"
    else if AtMostTenths(x, 16) then "\\onehalfspacing"
    else if AtMostTenths(x, 21) then "\\doublespacing"
    else "\\setstretch{" + ShowFloat(x) + "}"
  }

  /** The exact comparison is the comparison of the values the decimals denote. */
  lemma AtMostTenthsIsReal(x: Number, t: int)
    ensures AtMostTenths(x, t) <==> Real(x) <= t as real / 10.0
  {
    var p := Pow10(x.scale) as real;
    assert Real(x) == x.digits as real / p;
    assert Real(x) <= t as real / 10.0 <==> x.digits as real * 10.0 <= t as real * p;
  }

  /** The `"<x>pt"` string is read as exact points; `float` raises on anything else, which is not caught. */
  predicate SpacingReadable(body: Format) {
    var v := Get(body, LineSpacing);
    v.Text? && EndsWith(v.s, "pt") ==> Parse(RemoveAll(v.s, "pt")).Some?
  }

  /** The lines for a spacing given in points: natural stretch and a baseline skip of that many points. */
  function PointLines(x: Number): seq<string> {
    ["\\setstretch{1.0}", "\\setlength{\\baselineskip}{" + ShowFloat(x) + "pt}"]
  }

  /** The lines of `build_spacing_config`. */
  function SpacingLines(body: Format): seq<string>
    requires SpacingReadable(body)
  {
    var v := Get(body, LineSpacing);
    ["\\usepackage{setspace}"]
    + if !Truthy(v) then []
      else if v.Text? && EndsWith(v.s, "pt") then PointLines(Parse(RemoveAll(v.s, "pt")).value)
      else match FloatOf(v)
        case None => ["\\onehalfspacing"]
        case Some(x) => [StretchCommand(x)]
  }

  /** A multiple up to 1.1 is single spacing, up to 1.6 one-half, up to 2.1 double, and any larger one a stretch by itself. */
  lemma StretchThresholds(x: Number)
    ensures Real(x) <= 1.1 ==> StretchCommand(x) == "\\singlespacing"
    ensures 1.1 < Real(x) <= 1.6 ==> StretchCommand(x) == "\\onehalfspacing"
    ensures 1.6 < Real(x) <= 2.1 ==> StretchCommand(x) == "\\doublespacing"
    ensures 2.1 < Real(x) ==> StretchCommand(x) == "\\setstretch{" + ShowFloat(x) + "}"
  {
    AtMostTenthsIsReal(x, 11);
    AtMostTenthsIsReal(x, 16);
    AtMostTenthsIsReal(x, 21);
  }

  /**
   * Without a spacing only the package is loaded; a text that is neither
   * `"<x>pt"` nor a number falls back to one-half spacing; a number selects its
   * command by the thresholds.
   */
  lemma SpacingFallbacks(body: Format)
    ensures !Truthy(Get(body, LineSpacing)) ==> SpacingReadable(body) && SpacingLines(body) == ["\\usepackage{setspace}"]
    ensures var v := Get(body, LineSpacing);
      v.Text? && v.s != [] && !EndsWith(v.s, "pt") && Parse(v.s).None? ==>
        SpacingReadable(body) && SpacingLines(body) == ["\\usepackage{setspace}", "\\onehalfspacing"]
    ensures var v := Get(body, LineSpacing);
      v.Num? && v.n.digits != 0 ==> SpacingReadable(body) && SpacingLines(body) == ["\\usepackage{setspace}", StretchCommand(v.n)]
  {
  }

  /** The analyser's exact or at-least spacing `"<x>pt"` becomes a baseline skip of `x` points. */
  lemma RecordedPointSpacing(body: Format, x: Number)
    requires Get(body, LineSpacing) == Text(ShowFloat(x) + "pt")
    ensures SpacingReadable(body)
    ensures SpacingLines(body) == ["\\usepackage{setspace}"] + PointLines(x)
  {
    PointTextParses(x);
    PointSpacingLines(body, ShowFloat(x) + "pt");
    assert PointLines(Canon(x)) == PointLines(x);
  }

  /** A spacing text ending in `pt` that reads as a number gives the point lines for that number. */
  lemma PointSpacingLines(body: Format, s: string)
    requires Get(body, LineSpacing) == Text(s) && EndsWith(s, "pt") && Parse(RemoveAll(s, "pt")).Some?
    ensures SpacingReadable(body)
    ensures SpacingLines(body) == ["\\usepackage{setspace}"] + PointLines(Parse(RemoveAll(s, "pt")).value)
  {
    assert s != [];
  }

  /** `"<x>pt"` ends in `pt`, and what is left once `pt` is removed reads back as `x`, printed the same way. */
  lemma PointTextParses(x: Number)
    ensures var s := ShowFloat(x) + "pt";
      EndsWith(s, "pt") && Parse(RemoveAll(s, "pt")) == Some(Canon(x)) && ShowFloat(Canon(x)) == ShowFloat(x)
  {
    var s := ShowFloat(x) + "pt";
    assert s[|s| - 2..] == "pt";
    ShowChars(Canon(x));
    RemovePtAfterNumber(ShowFloat(x));
    ParseShow(Canon(x));
    CanonCanon(x);
  }

  // ---------------------------------------------------------------------------
  // build_heading_config
  // ---------------------------------------------------------------------------

  /** The heading record can be read: an indexable size list whose first entry `float` accepts. */
  predicate HeadingReadable(fmt: Format) {
    var sizes := if FontSizes in fmt then fmt[FontSizes] else List([]);
    Truthy(sizes) ==> sizes.List? && (sizes.items[0] != Null ==> FloatOf(sizes.items[0]).Some?)
  }

  /**
   * The font switches of a heading: the size command when the first size is
   * given, then `\bfseries` (bold is the default when the key is absent, but a
   * present `null` is not bold) or `\normalfont`, then `\itshape` when italic.
   */
  function FontSpec(fmt: Format): (r: string)
    requires HeadingReadable(fmt)
    ensures |r| > 1 && r[0] == '\\' && r[1] != '\\'
  {
    var sizes := if FontSizes in fmt then fmt[FontSizes] else List([]);
    var sizeCmd := if Truthy(sizes) then PtToLatexSize(sizes.items[0]) else None;
    var bold := if Bold in fmt then Truthy(fmt[Bold]) else true;
    var base := (if bold then "\\bfseries" else "\\normalfont") + (if Truthy(Get(fmt, Italic)) then "\\itshape" else "");
    if sizeCmd.Some? then
      SizeCommands();
      sizeCmd.value + base
    else base
  }

  /** Python's `s.lstrip("\\")`. */
  function LStripBackslash(s: string): (r: string)
    ensures |r| <= |s|
  {
    if s != [] && s[0] == '\\' then LStripBackslash(s[1..]) else s
  }

  /** The `f"{{\\{font_spec.lstrip(chr(92))}}}"` step gives back the font switches unchanged. */
  lemma FontSpecKept(fmt: Format)
    requires HeadingReadable(fmt)
    ensures "\\" + LStripBackslash(FontSpec(fmt)) == FontSpec(fmt)
  {
    var f := FontSpec(fmt);
    assert LStripBackslash(f) == LStripBackslash(f[1..]);
    assert LStripBackslash(f[1..]) == f[1..];
  }

  /** `fmt.get(key, default)` printed with `str`. */
  function Printed(fmt: Format, k: Key, default: string): string {
    if k in fmt then PyStr(fmt[k]) else default
  }

  /** The `\titleformat` line: the font switches, the number, a 1em gap, centring when asked. */
  function TitleFormat(cmd: string, spec: string, centred: bool): string {
    "\\titleformat{\\" + cmd + "}" + "{\\" + spec + "}" + "{\\the" + cmd + "}" + "{1em}"
      + "{" + (if centred then "\\filcenter" else "") + "}"
  }

  /** The `\titlespacing*` line: no left indent, the space before and after in points. */
  function TitleSpacing(cmd: string, before: string, after: string): string {
    "\\titlespacing*{\\" + cmd + "}{0pt}{" + before + "pt}{" + after + "pt}"
  }

  /** The two lines for one heading command. */
  function HeadingLines(fmt: Format, cmd: string): seq<string>
    requires HeadingReadable(fmt)
  {
    var centred := (if Alignment in fmt then fmt[Alignment] else Text("left")) == Text("center");
    [TitleFormat(cmd, LStripBackslash(FontSpec(fmt)), centred),
     TitleSpacing(cmd, Printed(fmt, SpaceBefore, "12"), Printed(fmt, SpaceAfter, "6"))]
  }

  /** The heading levels `build_heading_config` configures, with their commands. */
  const HeadingCommands: seq<(string, string)> := [("heading_1", "section"), ("heading_2", "subsection"), ("heading_3", "subsubsection")]

  predicate HeadingsReadable(formatting: map<string, Format>) {
    forall k :: 0 <= k < |HeadingCommands| ==> HeadingReadable(RoleRecord(formatting, HeadingCommands[k].0))
  }

  /** The lines for the first `k` heading levels. */
  function HeadingBlocks(formatting: map<string, Format>, k: nat): seq<string>
    requires k <= |HeadingCommands| && HeadingsReadable(formatting)
  {
    if k == 0 then []
    else HeadingBlocks(formatting, k - 1) + HeadingLines(RoleRecord(formatting, HeadingCommands[k - 1].0), HeadingCommands[k - 1].1)
  }

  /** `build_heading_config` */
  method BuildHeadingConfig(formatting: map<string, Format>) returns (text: string)
    requires HeadingsReadable(formatting)
    ensures text == Join(["\\usepackage{titlesec}"] + HeadingBlocks(formatting, |HeadingCommands|), "\n")
  {
    var lines := ["\\usepackage{titlesec}"];
    for k := 0 to |HeadingCommands|
      invariant lines == ["\\usepackage{titlesec}"] + HeadingBlocks(formatting, k)
    {
      var (role, cmd) := HeadingCommands[k];
      var fmt := RoleRecord(formatting, role);
      lines := lines + HeadingLines(fmt, cmd);
    }
    text := Join(lines, "\n");
  }

  /** Without a record for the level, a heading is bold, not centred, with 12pt before and 6pt after. */
  lemma MissingHeadingDefaults(cmd: string)
    ensures HeadingReadable(map[])
    ensures HeadingLines(map[], cmd) == [TitleFormat(cmd, "bfseries", false), TitleSpacing(cmd, "12", "6")]
  {
    assert FontSpec(map[]) == "\\bfseries";
    assert LStripBackslash("\\bfseries") == LStripBackslash("bfseries") == "bfseries";
  }

  /** A spacing given as a list is printed as Python shows the list: `[12]` gives `[12]pt`. */
  lemma ListSpacingPrinted(cmd: string)
    ensures var fmt := map[SpaceBefore := List([Num(Int(12))])];
      HeadingReadable(fmt) && HeadingLines(fmt, cmd)[1] == TitleSpacing(cmd, "[12]", "6")
  {
    var fmt := map[SpaceBefore := List([Num(Int(12))])];
    assert Show(Int(12)) == "12";
    assert PyStr(List([Num(Int(12))])) == "[12]";
  }

  /** A present `null` bold is not the absent default: the heading is set in `\normalfont`. */
  lemma NullBoldIsNotBold(fmt: Format)
    requires fmt == map[Bold := Null]
    ensures HeadingReadable(fmt) && FontSpec(fmt) == "\\normalfont"
  {
  }

  // ---------------------------------------------------------------------------
  // build_indent_config
  // ---------------------------------------------------------------------------

  /** `x and x > 0` can be evaluated: a true value is a number or a flag. */
  predicate Comparable(v: Value) {
    Truthy(v) ==> v.Num? || v.Flag?
  }

  /** `x and x > 0` */
  predicate Positive(v: Value)
    requires Comparable(v)
  {
    Truthy(v) && (if v.Num? then v.n.digits > 0 else true)
  }

  predicate IndentReadable(body: Format) {
    Comparable(Get(body, FirstLineIndent)) && Comparable(Get(body, SpaceAfter))
  }

  /** The lines of `build_indent_config`. */
  function IndentLines(body: Format, chinese: bool): seq<string>
    requires IndentReadable(body)
  {
    var indent := Get(body, FirstLineIndent);
    var skip := Get(body, SpaceAfter);
    [if Positive(indent) then "\\setlength{\\parindent}{" + PyStr(indent) + "cm}"
     else if chinese then "\\setlength{\\parindent}{2em}"
     else "\\setlength{\\parindent}{0.5in}"]
    + (if Positive(skip) then ["\\setlength{\\parskip}{" + PyStr(skip) + "pt}"] else [])
  }

  /** A zero or negative indent falls back to the script's convention: two ems for Chinese, half an inch otherwise. */
  lemma IndentFallback(body: Format, chinese: bool)
    requires IndentReadable(body)
    requires Get(body, FirstLineIndent).Num? && Get(body, FirstLineIndent).n.digits <= 0
    ensures IndentLines(body, chinese)[0] == if chinese then "\\setlength{\\parindent}{2em}" else "\\setlength{\\parindent}{0.5in}"
  {
  }

  // ---------------------------------------------------------------------------
  // build_header_footer
  // ---------------------------------------------------------------------------

  /** The lines of `build_header_footer`. */
  function HeaderFooterLines(sec: PageInfo): seq<string> {
    ["\\usepackage{fancyhdr}", "\\pagestyle{fancy}", "\\fancyhf{}"]
    + (if NonEmpty(sec.headerText) then ["\\fancyhead[C]{" + Escape(sec.headerText.value) + "}"] else [])
    + [if NonEmpty(sec.footerText) then "\\fancyfoot[C]{" + Escape(sec.footerText.value) + "}" else "\\fancyfoot[C]{\\thepage}"]
    + ["\\renewcommand{\\headrulewidth}{0.4pt}"]
  }

  /** Every page gets one centred footer: the escaped footer text, or the page number when there is none. */
  lemma OneFooter(sec: PageInfo)
    ensures var ls := HeaderFooterLines(sec);
      var k := |ls| - 2;
      k >= 3 && ls[k] == (if NonEmpty(sec.footerText) then "\\fancyfoot[C]{" + Escape(sec.footerText.value) + "}" else "\\fancyfoot[C]{\\thepage}")
    ensures |HeaderFooterLines(sec)| == if NonEmpty(sec.headerText) then 6 else 5
  {
  }

  // ---------------------------------------------------------------------------
  // Citation package
  // ---------------------------------------------------------------------------

  /** The `package` entry of each style in `CITATION_PACKAGES`. */
  const CitationPackages: map<string, string> := map[
    "numeric" := "\\usepackage[numbers,sort&compress]{natbib}",
    "author-year" := "\\usepackage[authoryear,round]{natbib}",
    "apa" := "\\usepackage[style=apa,backend=biber]{biblatex}",
    "ieee" := "\\usepackage[numbers]{natbib}",
    "gb7714-numeric" := "\\usepackage[style=gb7714-2015,backend=biber]{biblatex}",
    "gb7714-authoryear" := "\\usepackage[style=gb7714-2015ay,backend=biber]{biblatex}",
    "vancouver" := "\\usepackage[numbers,sort&compress]{natbib}"]

  /**
   * The style key chosen from the detected style's name: GB/T 7714 first (its
   * author-year variant when the name says so), then IEEE, APA, Vancouver,
   * author-year and numeric, looked for in the lower-cased name; `None` when no
   * word matches. Every key chosen has a package.
   */
  function CitationKey(detected: string): (k: Option<string>)
    ensures k.Some? ==> k.value in CitationPackages
  {
    var low := Lower(detected);
    if Contains(detected, "GB/T 7714") || Contains(low, "gb7714") then
      Some(if Contains(low, "author-year") then "gb7714-authoryear" else "gb7714-numeric")
    else if Contains(low, "ieee") then Some("ieee")
    else if Contains(low, "apa") then Some("apa")
    else if Contains(low, "vancouver") then Some("vancouver")
    else if Contains(low, "author-year") then Some("author-year")
    else if Contains(low, "numeric") then Some("numeric")
    else None
  }

  /** The comment and package lines for the citation style. */
  function CitationLines(detected: string): seq<string> {
    match CitationKey(detected)
    case Some(k) => ["% === Citation Style: " + detected + " ===", CitationPackages[k]]
    case None => ["% === Citation (default numeric) ===", "\\usepackage[numbers,sort&compress]{natbib}"]
  }

  /**
   * A mention of GB/T 7714 takes precedence over every other word: with
   * author-year it selects the GB/T 7714 author-year style, otherwise the
   * numeric one, whatever else the name says.
   */
  lemma GbTakesPrecedence(detected: string)
    requires Contains(detected, "GB/T 7714")
    ensures CitationKey(detected) == Some(if Contains(Lower(detected), "author-year") then "gb7714-authoryear" else "gb7714-numeric")
  {
  }

  /** When no style was detected (`unknown`), no package is selected and the default numeric natbib is used. */
  lemma UnknownSelectsDefault()
    ensures CitationKey(Unknown) == None
    ensures CitationLines(Unknown) == ["% === Citation (default numeric) ===", "\\usepackage[numbers,sort&compress]{natbib}"]
  {
    var u := Unknown;
    assert Lower(u) == u by {
      forall i | 0 <= i < |u| ensures LowerChar(u[i]) == u[i] {
      }
    }
    AbsentCharNotContained(u, "GB/T 7714", 0);
    AbsentCharNotContained(u, "gb7714", 0);
    AbsentCharNotContained(u, "ieee", 0);
    AbsentCharNotContained(u, "apa", 0);
    AbsentCharNotContained(u, "vancouver", 0);
    AbsentCharNotContained(u, "author-year", 0);
    AbsentCharNotContained(u, "numeric", 2);
  }

  /** Lowering cannot produce a lower-case letter that was absent from the text in both cases. */
  lemma LowerKeepsAbsent(s: string, lower: char, upper: char)
    requires 'A' <= upper <= 'Z' && lower == (upper as int + 32) as char
    requires lower !in s && upper !in s
    ensures forall i :: 0 <= i < |s| ==> Lower(s)[i] != lower
  {
    forall i | 0 <= i < |s| ensures Lower(s)[i] != lower {
      assert s[i] in s;
    }
  }

  /** A text with no `y` in either case cannot name author-year, whatever its case. */
  lemma NoYWithoutAuthorYear(s: string)
    requires 'y' !in s && 'Y' !in s
    ensures !Contains(Lower(s), "author-year")
  {
    LowerKeepsAbsent(s, 'y', 'Y');
    AbsentCharNotContained(Lower(s), "author-year", 7);
  }

  /** Lowering keeps a leading piece that has no upper-case ASCII letter. */
  lemma LowerKeepsLead(s: string, k: string)
    requires |k| <= |s| && s[..|k|] == k
    requires forall i :: 0 <= i < |k| ==> !('A' <= k[i] <= 'Z')
    ensures OccursAt(Lower(s), k, 0)
  {
    forall i | 0 <= i < |k|
      ensures Lower(s)[i] == k[i]
    {
      assert s[i] == s[..|k|][i];
    }
    assert Lower(s)[..|k|] == k;
  }

  lemma AuthorYearIsLower()
    ensures forall i :: 0 <= i < |"author-year"| ==> !('A' <= "author-year"[i] <= 'Z')
  {
  }

  /** A text that opens with author-year in lower case names author-year after lowering. */
  lemma OpensWithAuthorYear(s: string)
    requires |s| >= 11 && s[..11] == "author-year"
    ensures Contains(Lower(s), "author-year")
  {
    AuthorYearIsLower();
    LowerKeepsLead(s, "author-year");
  }

  /** A name mentioning GB/T 7714 with no `y` in either case selects the GB/T 7714 numeric package. */
  lemma GbWithoutY(s: string)
    requires Contains(s, "GB/T 7714") && 'y' !in s && 'Y' !in s
    ensures CitationKey(s) == Some("gb7714-numeric")
  {
    NoYWithoutAuthorYear(s);
    GbTakesPrecedence(s);
  }

  /** A name mentioning GB/T 7714 that opens with author-year selects the GB/T 7714 author-year package. */
  lemma GbOpeningAuthorYear(s: string)
    requires Contains(s, "GB/T 7714") && |s| >= 11 && s[..11] == "author-year"
    ensures CitationKey(s) == Some("gb7714-authoryear")
  {
    OpensWithAuthorYear(s);
    GbTakesPrecedence(s);
  }

  /** The middle piece of a concatenation occurs in it. */
  lemma PieceContained(a: string, p: string, b: string)
    ensures Contains(a + p + b, p)
  {
    SliceOfConcat(a, p, b);
    assert OccursAt(a + p + b, p, |a|);
  }

  /** A concatenation opens with its first piece and contains its third. */
  lemma LeadAndPiece(k: string, m: string, g: string, t: string)
    ensures (k + m + g + t)[..|k|] == k && Contains(k + m + g + t, g)
  {
    PieceContained(k + m, g, t);
    assert (k + m + g + t)[..|k|] == k;
  }

  lemma NumericLabelPieces()
    ensures Label(NumericBracket) == "numeric (e.g., " + "GB/T 7714" + (" numeric, " + "IEEE, " + "Vancouver)")
  {
  }

  lemma NumericPiecesWithoutY()
    ensures 'y' !in "numeric (e.g., " && 'Y' !in "numeric (e.g., "
    ensures 'y' !in "GB/T 7714" && 'Y' !in "GB/T 7714"
  {
  }

  lemma NumericTailWithoutY()
    ensures 'y' !in " numeric, " + "IEEE, " + "Vancouver)" && 'Y' !in " numeric, " + "IEEE, " + "Vancouver)"
  {
  }

  lemma AuthorYearCnPieces()
    ensures Label(AuthorYearCn) == "author-year" + " Chinese (e.g., " + "GB/T 7714" + " author-year)"
  {
  }

  /** The analyser's numeric label names GB/T 7714 but not author-year, so it selects the GB/T 7714 numeric package. */
  lemma NumericLabelSelectsGb()
    ensures CitationKey(Label(NumericBracket)) == Some("gb7714-numeric")
  {
    NumericLabelPieces();
    NumericPiecesWithoutY();
    NumericTailWithoutY();
    PieceContained("numeric (e.g., ", "GB/T 7714", " numeric, " + "IEEE, " + "Vancouver)");
    GbWithoutY(Label(NumericBracket));
  }

  /** The analyser's Chinese author-year label selects the GB/T 7714 author-year package. */
  lemma ChineseAuthorYearLabelSelectsGb()
    ensures CitationKey(Label(AuthorYearCn)) == Some("gb7714-authoryear")
  {
    var k, m, g, t := "author-year", " Chinese (e.g., ", "GB/T 7714", " author-year)";
    AuthorYearCnPieces();
    LeadAndPiece(k, m, g, t);
    GbOpeningAuthorYear(Label(AuthorYearCn));
  }

  // ---------------------------------------------------------------------------
  // Reference numbers
  // ---------------------------------------------------------------------------

  /** Where the digits of a reference number start: after a leading `[`, if there is one. */
  function RefOpen(s: string): (a: nat)
    ensures a <= |s| && a <= 1
    ensures a == 1 <==> s != [] && s[0] == '['
  {
    if s != [] && s[0] == '[' then 1 else 0
  }

  /** Where the spaces after the digits ending at `e` start: after a `]`, if there is one. */
  function RefClose(s: string, e: nat): (b: nat)
    requires e <= |s|
    ensures e <= b <= |s| && b <= e + 1
    ensures b == e + 1 <==> e < |s| && s[e] == ']'
  {
    if e < |s| && s[e] == ']' then e + 1 else e
  }

  /**
   * The length of the match of `^\[?\d+\]?\s*`, 0 when it does not match: an
   * optional `[`, the whole run of digits after it, an optional `]`, and the
   * whole run of whitespace after that.
   */
  function RefPrefix(s: string): (n: nat)
    ensures n <= |s|
    ensures n > 0 ==> exists k :: 0 <= k < n && IsDigit(s[k])
    ensures var a := RefOpen(s);
      var e := a + DigitRun(s, a);
      var b := RefClose(s, e);
      (n > 0 <==> e > a) && (n > 0 ==> b <= n && AllSpace(s[b..n]) && (n == |s| || !IsSpace(s[n])))
  {
    var a := RefOpen(s);
    var d := DigitRun(s, a);
    if d == 0 then 0
    else
      var b := RefClose(s, a + d);
      assert IsDigit(s[a]);
      SpaceRunSlice(s, b);
      b + SpaceRun(s, b)
  }

  /** `re.sub(r"^\[?\d+\]?\s*", "", ref)` */
  function StripRefNumber(ref: string): (r: string)
    ensures |r| <= |ref| && r == ref[|ref| - |r|..]
  {
    ref[RefPrefix(ref)..]
  }

  /** A numbered entry `[n] text` (or `n text`) loses its number and the spaces after it, and nothing else. */
  lemma StripNumberedReference(digits: string, bracket: bool, spaces: string, rest: string)
    requires digits != [] && forall i :: 0 <= i < |digits| ==> IsDigit(digits[i])
    requires AllSpace(spaces)
    requires rest == [] || (!IsSpace(rest[0]) && !IsDigit(rest[0]) && rest[0] != ']')
    ensures StripRefNumber((if bracket then "[" + digits + "]" else digits) + spaces + rest) == rest
  {
    var num := if bracket then "[" + digits + "]" else digits;
    var tail := spaces + rest;
    TailStart(spaces, rest);
    var s := num + tail;
    AppendAssoc(num, spaces, rest);
    NumberPrefix(digits, bracket, tail);
    GapSpaces(num, spaces, rest);
    RefPrefixFrom(s, |num|);
  }

  /** What follows the number is neither a digit nor a `]`. */
  lemma TailStart(spaces: string, rest: string)
    requires AllSpace(spaces)
    requires rest == [] || (!IsDigit(rest[0]) && rest[0] != ']')
    ensures spaces + rest != [] ==> !IsDigit((spaces + rest)[0]) && (spaces + rest)[0] != ']'
  {
    if spaces != [] {
      assert (spaces + rest)[0] == spaces[0] && IsSpace(spaces[0]);
    }
  }

  /** In `num + (spaces + rest)`, the whitespace run after `num` is `spaces`, and `rest` follows it. */
  lemma GapSpaces(num: string, spaces: string, rest: string)
    requires AllSpace(spaces)
    requires rest == [] || !IsSpace(rest[0])
    ensures var s := num + (spaces + rest);
      SpaceRun(s, |num|) == |spaces| && s[|num| + |spaces|..] == rest
  {
    SpaceRunAfter(num, spaces + rest, 0);
    LeadingSpaces(spaces, rest);
    LastPart(num, spaces, rest);
  }

  /** The whitespace run at `|num| + i` in `num + t` is the one at `i` in `t`. */
  lemma {:induction false} SpaceRunAfter(num: string, t: string, i: nat)
    requires i <= |t|
    ensures SpaceRun(num + t, |num| + i) == SpaceRun(t, i)
    decreases |t| - i
  {
    if i < |t| {
      assert (num + t)[|num| + i] == t[i];
      SpaceRunAfter(num, t, i + 1);
    }
  }

  /** The whitespace run at the start of `spaces + rest` is `spaces`. */
  lemma LeadingSpaces(spaces: string, rest: string)
    requires AllSpace(spaces)
    requires rest == [] || !IsSpace(rest[0])
    ensures SpaceRun(spaces + rest, 0) == |spaces|
  {
    var t := spaces + rest;
    assert forall k :: 0 <= k < |spaces| ==> t[k] == spaces[k];
    if |spaces| < |t| {
      assert t[|spaces|] == rest[0];
    }
    SpaceRunStops(t, 0, |spaces|);
  }

  lemma LastPart<T>(a: seq<T>, b: seq<T>, c: seq<T>)
    ensures (a + (b + c))[|a| + |b|..] == c
  {
  }

  /** After a number prefix of length `b`, the substitution also removes the whitespace run at `b`. */
  lemma RefPrefixFrom(s: string, b: nat)
    requires var a := if s != [] && s[0] == '[' then 1 else 0;
      var d := DigitRun(s, a);
      d > 0 && a + d + (if a + d < |s| && s[a + d] == ']' then 1 else 0) == b
    ensures b <= |s| && RefPrefix(s) == b + SpaceRun(s, b)
  {
  }

  /** The number part of a numbered entry: an optional `[`, the digits and the matching `]`. */
  lemma NumberPrefix(digits: string, bracket: bool, tail: string)
    requires digits != [] && forall i :: 0 <= i < |digits| ==> IsDigit(digits[i])
    requires tail != [] ==> !IsDigit(tail[0]) && (bracket || tail[0] != ']')
    ensures var num := if bracket then "[" + digits + "]" else digits;
      var s := num + tail;
      var a := if s != [] && s[0] == '[' then 1 else 0;
      var d := DigitRun(s, a);
      d > 0 && a + d + (if a + d < |s| && s[a + d] == ']' then 1 else 0) == |num|
  {
    var num := if bracket then "[" + digits + "]" else digits;
    var s := num + tail;
    var a := if bracket then 1 else 0;
    assert s[0] == (if bracket then '[' else digits[0]);
    assert !bracket ==> s[0] != '[' by { assert IsDigit(digits[0]); }
    assert forall k :: a <= k < a + |digits| ==> s[k] == digits[k - a];
    if a + |digits| < |s| {
      assert s[a + |digits|] == if bracket then ']' else tail[0];
    }
    DigitRunStopsOrEnds(s, a, a + |digits|);
  }

  /** An entry that starts with neither a digit nor `[` is kept whole. */
  lemma UnnumberedReferenceKept(ref: string)
    requires ref == [] || (!IsDigit(ref[0]) && ref[0] != '[')
    ensures StripRefNumber(ref) == ref
  {
  }

  // ---------------------------------------------------------------------------
  // render_section
  // ---------------------------------------------------------------------------

  /** `cmd_map.get(level, "paragraph")` */
  function SectionCommand(level: int): string {
    if level == 1 then "section"
    else if level == 2 then "subsection"
    else if level == 3 then "subsubsection"
    else "paragraph"
  }

  /** `if para.strip()`: the escaped paragraph and a blank line. */
  function ParagraphLine(p: string): seq<string> {
    if Strip(p) != [] then [Escape(p), ""] else []
  }

  /** The escaped paragraph and a blank line, for each paragraph that is not blank. */
  function ParagraphLines(paras: seq<string>): seq<string> {
    if paras == [] then []
    else
      var p := paras[|paras| - 1];
      ParagraphLines(paras[..|paras| - 1]) + ParagraphLine(p)
  }

  /**
   * The lines of `render_section(section, level)`: the heading command at the
   * nesting depth, a blank line, the paragraphs, then each subsection one level deeper.
   */
  function SectionLines(sec: Section, level: int): seq<string>
    decreases sec, 1
  {
    SectionHead(sec, level) + ParagraphLines(sec.content) + ChildLines(sec.subsections, level + 1)
  }

  /** The subsections' lines, in order. */
  function ChildLines(subs: seq<Section>, level: int): seq<string>
    decreases subs, 0
  {
    if subs == [] then []
    else
      assert subs[|subs| - 1] in subs;
      ChildLines(subs[..|subs| - 1], level) + SectionLines(subs[|subs| - 1], level)
  }

  /** Every paragraph that is not blank is kept, escaped. */
  lemma {:induction false} ParagraphsKept(paras: seq<string>)
    ensures forall i :: 0 <= i < |paras| && Strip(paras[i]) != [] ==> Escape(paras[i]) in ParagraphLines(paras)
  {
    if paras != [] {
      var init, p := paras[..|paras| - 1], paras[|paras| - 1];
      ParagraphsKept(init);
      var front := ParagraphLines(init);
      forall i | 0 <= i < |paras| && Strip(paras[i]) != []
        ensures Escape(paras[i]) in front + ParagraphLine(p)
      {
        if i < |paras| - 1 {
          assert paras[i] == init[i];
        } else {
          assert ParagraphLine(p)[0] == Escape(p);
        }
      }
    }
  }

  /** Blank paragraphs add no lines. */
  lemma {:induction false} BlankParagraphsDropped(paras: seq<string>)
    requires forall i :: 0 <= i < |paras| ==> Strip(paras[i]) == []
    ensures ParagraphLines(paras) == []
  {
    if paras != [] {
      var init := paras[..|paras| - 1];
      assert forall i :: 0 <= i < |init| ==> init[i] == paras[i];
      BlankParagraphsDropped(init);
    }
  }

  /** `part` occurs in `whole` starting at `off`. */
  predicate SliceAt<T(==)>(whole: seq<T>, part: seq<T>, off: nat) {
    off + |part| <= |whole| && whole[off..off + |part|] == part
  }

  /** Each subsection's lines appear, in one piece, among its parent's. */
  lemma {:induction false} ChildLinesContain(subs: seq<Section>, level: int, i: nat)
    requires i < |subs|
    ensures exists off: nat :: SliceAt(ChildLines(subs, level), SectionLines(subs[i], level), off)
  {
    var init := subs[..|subs| - 1];
    var last := SectionLines(subs[|subs| - 1], level);
    assert ChildLines(subs, level) == ChildLines(init, level) + last;
    if i == |subs| - 1 {
      SliceAtEnd(ChildLines(init, level), last);
    } else {
      ChildLinesContain(init, level, i);
      assert init[i] == subs[i];
      var child := SectionLines(subs[i], level);
      var off: nat :| SliceAt(ChildLines(init, level), child, off);
      SliceAtExtend(ChildLines(init, level), last, child, off);
    }
  }

  lemma SliceAtEnd<T>(a: seq<T>, b: seq<T>)
    ensures SliceAt(a + b, b, |a|)
  {
    assert (a + b)[|a|..|a| + |b|] == b;
  }

  lemma SliceAtExtend<T>(a: seq<T>, b: seq<T>, part: seq<T>, off: nat)
    requires SliceAt(a, part, off)
    ensures SliceAt(a + b, part, off)
  {
    assert (a + b)[off..off + |part|] == a[off..off + |part|];
  }

  /** `render_section`, recursing into the subsections. */
  method RenderSection(sec: Section, level: int) returns (lines: seq<string>)
    ensures lines == SectionLines(sec, level)
    decreases sec, 1
  {
    var paras := RenderParagraphs(sec.content);
    var children := RenderChildren(sec.subsections, level + 1);
    lines := SectionHead(sec, level) + paras + children;
  }

  /** The `for para in section["content"]` loop. */
  method RenderParagraphs(paras: seq<string>) returns (lines: seq<string>)
    ensures lines == ParagraphLines(paras)
  {
    lines := [];
    for i := 0 to |paras|
      invariant lines == ParagraphLines(paras[..i])
    {
      assert paras[..i + 1][..i] == paras[..i];
      lines := lines + ParagraphLine(paras[i]);
    }
    assert paras[..|paras|] == paras;
  }

  /** The `for subsec in section["subsections"]` loop. */
  method RenderChildren(subs: seq<Section>, level: int) returns (lines: seq<string>)
    ensures lines == ChildLines(subs, level)
    decreases subs, 0
  {
    lines := [];
    for i := 0 to |subs|
      invariant lines == ChildLines(subs[..i], level)
    {
      assert subs[i] in subs;
      var sub := RenderSection(subs[i], level);
      assert subs[..i + 1][..i] == subs[..i];
      lines := lines + sub;
    }
    assert subs[..|subs|] == subs;
  }

  /** The heading command line and the blank line after it. */
  function SectionHead(sec: Section, level: int): seq<string> {
    ["\\" + SectionCommand(level) + "{" + Escape(sec.heading) + "}", ""]
  }

  // ---------------------------------------------------------------------------
  // generate_latex
  // ---------------------------------------------------------------------------

  /** `para_fmt.get("body", {})` */
  function BodyOf(rules: Rules): Format {
    RoleRecord(rules.formatting, "body")
  }

  /** `para_fmt.get("heading_1", {})` */
  function Heading1Of(rules: Rules): Format {
    RoleRecord(rules.formatting, "heading_1")
  }

  /**
   * The inputs on which `generate_latex` does not raise: the body's base size,
   * font names, spacing and indents can be read, the CJK heading font names
   * when the manuscript is Chinese, and the three heading records; the page
   * layout, if it is a list, is not empty, and its paper size, if present, is a string.
   */
  predicate Readable(c: Content, rules: Rules) {
    var body := BodyOf(rules);
    rules.layout != Sections([]) && PaperReadable(LatexPage(rules.layout)) && BaseSizeReadable(body) && NamesReadable(body) && (IsChinese(c) ==> NamesReadable(Heading1Of(rules)))
    && SpacingReadable(body) && HeadingsReadable(rules.formatting) && IndentReadable(body)
  }

  /** The lines of the preamble, given the text of the font and heading blocks. */
  function PreambleWith(rules: Rules, chinese: bool, fonts: string, headings: string): seq<string>
    requires PaperReadable(LatexPage(rules.layout)) && BaseSizeReadable(BodyOf(rules)) && SpacingReadable(BodyOf(rules)) && IndentReadable(BodyOf(rules))
  {
    [DocumentClass(BodyOf(rules), LatexPage(rules.layout), chinese)] + PreambleRest(rules, chinese, fonts, headings)
  }

  /** The preamble after the document class. */
  function PreambleRest(rules: Rules, chinese: bool, fonts: string, headings: string): seq<string>
    requires SpacingReadable(BodyOf(rules)) && IndentReadable(BodyOf(rules))
  {
    var sec := LatexPage(rules.layout);
    var body := BodyOf(rules);
    ["",
     "% === Packages ===", Geometry(sec), fonts, Join(SpacingLines(body), "\n"), "",
     "\\usepackage{graphicx}", "\\usepackage{booktabs}  % For three-line tables", "\\usepackage{amsmath,amssymb}",
     "\\usepackage{hyperref}", "\\usepackage{caption}", "",
     "% === Heading Formatting ===", headings, "",
     "% === Header/Footer ===", Join(HeaderFooterLines(sec), "\n"), "",
     "% === Paragraph Formatting ===", Join(IndentLines(body, chinese), "\n"), ""]
    + CitationLines(rules.detectedStyle) + [""]
  }

  /** The lines `build_heading_config` joins. */
  function HeadingConfigLines(formatting: map<string, Format>): seq<string>
    requires HeadingsReadable(formatting)
  {
    ["\\usepackage{titlesec}"] + HeadingBlocks(formatting, |HeadingCommands|)
  }

  /** Everything before `\begin{document}`. */
  function Preamble(c: Content, rules: Rules): seq<string>
    requires Readable(c, rules)
  {
    var chinese := IsChinese(c);
    PreambleWith(rules, chinese, Join(FontConfigLines(BodyOf(rules), Heading1Of(rules), chinese), "\n"),
      Join(HeadingConfigLines(rules.formatting), "\n"))
  }

  /** Each element escaped. */
  function EscapeEach(xs: seq<string>): (r: seq<string>)
    ensures |r| == |xs| && forall i :: 0 <= i < |xs| ==> r[i] == Escape(xs[i])
  {
    seq(|xs|, i requires 0 <= i < |xs| => Escape(xs[i]))
  }

  /** Title, authors, abstract and keywords, each only when present. */
  function FrontLines(c: Content, chinese: bool): seq<string> {
    (if c.title != [] then ["\\title{" + Escape(c.title) + "}"] else [])
    + (if c.authors != [] then ["\\author{" + Join(EscapeEach(c.authors), " \\and ") + "}"] else [])
    + (if c.title != [] || c.authors != [] then ["\\maketitle", ""] else [])
    + (if c.abstractText != [] then ["\\begin{abstract}", Escape(c.abstractText), "\\end{abstract}", ""] else [])
    + (if c.keywords != [] then [KeywordLine(c.keywords, chinese), ""] else [])
  }

  /** The keywords line: a Chinese label and full-width semicolon for Chinese manuscripts. */
  function KeywordLine(keywords: seq<string>, chinese: bool): string {
    "\\noindent\\textbf{" + (if chinese then "关键词" else "Keywords") + ":} "
    + Join(EscapeEach(keywords), if chinese then "；" else "; ")
  }

  /** The top-level sections, each rendered from level 1. */
  function BodyLines(sections: seq<Section>): seq<string> {
    if sections == [] then []
    else BodyLines(sections[..|sections| - 1]) + SectionLines(sections[|sections| - 1], 1)
  }

  /** One entry of the reference list. */
  function RefItem(ref: string): string {
    ItemLine(Escape(StripRefNumber(ref)))
  }

  function ItemLine(text: string): string {
    "  \\item " + text
  }

  function RefItems(refs: seq<string>): (r: seq<string>)
    ensures |r| == |refs| && forall i :: 0 <= i < |refs| ==> r[i] == RefItem(refs[i])
  {
    if refs == [] then [] else RefItems(refs[..|refs| - 1]) + [RefItem(refs[|refs| - 1])]
  }

  /** Acknowledgments and references, each only when present. */
  function BackMatter(c: Content, chinese: bool, items: seq<string>): seq<string> {
    AckLines(c, chinese) + (if c.references != [] then RefHead(chinese) + items + RefTail() else [])
  }

  function AckLines(c: Content, chinese: bool): seq<string> {
    if c.acknowledgments != [] then
      ["\\section*{" + (if chinese then "致谢" else "Acknowledgments") + "}", Escape(c.acknowledgments), ""]
    else []
  }

  function RefHead(chinese: bool): (r: seq<string>)
    ensures |r| == 2
  {
    ["\\section*{" + (if chinese then "参考文献" else "References") + "}", "\\begin{enumerate}"]
  }

  function RefTail(): seq<string> {
    ["\\end{enumerate}", ""]
  }

  /** The lines `generate_latex` writes, joined by newlines. */
  function LatexLines(c: Content, rules: Rules): seq<string>
    requires Readable(c, rules)
  {
    var chinese := IsChinese(c);
    Assemble(Preamble(c, rules), FrontLines(c, chinese), BodyLines(c.sections), BackMatter(c, chinese, RefItems(c.references)))
  }

  /** The preamble, then the document environment holding the front matter, the sections and the back matter. */
  function Assemble(pre: seq<string>, front: seq<string>, body: seq<string>, back: seq<string>): seq<string> {
    pre + ["\\begin{document}", ""] + front + body + back + ["\\end{document}"]
  }

  /** The `for section in content["sections"]` loop. */
  method RenderSections(sections: seq<Section>) returns (lines: seq<string>)
    ensures lines == BodyLines(sections)
  {
    lines := [];
    for i := 0 to |sections|
      invariant lines == BodyLines(sections[..i])
    {
      var part := RenderSection(sections[i], 1);
      assert sections[..i + 1][..i] == sections[..i];
      lines := lines + part;
    }
    assert sections[..|sections|] == sections;
  }

  lemma RefItemsStep(refs: seq<string>, i: nat)
    requires i < |refs|
    ensures RefItems(refs[..i + 1]) == RefItems(refs[..i]) + [RefItem(refs[i])]
  {
    assert refs[..i + 1][..i] == refs[..i];
  }

  /** The `for ref in content["references"]` loop. */
  method RenderReferences(refs: seq<string>) returns (items: seq<string>)
    ensures items == RefItems(refs)
  {
    items := [];
    for i := 0 to |refs|
      invariant items == RefItems(refs[..i])
    {
      var text := EscapeLatex(StripRefNumber(refs[i]));
      RefItemsStep(refs, i);
      items := items + [ItemLine(text)];
    }
    assert refs[..|refs|] == refs;
  }

  /** `generate_latex`: the text of the `.tex` file (writing it out is not modelled). */
  method GenerateLatex(c: Content, rules: Rules) returns (source: string)
    requires Readable(c, rules)
    ensures source == Join(LatexLines(c, rules), "\n")
  {
    var chinese := HasChineseContent(c);
    var fonts := BuildFontConfig(BodyOf(rules), Heading1Of(rules), chinese);
    var headings := BuildHeadingConfig(rules.formatting);
    var preamble := PreambleWith(rules, chinese, fonts, headings);
    var body := RenderSections(c.sections);
    var items := RenderReferences(c.references);
    source := Join(Assemble(preamble, FrontLines(c, chinese), body, BackMatter(c, chinese, items)), "\n");
  }

  // ---------------------------------------------------------------------------
  // Properties of the whole document
  // ---------------------------------------------------------------------------

  /** Where the fixed lines sit in a document made of a preamble, the body and the back matter. */
  lemma FrameOf(pre: seq<string>, front: seq<string>, body: seq<string>, back: seq<string>)
    requires pre != []
    ensures var ls := Assemble(pre, front, body, back);
      |pre| + 2 < |ls| && ls[0] == pre[0] && ls[|pre|] == "\\begin{document}" && ls[|ls| - 1] == "\\end{document}"
  {
  }

  /**
   * The document opens with its class (`ctexart` exactly for Chinese
   * manuscripts), `\begin{document}` follows the preamble, and the last line
   * closes the document.
   */
  lemma DocumentFrame(c: Content, rules: Rules)
    requires Readable(c, rules)
    ensures var ls := LatexLines(c, rules);
      var k := |Preamble(c, rules)|;
      k + 2 < |ls| && ls[0] == DocumentClass(BodyOf(rules), LatexPage(rules.layout), IsChinese(c))
      && ls[k] == "\\begin{document}" && ls[|ls| - 1] == "\\end{document}"
    ensures EndsWith(DocumentClass(BodyOf(rules), LatexPage(rules.layout), IsChinese(c)), if IsChinese(c) then "{ctexart}" else "{article}")
  {
    var chinese := IsChinese(c);
    FrameOf(Preamble(c, rules), FrontLines(c, chinese), BodyLines(c.sections), BackMatter(c, chinese, RefItems(c.references)));
    ClassEnding(BodyOf(rules), LatexPage(rules.layout), chinese);
  }

  lemma ClassEnding(body: Format, sec: PageInfo, chinese: bool)
    requires BaseSizeReadable(body) && PaperReadable(sec)
    ensures EndsWith(DocumentClass(body, sec, chinese), if chinese then "{ctexart}" else "{article}")
  {
    var opts := [NatToString(SnapBase(FirstSize(body)) as nat) + "pt", if A4Paper(sec) then "a4paper" else "letterpaper"]
      + (if TwoColumns(sec) then ["twocolumn"] else []);
    var head := "\\documentclass[" + Join(opts, ", ") + "]";
    var tail := if chinese then "{ctexart}" else "{article}";
    assert (head + tail)[|head + tail| - |tail|..] == tail;
  }

  /** In a document whose back matter ends with a two-line heading, the items and two closing lines, every item is a line of it. */
  lemma ItemsListed(pre: seq<string>, front: seq<string>, body: seq<string>, ack: seq<string>, head: seq<string>, items: seq<string>, tail: seq<string>, i: nat)
    requires |head| == 2 && i < |items|
    ensures var ls := Assemble(pre, front, body, ack + (head + items + tail));
      exists k :: 0 <= k < |ls| && ls[k] == items[i]
  {
    var ls := Assemble(pre, front, body, ack + (head + items + tail));
    assert ls[|pre| + 2 + |front| + |body| + |ack| + 2 + i] == items[i];
  }

  /** Every reference is listed inside the `enumerate`, its number stripped and its text escaped. */
  lemma ReferencesListed(c: Content, rules: Rules, i: nat)
    requires Readable(c, rules) && i < |c.references|
    ensures var ls := LatexLines(c, rules);
      exists k :: 0 <= k < |ls| && ls[k] == ItemLine(Escape(StripRefNumber(c.references[i])))
  {
    var chinese := IsChinese(c);
    var items := RefItems(c.references);
    var back := AckLines(c, chinese) + (RefHead(chinese) + items + RefTail());
    assert BackMatter(c, chinese, items) == back;
    assert LatexLines(c, rules) == Assemble(Preamble(c, rules), FrontLines(c, chinese), BodyLines(c.sections), back);
    ItemsListed(Preamble(c, rules), FrontLines(c, chinese), BodyLines(c.sections), AckLines(c, chinese), RefHead(chinese), items, RefTail(), i);
  }

  /** Every top-level section of the manuscript contributes its lines in one piece. */
  lemma TopSectionsRendered(sections: seq<Section>, i: nat)
    requires i < |sections|
    ensures exists off: nat :: SliceAt(BodyLines(sections), SectionLines(sections[i], 1), off)
  {
    // BodyLines is ChildLines at level 1.
    BodyIsChildren(sections);
    ChildLinesContain(sections, 1, i);
  }

  lemma {:induction false} BodyIsChildren(sections: seq<Section>)
    ensures BodyLines(sections) == ChildLines(sections, 1)
  {
    if sections != [] { BodyIsChildren(sections[..|sections| - 1]); }
  }
}
