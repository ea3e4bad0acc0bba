/**
 * The role classifier of the reference analyser (`classify_paragraph`): a
 * paragraph's style name and text are mapped to one role of a closed set, by
 * rules tried in a fixed order, the first that applies deciding.
 */
module Roles {
  import opened Wrappers
  import opened Text

  datatype Role = Empty | Title | Heading(level: nat) | Caption | Reference | Abstract | Keywords | Body

  /** The role's key in the analyser's output: `"heading_2"`, `"body"`, ... */
  function RoleTag(r: Role): string {
    match r
    case Empty => "empty"
    case Title => "title"
    case Heading(n) => "heading_" + NatToString(n)
    case Caption => "caption"
    case Reference => "reference"
    case Abstract => "abstract"
    case Keywords => "keywords"
    case Body => "body"
  }

  /** The heading level read from a style name: its first run of digits, 1 when it has none. */
  function HeadingLevel(styleName: string): (n: nat)
    ensures (forall i :: 0 <= i < |styleName| ==> !IsDigit(styleName[i])) ==> n == 1
    ensures FirstDigitRun(styleName).Some? ==> n == DigitsValue(FirstDigitRun(styleName).value)
  {
    match FirstDigitRun(styleName)
    case None => 1
    case Some(run) => DigitsValue(run)
  }

  /** `^(figure|fig\.|table|表|图)\s*\d`, ignoring case, at the start of `text`. */
  predicate CaptionText(text: string) {
    var t := Lower(text);
    exists p :: p in CaptionWords && StartsWith(t, p) && DigitAfterSpaces(t, |p|)
  }

  const CaptionWords: seq<string> := ["figure", "fig.", "table", "表", "图"]

  /** `\s*\d` at position `i`. */
  predicate DigitAfterSpaces(t: string, i: nat)
    requires i <= |t|
  {
    var k := i + SpaceRun(t, i);
    k < |t| && IsDigit(t[k])
  }

  /** `^\[?\d+\]?\s`: an optionally bracketed number and then a whitespace character. */
  predicate NumberedEntry(text: string) {
    var i := if |text| > 0 && text[0] == '[' then 1 else 0;
    var d := DigitRun(text, i);
    var j := if i + d < |text| && text[i + d] == ']' then i + d + 1 else i + d;
    d > 0 && j < |text| && IsSpace(text[j])
  }

  predicate IsHeadingStyle(s: string) {
    Contains(s, "heading") || Contains(s, "title")
  }

  predicate IsCaption(s: string, text: string) {
    StartsWith(s, "caption") || CaptionText(text)
  }

  predicate IsReference(s: string, text: string) {
    s == "bibliography" || s == "references" || (NumberedEntry(text) && |text| > 30)
  }

  predicate IsAbstract(s: string, text: string) {
    Contains(s, "abstract") || StartsWith(Lower(text), "abstract") || StartsWith(text, "摘要")
  }

  predicate IsKeywords(text: string) {
    StartsWith(Lower(text), "keywords") || StartsWith(text, "关键词")
  }

  /**
   * `classify_paragraph`: the style name is lower-cased (a missing name reads as
   * ""), the text is stripped, and the rules are tried in order.
   */
  function Classify(styleName: Option<string>, rawText: string): Role
  {
    ClassifyStripped(Lower(styleName.GetOr("")), Strip(rawText))
  }

  /** The rules in their order, on the lower-cased style name `s` and the stripped text. */
  function ClassifyStripped(s: string, text: string): Role
  {
    if text == [] then Empty
    else if IsHeadingStyle(s) then
      if Contains(s, "title") && !Contains(s, "heading") then Title
      else Heading(HeadingLevel(s))
    else if IsCaption(s, text) then Caption
    else if IsReference(s, text) then Reference
    else if IsAbstract(s, text) then Abstract
    else if IsKeywords(text) then Keywords
    else Body
  }

  /** The rules as properties of the result, on the lower-cased style name and the stripped text. */
  lemma StrippedRules(s: string, text: string, r: Role)
    requires r == ClassifyStripped(s, text)
    ensures r == Empty <==> text == []
    ensures r.Heading? <==> text != [] && Contains(s, "heading")
    ensures r.Heading? ==> r.level == HeadingLevel(s)
    ensures r == Title <==> text != [] && Contains(s, "title") && !Contains(s, "heading")
    ensures r in {Caption, Reference, Abstract, Keywords, Body} ==> text != [] && !IsHeadingStyle(s)
    ensures r == Caption <==> text != [] && !IsHeadingStyle(s) && IsCaption(s, text)
    ensures r == Reference <==> text != [] && !IsHeadingStyle(s) && !IsCaption(s, text) && IsReference(s, text)
    ensures r == Abstract <==>
      text != [] && !IsHeadingStyle(s) && !IsCaption(s, text) && !IsReference(s, text) && IsAbstract(s, text)
    ensures r == Keywords <==>
      text != [] && !IsHeadingStyle(s) && !IsCaption(s, text) && !IsReference(s, text) && !IsAbstract(s, text) &&
      IsKeywords(text)
    ensures r == Body <==>
      text != [] && !IsHeadingStyle(s) && !IsCaption(s, text) && !IsReference(s, text) && !IsAbstract(s, text) &&
      !IsKeywords(text)
  {
    if text == [] {
    } else if Contains(s, "heading") {
      assert IsHeadingStyle(s);
      assert r == Heading(HeadingLevel(s));
    } else if Contains(s, "title") {
      assert IsHeadingStyle(s);
      assert r == Title;
    } else {
      assert !IsHeadingStyle(s);
    }
  }

  /** The rules of `classify_paragraph`, stated as properties of its result. */
  lemma ClassifyRules(styleName: Option<string>, rawText: string, r: Role)
    requires r == Classify(styleName, rawText)
    // `empty` exactly for blank text
    ensures r == Empty <==> AllSpace(rawText)
    // a style naming "heading" always wins over "title"; the level defaults to 1
    ensures r.Heading? <==> !AllSpace(rawText) && Contains(Lower(styleName.GetOr("")), "heading")
    ensures r.Heading? ==> r.level == HeadingLevel(Lower(styleName.GetOr("")))
    ensures r == Title <==>
      !AllSpace(rawText) && Contains(Lower(styleName.GetOr("")), "title") && !Contains(Lower(styleName.GetOr("")), "heading")
    // the later rules only see paragraphs no heading style claimed
    ensures r in {Caption, Reference, Abstract, Keywords, Body} ==>
      !AllSpace(rawText) && !IsHeadingStyle(Lower(styleName.GetOr("")))
    // then the first of caption, reference, abstract and keywords that applies, else body
    ensures var s, t := Lower(styleName.GetOr("")), Strip(rawText);
      r == Caption <==> t != [] && !IsHeadingStyle(s) && IsCaption(s, t)
    ensures var s, t := Lower(styleName.GetOr("")), Strip(rawText);
      r == Reference <==> t != [] && !IsHeadingStyle(s) && !IsCaption(s, t) && IsReference(s, t)
    ensures var s, t := Lower(styleName.GetOr("")), Strip(rawText);
      r == Abstract <==> t != [] && !IsHeadingStyle(s) && !IsCaption(s, t) && !IsReference(s, t) && IsAbstract(s, t)
    ensures var s, t := Lower(styleName.GetOr("")), Strip(rawText);
      r == Keywords <==>
        t != [] && !IsHeadingStyle(s) && !IsCaption(s, t) && !IsReference(s, t) && !IsAbstract(s, t) && IsKeywords(t)
    ensures var s, t := Lower(styleName.GetOr("")), Strip(rawText);
      r == Body <==>
        t != [] && !IsHeadingStyle(s) && !IsCaption(s, t) && !IsReference(s, t) && !IsAbstract(s, t) && !IsKeywords(t)
  {
    StrippedRules(Lower(styleName.GetOr("")), Strip(rawText), r);
  }

  // ---------------------------------------------------------------------------
  // Tags identify roles: distinct roles are recorded under distinct keys.
  // ---------------------------------------------------------------------------

  lemma {:induction false} NatToStringInjective(m: nat, n: nat)
    requires NatToString(m) == NatToString(n)
    ensures m == n
  {
    DigitsValueOfNat(m);
    DigitsValueOfNat(n);
  }

  /** Two roles with the same tag are the same role; in particular only `Empty` is tagged "empty". */
  lemma {:induction false} RoleTagInjective(a: Role, b: Role)
    requires RoleTag(a) == RoleTag(b)
    ensures a == b
  {
    var tag := RoleTag(a);
    if a.Heading? || b.Heading? {
      assert tag[..8] == "heading_";
      assert a.Heading? && b.Heading?;
      var p := "heading_";
      assert RoleTag(a)[8..] == NatToString(a.level);
      assert RoleTag(b)[8..] == NatToString(b.level);
      NatToStringInjective(a.level, b.level);
    }
  }

  // ---------------------------------------------------------------------------
  // Worked cases of the heading rule.
  // ---------------------------------------------------------------------------

  /** The first digit run of a text is found after any digit-free prefix. */
  lemma {:induction false} FirstDigitRunAfter(pre: string, rest: string)
    requires forall k :: 0 <= k < |pre| ==> !IsDigit(pre[k])
    requires rest != [] && IsDigit(rest[0])
    ensures FirstDigitRun(pre + rest) == Some(rest[..DigitRun(rest, 0)])
    decreases |pre|
  {
    if pre == [] {
      assert pre + rest == rest;
    } else {
      assert (pre + rest)[0] == pre[0];
      assert (pre + rest)[1..] == pre[1..] + rest;
      FirstDigitRunAfter(pre[1..], rest);
    }
  }

  /** A style name that is a digit-free prefix and one digit names a heading of that digit's level. */
  lemma HeadingLevelDigit(pre: string, d: char)
    requires forall k :: 0 <= k < |pre| ==> !IsDigit(pre[k])
    requires IsDigit(d)
    ensures HeadingLevel(pre + [d]) == d as int - '0' as int
  {
    var run := [d];
    FirstDigitRunAfter(pre, run);
    assert DigitRun(run, 1) == 0;
    assert DigitRun(run, 0) == 1;
    assert run[..1] == run && run[..0] == [];
    assert DigitsValue(run) == DigitsValue([]) * 10 + (d as int - '0' as int);
  }

  /**
   * A style name whose first digits are the run `run` names a heading of that
   * run's value, whatever follows the run: "heading 12" is level 12 and
   * "heading 1 char" level 1.
   */
  lemma HeadingLevelOfRun(pre: string, run: string, post: string)
    requires forall k :: 0 <= k < |pre| ==> !IsDigit(pre[k])
    requires run != [] && forall k :: 0 <= k < |run| ==> IsDigit(run[k])
    requires post == [] || !IsDigit(post[0])
    ensures HeadingLevel(pre + run + post) == DigitsValue(run)
  {
    var rest := run + post;
    assert forall k :: 0 <= k < |run| ==> rest[k] == run[k];
    assert |run| < |rest| ==> rest[|run|] == post[0];
    DigitRunStopsOrEnds(rest, 0, |run|);
    assert rest[..|run|] == run;
    FirstDigitRunAfter(pre, rest);
    assert pre + run + post == pre + rest;
  }

  lemma HeadingLevelTwo()
    ensures HeadingLevel("heading 2") == 2
  {
    var pre := "heading ";
    forall k | 0 <= k < |pre| ensures !IsDigit(pre[k]) {
      assert pre[k] in "headin g";
    }
    HeadingLevelDigit(pre, '2');
    assert pre + ['2'] == "heading 2";
  }

  lemma HeadingLevelOne()
    ensures HeadingLevel("heading") == 1
  {
    var s := "heading";
    forall k | 0 <= k < |s| ensures !IsDigit(s[k]) {
      assert s[k] in "headin g";
    }
  }

  /** "Heading 2" is a level-2 heading. */
  lemma HeadingTwoExample(name: string, text: string)
    requires name == "Heading 2" && text == "Methods"
    ensures Classify(Some(name), text) == Heading(2)
  {
    var s := Lower(name);
    assert s == "heading 2";
    assert Contains(s, "heading") by { assert OccursAt(s, "heading", 0); }
    assert !AllSpace(text) by { assert !IsSpace(text[0]); }
    HeadingLevelTwo();
    StrippedRules(s, Strip(text), Classify(Some(name), text));
  }

  /** A heading style without a number ("Heading") is level 1. */
  lemma HeadingDefaultExample(name: string, text: string)
    requires name == "Heading" && text == "Methods"
    ensures Classify(Some(name), text) == Heading(1)
  {
    var s := Lower(name);
    assert s == "heading";
    assert Contains(s, "heading") by { assert OccursAt(s, "heading", 0); }
    assert !AllSpace(text) by { assert !IsSpace(text[0]); }
    HeadingLevelOne();
    StrippedRules(s, Strip(text), Classify(Some(name), text));
  }

  /** "Title" without "heading" is the title. */
  lemma TitleExample(name: string, text: string)
    requires name == "Subtitle" && text == "A Study"
    ensures Classify(Some(name), text) == Title
  {
    var s := Lower(name);
    assert s == "subtitle";
    assert Contains(s, "title") by { assert OccursAt(s, "title", 3); }
    var h := "heading";
    assert !Contains(s, h) by {
      forall i | 0 <= i <= |s| - |h| ensures !OccursAt(s, h, i) {
        assert s[i] != 'h';
        assert s[i..i + |h|][0] == s[i];
      }
    }
    assert !AllSpace(text) by { assert !IsSpace(text[0]); }
    StrippedRules(s, Strip(text), Classify(Some(name), text));
  }
}
