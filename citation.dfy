/**
 * The citation-style detector of the reference analyser (`detect_citation_style`):
 * four in-text citation patterns are counted over all paragraphs, as
 * `re.findall` counts them, and the first pattern with the largest count names
 * the style.
 *
 * Each regular expression is modelled by a hand-written matcher that returns
 * the length of the match starting at a position (0 for no match).
 */
module Citation {
  import opened Text

  datatype Pattern = NumericBracket | NumericSuperscript | AuthorYearParen | AuthorYearCn

  /** The patterns in the order the detector's dictionary lists them. */
  const Patterns: seq<Pattern> := [NumericBracket, NumericSuperscript, AuthorYearParen, AuthorYearCn]

  const Unknown: string := "unknown"

  function Label(p: Pattern): string {
    match p
    case NumericBracket => "numeric (e.g., GB/T 7714 numeric, IEEE, Vancouver)"
    case NumericSuperscript => "numeric superscript (e.g., Vancouver)"
    case AuthorYearParen => "author-year (e.g., APA, Chicago author-date)"
    case AuthorYearCn => "author-year Chinese (e.g., GB/T 7714 author-year)"
  }

  predicate IsUpper(c: char) { 'A' <= c <= 'Z' }
  predicate IsLowerLetter(c: char) { 'a' <= c <= 'z' }

  function LowerRun(s: string, i: nat): (n: nat)
    requires i <= |s|
    ensures i + n <= |s|
    ensures forall k :: i <= k < i + n ==> IsLowerLetter(s[k])
    ensures i + n == |s| || !IsLowerLetter(s[i + n])
    decreases |s| - i
  {
    if i < |s| && IsLowerLetter(s[i]) then 1 + LowerRun(s, i + 1) else 0
  }

  function CjkRun(s: string, i: nat): (n: nat)
    requires i <= |s|
    ensures i + n <= |s|
    ensures forall k :: i <= k < i + n ==> IsCjk(s[k])
    ensures i + n == |s| || !IsCjk(s[i + n])
    decreases |s| - i
  {
    if i < |s| && IsCjk(s[i]) then 1 + CjkRun(s, i + 1) else 0
  }

  /** `\[\d+\]` at `i`. */
  function BracketLen(s: string, i: nat): (n: nat)
    requires i <= |s|
    ensures n > 0 ==> i + n <= |s| && n >= 3 && s[i] == '[' && s[i + n - 1] == ']'
    ensures n > 0 ==> forall k :: i < k < i + n - 1 ==> IsDigit(s[k])
    ensures forall j :: i + 1 < j < |s| && s[i] == '[' && s[j] == ']' && (forall k :: i < k < j ==> IsDigit(s[k])) ==>
      n == j + 1 - i
  {
    if i < |s| && s[i] == '[' then
      var d := DigitRun(s, i + 1);
      if d > 0 && i + 1 + d < |s| && s[i + 1 + d] == ']' then d + 2 else 0
    else 0
  }

  /** `\^\[\d+\]` at `i`. */
  function SuperscriptLen(s: string, i: nat): (n: nat)
    requires i <= |s|
    ensures n > 0 ==> i < |s| && s[i] == '^' && n == 1 + BracketLen(s, i + 1)
    ensures i < |s| && s[i] == '^' && BracketLen(s, i + 1) > 0 ==> n > 0
  {
    if i < |s| && s[i] == '^' && BracketLen(s, i + 1) > 0 then 1 + BracketLen(s, i + 1) else 0
  }

  /** `[A-Z][a-z]+` at `i`. */
  function NameLen(s: string, i: nat): (n: nat)
    requires i <= |s|
    ensures i + n <= |s|
    ensures n > 0 ==> n >= 2 && IsUpper(s[i]) && forall k :: i < k < i + n ==> IsLowerLetter(s[k])
    ensures n > 0 ==> i + n == |s| || !IsLowerLetter(s[i + n])
    ensures i + 1 < |s| && IsUpper(s[i]) && IsLowerLetter(s[i + 1]) ==> n > 0
  {
    if i < |s| && IsUpper(s[i]) && LowerRun(s, i + 1) > 0 then 1 + LowerRun(s, i + 1) else 0
  }

  /** `\s(?:and|&)\s[A-Z][a-z]+` at `i`: the end of the second author, or 0. */
  function SecondAuthorEnd(s: string, i: nat): (e: nat)
    requires i <= |s|
    ensures e == 0 || i < e <= |s|
    ensures e > 0 ==> IsSpace(s[i]) && (AndAuthor(s, i, e) || AmpAuthor(s, i, e))
    ensures forall f :: AndAuthor(s, i, f) || AmpAuthor(s, i, f) ==> e == f
  {
    if i < |s| && IsSpace(s[i]) then
      var k := if i + 4 <= |s| && s[i + 1..i + 4] == "and" then i + 4
               else if i + 2 <= |s| && s[i + 1] == '&' then i + 2
               else 0;
      if k > 0 && k < |s| && IsSpace(s[k]) && NameLen(s, k + 1) > 0 then k + 1 + NameLen(s, k + 1) else 0
    else 0
  }

  /** `\s and\s` followed by a name that ends at `f`, starting at `i`. */
  predicate AndAuthor(s: string, i: nat, f: nat) {
    i + 5 <= |s| && IsSpace(s[i]) && s[i + 1..i + 4] == "and" && IsSpace(s[i + 4]) &&
    NameLen(s, i + 5) > 0 && f == i + 5 + NameLen(s, i + 5)
  }

  /** `\s&\s` followed by a name that ends at `f`, starting at `i`. */
  predicate AmpAuthor(s: string, i: nat, f: nat) {
    i + 3 <= |s| && IsSpace(s[i]) && s[i + 1] == '&' && IsSpace(s[i + 2]) &&
    NameLen(s, i + 3) > 0 && f == i + 3 + NameLen(s, i + 3)
  }

  /** `s[i..k]` is an optional comma followed by whitespace: `,?\s*`. */
  predicate CommaGap(s: string, i: nat, k: nat)
    requires i <= k <= |s|
  {
    forall m :: i <= m < k ==> IsSpace(s[m]) || (m == i && s[m] == ',')
  }

  /** `,?\s*\d{4}\)` at `i`: the end of the year and parenthesis, or 0. */
  function YearCloseEnd(s: string, i: nat): (e: nat)
    requires i <= |s|
    ensures e == 0 || i < e <= |s|
    ensures e > 0 ==> (i + 5 <= e && s[e - 1] == ')' && CommaGap(s, i, e - 5) &&
                       forall m :: e - 5 <= m < e - 1 ==> IsDigit(s[m]))
    ensures forall k :: (i <= k && k + 5 <= |s| && CommaGap(s, i, k) && s[k + 4] == ')' &&
                         forall m :: k <= m < k + 4 ==> IsDigit(s[m])) ==> e == k + 5
  {
    YearCloseAll(s, i);
    var c := if i < |s| && s[i] == ',' then i + 1 else i;
    var k := c + SpaceRun(s, c);
    if k + 5 <= |s| && DigitRun(s, k) >= 4 && s[k + 4] == ')' then k + 5 else 0
  }

  /** Where a comma-and-space gap followed by four digits ends, the matcher's two runs stop. */
  lemma YearCloseAll(s: string, i: nat)
    requires i <= |s|
    ensures forall k :: (i <= k && k + 5 <= |s| && CommaGap(s, i, k) &&
                         forall m :: k <= m < k + 4 ==> IsDigit(s[m])) ==>
      var c := if i < |s| && s[i] == ',' then i + 1 else i;
      c <= k && c + SpaceRun(s, c) == k && DigitRun(s, k) >= 4
  {
    forall k | i <= k && k + 5 <= |s| && CommaGap(s, i, k) && forall m :: k <= m < k + 4 ==> IsDigit(s[m])
      ensures var c := if i < |s| && s[i] == ',' then i + 1 else i;
              c <= k && c + SpaceRun(s, c) == k && DigitRun(s, k) >= 4
    {
      var c := if i < |s| && s[i] == ',' then i + 1 else i;
      assert IsDigit(s[k]);
    }
  }

  /** `\([A-Z][a-z]+(?:\s(?:and|&)\s[A-Z][a-z]+)?,?\s*\d{4}\)` at `i`; the optional group is tried first. */
  function ParenLen(s: string, i: nat): (n: nat)
    requires i <= |s|
    ensures i + n <= |s|
  {
    if i < |s| && s[i] == '(' && NameLen(s, i + 1) > 0 then
      var e := i + 1 + NameLen(s, i + 1);
      var g := SecondAuthorEnd(s, e);
      var withGroup := if g > 0 then YearCloseEnd(s, g) else 0;
      var end := if withGroup > 0 then withGroup else YearCloseEnd(s, e);
      if end > 0 then end - i else 0
    else 0
  }

  /** `[（(]\s*[一-鿿]+\s*[,，]\s*\d{4}\s*[)）]` at `i`. */
  function CnLen(s: string, i: nat): (n: nat)
    requires i <= |s|
    ensures i + n <= |s|
  {
    if i < |s| && (s[i] == '（' || s[i] == '(') then
      var a := i + 1 + SpaceRun(s, i + 1);
      var b := a + CjkRun(s, a);
      var c := b + SpaceRun(s, b);
      if b > a && c < |s| && (s[c] == ',' || s[c] == '，') then
        var d := c + 1 + SpaceRun(s, c + 1);
        if d + 4 <= |s| && DigitRun(s, d) >= 4 then
          var e := d + 4 + SpaceRun(s, d + 4);
          if e < |s| && (s[e] == ')' || s[e] == '）') then e + 1 - i else 0
        else 0
      else 0
    else 0
  }

  function MatchLen(p: Pattern, s: string, i: nat): (n: nat)
    requires i <= |s|
    ensures i + n <= |s|
  {
    match p
    case NumericBracket => BracketLen(s, i)
    case NumericSuperscript => SuperscriptLen(s, i)
    case AuthorYearParen => ParenLen(s, i)
    case AuthorYearCn => CnLen(s, i)
  }

  /** The length of the match of `p` at every position of `s`. */
  function Lens(p: Pattern, s: string): (r: seq<nat>)
    ensures |r| == |s| && Fits(r)
    ensures forall k :: 0 <= k < |s| ==> r[k] == MatchLen(p, s, k)
  {
    seq(|s|, k requires 0 <= k < |s| => MatchLen(p, s, k))
  }

  /** No match runs past the end of the text. */
  predicate Fits(lens: seq<nat>) {
    forall k :: 0 <= k < |lens| ==> k + lens[k] <= |lens|
  }

  /** How `re.findall` walks the text: count a match and resume after it, or move on one character. */
  function Scan(lens: seq<nat>, i: nat): nat
    requires i <= |lens| && Fits(lens)
    decreases |lens| - i
  {
    if i == |lens| then 0
    else if lens[i] > 0 then 1 + Scan(lens, i + lens[i])
    else Scan(lens, i + 1)
  }

  /** `len(re.findall(p, s[i..]))`: leftmost matches, scanning on after each one. */
  function FindAll(p: Pattern, s: string, i: nat): nat
    requires i <= |s|
  {
    Scan(Lens(p, s), i)
  }

  /** The count of pattern `p` over a sequence of paragraph texts. */
  function Total(p: Pattern, paras: seq<string>): nat {
    if paras == [] then 0
    else Total(p, paras[..|paras| - 1]) + FindAll(p, paras[|paras| - 1], 0)
  }

  /** `max(counts, key=counts.get)`: the first index holding the largest count. */
  function FirstMax(counts: seq<nat>): (k: nat)
    requires |counts| > 0
    ensures k < |counts|
    ensures forall j :: 0 <= j < |counts| ==> counts[j] <= counts[k]
    ensures forall j :: 0 <= j < k ==> counts[j] < counts[k]
  {
    if |counts| == 1 then 0
    else
      var k := FirstMax(counts[..|counts| - 1]);
      if counts[|counts| - 1] > counts[k] then |counts| - 1 else k
  }

  datatype CitationStyle = CitationStyle(detected: string, counts: seq<nat>)

  /** The label chosen from the four counts. */
  function Verdict(counts: seq<nat>): string
    requires |counts| == |Patterns|
  {
    if exists k :: 0 <= k < |counts| && counts[k] > 0 then Label(Patterns[FirstMax(counts)]) else Unknown
  }

  /** `detect_citation_style`: tally every pattern in every paragraph, then pick the label. */
  method DetectCitationStyle(paras: seq<string>) returns (r: CitationStyle)
    ensures |r.counts| == |Patterns|
    ensures forall k :: 0 <= k < |Patterns| ==> r.counts[k] == Total(Patterns[k], paras)
    ensures r.detected == Verdict(r.counts)
  {
    var counts: seq<nat> := [0, 0, 0, 0];
    for j := 0 to |paras|
      invariant |counts| == |Patterns|
      invariant forall k :: 0 <= k < |Patterns| ==> counts[k] == Total(Patterns[k], paras[..j])
    {
      assert paras[..j + 1][..j] == paras[..j];
      counts := Tally(counts, paras[j]);
    }
    assert paras[..|paras|] == paras;
    var detected := if exists k :: 0 <= k < |counts| && counts[k] > 0 then Label(Patterns[FirstMax(counts)]) else Unknown;
    r := CitationStyle(detected, counts);
  }

  /** The inner loop: each pattern's count grows by its matches in one paragraph. */
  method Tally(counts: seq<nat>, para: string) returns (counts': seq<nat>)
    requires |counts| == |Patterns|
    ensures |counts'| == |Patterns|
    ensures forall k :: 0 <= k < |Patterns| ==> counts'[k] == counts[k] + FindAll(Patterns[k], para, 0)
  {
    counts' := counts;
    for k := 0 to |Patterns|
      invariant |counts'| == |Patterns|
      invariant forall m :: 0 <= m < k ==> counts'[m] == counts[m] + FindAll(Patterns[m], para, 0)
      invariant forall m :: k <= m < |Patterns| ==> counts'[m] == counts[m]
    {
      counts' := counts'[k := counts'[k] + FindAll(Patterns[k], para, 0)];
    }
  }

  // ---------------------------------------------------------------------------
  // The verdict is "unknown" exactly when nothing matched, and otherwise the
  // first pattern with the largest count.
  // ---------------------------------------------------------------------------

  lemma VerdictUnknownIff(counts: seq<nat>)
    requires |counts| == |Patterns|
    ensures Verdict(counts) == Unknown <==> forall k :: 0 <= k < |counts| ==> counts[k] == 0
  {
    if exists k :: 0 <= k < |counts| && counts[k] > 0 {
      LabelNotUnknown(Patterns[FirstMax(counts)]);
    }
  }

  lemma LabelNotUnknown(p: Pattern)
    ensures Label(p) != Unknown
  {
    assert |Label(p)| > |Unknown|;
  }

  lemma VerdictFirstMax(counts: seq<nat>)
    requires |counts| == |Patterns|
    requires exists k :: 0 <= k < |counts| && counts[k] > 0
    ensures exists k :: (0 <= k < |Patterns| && Verdict(counts) == Label(Patterns[k])
      && (forall j :: 0 <= j < |counts| ==> counts[j] <= counts[k])
      && (forall j :: 0 <= j < k ==> counts[j] < counts[k]))
  {
    var k := FirstMax(counts);
    assert Verdict(counts) == Label(Patterns[k]);
  }

  // ---------------------------------------------------------------------------
  // A superscript citation `^[n]` contains a bracket citation `[n]`, so the
  // bracket count is never smaller and, being listed first, the bracket pattern
  // wins every tie: the superscript label can never be reported.
  // ---------------------------------------------------------------------------

  /** Number of positions from `i` at which a match starts. */
  function Hits(lens: seq<nat>, i: nat): nat
    requires i <= |lens|
    decreases |lens| - i
  {
    if i == |lens| then 0 else (if lens[i] > 0 then 1 else 0) + Hits(lens, i + 1)
  }

  /** Number of positions from `i` at which `p` matches. */
  function Positions(p: Pattern, s: string, i: nat): nat
    requires i <= |s|
  {
    Hits(Lens(p, s), i)
  }

  /** No match starts strictly inside another one. */
  predicate NoInner(lens: seq<nat>) {
    forall i, k :: 0 <= i < k < |lens| && k < i + lens[i] ==> lens[k] == 0
  }

  lemma {:induction false} NoHitsBetween(lens: seq<nat>, a: nat, b: nat)
    requires a <= b <= |lens|
    requires forall k :: a <= k < b ==> lens[k] == 0
    ensures Hits(lens, a) == Hits(lens, b)
    decreases b - a
  {
    if a < b { NoHitsBetween(lens, a + 1, b); }
  }

  /** When matches never nest, skipping past each match loses no match position. */
  lemma {:induction false} ScanIsHits(lens: seq<nat>, i: nat)
    requires i <= |lens| && Fits(lens) && NoInner(lens)
    ensures Scan(lens, i) == Hits(lens, i)
    decreases |lens| - i
  {
    if i < |lens| {
      var n := lens[i];
      if n > 0 {
        NoHitsBetween(lens, i + 1, i + n);
        ScanIsHits(lens, i + n);
      } else {
        ScanIsHits(lens, i + 1);
      }
    }
  }

  lemma BracketNoInnerMatch(s: string, i: nat, k: nat)
    requires i < k < |s| && k < i + BracketLen(s, i)
    ensures BracketLen(s, k) == 0
  {
    assert s[k] != '[';
  }

  lemma SuperscriptNoInnerMatch(s: string, i: nat, k: nat)
    requires i < k < |s| && k < i + SuperscriptLen(s, i)
    ensures SuperscriptLen(s, k) == 0
  {
    var n := BracketLen(s, i + 1);
    assert s[i + 1] == '[' && s[i + n] == ']';
    if i + 1 < k < i + n { assert IsDigit(s[k]); }
    assert s[k] != '^';
  }

  /** Bracket and superscript matches cannot start inside one another, so `findall` sees every match position. */
  lemma FindAllIsPositions(p: Pattern, s: string, i: nat)
    requires p == NumericBracket || p == NumericSuperscript
    requires i <= |s|
    ensures FindAll(p, s, i) == Positions(p, s, i)
  {
    var lens := Lens(p, s);
    forall j, k | 0 <= j < k < |lens| && k < j + lens[j]
      ensures lens[k] == 0
    {
      if p == NumericBracket { BracketNoInnerMatch(s, j, k); } else { SuperscriptNoInnerMatch(s, j, k); }
    }
    ScanIsHits(lens, i);
  }

  lemma {:induction false} SuperscriptBelowBracket(s: string, i: nat)
    requires i < |s|
    ensures Positions(NumericSuperscript, s, i) <= Positions(NumericBracket, s, i + 1)
    decreases |s| - i
  {
    if i + 1 < |s| {
      SuperscriptBelowBracket(s, i + 1);
      assert Positions(NumericBracket, s, i + 2) <= Positions(NumericBracket, s, i + 1);
    } else {
      assert Positions(NumericSuperscript, s, i + 1) == 0;
      assert SuperscriptLen(s, i) == 0;
    }
  }

  lemma {:induction false} SuperscriptBelowBracketTotal(paras: seq<string>)
    ensures Total(NumericSuperscript, paras) <= Total(NumericBracket, paras)
  {
    if paras != [] {
      var s := paras[|paras| - 1];
      SuperscriptBelowBracketTotal(paras[..|paras| - 1]);
      FindAllIsPositions(NumericSuperscript, s, 0);
      FindAllIsPositions(NumericBracket, s, 0);
      if |s| > 0 { SuperscriptBelowBracket(s, 0); }
    }
  }

  /** Whatever the paragraphs, the detected style is never the superscript label. */
  lemma {:induction false} SuperscriptNeverDetected(paras: seq<string>, r: CitationStyle)
    requires |r.counts| == |Patterns|
    requires forall k :: 0 <= k < |Patterns| ==> r.counts[k] == Total(Patterns[k], paras)
    requires r.detected == Verdict(r.counts)
    ensures r.detected != Label(NumericSuperscript)
  {
    SuperscriptBelowBracketTotal(paras);
    if exists k :: 0 <= k < |r.counts| && r.counts[k] > 0 {
      var k := FirstMax(r.counts);
      assert Patterns[0] == NumericBracket && Patterns[1] == NumericSuperscript;
      assert r.counts[1] <= r.counts[0];
      assert k != 1;
      assert Label(Patterns[k]) != Label(NumericSuperscript);
    }
  }

  /** A text with no match from position `i` on contributes no count. */
  lemma {:induction false} NoMatchNoCount(lens: seq<nat>, i: nat)
    requires i <= |lens| && Fits(lens)
    requires forall k :: i <= k < |lens| ==> lens[k] == 0
    ensures Scan(lens, i) == 0
    decreases |lens| - i
  {
    if i < |lens| { NoMatchNoCount(lens, i + 1); }
  }

  /** A paragraph that is just "[d]" counts one bracket citation and nothing else. */
  lemma BracketOnlyParagraph(s: string)
    requires |s| == 3 && s[0] == '[' && IsDigit(s[1]) && s[2] == ']'
    ensures forall k :: 0 <= k < |Patterns| ==> FindAll(Patterns[k], s, 0) == if k == 0 then 1 else 0
  {
    assert DigitRun(s, 2) == 0;
    assert BracketLen(s, 0) == 3;
    assert FindAll(NumericBracket, s, 3) == 0;
    forall p | p != NumericBracket ensures FindAll(p, s, 0) == 0 {
      forall k | 0 <= k < 3 ensures MatchLen(p, s, k) == 0 {
        assert s[k] != '^' && s[k] != '(' && s[k] != '\U{FF08}';
      }
      NoMatchNoCount(Lens(p, s), 0);
    }
  }

  /** Paragraphs "[1]", "[2]", "[3]": counts [3, 0, 0, 0] and the bracket label. */
  lemma ThreeBracketParagraphs(paras: seq<string>, r: CitationStyle)
    requires paras == ["[1]", "[2]", "[3]"]
    requires |r.counts| == |Patterns|
    requires forall k :: 0 <= k < |Patterns| ==> r.counts[k] == Total(Patterns[k], paras)
    requires r.detected == Verdict(r.counts)
    ensures r.counts == [3, 0, 0, 0]
    ensures r.detected == Label(NumericBracket)
  {
    BracketOnlyParagraph(paras[0]);
    BracketOnlyParagraph(paras[1]);
    BracketOnlyParagraph(paras[2]);
    forall k | 0 <= k < 4 ensures r.counts[k] == if k == 0 then 3 else 0 {
      TotalOfThree(Patterns[k], paras);
    }
    assert r.counts[0] > 0;
    assert FirstMax(r.counts) == 0;
  }

  lemma TotalOfThree(p: Pattern, paras: seq<string>)
    requires |paras| == 3
    ensures Total(p, paras) == FindAll(p, paras[0], 0) + FindAll(p, paras[1], 0) + FindAll(p, paras[2], 0)
  {
    var two := paras[..2];
    var one := two[..1];
    assert paras[..|paras| - 1] == two && two[..|two| - 1] == one && one[..0] == [];
    assert Total(p, paras) == Total(p, two) + FindAll(p, paras[2], 0);
    assert Total(p, two) == Total(p, one) + FindAll(p, paras[1], 0);
    assert Total(p, one) == FindAll(p, paras[0], 0);
  }
}
