/**
 * The Markdown reader of the literature-review generator and the block order
 * of the Word document it produces. The reader walks the input line by line:
 * `#`-headings open sections, non-blank lines are gathered into a paragraph
 * buffer, and blank lines, headings and the end of input flush the buffer.
 * The document then lists, per section, a heading (level at most 3) and the
 * paragraphs, which a references section sets with a hanging indent.
 */
module Markdown {
  import opened Wrappers
  import opened Text

  datatype Kind = BodyKind | ReferencesKind

  /** One parsed section: its type, heading (None for the leading untitled one), level and paragraphs. */
  datatype MdSection = MdSection(kind: Kind, heading: Option<string>, level: nat, paragraphs: seq<string>)

  /** The section the reader starts in: a body section with no heading at level 0. */
  const Untitled := MdSection(BodyKind, None, 0, [])

  // ---------------------------------------------------------------------------
  // Splitting the input into lines.
  // ---------------------------------------------------------------------------

  /** Python's `s.split("\n")`: always at least one piece, and no piece holds a newline. */
  function SplitLines(s: string): (r: seq<string>)
    ensures |r| >= 1
    ensures forall i :: 0 <= i < |r| ==> '\n' !in r[i]
  {
    if s == [] then [[]]
    else
      var rest := SplitLines(s[1..]);
      if s[0] == '\n' then [[]] + rest
      else
        [[s[0]] + rest[0]] + rest[1..]
  }

  /** Joining the pieces back with newlines gives the input again. */
  lemma {:induction false} SplitLinesJoin(s: string)
    ensures Join(SplitLines(s), "\n") == s
  {
    if s != [] {
      var rest := SplitLines(s[1..]);
      SplitLinesJoin(s[1..]);
      if s[0] == '\n' {
        assert SplitLines(s) == [[]] + rest;
        assert Join(SplitLines(s), "\n") == [] + "\n" + Join(rest, "\n");
      } else if |rest| == 1 {
        assert SplitLines(s) == [[s[0]] + rest[0]];
      } else {
        var parts := [[s[0]] + rest[0]] + rest[1..];
        assert SplitLines(s) == parts;
        assert parts[1..] == rest[1..];
        assert Join(rest, "\n") == rest[0] + "\n" + Join(rest[1..], "\n");
        assert Join(parts, "\n") == [s[0]] + Join(rest, "\n");
        assert [s[0]] + s[1..] == s;
      }
    }
  }

  // ---------------------------------------------------------------------------
  // Heading lines: `^(#{1,4})\s+(.+)$` on the stripped line.
  // ---------------------------------------------------------------------------

  /** Length of the run of `#` that starts at `i`. */
  function HashRun(s: string, i: nat): (n: nat)
    requires i <= |s|
    ensures i + n <= |s|
    ensures forall k :: i <= k < i + n ==> s[k] == '#'
    ensures i + n == |s| || s[i + n] != '#'
    decreases |s| - i
  {
    if i < |s| && s[i] == '#' then 1 + HashRun(s, i + 1) else 0
  }

  /**
   * The level and the heading text when a stripped line is a heading. The
   * `\s+` takes the whole run of whitespace after the `#`s, and `.` stops at a
   * newline, so the text is the rest of the line provided it holds none. The
   * `.strip()` applied to that text changes nothing (`HeadingTextStripped`).
   */
  function HeadingOf(s: string): (r: Option<(nat, string)>)
    requires s == [] || !IsSpace(s[|s| - 1])
    ensures r.Some? ==> 1 <= r.value.0 <= 4 && r.value.1 != []
  {
    if Opens(s) then Some((HashRun(s, 0), HeadingText(s))) else None
  }

  /** The match conditions: 1 to 4 `#`, whitespace, then a newline-free rest. */
  predicate Opens(s: string) {
    var n := HashRun(s, 0);
    && 1 <= n <= 4 && n < |s| && IsSpace(s[n])
    && n + SpaceRun(s, n) < |s| && '\n' !in s[n + SpaceRun(s, n)..]
  }

  /** What follows the `#`s and the whitespace after them: it neither starts nor ends in whitespace. */
  function HeadingText(s: string): (t: string)
    requires Opens(s) && !IsSpace(s[|s| - 1])
    ensures t != [] && !IsSpace(t[0]) && !IsSpace(t[|t| - 1])
  {
    var t := s[HashRun(s, 0) + SpaceRun(s, HashRun(s, 0))..];
    assert t[|t| - 1] == s[|s| - 1];
    t
  }

  /** The `.strip()` of the heading text is the text itself. */
  lemma HeadingTextStripped(s: string)
    requires Opens(s) && !IsSpace(s[|s| - 1])
    ensures Strip(HeadingText(s)) == HeadingText(s)
  {
    StripKeeps(HeadingText(s));
  }

  /** `n` hash signs. */
  function Hashes(n: nat): (r: string)
    ensures |r| == n && forall i :: 0 <= i < n ==> r[i] == '#'
  {
    if n == 0 then [] else Hashes(n - 1) + "#"
  }

  /**
   * A heading written as 1 to 4 `#`, whitespace and a newline-free text that
   * does not start or end in whitespace reads back as that level and text.
   */
  lemma HeadingRoundTrip(level: nat, gap: string, text: string)
    requires 1 <= level <= 4
    requires gap != [] && AllSpace(gap)
    requires text != [] && !IsSpace(text[0]) && !IsSpace(text[|text| - 1]) && '\n' !in text
    ensures HeadingOf(Hashes(level) + gap + text) == Some((level, text))
  {
    var h := Hashes(level);
    var s := h + gap + text;
    Concat3(h, gap, text);
    assert s[level] == gap[0];
    HashRunStops(s, 0, level);
    forall k | level <= k < level + |gap|
      ensures IsSpace(s[k])
    {
      assert s[level + (k - level)] == gap[k - level];
    }
    assert s[level + |gap|] == text[0];
    SpaceRunStops(s, level, level + |gap|);
    assert HeadingText(s) == text;
  }

  /** Where the three parts of `a + b + c` sit. */
  lemma Concat3(a: string, b: string, c: string)
    ensures forall k :: 0 <= k < |a| ==> (a + b + c)[k] == a[k]
    ensures forall k :: 0 <= k < |b| ==> (a + b + c)[|a| + k] == b[k]
    ensures (a + b + c)[|a| + |b|..] == c
  {
  }

  lemma HashRunStops(s: string, i: nat, j: nat)
    requires i <= j < |s| && s[j] != '#'
    requires forall k :: i <= k < j ==> s[k] == '#'
    ensures HashRun(s, i) == j - i
    decreases j - i
  {
    if i < j { HashRunStops(s, i + 1, j); }
  }

  /** Five or more `#` never make a heading: such a line is body text. */
  lemma FiveHashesNotHeading(s: string)
    requires s == [] || !IsSpace(s[|s| - 1])
    requires |s| >= 5 && s[..5] == "#####"
    ensures HeadingOf(s) == None
  {
    assert s[0] == '#' && s[1] == '#' && s[2] == '#' && s[3] == '#' && s[4] == '#';
    var n := HashRun(s, 0);
    assert n >= 5;
  }

  /** `#` signs not followed by whitespace never make a heading. */
  lemma NoGapNotHeading(s: string)
    requires s == [] || !IsSpace(s[|s| - 1])
    requires HashRun(s, 0) < |s| && !IsSpace(s[HashRun(s, 0)])
    ensures HeadingOf(s) == None
  {
  }

  /** A heading's level is its number of leading `#`, and what follows them is whitespace and then the text. */
  lemma HeadingShape(s: string, level: nat, text: string)
    requires s == [] || !IsSpace(s[|s| - 1])
    requires HeadingOf(s).Some? && HeadingOf(s).value.0 == level && HeadingOf(s).value.1 == text
    ensures level == HashRun(s, 0) && s[..level] == Hashes(level)
    ensures level < |s| - |text| && EndsWith(s, text)
    ensures AllSpace(s[level..|s| - |text|])
  {
    var n := HashRun(s, 0);
    var w := SpaceRun(s, n);
    OpensShape(s, n, w);
    assert text == s[n + w..];
    assert s[level..|s| - |text|] == s[n..n + w];
  }

  lemma OpensShape(s: string, n: nat, w: nat)
    requires Opens(s) && n == HashRun(s, 0) && w == SpaceRun(s, n)
    ensures s[..n] == Hashes(n) && AllSpace(s[n..n + w])
  {
    var gap := s[n..n + w];
    forall k | 0 <= k < w ensures IsSpace(gap[k]) { assert gap[k] == s[n + k]; }
  }

  // ---------------------------------------------------------------------------
  // What one line is to the reader.
  // ---------------------------------------------------------------------------

  /** A stripped, non-blank line: no whitespace at either end. */
  predicate Trimmed(t: string) {
    t != [] && !IsSpace(t[0]) && !IsSpace(t[|t| - 1])
  }

  predicate TrimmedAll(b: seq<string>) {
    forall k :: 0 <= k < |b| ==> Trimmed(b[k])
  }

  /** A line as the loop sees it after `strip()`: a heading, blank, or body text. */
  datatype Line = HeadingLine(level: nat, text: string) | BlankLine | BodyLine(text: string)

  /** How the loop classifies a line: the heading test first, then blankness. */
  function Classify(line: string): (r: Line)
    ensures r.HeadingLine? ==> 1 <= r.level <= 4 && r.text != []
    ensures r.BodyLine? ==> Trimmed(r.text)
  {
    var stripped := Strip(line);
    var h := HeadingOf(stripped);
    if h.Some? then HeadingLine(h.value.0, h.value.1)
    else if stripped == [] then BlankLine
    else BodyLine(stripped)
  }

  function Classified(lines: seq<string>): (r: seq<Line>)
    ensures |r| == |lines|
  {
    seq(|lines|, i requires 0 <= i < |lines| => Classify(lines[i]))
  }

  /** The lines the reader gets from a text. */
  function LinesOf(text: string): seq<Line> {
    Classified(SplitLines(text))
  }

  /** Lines with only whitespace are blank; stripped non-blank text that is not a heading is body text. */
  lemma ClassifyBlankAndBody(line: string)
    ensures Classify(line) == BlankLine <==> AllSpace(line)
    ensures Classify(line).BodyLine? ==> Classify(line).text == Strip(line) && HeadingOf(Strip(line)) == None
  {
    if AllSpace(line) {
      assert Strip(line) == [];
    }
  }

  // ---------------------------------------------------------------------------
  // The reader as a state machine over classified lines.
  // ---------------------------------------------------------------------------

  /** The reader's variables: finished sections, the current section and the paragraph buffer. */
  datatype State = State(sections: seq<MdSection>, current: MdSection, buffer: seq<string>)

  const Start := State([], Untitled, [])

  /** The buffered lines joined by single spaces become a paragraph unless the result is blank. */
  function Flush(cur: MdSection, buffer: seq<string>): MdSection {
    if buffer == [] then cur
    else
      var text := Strip(Join(buffer, " "));
      if text != [] then cur.(paragraphs := cur.paragraphs + [text]) else cur
  }

  /** A section is kept only when its heading is non-empty or it has a paragraph. */
  function Close(sections: seq<MdSection>, cur: MdSection): seq<MdSection> {
    if (cur.heading.Some? && cur.heading.value != []) || cur.paragraphs != [] then sections + [cur] else sections
  }

  /** A heading containing "reference" in any letter case opens a references section. */
  function KindOf(heading: string): Kind {
    if Contains(Lower(heading), "reference") then ReferencesKind else BodyKind
  }

  /** One pass of the reader's loop. */
  function Step(st: State, line: Line): State {
    match line
    case HeadingLine(level, text) =>
      State(Close(st.sections, Flush(st.current, st.buffer)), MdSection(KindOf(text), Some(text), level, []), [])
    case BlankLine =>
      State(st.sections, Flush(st.current, st.buffer), [])
    case BodyLine(text) =>
      State(st.sections, st.current, st.buffer + [text])
  }

  /** The reader's state after the given lines. */
  function Run(lines: seq<Line>): State {
    if lines == [] then Start else Step(Run(lines[..|lines| - 1]), lines[|lines| - 1])
  }

  /** The final flush and save after the last line. */
  function Finish(st: State): seq<MdSection> {
    Close(st.sections, Flush(st.current, st.buffer))
  }

  /** What `parse_markdown` returns for a text. */
  function Parse(text: string): seq<MdSection> {
    Finish(Run(LinesOf(text)))
  }

  /** The buffer flush written out at three places in the loop: the current section after it. */
  method FlushBuffer(current: MdSection, buffer: seq<string>) returns (next: MdSection)
    ensures next == Flush(current, buffer)
  {
    next := current;
    if buffer != [] {
      var joined := Strip(Join(buffer, " "));
      if joined != [] {
        next := current.(paragraphs := current.paragraphs + [joined]);
      }
    }
  }

  /** The save of the current section, before a heading and at the end. */
  method SaveSection(sections: seq<MdSection>, current: MdSection) returns (kept: seq<MdSection>)
    ensures kept == Close(sections, current)
  {
    kept := sections;
    if (current.heading.Some? && current.heading.value != []) || current.paragraphs != [] {
      kept := sections + [current];
    }
  }

  /** One pass of the loop body on a raw line: strip it, match the heading pattern, then act on what it is. */
  method ReadLine(sections: seq<MdSection>, current: MdSection, buffer: seq<string>, line: string)
    returns (sections': seq<MdSection>, current': MdSection, buffer': seq<string>)
    ensures State(sections', current', buffer') == Step(State(sections, current, buffer), Classify(line))
  {
    var l := Classify(line);
    sections', current', buffer' := ApplyLine(sections, current, buffer, l);
  }

  /** The three branches of the loop body: a heading, a blank line, body text. */
  method ApplyLine(sections: seq<MdSection>, current: MdSection, buffer: seq<string>, l: Line)
    returns (sections': seq<MdSection>, current': MdSection, buffer': seq<string>)
    ensures State(sections', current', buffer') == Step(State(sections, current, buffer), l)
  {
    match l
    case HeadingLine(level, title) =>
      var flushed := FlushBuffer(current, buffer);
      sections' := SaveSection(sections, flushed);
      current' := MdSection(KindOf(title), Some(title), level, []);
      buffer' := [];
    case BlankLine =>
      sections' := sections;
      current' := FlushBuffer(current, buffer);
      buffer' := [];
    case BodyLine(text) =>
      sections', current' := sections, current;
      buffer' := buffer + [text];
  }

  /** `parse_markdown`: the loop over lines with its buffer, current section and section list. */
  method ParseMarkdown(text: string) returns (sections: seq<MdSection>)
    ensures sections == Parse(text)
  {
    var lines := SplitLines(text);
    ghost var classified := Classified(lines);
    sections := [];
    var current := Untitled;
    var buffer: seq<string> := [];
    var i := 0;
    while i < |lines|
      invariant 0 <= i <= |lines|
      invariant State(sections, current, buffer) == Run(classified[..i])
    {
      RunPrefixStep(classified, i);
      sections, current, buffer := ReadLine(sections, current, buffer, lines[i]);
      i := i + 1;
    }
    assert classified[..i] == classified;
    current := FlushBuffer(current, buffer);
    sections := SaveSection(sections, current);
  }

  lemma RunPrefixStep(lines: seq<Line>, i: nat)
    requires i < |lines|
    ensures Run(lines[..i + 1]) == Step(Run(lines[..i]), lines[i])
  {
    assert lines[..i + 1][..i] == lines[..i];
  }

  // ---------------------------------------------------------------------------
  // The shape of every section the reader emits.
  // ---------------------------------------------------------------------------

  /** Joining stripped non-blank lines with single spaces leaves nothing for `strip()` to remove. */
  lemma {:induction false} JoinTrimmed(b: seq<string>)
    requires b != [] && TrimmedAll(b)
    ensures Trimmed(Join(b, " "))
  {
    if |b| > 1 {
      assert TrimmedAll(b[1..]) by {
        forall k | 0 <= k < |b| - 1
          ensures Trimmed(b[1..][k])
        {
          assert b[1..][k] == b[k + 1];
        }
      }
      JoinTrimmed(b[1..]);
      var j := Join(b, " ");
      var rest := Join(b[1..], " ");
      assert j == b[0] + " " + rest;
      assert j[0] == b[0][0];
      assert j[|j| - 1] == rest[|rest| - 1];
    }
  }

  /** With a buffer of stripped lines, the flush adds exactly their space-joined text. */
  lemma FlushTrimmed(cur: MdSection, b: seq<string>)
    requires TrimmedAll(b)
    ensures Flush(cur, b) == if b == [] then cur else cur.(paragraphs := cur.paragraphs + [Join(b, " ")])
  {
    if b != [] {
      JoinTrimmed(b);
      StripKeeps(Join(b, " "));
    }
  }

  /**
   * A section as the reader builds it: a headed one has a non-empty heading,
   * a level from 1 to 4 and is a references section exactly when its
   * lower-cased heading contains "reference"; the untitled one is a level-0
   * body section; every paragraph is stripped and non-empty.
   */
  predicate Shaped(sec: MdSection) {
    && (sec.heading.Some? ==>
          && sec.heading.value != [] && 1 <= sec.level <= 4
          && (sec.kind == ReferencesKind <==> Contains(Lower(sec.heading.value), "reference")))
    && (sec.heading.None? ==> sec.kind == BodyKind && sec.level == 0)
    && TrimmedAll(sec.paragraphs)
  }

  /** Every emitted section is shaped and has a heading or a paragraph; only the first can lack a heading. */
  predicate WellFormed(secs: seq<MdSection>) {
    forall i :: 0 <= i < |secs| ==>
      && Shaped(secs[i])
      && (secs[i].heading.Some? || secs[i].paragraphs != [])
      && (i > 0 ==> secs[i].heading.Some?)
  }

  /** Lines as the classifier produces them. */
  predicate Sound(lines: seq<Line>) {
    forall k :: 0 <= k < |lines| ==>
      && (lines[k].HeadingLine? ==> 1 <= lines[k].level <= 4 && lines[k].text != [])
      && (lines[k].BodyLine? ==> Trimmed(lines[k].text))
  }

  /** What holds of the reader's variables between lines. */
  predicate Good(st: State) {
    && WellFormed(st.sections) && Shaped(st.current) && TrimmedAll(st.buffer)
    && (st.sections != [] ==> st.current.heading.Some?)
  }

  lemma CloseWellFormed(secs: seq<MdSection>, cur: MdSection)
    requires WellFormed(secs) && Shaped(cur) && (secs != [] ==> cur.heading.Some?)
    ensures WellFormed(Close(secs, cur))
  {
  }

  lemma FlushShaped(cur: MdSection, b: seq<string>)
    requires Shaped(cur) && TrimmedAll(b)
    ensures Shaped(Flush(cur, b)) && Flush(cur, b).heading == cur.heading
  {
    FlushTrimmed(cur, b);
    if b != [] {
      JoinTrimmed(b);
      var ps := cur.paragraphs + [Join(b, " ")];
      forall k | 0 <= k < |ps|
        ensures Trimmed(ps[k])
      {
        if k < |cur.paragraphs| { assert ps[k] == cur.paragraphs[k]; }
      }
    }
  }

  lemma StepGood(st: State, line: Line)
    requires Good(st)
    requires line.HeadingLine? ==> 1 <= line.level <= 4 && line.text != []
    requires line.BodyLine? ==> Trimmed(line.text)
    ensures Good(Step(st, line))
  {
    FlushShaped(st.current, st.buffer);
    match line
    case HeadingLine(_, _) =>
      CloseWellFormed(st.sections, Flush(st.current, st.buffer));
    case BlankLine =>
    case BodyLine(text) =>
      var b := st.buffer + [text];
      forall k | 0 <= k < |b|
        ensures Trimmed(b[k])
      {
        if k < |st.buffer| { assert b[k] == st.buffer[k]; }
      }
  }

  lemma {:induction false} RunGood(lines: seq<Line>)
    requires Sound(lines)
    ensures Good(Run(lines))
  {
    if lines != [] {
      var init := lines[..|lines| - 1];
      assert Sound(init) by {
        forall k | 0 <= k < |init|
          ensures init[k] == lines[k]
        {
        }
      }
      RunGood(init);
      StepGood(Run(init), lines[|lines| - 1]);
    }
  }

  lemma LinesOfSound(text: string)
    ensures Sound(LinesOf(text))
  {
  }

  /**
   * Every section the reader returns is well formed: no paragraph is empty,
   * no section is empty, and an untitled section appears only first.
   */
  lemma ParseWellFormed(text: string)
    ensures WellFormed(Parse(text))
  {
    var st := Run(LinesOf(text));
    LinesOfSound(text);
    RunGood(LinesOf(text));
    FlushShaped(st.current, st.buffer);
    CloseWellFormed(st.sections, Flush(st.current, st.buffer));
  }

  // ---------------------------------------------------------------------------
  // Headings: one section per heading line, in input order.
  // ---------------------------------------------------------------------------

  /** The level and text of a section's heading, if it has one. */
  function HeadOf(sec: MdSection): seq<(nat, string)> {
    if sec.heading.Some? then [(sec.level, sec.heading.value)] else []
  }

  /** The headings of the sections, in order. */
  function Headed(secs: seq<MdSection>): seq<(nat, string)> {
    if secs == [] then [] else Headed(secs[..|secs| - 1]) + HeadOf(secs[|secs| - 1])
  }

  /** The level and text of every heading line, in order. */
  function HeadingLines(lines: seq<Line>): seq<(nat, string)> {
    if lines == [] then []
    else
      var line := lines[|lines| - 1];
      HeadingLines(lines[..|lines| - 1]) + (if line.HeadingLine? then [(line.level, line.text)] else [])
  }

  lemma HeadedClose(secs: seq<MdSection>, cur: MdSection)
    requires cur.heading.Some? ==> cur.heading.value != []
    ensures Headed(Close(secs, cur)) == Headed(secs) + HeadOf(cur)
  {
    if Close(secs, cur) == secs + [cur] {
      assert (secs + [cur])[..|secs|] == secs;
    }
  }

  lemma {:induction false} RunHeadings(lines: seq<Line>)
    requires Sound(lines)
    ensures Headed(Run(lines).sections) + HeadOf(Run(lines).current) == HeadingLines(lines)
  {
    if lines != [] {
      var init := lines[..|lines| - 1];
      var st := Run(init);
      assert Sound(init) by {
        forall k | 0 <= k < |init|
          ensures init[k] == lines[k]
        {
        }
      }
      RunHeadings(init);
      RunGood(init);
      FlushShaped(st.current, st.buffer);
      if lines[|lines| - 1].HeadingLine? {
        HeadedClose(st.sections, Flush(st.current, st.buffer));
      }
    }
  }

  /**
   * The headed sections correspond one to one, in order, with the heading
   * lines of the input, each with that line's level and text.
   */
  lemma ParseHeadings(text: string)
    ensures Headed(Parse(text)) == HeadingLines(LinesOf(text))
  {
    var st := Run(LinesOf(text));
    LinesOfSound(text);
    RunHeadings(LinesOf(text));
    RunGood(LinesOf(text));
    FlushShaped(st.current, st.buffer);
    HeadedClose(st.sections, Flush(st.current, st.buffer));
  }

  // ---------------------------------------------------------------------------
  // Paragraphs: one per maximal run of body lines.
  // ---------------------------------------------------------------------------

  /**
   * The maximal runs of consecutive body lines: a body line right after a
   * body line extends the last run, any other body line starts a new one,
   * and blank and heading lines end the run.
   */
  function Groups(lines: seq<Line>): seq<seq<string>> {
    if lines == [] then []
    else
      var init := lines[..|lines| - 1];
      var line := lines[|lines| - 1];
      var gs := Groups(init);
      if !line.BodyLine? then gs
      else if gs != [] && init != [] && init[|init| - 1].BodyLine? then gs[..|gs| - 1] + [gs[|gs| - 1] + [line.text]]
      else gs + [[line.text]]
  }

  /** Each run joined with single spaces. */
  function Joined(gs: seq<seq<string>>): seq<string> {
    seq(|gs|, i requires 0 <= i < |gs| => Join(gs[i], " "))
  }

  /** Every paragraph of the sections, in order. */
  function AllParas(secs: seq<MdSection>): seq<string> {
    if secs == [] then [] else AllParas(secs[..|secs| - 1]) + secs[|secs| - 1].paragraphs
  }

  /** The paragraphs finished so far. */
  function Done(st: State): seq<string> {
    AllParas(st.sections) + st.current.paragraphs
  }

  lemma AllParasClose(secs: seq<MdSection>, cur: MdSection)
    ensures AllParas(Close(secs, cur)) == AllParas(secs) + cur.paragraphs
  {
    if Close(secs, cur) == secs + [cur] {
      assert (secs + [cur])[..|secs|] == secs;
    }
  }

  lemma JoinedSnoc(gs: seq<seq<string>>)
    requires gs != []
    ensures Joined(gs) == Joined(gs[..|gs| - 1]) + [Join(gs[|gs| - 1], " ")]
  {
  }

  /** The buffer holds the open run; the finished paragraphs are the closed runs. */
  predicate GroupsAgree(lines: seq<Line>, st: State) {
    var gs := Groups(lines);
    && (st.buffer != [] <==> lines != [] && lines[|lines| - 1].BodyLine?)
    && (st.buffer == [] ==> Done(st) == Joined(gs))
    && (st.buffer != [] ==> gs != [] && st.buffer == gs[|gs| - 1] && Done(st) == Joined(gs[..|gs| - 1]))
  }

  /** A heading or blank line closes the open run into a paragraph. */
  lemma GroupsAgreeClosing(lines: seq<Line>, st: State, f: MdSection, paras: seq<string>)
    requires GroupsAgree(lines, st) && TrimmedAll(st.buffer)
    requires f == Flush(st.current, st.buffer)
    requires paras == AllParas(st.sections) + f.paragraphs
    ensures paras == Joined(Groups(lines))
  {
    FlushTrimmed(st.current, st.buffer);
    var extra := if st.buffer == [] then [] else [Join(st.buffer, " ")];
    FlushedParas(st, f, extra, paras);
    ClosedRun(Groups(lines), Done(st), st.buffer, paras);
  }

  lemma FlushedParas(st: State, f: MdSection, extra: seq<string>, paras: seq<string>)
    requires f.paragraphs == st.current.paragraphs + extra
    requires paras == AllParas(st.sections) + f.paragraphs
    ensures paras == Done(st) + extra
  {
  }

  /** The finished paragraphs plus the flushed open run are all the runs joined. */
  lemma ClosedRun(gs: seq<seq<string>>, done: seq<string>, buffer: seq<string>, paras: seq<string>)
    requires buffer == [] ==> done == Joined(gs)
    requires buffer != [] ==> gs != [] && buffer == gs[|gs| - 1] && done == Joined(gs[..|gs| - 1])
    requires paras == done + (if buffer == [] then [] else [Join(buffer, " ")])
    ensures paras == Joined(gs)
  {
    if buffer != [] {
      JoinedSnoc(gs);
    }
  }

  /** A heading line closes the open run and opens a section with no paragraph. */
  lemma GroupsHeadingStep(init: seq<Line>, line: Line, st: State)
    requires line.HeadingLine? && GroupsAgree(init, st) && TrimmedAll(st.buffer)
    ensures GroupsAgree(init + [line], Step(st, line))
  {
    var lines := init + [line];
    assert lines[..|lines| - 1] == init;
    var f := Flush(st.current, st.buffer);
    AllParasClose(st.sections, f);
    GroupsAgreeClosing(init, st, f, AllParas(Close(st.sections, f)));
  }

  /** A blank line closes the open run into the current section. */
  lemma GroupsBlankStep(init: seq<Line>, st: State)
    requires GroupsAgree(init, st) && TrimmedAll(st.buffer)
    ensures GroupsAgree(init + [BlankLine], Step(st, BlankLine))
  {
    var lines := init + [BlankLine];
    assert lines[..|lines| - 1] == init;
    var f := Flush(st.current, st.buffer);
    GroupsAgreeClosing(init, st, f, Done(Step(st, BlankLine)));
  }

  /** A body line extends the open run or starts a new one. */
  lemma GroupsBodyStep(init: seq<Line>, text: string, st: State)
    requires GroupsAgree(init, st)
    ensures GroupsAgree(init + [BodyLine(text)], Step(st, BodyLine(text)))
  {
    var lines := init + [BodyLine(text)];
    assert lines[..|lines| - 1] == init;
    var gs := Groups(init);
    var gs' := Groups(lines);
    if st.buffer != [] {
      assert gs' == gs[..|gs| - 1] + [gs[|gs| - 1] + [text]];
      assert gs'[..|gs'| - 1] == gs[..|gs| - 1];
    } else {
      assert gs' == gs + [[text]];
      assert gs'[..|gs'| - 1] == gs;
    }
  }

  lemma {:induction false} RunGroups(lines: seq<Line>)
    requires Sound(lines)
    ensures GroupsAgree(lines, Run(lines))
  {
    if lines != [] {
      var init := lines[..|lines| - 1];
      var line := lines[|lines| - 1];
      assert Sound(init) by {
        forall k | 0 <= k < |init|
          ensures init[k] == lines[k]
        {
        }
      }
      RunGroups(init);
      RunGood(init);
      assert lines == init + [line];
      match line
      case HeadingLine(_, _) => GroupsHeadingStep(init, line, Run(init));
      case BlankLine => GroupsBlankStep(init, Run(init));
      case BodyLine(text) => GroupsBodyStep(init, text, Run(init));
    }
  }

  /**
   * The paragraphs of the output, in order, are exactly the maximal runs of
   * body lines, each joined with single spaces.
   */
  lemma ParseParagraphs(text: string)
    ensures AllParas(Parse(text)) == Joined(Groups(LinesOf(text)))
  {
    var lines := LinesOf(text);
    var st := Run(lines);
    LinesOfSound(text);
    RunGroups(lines);
    RunGood(lines);
    var f := Flush(st.current, st.buffer);
    AllParasClose(st.sections, f);
    GroupsAgreeClosing(lines, st, f, AllParas(Close(st.sections, f)));
  }

  /** Concatenation of the runs. */
  function Flatten(gs: seq<seq<string>>): seq<string> {
    if gs == [] then [] else Flatten(gs[..|gs| - 1]) + gs[|gs| - 1]
  }

  /** The text of every body line, in order. */
  function BodyLines(lines: seq<Line>): seq<string> {
    if lines == [] then []
    else
      var line := lines[|lines| - 1];
      BodyLines(lines[..|lines| - 1]) + (if line.BodyLine? then [line.text] else [])
  }

  /** Together the runs hold every body line exactly once, in input order. */
  lemma {:induction false} GroupsCover(lines: seq<Line>)
    ensures Flatten(Groups(lines)) == BodyLines(lines)
  {
    if lines != [] {
      var init := lines[..|lines| - 1];
      var line := lines[|lines| - 1];
      var gs := Groups(init);
      GroupsCover(init);
      if line.BodyLine? {
        var gs' := Groups(lines);
        if gs != [] && init != [] && init[|init| - 1].BodyLine? {
          var front := gs[..|gs| - 1];
          assert gs == front + [gs[|gs| - 1]];
          assert gs'[..|gs'| - 1] == front;
          assert Flatten(gs') == Flatten(front) + (gs[|gs| - 1] + [line.text]);
        } else {
          assert gs'[..|gs'| - 1] == gs;
        }
      }
    }
  }

  /** No run is empty, so no paragraph comes from nothing. */
  lemma {:induction false} GroupsNonEmpty(lines: seq<Line>)
    ensures forall i :: 0 <= i < |Groups(lines)| ==> Groups(lines)[i] != []
  {
    if lines != [] {
      GroupsNonEmpty(lines[..|lines| - 1]);
    }
  }

  // ---------------------------------------------------------------------------
  // The Word document `generate_docx` builds from the sections.
  // ---------------------------------------------------------------------------

  /** The paragraphs added to the document, by the helper that adds them. */
  datatype Block =
    | TitleBlock(text: string)                 // centred, bold 16 pt, no indent
    | BlankBlock                               // the empty paragraph after the title
    | HeadingBlock(text: string, level: nat)   // `add_heading_styled`
    | ReferenceBlock(text: string)             // `add_reference_paragraph`: 1.27 cm hanging indent
    | BodyBlock(text: string)                  // `add_body_paragraph`

  function Min(a: nat, b: nat): nat {
    if a < b then a else b
  }

  /** The title and the blank line after it, when a non-empty title is given. */
  function TitleBlocks(title: Option<string>): seq<Block> {
    if title.Some? && title.value != [] then [TitleBlock(title.value), BlankBlock] else []
  }

  /** A section's paragraphs, each through the helper its section type selects. */
  function ParagraphBlocks(paragraphs: seq<string>, kind: Kind): (r: seq<Block>)
    ensures |r| == |paragraphs|
  {
    seq(|paragraphs|, j requires 0 <= j < |paragraphs| =>
      if kind == ReferencesKind then ReferenceBlock(paragraphs[j]) else BodyBlock(paragraphs[j]))
  }

  /** A section's heading, at level `min(level, 3)`, then its paragraphs. */
  function SectionBlocks(sec: MdSection): seq<Block> {
    (if sec.heading.Some? && sec.heading.value != [] then [HeadingBlock(sec.heading.value, Min(sec.level, 3))] else [])
    + ParagraphBlocks(sec.paragraphs, sec.kind)
  }

  function Blocks(secs: seq<MdSection>): seq<Block> {
    if secs == [] then [] else Blocks(secs[..|secs| - 1]) + SectionBlocks(secs[|secs| - 1])
  }

  /** The document's paragraphs for a text and an optional title. */
  function Docx(text: string, title: Option<string>): seq<Block> {
    TitleBlocks(title) + Blocks(Parse(text))
  }

  /** The two paragraph loops of `generate_docx`, one per section type. */
  method AddParagraphs(blocks: seq<Block>, sec: MdSection) returns (blocks': seq<Block>)
    ensures blocks' == blocks + ParagraphBlocks(sec.paragraphs, sec.kind)
  {
    blocks' := blocks;
    var ps := sec.paragraphs;
    if sec.kind == ReferencesKind {
      for j := 0 to |ps|
        invariant blocks' == blocks + ParagraphBlocks(ps[..j], ReferencesKind)
      {
        blocks' := blocks' + [ReferenceBlock(ps[j])];
      }
    } else {
      for j := 0 to |ps|
        invariant blocks' == blocks + ParagraphBlocks(ps[..j], sec.kind)
      {
        blocks' := blocks' + [BodyBlock(ps[j])];
      }
    }
    assert ps[..|ps|] == ps;
  }

  /** The body of the section loop: the heading if the section has one, then the paragraphs. */
  method AddSection(blocks: seq<Block>, sec: MdSection) returns (blocks': seq<Block>)
    ensures blocks' == blocks + SectionBlocks(sec)
  {
    var head: seq<Block> := [];
    blocks' := blocks;
    if sec.heading.Some? && sec.heading.value != [] {
      head := [HeadingBlock(sec.heading.value, Min(sec.level, 3))];
      blocks' := blocks' + head;
    }
    blocks' := AddParagraphs(blocks', sec);
    assert blocks' == blocks + (head + ParagraphBlocks(sec.paragraphs, sec.kind));
  }

  lemma BlocksPrefixStep(sections: seq<MdSection>, i: nat)
    requires i < |sections|
    ensures Blocks(sections[..i + 1]) == Blocks(sections[..i]) + SectionBlocks(sections[i])
  {
    assert sections[..i + 1][..i] == sections[..i];
  }

  /** The loop over the parsed sections. */
  method AddSections(blocks: seq<Block>, sections: seq<MdSection>) returns (blocks': seq<Block>)
    ensures blocks' == blocks + Blocks(sections)
  {
    blocks' := blocks;
    for i := 0 to |sections|
      invariant blocks' == blocks + Blocks(sections[..i])
    {
      BlocksPrefixStep(sections, i);
      AppendAssoc(blocks, Blocks(sections[..i]), SectionBlocks(sections[i]));
      blocks' := AddSection(blocks', sections[i]);
    }
    assert sections[..|sections|] == sections;
  }

  /** `generate_docx`: the title, then for each parsed section its heading and paragraphs. */
  method GenerateDocx(text: string, title: Option<string>) returns (blocks: seq<Block>)
    ensures blocks == Docx(text, title)
  {
    blocks := [];
    if title.Some? && title.value != [] {
      blocks := [TitleBlock(title.value), BlankBlock];
    }
    var sections := ParseMarkdown(text);
    blocks := AddSections(blocks, sections);
  }

  /** The headings of a document, in order, with their levels. */
  function DocHeadings(blocks: seq<Block>): seq<(nat, string)> {
    if blocks == [] then []
    else
      var b := blocks[|blocks| - 1];
      DocHeadings(blocks[..|blocks| - 1]) + (if b.HeadingBlock? then [(b.level, b.text)] else [])
  }

  /** Each heading's level clamped to at most 3. */
  function Clamped(hs: seq<(nat, string)>): seq<(nat, string)> {
    seq(|hs|, i requires 0 <= i < |hs| => (Min(hs[i].0, 3), hs[i].1))
  }

  lemma {:induction false} DocHeadingsConcat(a: seq<Block>, b: seq<Block>)
    ensures DocHeadings(a + b) == DocHeadings(a) + DocHeadings(b)
    decreases |b|
  {
    if b != [] {
      assert (a + b)[..|a + b| - 1] == a + b[..|b| - 1];
      DocHeadingsConcat(a, b[..|b| - 1]);
    } else {
      assert a + b == a;
    }
  }

  lemma {:induction false} NoHeadingsInParagraphs(paragraphs: seq<string>, kind: Kind)
    ensures DocHeadings(ParagraphBlocks(paragraphs, kind)) == []
  {
    if paragraphs != [] {
      var front := paragraphs[..|paragraphs| - 1];
      assert ParagraphBlocks(paragraphs, kind)[..|paragraphs| - 1] == ParagraphBlocks(front, kind);
      NoHeadingsInParagraphs(front, kind);
    }
  }

  lemma SectionHeadings(sec: MdSection)
    requires sec.heading.Some? ==> sec.heading.value != []
    ensures DocHeadings(SectionBlocks(sec)) == Clamped(HeadOf(sec))
  {
    var head: seq<Block> := if sec.heading.Some? && sec.heading.value != [] then [HeadingBlock(sec.heading.value, Min(sec.level, 3))] else [];
    DocHeadingsConcat(head, ParagraphBlocks(sec.paragraphs, sec.kind));
    NoHeadingsInParagraphs(sec.paragraphs, sec.kind);
    if head != [] {
      assert head[..0] == [];
    }
  }

  lemma ClampedConcat(a: seq<(nat, string)>, b: seq<(nat, string)>)
    ensures Clamped(a + b) == Clamped(a) + Clamped(b)
  {
  }

  /** The document's headings are the sections' headings, in order, each at level `min(level, 3)`. */
  lemma {:induction false} BlocksHeadings(secs: seq<MdSection>)
    requires forall i :: 0 <= i < |secs| ==> secs[i].heading.Some? ==> secs[i].heading.value != []
    ensures DocHeadings(Blocks(secs)) == Clamped(Headed(secs))
  {
    if secs != [] {
      var front := secs[..|secs| - 1];
      var sec := secs[|secs| - 1];
      BlocksHeadings(front);
      DocHeadingsConcat(Blocks(front), SectionBlocks(sec));
      SectionHeadings(sec);
      ClampedConcat(Headed(front), HeadOf(sec));
    }
  }

  lemma TitleHasNoHeading(title: Option<string>)
    ensures DocHeadings(TitleBlocks(title)) == []
  {
    if title.Some? && title.value != [] {
      var t := [TitleBlock(title.value), BlankBlock];
      assert t[..1] == [TitleBlock(title.value)];
      assert t[..1][..0] == [];
      assert DocHeadings(t) == DocHeadings(t[..1]);
      assert DocHeadings(t[..1]) == DocHeadings(t[..1][..0]);
    }
  }

  /**
   * The headings of the Word document are the heading lines of the input, in
   * order, with the same text and the level clamped to at most 3; a non-empty
   * title adds the title and a blank paragraph before them.
   */
  lemma DocxHeadings(text: string, title: Option<string>)
    ensures DocHeadings(Docx(text, title)) == Clamped(HeadingLines(LinesOf(text)))
    ensures Docx(text, title)[..|TitleBlocks(title)|] == TitleBlocks(title)
  {
    var secs := Parse(text);
    ParseWellFormed(text);
    ParseHeadings(text);
    TitledHeadings(title, secs);
  }

  lemma TitledHeadings(title: Option<string>, secs: seq<MdSection>)
    requires WellFormed(secs)
    ensures DocHeadings(TitleBlocks(title) + Blocks(secs)) == Clamped(Headed(secs))
  {
    BlocksHeadings(secs);
    DocHeadingsConcat(TitleBlocks(title), Blocks(secs));
    TitleHasNoHeading(title);
  }

  /** Every paragraph of a references section is set as a reference, every other one as body text. */
  lemma {:induction false} BlocksRouteParagraphs(secs: seq<MdSection>, i: nat, j: nat)
    requires i < |secs| && j < |secs[i].paragraphs|
    ensures secs[i].kind == ReferencesKind ==> ReferenceBlock(secs[i].paragraphs[j]) in Blocks(secs)
    ensures secs[i].kind != ReferencesKind ==> BodyBlock(secs[i].paragraphs[j]) in Blocks(secs)
  {
    var front := secs[..|secs| - 1];
    if i < |secs| - 1 {
      assert front[i] == secs[i];
      BlocksRouteParagraphs(front, i, j);
    } else {
      var sb := SectionBlocks(secs[i]);
      var pb := ParagraphBlocks(secs[i].paragraphs, secs[i].kind);
      assert pb[j] in sb;
    }
  }

  /** A reference-style paragraph comes only from a references section. */
  lemma {:induction false} BlocksReferencesFromReferences(secs: seq<MdSection>, t: string)
    requires ReferenceBlock(t) in Blocks(secs)
    ensures exists i :: 0 <= i < |secs| && secs[i].kind == ReferencesKind && t in secs[i].paragraphs
  {
    var front := secs[..|secs| - 1];
    var sec := secs[|secs| - 1];
    if ReferenceBlock(t) in Blocks(front) {
      BlocksReferencesFromReferences(front, t);
      var i :| 0 <= i < |front| && front[i].kind == ReferencesKind && t in front[i].paragraphs;
      assert secs[i] == front[i];
    } else {
      var sb := SectionBlocks(sec);
      assert ReferenceBlock(t) in sb;
      var pb := ParagraphBlocks(sec.paragraphs, sec.kind);
      var k :| 0 <= k < |sb| && sb[k] == ReferenceBlock(t);
      var head := |sb| - |pb|;
      assert head <= k && pb[k - head] == ReferenceBlock(t);
      assert secs[|secs| - 1] == sec;
    }
  }

  /**
   * In the document, a paragraph is set with the hanging indent exactly when
   * it comes from a section whose lower-cased heading contains "reference".
   */
  lemma DocxReferenceRouting(text: string, t: string)
    ensures ReferenceBlock(t) in Blocks(Parse(text)) <==>
      exists i :: 0 <= i < |Parse(text)| && Parse(text)[i].kind == ReferencesKind && t in Parse(text)[i].paragraphs
    ensures forall i :: 0 <= i < |Parse(text)| ==>
      (Parse(text)[i].kind == ReferencesKind <==>
        Parse(text)[i].heading.Some? && Contains(Lower(Parse(text)[i].heading.value), "reference"))
  {
    var secs := Parse(text);
    ParseWellFormed(text);
    if ReferenceBlock(t) in Blocks(secs) {
      BlocksReferencesFromReferences(secs, t);
    }
    if exists i :: 0 <= i < |secs| && secs[i].kind == ReferencesKind && t in secs[i].paragraphs {
      var i :| 0 <= i < |secs| && secs[i].kind == ReferencesKind && t in secs[i].paragraphs;
      var j :| 0 <= j < |secs[i].paragraphs| && secs[i].paragraphs[j] == t;
      BlocksRouteParagraphs(secs, i, j);
    }
  }
}
