/**
 * The DOI checker: pulling a DOI out of free text (the first token of the
 * form `10.<4 to 9 digits>/<non-space>`, with trailing punctuation removed)
 * and the verdict built from what the two registries, CrossRef and doi.org,
 * answered about it. The registry queries themselves are network calls; the
 * model takes them as functions from a DOI to the record each returns.
 */
module Doi {
  import opened Wrappers
  import opened Text
  import opened Json

  // ---------------------------------------------------------------------------
  // The DOI pattern `10\.\d{4,9}/[^\s]+`.
  // ---------------------------------------------------------------------------

  /** Length of the run of non-whitespace characters that starts at `i`. */
  function NonSpaceRun(s: string, i: nat): (n: nat)
    requires i <= |s|
    ensures i + n <= |s|
    ensures forall k :: i <= k < i + n ==> !IsSpace(s[k])
    ensures i + n == |s| || IsSpace(s[i + n])
    decreases |s| - i
  {
    if i < |s| && !IsSpace(s[i]) then 1 + NonSpaceRun(s, i + 1) else 0
  }

  /**
   * Whether the DOI pattern matches at `i`. The digit count can only end
   * where the slash is, and a digit is not a slash, so the whole run of
   * digits must be 4 to 9 long; then at least one non-space character.
   */
  predicate MatchesAt(s: string, i: nat) {
    && i + 3 <= |s| && s[i] == '1' && s[i + 1] == '0' && s[i + 2] == '.'
    && var d := DigitRun(s, i + 3);
    && 4 <= d <= 9 && i + 4 + d < |s| && s[i + 3 + d] == '/' && !IsSpace(s[i + 4 + d])
  }

  /** Where the match at `i` ends: the greedy tail runs to the next whitespace or the end. */
  function MatchEnd(s: string, i: nat): (e: nat)
    requires MatchesAt(s, i)
    ensures i + 5 + DigitRun(s, i + 3) <= e <= |s|
  {
    var d := DigitRun(s, i + 3);
    i + 4 + d + NonSpaceRun(s, i + 4 + d)
  }

  /** The three patterns `normalize_doi` tries, in order. */
  datatype Pattern =
    | Bare     // `(10\.\d{4,9}/[^\s]+)`
    | Org      // `doi\.org/(10\.\d{4,9}/[^\s]+)`, letter case ignored
    | Colon    // `doi:\s*(10\.\d{4,9}/[^\s]+)`, letter case ignored

  /** Where the captured DOI would start for a match of `p` at `i`. */
  function GroupStart(s: string, i: nat, p: Pattern): nat
    requires i <= |s|
  {
    match p
    case Bare => i
    case Org => i + 8
    case Colon => if i + 4 <= |s| then i + 4 + SpaceRun(s, i + 4) else i + 4
  }

  /** Whether `p` matches at `i`: its literal prefix, then the DOI pattern at the group start. */
  predicate Matches(s: string, i: nat, p: Pattern)
    requires i <= |s|
  {
    match p
    case Bare => MatchesAt(s, i)
    case Org => i + 8 <= |s| && Lower(s[i..i + 8]) == "doi.org/" && MatchesAt(s, i + 8)
    case Colon => i + 4 <= |s| && Lower(s[i..i + 4]) == "doi:" && MatchesAt(s, GroupStart(s, i, p))
  }

  /** `re.search`: the leftmost position at or after `i` where `p` matches. */
  function Search(s: string, i: nat, p: Pattern): (r: Option<nat>)
    requires i <= |s|
    ensures r.Some? ==> i <= r.value <= |s| && Matches(s, r.value, p)
    ensures r.Some? ==> forall j :: i <= j < r.value ==> !Matches(s, j, p)
    ensures r.None? ==> forall j :: i <= j <= |s| ==> !Matches(s, j, p)
    decreases |s| - i
  {
    if Matches(s, i, p) then Some(i)
    else if i == |s| then None
    else Search(s, i + 1, p)
  }

  /** A character `rstrip('.,;:)')` removes. */
  predicate Punct(c: char) {
    c == '.' || c == ',' || c == ';' || c == ':' || c == ')'
  }

  /** `t.rstrip('.,;:)')`: the longest prefix not ending in one of those characters. */
  function RStripPunct(t: string): (r: string)
    ensures |r| <= |t| && r == t[..|r|]
    ensures r == [] || !Punct(r[|r| - 1])
    ensures forall k :: |r| <= k < |t| ==> Punct(t[k])
  {
    if t != [] && Punct(t[|t| - 1]) then RStripPunct(t[..|t| - 1]) else t
  }

  /** The DOI one pattern yields, if it matches anywhere. */
  function Attempt(s: string, p: Pattern): Option<string> {
    match Search(s, 0, p)
    case None => None
    case Some(i) =>
      var g := GroupStart(s, i, p);
      Some(RStripPunct(s[g..MatchEnd(s, g)]))
  }

  /** `normalize_doi`: the first pattern that matches the stripped input decides. */
  function NormalizeDoi(input: string): Option<string> {
    var s := Strip(input);
    var bare := Attempt(s, Bare);
    if bare.Some? then bare
    else
      var org := Attempt(s, Org);
      if org.Some? then org else Attempt(s, Colon)
  }

  // ---------------------------------------------------------------------------
  // What extraction guarantees.
  // ---------------------------------------------------------------------------

  /** The second and third patterns can only match where the first one also matches. */
  lemma LaterPatternsNeedBare(s: string, i: nat, p: Pattern)
    requires i <= |s| && Matches(s, i, p)
    ensures GroupStart(s, i, p) <= |s| && MatchesAt(s, GroupStart(s, i, p))
  {
  }

  /**
   * Only the first pattern ever decides: the other two capture a DOI that
   * the first one also matches, so when the first finds nothing they do not
   * either.
   */
  lemma OnlyBareDecides(input: string)
    ensures NormalizeDoi(input) == Attempt(Strip(input), Bare)
  {
    var s := Strip(input);
    if Search(s, 0, Bare).None? {
      forall p | p != Bare
        ensures Search(s, 0, p).None?
      {
        if Search(s, 0, p).Some? {
          var i := Search(s, 0, p).value;
          LaterPatternsNeedBare(s, i, p);
          assert Matches(s, GroupStart(s, i, p), Bare);
        }
      }
    }
  }

  /** The input contains the DOI pattern somewhere. */
  predicate HasDoi(s: string) {
    exists i :: 0 <= i <= |s| && MatchesAt(s, i)
  }

  /** Extraction fails exactly when the stripped input holds no match of the DOI pattern. */
  lemma NoneIffNoMatch(input: string)
    ensures NormalizeDoi(input).None? <==> !HasDoi(Strip(input))
  {
    OnlyBareDecides(input);
    var s := Strip(input);
    if HasDoi(s) {
      var i :| 0 <= i <= |s| && MatchesAt(s, i);
      assert Matches(s, i, Bare);
    }
  }

  /**
   * A DOI as extracted: `10.`, 4 to 9 digits, `/`, then a tail with no
   * whitespace, not ending in any of `. , ; : )`.
   */
  predicate Shaped(r: string) {
    && 4 <= |r| && r[0] == '1' && r[1] == '0' && r[2] == '.'
    && var d := DigitRun(r, 3);
    && 4 <= d <= 9 && 3 + d < |r| && r[3 + d] == '/'
    && (forall k :: 4 + d <= k < |r| ==> !IsSpace(r[k]))
    && !Punct(r[|r| - 1])
  }

  /** The stripped group keeps everything up to and including the slash. */
  lemma GroupShaped(s: string, g: nat, r: string)
    requires MatchesAt(s, g) && r == RStripPunct(s[g..MatchEnd(s, g)])
    ensures Shaped(r)
    ensures g + |r| <= |s| && r == s[g..g + |r|]
  {
    GroupPrefix(s, g, r);
    SliceShaped(s, g, r);
  }

  /** What `rstrip` leaves of the match is a prefix of it that reaches past the slash. */
  lemma GroupPrefix(s: string, g: nat, r: string)
    requires MatchesAt(s, g) && r == RStripPunct(s[g..MatchEnd(s, g)])
    ensures 4 + DigitRun(s, g + 3) <= |r| && g + |r| <= MatchEnd(s, g) && r == s[g..g + |r|]
    ensures forall k :: 4 + DigitRun(s, g + 3) <= k < |r| ==> !IsSpace(r[k])
  {
    var d := DigitRun(s, g + 3);
    var e := MatchEnd(s, g);
    var t := s[g..e];
    assert 4 + d <= |r| by {
      assert t[3 + d] == '/' && !Punct(t[3 + d]);
    }
    assert r == s[g..g + |r|] by {
      assert forall k :: 0 <= k < |r| ==> r[k] == t[k] == s[g + k];
    }
  }

  /** A slice of the input at a match that reaches past the slash, and does not end in punctuation, is shaped. */
  lemma SliceShaped(s: string, g: nat, r: string)
    requires MatchesAt(s, g) && 4 + DigitRun(s, g + 3) <= |r| && g + |r| <= |s| && r == s[g..g + |r|]
    requires forall k :: 4 + DigitRun(s, g + 3) <= k < |r| ==> !IsSpace(r[k])
    requires !Punct(r[|r| - 1])
    ensures Shaped(r)
  {
    var d := DigitRun(s, g + 3);
    assert forall k :: 0 <= k < |r| ==> r[k] == s[g + k];
    assert r[3 + d] == '/';
    DigitRunStopsOrEnds(r, 3, 3 + d);
  }

  /** A returned DOI has the shape of a DOI. */
  lemma ExtractedShape(input: string)
    requires NormalizeDoi(input).Some?
    ensures Shaped(NormalizeDoi(input).value)
  {
    OnlyBareDecides(input);
    var s := Strip(input);
    var i := Search(s, 0, Bare).value;
    GroupShaped(s, i, RStripPunct(s[i..MatchEnd(s, i)]));
  }

  /**
   * A returned DOI is cut from the leftmost match of the DOI pattern in the
   * stripped input, at its start, and ends where `rstrip` stops.
   */
  lemma ExtractedIsLeftmost(input: string, s: string, doi: string, i: nat)
    requires s == Strip(input) && NormalizeDoi(input) == Some(doi)
    requires i <= |s| && MatchesAt(s, i)
    requires forall j :: 0 <= j < i ==> !MatchesAt(s, j)
    ensures i + |doi| <= |s| && doi == s[i..i + |doi|]
  {
    OnlyBareDecides(input);
    BareAttemptLeftmost(s, doi, i);
  }

  /** The bare pattern's attempt returns the group of its leftmost match. */
  lemma BareAttemptLeftmost(s: string, doi: string, i: nat)
    requires Attempt(s, Bare) == Some(doi)
    requires i <= |s| && MatchesAt(s, i)
    requires forall j :: 0 <= j < i ==> !MatchesAt(s, j)
    ensures i + |doi| <= |s| && doi == s[i..i + |doi|]
  {
    SearchFindsLeftmost(s, i);
    assert doi == RStripPunct(s[i..MatchEnd(s, i)]);
    GroupShaped(s, i, doi);
  }

  /** The search for the bare pattern stops at its leftmost match. */
  lemma SearchFindsLeftmost(s: string, i: nat)
    requires i <= |s| && MatchesAt(s, i)
    requires forall j :: 0 <= j < i ==> !MatchesAt(s, j)
    ensures Search(s, 0, Bare) == Some(i)
  {
    var r := Search(s, 0, Bare);
    assert Matches(s, i, Bare);
    var k := r.value;
    assert Matches(s, k, Bare);
  }

  // ---------------------------------------------------------------------------
  // The verdict.
  // ---------------------------------------------------------------------------

  /** What a registry query returns; a field the response lacks reads as null. */
  datatype Lookup = Lookup(
    found: bool,
    title: Value, authors: Value, journal: Value, year: Value, kind: Value, publisher: Value,
    referencedBy: Value)

  datatype Confidence = High | Medium | NoConfidence

  /** The metadata of a verified DOI; the citation count is reported only when both registries agree. */
  datatype Metadata = Metadata(
    title: Value, authors: Value, journal: Value, year: Value, kind: Value, publisher: Value,
    citationCount: Option<Value>)

  /** The result of `verify_doi`. */
  datatype Report =
    | Unextracted(rawInput: string, error: string)
    | Checked(doi: string, rawInput: string, crossref: Lookup, doiOrg: Lookup,
              verified: bool, confidence: Confidence, metadata: Option<Metadata>)
  {
    predicate Verified() {
      Checked? && verified
    }
  }

  const UnextractedError := "Could not extract a valid DOI from input"

  /** Python's `a or b`. */
  function Or(a: Value, b: Value): Value {
    if Truthy(a) then a else b
  }

  /** Both registries know the DOI: each field from CrossRef, or from doi.org when CrossRef's is empty. */
  function Merged(cr: Lookup, org: Lookup): Metadata {
    Metadata(Or(cr.title, org.title), Or(cr.authors, org.authors), Or(cr.journal, org.journal),
             Or(cr.year, org.year), Or(cr.kind, org.kind), Or(cr.publisher, org.publisher),
             Some(cr.referencedBy))
  }

  /** One registry knows the DOI: its fields as they are. */
  function FromOne(src: Lookup): Metadata {
    Metadata(src.title, src.authors, src.journal, src.year, src.kind, src.publisher, None)
  }

  /** The grading of a DOI from the two registry answers. */
  function Grade(doi: string, input: string, cr: Lookup, org: Lookup): Report {
    if cr.found && org.found then
      Checked(doi, input, cr, org, true, High, Some(Merged(cr, org)))
    else if cr.found || org.found then
      Checked(doi, input, cr, org, true, Medium, Some(FromOne(if cr.found then cr else org)))
    else
      Checked(doi, input, cr, org, false, NoConfidence, None)
  }

  /**
   * `verify_doi`: extract the DOI; if there is none, report that without
   * querying; otherwise query both registries about it and grade the answers.
   */
  function VerifyDoi(input: string, crossref: string -> Lookup, doiOrg: string -> Lookup): Report {
    var doi := NormalizeDoi(input);
    if doi.None? || doi.value == [] then Unextracted(input, UnextractedError)
    else Grade(doi.value, input, crossref(doi.value), doiOrg(doi.value))
  }

  /** An extracted DOI is never empty, so `if not doi` fails only when nothing was extracted. */
  lemma ExtractedNonEmpty(input: string)
    ensures NormalizeDoi(input).Some? ==> NormalizeDoi(input).value != []
  {
    if NormalizeDoi(input).Some? {
      ExtractedShape(input);
    }
  }

  /**
   * Without a DOI in the input the report is unverified, carries the error
   * and the raw input, and does not depend on the registries at all.
   */
  lemma NoDoiNoQuery(input: string, cr1: string -> Lookup, org1: string -> Lookup, cr2: string -> Lookup, org2: string -> Lookup)
    requires !HasDoi(Strip(input))
    ensures VerifyDoi(input, cr1, org1) == VerifyDoi(input, cr2, org2) == Unextracted(input, UnextractedError)
    ensures !VerifyDoi(input, cr1, org1).Verified()
  {
    NoneIffNoMatch(input);
  }

  /** With a DOI in the input, both registries are asked about the extracted DOI and their answers graded. */
  lemma QueriesExtracted(input: string, crossref: string -> Lookup, doiOrg: string -> Lookup)
    requires HasDoi(Strip(input))
    ensures NormalizeDoi(input).Some?
    ensures var doi := NormalizeDoi(input).value;
      VerifyDoi(input, crossref, doiOrg) == Grade(doi, input, crossref(doi), doiOrg(doi))
  {
    NoneIffNoMatch(input);
    ExtractedNonEmpty(input);
  }

  /**
   * The DOI counts as verified exactly when at least one registry found it;
   * confidence is high when both did, medium when one did and none
   * otherwise; there is metadata exactly when it is verified; the report
   * keeps the DOI, the raw input and both answers.
   */
  lemma GradeByFound(doi: string, input: string, cr: Lookup, org: Lookup)
    ensures var r := Grade(doi, input, cr, org);
      && r.Checked? && r.doi == doi && r.rawInput == input && r.crossref == cr && r.doiOrg == org
      && (r.verified <==> cr.found || org.found)
      && (r.confidence == High <==> cr.found && org.found)
      && (r.confidence == Medium <==> cr.found != org.found)
      && (r.confidence == NoConfidence <==> !cr.found && !org.found)
      && (r.metadata.Some? <==> r.verified)
  {
  }

  /** When exactly one registry found the DOI, the metadata is that registry's, without a citation count. */
  lemma OneFoundMetadata(doi: string, input: string, cr: Lookup, org: Lookup)
    requires cr.found != org.found
    ensures var src := if cr.found then cr else org;
      && src.found
      && Grade(doi, input, cr, org).metadata
           == Some(Metadata(src.title, src.authors, src.journal, src.year, src.kind, src.publisher, None))
  {
  }

  /** `a or b` is truthy when either is, and is `a` whenever `a` is truthy. */
  lemma OrFallsBack(a: Value, b: Value)
    ensures Truthy(Or(a, b)) <==> Truthy(a) || Truthy(b)
    ensures Truthy(a) ==> Or(a, b) == a
    ensures !Truthy(a) ==> Or(a, b) == b
  {
  }

  /**
   * When both registries found the DOI, each metadata field is non-empty
   * when either registry's is, CrossRef's value wins when it is non-empty,
   * and the citation count is CrossRef's.
   */
  lemma BothFoundMetadata(cr: Lookup, org: Lookup)
    ensures var m := Merged(cr, org);
      && (Truthy(m.title) <==> Truthy(cr.title) || Truthy(org.title))
      && (Truthy(cr.title) ==> m.title == cr.title)
      && (Truthy(m.authors) <==> Truthy(cr.authors) || Truthy(org.authors))
      && (Truthy(cr.authors) ==> m.authors == cr.authors)
      && (Truthy(m.journal) <==> Truthy(cr.journal) || Truthy(org.journal))
      && (Truthy(cr.journal) ==> m.journal == cr.journal)
      && (Truthy(m.year) <==> Truthy(cr.year) || Truthy(org.year))
      && (Truthy(cr.year) ==> m.year == cr.year)
      && (Truthy(m.kind) <==> Truthy(cr.kind) || Truthy(org.kind))
      && (Truthy(cr.kind) ==> m.kind == cr.kind)
      && (Truthy(m.publisher) <==> Truthy(cr.publisher) || Truthy(org.publisher))
      && (Truthy(cr.publisher) ==> m.publisher == cr.publisher)
      && m.citationCount == Some(cr.referencedBy)
  {
    OrFallsBack(cr.title, org.title);
    OrFallsBack(cr.authors, org.authors);
    OrFallsBack(cr.journal, org.journal);
    OrFallsBack(cr.year, org.year);
    OrFallsBack(cr.kind, org.kind);
    OrFallsBack(cr.publisher, org.publisher);
  }

}
