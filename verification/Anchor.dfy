/** Anchor checking of a report against its evidence (src/fleet_graph/research_anchor.py). */
module Anchor {
  import opened Text
  import opened RateHeader

  datatype Evidence = Evidence(anchor: string, quote: string)

  datatype Finding = Hit | Failed | Unanchored

  datatype Claim = Claim(anchor: string, quote: string, line: string, finding: Finding)

  datatype Summary = Summary(total: int, ok: int, failed: int, unanchored: int, rate: real, sumsOk: bool)

  datatype Check = Check(claims: seq<Claim>, summary: Summary)

  // ----- references ---------------------------------------------------------

  const OPEN := "[anchor:"

  predicate OccursAt(s: string, p: string, i: nat) { i + |p| <= |s| && s[i..i + |p|] == p }

  function FindText(s: string, p: string, from: nat): (r: int)
    requires from <= |s|
    ensures -1 <= r && (r >= 0 ==> from <= r && OccursAt(s, p, r))
    decreases |s| - from
  {
    if OccursAt(s, p, from) then from
    else if from < |s| then FindText(s, p, from + 1)
    else -1
  }

  lemma {:induction false} FindTextFirst(s: string, p: string, from: nat, at: nat)
    requires from <= at <= |s| && OccursAt(s, p, at)
    requires forall i :: from <= i < at ==> !OccursAt(s, p, i)
    ensures FindText(s, p, from) == at
    decreases at - from
  {
    if from < at { FindTextFirst(s, p, from + 1, at); }
  }

  lemma {:induction false} FindTextNone(s: string, p: string, from: nat)
    requires from <= |s|
    ensures FindText(s, p, from) == -1 <==> forall i :: from <= i <= |s| ==> !OccursAt(s, p, i)
    decreases |s| - from
  {
    if !OccursAt(s, p, from) && from < |s| {
      FindTextNone(s, p, from + 1);
    }
  }

  /** The references of a text, left to right: "[anchor:", then at least one code point other than
      ']', then ']'. White space around the reference does not count. */
  function Refs(text: string): seq<string>
    decreases |text|, 0
  {
    var i := FindText(text, OPEN, 0);
    if i < 0 then [] else RefsTail(text[i + |OPEN|..], text[i + 1..])
  }

  /** Behind the mark: the reference up to its bracket; without a text it is none, and the search
      goes on right behind the start of the mark. */
  function RefsTail(rest: string, next: string): seq<string>
    requires |rest| <= |next|
    decreases |next|, 1
  {
    var j := Find(rest, ']');
    if j < 0 then [] else if j == 0 then Refs(next) else [Strip(rest[..j])] + Refs(rest[j + 1..])
  }

  /** Text with references in it: each reference after a piece of plain text, then a last piece. */
  datatype Cited = End(text: string) | Cite(before: string, left: string, ref: string, right: string, rest: Cited)

  function Rendered(c: Cited): string
  {
    match c
    case End(text) => text
    case Cite(before, left, ref, right, rest) => before + "[anchor:" + (left + ref + right) + "]" + Rendered(rest)
  }

  function Citations(c: Cited): seq<string>
  {
    match c
    case End(_) => []
    case Cite(_, _, ref, _, rest) => [ref] + Citations(rest)
  }

  predicate Plain(s: string) { forall i :: 0 <= i <= |s| ==> !OccursAt(s, "[anchor:", i) }

  predicate IsRef(s: string) { s != "" && ']' !in s && !IsSpace(s[0]) && !IsSpace(s[|s| - 1]) }

  predicate Blank(s: string) { forall c :: c in s ==> IsSpace(c) }

  predicate WellCited(c: Cited)
  {
    match c
    case End(text) => Plain(text)
    case Cite(before, left, ref, right, rest) => Plain(before) && IsRef(ref) && Blank(left) && Blank(right) && WellCited(rest)
  }

  lemma MarkStartsAfterPlain(before: string, after: string)
    requires Plain(before)
    ensures FindText(before + OPEN + after, OPEN, 0) == |before|
  {
    var s := before + OPEN + after;
    FindTextNone(before, OPEN, 0);
    assert s[|before|..|before| + |OPEN|] == OPEN;
    forall i: nat | i < |before| ensures !OccursAt(s, OPEN, i) {
      if i + |OPEN| <= |before| {
        assert s[i..i + |OPEN|] == before[i..i + |OPEN|];
        assert !OccursAt(before, OPEN, i);
      } else {
        assert s[i..i + |OPEN|][|before| - i] == s[|before|] == OPEN[0];
        assert OPEN[|before| - i] != OPEN[0];
      }
    }
    FindTextFirst(s, OPEN, 0, |before|);
  }

  lemma RefsCite(before: string, raw: string, after: string)
    requires Plain(before) && raw != "" && ']' !in raw
    ensures Refs(before + OPEN + raw + "]" + after) == [Strip(raw)] + Refs(after)
  {
    var s := before + OPEN + raw + "]" + after;
    assert s == before + OPEN + (raw + "]" + after);
    MarkStartsAfterPlain(before, raw + "]" + after);
    var rest := s[|before| + |OPEN|..];
    assert rest == raw + "]" + after;
    FindAt(raw, ']', after);
    assert rest[..|raw|] == raw && rest[|raw| + 1..] == after;
  }

  lemma {:induction false} FindShift(c: char, s: string, p: string, from: nat)
    requires from <= |s|
    ensures FindText([c] + s, p, from + 1) == var r := FindText(s, p, from); if r < 0 then -1 else r + 1
    decreases |s| - from
  {
    assert from + |p| <= |s| ==> ([c] + s)[from + 1..from + 1 + |p|] == s[from..from + |p|];
    if from < |s| { FindShift(c, s, p, from + 1); }
  }

  lemma RefsSkip(c: char, after: string)
    requires c != '['
    ensures Refs([c] + after) == Refs(after)
  {
    var i := FindText(after, OPEN, 0);
    OpenIsShifted(c, after);
    if i >= 0 {
      ShiftedRest(c, after, i + |OPEN|);
      ShiftedRest(c, after, i + 1);
    }
  }

  lemma ShiftedRest(c: char, s: string, k: nat)
    requires k <= |s|
    ensures ([c] + s)[k + 1..] == s[k..]
  {
  }

  lemma OpenIsShifted(c: char, after: string)
    requires c != '['
    ensures FindText([c] + after, OPEN, 0) == var r := FindText(after, OPEN, 0); if r < 0 then -1 else r + 1
  {
    var s := [c] + after;
    assert |s| >= |OPEN| ==> s[0..|OPEN|][0] == c;
    assert OPEN[0] == '[';
    FindShift(c, after, OPEN, 0);
  }

  lemma {:induction false} RefsSkipAll(p: string, after: string)
    requires '[' !in p
    ensures Refs(p + after) == Refs(after)
  {
    if p == "" {
      assert p + after == after;
    } else {
      RefsSkip(p[0], p[1..] + after);
      RefsSkipAll(p[1..], after);
      assert p + after == [p[0]] + (p[1..] + after);
    }
  }

  /** A reference without a text is none, and what follows it is searched on. */
  lemma EmptyRefIsSkipped(before: string, after: string)
    requires Plain(before)
    ensures Refs(before + "[anchor:]" + after) == Refs(after)
  {
    EmptyMark(before, after);
    MarkStartsAfterPlain(before, "]" + after);
    RefsSkipAll("anchor:]", after);
  }

  lemma EmptyMark(before: string, after: string)
    ensures var s := before + OPEN + ("]" + after);
      && before + "[anchor:]" + after == s
      && s[|before| + |OPEN|..] == "]" + after && s[|before| + 1..] == "anchor:]" + after
  {
  }

  /** A reference that is never closed is none. */
  lemma UnclosedRefIsNone(before: string, rest: string)
    requires Plain(before) && ']' !in rest
    ensures Refs(before + "[anchor:" + rest) == []
  {
    MarkStartsAfterPlain(before, rest);
    assert (before + OPEN + rest)[|before| + |OPEN|..] == rest;
    FindFacts(rest, ']');
  }

  lemma PaddedRef(left: string, ref: string, right: string)
    requires IsRef(ref) && Blank(left) && Blank(right)
    ensures var raw := left + ref + right; raw != "" && ']' !in raw && Strip(raw) == ref
  {
    StripPadded(left, ref, right);
    assert !IsSpace(']');
  }

  /** Extraction gives back exactly the references that were written, in order. */
  lemma {:induction false} RefsOfCited(c: Cited)
    requires WellCited(c)
    ensures Refs(Rendered(c)) == Citations(c)
  {
    if c.Cite? {
      RefsOfCited(c.rest);
      PaddedRef(c.left, c.ref, c.right);
      RefsCite(c.before, c.left + c.ref + c.right, Rendered(c.rest));
    }
  }

  // ----- checking -----------------------------------------------------------

  /** The evidence for an anchor: the last one filed under it; an empty anchor has none. */
  function QuoteFor(evidence: seq<Evidence>, anchor: string): Option<string>
  {
    if evidence == [] || anchor == "" then None
    else
      var last := evidence[|evidence| - 1];
      if last.anchor == anchor then Some(last.quote) else QuoteFor(evidence[..|evidence| - 1], anchor)
  }

  function ClaimOf(evidence: seq<Evidence>, line: string, ref: string): Claim
  {
    match QuoteFor(evidence, ref)
    case Some(quote) => Claim(ref, quote, line, Hit)
    case None => Claim(ref, "", line, Failed)
  }

  function RefClaims(evidence: seq<Evidence>, line: string, refs: seq<string>): seq<Claim>
  {
    if refs == [] then []
    else RefClaims(evidence, line, refs[..|refs| - 1]) + [ClaimOf(evidence, line, refs[|refs| - 1])]
  }

  function LineClaims(evidence: seq<Evidence>, line: string): seq<Claim>
  {
    if Refs(line) == [] then [Claim("", "", line, Unanchored)] else RefClaims(evidence, line, Refs(line))
  }

  function Claims(evidence: seq<Evidence>, lines: seq<string>): seq<Claim>
  {
    if lines == [] then []
    else Claims(evidence, lines[..|lines| - 1]) + LineClaims(evidence, lines[|lines| - 1])
  }

  function Count(claims: seq<Claim>, f: Finding): nat
  {
    if claims == [] then 0
    else Count(claims[..|claims| - 1], f) + if claims[|claims| - 1].finding == f then 1 else 0
  }

  /** The rate of a check: exact, and 0 for a report without claims. */
  function Rate(ok: nat, total: nat): real { if total == 0 then 0.0 else ok as real / total as real }

  function Summed(claims: seq<Claim>): Summary
  {
    var ok, failed, unanchored := Count(claims, Hit), Count(claims, Failed), Count(claims, Unanchored);
    Summary(|claims|, ok, failed, unanchored, Rate(ok, |claims|), ok + failed + unanchored == |claims|)
  }

  function Checked(report: string, evidence: seq<Evidence>): Check
  {
    var claims := Claims(evidence, ClaimLines(report));
    Check(claims, Summed(claims))
  }

  /** byAnchor holds for every anchor its evidence's quote, and nothing else. */
  ghost predicate Indexes(byAnchor: map<string, string>, evidence: seq<Evidence>)
  {
    forall a :: QuoteFor(evidence, a) == if a in byAnchor then Some(byAnchor[a]) else None
  }

  method IndexEvidence(evidence: seq<Evidence>) returns (byAnchor: map<string, string>)
    ensures Indexes(byAnchor, evidence)
  {
    byAnchor := map[];
    for i := 0 to |evidence|
      invariant Indexes(byAnchor, evidence[..i])
    {
      assert evidence[..i + 1][..i] == evidence[..i];
      if evidence[i].anchor != "" { byAnchor := byAnchor[evidence[i].anchor := evidence[i].quote]; }
    }
    assert evidence[..|evidence|] == evidence;
  }

  method CountFindings(claims: seq<Claim>, f: Finding) returns (n: nat)
    ensures n == Count(claims, f)
  {
    n := 0;
    for i := 0 to |claims|
      invariant n == Count(claims[..i], f)
    {
      assert claims[..i + 1][..i] == claims[..i];
      if claims[i].finding == f { n := n + 1; }
    }
    assert claims[..|claims|] == claims;
  }

  method CheckLine(evidence: seq<Evidence>, byAnchor: map<string, string>, line: string) returns (claims: seq<Claim>)
    requires Indexes(byAnchor, evidence)
    ensures claims == LineClaims(evidence, line)
  {
    var refs := Refs(line);
    if refs == [] { return [Claim("", "", line, Unanchored)]; }
    claims := [];
    for i := 0 to |refs|
      invariant claims == RefClaims(evidence, line, refs[..i])
    {
      assert refs[..i + 1][..i] == refs[..i];
      var matched := refs[i] in byAnchor;
      claims := claims + [Claim(refs[i], if matched then byAnchor[refs[i]] else "", line, if matched then Hit else Failed)];
    }
    assert refs[..|refs|] == refs;
  }

  lemma ClaimsSnoc(evidence: seq<Evidence>, front: seq<string>, last: string)
    ensures Claims(evidence, front + [last]) == Claims(evidence, front) + LineClaims(evidence, last)
  {
    assert (front + [last])[..|front|] == front;
  }

  method CheckLines(evidence: seq<Evidence>, byAnchor: map<string, string>, lines: seq<string>) returns (claims: seq<Claim>)
    requires Indexes(byAnchor, evidence)
    ensures claims == Claims(evidence, lines)
  {
    claims := [];
    for i := 0 to |lines|
      invariant claims == Claims(evidence, lines[..i])
    {
      ClaimsSnoc(evidence, lines[..i], lines[i]);
      assert lines[..i + 1] == lines[..i] + [lines[i]];
      var more := CheckLine(evidence, byAnchor, lines[i]);
      claims := claims + more;
    }
    assert lines[..|lines|] == lines;
  }

  method CheckAnchors(report: string, evidence: seq<Evidence>) returns (check: Check)
    ensures check == Checked(report, evidence)
  {
    var byAnchor := IndexEvidence(evidence);
    var lines := ReportClaimLines(report);
    var claims := CheckLines(evidence, byAnchor, lines);
    var total := |claims|;
    var ok := CountFindings(claims, Hit);
    var failed := CountFindings(claims, Failed);
    var unanchored := CountFindings(claims, Unanchored);
    var rate := if total == 0 then 0.0 else ok as real / total as real;
    check := Check(claims, Summary(total, ok, failed, unanchored, rate, ok + failed + unanchored == total));
  }

  // ----- the run's files ----------------------------------------------------

  /** The three decimals of a rate, whatever the float formatting makes of it. */
  type RateText = (nat, nat) -> string

  function FiledReport(fmt: RateText, file: string, evidence: seq<Evidence>): string
  {
    var s := Checked(ReadText(file), evidence).summary;
    Headed(ReadText(file), fmt(s.ok, s.total))
  }

  predicate Conserved(s: Summary) { s.ok + s.failed + s.unanchored == s.total }

  predicate Green(check: Option<Check>, report: Option<string>)
  {
    && check.Some? && check.value.summary.rate > 0.9
    && check.value.summary.sumsOk && Conserved(check.value.summary)
    && report.Some? && HasHeader(ReadText(report.value))
  }

  class ResearchRun {
    var report: Option<string>
    var evidence: seq<Evidence>
    var check: Option<Check>

    /** Without a report nothing is written. */
    method CheckRun(fmt: RateText) returns (result: Option<Check>)
      modifies this`report, this`check
      ensures old(report).None? ==> result.None? && report == old(report) && check == old(check)
      ensures old(report).Some? ==>
        && result == check == Some(Checked(ReadText(old(report).value), evidence))
        && report == Some(FiledReport(fmt, old(report).value, evidence))
    {
      if report.None? { return None; }
      var text := ReadText(report.value);
      var c := CheckAnchors(text, evidence);
      check := Some(c);
      var headed := WithRateHeader(text, fmt(c.summary.ok, c.summary.total));
      report := Some(headed);
      result := check;
    }

    method JudgeRun() returns (green: bool)
      ensures green == Green(check, report)
    {
      if check.None? { return false; }
      var s := check.value.summary;
      var sumsOk := s.sumsOk && s.ok + s.failed + s.unanchored == s.total;
      var hasHeader := false;
      if report.Some? {
        var first := SplitLines(ReadText(report.value));
        if first != [] { hasHeader := StartsWith(Strip(first[0]), MARK); }
      }
      green := s.rate > 0.9 && sumsOk && hasHeader;
    }
  }

  // ----- the accounts -------------------------------------------------------

  /** Of one line: its references that the evidence knows, and those it does not. */
  function Known(evidence: seq<Evidence>, refs: seq<string>): nat
  {
    if refs == [] then 0
    else Known(evidence, refs[..|refs| - 1]) + if QuoteFor(evidence, refs[|refs| - 1]).Some? then 1 else 0
  }

  function KnownOf(evidence: seq<Evidence>, lines: seq<string>): nat
  {
    if lines == [] then 0
    else KnownOf(evidence, lines[..|lines| - 1]) + Known(evidence, Refs(lines[|lines| - 1]))
  }

  function Weight(lines: seq<string>): nat
  {
    if lines == [] then 0
    else
      var refs := |Refs(lines[|lines| - 1])|;
      Weight(lines[..|lines| - 1]) + if refs > 1 then refs else 1
  }

  function Bare(lines: seq<string>): nat
  {
    if lines == [] then 0
    else Bare(lines[..|lines| - 1]) + if Refs(lines[|lines| - 1]) == [] then 1 else 0
  }

  lemma {:induction false} CountParts(a: seq<Claim>, b: seq<Claim>, f: Finding)
    ensures Count(a + b, f) == Count(a, f) + Count(b, f)
  {
    if b == [] {
      assert a + b == a;
    } else {
      assert (a + b)[..|a + b| - 1] == a + b[..|b| - 1];
      CountParts(a, b[..|b| - 1], f);
    }
  }

  lemma {:induction false} RefTally(evidence: seq<Evidence>, line: string, refs: seq<string>)
    ensures var claims := RefClaims(evidence, line, refs);
      && |claims| == |refs| && Count(claims, Hit) == Known(evidence, refs)
      && Count(claims, Unanchored) == 0 && Count(claims, Hit) + Count(claims, Failed) == |refs|
  {
    if refs != [] {
      var front := RefClaims(evidence, line, refs[..|refs| - 1]);
      var all := RefClaims(evidence, line, refs);
      RefTally(evidence, line, refs[..|refs| - 1]);
      assert all[..|all| - 1] == front && all[|all| - 1] == ClaimOf(evidence, line, refs[|refs| - 1]);
    }
  }

  lemma LineTally(evidence: seq<Evidence>, line: string)
    ensures var claims := LineClaims(evidence, line);
      && Count(claims, Hit) == Known(evidence, Refs(line))
      && Count(claims, Unanchored) == (if Refs(line) == [] then 1 else 0)
      && |claims| == Count(claims, Hit) + Count(claims, Failed) + Count(claims, Unanchored)
      && |claims| == (if |Refs(line)| > 1 then |Refs(line)| else 1)
  {
    RefTally(evidence, line, Refs(line));
    var claims := LineClaims(evidence, line);
    if Refs(line) == [] { assert claims[..0] == []; }
  }

  /** Every claim is counted once: hits are the references the evidence knows, unanchored are the
      lines without a reference, and all findings together are one per reference or bare line. */
  lemma {:induction false} ClaimsTally(evidence: seq<Evidence>, lines: seq<string>)
    ensures var claims := Claims(evidence, lines);
      && Count(claims, Hit) == KnownOf(evidence, lines)
      && Count(claims, Unanchored) == Bare(lines)
      && Count(claims, Hit) + Count(claims, Failed) + Count(claims, Unanchored) == |claims| == Weight(lines)
  {
    if lines != [] {
      var front, line := lines[..|lines| - 1], lines[|lines| - 1];
      ClaimsTally(evidence, front);
      LineTally(evidence, line);
      CountParts(Claims(evidence, front), LineClaims(evidence, line), Hit);
      CountParts(Claims(evidence, front), LineClaims(evidence, line), Failed);
      CountParts(Claims(evidence, front), LineClaims(evidence, line), Unanchored);
    }
  }

  lemma Quotient(a: real, b: real)
    requires b > 0.0
    ensures a / b > 0.9 <==> a > 0.9 * b
  {
    var q := a / b;
    assert q * b == a;
    if q > 0.9 { assert q * b > 0.9 * b; } else { assert q * b <= 0.9 * b; }
  }

  lemma RateAbove(ok: nat, total: nat)
    requires ok <= total
    ensures Rate(ok, total) > 0.9 <==> 10 * ok > 9 * total
  {
    if total > 0 { Quotient(ok as real, total as real); }
  }

  /** A run judged right after its check is green exactly when more than nine in ten of its claims
      are references the evidence knows. */
  lemma FreshCheckIsJudgedByItsClaims(fmt: RateText, file: string, evidence: seq<Evidence>)
    requires forall o, t :: NoBreaks(fmt(o, t))
    ensures var lines := ClaimLines(ReadText(file));
      Green(Some(Checked(ReadText(file), evidence)), Some(FiledReport(fmt, file, evidence)))
      <==> 10 * KnownOf(evidence, lines) > 9 * Weight(lines)
  {
    var lines := ClaimLines(ReadText(file));
    var s := Checked(ReadText(file), evidence).summary;
    ClaimsTally(evidence, lines);
    RateAbove(s.ok, s.total);
    HeadedHasHeader(ReadText(file), fmt(s.ok, s.total));
    HeadedReads(ReadText(file), fmt(s.ok, s.total));
  }

  lemma HeadedHasHeader(report: string, rateText: string)
    requires NoBreaks(rateText)
    ensures HasHeader(Headed(report, rateText))
  {
    var h := Header(rateText);
    HeaderIsHeader(rateText);
    if HasHeader(report) {
      var rest, fed := SplitLines(report)[1..], EndsWith(report, "\n");
      Rehead(h, rest, fed);
      FirstLine(h, Tail(rest, fed));
    } else {
      SplitLinesCons(h, report);
    }
  }

  /** A report written after being read reads as it was written. */
  lemma HeadedReads(report: string, rateText: string)
    requires NoBreaks(rateText) && '\r' !in report
    ensures ReadText(Headed(report, rateText)) == Headed(report, rateText)
  {
    HeaderIsHeader(rateText);
    if HasHeader(report) {
      OnlyFeedsRejoined([Header(rateText)] + SplitLines(report)[1..], EndsWith(report, "\n"));
    }
  }

  /** A second check of the same run finds the same, and leaves the report alone exactly when it
      had a header before the first or has no break but line feeds. */
  lemma SecondCheckChangesNothing(fmt: RateText, file: string, evidence: seq<Evidence>)
    requires forall o, t :: NoBreaks(fmt(o, t))
    ensures var once := FiledReport(fmt, file, evidence);
      && Checked(ReadText(once), evidence) == Checked(ReadText(file), evidence)
      && (FiledReport(fmt, once, evidence) == once <==> HasHeader(ReadText(file)) || OnlyLineFeeds(ReadText(file)))
  {
    var s := Checked(ReadText(file), evidence).summary;
    var rateText := fmt(s.ok, s.total);
    HeadedReads(ReadText(file), rateText);
    HeaderKeepsClaims(ReadText(file), rateText);
    LastHeaderWins(ReadText(file), rateText, rateText);
  }

  // ----- claim by claim -----------------------------------------------------

  /** A reference is known by the last evidence filed under it; the empty one is never known. */
  lemma {:induction false} QuoteForIsLast(evidence: seq<Evidence>, anchor: string)
    ensures match QuoteFor(evidence, anchor)
      case Some(quote) => anchor != "" && exists i :: 0 <= i < |evidence| && LastUnder(evidence, anchor, i) && evidence[i].quote == quote
      case None => anchor == "" || forall i :: 0 <= i < |evidence| ==> evidence[i].anchor != anchor
  {
    if evidence != [] && anchor != "" {
      var front := evidence[..|evidence| - 1];
      if evidence[|evidence| - 1].anchor == anchor {
        assert LastUnder(evidence, anchor, |evidence| - 1);
      } else {
        QuoteForIsLast(front, anchor);
        if QuoteFor(front, anchor).Some? {
          var i :| 0 <= i < |front| && LastUnder(front, anchor, i) && front[i].quote == QuoteFor(front, anchor).value;
          assert LastUnder(evidence, anchor, i);
        }
      }
    }
  }

  predicate LastUnder(evidence: seq<Evidence>, anchor: string, i: nat)
    requires i < |evidence|
  {
    evidence[i].anchor == anchor && forall j :: i < j < |evidence| ==> evidence[j].anchor != anchor
  }

  lemma ClaimsStep(evidence: seq<Evidence>, a: seq<string>, front: seq<string>, last: string)
    requires Claims(evidence, a + front) == Claims(evidence, a) + Claims(evidence, front)
    ensures Claims(evidence, a + (front + [last])) == Claims(evidence, a) + Claims(evidence, front + [last])
  {
    ClaimsSnoc(evidence, front, last);
    ClaimsSnoc(evidence, a + front, last);
    Regrouped(a, front, [last]);
    Regrouped(Claims(evidence, a), Claims(evidence, front), LineClaims(evidence, last));
  }

  lemma {:induction false} ClaimsParts(evidence: seq<Evidence>, a: seq<string>, b: seq<string>)
    ensures Claims(evidence, a + b) == Claims(evidence, a) + Claims(evidence, b)
  {
    if b == [] {
      assert a + b == a;
    } else {
      var front, last := b[..|b| - 1], b[|b| - 1];
      assert b == front + [last];
      ClaimsParts(evidence, a, front);
      ClaimsStep(evidence, a, front, last);
    }
  }

  /** The claims of one line: one that names no anchor if it has no reference, else one for each
      reference in order, which shows the line and, if the evidence knows the anchor, its quote. */
  lemma ClaimsOfLine(evidence: seq<Evidence>, line: string, k: nat)
    ensures var refs, claims := Refs(line), Claims(evidence, [line]);
      if refs == [] then claims == [Claim("", "", line, Unanchored)]
      else
        && |claims| == |refs|
        && (k < |refs| ==>
              && claims[k].anchor == refs[k] && claims[k].line == line
              && match QuoteFor(evidence, refs[k])
                 case Some(quote) => claims[k].finding.Hit? && claims[k].quote == quote
                 case None => claims[k].finding.Failed? && claims[k].quote == "")
  {
    assert Claims(evidence, [line][..0]) == [];
    if Refs(line) != [] { RefClaimAt(evidence, line, Refs(line), k); }
  }

  lemma {:induction false} RefClaimAt(evidence: seq<Evidence>, line: string, refs: seq<string>, k: nat)
    ensures |RefClaims(evidence, line, refs)| == |refs|
    ensures k < |refs| ==> RefClaims(evidence, line, refs)[k] == ClaimOf(evidence, line, refs[k])
  {
    if refs != [] { RefClaimAt(evidence, line, refs[..|refs| - 1], k); }
  }

  /** The first line of a checked report is the rate of its own claims: how many of their references
      the evidence knows, out of all claims. */
  lemma FiledReportSays(fmt: RateText, file: string, evidence: seq<Evidence>)
    requires forall o, t :: NoBreaks(fmt(o, t))
    ensures var filed, lines := SplitLines(FiledReport(fmt, file, evidence)), ClaimLines(ReadText(file));
      filed != [] && filed[0] == "dr-anchor-rate: " + fmt(KnownOf(evidence, lines), Weight(lines))
  {
    var lines := ClaimLines(ReadText(file));
    ClaimsTally(evidence, lines);
    HeadedLines(ReadText(file), fmt(KnownOf(evidence, lines), Weight(lines)));
  }

  /** Green needs all of it: a check, a rate above nine tenths, a summary that says and in fact adds
      up, and a report with the header. */
  lemma GreenNeedsAll(check: Option<Check>, report: Option<string>)
    ensures Green(check, report) <==>
      && check != None && report != None && check.value.summary.rate > 9.0 / 10.0 && check.value.summary.sumsOk
      && check.value.summary.total == check.value.summary.unanchored + check.value.summary.failed + check.value.summary.ok
      && BeginsWithHeader(ReadText(report.value))
  {
    if report.Some? { HeaderIsFirst(ReadText(report.value)); }
  }
}
