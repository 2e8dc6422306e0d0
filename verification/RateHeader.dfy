/** The report as a text (src/fleet_graph/research_anchor.py): its claim lines and the rate header
    that is written into its first line. */
module RateHeader {
  import opened Text

  const MARK := "dr-anchor-rate:"

  /** Text files are read with universal newlines. */
  function ReadText(s: string): (r: string)
    ensures '\r' !in r
    ensures '\r' !in s ==> r == s
    decreases |s|
  {
    if s == "" then ""
    else if s[0] != '\r' then [s[0]] + ReadText(s[1..])
    else "\n" + ReadText(if |s| > 1 && s[1] == '\n' then s[2..] else s[1..])
  }

  predicate IsHeader(line: string) { StartsWith(Strip(line), MARK) }

  function Header(rateText: string): string { MARK + " " + rateText }

  predicate HasHeader(report: string)
  {
    var lines := SplitLines(report);
    lines != [] && IsHeader(lines[0])
  }

  /** A separator: at least three of '-', '*' and '_' and nothing else. */
  predicate IsRule(stripped: string)
  {
    |stripped| >= 3 && forall c :: c in stripped ==> c in "-*_"
  }

  predicate IsClaim(line: string)
  {
    var stripped := Strip(line);
    stripped != "" && stripped[0] != '#' && !StartsWith(stripped, MARK) && !IsRule(stripped)
  }

  function Kept(lines: seq<string>): seq<string>
  {
    if lines == [] then []
    else
      var front, line := Kept(lines[..|lines| - 1]), lines[|lines| - 1];
      if IsClaim(line) then front + [Strip(line)] else front
  }

  function ClaimLines(report: string): seq<string> { Kept(SplitLines(report)) }

  method ReportClaimLines(report: string) returns (claims: seq<string>)
    ensures claims == ClaimLines(report)
  {
    var lines := SplitLines(report);
    claims := [];
    for i := 0 to |lines|
      invariant claims == Kept(lines[..i])
    {
      assert lines[..i + 1][..i] == lines[..i];
      var stripped := Strip(lines[i]);
      if stripped == "" { continue; }
      if stripped[0] == '#' { continue; }
      if StartsWith(stripped, MARK) { continue; }
      if (forall c :: c in stripped ==> c in "-*_") && |stripped| >= 3 { continue; }
      claims := claims + [stripped];
    }
    assert lines[..|lines|] == lines;
  }

  // ----- writing the header -------------------------------------------------

  /** The lines joined again; a final line feed comes back, whatever the other breaks were. */
  function Rejoined(lines: seq<string>, fed: bool): string
  {
    Join(lines, '\n') + if fed then "\n" else ""
  }

  function Headed(report: string, rateText: string): string
  {
    if HasHeader(report)
    then Rejoined([Header(rateText)] + SplitLines(report)[1..], EndsWith(report, "\n"))
    else Header(rateText) + "\n" + report
  }

  method WithRateHeader(report: string, rateText: string) returns (r: string)
    ensures r == Headed(report, rateText)
  {
    var header := Header(rateText);
    var lines := SplitLines(report);
    if lines != [] && StartsWith(Strip(lines[0]), MARK) {
      lines := lines[0 := header];
      assert lines == [header] + lines[1..];
      r := Join(lines, '\n');
      if EndsWith(report, "\n") { r := r + "\n"; }
      return;
    }
    r := header + "\n" + report;
  }

  // ----- lines and their breaks ---------------------------------------------

  predicate OnlyLineFeeds(s: string) { forall c :: c in s && IsBreak(c) ==> c == '\n' }

  lemma OneLine(s: string)
    requires NoBreaks(s) && s != ""
    ensures SplitLines(s) == [s]
  {
    assert forall i :: 0 <= i < |s| ==> !IsBreak(s[i]);
    assert LineEnd(s) == |s|;
    assert s[..|s|] == s && s[|s|..] == "";
  }

  function LastLine(last: string): seq<string> { if last == "" then [] else [last] }

  lemma UnlinesCons(lines: seq<string>, last: string)
    requires lines != []
    ensures Unlines(lines) + last == lines[0] + "\n" + (Unlines(lines[1..]) + last)
  {
  }

  lemma {:induction false} SplitLinesTail(lines: seq<string>, last: string)
    requires (forall l :: l in lines ==> NoBreaks(l)) && NoBreaks(last)
    ensures SplitLines(Unlines(lines) + last) == lines + LastLine(last)
  {
    if lines == [] {
      if last != "" { OneLine(last); }
      assert Unlines(lines) + last == last;
    } else {
      var rest := Unlines(lines[1..]) + last;
      SplitLinesTail(lines[1..], last);
      SplitLinesCons(lines[0], rest);
      UnlinesCons(lines, last);
      HeadSplit(lines, LastLine(last));
    }
  }

  lemma {:induction false} JoinIsUnlines(lines: seq<string>)
    requires lines != []
    ensures Join(lines, '\n') == Unlines(lines[..|lines| - 1]) + lines[|lines| - 1]
  {
    if |lines| > 1 {
      JoinIsUnlines(lines[1..]);
      assert lines[..|lines| - 1][1..] == lines[1..][..|lines| - 2];
    } else {
      assert lines[..0] == [];
    }
  }

  /** The lines of rejoined lines: only an empty last line can get lost. */
  lemma LinesOfRejoined(lines: seq<string>, fed: bool)
    requires lines != [] && forall l :: l in lines ==> NoBreaks(l)
    ensures var again := SplitLines(Rejoined(lines, fed));
      again == lines || (lines[|lines| - 1] == "" && again == lines[..|lines| - 1])
  {
    var front, last := lines[..|lines| - 1], lines[|lines| - 1];
    if fed {
      UnlinesIsJoin(lines);
      SplitLinesUnlines(lines);
    } else {
      JoinIsUnlines(lines);
      SplitLinesTail(front, last);
      assert Rejoined(lines, fed) == Unlines(front) + last && front + [last] == lines;
    }
  }

  lemma OnlyFeedsRejoined(lines: seq<string>, fed: bool)
    requires forall l :: l in lines ==> NoBreaks(l)
    ensures OnlyLineFeeds(Rejoined(lines, fed))
  {
    JoinChars(lines, '\n');
  }

  /** What stands after the first line. */
  function Tail(rest: seq<string>, fed: bool): string
  {
    if rest == [] then if fed then "\n" else "" else "\n" + Rejoined(rest, fed)
  }

  lemma Rehead(h: string, rest: seq<string>, fed: bool)
    ensures Rejoined([h] + rest, fed) == h + Tail(rest, fed)
  {
    if rest != [] { assert ([h] + rest)[1..] == rest; }
  }

  /** Splitting and rejoining gives the text back exactly when its only break is the line feed. */
  lemma {:induction false} Rejoining(s: string)
    ensures Rejoined(SplitLines(s), EndsWith(s, "\n")) == s <==> OnlyLineFeeds(s)
  {
    OnlyFeedsRejoined(SplitLines(s), EndsWith(s, "\n"));
    if OnlyLineFeeds(s) { RejoiningFeeds(s); }
  }

  lemma FinalFeed(line: string, rest: string)
    ensures EndsWith(line + "\n" + rest, "\n") <==> rest == "" || EndsWith(rest, "\n")
  {
    var s := line + "\n" + rest;
    assert s[|s| - 1] == if rest == "" then '\n' else rest[|rest| - 1];
    assert s[|s| - 1..] == [s[|s| - 1]];
    if rest != "" { assert rest[|rest| - 1..] == [rest[|rest| - 1]]; }
  }

  lemma NotFed(s: string)
    requires NoBreaks(s)
    ensures !EndsWith(s, "\n")
  {
    if s != "" {
      assert s[|s| - 1] in s && !IsBreak(s[|s| - 1]);
      assert s[|s| - 1..] == [s[|s| - 1]];
    }
  }

  lemma RejoiningOneLine(s: string)
    requires NoBreaks(s)
    ensures Rejoined(SplitLines(s), EndsWith(s, "\n")) == s
  {
    NotFed(s);
    if s != "" { OneLine(s); }
  }

  lemma RejoiningCons(line: string, rest: string)
    requires NoBreaks(line) && Rejoined(SplitLines(rest), EndsWith(rest, "\n")) == rest
    ensures var s := line + "\n" + rest; Rejoined(SplitLines(s), EndsWith(s, "\n")) == s
  {
    SplitLinesCons(line, rest);
    FinalFeed(line, rest);
    Rehead(line, SplitLines(rest), EndsWith(line + "\n" + rest, "\n"));
    assert line + "\n" + rest == line + ("\n" + rest);
  }

  lemma {:induction false} RejoiningFeeds(s: string)
    requires OnlyLineFeeds(s)
    ensures Rejoined(SplitLines(s), EndsWith(s, "\n")) == s
    decreases |s|
  {
    var e := LineEnd(s);
    if e == |s| {
      assert s[..e] == s;
      RejoiningOneLine(s);
    } else {
      assert s[e] in s;
      assert s == s[..e] + "\n" + s[e + 1..];
      RejoiningFeeds(s[e + 1..]);
      RejoiningCons(s[..e], s[e + 1..]);
    }
  }

  // ----- the header and its text --------------------------------------------

  lemma HeaderIsHeader(rateText: string)
    requires NoBreaks(rateText)
    ensures NoBreaks(Header(rateText)) && IsHeader(Header(rateText)) && !IsClaim(Header(rateText))
  {
    var h := Header(rateText);
    assert h[0] == 'd' && h[14] == ':' && h[..15] == MARK;
    forall c | c in h ensures !IsBreak(c) {
      assert c in MARK || c == ' ' || c in rateText;
    }
    LStripFacts(IsSpace, h);
    assert LStripBy(IsSpace, h) == h;
    RStripFacts(IsSpace, h);
    var r := Strip(h);
    assert !IsSpace(h[14]) && |r| >= 15;
    assert r[..15] == h[..15];
  }

  lemma FirstLine(h: string, t: string)
    requires h != "" && NoBreaks(h) && (t == "" || t[0] == '\n')
    ensures SplitLines(h + t) == [h] + SplitLines(if t == "" then "" else t[1..])
  {
    if t == "" {
      OneLine(h);
      assert h + t == h;
    } else {
      assert h + t == h + "\n" + t[1..];
      SplitLinesCons(h, t[1..]);
    }
  }

  /** Replacing a header puts the new one before the old one's text, line feeds for other breaks. */
  lemma HeadedAgain(h: string, t: string, rateText: string)
    requires NoBreaks(h) && IsHeader(h) && (t == "" || t[0] == '\n')
    ensures Headed(h + t, rateText) == Header(rateText) + t <==> OnlyLineFeeds(t)
  {
    var text, fed := h + t, EndsWith(h + t, "\n");
    assert h != "" by { if h == "" { AllBlank(IsSpace, h); } }
    FirstLine(h, t);
    var rest := SplitLines(text)[1..];
    assert [h] + rest == SplitLines(text);
    Rehead(h, rest, fed);
    Rehead(Header(rateText), rest, fed);
    Rejoining(text);
    assert OnlyLineFeeds(text) <==> OnlyLineFeeds(t) by {
      assert forall c :: c in text <==> c in h || c in t;
    }
    assert Headed(text, rateText) == Header(rateText) + Tail(rest, fed);
    assert (h + Tail(rest, fed))[|h|..] == Tail(rest, fed) && (h + t)[|h|..] == t;
    assert (Header(rateText) + Tail(rest, fed))[|Header(rateText)|..] == Tail(rest, fed);
    assert (Header(rateText) + t)[|Header(rateText)|..] == t;
  }

  /** Two headers one after the other leave what the last one alone leaves exactly when the report
      had a header already or has no break but line feeds. */
  lemma LastHeaderWins(report: string, first: string, second: string)
    requires NoBreaks(first) && NoBreaks(second)
    ensures Headed(Headed(report, first), second) == Headed(report, second)
      <==> HasHeader(report) || OnlyLineFeeds(report)
  {
    HeaderIsHeader(first);
    if HasHeader(report) {
      var rest, fed := SplitLines(report)[1..], EndsWith(report, "\n");
      Rehead(Header(first), rest, fed);
      Rehead(Header(second), rest, fed);
      OnlyFeedsRejoined(rest, fed);
      HeadedAgain(Header(first), Tail(rest, fed), second);
    } else {
      var t := "\n" + report;
      assert Header(first) + "\n" + report == Header(first) + t && Header(second) + "\n" + report == Header(second) + t;
      HeadedAgain(Header(first), t, second);
      assert OnlyLineFeeds(t) <==> OnlyLineFeeds(report) by { assert forall c :: c in t <==> c == '\n' || c in report; }
    }
  }

  /** A report of two lines parted by a vertical tab: the second header is not the first one again. */
  lemma SecondHeaderRewrites(first: string, second: string)
    requires NoBreaks(first) && NoBreaks(second)
    ensures var report := "a\U{0B}b"; Headed(Headed(report, first), second) != Headed(report, second)
  {
    var report := "a\U{0B}b";
    assert report[1] in report && IsBreak(report[1]) && report[1] != '\n';
    ShortHasNoHeader(report);
    LastHeaderWins(report, first, second);
  }

  lemma ShortHasNoHeader(report: string)
    requires |report| < |MARK|
    ensures !HasHeader(report)
  {
    if report != "" {
      var line := SplitLines(report)[0];
      assert line == report[..LineEnd(report)];
      var left, right := StripBySplits(IsSpace, line);
      assert |Strip(line)| <= |line|;
    }
  }

  // ----- the header is no claim ---------------------------------------------

  lemma {:induction false} KeptParts(a: seq<string>, b: seq<string>)
    ensures Kept(a + b) == Kept(a) + Kept(b)
  {
    if b == [] {
      assert a + b == a;
    } else {
      assert (a + b)[..|a + b| - 1] == a + b[..|b| - 1];
      KeptParts(a, b[..|b| - 1]);
    }
  }

  lemma KeptWithoutHead(h: string, rest: seq<string>)
    requires !IsClaim(h)
    ensures Kept([h] + rest) == Kept(rest)
  {
    KeptParts([h], rest);
    assert [h][..0] == [] && Kept([h]) == [];
  }

  lemma KeptWithoutLast(lines: seq<string>)
    requires lines != [] && lines[|lines| - 1] == ""
    ensures Kept(lines) == Kept(lines[..|lines| - 1])
  {
    AllBlank(IsSpace, "");
  }

  /** The header never changes what counts as a claim, for any report. */
  lemma HeaderKeepsClaims(report: string, rateText: string)
    requires NoBreaks(rateText)
    ensures ClaimLines(Headed(report, rateText)) == ClaimLines(report)
  {
    var h := Header(rateText);
    HeaderIsHeader(rateText);
    if HasHeader(report) {
      var lines, fed := SplitLines(report), EndsWith(report, "\n");
      var rest := lines[1..];
      assert lines == [lines[0]] + rest;
      KeptWithoutHead(lines[0], rest);
      KeptWithoutHead(h, rest);
      LinesOfRejoined([h] + rest, fed);
      if SplitLines(Rejoined([h] + rest, fed)) != [h] + rest { KeptWithoutLast([h] + rest); }
    } else {
      SplitLinesCons(h, report);
      KeptWithoutHead(h, SplitLines(report));
    }
  }

  // ----- in the source's own literals ---------------------------------------

  /** What makes a stripped line a claim: it is no heading, no rate header and no rule. */
  predicate Passes(x: string)
  {
    && x != "" && x[0] != '#' && !(|x| >= 15 && x[..15] == "dr-anchor-rate:")
    && (|x| < 3 || exists i :: 0 <= i < |x| && x[i] != '-' && x[i] != '*' && x[i] != '_')
  }

  lemma RuleIs(x: string)
    ensures IsRule(x) <==> |x| >= 3 && forall i :: 0 <= i < |x| ==> x[i] == '-' || x[i] == '*' || x[i] == '_'
  {
    assert "-*_"[0] == '-' && "-*_"[1] == '*' && "-*_"[2] == '_';
    forall i | 0 <= i < |x| ensures x[i] in "-*_" <==> x[i] == '-' || x[i] == '*' || x[i] == '_' { }
    assert (forall c :: c in x ==> c in "-*_") <==> forall i :: 0 <= i < |x| ==> x[i] in "-*_";
  }

  /** The claim lines of a text are those of its parts; a line with white space around it gives its
      core, if that is a claim, and nothing otherwise. */
  lemma ClaimLineIs(left: string, x: string, right: string)
    requires (forall c :: c in left ==> IsSpace(c)) && (forall c :: c in right ==> IsSpace(c))
    requires x != "" ==> !IsSpace(x[0]) && !IsSpace(x[|x| - 1])
    ensures Kept([left + x + right]) == if Passes(x) then [x] else []
  {
    StripPadded(left, x, right);
    RuleIs(x);
    assert Kept([left + x + right][..0]) == [];
  }

  /** A report has the header when its first line starts with it, white space aside. */
  lemma HeaderIsFirst(report: string)
    ensures HasHeader(report) <==> BeginsWithHeader(report)
  {
    if report != "" {
      if HasHeader(report) { HeaderStarts(report); }
      if k :| 0 <= k <= |report| && HeaderAt(report, k) { HeaderSeen(report, k); }
    }
  }

  predicate BeginsWithHeader(report: string) { exists k :: 0 <= k <= |report| && HeaderAt(report, k) }

  predicate HeaderAt(report: string, k: nat)
    requires k <= |report|
  {
    && (forall i :: 0 <= i < k ==> IsSpace(report[i]) && !IsBreak(report[i]))
    && k + 15 <= |report| && report[k..k + 15] == "dr-anchor-rate:"
  }

  lemma HeaderStarts(report: string)
    requires HasHeader(report)
    ensures BeginsWithHeader(report)
  {
    var line := report[..LineEnd(report)];
    var left, right := StripBySplits(IsSpace, line);
    var k := |left|;
    assert Strip(line)[..15] == line[k..k + 15] == report[k..k + 15];
    forall i | 0 <= i < k ensures IsSpace(report[i]) && !IsBreak(report[i]) {
      assert report[i] == line[i] == left[i];
      assert line[i] in line;
    }
    assert HeaderAt(report, k);
  }

  lemma HeaderSeen(report: string, k: nat)
    requires k <= |report| && HeaderAt(report, k)
    ensures HasHeader(report)
  {
    var e := LineEnd(report);
    MarkHasNoBreak();
    assert e < |report| ==> IsBreak(report[e]);
    assert forall i :: k <= i < k + 15 ==> report[i] == report[k..k + 15][i - k];
    assert e >= k + 15;
    var line := report[..e];
    assert line == report[..k] + line[k..];
    LStripPadded(IsSpace, report[..k], line[k..]);
    var l := line[k..];
    assert l[..15] == report[k..k + 15];
    RStripFacts(IsSpace, l);
    assert l[14] == ':' && |RStripBy(IsSpace, l)| >= 15;
    assert Strip(line)[..15] == l[..15];
  }

  lemma MarkHasNoBreak()
    ensures forall i :: 0 <= i < 15 ==> !IsSpace("dr-anchor-rate:"[i])
  {
  }

  /** The lines of a headed report: the new header, then the report's lines, the old header not
      among them; only an empty last line can get lost. */
  lemma HeadedLines(report: string, rateText: string)
    requires NoBreaks(rateText)
    ensures var lines := SplitLines(Headed(report, rateText));
      var rest := if HasHeader(report) then SplitLines(report)[1..] else SplitLines(report);
      && lines != [] && lines[0] == "dr-anchor-rate: " + rateText
      && (lines[1..] == rest || (rest != [] && rest[|rest| - 1] == "" && lines[1..] == rest[..|rest| - 1]))
  {
    var h := Header(rateText);
    HeaderIsHeader(rateText);
    assert h == "dr-anchor-rate: " + rateText;
    if HasHeader(report) {
      HeadedOver(h, SplitLines(report)[1..], EndsWith(report, "\n"));
    } else {
      SplitLinesCons(h, report);
    }
  }

  lemma HeadedOver(h: string, rest: seq<string>, fed: bool)
    requires NoBreaks(h) && h != "" && forall l :: l in rest ==> NoBreaks(l)
    ensures var lines := SplitLines(Rejoined([h] + rest, fed));
      && lines != [] && lines[0] == h
      && (lines[1..] == rest || (rest != [] && rest[|rest| - 1] == "" && lines[1..] == rest[..|rest| - 1]))
  {
    LinesOfRejoined([h] + rest, fed);
    if rest != [] { assert ([h] + rest)[..|rest|] == [h] + rest[..|rest| - 1]; }
  }

  /** What follows a return: the line feed right behind it belongs to it. */
  function Unfed(b: string): string { if b != "" && b[0] == '\n' then b[1..] else b }

  /** Universal newlines: each "\r\n" and each other '\r' is read as a line feed. */
  lemma {:induction false} ReadTextIs(a: string, b: string)
    requires '\r' !in a
    ensures ReadText(a + ("\r" + b)) == a + ("\n" + ReadText(Unfed(b)))
  {
    ReadReturn(b);
    if a != "" {
      ReadTextIs(a[1..], b);
      ReadFurther(a, "\r" + b, "\n" + ReadText(Unfed(b)));
    } else {
      assert a + ("\r" + b) == "\r" + b;
    }
  }

  lemma ReadFurther(a: string, tail: string, read: string)
    requires a != "" && a[0] != '\r' && ReadText(a[1..] + tail) == a[1..] + read
    ensures ReadText(a + tail) == a + read
  {
    ReadOther(a[0], a[1..] + tail);
    HeadSplit(a, tail);
    HeadSplit(a, read);
  }

  lemma ReadReturn(b: string)
    ensures ReadText("\r" + b) == "\n" + ReadText(Unfed(b))
  {
    var s := "\r" + b;
    assert s[1..] == b;
    assert b != "" ==> s[1] == b[0] && s[2..] == b[1..];
  }

  lemma ReadOther(c: char, rest: string)
    requires c != '\r'
    ensures ReadText([c] + rest) == [c] + ReadText(rest)
  {
  }
}
