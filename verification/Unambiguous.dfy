/** The exposition text is unambiguous: whatever the label values hold, two lists of samples that
    print the same text are the same list by name. What the parser may do with such a text is
    another matter (RoundTrip). */
module Unambiguous {
  import opened Text
  import opened Sorting
  import opened Exposition
  import opened RoundTrip

  function EscapeChar(c: char): string
  {
    match c
    case '\\' => "\\\\"
    case '\n' => "\\n"
    case '"' => "\\\""
    case _ => [c]
  }

  /** An escaped value, its closing quote, and what follows. */
  function Ended(v: string, x: string): string { Escape(v) + "\"" + x }

  lemma EscapeHead(v: string, x: string)
    requires v != ""
    ensures Ended(v, x) == EscapeChar(v[0]) + Ended(v[1..], x)
  {
    assert Escape(v) == EscapeChar(v[0]) + Escape(v[1..]);
    Regrouped(EscapeChar(v[0]), Escape(v[1..]), "\"");
    Regrouped(EscapeChar(v[0]), Escape(v[1..]) + "\"", x);
  }

  lemma EndedHead(v: string, x: string)
    ensures Ended(v, x) != "" && (Ended(v, x)[0] == '"' <==> v == "")
    ensures v == "" ==> Ended(v, x) == "\"" + x
  {
    if v != "" { EscapeHead(v, x); }
  }

  /** A character's escape is told apart from every other by its first two characters. */
  lemma EscapeCharEnds(c: char, x: string, d: char, y: string)
    requires EscapeChar(c) + x == EscapeChar(d) + y
    ensures c == d && x == y
  {
    var s := EscapeChar(c) + x;
    assert s[0] == EscapeChar(c)[0] && s[0] == EscapeChar(d)[0];
    if s[0] == '\\' { assert s[1] == EscapeChar(c)[1] && s[1] == EscapeChar(d)[1]; }
    PrefixCancels(EscapeChar(c), x, y);
  }

  /** An escaped value ends at the first quote that is not escaped. */
  lemma {:induction false} EscapeEnds(v: string, x: string, w: string, y: string)
    requires Ended(v, x) == Ended(w, y)
    ensures v == w && x == y
    decreases |v|
  {
    EndedHead(v, x);
    EndedHead(w, y);
    if v == "" {
      PrefixCancels("\"", x, y);
    } else {
      EscapeHead(v, x);
      EscapeHead(w, y);
      EscapeCharEnds(v[0], Ended(v[1..], x), w[0], Ended(w[1..], y));
      EscapeEnds(v[1..], x, w[1..], y);
      assert v == [v[0]] + v[1..] && w == [w[0]] + w[1..];
    }
  }

  /** Two texts cut at their first c. */
  lemma CutAt(a: string, v: string, b: string, w: string, c: char)
    requires c !in a && c !in b && a + [c] + v == b + [c] + w
    ensures a == b && v == w
  {
    FindAt(a, c, v);
    FindAt(b, c, w);
    var s := a + [c] + v;
    assert s[..|a|] == a && s[|a| + 1..] == v;
    assert s[..|b|] == b && s[|b| + 1..] == w;
  }

  lemma LabelTextCut(l: Label, x: string)
    ensures LabelText(l) + x == l.0 + "=" + ("\"" + Ended(l.1, x))
  {
    assert LabelText(l) == l.0 + "=" + ("\"" + (Escape(l.1) + "\""));
    Regrouped(l.0 + "=", "\"" + (Escape(l.1) + "\""), x);
    Regrouped("\"", Escape(l.1) + "\"", x);
  }

  lemma LabelTextEnds(l: Label, x: string, m: Label, y: string)
    requires WellKeyed(l.0) && WellKeyed(m.0) && LabelText(l) + x == LabelText(m) + y
    ensures l == m && x == y
  {
    LabelTextCut(l, x);
    LabelTextCut(m, y);
    CutAt(l.0, "\"" + Ended(l.1, x), m.0, "\"" + Ended(m.1, y), '=');
    PrefixCancels("\"", Ended(l.1, x), Ended(m.1, y));
    EscapeEnds(l.1, x, m.1, y);
  }

  /** A label block from its first label on, and what follows it. */
  function BlockText(labels: seq<Label>, x: string): string { Join(LabelTexts(labels), ',') + ("}" + x) }

  /** What follows the first label. */
  function BlockRest(labels: seq<Label>, x: string): string
    requires labels != []
  {
    if |labels| == 1 then "}" + x else "," + BlockText(labels[1..], x)
  }

  lemma LabelTextsCons(labels: seq<Label>)
    requires labels != []
    ensures LabelTexts(labels) == [LabelText(labels[0])] + LabelTexts(labels[1..])
  {
    MappedCons(LabelText, labels);
    var texts := LabelTexts(labels);
    assert texts == [texts[0]] + texts[1..];
  }

  lemma BlockHead(labels: seq<Label>, x: string)
    requires labels != []
    ensures BlockText(labels, x) == LabelText(labels[0]) + BlockRest(labels, x)
  {
    var first, rest := LabelText(labels[0]), LabelTexts(labels[1..]);
    LabelTextsCons(labels);
    if |labels| == 1 {
      assert LabelTexts(labels) == [first];
    } else {
      JoinCons(first, rest, ',');
      Regrouped(first, ",", Join(rest, ','));
      Regrouped(first, "," + Join(rest, ','), "}" + x);
      Regrouped(",", Join(rest, ','), "}" + x);
    }
  }

  lemma BlockRestEnds(a: seq<Label>, x: string, b: seq<Label>, y: string)
    requires a != [] && b != [] && BlockRest(a, x) == BlockRest(b, y)
    ensures |a| == 1 <==> |b| == 1
    ensures if |a| == 1 then x == y else BlockText(a[1..], x) == BlockText(b[1..], y)
  {
    assert BlockRest(a, x)[0] == if |a| == 1 then '}' else ',';
    assert BlockRest(b, y)[0] == if |b| == 1 then '}' else ',';
    if |a| == 1 { PrefixCancels("}", x, y); } else { PrefixCancels(",", BlockText(a[1..], x), BlockText(b[1..], y)); }
  }

  lemma {:induction false} BlockEnds(a: seq<Label>, x: string, b: seq<Label>, y: string)
    requires a != [] && b != [] && AllKeyed(a) && AllKeyed(b) && BlockText(a, x) == BlockText(b, y)
    ensures a == b && x == y
    decreases |a|
  {
    FirstLabelEnds(a, x, b, y);
    BlockRestEnds(a, x, b, y);
    if |a| > 1 {
      BlockEnds(a[1..], x, b[1..], y);
      assert a == [a[0]] + a[1..] && b == [b[0]] + b[1..];
    }
  }

  predicate AllKeyed(labels: seq<Label>) { forall i :: 0 <= i < |labels| ==> WellKeyed(labels[i].0) }

  lemma FirstLabelEnds(a: seq<Label>, x: string, b: seq<Label>, y: string)
    requires a != [] && b != [] && AllKeyed(a) && AllKeyed(b) && BlockText(a, x) == BlockText(b, y)
    ensures a[0] == b[0] && BlockRest(a, x) == BlockRest(b, y)
  {
    BlockHead(a, x);
    BlockHead(b, y);
    LabelTextEnds(a[0], BlockRest(a, x), b[0], BlockRest(b, y));
  }

  /** A line cut behind its metric name. */
  function LineRest(s: Sample): string
  {
    if s.labels == [] then " " + IntText(s.value) else "{" + BlockText(s.labels, " " + IntText(s.value))
  }

  lemma LineCut(s: Sample)
    ensures SampleLine(s) == s.name + LineRest(s)
  {
    var num := " " + IntText(s.value);
    Regrouped(s.name, LabelBlock(s.labels), num);
    assert SampleLine(s) == s.name + LabelBlock(s.labels) + num by { Regrouped(s.name + LabelBlock(s.labels), " ", IntText(s.value)); }
    if s.labels == [] {
      assert "" + num == num;
    } else {
      var inner := Join(LabelTexts(s.labels), ',');
      Regrouped("{" + inner, "}", num);
      Regrouped("{", inner, "}" + num);
    }
  }

  lemma NameEnds(s: Sample, t: Sample)
    requires WellNamed(s.name) && WellNamed(t.name) && SampleLine(s) == SampleLine(t)
    ensures s.name == t.name && LineRest(s) == LineRest(t)
  {
    LineCut(s);
    LineCut(t);
    LineRestHead(s);
    LineRestHead(t);
    Aligned(s.name, LineRest(s), t.name, LineRest(t));
    Aligned(t.name, LineRest(t), s.name, LineRest(s));
  }

  /** Neither can stand in a metric name. */
  lemma LineRestHead(s: Sample)
    ensures LineRest(s) != "" && LineRest(s)[0] == if s.labels == [] then ' ' else '{'
  {
  }

  lemma LineRestEnds(s: Sample, t: Sample)
    requires WellFormed(s) && WellFormed(t) && LineRest(s) == LineRest(t)
    ensures s.labels == t.labels && IntText(s.value) == IntText(t.value)
  {
    LineRestHead(s);
    LineRestHead(t);
    var m, n := " " + IntText(s.value), " " + IntText(t.value);
    if s.labels != [] {
      PrefixCancels("{", BlockText(s.labels, m), BlockText(t.labels, n));
      assert AllKeyed(s.labels) && AllKeyed(t.labels);
      BlockEnds(s.labels, m, t.labels, n);
    }
    PrefixCancels(" ", IntText(s.value), IntText(t.value));
  }

  lemma SampleLineInjective(s: Sample, t: Sample)
    requires WellFormed(s) && WellFormed(t) && SampleLine(s) == SampleLine(t)
    ensures s == t
  {
    NameEnds(s, t);
    LineRestEnds(s, t);
    IntTextInjective(s.value, t.value);
  }

  // ----- the file -----------------------------------------------------------

  lemma {:induction false} EscapeNoFeed(v: string)
    ensures '\n' !in Escape(v)
  {
    if v != "" { EscapeNoFeed(v[1..]); }
  }

  lemma BlockNoFeed(labels: seq<Label>)
    requires forall l :: l in labels ==> WellKeyed(l.0)
    ensures '\n' !in LabelBlock(labels)
  {
    var texts := LabelTexts(labels);
    JoinChars(texts, ',');
    forall t | t in texts ensures '\n' !in t {
      var i :| 0 <= i < |texts| && texts[i] == t;
      assert labels[i] in labels && t == LabelText(labels[i]);
      EscapeNoFeed(labels[i].1);
    }
  }

  lemma SampleLineNoFeed(s: Sample)
    requires WellFormed(s)
    ensures '\n' !in SampleLine(s)
  {
    BlockNoFeed(s.labels);
    assert forall c :: c in IntText(s.value) ==> !IsBreak(c);
  }

  lemma FileTextInjective(a: seq<string>, b: seq<string>)
    requires forall l :: l in a ==> '\n' !in l
    requires forall l :: l in b ==> '\n' !in l
    requires FileText(a) == FileText(b)
    ensures a == b
  {
    if a != [] && b != [] {
      assert FileText(a)[..|FileText(a)| - 1] == Join(a, '\n') && FileText(b)[..|FileText(b)| - 1] == Join(b, '\n');
      SplitJoin(a, '\n');
      SplitJoin(b, '\n');
    }
  }

  lemma LinesNoFeed(samples: seq<Sample>)
    requires forall s :: s in samples ==> WellFormed(s)
    ensures forall l :: l in SampleLines(samples) ==> '\n' !in l
  {
    forall l | l in SampleLines(samples) ensures '\n' !in l {
      var i :| 0 <= i < |samples| && l == SampleLine(samples[i]);
      assert samples[i] in samples;
      SampleLineNoFeed(samples[i]);
    }
  }

  lemma SameLineSameSample(a: seq<Sample>, b: seq<Sample>, i: nat)
    requires i < |a| == |b| && SampleLines(a) == SampleLines(b) && WellFormed(a[i]) && WellFormed(b[i])
    ensures a[i] == b[i]
  {
    assert SampleLines(a)[i] == SampleLine(a[i]) && SampleLines(b)[i] == SampleLine(b[i]);
    SampleLineInjective(a[i], b[i]);
  }

  lemma FileInjective(a: seq<Sample>, b: seq<Sample>)
    requires forall s :: s in a ==> WellFormed(s)
    requires forall s :: s in b ==> WellFormed(s)
    requires FileText(SampleLines(a)) == FileText(SampleLines(b))
    ensures a == b
  {
    LinesNoFeed(a);
    LinesNoFeed(b);
    FileTextInjective(SampleLines(a), SampleLines(b));
    assert |a| == |SampleLines(a)| == |SampleLines(b)| == |b|;
    forall i | 0 <= i < |a| ensures a[i] == b[i] { SameLineSameSample(a, b, i); }
  }

  /** Equal texts are texts of equal samples. */
  lemma RenderInjective(a: seq<Sample>, b: seq<Sample>)
    requires forall s :: s in a ==> WellFormed(s)
    requires forall s :: s in b ==> WellFormed(s)
    ensures RenderText(a) == RenderText(b) <==> ByName(a) == ByName(b)
  {
    SortByElements(NameLe, a);
    SortByElements(NameLe, b);
    if RenderText(a) == RenderText(b) { FileInjective(ByName(a), ByName(b)); }
  }
}
