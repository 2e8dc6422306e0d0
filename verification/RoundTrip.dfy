/** Printing and parsing undo each other, exactly on label values that hold neither a comma
    nor a line break other than the line feed. */
module RoundTrip {
  import opened Text
  import opened Sorting
  import opened Exposition

  /** A label value that survives the wire. */
  predicate CleanValue(v: string)
  {
    ',' !in v && forall c :: c in v && c != '\n' ==> !IsBreak(c)
  }

  predicate Clean(s: Sample) { forall l :: l in s.labels ==> CleanValue(l.1) }

  predicate WellKeyed(k: string)
  {
    '=' !in k && ',' !in k && NoBreaks(k) && Strip(k) == k
  }

  predicate WellNamed(name: string)
  {
    name != "" && name[0] != '#' && '{' !in name && forall c :: c in name ==> !IsSpace(c)
  }

  /** Good names, and the labels as the sorted tuple that Sample documents. */
  predicate WellFormed(s: Sample)
  {
    WellNamed(s.name) && SortedBy(LabelLe, s.labels) && forall l :: l in s.labels ==> WellKeyed(l.0)
  }

  // ----- escaping -----------------------------------------------------------

  lemma {:induction false} UnescapeEscape(v: string)
    ensures Unescape(Escape(v)) == v
  {
    if v != "" {
      UnescapeEscape(v[1..]);
      var tail := Escape(v[1..]);
      match v[0] {
        case '\\' => assert ("\\\\" + tail)[2..] == tail;
        case '\n' => assert ("\\n" + tail)[2..] == tail;
        case '"' => assert ("\\\"" + tail)[2..] == tail;
        case c => assert ([c] + tail)[1..] == tail;
      }
      assert v == [v[0]] + v[1..];
    }
  }

  lemma {:induction false} EscapeChars(v: string)
    ensures CleanValue(v) ==> ',' !in Escape(v) && NoBreaks(Escape(v))
  {
    if v != "" {
      EscapeChars(v[1..]);
      assert v[0] in v && forall c :: c in v[1..] ==> c in v;
    }
  }

  lemma {:induction false} UnescapeChars(v: string)
    ensures forall c :: c in Unescape(v) ==> c in v || c == '\n'
    decreases |v|
  {
    if v != "" {
      if v[0] == '\\' && |v| > 1 { UnescapeChars(v[2..]); } else { UnescapeChars(v[1..]); }
    }
  }

  // ----- one label ----------------------------------------------------------

  lemma LabelTextChars(l: Label)
    requires WellKeyed(l.0) && CleanValue(l.1)
    ensures ',' !in LabelText(l) && NoBreaks(LabelText(l)) && '"' in LabelText(l)
  {
    EscapeChars(l.1);
    assert LabelText(l)[|l.0| + 1] == '"';
  }

  lemma QuotedText(v: string)
    ensures var q := "\"" + v + "\""; Strip(q) == q && Quoted(q) && Unquote(q) == v
  {
    StripFixed("\"" + v + "\"");
  }

  lemma CutLabel(k: string, quoted: string)
    requires WellKeyed(k) && quoted != "" && quoted[|quoted| - 1] == '"'
    ensures var p := k + "=" + quoted;
      Strip(p) == p && Find(p, '=') == |k| && p[..|k|] == k && p[|k| + 1..] == quoted
  {
    var p := k + "=" + quoted;
    StripFacts(k);
    assert p[0] == if k == "" then '=' else k[0];
    StripFixed(p);
    FindAt(k, '=', quoted);
  }

  lemma ParseLabelText(l: Label, lineno: nat)
    requires WellKeyed(l.0) && CleanValue(l.1)
    ensures ParsePart(LabelText(l), lineno) == Ok(Some(l))
  {
    var quoted := "\"" + Escape(l.1) + "\"";
    assert LabelText(l) == l.0 + "=" + quoted;
    CutLabel(l.0, quoted);
    QuotedText(Escape(l.1));
    UnescapeEscape(l.1);
  }

  // ----- the label block ----------------------------------------------------

  lemma {:induction false} ParsePartsTexts(labels: seq<Label>, lineno: nat)
    requires forall l :: l in labels ==> WellKeyed(l.0) && CleanValue(l.1)
    ensures ParseParts(LabelTexts(labels), lineno) == Ok(labels)
  {
    var texts := LabelTexts(labels);
    if labels != [] {
      assert texts[1..] == LabelTexts(labels[1..]) && texts[0] == LabelText(labels[0]);
      assert labels[0] in labels;
      ParseLabelText(labels[0], lineno);
      ParsePartsTexts(labels[1..], lineno);
      assert ParseParts(texts, lineno) == After([labels[0]], Ok(labels[1..]));
      assert [labels[0]] + labels[1..] == labels;
    }
  }

  lemma BlockChars(labels: seq<Label>)
    requires labels != [] && forall l :: l in labels ==> WellKeyed(l.0) && CleanValue(l.1)
    ensures var inner := Join(LabelTexts(labels), ',');
      && NoBreaks(inner) && '"' in inner && forall t :: t in LabelTexts(labels) ==> ',' !in t
  {
    var texts := LabelTexts(labels);
    JoinChars(texts, ',');
    forall t | t in texts ensures ',' !in t && NoBreaks(t) && '"' in t {
      var i :| 0 <= i < |texts| && texts[i] == t;
      assert labels[i] in labels;
      LabelTextChars(labels[i]);
    }
    assert texts[0] in texts;
    assert !IsBreak(',');
  }

  lemma ParseBlock(labels: seq<Label>, lineno: nat)
    requires labels != [] && forall l :: l in labels ==> WellKeyed(l.0) && CleanValue(l.1)
    requires SortedBy(LabelLe, labels)
    ensures ParseLabelsOf(Join(LabelTexts(labels), ','), lineno) == Ok(labels)
  {
    var inner := Join(LabelTexts(labels), ',');
    BlockChars(labels);
    StripFacts(inner);
    SplitJoin(LabelTexts(labels), ',');
    ParsePartsTexts(labels, lineno);
    SortByOfSorted(LabelLe, labels);
  }

  // ----- one line -----------------------------------------------------------

  lemma FindBeyond(a: string, b: string, c: char)
    requires c !in a
    ensures Find(a + b, c) == -1 || Find(a + b, c) >= |a|
  {
    FindFacts(a + b, c);
    assert forall i :: 0 <= i < |a| ==> (a + b)[i] == a[i] && a[i] in a;
  }

  lemma BraceFirst(name: string, tail: string)
    requires WellNamed(name)
    ensures var line := name + "{" + tail;
      && Find(line, '{') == |name| && line[..|name|] == name && line[|name| + 1..] == tail
      && (Find(line, ' ') == -1 || Find(line, ' ') > |name|)
  {
    var line := name + "{" + tail;
    FindAt(name, '{', tail);
    assert line == name + ("{" + tail) && line[|name|] == '{';
    FindBeyond(name, "{" + tail, ' ');
    FindFacts(line, ' ');
  }

  lemma CloseLast(inner: string, num: string)
    requires forall c :: c in num ==> c != '}'
    ensures var tail := inner + "}" + (" " + num);
      && RFind(tail, '}') == |inner| && tail[..|inner|] == inner && tail[|inner| + 1..] == " " + num
  {
    assert '}' !in " " + num;
    RFindAt(inner, '}', " " + num);
  }

  lemma CutLabelled(name: string, inner: string, num: string)
    requires WellNamed(name) && num != "" && forall c :: c in num ==> !IsSpace(c) && c != '}'
    ensures Cut(name + ("{" + inner + "}") + " " + num) == (name, inner, num)
  {
    var tail := inner + "}" + (" " + num);
    var line := name + ("{" + inner + "}") + " " + num;
    assert line == name + "{" + tail by {
      assert ("{" + inner + "}") + " " + num == "{" + tail;
      Regrouped(name, "{" + inner + "}", " " + num);
    }
    BraceFirst(name, tail);
    CloseLast(inner, num);
    StripName(name);
    StripNumber(num);
  }

  lemma SpaceFirst(name: string, num: string)
    requires WellNamed(name) && '{' !in num
    ensures var line := name + " " + num;
      && Find(line, ' ') == |name| && line[..|name|] == name && line[|name| + 1..] == num
      && Find(line, '{') == -1
  {
    FindAt(name, ' ', num);
    FindFacts(name + " " + num, '{');
  }

  lemma CutPlain(name: string, num: string)
    requires WellNamed(name) && num != "" && '{' !in num && forall c :: c in num ==> !IsSpace(c)
    ensures Cut(name + "" + " " + num) == (name, "", num)
  {
    var line := name + "" + " " + num;
    SpaceFirst(name, num);
    assert line == name + " " + num;
    StripName(name);
    StripNumber(num);
  }

  lemma StripName(name: string)
    requires WellNamed(name)
    ensures Strip(name) == name
  {
    assert name[0] in name && name[|name| - 1] in name;
    StripFixed(name);
  }

  lemma StripNumber(num: string)
    requires num != "" && forall c :: c in num ==> !IsSpace(c)
    ensures Strip(" " + num) == num && Strip(num) == num
  {
    assert num[0] in num && num[|num| - 1] in num;
    StripPadded(" ", num, "");
    assert " " + num + "" == " " + num;
    StripFixed(num);
  }

  /** A printed line starts with the name and ends with the number, so nothing is stripped. */
  lemma LineIsStripped(s: Sample)
    requires WellNamed(s.name)
    ensures Strip(SampleLine(s)) == SampleLine(s) != "" && SampleLine(s)[0] != '#'
  {
    var line, num := SampleLine(s), IntText(s.value);
    assert forall c :: c in num ==> !IsSpace(c);
    assert line[0] == s.name[0] && s.name[0] in s.name;
    assert line[|line| - 1] == num[|num| - 1] && num[|num| - 1] in num;
    StripFixed(line);
  }

  lemma CutLine(s: Sample)
    requires WellNamed(s.name)
    ensures Cut(SampleLine(s)) == (s.name, if s.labels == [] then "" else Join(LabelTexts(s.labels), ','), IntText(s.value))
  {
    var num := IntText(s.value);
    assert forall c :: c in num ==> !IsSpace(c) && c != '{' && c != '}';
    if s.labels == [] { CutPlain(s.name, num); } else { CutLabelled(s.name, Join(LabelTexts(s.labels), ','), num); }
  }

  lemma ParseSampleLine(s: Sample, lineno: nat)
    requires WellFormed(s) && Clean(s)
    ensures ParseLine(SampleLine(s), lineno) == Ok(Some(s))
  {
    LineIsStripped(s);
    CutLine(s);
    IntOfIntText(s.value);
    if s.labels == [] { StripFacts(""); } else { ParseBlock(s.labels, lineno); }
  }

  lemma SampleLineNoBreaks(s: Sample)
    requires WellFormed(s) && Clean(s)
    ensures NoBreaks(SampleLine(s))
  {
    var num := IntText(s.value);
    assert forall c :: c in num ==> !IsBreak(c);
    if s.labels != [] { BlockChars(s.labels); }
    assert NoBreaks(LabelBlock(s.labels));
  }

  // ----- the file -----------------------------------------------------------

  lemma SampleLinesCons(samples: seq<Sample>)
    requires samples != []
    ensures SampleLines(samples)[0] == SampleLine(samples[0]) && SampleLines(samples)[1..] == SampleLines(samples[1..])
  {
    MappedCons(SampleLine, samples);
  }

  lemma ParseLinesCons(lines: seq<string>, lineno: nat, s: Sample, rest: seq<Sample>)
    requires lines != [] && ParseLine(lines[0], lineno) == Ok(Some(s)) && ParseLines(lines[1..], lineno + 1) == Ok(rest)
    ensures ParseLines(lines, lineno) == Ok([s] + rest)
  {
  }

  lemma {:induction false} ParseSampleLines(samples: seq<Sample>, lineno: nat)
    requires forall s :: s in samples ==> WellFormed(s) && Clean(s)
    ensures ParseLines(SampleLines(samples), lineno) == Ok(samples)
  {
    if samples != [] {
      var rest := samples[1..];
      SampleLinesCons(samples);
      ParseSampleLine(samples[0], lineno);
      ParseSampleLines(rest, lineno + 1);
      ParseLinesCons(SampleLines(samples), lineno, samples[0], rest);
      assert [samples[0]] + rest == samples;
    }
  }

  lemma SplitFile(lines: seq<string>)
    requires forall l :: l in lines ==> NoBreaks(l)
    ensures SplitLines(FileText(lines)) == lines
  {
    if lines != [] {
      UnlinesIsJoin(lines);
      SplitLinesUnlines(lines);
    }
  }

  lemma CleanFileParses(samples: seq<Sample>)
    requires forall s :: s in samples ==> WellFormed(s) && Clean(s)
    ensures ParseText(RenderText(samples)) == Ok(ByName(samples))
  {
    var sorted := ByName(samples);
    SortByElements(NameLe, samples);
    forall l | l in SampleLines(sorted) ensures NoBreaks(l) {
      var i :| 0 <= i < |sorted| && l == SampleLine(sorted[i]);
      assert sorted[i] in sorted;
      SampleLineNoBreaks(sorted[i]);
    }
    SplitFile(SampleLines(sorted));
    ParseSampleLines(sorted, 1);
  }

  // ----- what the parser can return -----------------------------------------

  lemma UnescapedClean(part: string, value: string)
    requires ',' !in part && NoBreaks(part) && forall c :: c in value ==> c in part
    ensures CleanValue(Unescape(Unquote(value)))
  {
    assert forall c :: c in Unquote(value) ==> c in value;
    UnescapeChars(Unquote(value));
  }

  /** A label as the parser returns it. */
  predicate GoodLabel(l: Label) { WellKeyed(l.0) && CleanValue(l.1) }

  lemma KeyGood(p: string)
    requires ',' !in p && NoBreaks(p) && Find(p, '=') >= 0
    ensures WellKeyed(Strip(p[..Find(p, '=')]))
  {
    var k := p[..Find(p, '=')];
    FindFacts(p, '=');
    StripKeeps(k);
    StripIdempotent(k);
    assert forall c :: c in k ==> c in p;
  }

  lemma ParsePartGood(part: string, lineno: nat)
    requires ',' !in part && NoBreaks(part)
    ensures var r := ParsePart(part, lineno);
      r.Ok? && r.value.Some? ==> GoodLabel(r.value.value)
  {
    var p := Strip(part);
    StripKeeps(part);
    var eq := Find(p, '=');
    if eq >= 0 {
      KeyGood(p);
      StripKeeps(p[eq + 1..]);
      UnescapedClean(part, Strip(p[eq + 1..]));
    }
  }

  lemma {:induction false} ParsePartsGood(parts: seq<string>, lineno: nat)
    requires forall p :: p in parts ==> ',' !in p && NoBreaks(p)
    ensures var r := ParseParts(parts, lineno);
      r.Ok? ==> forall l :: l in r.value ==> GoodLabel(l)
  {
    if parts != [] {
      ParsePartGood(parts[0], lineno);
      ParsePartsGood(parts[1..], lineno);
    }
  }

  lemma LabelLePreorder()
    ensures TotalPreorder(LabelLe)
  {
    forall a: Label, b: Label ensures LabelLe(a, b) || LabelLe(b, a) {
      StrLeTotal(a.0, b.0);
      StrLeTotal(a.1, b.1);
    }
    forall a: Label, b: Label, c: Label | LabelLe(a, b) && LabelLe(b, c) ensures LabelLe(a, c) {
      if a.0 == b.0 == c.0 {
        StrLeTransitive(a.1, b.1, c.1);
      } else {
        StrLeTotal(a.0, a.0);
        StrLeTotal(b.0, b.0);
        StrLeTransitive(a.0, b.0, c.0);
        if a.0 == c.0 { StrLeAntisymmetric(a.0, b.0); }
      }
    }
  }

  lemma SortedLabelsSorted(labels: seq<Label>)
    ensures SortedBy(LabelLe, SortBy(LabelLe, labels))
  {
    LabelLePreorder();
    SortBySorted(LabelLe, labels);
  }

  lemma ParseLabelsGood(text: string, lineno: nat)
    requires NoBreaks(text)
    ensures var r := ParseLabelsOf(text, lineno);
      r.Ok? ==> SortedBy(LabelLe, r.value) && forall l :: l in r.value ==> GoodLabel(l)
  {
    PiecesGood(text);
    ParsePartsGood(Split(text, ','), lineno);
    var r := ParseParts(Split(text, ','), lineno);
    if r.Ok? { SortedGood(r.value); }
  }

  lemma PiecesGood(text: string)
    requires NoBreaks(text)
    ensures forall p :: p in Split(text, ',') ==> ',' !in p && NoBreaks(p)
  {
    SplitPieces(text, ',');
    forall p | p in Split(text, ',') ensures ',' !in p && NoBreaks(p) {
      assert forall c :: c in p ==> c in text;
    }
  }

  lemma SortedGood(labels: seq<Label>)
    requires forall l :: l in labels ==> GoodLabel(l)
    ensures SortedBy(LabelLe, SortBy(LabelLe, labels)) && forall l :: l in SortBy(LabelLe, labels) ==> GoodLabel(l)
  {
    SortByElements(LabelLe, labels);
    SortedLabelsSorted(labels);
  }

  /** A sample as the parser returns it, its name aside. */
  predicate GoodLabels(s: Sample) { SortedBy(LabelLe, s.labels) && forall l :: l in s.labels ==> GoodLabel(l) }

  lemma ParseLineGood(raw: string, lineno: nat)
    requires NoBreaks(raw)
    ensures var r := ParseLine(raw, lineno);
      r.Ok? && r.value.Some? ==> GoodLabels(r.value.value)
  {
    StripKeeps(raw);
    StrippedLineGood(Strip(raw), lineno);
  }

  lemma StrippedLineGood(line: string, lineno: nat)
    requires NoBreaks(line)
    ensures var r := StrippedLine(line, lineno);
      r.Ok? && r.value.Some? ==> GoodLabels(r.value.value)
  {
    if line != "" && line[0] != '#' {
      var (name, labels, value) := Cut(line);
      CutNoBreaks(line);
      StrippedIsCut(line, name, labels, value, lineno);
      FromPartsGood(name, labels, value, lineno);
    }
  }

  lemma StrippedIsCut(line: string, name: string, labels: string, value: string, lineno: nat)
    requires line != "" && line[0] != '#' && Cut(line) == (name, labels, value)
    ensures StrippedLine(line, lineno) == FromParts(name, labels, value, lineno)
  {
  }

  lemma CutNoBreaks(line: string)
    requires NoBreaks(line)
    ensures NoBreaks(Cut(line).1)
  {
    assert !IsBreak(' ');
  }

  lemma FromPartsGood(name: string, labels: string, value: string, lineno: nat)
    requires NoBreaks(labels)
    ensures var r := FromParts(name, labels, value, lineno);
      r.Ok? && r.value.Some? ==> GoodLabels(r.value.value)
  {
    ParseLabelsGood(labels, lineno);
  }

  /** Whatever the lines: the labels of a parsed sample are sorted, well keyed and clean. */
  lemma {:induction false} ParsedIsClean(lines: seq<string>, lineno: nat)
    requires forall l :: l in lines ==> NoBreaks(l)
    ensures var r := ParseLines(lines, lineno);
      r.Ok? ==> forall s :: s in r.value ==> GoodLabels(s)
  {
    if lines != [] {
      ParseLineGood(lines[0], lineno);
      ParsedIsClean(lines[1..], lineno + 1);
    }
  }

  lemma ParsedTextIsClean(text: string, samples: seq<Sample>)
    requires ParseText(text) == Ok(samples)
    ensures forall s :: s in samples ==> GoodLabels(s) && Clean(s)
  {
    ParsedIsClean(SplitLines(text), 1);
    forall s | s in samples ensures Clean(s) { GoodIsClean(s); }
  }

  lemma GoodIsClean(s: Sample)
    requires GoodLabels(s)
    ensures Clean(s)
  {
    forall l | l in s.labels ensures CleanValue(l.1) { assert GoodLabel(l); }
  }

  /** The round trip: the parser gives back what was printed, stably sorted by metric name,
      if and only if every label value is clean. */
  lemma ParseRender(samples: seq<Sample>)
    requires forall s :: s in samples ==> WellFormed(s)
    ensures ParseText(RenderText(samples)) == Ok(ByName(samples))
      <==> forall s :: s in samples ==> Clean(s)
  {
    if forall s :: s in samples ==> Clean(s) { CleanFileParses(samples); }
    if ParseText(RenderText(samples)) == Ok(ByName(samples)) {
      ParsedTextIsClean(RenderText(samples), ByName(samples));
      SortByElements(NameLe, samples);
    }
  }

  lemma CommaSample() returns (s: Sample)
    ensures s == Sample("m", [("k", "a,b")], 1) && WellFormed(s) && !Clean(s)
  {
    s := Sample("m", [("k", "a,b")], 1);
    StripFixed("k");
    assert "a,b"[1] == ',';
    assert s.labels[0] in s.labels && !CleanValue(s.labels[0].1);
  }

  /** A value with a comma does not come back. */
  lemma CommaIsLost()
    ensures var samples := [Sample("m", [("k", "a,b")], 1)]; ParseText(RenderText(samples)) != Ok(ByName(samples))
  {
    var s := CommaSample();
    assert s in [s];
    ParseRender([s]);
  }
}
