/** The text exposition format of the cost data plane: printer and parser
    (src/fleet_graph/cost_obs/exposition.py). */
module Exposition {
  import opened Text
  import opened Sorting

  type Label = (string, string)

  /** One emitted fact. Values are the integral floats, so they are integers here. */
  datatype Sample = Sample(name: string, labels: seq<Label>, value: int)

  datatype ParseError =
    | NotASample(lineno: nat)
    | MalformedLabel(lineno: nat)
    | NotQuoted(lineno: nat)
    | NonNumeric(lineno: nat)

  predicate LabelLe(a: Label, b: Label)
  {
    if a.0 == b.0 then StrLe(a.1, b.1) else StrLe(a.0, b.0)
  }

  predicate NameLe(a: Sample, b: Sample) { StrLe(a.name, b.name) }

  /** The samples by metric name, those of one name in the order given. */
  function ByName(samples: seq<Sample>): seq<Sample> { SortBy(NameLe, samples) }

  // ----- printing -----------------------------------------------------------

  function Escape(v: string): string
  {
    if v == "" then ""
    else
      (match v[0]
       case '\\' => "\\\\"
       case '\n' => "\\n"
       case '"' => "\\\""
       case c => [c]) + Escape(v[1..])
  }

  function LabelText(l: Label): string { l.0 + "=\"" + Escape(l.1) + "\"" }

  function LabelTexts(labels: seq<Label>): (r: seq<string>)
    ensures |r| == |labels|
  {
    Mapped(LabelText, labels)
  }

  function LabelBlock(labels: seq<Label>): string
  {
    if labels == [] then "" else "{" + Join(LabelTexts(labels), ',') + "}"
  }

  function SampleLine(s: Sample): string
  {
    s.name + LabelBlock(s.labels) + " " + IntText(s.value)
  }

  function SampleLines(samples: seq<Sample>): (r: seq<string>)
    ensures |r| == |samples|
  {
    Mapped(SampleLine, samples)
  }

  function FileText(lines: seq<string>): string
  {
    Join(lines, '\n') + (if lines == [] then "" else "\n")
  }

  function RenderText(samples: seq<Sample>): string { FileText(SampleLines(ByName(samples))) }

  // ----- parsing ------------------------------------------------------------

  function Unescape(v: string): string
  {
    if v == "" then ""
    else if v[0] == '\\' && |v| > 1 then
      [if v[1] == 'n' then '\n' else v[1]] + Unescape(v[2..])
    else [v[0]] + Unescape(v[1..])
  }

  /** Items already taken, followed by what is still to come. */
  function After<T, E>(taken: seq<T>, rest: Result<seq<T>, E>): Result<seq<T>, E>
  {
    match rest
    case Err(e) => Err(e)
    case Ok(more) => Ok(taken + more)
  }

  function Optional<T>(o: Option<T>): seq<T> { if o.Some? then [o.value] else [] }

  lemma AfterAfter<T, E>(a: seq<T>, b: seq<T>, rest: Result<seq<T>, E>)
    ensures After(a, After(b, rest)) == After(a + b, rest)
    ensures After([], rest) == rest
    ensures After<T, E>(a, Ok([])) == Ok(a)
  {
    assert a + [] == a;
    if rest.Ok? {
      assert a + (b + rest.value) == a + b + rest.value;
      assert [] + rest.value == rest.value;
    }
  }

  predicate Quoted(value: string) { value != "" && value[0] == '"' && value[|value| - 1] == '"' }

  /** value[1:-1] */
  function Unquote(value: string): string { if |value| < 2 then "" else value[1..|value| - 1] }

  /** One comma-separated piece of a label block; None for a blank piece. */
  function ParsePart(part: string, lineno: nat): Result<Option<Label>, ParseError> { StrippedPart(Strip(part), lineno) }

  function StrippedPart(p: string, lineno: nat): Result<Option<Label>, ParseError>
  {
    var eq := Find(p, '=');
    if p == "" then Ok(None)
    else if eq == -1 then Err(MalformedLabel(lineno))
    else QuotedLabel(Strip(p[..eq]), Strip(p[eq + 1..]), lineno)
  }

  function QuotedLabel(key: string, value: string, lineno: nat): Result<Option<Label>, ParseError>
  {
    if Quoted(value) then Ok(Some((key, Unescape(Unquote(value))))) else Err(NotQuoted(lineno))
  }

  function ParseParts(parts: seq<string>, lineno: nat): Result<seq<Label>, ParseError>
  {
    if parts == [] then Ok([])
    else
      match ParsePart(parts[0], lineno)
      case Err(e) => Err(e)
      case Ok(first) => After(Optional(first), ParseParts(parts[1..], lineno))
  }

  function ParseLabelsOf(text: string, lineno: nat): Result<seq<Label>, ParseError>
  {
    if Strip(text) == "" then Ok([])
    else
      match ParseParts(Split(text, ','), lineno)
      case Err(e) => Err(e)
      case Ok(labels) => Ok(SortBy(LabelLe, labels))
  }

  /** A stripped line cut into metric name, label text and value text. */
  function Cut(line: string): (string, string, string)
  {
    var brace := Find(line, '{');
    var space := Find(line, ' ');
    if brace != -1 && (space == -1 || brace < space) then
      var rest := line[brace + 1..];
      var close := RFind(rest, '}');
      (Strip(line[..brace]), PyTake(rest, close), Strip(rest[close + 1..]))
    else (Strip(PyTake(line, space)), "", Strip(line[space + 1..]))
  }

  /** One line; None for a blank line or a comment. */
  function ParseLine(raw: string, lineno: nat): Result<Option<Sample>, ParseError> { StrippedLine(Strip(raw), lineno) }

  function StrippedLine(line: string, lineno: nat): Result<Option<Sample>, ParseError>
  {
    if line == "" || line[0] == '#' then Ok(None)
    else
      var (name, labelsText, valueText) := Cut(line);
      FromParts(name, labelsText, valueText, lineno)
  }

  function FromParts(name: string, labelsText: string, valueText: string, lineno: nat): Result<Option<Sample>, ParseError>
  {
    if name == "" || valueText == "" then Err(NotASample(lineno))
    else Measured(name, ParseLabelsOf(labelsText, lineno), IntOf(valueText), lineno)
  }

  function Measured(name: string, labels: Result<seq<Label>, ParseError>, value: Option<int>, lineno: nat)
    : Result<Option<Sample>, ParseError>
  {
    match labels
    case Err(e) => Err(e)
    case Ok(ls) => if value.None? then Err(NonNumeric(lineno)) else Ok(Some(Sample(name, ls, value.value)))
  }

  function ParseLines(lines: seq<string>, lineno: nat): Result<seq<Sample>, ParseError>
  {
    if lines == [] then Ok([])
    else
      match ParseLine(lines[0], lineno)
      case Err(e) => Err(e)
      case Ok(first) => After(Optional(first), ParseLines(lines[1..], lineno + 1))
  }

  function ParseText(text: string): Result<seq<Sample>, ParseError>
  {
    ParseLines(SplitLines(text), 1)
  }

  // ----- the loops of the source --------------------------------------------

  lemma UnescapePair(v: string)
    requires |v| > 1 && v[0] == '\\'
    ensures Unescape(v) == [if v[1] == 'n' then '\n' else v[1]] + Unescape(v[2..])
  {
  }

  lemma UnescapePlain(v: string)
    requires v != "" && (v[0] != '\\' || |v| == 1)
    ensures Unescape(v) == [v[0]] + Unescape(v[1..])
  {
  }

  lemma Sliced(v: string, i: nat, k: nat)
    requires i + k <= |v|
    ensures v[i..][k..] == v[i + k..]
  {
  }

  method UnescapeLabel(value: string) returns (out: string)
    ensures out == Unescape(value)
  {
    out := "";
    var i, n := 0, |value|;
    assert value[0..] == value;
    while i < n
      invariant 0 <= i <= n
      invariant out + Unescape(value[i..]) == Unescape(value)
    {
      var ch := value[i];
      if ch == '\\' && i + 1 < n {
        var nxt := value[i + 1];
        var c := if nxt == 'n' then '\n' else nxt;
        UnescapePair(value[i..]);
        Sliced(value, i, 2);
        Regrouped(out, [c], Unescape(value[i + 2..]));
        out := out + [c];
        i := i + 2;
      } else {
        UnescapePlain(value[i..]);
        Sliced(value, i, 1);
        Regrouped(out, [ch], Unescape(value[i + 1..]));
        out := out + [ch];
        i := i + 1;
      }
    }
    assert value[n..] == "";
  }

  method ParseQuoted(key: string, value: string, lineno: nat) returns (r: Result<Option<Label>, ParseError>)
    ensures r == QuotedLabel(key, value, lineno)
  {
    if !Quoted(value) { return Err(NotQuoted(lineno)); }
    var unescaped := UnescapeLabel(Unquote(value));
    r := Ok(Some((key, unescaped)));
  }

  method ParseLabel(piece: string, lineno: nat) returns (r: Result<Option<Label>, ParseError>)
    ensures r == ParsePart(piece, lineno)
  {
    r := ParseStripped(Strip(piece), lineno);
  }

  method ParseStripped(part: string, lineno: nat) returns (r: Result<Option<Label>, ParseError>)
    ensures r == StrippedPart(part, lineno)
  {
    var eq := Find(part, '=');
    if part == "" { return Ok(None); }
    if eq == -1 { return Err(MalformedLabel(lineno)); }
    r := ParsePair(part, eq, lineno);
  }

  method ParsePair(part: string, eq: nat, lineno: nat) returns (r: Result<Option<Label>, ParseError>)
    requires eq < |part|
    ensures r == QuotedLabel(Strip(part[..eq]), Strip(part[eq + 1..]), lineno)
  {
    var key, value := Strip(part[..eq]), Strip(part[eq + 1..]);
    r := ParseQuoted(key, value, lineno);
  }

  method ParseLabels(text: string, lineno: nat) returns (r: Result<seq<Label>, ParseError>)
    ensures r == ParseLabelsOf(text, lineno)
  {
    var labels: seq<Label> := [];
    if Strip(text) == "" { return Ok([]); }
    var parts := Split(text, ',');
    ghost var all := ParseParts(parts, lineno);
    assert parts[0..] == parts;
    AfterAfter([], [], all);
    for k := 0 to |parts|
      invariant After(labels, ParseParts(parts[k..], lineno)) == all
    {
      assert parts[k..][1..] == parts[k + 1..];
      var one := ParseLabel(parts[k], lineno);
      if one.Err? { return Err(one.error); }
      AfterAfter(labels, Optional(one.value), ParseParts(parts[k + 1..], lineno));
      labels := labels + Optional(one.value);
    }
    AfterAfter(labels, [], all);
    r := Ok(SortBy(LabelLe, labels));
  }

  method ParseSample(raw: string, lineno: nat) returns (r: Result<Option<Sample>, ParseError>)
    ensures r == ParseLine(raw, lineno)
  {
    var line := Strip(raw);
    if line == "" || line[0] == '#' { return Ok(None); }
    var (name, labelsText, valueText) := Cut(line);
    if name == "" || valueText == "" { return Err(NotASample(lineno)); }
    var labels := ParseLabels(labelsText, lineno);
    if labels.Err? { return Err(labels.error); }
    var value := IntOf(valueText);
    if value.None? { return Err(NonNumeric(lineno)); }
    r := Ok(Some(Sample(name, labels.value, value.value)));
  }

  method Parse(text: string) returns (r: Result<seq<Sample>, ParseError>)
    ensures r == ParseText(text)
  {
    var samples: seq<Sample> := [];
    var lines := SplitLines(text);
    ghost var all := ParseLines(lines, 1);
    assert lines[0..] == lines;
    AfterAfter([], [], all);
    for k := 0 to |lines|
      invariant After(samples, ParseLines(lines[k..], k + 1)) == all
    {
      assert lines[k..][1..] == lines[k + 1..];
      var sample := ParseSample(lines[k], k + 1);
      if sample.Err? { return Err(sample.error); }
      AfterAfter(samples, Optional(sample.value), ParseLines(lines[k + 1..], k + 2));
      samples := samples + Optional(sample.value);
    }
    AfterAfter(samples, [], all);
    r := Ok(samples);
  }

  // ----- grouping by name ---------------------------------------------------

  /** The samples of one metric, in the order given. */
  function Named(samples: seq<Sample>, name: string): seq<Sample>
  {
    if samples == [] then []
    else
      var last := samples[|samples| - 1];
      Named(samples[..|samples| - 1], name) + (if last.name == name then [last] else [])
  }

  lemma {:induction false} NamedElements(samples: seq<Sample>, name: string)
    ensures forall s :: s in Named(samples, name) <==> s in samples && s.name == name
  {
    if samples != [] {
      NamedElements(samples[..|samples| - 1], name);
      assert samples == samples[..|samples| - 1] + [samples[|samples| - 1]];
    }
  }

  lemma {:induction false} NamedConcat(a: seq<Sample>, b: seq<Sample>, name: string)
    ensures Named(a + b, name) == Named(a, name) + Named(b, name)
  {
    if b == [] {
      assert a + b == a;
    } else {
      var front, last := b[..|b| - 1], b[|b| - 1];
      NamedConcat(a, front, name);
      assert (a + b)[..|a + b| - 1] == a + front && (a + b)[|a + b| - 1] == last;
      var tail := if last.name == name then [last] else [];
      assert Named(a, name) + Named(front, name) + tail == Named(a, name) + (Named(front, name) + tail);
    }
  }

  lemma {:induction false} NamedNone(a: seq<Sample>, name: string)
    requires forall s :: s in a ==> s.name != name
    ensures Named(a, name) == []
  {
    NamedElements(a, name);
    assert Named(a, name) != [] ==> Named(a, name)[0] in Named(a, name);
  }

  lemma {:induction false} NamedAll(a: seq<Sample>, name: string)
    requires forall s :: s in a ==> s.name == name
    ensures Named(a, name) == a
  {
    if a != [] {
      NamedAll(a[..|a| - 1], name);
      assert a[|a| - 1] in a;
    }
  }

  lemma NameLePreorder()
    ensures TotalPreorder(NameLe)
  {
    forall a: Sample, b: Sample ensures NameLe(a, b) || NameLe(b, a) { StrLeTotal(a.name, b.name); }
    forall a: Sample, b: Sample, c: Sample | NameLe(a, b) && NameLe(b, c) ensures NameLe(a, c) {
      StrLeTransitive(a.name, b.name, c.name);
    }
  }

  lemma StrLePreorder()
    ensures TotalPreorder(StrLe)
    ensures forall x: string, y: string :: StrLe(x, y) && StrLe(y, x) ==> x == y
  {
    forall a: string, b: string ensures StrLe(a, b) || StrLe(b, a) { StrLeTotal(a, b); }
    forall a: string, b: string, c: string | StrLe(a, b) && StrLe(b, c) ensures StrLe(a, c) {
      StrLeTransitive(a, b, c);
    }
    forall x: string, y: string | StrLe(x, y) && StrLe(y, x) ensures x == y { StrLeAntisymmetric(x, y); }
  }

  lemma {:induction false} InsertByNamed(x: Sample, s: seq<Sample>, name: string)
    requires SortedBy(NameLe, s)
    ensures Named(InsertBy(NameLe, x, s), name) == if x.name == name then Named(s, name) + [x] else Named(s, name)
  {
    if s == [] {
      NamedSnoc([], x, name);
      assert [] + [x] == [x];
    } else {
      var front, last := s[..|s| - 1], s[|s| - 1];
      assert s == front + [last];
      if NameLe(last, x) {
        NamedSnoc(s, x, name);
      } else {
        InsertByNamed(x, front, name);
        StrLeTotal(last.name, last.name);
        InsertedBefore(x, front, InsertBy(NameLe, x, front), last, name);
      }
    }
  }

  /** A sample that x is put before does not have x's name. */
  lemma InsertedBefore(x: Sample, front: seq<Sample>, inserted: seq<Sample>, last: Sample, name: string)
    requires x.name != last.name
    requires Named(inserted, name) == if x.name == name then Named(front, name) + [x] else Named(front, name)
    ensures Named(inserted + [last], name) == if x.name == name then Named(front + [last], name) + [x] else Named(front + [last], name)
  {
    NamedSnoc(inserted, last, name);
    NamedSnoc(front, last, name);
  }

  lemma NamedSnoc(s: seq<Sample>, x: Sample, name: string)
    ensures Named(s + [x], name) == if x.name == name then Named(s, name) + [x] else Named(s, name)
  {
    assert (s + [x])[..|s|] == s;
  }

  lemma {:induction false} ByNameKeepsGroups(samples: seq<Sample>, name: string)
    ensures Named(ByName(samples), name) == Named(samples, name)
  {
    if samples != [] {
      var front := samples[..|samples| - 1];
      ByNameKeepsGroups(samples[..|samples| - 1], name);
      NameLePreorder();
      SortBySorted(NameLe, front);
      InsertByNamed(samples[|samples| - 1], ByName(front), name);
    }
  }

  lemma ByNameSorted(samples: seq<Sample>)
    ensures SortedBy(NameLe, ByName(samples))
  {
    NameLePreorder();
    SortBySorted(NameLe, samples);
  }

  ghost predicate SameGroups(a: seq<Sample>, b: seq<Sample>) { forall name :: Named(a, name) == Named(b, name) }

  lemma SameSamples(a: seq<Sample>, b: seq<Sample>, s: Sample)
    requires SameGroups(a, b) && s in a
    ensures s in b
  {
    NamedElements(a, s.name);
    NamedElements(b, s.name);
    assert Named(a, s.name) == Named(b, s.name);
  }

  lemma LastNameIsLargest(a: seq<Sample>, s: Sample)
    requires SortedBy(NameLe, a) && s in a
    ensures StrLe(s.name, a[|a| - 1].name)
  {
    StrLeTotal(s.name, s.name);
    var i :| 0 <= i < |a| && a[i] == s;
    assert i < |a| - 1 ==> NameLe(a[i], a[|a| - 1]);
  }

  lemma LastsEqual(a: seq<Sample>, b: seq<Sample>, name: string)
    requires a != [] && b != [] && a[|a| - 1].name == name == b[|b| - 1].name
    requires Named(a, name) == Named(b, name)
    ensures a[|a| - 1] == b[|b| - 1]
  {
    var l := Named(a, name);
    assert l[|l| - 1] == a[|a| - 1];
    assert l[|l| - 1] == b[|b| - 1];
  }

  lemma LastNamesEqual(a: seq<Sample>, b: seq<Sample>)
    requires a != [] && b != [] && SortedBy(NameLe, a) && SortedBy(NameLe, b) && SameGroups(a, b)
    ensures a[|a| - 1].name == b[|b| - 1].name
  {
    var x, y := a[|a| - 1], b[|b| - 1];
    SameSamples(a, b, x);
    SameSamples(b, a, y);
    LastNameIsLargest(a, y);
    LastNameIsLargest(b, x);
    StrLeAntisymmetric(x.name, y.name);
  }

  lemma LastDropped(a: seq<Sample>, b: seq<Sample>, name: string)
    requires a != [] && b != [] && a[|a| - 1] == b[|b| - 1] && Named(a, name) == Named(b, name)
    ensures Named(a[..|a| - 1], name) == Named(b[..|b| - 1], name)
  {
    var x := a[|a| - 1];
    var tail := if x.name == name then [x] else [];
    var l, r := Named(a[..|a| - 1], name), Named(b[..|b| - 1], name);
    assert l + tail == r + tail;
    assert l == (l + tail)[..|l|] && r == (r + tail)[..|r|];
  }

  lemma LastsDropped(a: seq<Sample>, b: seq<Sample>)
    requires a != [] && b != [] && a[|a| - 1] == b[|b| - 1] && SameGroups(a, b)
    ensures SameGroups(a[..|a| - 1], b[..|b| - 1])
  {
    var front, back := a[..|a| - 1], b[..|b| - 1];
    forall name ensures Named(front, name) == Named(back, name) {
      LastDropped(a, b, name);
    }
  }

  /** A list sorted by name is fixed by its groups. */
  lemma {:induction false} GroupsDetermine(a: seq<Sample>, b: seq<Sample>)
    requires SortedBy(NameLe, a) && SortedBy(NameLe, b) && SameGroups(a, b)
    ensures a == b
  {
    if a != [] { SameSamples(a, b, a[0]); }
    if b != [] { SameSamples(b, a, b[0]); }
    if a != [] {
      LastNamesEqual(a, b);
      LastsEqual(a, b, a[|a| - 1].name);
      LastsDropped(a, b);
      GroupsDetermine(a[..|a| - 1], b[..|b| - 1]);
      assert a == a[..|a| - 1] + [a[|a| - 1]] && b == b[..|b| - 1] + [b[|b| - 1]];
    }
  }

  /** What a list must be to be the sorted form of another. */
  lemma ByNameUnique(samples: seq<Sample>, r: seq<Sample>)
    requires SortedBy(NameLe, r)
    requires forall name :: Named(r, name) == Named(samples, name)
    ensures r == ByName(samples)
  {
    ByNameSorted(samples);
    forall name ensures Named(r, name) == Named(ByName(samples), name) { ByNameKeepsGroups(samples, name); }
    GroupsDetermine(r, ByName(samples));
  }

  /** The samples so far by name, the names in order of first appearance. */
  ghost predicate Grouped(samples: seq<Sample>, grouped: map<string, seq<Sample>>, order: seq<string>)
  {
    && Distinct(order) && (forall n :: n in order <==> n in grouped)
    && forall n :: Named(samples, n) == if n in grouped then grouped[n] else []
  }

  method GroupSamples(samples: seq<Sample>) returns (grouped: map<string, seq<Sample>>, order: seq<string>)
    ensures Grouped(samples, grouped, order)
    ensures forall n :: n in grouped <==> Named(samples, n) != []
  {
    grouped, order := map[], [];
    for k := 0 to |samples|
      invariant Grouped(samples[..k], grouped, order)
      invariant forall n :: n in grouped ==> grouped[n] != []
    {
      var s := samples[k];
      assert samples[..k + 1] == samples[..k] + [s];
      if s.name !in grouped {
        GroupOpened(samples[..k], grouped, order, s);
        order := order + [s.name];
        grouped := grouped[s.name := []];
      } else {
        GroupGrown(samples[..k], grouped, order, s);
      }
      grouped := grouped[s.name := grouped[s.name] + [s]];
    }
    assert samples[..|samples|] == samples;
  }

  lemma GroupGrown(samples: seq<Sample>, grouped: map<string, seq<Sample>>, order: seq<string>, s: Sample)
    requires Grouped(samples, grouped, order) && s.name in grouped
    ensures Grouped(samples + [s], grouped[s.name := grouped[s.name] + [s]], order)
  {
    forall n ensures Named(samples + [s], n) == if s.name == n then Named(samples, n) + [s] else Named(samples, n) {
      NamedSnoc(samples, s, n);
    }
  }

  lemma GroupOpened(samples: seq<Sample>, grouped: map<string, seq<Sample>>, order: seq<string>, s: Sample)
    requires Grouped(samples, grouped, order) && s.name !in grouped
    ensures Grouped(samples + [s], grouped[s.name := [] + [s]], order + [s.name])
  {
    assert s.name !in order;
    forall n ensures Named(samples + [s], n) == if s.name == n then Named(samples, n) + [s] else Named(samples, n) {
      NamedSnoc(samples, s, n);
    }
  }

  /** The state of the printing loop: the groups of the first k names have been printed. */
  ghost predicate Printed(samples: seq<Sample>, names: seq<string>, k: nat, done: seq<Sample>)
    requires k <= |names|
  {
    && SortedBy(NameLe, done)
    && (forall s :: s in done ==> s.name in names[..k])
    && forall n :: Named(done, n) == if n in names[..k] then Named(samples, n) else []
  }

  method PrintGroup(lines: seq<string>, group: seq<Sample>, ghost before: seq<Sample>) returns (r: seq<string>)
    requires lines == SampleLines(before)
    ensures r == SampleLines(before + group)
  {
    r := lines;
    assert before + group[..0] == before;
    for i := 0 to |group|
      invariant r == SampleLines(before + group[..i])
    {
      assert before + group[..i + 1] == before + group[..i] + [group[i]];
      SampleLinesSnoc(before + group[..i], group[i]);
      r := r + [SampleLine(group[i])];
    }
    assert group[..|group|] == group;
  }

  lemma SampleLinesSnoc(samples: seq<Sample>, s: Sample)
    ensures SampleLines(samples + [s]) == SampleLines(samples) + [SampleLine(s)]
  {
  }

  method Render(samples: seq<Sample>) returns (text: string)
    ensures text == RenderText(samples)
  {
    var grouped, order := GroupSamples(samples);
    var names := SortBy(StrLe, order);
    SortedNames(order);
    var lines: seq<string> := [];
    ghost var done: seq<Sample> := [];
    for k := 0 to |names|
      invariant lines == SampleLines(done)
      invariant Printed(samples, names, k, done)
    {
      assert names[k] in grouped;
      var group := grouped[names[k]];
      GroupAppended(samples, names, k, done, done + group);
      lines := PrintGroup(lines, group, done);
      done := done + group;
    }
    AllPrinted(samples, names, done);
    text := Join(lines, '\n') + (if lines == [] then "" else "\n");
  }

  lemma AllPrinted(samples: seq<Sample>, names: seq<string>, done: seq<Sample>)
    requires Printed(samples, names, |names|, done)
    requires forall n :: n in names <==> Named(samples, n) != []
    ensures done == ByName(samples)
  {
    assert names[..|names|] == names;
    ByNameUnique(samples, done);
  }

  lemma SortedNames(order: seq<string>)
    requires Distinct(order)
    ensures var names := SortBy(StrLe, order);
      SortedBy(StrLe, names) && Distinct(names) && forall n :: n in names <==> n in order
  {
    StrLePreorder();
    SortBySorted(StrLe, order);
    SortByElements(StrLe, order);
    var elements := set n | n in order;
    DistinctMultiset(order);
    DistinctFromMultiset(SortBy(StrLe, order), elements);
  }

  lemma {:induction false} DistinctMultiset<T>(s: seq<T>)
    requires Distinct(s)
    ensures multiset(s) == multiset(set x | x in s)
  {
    if s != [] {
      var front, last := s[..|s| - 1], s[|s| - 1];
      DistinctMultiset(front);
      assert s == front + [last];
      assert (set x | x in s) == (set x | x in front) + {last};
      assert last !in front;
    }
  }

  lemma GroupAppended(samples: seq<Sample>, names: seq<string>, k: nat, before: seq<Sample>, done: seq<Sample>)
    requires k < |names| && SortedBy(StrLe, names) && Distinct(names)
    requires Printed(samples, names, k, before)
    requires done == before + Named(samples, names[k])
    ensures Printed(samples, names, k + 1, done)
  {
    GroupSorted(samples, names, k, before);
    GroupListed(samples, names, k, before);
    GroupNamed(samples, names, k, before);
  }

  lemma GroupSorted(samples: seq<Sample>, names: seq<string>, k: nat, before: seq<Sample>)
    requires k < |names| && SortedBy(StrLe, names) && SortedBy(NameLe, before) && forall s :: s in before ==> s.name in names[..k]
    ensures SortedBy(NameLe, before + Named(samples, names[k]))
  {
    NamedElements(samples, names[k]);
    EarlierNames(names, k, before);
    SortedThen(before, Named(samples, names[k]), names[k]);
  }

  lemma GroupListed(samples: seq<Sample>, names: seq<string>, k: nat, before: seq<Sample>)
    requires k < |names| && forall s :: s in before ==> s.name in names[..k]
    ensures forall s :: s in before + Named(samples, names[k]) ==> s.name in names[..k + 1]
  {
    NamedElements(samples, names[k]);
    assert names[..k + 1] == names[..k] + [names[k]];
  }

  lemma GroupNamed(samples: seq<Sample>, names: seq<string>, k: nat, before: seq<Sample>)
    requires k < |names| && Distinct(names)
    requires forall n :: Named(before, n) == if n in names[..k] then Named(samples, n) else []
    ensures forall n :: Named(before + Named(samples, names[k]), n) == if n in names[..k + 1] then Named(samples, n) else []
  {
    var name, group := names[k], Named(samples, names[k]);
    NamedElements(samples, name);
    assert names[..k + 1] == names[..k] + [name];
    assert name !in names[..k];
    forall n ensures Named(before + group, n) == if n in names[..k + 1] then Named(samples, n) else [] {
      NamedThen(before, group, name, n);
    }
  }

  lemma NamedThen(before: seq<Sample>, group: seq<Sample>, name: string, n: string)
    requires forall s :: s in group ==> s.name == name
    ensures Named(before + group, n) == if n == name then Named(before, n) + group else Named(before, n)
  {
    NamedConcat(before, group, n);
    NamedGroup(group, name, n);
  }

  lemma NamedGroup(group: seq<Sample>, name: string, n: string)
    requires forall s :: s in group ==> s.name == name
    ensures Named(group, n) == if n == name then group else []
  {
    if n == name { NamedAll(group, n); } else { NamedNone(group, n); }
  }

  lemma EarlierNames(names: seq<string>, k: nat, before: seq<Sample>)
    requires k < |names| && SortedBy(StrLe, names) && forall s :: s in before ==> s.name in names[..k]
    ensures forall s :: s in before ==> StrLe(s.name, names[k])
  {
  }

  lemma SortedThen(before: seq<Sample>, group: seq<Sample>, name: string)
    requires SortedBy(NameLe, before)
    requires forall s :: s in before ==> StrLe(s.name, name)
    requires forall s :: s in group ==> s.name == name
    ensures SortedBy(NameLe, before + group)
  {
    var done := before + group;
    StrLeTotal(name, name);
    assert forall i :: 0 <= i < |before| ==> done[i] == before[i];
    assert forall i :: |before| <= i < |done| ==> done[i] == group[i - |before|] && done[i] in group;
    assert forall i :: 0 <= i < |before| ==> before[i] in before;
  }
}
