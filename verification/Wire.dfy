/** The exposition format rule by rule (src/fleet_graph/cost_obs/exposition.py): what is printed, and
    what the parser makes of any line, printed by it or not. */
module Wire {
  import opened Exposition
  import RoundTrip
  import opened Sorting
  import opened Text

  // ----- printing -----------------------------------------------------------

  lemma {:induction false} EscapeParts(a: string, b: string)
    ensures Escape(a + b) == Escape(a) + Escape(b)
  {
    if a == "" {
      assert a + b == b;
    } else {
      EscapeParts(a[1..], b);
      HeadSplit(a, b);
      EscapeHead(a[0], a[1..]);
      EscapeHead(a[0], a[1..] + b);
      assert a == [a[0]] + a[1..];
      Regrouped(EscapeOf(a[0]), Escape(a[1..]), Escape(b));
    }
  }

  /** The escape of one character: a backslash before a backslash and before a quote, the letter n
      behind one for a line feed, and every other character itself. */
  function EscapeOf(c: char): string
  {
    if c == '\\' then ['\\', '\\'] else if c == '"' then ['\\', '"'] else if c == '\n' then ['\\', 'n'] else [c]
  }

  lemma EscapeHead(c: char, rest: string)
    ensures Escape([c] + rest) == EscapeOf(c) + Escape(rest)
  {
    assert ([c] + rest)[1..] == rest;
  }

  lemma BlockOfOne(k: string, v: string)
    ensures LabelBlock([(k, v)]) == "{" + (k + "=\"" + Escape(v) + "\"") + "}"
  {
    var l := (k, v);
    MappedCons(LabelText, [l]);
    assert LabelTexts([l]) == [LabelText(l)];
  }

  /** Each further label is put behind a comma, before the closing brace. */
  lemma BlockOfMore(labels: seq<Label>, k: string, v: string)
    requires labels != []
    ensures LabelBlock([(k, v)] + labels) == "{" + (k + "=\"" + Escape(v) + "\"") + "," + LabelBlock(labels)[1..]
  {
    var all, first, rest := [(k, v)] + labels, k + "=\"" + Escape(v) + "\"", LabelTexts(labels);
    MappedCons(LabelText, all);
    assert all[1..] == labels && LabelTexts(all) == [first] + rest;
    JoinCons(first, rest, ',');
    assert LabelBlock(labels)[1..] == Join(rest, ',') + "}";
    Regrouped("{" + first + ",", Join(rest, ','), "}");
    Regrouped("{", first, ",");
    Regrouped("{", first + ",", Join(rest, ','));
  }

  /** A line: the name, the labels in braces if there are any, a space and the numeral. */
  lemma LineIs(s: Sample)
    ensures SampleLine(s) == s.name + (if s.labels == [] then "" else LabelBlock(s.labels)) + " " + IntText(s.value)
  {
  }

  /** The file: the samples by name, each on a line that ends with a line feed. */
  lemma FileIs(samples: seq<Sample>)
    ensures RenderText(samples) == Unlines(SampleLines(ByName(samples)))
  {
    if ByName(samples) != [] { UnlinesIsJoin(SampleLines(ByName(samples))); }
  }

  // ----- parsing: the lines -------------------------------------------------

  type LineParser = (string, nat) -> Result<Option<Sample>, ParseError>

  /** The lines parsed one by one, numbered from lineno. */
  function Each(parse: LineParser, lines: seq<string>, lineno: nat): Result<seq<Sample>, ParseError>
  {
    if lines == [] then Ok([]) else Ahead(parse(lines[0], lineno), Each(parse, lines[1..], lineno + 1))
  }

  /** The first refusal, or all that was not passed over. */
  function Ahead<T, E>(first: Result<Option<T>, E>, rest: Result<seq<T>, E>): Result<seq<T>, E>
  {
    match first
    case Err(e) => Err(e)
    case Ok(item) => After(Optional(item), rest)
  }

  lemma {:induction false} LinesAreEach(lines: seq<string>, lineno: nat)
    ensures ParseLines(lines, lineno) == Each(ParseLine, lines, lineno)
  {
    if lines != [] { LinesAreEach(lines[1..], lineno + 1); }
  }

  /** The line that e names is refused with e, and none before it is refused. */
  ghost predicate RefusedAt(parse: LineParser, lines: seq<string>, lineno: nat, e: ParseError)
  {
    && lineno <= e.lineno < lineno + |lines| && parse(lines[e.lineno - lineno], e.lineno) == Err(e)
    && forall j :: 0 <= j < e.lineno - lineno ==> parse(lines[j], lineno + j).Ok?
  }

  ghost predicate TellsLine(parse: LineParser) { forall raw, n :: parse(raw, n).Err? ==> parse(raw, n).error.lineno == n }

  lemma {:induction false} EachRefuses(parse: LineParser, lines: seq<string>, lineno: nat)
    requires TellsLine(parse)
    ensures Each(parse, lines, lineno).Err? ==> RefusedAt(parse, lines, lineno, Each(parse, lines, lineno).error)
    ensures Each(parse, lines, lineno).Ok? ==> forall j :: 0 <= j < |lines| ==> parse(lines[j], lineno + j).Ok?
  {
    if lines != [] {
      EachRefuses(parse, lines[1..], lineno + 1);
      forall j: nat | 1 <= j < |lines| ensures parse(lines[j], lineno + j) == parse(lines[1..][j - 1], lineno + 1 + (j - 1)) { }
    }
  }

  lemma ErrorHasLine(raw: string, lineno: nat)
    ensures ParseLine(raw, lineno).Err? ==> ParseLine(raw, lineno).error.lineno == lineno
  {
    var line := Strip(raw);
    if line != "" && line[0] != '#' { LabelErrorHasLine(Cut(line).1, lineno); }
  }

  lemma LabelErrorHasLine(text: string, lineno: nat)
    ensures ParseLabelsOf(text, lineno).Err? ==> ParseLabelsOf(text, lineno).error.lineno == lineno
  {
    PieceErrorHasLine(Split(text, ','), lineno);
  }

  lemma {:induction false} PieceErrorHasLine(pieces: seq<string>, lineno: nat)
    ensures ParseParts(pieces, lineno).Err? ==> ParseParts(pieces, lineno).error.lineno == lineno
  {
    if pieces != [] { PieceErrorHasLine(pieces[1..], lineno); }
  }

  /** A text is refused for its first line that is, and the error carries that line's number. */
  lemma FirstRefusal(lines: seq<string>, lineno: nat)
    ensures ParseLines(lines, lineno).Err? ==> RefusedAt(ParseLine, lines, lineno, ParseLines(lines, lineno).error)
    ensures ParseLines(lines, lineno).Ok? ==> AllTaken(ParseLine, lines, lineno)
  {
    LinesAreEach(lines, lineno);
    forall raw, n: nat | ParseLine(raw, n).Err? ensures ParseLine(raw, n).error.lineno == n { ErrorHasLine(raw, n); }
    EachRefuses(ParseLine, lines, lineno);
  }

  ghost predicate AllTaken(parse: LineParser, lines: seq<string>, lineno: nat)
  {
    forall j :: 0 <= j < |lines| ==> parse(lines[j], lineno + j).Ok?
  }

  predicate Blank(s: string) { forall c :: c in s ==> IsSpace(c) }

  predicate Trimmed(s: string) { s != "" ==> !IsSpace(s[0]) && !IsSpace(s[|s| - 1]) }

  /** White space around a line does not count; a line of nothing else and a line that starts with
      '#' give no sample and no error. */
  lemma PassedOver(left: string, line: string, right: string, lineno: nat)
    requires Blank(left) && Blank(right) && Trimmed(line)
    ensures line == "" || line[0] == '#' ==> ParseLine(left + line + right, lineno) == Ok(None)
    ensures ParseLine(left + line + right, lineno) == ParseLine(line, lineno)
  {
    StripPadded(left, line, right);
    StripPadded("", line, "");
    assert "" + line + "" == line;
  }

  predicate IsLine(line: string) { line != "" && Trimmed(line) && line[0] != '#' }

  lemma LineIsCut(line: string, lineno: nat)
    requires IsLine(line)
    ensures ParseLine(line, lineno) == FromParts(Cut(line).0, Cut(line).1, Cut(line).2, lineno)
  {
    StripFixed(line);
  }

  lemma FirstBeyond(a: string, b: string, c: char)
    requires c !in a
    ensures Find(a + b, c) == -1 || Find(a + b, c) >= |a|
  {
    FindFacts(a + b, c);
    assert forall i :: 0 <= i < |a| ==> (a + b)[i] == a[i];
  }

  lemma OpenFirst(name: string, c: char, d: char, rest: string)
    requires c !in name && d !in name && c != d
    ensures var line := name + ([c] + rest);
      && Find(line, c) == |name| && line[..|name|] == name && line[|name| + 1..] == rest
      && (Find(line, d) == -1 || Find(line, d) > |name|)
  {
    var line := name + ([c] + rest);
    assert line == name + [c] + rest && line[|name|] == c;
    FindAt(name, c, rest);
    FirstBeyond(name, [c] + rest, d);
    FindFacts(line, d);
  }

  lemma CutBraced(line: string, brace: nat, rest: string, close: int)
    requires Find(line, '{') == brace && (Find(line, ' ') == -1 || Find(line, ' ') > brace)
    requires line[brace + 1..] == rest && RFind(rest, '}') == close
    ensures Cut(line) == (Strip(line[..brace]), PyTake(rest, close), Strip(rest[close + 1..]))
  {
  }

  lemma ClosesAt(labels: string, value: string)
    requires '}' !in value
    ensures var rest := labels + "}" + value;
      RFind(rest, '}') == |labels| && PyTake(rest, |labels|) == labels && rest[|labels| + 1..] == value
  {
    RFindAt(labels, '}', value);
  }

  /** A line whose first brace comes before its first space: the labels reach to the last closing
      brace, and the value is what follows it. */
  lemma LabelledLine(name: string, labels: string, value: string, lineno: nat)
    requires '{' !in name && ' ' !in name && '}' !in value && IsLine(name + ("{" + (labels + "}" + value)))
    ensures ParseLine(name + ("{" + (labels + "}" + value)), lineno) == FromParts(Strip(name), labels, Strip(value), lineno)
  {
    var rest := labels + "}" + value;
    OpenFirst(name, '{', ' ', rest);
    ClosesAt(labels, value);
    CutBraced(name + ("{" + rest), |name|, rest, |labels|);
    LineIsCut(name + ("{" + rest), lineno);
  }

  /** A line whose first space comes before any brace: the name is what precedes it. */
  lemma PlainLine(name: string, value: string, lineno: nat)
    requires '{' !in name && ' ' !in name && IsLine(name + (" " + value))
    ensures ParseLine(name + (" " + value), lineno) == FromParts(Strip(name), "", Strip(value), lineno)
  {
    OpenFirst(name, ' ', '{', value);
    LineIsCut(name + (" " + value), lineno);
  }

  lemma CutNowhere(line: string)
    requires line != "" && Find(line, '{') == -1 && Find(line, ' ') == -1
    ensures Cut(line) == (Strip(line[..|line| - 1]), "", Strip(line))
  {
    assert line[0..] == line;
  }

  /** A line with neither: the source cuts at index -1, so the last character is dropped from the
      name and the whole line is the value. */
  lemma UncutLine(line: string, lineno: nat)
    requires '{' !in line && ' ' !in line && IsLine(line)
    ensures ParseLine(line, lineno) == FromParts(Strip(line[..|line| - 1]), "", line, lineno)
  {
    FindFacts(line, '{');
    FindFacts(line, ' ');
    CutNowhere(line);
    LineIsCut(line, lineno);
  }

  /** Likewise a brace that is never closed: the last character is dropped from the labels, and
      everything behind the brace is the value as well. */
  lemma UnclosedLine(name: string, rest: string, lineno: nat)
    requires '{' !in name && ' ' !in name && '}' !in rest && IsLine(name + ("{" + rest))
    ensures var labels := if rest == "" then "" else rest[..|rest| - 1];
      ParseLine(name + ("{" + rest), lineno) == FromParts(Strip(name), labels, Strip(rest), lineno)
  {
    OpenFirst(name, '{', ' ', rest);
    RFindNone(rest, '}');
    CutBraced(name + ("{" + rest), |name|, rest, -1);
    assert rest[0..] == rest;
    LineIsCut(name + ("{" + rest), lineno);
  }

  lemma {:induction false} RFindNone(s: string, c: char)
    requires c !in s
    ensures RFind(s, c) == -1
  {
    if s != "" { RFindNone(s[..|s| - 1], c); }
  }

  /** So a line of at least two digits and nothing else is taken for a sample: it is named like the
      number without its last digit, and its value is the number. */
  lemma NumberIsASample(line: string, lineno: nat)
    requires Digits(line) && |line| > 1
    ensures ParseLine(line, lineno) == Ok(Some(Sample(line[..|line| - 1], [], NatOf(line))))
  {
    var name := line[..|line| - 1];
    assert '{' !in line && ' ' !in line;
    StripFixed(line);
    StripFixed(name);
    StripFacts("");
    IntOfDigits(line);
    UncutLine(line, lineno);
  }

  // ----- parsing: the labels ------------------------------------------------

  /** The pieces between the commas are read in order, and the first that is refused refuses all. */
  /** A blank piece is passed over; one without '=' is malformed. */
  lemma OddPiece(piece: string, lineno: nat)
    ensures Blank(piece) ==> ParsePart(piece, lineno) == Ok(None)
    ensures !Blank(piece) && '=' !in piece ==> ParsePart(piece, lineno) == Err(MalformedLabel(lineno))
  {
    StripFacts(piece);
    FindFacts(Strip(piece), '=');
  }

  function Between(quoted: string): string
    requires quoted != ""
  {
    if |quoted| == 1 then "" else quoted[1..|quoted| - 1]
  }

  /** A piece is cut at its first '=', white space around key and value does not count, and the
      value must start and end with a quote; what is between is unescaped. */
  lemma PairPiece(left: string, key: string, value: string, right: string, lineno: nat)
    requires Blank(left) && Blank(right) && '=' !in key && '=' !in left
    requires Trimmed(key + "=" + value)
    ensures ParsePart(left + (key + "=" + value) + right, lineno) ==
      if Strip(value) != "" && Strip(value)[0] == '"' && Strip(value)[|Strip(value)| - 1] == '"'
      then Ok(Some((Strip(key), Unescape(Between(Strip(value))))))
      else Err(NotQuoted(lineno))
  {
    var p := key + "=" + value;
    StripPadded(left, p, right);
    FindAt(key, '=', value);
    assert p[..|key|] == key && p[|key| + 1..] == value;
  }

  /** The labels of a text: none if it is blank, else those of its pieces, sorted by key and then by
      value. */
  lemma LabelsAre(text: string, lineno: nat)
    ensures Blank(text) ==> ParseLabelsOf(text, lineno) == Ok([])
    ensures !Blank(text) ==> match ParseParts(Split(text, ','), lineno)
      case Err(e) => ParseLabelsOf(text, lineno) == Err(e)
      case Ok(labels) =>
        && ParseLabelsOf(text, lineno).Ok? && multiset(ParseLabelsOf(text, lineno).value) == multiset(labels)
        && Ascending(ParseLabelsOf(text, lineno).value)
  {
    StripFacts(text);
    var r := ParseParts(Split(text, ','), lineno);
    if r.Ok? { SortedAscends(r.value); }
  }

  predicate Ascending(labels: seq<Label>)
  {
    forall i, j :: 0 <= i < j < |labels| ==> LabelBefore(labels[i], labels[j])
  }

  predicate LabelBefore(a: Label, b: Label) { (a.0 != b.0 && StrLe(a.0, b.0)) || (a.0 == b.0 && StrLe(a.1, b.1)) }

  lemma SortedAscends(labels: seq<Label>)
    ensures Ascending(SortBy(LabelLe, labels))
  {
    RoundTrip.SortedLabelsSorted(labels);
  }

  // ----- unescaping and numerals --------------------------------------------

  /** A backslash takes the next character with it: the letter n is a line feed, every other
      character is itself; a last backslash and all else stay. */
  lemma UnescapeIs(c: char, rest: string)
    ensures Unescape(['\\', c] + rest) == [if c == 'n' then '\n' else c] + Unescape(rest)
    ensures c != '\\' ==> Unescape([c] + rest) == [c] + Unescape(rest)
    ensures Unescape("\\") == "\\" && Unescape("") == ""
  {
    assert (['\\', c] + rest)[2..] == rest && ([c] + rest)[1..] == rest;
  }

  predicate Digits(s: string) { s != "" && forall i :: 0 <= i < |s| ==> '0' <= s[i] <= '9' }

  /** The numerals that count: digits, with a sign before them or none. */
  lemma NumeralsAre(t: string)
    ensures IntOf(t).Some? <==> Digits(t) || (t != "" && (t[0] == '-' || t[0] == '+') && Digits(t[1..]))
  {
    DigitsAre(t);
    if t != "" { DigitsAre(t[1..]); }
  }

  lemma DigitsAre(t: string)
    ensures Digits(t) <==> t != "" && !exists c :: c in t && !IsDigit(c)
  {
    assert Digits(t) ==> forall i :: 0 <= i < |t| ==> IsDigit(t[i]);
    assert (forall c :: c in t ==> IsDigit(c)) ==> forall i :: 0 <= i < |t| ==> IsDigit(t[i]);
  }

  lemma NumeralsCount(t: string)
    requires Digits(t)
    ensures IntOf(t) == Some(NatOf(t)) && IntOf("-" + t) == Some(0 - NatOf(t)) && IntOf("+" + t) == Some(NatOf(t) as int)
  {
    IntOfDigits(t);
    assert ("+" + t)[1..] == t;
  }

  lemma DigitCounts(t: string, d: nat)
    requires (forall c :: c in t ==> IsDigit(c)) && d < 10
    ensures IsDigit("0123456789"[d]) && NatOf(t + ["0123456789"[d]]) == 10 * NatOf(t) + d
    ensures NatOf("") == 0
  {
    var c := "0123456789"[d];
    assert (t + [c])[..|t|] == t;
  }
}
