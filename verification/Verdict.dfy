/** The gate verdict normalizer (src/fleet_graph/bus/board.py) and the grammar it accepts. */
module Verdict {
  import opened Text

  datatype Form = Bare | Quote | InlineCode | FencedCode | Label

  datatype Normalized = Normalized(verdict: string, raw: string, form: Form)

  /** A decision field as it comes off the bus. */
  datatype Field = Str(text: string) | NotStr

  predicate IsAsciiWs(c: char) { c == ' ' || c == '\t' || c == '\r' || c == '\n' }

  function AsciiTrim(s: string): string { StripBy(IsAsciiWs, s) }

  function UpperChar(c: char): char { if 'a' <= c <= 'z' then ((c as int) - 32) as char else c }

  function AsciiUpper(s: string): (r: string)
    ensures |r| == |s|
  {
    if s == "" then "" else [UpperChar(s[0])] + AsciiUpper(s[1..])
  }

  // ----- the wrapper removals -----------------------------------------------

  function QuoteLineContent(line: string): Option<string>
  {
    if line == "" || line[0] != '>' then None
    else if |line| > 1 && line[1] == '>' then None
    else
      var rest := line[1..];
      if rest != "" && rest[0] == ' ' then
        if |rest| > 1 && rest[1] == ' ' then None else Some(rest[1..])
      else Some(rest)
  }

  function BlankLine(line: string): bool { AsciiTrim(line) == "" }

  /** One line without its quote prefix; blank lines lose their white space. */
  function Unquoted(line: string): string
  {
    if BlankLine(line) then "" else match QuoteLineContent(line) case None => line case Some(c) => c
  }

  function UnquotedLines(lines: seq<string>): (r: seq<string>)
    ensures |r| == |lines|
  {
    if lines == [] then [] else UnquotedLines(lines[..|lines| - 1]) + [Unquoted(lines[|lines| - 1])]
  }

  predicate SeenQuote(lines: seq<string>)
  {
    exists i :: 0 <= i < |lines| && !BlankLine(lines[i]) && QuoteLineContent(lines[i]).Some?
  }

  predicate SeenPlain(lines: seq<string>)
  {
    exists i :: 0 <= i < |lines| && !BlankLine(lines[i]) && QuoteLineContent(lines[i]).None?
  }

  function StripQuoteOf(value: string): Option<string>
  {
    var lines := Split(value, '\n');
    if SeenQuote(lines) && SeenPlain(lines) then None
    else if !SeenQuote(lines) then Some(value)
    else Some(Join(UnquotedLines(lines), '\n'))
  }

  function StripInline(value: string): Option<string>
  {
    if !StartsWith(value, "`") || StartsWith(value, "``") then Some(value)
    else if !EndsWith(value, "`") || EndsWith(value, "``") then Some(value)
    else
      var interior := if |value| < 2 then "" else value[1..|value| - 1];
      if '`' in interior then None else Some(interior)
  }

  function StripFenced(value: string): Option<string>
  {
    if !(StartsWith(value, "```\n") && EndsWith(value, "\n```")) then Some(value)
    else
      var inner := if |value| < 8 then "" else value[4..|value| - 4];
      if inner == "" || '\n' in inner then None else Some(inner)
  }

  /** The label prefix of a value, white space behind it not counted: its length, or 0. */
  function LabelLength(value: string): nat
  {
    if |value| >= 9 && AsciiUpper(value[..9]) == "DECISION:" then 9
    else if |value| >= 8 && AsciiUpper(value[..8]) == "VERDICT:" then 8
    else 0
  }

  function StripLabelOf(value: string): string
  {
    var n := LabelLength(value);
    if 0 < n < |value| && IsAsciiWs(value[n]) then LStripBy(IsAsciiWs, value[n..]) else value
  }

  predicate IsVerdict(v: string) { v == "APPROVE" || v == "REJECT" }

  // ----- the normalizer -----------------------------------------------------

  /** The last two steps: the label, then the bare token. */
  function ReadToken(value: string, raw: string, form: Form): Option<Normalized>
  {
    var labelless := StripLabelOf(value);
    var rest, f := if labelless != value then AsciiTrim(labelless) else value, if labelless != value then Label else form;
    var verdict := AsciiUpper(AsciiTrim(rest));
    if IsVerdict(verdict) then Some(Normalized(verdict, raw, f)) else None
  }

  /** The code shell, then the rest. */
  function ReadCode(value: string, raw: string, form: Form): Option<Normalized>
  {
    match StripInline(value)
    case None => None
    case Some(inlined) =>
      if inlined != value then ReadToken(AsciiTrim(inlined), raw, InlineCode)
      else
        match StripFenced(value)
        case None => None
        case Some(fenced) =>
          if fenced != value then ReadToken(AsciiTrim(fenced), raw, FencedCode) else ReadToken(value, raw, form)
  }

  function Normalize(field: Field): Option<Normalized>
  {
    match field
    case NotStr => None
    case Str(raw) =>
      var value := AsciiTrim(raw);
      if value == "" then None
      else
        match StripQuoteOf(value)
        case None => None
        case Some(quoted) =>
          if quoted != value then ReadCode(AsciiTrim(quoted), raw, Quote) else ReadCode(value, raw, Bare)
  }

  method StripMarkdownQuote(value: string) returns (r: Option<string>)
    ensures r == StripQuoteOf(value)
  {
    var lines := Split(value, '\n');
    var out, seenQuote, seenPlain := ScanLines(lines);
    if seenQuote && seenPlain { return None; }
    if !seenQuote { return Some(value); }
    r := Some(Join(out, '\n'));
  }

  lemma SeenSnoc(front: seq<string>, line: string)
    ensures SeenQuote(front + [line]) <==> SeenQuote(front) || (!BlankLine(line) && QuoteLineContent(line).Some?)
    ensures SeenPlain(front + [line]) <==> SeenPlain(front) || (!BlankLine(line) && QuoteLineContent(line).None?)
  {
    var lines := front + [line];
    assert lines[|front|] == line && forall i :: 0 <= i < |front| ==> lines[i] == front[i];
  }

  method ScanLines(lines: seq<string>) returns (out: seq<string>, seenQuote: bool, seenPlain: bool)
    ensures out == UnquotedLines(lines) && seenQuote == SeenQuote(lines) && seenPlain == SeenPlain(lines)
  {
    out, seenQuote, seenPlain := [], false, false;
    for i := 0 to |lines|
      invariant out == UnquotedLines(lines[..i]) && seenQuote == SeenQuote(lines[..i]) && seenPlain == SeenPlain(lines[..i])
    {
      assert lines[..i + 1][..i] == lines[..i] && lines[..i + 1] == lines[..i] + [lines[i]];
      SeenSnoc(lines[..i], lines[i]);
      var line := lines[i];
      if BlankLine(line) {
        out := out + [""];
        continue;
      }
      var content := QuoteLineContent(line);
      if content.None? {
        seenPlain := true;
        out := out + [line];
      } else {
        seenQuote := true;
        out := out + [content.value];
      }
    }
    assert lines[..|lines|] == lines;
  }

  method NormalizeDecision(field: Field) returns (r: Option<Normalized>)
    ensures r == Normalize(field)
  {
    if field.NotStr? { return None; }
    var value := AsciiTrim(field.text);
    if value == "" { return None; }
    var form := Bare;
    var quoted := StripMarkdownQuote(value);
    if quoted.None? { return None; }
    if quoted.value != value {
      form := Quote;
      value := AsciiTrim(quoted.value);
    }
    var inlined := StripInline(value);
    if inlined.None? { return None; }
    if inlined.value != value {
      form := InlineCode;
      value := AsciiTrim(inlined.value);
    } else {
      var fenced := StripFenced(value);
      if fenced.None? { return None; }
      if fenced.value != value {
        form := FencedCode;
        value := AsciiTrim(fenced.value);
      }
    }
    var labelless := StripLabelOf(value);
    if labelless != value {
      form := Label;
      value := AsciiTrim(labelless);
    }
    var verdict := AsciiUpper(AsciiTrim(value));
    if !IsVerdict(verdict) { return None; }
    r := Some(Normalized(verdict, field.text, form));
  }

  // ----- the grammar --------------------------------------------------------

  // The grammar is spelled out in literals of its own and shares no function with the normalizer.

  const CAPITALS := "ABCDEFGHIJKLMNOPQRSTUVWXYZ"
  const SMALL := "abcdefghijklmnopqrstuvwxyz"

  /** The word's own character, or the small letter of the same place in the alphabet. */
  predicate Spells(c: char, w: char)
  {
    c == w || exists k :: 0 <= k < |CAPITALS| && k < |SMALL| && CAPITALS[k] == w && SMALL[k] == c
  }

  predicate Spelled(t: string, word: string) { |t| == |word| && forall i :: 0 <= i < |t| ==> Spells(t[i], word[i]) }

  /** Blank, tab, carriage return and line feed, by code. */
  predicate Space(c: char) { var n := c as int; n == 32 || n == 9 || n == 13 || n == 10 }

  predicate Blank(s: string) { forall c :: c in s ==> Space(c) }

  /** core with ASCII padding around it */
  ghost predicate Padded(s: string, core: string)
  {
    && core != "" && !Space(core[0]) && !Space(core[|core| - 1])
    && exists left, right :: Blank(left) && Blank(right) && s == left + core + right
  }

  predicate Token(v: string, t: string) { (v == "APPROVE" || v == "REJECT") && Spelled(t, v) }

  predicate IsLabel(l: string) { Spelled(l, "DECISION:") || Spelled(l, "VERDICT:") }

  /** The token, under at most one label. */
  ghost predicate Labelled(v: string, outer: Form, form: Form, core: string)
  {
    || (Token(v, core) && form == outer)
    || (form == Label && exists l, gap, t ::
          IsLabel(l) && gap != "" && Blank(gap) && Token(v, t) && core == l + gap + t)
  }

  ghost predicate PaddedLabelled(v: string, outer: Form, form: Form, s: string)
  {
    exists core :: Padded(s, core) && Labelled(v, outer, form, core)
  }

  /** ... inside at most one inline or fenced code shell. */
  ghost predicate Coded(v: string, outer: Form, form: Form, core: string)
  {
    || Labelled(v, outer, form, core)
    || (exists i :: core == "`" + i + "`" && '`' !in i && PaddedLabelled(v, InlineCode, form, i))
    || (exists i :: core == "```\n" + i + "\n```" && '\n' !in i && PaddedLabelled(v, FencedCode, form, i))
  }

  /** One quote prefix: ">" and at most one space, neither doubled. */
  predicate QuoteLine(line: string, content: string)
  {
    || (line == ">" + content && (content == "" || (content[0] != ' ' && content[0] != '>')))
    || (line == "> " + content && (content == "" || content[0] != ' '))
  }

  predicate QuoteLines(lines: seq<string>, contents: seq<string>)
  {
    && |lines| == |contents|
    && (forall i :: 0 <= i < |lines| ==> (Blank(lines[i]) && contents[i] == "") || QuoteLine(lines[i], contents[i]))
    && exists i :: 0 <= i < |lines| && QuoteLine(lines[i], contents[i])
  }

  /** A whole text quoted once, blank lines free. */
  ghost predicate QuoteOf(s: string, inner: string)
  {
    exists lines, contents :: (forall l :: l in lines ==> '\n' !in l)
      && s == Join(lines, '\n') && inner == Join(contents, '\n') && QuoteLines(lines, contents)
  }

  /** ... inside at most one full Markdown quote, with ASCII padding at every layer. */
  ghost predicate Accepts(v: string, form: Form, s: string)
  {
    exists core :: Padded(s, core) &&
      (|| Coded(v, Bare, form, core)
       || exists inner, c :: QuoteOf(core, inner) && Padded(inner, c) && Coded(v, Quote, form, c))
  }

  // ----- padding ------------------------------------------------------------

  lemma PaddedIsTrim(s: string, core: string)
    ensures Padded(s, core) <==> core != "" && core == AsciiTrim(s)
  {
    if Padded(s, core) {
      var left, right :| Blank(left) && Blank(right) && s == left + core + right;
      StripByPadded(IsAsciiWs, left, core, right);
    }
    if core != "" && core == AsciiTrim(s) {
      var left, right := StripBySplits(IsAsciiWs, s);
      StripByEnds(IsAsciiWs, s);
      assert Blank(left) && Blank(right);
    }
  }

  lemma TrimCore(core: string)
    requires core != "" && !IsAsciiWs(core[0]) && !IsAsciiWs(core[|core| - 1])
    ensures AsciiTrim(core) == core
  {
  }

  lemma BlankIsTrimmedAway(s: string)
    ensures Blank(s) <==> BlankLine(s)
  {
    if Blank(s) { AllBlank(IsAsciiWs, s); }
    var left, right := StripBySplits(IsAsciiWs, s);
  }

  // ----- tokens and labels --------------------------------------------------

  lemma {:induction false} UpperAt(s: string, i: nat)
    requires i < |s|
    ensures AsciiUpper(s)[i] == UpperChar(s[i])
  {
    if i > 0 { UpperAt(s[1..], i - 1); }
  }

  lemma Alphabets(k: nat)
    requires k < 26
    ensures |CAPITALS| == |SMALL| == 26
    ensures CAPITALS[k] as int == 'A' as int + k && SMALL[k] as int == 'a' as int + k
  {
  }

  /** A word without small letters is spelled by what upper-cases to it. */
  lemma SpellsIsUpper(c: char, w: char)
    requires !('a' <= w <= 'z')
    ensures Spells(c, w) <==> UpperChar(c) == w
  {
    UpperSpells(c);
    if Spells(c, w) && c != w {
      var k :| 0 <= k < |CAPITALS| && k < |SMALL| && CAPITALS[k] == w && SMALL[k] == c;
      Alphabets(k);
    }
  }

  lemma UpperSpells(c: char)
    ensures Spells(c, UpperChar(c))
  {
    if 'a' <= c <= 'z' {
      var k := c as int - 'a' as int;
      Alphabets(k);
      assert CAPITALS[k] == UpperChar(c) && SMALL[k] == c;
    }
  }

  lemma SpelledIsUpper(t: string, word: string)
    requires forall i :: 0 <= i < |word| ==> !('a' <= word[i] <= 'z')
    ensures Spelled(t, word) <==> AsciiUpper(t) == word
  {
    if |t| == |word| {
      forall i | 0 <= i < |t| ensures AsciiUpper(t)[i] == word[i] <==> Spells(t[i], word[i]) {
        UpperAt(t, i);
        SpellsIsUpper(t[i], word[i]);
      }
    }
  }

  lemma TokenIsUpper(v: string, t: string)
    ensures Token(v, t) <==> IsVerdict(v) && AsciiUpper(t) == v
  {
    if IsVerdict(v) { SpelledIsUpper(t, v); }
  }

  lemma LabelIsUpper(l: string)
    ensures IsLabel(l) <==> AsciiUpper(l) == "DECISION:" || AsciiUpper(l) == "VERDICT:"
  {
    SpelledIsUpper(l, "DECISION:");
    SpelledIsUpper(l, "VERDICT:");
  }

  /** Every character of a token or a label is a letter or the colon. */
  predicate WordChar(c: char) { 'A' <= UpperChar(c) <= 'Z' || c == ':' }

  lemma TokenChars(v: string, t: string)
    requires Token(v, t)
    ensures (|t| == 7 || |t| == 6) && (forall c :: c in t ==> WordChar(c) && c != ':')
  {
    TokenIsUpper(v, t);
    forall i | 0 <= i < |t| ensures WordChar(t[i]) && t[i] != ':' { UpperAt(t, i); }
  }

  lemma LabelChars(l: string)
    requires IsLabel(l)
    ensures (|l| == 9 || |l| == 8) && (forall c :: c in l ==> WordChar(c))
  {
    LabelIsUpper(l);
    forall i | 0 <= i < |l| ensures WordChar(l[i]) { UpperAt(l, i); }
  }

  predicate Trimmed(value: string)
  {
    value != "" ==> !IsAsciiWs(value[0]) && !IsAsciiWs(value[|value| - 1])
  }

  lemma LabelIsFound(l: string, gap: string, t: string)
    requires IsLabel(l) && gap != "" && Blank(gap) && t != "" && !IsAsciiWs(t[0])
    ensures StripLabelOf(l + gap + t) == t && |t| < |l + gap + t|
  {
    var value := l + gap + t;
    LabelChars(l);
    LabelIsUpper(l);
    assert value[|l|] == gap[0] && gap[0] in gap;
    assert value[..|l|] == l && value[|l|..] == gap + t;
    if |l| == 8 {
      assert AsciiUpper(l)[7] == ':' && l[7] == value[..9][7];
      UpperAt(value[..9], 7);
      UpperAt(l, 7);
    }
    assert LabelLength(value) == |l|;
    LStripPadded(IsAsciiWs, gap, t);
  }

  lemma LabelIsReal(value: string) returns (l: string, gap: string)
    requires Trimmed(value) && StripLabelOf(value) != value
    ensures IsLabel(l) && gap != "" && Blank(gap) && value == l + gap + StripLabelOf(value)
    ensures Trimmed(StripLabelOf(value))
  {
    var n := LabelLength(value);
    var tail := value[n..];
    l := value[..n];
    gap := LStripSplits(IsAsciiWs, tail);
    LabelIsUpper(l);
    LabelTail(value, tail, gap);
    assert value == l + tail;
    assert l + (gap + StripLabelOf(value)) == l + gap + StripLabelOf(value);
  }

  lemma LabelTail(value: string, tail: string, gap: string)
    requires Trimmed(value) && tail != "" && IsAsciiWs(tail[0]) && |tail| <= |value| && tail == value[|value| - |tail|..]
    requires tail == gap + LStripBy(IsAsciiWs, tail)
    ensures gap != "" && Trimmed(LStripBy(IsAsciiWs, tail))
  {
    LStripFacts(IsAsciiWs, tail);
    var t := LStripBy(IsAsciiWs, tail);
    if t != "" { assert t[|t| - 1] == tail[|tail| - 1] == value[|value| - 1]; }
  }

  /** Reading the token is reading the Labelled form. */
  lemma ReadTokenSound(value: string, raw: string, outer: Form, r: Normalized)
    requires Trimmed(value) && ReadToken(value, raw, outer) == Some(r)
    ensures r.raw == raw && value != "" && Labelled(r.verdict, outer, r.form, value)
  {
    var labelless := StripLabelOf(value);
    if labelless == value {
      if value != "" { TrimCore(value); }
      TokenIsUpper(r.verdict, value);
    } else {
      var l, gap := LabelIsReal(value);
      if labelless != "" { TrimCore(labelless); }
      TokenIsUpper(r.verdict, labelless);
      assert Token(r.verdict, labelless);
    }
  }

  lemma ReadTokenComplete(value: string, raw: string, outer: Form, v: string, form: Form)
    requires Trimmed(value) && Labelled(v, outer, form, value)
    ensures ReadToken(value, raw, outer) == Some(Normalized(v, raw, form))
  {
    if Token(v, value) && form == outer {
      TokenChars(v, value);
      TokenIsUpper(v, value);
      TrimCore(value);
    } else {
      var l, gap, t :| IsLabel(l) && gap != "" && Blank(gap) && Token(v, t) && value == l + gap + t;
      TokenChars(v, t);
      TokenIsUpper(v, t);
      assert t[0] in t && t[|t| - 1] in t;
      LabelIsFound(l, gap, t);
      TrimCore(t);
    }
  }

  lemma LabelledChars(v: string, outer: Form, form: Form, core: string)
    requires Labelled(v, outer, form, core)
    ensures core != "" && WordChar(core[0])
    ensures forall c :: c in core ==> WordChar(c) || IsAsciiWs(c)
  {
    if Token(v, core) && form == outer {
      TokenChars(v, core);
      assert core[0] in core;
    } else {
      var l, gap, t :| IsLabel(l) && gap != "" && Blank(gap) && Token(v, t) && core == l + gap + t;
      TokenChars(v, t);
      LabelChars(l);
      assert core[0] == l[0] && l[0] in l;
    }
  }

  lemma PaddedLabelledChars(v: string, outer: Form, form: Form, s: string)
    requires PaddedLabelled(v, outer, form, s)
    ensures s != "" && forall c :: c in s ==> WordChar(c) || IsAsciiWs(c)
  {
    var core :| Padded(s, core) && Labelled(v, outer, form, core);
    var left, right :| Blank(left) && Blank(right) && s == left + core + right;
    LabelledChars(v, outer, form, core);
  }

  // ----- code shells --------------------------------------------------------

  lemma TrimIsTrimmed(s: string)
    ensures Trimmed(AsciiTrim(s))
  {
    StripByEnds(IsAsciiWs, s);
  }

  lemma InlineShell(i: string)
    requires '`' !in i && i != ""
    ensures StripInline("`" + i + "`") == Some(i)
  {
    var value := "`" + i + "`";
    assert value[1] == i[0] && value[|value| - 2] == i[|i| - 1];
    assert i[0] in i && i[|i| - 1] in i;
    assert value[1..|value| - 1] == i;
  }

  lemma FencedShell(i: string)
    requires '\n' !in i && i != ""
    ensures var value := "```\n" + i + "\n```";
      StripInline(value) == Some(value) && StripFenced(value) == Some(i)
  {
    var value := "```\n" + i + "\n```";
    assert value[..2] == "``" && value[..4] == "```\n" && value[|value| - 4..] == "\n```";
    assert value[4..|value| - 4] == i;
  }

  lemma NoShell(value: string)
    requires value == "" || value[0] != '`'
    ensures StripInline(value) == Some(value) && StripFenced(value) == Some(value)
  {
  }

  lemma InlineIsReal(value: string, i: string)
    requires StripInline(value) == Some(i) && i != value && i != ""
    ensures value == "`" + i + "`" && '`' !in i
  {
  }

  lemma FencedIsReal(value: string, i: string)
    requires StripFenced(value) == Some(i) && i != value
    ensures value == "```\n" + i + "\n```" && '\n' !in i && i != ""
  {
    assert value[..4] == "```\n" && value[|value| - 4..] == "\n```";
    assert value == value[..4] + value[4..|value| - 4] + value[|value| - 4..];
  }

  lemma ReadInner(i: string, raw: string, outer: Form, r: Normalized)
    ensures ReadToken(AsciiTrim(i), raw, outer) == Some(r)
            <==> r.raw == raw && PaddedLabelled(r.verdict, outer, r.form, i)
  {
    TrimIsTrimmed(i);
    var value := AsciiTrim(i);
    PaddedIsTrim(i, value);
    if ReadToken(value, raw, outer) == Some(r) { ReadTokenSound(value, raw, outer, r); }
    if r.raw == raw && PaddedLabelled(r.verdict, outer, r.form, i) {
      var core :| Padded(i, core) && Labelled(r.verdict, outer, r.form, core);
      PaddedIsTrim(i, core);
      ReadTokenComplete(value, raw, outer, r.verdict, r.form);
    }
  }

  lemma ReadCodeSound(value: string, raw: string, outer: Form, r: Normalized)
    requires Trimmed(value) && ReadCode(value, raw, outer) == Some(r)
    ensures r.raw == raw && value != "" && Coded(r.verdict, outer, r.form, value)
  {
    var i := StripInline(value).value;
    if i != value {
      ReadInner(i, raw, InlineCode, r);
      PaddedLabelledChars(r.verdict, InlineCode, r.form, i);
      InlineIsReal(value, i);
    } else {
      var f := StripFenced(value).value;
      if f != value {
        ReadInner(f, raw, FencedCode, r);
        FencedIsReal(value, f);
      } else {
        ReadTokenSound(value, raw, outer, r);
      }
    }
  }

  lemma ReadCodeComplete(value: string, raw: string, outer: Form, v: string, form: Form)
    requires Trimmed(value) && Coded(v, outer, form, value)
    ensures ReadCode(value, raw, outer) == Some(Normalized(v, raw, form))
  {
    if Labelled(v, outer, form, value) {
      LabelledChars(v, outer, form, value);
      NoShell(value);
      ReadTokenComplete(value, raw, outer, v, form);
    } else if i :| value == "`" + i + "`" && '`' !in i && PaddedLabelled(v, InlineCode, form, i) {
      PaddedLabelledChars(v, InlineCode, form, i);
      InlineShell(i);
      ReadInner(i, raw, InlineCode, Normalized(v, raw, form));
    } else {
      var i :| value == "```\n" + i + "\n```" && '\n' !in i && PaddedLabelled(v, FencedCode, form, i);
      PaddedLabelledChars(v, FencedCode, form, i);
      FencedShell(i);
      ReadInner(i, raw, FencedCode, Normalized(v, raw, form));
    }
  }

  lemma LabelledNoQuote(v: string, outer: Form, form: Form, core: string)
    requires Labelled(v, outer, form, core)
    ensures '>' !in core
  {
    LabelledChars(v, outer, form, core);
  }

  lemma CodedChars(v: string, outer: Form, form: Form, core: string)
    requires Coded(v, outer, form, core)
    ensures '>' !in core
  {
    if Labelled(v, outer, form, core) {
      LabelledNoQuote(v, outer, form, core);
    } else if i :| core == "`" + i + "`" && '`' !in i && PaddedLabelled(v, InlineCode, form, i) {
      PaddedLabelledNoQuote(v, InlineCode, form, i);
      ShellChars("`", i, "`");
    } else {
      var i :| core == "```\n" + i + "\n```" && '\n' !in i && PaddedLabelled(v, FencedCode, form, i);
      PaddedLabelledNoQuote(v, FencedCode, form, i);
      ShellChars("```\n", i, "\n```");
    }
  }

  lemma PaddedLabelledNoQuote(v: string, outer: Form, form: Form, s: string)
    requires PaddedLabelled(v, outer, form, s)
    ensures '>' !in s
  {
    PaddedLabelledChars(v, outer, form, s);
  }

  lemma ShellChars(left: string, inner: string, right: string)
    requires '>' !in left && '>' !in inner && '>' !in right
    ensures '>' !in left + inner + right
  {
  }

  // ----- quoting ------------------------------------------------------------

  lemma QuoteLineExact(line: string, content: string)
    ensures QuoteLine(line, content) <==> QuoteLineContent(line) == Some(content)
    ensures QuoteLine(line, content) ==> !Blank(line) && !BlankLine(line) && |content| < |line|
  {
    if QuoteLine(line, content) {
      assert line[0] == '>' && line[0] in line;
      assert line[1..] == content || (line[1] == ' ' && line[2..] == content && line[1..][1..] == content);
      BlankIsTrimmedAway(line);
    }
    if QuoteLineContent(line) == Some(content) {
      assert line == ">" + line[1..];
      if |line| > 1 && line[1] == ' ' { assert line == "> " + line[2..] && line[1..][1..] == line[2..]; }
    }
  }

  lemma {:induction false} UnquotedAt(lines: seq<string>)
    ensures forall i :: 0 <= i < |lines| ==> UnquotedLines(lines)[i] == Unquoted(lines[i])
  {
    if lines != [] { UnquotedAt(lines[..|lines| - 1]); }
  }

  /** The lines the code takes for a quote are the lines the grammar does. */
  lemma QuoteLinesExact(lines: seq<string>, contents: seq<string>)
    ensures QuoteLines(lines, contents) <==> SeenQuote(lines) && !SeenPlain(lines) && contents == UnquotedLines(lines)
  {
    UnquotedAt(lines);
    if QuoteLines(lines, contents) {
      forall i | 0 <= i < |lines|
        ensures contents[i] == Unquoted(lines[i]) && (BlankLine(lines[i]) || QuoteLineContent(lines[i]).Some?) {
        QuoteLineExact(lines[i], contents[i]);
        BlankIsTrimmedAway(lines[i]);
      }
      var i :| 0 <= i < |lines| && QuoteLine(lines[i], contents[i]);
      QuoteLineExact(lines[i], contents[i]);
    }
    if SeenQuote(lines) && !SeenPlain(lines) && contents == UnquotedLines(lines) {
      forall i | 0 <= i < |lines|
        ensures (Blank(lines[i]) && contents[i] == "") || QuoteLine(lines[i], contents[i]) {
        QuoteLineExact(lines[i], contents[i]);
        BlankIsTrimmedAway(lines[i]);
      }
      var i :| 0 <= i < |lines| && !BlankLine(lines[i]) && QuoteLineContent(lines[i]).Some?;
      QuoteLineExact(lines[i], contents[i]);
    }
  }

  lemma {:induction false} ShorterJoin(lines: seq<string>, contents: seq<string>)
    requires |lines| == |contents| && forall i :: 0 <= i < |lines| ==> |contents[i]| <= |lines[i]|
    ensures |Join(contents, '\n')| <= |Join(lines, '\n')|
    ensures (exists i :: 0 <= i < |lines| && |contents[i]| < |lines[i]|) ==> |Join(contents, '\n')| < |Join(lines, '\n')|
  {
    if |lines| > 1 { ShorterJoin(lines[1..], contents[1..]); }
  }

  /** Removing a quote always shortens the text. */
  lemma QuoteShortens(s: string, inner: string)
    requires QuoteOf(s, inner)
    ensures |inner| < |s|
  {
    var lines, contents :| (forall l :: l in lines ==> '\n' !in l)
      && s == Join(lines, '\n') && inner == Join(contents, '\n') && QuoteLines(lines, contents);
    forall i | 0 <= i < |lines| ensures |contents[i]| <= |lines[i]| { QuoteLineExact(lines[i], contents[i]); }
    var i :| 0 <= i < |lines| && QuoteLine(lines[i], contents[i]);
    QuoteLineExact(lines[i], contents[i]);
    ShorterJoin(lines, contents);
  }

  lemma StripQuoteExact(value: string, inner: string)
    ensures QuoteOf(value, inner) <==> StripQuoteOf(value) == Some(inner) && SeenQuote(Split(value, '\n'))
  {
    var lines := Split(value, '\n');
    SplitPieces(value, '\n');
    JoinSplit(value, '\n');
    if QuoteOf(value, inner) {
      var ls, contents :| (forall l :: l in ls ==> '\n' !in l)
        && value == Join(ls, '\n') && inner == Join(contents, '\n') && QuoteLines(ls, contents);
      SplitJoin(ls, '\n');
      QuoteLinesExact(ls, contents);
    }
    if StripQuoteOf(value) == Some(inner) && SeenQuote(lines) {
      QuoteLinesExact(lines, UnquotedLines(lines));
    }
  }

  lemma NoQuoteSign(value: string)
    requires '>' !in value
    ensures StripQuoteOf(value) == Some(value) && !SeenQuote(Split(value, '\n'))
  {
    SplitPieces(value, '\n');
    var lines := Split(value, '\n');
    forall i | 0 <= i < |lines| ensures QuoteLineContent(lines[i]).None? {
      assert lines[i] in lines;
      assert lines[i] != "" ==> lines[i][0] in lines[i];
    }
  }

  // ----- the whole field ----------------------------------------------------

  /** The normalizer accepts exactly the grammar, with the verdict, the raw field and the form of
      the innermost wrapper removed. */
  lemma NormalizeExact(s: string, r: Normalized)
    ensures Normalize(Str(s)) == Some(r) <==> r.raw == s && Accepts(r.verdict, r.form, s)
  {
    if Normalize(Str(s)) == Some(r) { NormalizeSound(s, r); }
    if r.raw == s && Accepts(r.verdict, r.form, s) { NormalizeComplete(s, r.verdict, r.form); }
  }

  lemma NormalizeSound(s: string, r: Normalized)
    requires Normalize(Str(s)) == Some(r)
    ensures r.raw == s && Accepts(r.verdict, r.form, s)
  {
    var value := AsciiTrim(s);
    TrimIsTrimmed(s);
    PaddedIsTrim(s, value);
    var quoted := StripQuoteOf(value).value;
    if quoted != value {
      StripQuoteExact(value, quoted);
      TrimIsTrimmed(quoted);
      ReadCodeSound(AsciiTrim(quoted), s, Quote, r);
      PaddedIsTrim(quoted, AsciiTrim(quoted));
    } else {
      ReadCodeSound(value, s, Bare, r);
    }
  }

  lemma NormalizeComplete(s: string, v: string, form: Form)
    requires Accepts(v, form, s)
    ensures Normalize(Str(s)) == Some(Normalized(v, s, form))
  {
    var core :| Padded(s, core) &&
      (Coded(v, Bare, form, core)
       || exists inner, c :: QuoteOf(core, inner) && Padded(inner, c) && Coded(v, Quote, form, c));
    PaddedIsTrim(s, core);
    TrimIsTrimmed(s);
    if Coded(v, Bare, form, core) {
      CodedChars(v, Bare, form, core);
      NoQuoteSign(core);
      ReadCodeComplete(core, s, Bare, v, form);
    } else {
      var inner, c :| QuoteOf(core, inner) && Padded(inner, c) && Coded(v, Quote, form, c);
      StripQuoteExact(core, inner);
      QuoteShortens(core, inner);
      PaddedIsTrim(inner, c);
      TrimIsTrimmed(inner);
      ReadCodeComplete(c, s, Quote, v, form);
    }
  }

  /** The two upper-case tokens, and no other text, are their own bare normal form. */
  lemma VerdictIsNormal(v: string)
    ensures Normalize(Str(v)) == Some(Normalized(v, v, Bare)) <==> IsVerdict(v)
  {
    if IsVerdict(v) { TokenIsNormal(v); }
    if Normalize(Str(v)) == Some(Normalized(v, v, Bare)) { VerdictOfNormal(v, Normalized(v, v, Bare)); }
  }

  lemma TokenIsNormal(v: string)
    requires IsVerdict(v)
    ensures Normalize(Str(v)) == Some(Normalized(v, v, Bare))
  {
    assert AsciiUpper("APPROVE") == "APPROVE" && AsciiUpper("REJECT") == "REJECT";
    assert v == "" + v + "" && Blank("");
    assert Padded(v, v) && Labelled(v, Bare, Bare, v);
    NormalizeComplete(v, v, Bare);
  }

  /** A canonical verdict is its own normal form, in bare form. */
  lemma NormalizeAgain(s: string)
    ensures Normalize(Str(s)).Some? ==>
              var v := Normalize(Str(s)).value.verdict;
              IsVerdict(v) && Normalize(Str(v)) == Some(Normalized(v, v, Bare))
  {
    var r := Normalize(Str(s));
    if r.Some? {
      VerdictOfNormal(s, r.value);
      VerdictIsNormal(r.value.verdict);
    }
  }

  /** Whatever the text, its verdict is one of the two tokens. */
  lemma VerdictOfNormal(s: string, r: Normalized)
    requires Normalize(Str(s)) == Some(r)
    ensures IsVerdict(r.verdict)
  {
  }
}
