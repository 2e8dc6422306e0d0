/** Python's str operations, as far as the modelled files use them. Strings are sequences of
    code points. */
module Text {

  datatype Option<+T> = None | Some(value: T)

  datatype Result<+T, +E> = Ok(value: T) | Err(error: E)

  lemma Regrouped<T>(a: seq<T>, b: seq<T>, c: seq<T>)
    ensures a + (b + c) == a + b + c
  {
  }

  function Mapped<T, U>(f: T -> U, s: seq<T>): (r: seq<U>)
    ensures |r| == |s|
  {
    seq(|s|, i requires 0 <= i < |s| => f(s[i]))
  }

  lemma MappedCons<T, U>(f: T -> U, s: seq<T>)
    requires s != []
    ensures Mapped(f, s)[0] == f(s[0]) && Mapped(f, s)[1..] == Mapped(f, s[1..])
  {
  }

  /** What lies behind a prefix. */
  lemma Behindmost<T>(a: seq<T>, s: seq<T>)
    requires a <= s && |a| < |s|
    ensures a + s[|a|..] == s && s[|a|..] != [] && s[|a|..][|s| - |a| - 1] == s[|s| - 1]
  {
  }

  /** A prefix carried on by the elements right behind it. */
  lemma Further<T>(a: seq<T>, s: seq<T>, upTo: nat)
    requires a <= s && |a| < upTo <= |s|
    ensures a + s[|a|..upTo] == s[..upTo] && s[|a|..upTo][upTo - |a| - 1] == s[upTo - 1]
  {
  }

  lemma Fronts<T>(s: seq<T>, n: nat)
    requires n < |s|
    ensures |s[..n + 1]| == n + 1 && s[..n + 1][..n] == s[..n] && s[..n + 1][n] == s[n]
  {
  }

  lemma HeadSplit<T>(a: seq<T>, b: seq<T>)
    requires a != []
    ensures [a[0]] + (a[1..] + b) == a + b
  {
  }

  lemma LastSplit<T>(a: seq<T>, b: seq<T>)
    requires b != []
    ensures a + b == (a + b[..|b| - 1]) + [b[|b| - 1]]
  {
  }

  /** What was put in front can be cut off again. */
  lemma Prepended<T>(a: seq<T>, b: seq<T>)
    ensures (a + b)[..|a|] == a && (a + b)[|a|..] == b
  {
  }

  lemma PrefixCancels<T>(p: seq<T>, a: seq<T>, b: seq<T>)
    requires p + a == p + b
    ensures a == b
  {
    Prepended(p, a);
    Prepended(p, b);
  }

  /** One text cut in two ways. */
  lemma Aligned<T>(a: seq<T>, x: seq<T>, b: seq<T>, y: seq<T>)
    requires a + x == b + y
    ensures |a| == |b| ==> a == b && x == y
    ensures |a| < |b| ==> x != [] && x[0] in b
  {
    Prepended(a, x);
    Prepended(b, y);
    assert |a| < |b| ==> (a + x)[|a|] == (b + y)[|a|] == b[|a|];
  }

  // ----- characters ---------------------------------------------------------

  /** str.isspace() for one code point; str.strip() removes exactly these. */
  predicate IsSpace(c: char)
  {
    var n := c as int;
    || 0x09 <= n <= 0x0d || 0x1c <= n <= 0x20 || n == 0x85 || n == 0xa0 || n == 0x1680
    || 0x2000 <= n <= 0x200a || n == 0x2028 || n == 0x2029 || n == 0x202f || n == 0x205f || n == 0x3000
  }

  /** The code points at which str.splitlines() ends a line. Each of them is white space. */
  predicate IsBreak(c: char)
    ensures IsBreak(c) ==> IsSpace(c)
  {
    var n := c as int;
    0x0a <= n <= 0x0d || 0x1c <= n <= 0x1e || n == 0x85 || n == 0x2028 || n == 0x2029
  }

  predicate NoBreaks(s: string) { forall c :: c in s ==> !IsBreak(c) }

  /** All white space: tab, line feed, vertical tab, form feed, return, the four separators, the
      space, and the further spaces of Unicode. */
  predicate IsWhite(c: char)
  {
    || c == '\t' || c == '\n' || c == '\U{0B}' || c == '\U{0C}' || c == '\r' || c == '\U{1C}' || c == '\U{1D}' || c == '\U{1E}'
    || c == '\U{1F}' || c == ' ' || c == '\U{85}' || c == '\U{A0}' || c == '\U{1680}' || c == '\U{2000}' || c == '\U{2001}'
    || c == '\U{2002}' || c == '\U{2003}' || c == '\U{2004}' || c == '\U{2005}' || c == '\U{2006}' || c == '\U{2007}'
    || c == '\U{2008}' || c == '\U{2009}' || c == '\U{200A}' || c == '\U{2028}' || c == '\U{2029}' || c == '\U{202F}'
    || c == '\U{205F}' || c == '\U{3000}'
  }

  lemma SpacesAre(c: char)
    ensures IsSpace(c) <==> IsWhite(c)
  {
  }

  lemma BreaksAre(c: char)
    ensures IsBreak(c) <==>
      || c == '\n' || c == '\U{0B}' || c == '\U{0C}' || c == '\r' || c == '\U{1C}' || c == '\U{1D}' || c == '\U{1E}'
      || c == '\U{85}' || c == '\U{2028}' || c == '\U{2029}'
  {
  }

  // ----- strip --------------------------------------------------------------

  function LStripBy(blank: char -> bool, s: string): string
  {
    if s != "" && blank(s[0]) then LStripBy(blank, s[1..]) else s
  }

  function RStripBy(blank: char -> bool, s: string): string
  {
    if s != "" && blank(s[|s| - 1]) then RStripBy(blank, s[..|s| - 1]) else s
  }

  /** str.strip(chars), the characters given as a predicate. */
  function StripBy(blank: char -> bool, s: string): string { RStripBy(blank, LStripBy(blank, s)) }

  lemma {:induction false} LStripFacts(blank: char -> bool, s: string)
    ensures var r := LStripBy(blank, s);
      && |r| <= |s| && r == s[|s| - |r|..]
      && (forall i :: 0 <= i < |s| - |r| ==> blank(s[i]))
      && (r != "" ==> !blank(r[0]))
  {
    if s != "" && blank(s[0]) {
      LStripFacts(blank, s[1..]);
      var r := LStripBy(blank, s[1..]);
      assert s[1..][|s| - 1 - |r|..] == s[|s| - |r|..];
      assert forall i :: 1 <= i < |s| - |r| ==> s[i] == s[1..][i - 1];
    }
  }

  lemma {:induction false} RStripFacts(blank: char -> bool, s: string)
    ensures var r := RStripBy(blank, s);
      && |r| <= |s| && r == s[..|r|]
      && (forall i :: |r| <= i < |s| ==> blank(s[i]))
      && (r != "" ==> !blank(r[|r| - 1]))
  {
    if s != "" && blank(s[|s| - 1]) { RStripFacts(blank, s[..|s| - 1]); }
  }

  lemma {:induction false} LStripPadded(blank: char -> bool, left: string, rest: string)
    requires forall c :: c in left ==> blank(c)
    requires rest != "" ==> !blank(rest[0])
    ensures LStripBy(blank, left + rest) == rest
  {
    if left == "" {
      assert left + rest == rest;
    } else {
      assert (left + rest)[1..] == left[1..] + rest;
      LStripPadded(blank, left[1..], rest);
    }
  }

  lemma {:induction false} RStripPadded(blank: char -> bool, rest: string, right: string)
    requires forall c :: c in right ==> blank(c)
    requires rest != "" ==> !blank(rest[|rest| - 1])
    ensures RStripBy(blank, rest + right) == rest
  {
    var s := rest + right;
    if right == "" {
      assert s == rest;
    } else {
      assert s[..|s| - 1] == rest + right[..|right| - 1];
      RStripPadded(blank, rest, right[..|right| - 1]);
    }
  }

  lemma {:induction false} AllBlank(blank: char -> bool, s: string)
    requires forall c :: c in s ==> blank(c)
    ensures StripBy(blank, s) == ""
  {
    if s != "" { AllBlank(blank, s[1..]); }
  }

  /** Stripping finds the core of any padded text. */
  lemma StripByPadded(blank: char -> bool, left: string, core: string, right: string)
    requires forall c :: c in left ==> blank(c)
    requires forall c :: c in right ==> blank(c)
    requires core != "" ==> !blank(core[0]) && !blank(core[|core| - 1])
    ensures StripBy(blank, left + core + right) == core
  {
    if core == "" {
      assert forall c :: c in left + core + right ==> blank(c);
      AllBlank(blank, left + core + right);
    } else {
      assert left + core + right == left + (core + right);
      LStripPadded(blank, left, core + right);
      RStripPadded(blank, core, right);
    }
  }

  lemma StripByEnds(blank: char -> bool, s: string)
    ensures var r := StripBy(blank, s); r != "" ==> !blank(r[0]) && !blank(r[|r| - 1])
  {
    var l := LStripBy(blank, s);
    LStripFacts(blank, s);
    RStripFacts(blank, l);
    assert RStripBy(blank, l) != "" ==> l[0] == RStripBy(blank, l)[0];
  }

  lemma LStripSplits(blank: char -> bool, s: string) returns (left: string)
    ensures s == left + LStripBy(blank, s) && forall c :: c in left ==> blank(c)
  {
    LStripFacts(blank, s);
    left := s[..|s| - |LStripBy(blank, s)|];
  }

  lemma RStripSplits(blank: char -> bool, s: string) returns (right: string)
    ensures s == RStripBy(blank, s) + right && forall c :: c in right ==> blank(c)
  {
    RStripFacts(blank, s);
    right := s[|RStripBy(blank, s)|..];
  }

  /** Every text is its stripped core between two paddings. */
  lemma StripBySplits(blank: char -> bool, s: string) returns (left: string, right: string)
    ensures s == left + StripBy(blank, s) + right
    ensures (forall c :: c in left ==> blank(c)) && (forall c :: c in right ==> blank(c))
  {
    left := LStripSplits(blank, s);
    right := RStripSplits(blank, LStripBy(blank, s));
    assert left + (StripBy(blank, s) + right) == left + StripBy(blank, s) + right;
  }

  function Strip(s: string): string { StripBy(IsSpace, s) }

  lemma StripFacts(s: string)
    ensures var r := Strip(s);
      && (r != "" ==> !IsSpace(r[0]) && !IsSpace(r[|r| - 1]))
      && (forall c :: c in r ==> c in s)
      && (s != "" && !IsSpace(s[0]) && !IsSpace(s[|s| - 1]) ==> r == s)
      && ((forall c :: c in s ==> IsSpace(c)) <==> r == "")
  {
    var left, right := StripBySplits(IsSpace, s);
    StripByEnds(IsSpace, s);
    if forall c :: c in s ==> IsSpace(c) { AllBlank(IsSpace, s); }
    if s != "" && !IsSpace(s[0]) && !IsSpace(s[|s| - 1]) { StripFixed(s); }
  }

  lemma StripFixed(s: string)
    requires s != "" && !IsSpace(s[0]) && !IsSpace(s[|s| - 1])
    ensures Strip(s) == s
  {
  }

  lemma StripKeeps(s: string)
    ensures forall c :: c in Strip(s) ==> c in s
  {
    var left, right := StripBySplits(IsSpace, s);
  }

  lemma StripPadded(left: string, core: string, right: string)
    requires forall c :: c in left ==> IsSpace(c)
    requires forall c :: c in right ==> IsSpace(c)
    requires core != "" ==> !IsSpace(core[0]) && !IsSpace(core[|core| - 1])
    ensures Strip(left + core + right) == core
  {
    StripByPadded(IsSpace, left, core, right);
  }

  lemma StripIdempotent(s: string)
    ensures Strip(Strip(s)) == Strip(s)
  {
    StripFacts(s);
    StripFacts(Strip(s));
  }

  // ----- find ---------------------------------------------------------------

  /** str.find(c) for one code point: the first index, or -1. */
  function Find(s: string, c: char): (r: int)
    ensures -1 <= r < |s|
  {
    if s == "" then -1
    else if s[0] == c then 0
    else
      var r := Find(s[1..], c);
      if r == -1 then -1 else r + 1
  }

  /** str.rfind(c) for one code point: the last index, or -1. */
  function RFind(s: string, c: char): (r: int)
    ensures -1 <= r < |s|
  {
    if s == "" then -1
    else if s[|s| - 1] == c then |s| - 1
    else RFind(s[..|s| - 1], c)
  }

  lemma {:induction false} FindFacts(s: string, c: char)
    ensures var r := Find(s, c);
      (r == -1 <==> c !in s) && (r >= 0 ==> s[r] == c && c !in s[..r])
  {
    if s != "" && s[0] != c {
      FindFacts(s[1..], c);
      var r := Find(s[1..], c);
      assert s == [s[0]] + s[1..];
      if r >= 0 { assert s[..r + 1] == [s[0]] + s[1..][..r]; }
    }
  }

  lemma FindAt(a: string, c: char, b: string)
    requires c !in a
    ensures Find(a + [c] + b, c) == |a|
  {
    var s := a + [c] + b;
    assert s[|a|] == c;
    assert forall i :: 0 <= i < |a| ==> s[i] == a[i];
    var r := Find(s, c);
    FindFacts(s, c);
    assert forall i :: 0 <= i < r ==> s[i] == s[..r][i];
  }

  lemma {:induction false} RFindAt(a: string, c: char, b: string)
    requires c !in b
    ensures RFind(a + [c] + b, c) == |a|
  {
    var s := a + [c] + b;
    if b != "" {
      RFindAt(a, c, b[..|b| - 1]);
      assert s[..|s| - 1] == a + [c] + b[..|b| - 1];
      assert s[|s| - 1] == b[|b| - 1];
    }
  }

  /** s[:i], with Python's meaning of a negative end. */
  function PyTake(s: string, i: int): (r: string)
    requires -1 <= i <= |s|
    ensures i >= 0 ==> r == s[..i]
    ensures forall c :: c in r ==> c in s
  {
    if i >= 0 then s[..i] else if s == "" then "" else s[..|s| - 1]
  }

  predicate StartsWith(s: string, p: string) { |p| <= |s| && s[..|p|] == p }

  predicate EndsWith(s: string, p: string) { |p| <= |s| && s[|s| - |p|..] == p }

  // ----- split and join -----------------------------------------------------

  /** str.split(c) for one code point. */
  function Split(s: string, c: char): (r: seq<string>)
    ensures |r| >= 1
    decreases |s|
  {
    var i := Find(s, c);
    if i == -1 then [s] else [s[..i]] + Split(s[i + 1..], c)
  }

  /** A piece holds no separator, and nothing that the text did not hold. */
  lemma {:induction false} SplitPieces(s: string, c: char)
    ensures forall p :: p in Split(s, c) ==> c !in p
    ensures forall p, x :: p in Split(s, c) && x in p ==> x in s
    decreases |s|
  {
    var i := Find(s, c);
    FindFacts(s, c);
    if i >= 0 {
      SplitPieces(s[i + 1..], c);
    }
  }

  /** sep.join(parts) for a one code point separator. */
  function Join(parts: seq<string>, c: char): string
  {
    if parts == [] then ""
    else if |parts| == 1 then parts[0]
    else parts[0] + [c] + Join(parts[1..], c)
  }

  lemma {:induction false} JoinChars(parts: seq<string>, c: char)
    ensures forall p, x :: p in parts && x in p ==> x in Join(parts, c)
    ensures forall x :: x in Join(parts, c) ==> x == c || exists p :: p in parts && x in p
  {
    if |parts| > 1 {
      JoinChars(parts[1..], c);
      assert parts == [parts[0]] + parts[1..];
    }
  }

  lemma {:induction false} SplitJoin(parts: seq<string>, c: char)
    requires parts != []
    requires forall p :: p in parts ==> c !in p
    ensures Split(Join(parts, c), c) == parts
  {
    if |parts| == 1 {
      FindFacts(parts[0], c);
    } else {
      var rest := Join(parts[1..], c);
      var s := parts[0] + [c] + rest;
      FindAt(parts[0], c, rest);
      assert s[..|parts[0]|] == parts[0] && s[|parts[0]| + 1..] == rest;
      SplitJoin(parts[1..], c);
    }
  }

  lemma JoinCons(first: string, rest: seq<string>, c: char)
    requires rest != []
    ensures Join([first] + rest, c) == first + [c] + Join(rest, c)
  {
    assert ([first] + rest)[1..] == rest;
  }

  lemma {:induction false} JoinSplit(s: string, c: char)
    ensures Join(Split(s, c), c) == s
    decreases |s|
  {
    var i := Find(s, c);
    FindFacts(s, c);
    if i >= 0 {
      var rest := Split(s[i + 1..], c);
      JoinSplit(s[i + 1..], c);
      JoinCons(s[..i], rest, c);
      assert s == s[..i] + [c] + s[i + 1..];
    }
  }

  // ----- splitlines ---------------------------------------------------------

  /** Where the first line of s ends: the index of its break, or |s|. */
  function LineEnd(s: string): (e: nat)
    ensures e <= |s|
    ensures NoBreaks(s[..e])
    ensures e < |s| ==> IsBreak(s[e])
  {
    if s == "" || IsBreak(s[0]) then 0
    else
      var e := LineEnd(s[1..]);
      assert s[..e + 1] == [s[0]] + s[1..][..e];
      e + 1
  }

  /** How many code points the break at e takes: "\r\n" is one break. */
  function BreakWidth(s: string, e: nat): (w: nat)
    requires e <= |s|
    ensures e + w <= |s| && (e < |s| ==> w > 0)
  {
    if e == |s| then 0
    else if s[e] == '\r' && e + 1 < |s| && s[e + 1] == '\n' then 2
    else 1
  }

  /** str.splitlines(): a break at the very end opens no further line. */
  function SplitLines(s: string): (r: seq<string>)
    ensures forall l :: l in r ==> NoBreaks(l)
    ensures r == [] <==> s == ""
    decreases |s|
  {
    if s == "" then []
    else
      var e := LineEnd(s);
      [s[..e]] + SplitLines(s[e + BreakWidth(s, e)..])
  }

  /** Every line followed by a line feed. */
  function Unlines(lines: seq<string>): string
  {
    if lines == [] then "" else lines[0] + "\n" + Unlines(lines[1..])
  }

  lemma LineEndAt(a: string, c: char, b: string)
    requires NoBreaks(a) && IsBreak(c)
    ensures LineEnd(a + [c] + b) == |a|
  {
    var s := a + [c] + b;
    assert s[|a|] == c;
    assert forall i :: 0 <= i < |a| ==> s[i] == a[i];
    var e := LineEnd(s);
    assert forall i :: 0 <= i < e ==> s[i] == s[..e][i];
  }

  /** A line ends at its first break, of whatever kind; a return and a line feed are one break. */
  lemma SplitLinesAt(line: string, c: char, rest: string)
    requires NoBreaks(line) && IsBreak(c)
    ensures var after := if c == '\r' && rest != "" && rest[0] == '\n' then rest[1..] else rest;
      SplitLines(line + [c] + rest) == [line] + SplitLines(after)
  {
    var s := line + [c] + rest;
    LineEndAt(line, c, rest);
    assert s[..|line|] == line && s[|line|..] == [c] + rest && s[|line| + 1..] == rest;
    if rest != "" { assert s[|line| + 1] == rest[0] && s[|line| + 2..] == rest[1..]; }
  }

  lemma SplitLinesCons(line: string, rest: string)
    requires NoBreaks(line)
    ensures SplitLines(line + "\n" + rest) == [line] + SplitLines(rest)
  {
    var s := line + "\n" + rest;
    LineEndAt(line, '\n', rest);
    assert s[..|line|] == line && s[|line| + 1..] == rest;
  }

  lemma {:induction false} SplitLinesUnlines(lines: seq<string>)
    requires forall l :: l in lines ==> NoBreaks(l)
    ensures SplitLines(Unlines(lines)) == lines
  {
    if lines != [] {
      SplitLinesCons(lines[0], Unlines(lines[1..]));
      SplitLinesUnlines(lines[1..]);
    }
  }

  lemma {:induction false} UnlinesIsJoin(lines: seq<string>)
    requires lines != []
    ensures Unlines(lines) == Join(lines, '\n') + "\n"
  {
    if |lines| > 1 {
      UnlinesIsJoin(lines[1..]);
    }
  }

  // ----- decimal integers ---------------------------------------------------

  predicate IsDigit(c: char) { '0' <= c <= '9' }

  function NatText(n: nat): (r: string)
    ensures r != "" && forall c :: c in r ==> IsDigit(c)
  {
    var d := '0' + (n % 10) as char;
    if n < 10 then [d] else NatText(n / 10) + [d]
  }

  /** str(n) for an integer. */
  function IntText(n: int): (r: string)
    ensures r != "" && forall c :: c in r ==> IsDigit(c) || c == '-'
  {
    if n < 0 then "-" + NatText(-n) else NatText(n)
  }

  function NatOf(s: string): nat
    requires forall c :: c in s ==> IsDigit(c)
  {
    if s == "" then 0
    else
      var last := s[|s| - 1];
      assert IsDigit(last);
      NatOf(s[..|s| - 1]) * 10 + (last - '0') as int
  }

  /** The integer numerals: an optional sign and decimal digits. */
  function IntOf(s: string): Option<int>
  {
    var digits := if s != "" && (s[0] == '-' || s[0] == '+') then s[1..] else s;
    if digits == "" || exists c :: c in digits && !IsDigit(c) then None
    else
      var n: int := NatOf(digits);
      Some(if s[0] == '-' then -n else n)
  }

  lemma {:induction false} NatOfNatText(n: nat)
    ensures NatOf(NatText(n)) == n
  {
    if n >= 10 {
      NatOfNatText(n / 10);
      assert NatText(n)[..|NatText(n)| - 1] == NatText(n / 10);
    }
  }

  lemma IntOfDigits(t: string)
    requires t != "" && forall c :: c in t ==> IsDigit(c)
    ensures IntOf(t) == Some(NatOf(t)) && IntOf("-" + t) == Some(0 - NatOf(t))
  {
    assert IsDigit(t[0]);
    assert ("-" + t)[1..] == t;
  }

  lemma IntOfIntText(n: int)
    ensures IntOf(IntText(n)) == Some(n)
  {
    var m := if n < 0 then -n else n;
    IntOfDigits(NatText(m));
    NatOfNatText(m);
  }

  /** Decimal numerals: the digits of the tenth part and one digit, a minus sign in front of the
      digits of what is below zero. */
  lemma NumeralIs(n: nat)
    ensures n < 10 ==> IntText(n) == ["0123456789"[n]]
    ensures n >= 10 ==> IntText(n) == IntText(n / 10) + IntText(n % 10)
    ensures n > 0 ==> IntText(0 - n) == "-" + IntText(n)
  {
  }

  lemma IntTextInjective(m: int, n: int)
    ensures IntText(m) == IntText(n) ==> m == n
  {
    IntOfIntText(m);
    IntOfIntText(n);
  }

  // ----- order --------------------------------------------------------------

  /** Comparison of strings by code point, as Python orders str. */
  predicate StrLe(a: string, b: string)
  {
    a == "" || (b != "" && (a[0] < b[0] || (a[0] == b[0] && StrLe(a[1..], b[1..]))))
  }

  /** The first code points that differ decide; a text is before all that it begins. */
  lemma {:induction false} StrLeIs(a: string, b: string)
    ensures StrLe(a, b) <==> a <= b || exists k :: 0 <= k < |a| && k < |b| && a[..k] == b[..k] && a[k] < b[k]
  {
    if a != "" && b != "" {
      StrLeIs(a[1..], b[1..]);
      assert a == [a[0]] + a[1..] && b == [b[0]] + b[1..];
      if a[0] < b[0] { assert a[..0] == b[..0]; }
      if a[0] == b[0] {
        forall k: nat | k < |a[1..]| && k < |b[1..]| ensures a[1..][..k] == b[1..][..k] <==> a[..k + 1] == b[..k + 1] {
          assert a[..k + 1] == [a[0]] + a[1..][..k] && b[..k + 1] == [b[0]] + b[1..][..k];
          assert a[..k + 1][1..] == a[1..][..k] && b[..k + 1][1..] == b[1..][..k];
        }
      }
    }
  }

  lemma {:induction false} StrLeTotal(a: string, b: string)
    ensures StrLe(a, b) || StrLe(b, a)
  {
    if a != "" && b != "" { StrLeTotal(a[1..], b[1..]); }
  }

  lemma {:induction false} StrLeAntisymmetric(a: string, b: string)
    requires StrLe(a, b) && StrLe(b, a)
    ensures a == b
  {
    if a != "" && b != "" {
      StrLeAntisymmetric(a[1..], b[1..]);
      assert a == [a[0]] + a[1..] && b == [b[0]] + b[1..];
    }
  }

  lemma {:induction false} StrLeTransitive(a: string, b: string, c: string)
    requires StrLe(a, b) && StrLe(b, c)
    ensures StrLe(a, c)
  {
    if a != "" && a[0] == b[0] == c[0] {
      StrLeTransitive(a[1..], b[1..], c[1..]);
    }
  }
}
