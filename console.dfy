/** The strings the tracker prints: colour wrapping, pass/fail markers, the
    per-assertion lines, the summary and the failure reasons of the
    assertions, each with a parser or a lemma that shows what it reveals. */
module Console {
  import opened Options
  import opened Decimal

  /* The ConsoleColor class is not part of this model; its RED, GREEN and
     RESET are given the conventional ANSI escape sequences. The proofs use
     only the two facts that ColourFacts states about them. */
  const ESC: char := '\U{1B}'
  const RED: string := [ESC] + "[31m"
  const GREEN: string := [ESC] + "[32m"
  const RESET: string := [ESC] + "[0m"

  predicate StartsWith(s: string, p: string) {
    |p| <= |s| && s[..|p|] == p
  }

  predicate EndsWith(s: string, p: string) {
    |p| <= |s| && s[|s| - |p|..] == p
  }

  /** Neither string is a prefix of the other. */
  predicate PrefixFree(x: string, y: string) {
    !StartsWith(x, y) && !StartsWith(y, x)
  }

  /** What the proofs need of the colour codes: green and red can be told
      apart from the first characters of a line, and a red code does not
      start like the summary text. */
  lemma ColourFacts()
    ensures PrefixFree(RED, GREEN)
    ensures |RED| > 0 && RED[0] != 'R'
  {
    assert RED[3] != GREEN[3];
  }

  /** No string starts with both of two prefix-free strings. */
  lemma NotBothPrefixes(s: string, x: string, y: string)
    requires PrefixFree(x, y)
    ensures !(StartsWith(s, x) && StartsWith(s, y))
  {
  }

  /** `s` is `color` + something + RESET. */
  predicate WrappedIn(color: string, s: string) {
    |color| + |RESET| <= |s| && StartsWith(s, color) && EndsWith(s, RESET)
  }

  /** What lies between the colour code and RESET of a wrapped string. */
  function Inner(color: string, s: string): string
    requires WrappedIn(color, s)
  {
    s[|color|..|s| - |RESET|]
  }

  function Red(s: string): (r: string)
    ensures WrappedIn(RED, r) && Inner(RED, r) == s
  {
    RED + s + RESET
  }

  function Green(s: string): (r: string)
    ensures WrappedIn(GREEN, r) && Inner(GREEN, r) == s
  {
    GREEN + s + RESET
  }

  /** The success marker: a green check glyph when fancy, a dot otherwise;
      two visible characters either way. */
  function CheckMark(fancy: bool): (r: string)
    ensures WrappedIn(GREEN, r) && |Inner(GREEN, r)| == 2
  {
    Green(if fancy then "\U{2714} " else ". ")
  }

  /** The failure marker: a red cross glyph when fancy, an X otherwise;
      two visible characters either way. */
  function FailMark(fancy: bool): (r: string)
    ensures WrappedIn(RED, r) && |Inner(RED, r)| == 2
  {
    Red(if fancy then "\U{2718} " else "X ")
  }

  /** The four markers are pairwise different: the mode and the outcome can
      both be read off the marker. */
  lemma MarksDistinct(f: bool, g: bool)
    ensures CheckMark(f) != FailMark(g)
    ensures CheckMark(f) == CheckMark(g) <==> f == g
    ensures FailMark(f) == FailMark(g) <==> f == g
  {
    ColourFacts();
    NotBothPrefixes(CheckMark(f), RED, GREEN);
    assert CheckMark(f)[|GREEN|] == if f then '\U{2714}' else '.';
    assert CheckMark(g)[|GREEN|] == if g then '\U{2714}' else '.';
    assert FailMark(f)[|RED|] == if f then '\U{2718}' else 'X';
    assert FailMark(g)[|RED|] == if g then '\U{2718}' else 'X';
  }

  /** The line printed for a passed assertion (only in verbose mode). */
  function PassLine(fancy: bool, name: string): (r: string)
    ensures StartsWith(r, CheckMark(fancy)) && EndsWith(r, " passed")
  {
    CheckMark(fancy) + name + " passed"
  }

  /** The line printed for every failed assertion. */
  function FailLine(fancy: bool, name: string, reason: string): (r: string)
    ensures StartsWith(r, FailMark(fancy)) && EndsWith(r, reason)
  {
    FailMark(fancy) + name + Red(" FAILED: ") + reason
  }

  /** A pass line and a fail line never coincide, whatever the names, reason and modes. */
  lemma PassLineIsNotFailLine(f: bool, g: bool, name: string, other: string, reason: string)
    ensures PassLine(f, name) != FailLine(g, other, reason)
  {
    var line := PassLine(f, name);
    assert line[..|GREEN|] == CheckMark(f)[..|GREEN|] == GREEN;
    assert FailLine(g, other, reason)[..|RED|] == FailMark(g)[..|RED|] == RED;
    ColourFacts();
    NotBothPrefixes(line, RED, GREEN);
  }

  /** The summary before colouring: total, passed and failed counts.
      SummaryRoundTrip reads the three counts back from it. */
  function SummaryText(passed: nat, failed: nat): (r: string)
    ensures StartsWith(r, "Ran ") && !WrappedIn(RED, r)
  {
    ColourFacts();
    "Ran " + NatToString(passed + failed) + " assertions, "
      + NatToString(passed) + " passed " + NatToString(failed) + " failed"
  }

  datatype Tally = Tally(total: nat, passed: nat, failed: nat)

  /** Reads a number followed by `tag`, returning the number and what follows the tag. */
  function NumberThen(s: string, tag: string): Option<(nat, string)> {
    match TakeNat(s)
    case None => None
    case Some((n, r)) => if StartsWith(r, tag) then Some((n, r[|tag|..])) else None
  }

  lemma NumberThenOf(n: nat, tag: string, rest: string)
    requires tag != [] && !IsDigit(tag[0])
    ensures NumberThen(NatToString(n) + tag + rest, tag) == Some((n, rest))
  {
    assert NatToString(n) + tag + rest == NatToString(n) + (tag + rest);
    TakeNatOf(n, tag + rest);
    Behind(tag, rest);
  }

  /** Reads the three counts back from an uncoloured summary. */
  function ParseSummary(s: string): Option<Tally> {
    if !StartsWith(s, "Ran ") then None
    else match NumberThen(s[4..], " assertions, ")
      case None => None
      case Some((total, r1)) =>
        match NumberThen(r1, " passed ")
        case None => None
        case Some((passed, r2)) =>
          match NumberThen(r2, " failed")
          case None => None
          case Some((failed, r3)) =>
            if r3 == [] then Some(Tally(total, passed, failed)) else None
  }

  /** The summary reports exactly N = P + F, P and F. */
  lemma SummaryRoundTrip(passed: nat, failed: nat)
    ensures ParseSummary(SummaryText(passed, failed)) == Some(Tally(passed + failed, passed, failed))
  {
    var t, p, f := NatToString(passed + failed), NatToString(passed), NatToString(failed);
    var r2 := f + " failed" + [];
    var r1 := p + " passed " + r2;
    var r0 := t + " assertions, " + r1;
    SummaryTextShape(passed, failed);
    Behind("Ran ", r0);
    NumberThenOf(passed + failed, " assertions, ", r1);
    NumberThenOf(passed, " passed ", r2);
    NumberThenOf(failed, " failed", []);
  }

  lemma SummaryTextShape(passed: nat, failed: nat)
    ensures SummaryText(passed, failed) == "Ran " + (NatToString(passed + failed) + " assertions, "
      + (NatToString(passed) + " passed " + (NatToString(failed) + " failed" + [])))
  {
    var t, p, f := NatToString(passed + failed), NatToString(passed), NatToString(failed);
    assert f + " failed" + [] == f + " failed";
  }

  /** What follows a prefix. */
  lemma Behind(p: string, s: string)
    ensures StartsWith(p + s, p) && (p + s)[|p|..] == s
  {
    assert (p + s)[..|p|] == p;
  }

  /** Strips the red wrapping, if any. */
  function Plain(s: string): string {
    if WrappedIn(RED, s) then Inner(RED, s) else s
  }

  /* Failure reasons of the assertions. */

  /** The value's textual form between `expected NULL, got <<` and `>>`. */
  function NullReason(shown: string): (r: string)
    ensures StartsWith(r, "expected NULL, got <<") && EndsWith(r, ">>")
    ensures |r| == |shown| + 23 && r[21..|r| - 2] == shown
  {
    "expected NULL, got <<" + shown + ">>"
  }

  /** Both strings in double quotes, the expected one first; the two are
      split back out whenever the expected string holds no double quote. */
  function StringMismatchReason(actual: string, expected: string): (r: string)
    ensures '"' !in expected ==>
      Between(r, "expected \"", "\" got \"", "\"") == Some((expected, actual))
  {
    BetweenOf("expected \"", expected, "\" got \"", actual, "\"");
    "expected \"" + expected + "\" got \"" + actual + "\""
  }

  /** Both textual forms in `<<` and `>>`, the expected one first; the two
      are split back out whenever the expected form holds no '>'. */
  function ObjectMismatchReason(shownActual: string, shownExpected: string): (r: string)
    ensures '>' !in shownExpected ==>
      Between(r, "expected <<", ">> got <<", ">>") == Some((shownExpected, shownActual))
  {
    BetweenOf("expected <<", shownExpected, ">> got <<", shownActual, ">>");
    "expected <<" + shownExpected + ">> got <<" + shownActual + ">>"
  }

  /** Both numbers in decimal, the expected one first; the two printed
      numbers are always split back out. */
  function NumberMismatchReason(actual: int, expected: int): (r: string)
    ensures Between(r, "expected ", " got ", "") == Some((IntToString(expected), IntToString(actual)))
  {
    var e, a := IntToString(expected), IntToString(actual);
    assert forall k :: 0 <= k < |e| ==> e[k] != ' ';
    BetweenOf("expected ", e, " got ", a, "");
    assert "expected " + e + " got " + a + "" == "expected " + e + " got " + a;
    "expected " + e + " got " + a
  }

  /** The index of the first `c` in `s`, or |s| when there is none. */
  function IndexOf(s: string, c: char): (k: nat)
    ensures k <= |s|
    ensures forall i :: 0 <= i < k ==> s[i] != c
    ensures k < |s| ==> s[k] == c
  {
    if s == [] || s[0] == c then 0 else 1 + IndexOf(s[1..], c)
  }

  /** Splits `prefix + e + mid + a + suffix` into `e` and `a`, ending `e` at the
      first occurrence of the first character of `mid`. */
  function Between(s: string, prefix: string, mid: string, suffix: string): Option<(string, string)>
    requires |mid| > 0
  {
    if !StartsWith(s, prefix) then None
    else
      var t := s[|prefix|..];
      var k := IndexOf(t, mid[0]);
      var u := t[k..];
      if |mid| + |suffix| <= |u| && StartsWith(u, mid) && EndsWith(u, suffix)
      then Some((t[..k], u[|mid|..|u| - |suffix|]))
      else None
  }

  lemma {:induction false} IndexOfAfter(e: string, rest: string, c: char)
    requires c !in e
    ensures IndexOf(e + rest, c) == |e| + IndexOf(rest, c)
  {
    if e != [] {
      assert (e + rest)[0] == e[0];
      assert (e + rest)[1..] == e[1..] + rest;
      IndexOfAfter(e[1..], rest, c);
    } else {
      assert e + rest == rest;
    }
  }

  /** Between recovers both parts when the first part cannot be confused with `mid`. */
  lemma BetweenOf(prefix: string, e: string, mid: string, a: string, suffix: string)
    requires |mid| > 0
    ensures mid[0] !in e ==> Between(prefix + e + mid + a + suffix, prefix, mid, suffix) == Some((e, a))
  {
    if mid[0] !in e {
      Split(prefix, e, mid, a, suffix);
    }
  }

  lemma Split(prefix: string, e: string, mid: string, a: string, suffix: string)
    requires |mid| > 0 && mid[0] !in e
    ensures Between(prefix + e + mid + a + suffix, prefix, mid, suffix) == Some((e, a))
  {
    var rest := mid + a + suffix;
    assert prefix + e + mid + a + suffix == prefix + (e + rest);
    Behind(prefix, e + rest);
    IndexOfAfter(e, rest, mid[0]);
    Behind(e, rest);
    assert (e + rest)[..|e|] == e;
    Framed(mid, a, suffix);
  }

  /** The middle of `x + m + y`, between `x` and `y`, is `m`. */
  lemma Framed(x: string, m: string, y: string)
    ensures StartsWith(x + m + y, x) && EndsWith(x + m + y, y)
    ensures (x + m + y)[|x|..|x + m + y| - |y|] == m
  {
    assert (x + m + y)[..|x|] == x;
    assert (x + m + y)[|x + m + y| - |y|..] == y;
  }

  /** A number mismatch message determines both numbers. */
  lemma NumberReasonDetermines(a1: int, e1: int, a2: int, e2: int)
    requires NumberMismatchReason(a1, e1) == NumberMismatchReason(a2, e2)
    ensures a1 == a2 && e1 == e2
  {
    assert NumberMismatchReason(a1, e1) == "expected " + IntToString(e1) + " got " + IntToString(a1) + "";
    assert NumberMismatchReason(a2, e2) == "expected " + IntToString(e2) + " got " + IntToString(a2) + "";
    BetweenOf("expected ", IntToString(e1), " got ", IntToString(a1), "");
    BetweenOf("expected ", IntToString(e2), " got ", IntToString(a2), "");
    IntToStringInjective(a1, a2);
    IntToStringInjective(e1, e2);
  }

  /** A string mismatch message determines both strings when the expected
      strings hold no double quote. */
  lemma StringReasonDetermines(a1: string, e1: string, a2: string, e2: string)
    requires '"' !in e1 && '"' !in e2
    requires StringMismatchReason(a1, e1) == StringMismatchReason(a2, e2)
    ensures a1 == a2 && e1 == e2
  {
  }

  /** With a double quote inside the expected string the message is
      ambiguous: an expected string ending in `" got "y` and the actual string
      z print the same reason as y + `" got "` + z against x. */
  lemma StringReasonAmbiguous(x: string, y: string, z: string)
    ensures StringMismatchReason(z, x + "\" got \"" + y) == StringMismatchReason(y + "\" got \"" + z, x)
  {
    var printed := "expected \"" + x + "\" got \"" + y + "\" got \"" + z + "\"";
    assert StringMismatchReason(z, x + "\" got \"" + y) == printed;
    assert StringMismatchReason(y + "\" got \"" + z, x) == printed;
  }

  /** An object mismatch message determines both textual forms when the
      expected one holds no '>'. */
  lemma ObjectReasonDetermines(a1: string, e1: string, a2: string, e2: string)
    requires '>' !in e1 && '>' !in e2
    requires ObjectMismatchReason(a1, e1) == ObjectMismatchReason(a2, e2)
    ensures a1 == a2 && e1 == e2
  {
  }

  /** The null-check message shows the textual form of the value, and only it. */
  lemma NullReasonDetermines(s1: string, s2: string)
    ensures NullReason(s1) == NullReason(s2) <==> s1 == s2
  {
    if NullReason(s1) == NullReason(s2) {
      assert NullReason(s1)[21..|NullReason(s1)| - 2] == s1;
      assert NullReason(s2)[21..|NullReason(s2)| - 2] == s2;
    }
  }
}
