# UnitTest assertion tracker, modelled in Dafny

This project models `ics124.utils.UnitTest`, a small helper for hand-written
unit tests. It keeps a count of passed and failed assertions, prints a line
for every failure (and, in verbose mode, for every pass) with a coloured
marker, and produces a summary line of the counts.

Modules:

- `UnitTests` (`unit_test.dfy`): the class `UnitTest` with the counters
  `passed` and `failed`, the flags `verbose` and `fancy`, and one method per
  constructor and assertion. The console is the ghost field `Output`, the
  list of lines printed so far. The ghost field `History` lists the outcomes
  recorded since the last `InitTests`. `Valid()` ties both counters to it.
- `Console` (`console.dfy`): colour wrapping, the pass and fail markers, the
  per-assertion lines, the summary text and the failure reasons, each with a
  parser or a lemma showing what the text reveals.
- `Decimal` (`decimal.dfy`): `%d` and `"" + int` rendering, with parsers and
  round-trip lemmas.
- `Lexicographic` (`lexicographic.dfy`): Java's `String.compareTo`.
- `Options` (`options.dfy`): `Option`, standing for a nullable reference.

The name of the current test case is a parameter of every recording method.

Two details of the code:

- The fancy glyphs are U+2714 (heavy check mark) and U+2718 (heavy ballot X).
- The markers and the failed summary are coloured in every mode. Fancy mode changes only the glyphs.

## Model

| member | source | states |
|---|---|---|
| `UnitTests.UnitTest.constructor` | src/ics124/utils/UnitTest.java:28-32 | the flags are taken from the arguments; both counters, the history and the log start empty |
| `UnitTests.UnitTest.Default` | src/ics124/utils/UnitTest.java:22-24 | no-argument construction: quiet, plain, counters at zero |
| `UnitTests.UnitTest.WithVerbose` | src/ics124/utils/UnitTest.java:25-27 | verbosity from the argument, plain markers, counters at zero |
| `UnitTests.UnitTest.InitTests` | src/ics124/utils/UnitTest.java:38-40 | both counters and the history are reset to zero/empty; flags and printed output are untouched |
| `UnitTests.UnitTest.SummarizeTests` | src/ics124/utils/UnitTest.java:47-53 | the summary is red-wrapped iff some assertion failed, and once unwrapped it is the summary text of the current counts, which `Console.SummaryRoundTrip` reads back as total = passed + failed, passed, failed |
| `Console.SummaryRoundTrip` | src/ics124/utils/UnitTest.java:48-49 | "Ran N assertions, P passed F failed" parses back to exactly (P+F, P, F) |
| `Console.SummaryText` | src/ics124/utils/UnitTest.java:48-49 | the uncoloured summary starts with "Ran " and is never itself red-wrapped, so the colour marks failures alone |
| `Console.ColourFacts` | src/ics124/utils/UnitTest.java:56-57 | neither the red nor the green code is a prefix of the other, and the red code does not start with 'R'; the only facts about the colour codes the other proofs use |
| `Console.Red` | src/ics124/utils/UnitTest.java:56 | the result is RED + s + RESET, from which s is recovered |
| `Console.Green` | src/ics124/utils/UnitTest.java:57 | the result is GREEN + s + RESET, from which s is recovered |
| `Console.CheckMark` | src/ics124/utils/UnitTest.java:59-61 | the pass marker is green and two visible characters wide in either mode |
| `Console.FailMark` | src/ics124/utils/UnitTest.java:63-65 | the fail marker is red and two visible characters wide in either mode |
| `Console.MarksDistinct` | src/ics124/utils/UnitTest.java:59-65 | a pass marker never equals a fail marker; each marker differs between fancy and plain mode |
| `Console.PassLine` | src/ics124/utils/UnitTest.java:78 | the pass line starts with the pass marker and ends with " passed" |
| `Console.FailLine` | src/ics124/utils/UnitTest.java:83-84 | the fail line starts with the fail marker and ends with the reason |
| `Console.PassLineIsNotFailLine` | src/ics124/utils/UnitTest.java:76-86 | no pass line equals any fail line, whatever the names, reason and modes |
| `Console.NullReason` | src/ics124/utils/UnitTest.java:138 | the reason frames the value's textual form between `expected NULL, got <<` and `>>`, from which it is cut back out |
| `Console.StringMismatchReason` | src/ics124/utils/UnitTest.java:152 | both strings in double quotes, expected first; they split back out whenever the expected string holds no double quote |
| `Console.ObjectMismatchReason` | src/ics124/utils/UnitTest.java:165 | both textual forms in `<<` and `>>`, expected first; they split back out whenever the expected form holds no '>' |
| `Console.NumberMismatchReason` | src/ics124/utils/UnitTest.java:178 | both numbers in decimal, expected first; the two printed numbers always split back out |
| `Console.NullReasonDetermines` | src/ics124/utils/UnitTest.java:138 | `expected NULL, got <<s>>` is equal for two values iff their textual forms are equal |
| `Console.StringReasonDetermines` | src/ics124/utils/UnitTest.java:152 | `expected "e" got "a"` determines both strings when e holds no double quote |
| `Console.StringReasonAmbiguous` | src/ics124/utils/UnitTest.java:152 | for all strings x, y, z: expected `x" got "y` against actual z prints the same reason as expected x against actual `y" got "z` |
| `Console.ObjectReasonDetermines` | src/ics124/utils/UnitTest.java:165 | `expected <<e>> got <<a>>` determines both textual forms when e holds no '>' |
| `Console.NumberReasonDetermines` | src/ics124/utils/UnitTest.java:178 | `expected e got a` determines both numbers |
| `Console.BetweenOf` | src/ics124/utils/UnitTest.java:152 | a reason of the shape prefix + e + mid + a + suffix splits back into e and a when e cannot be confused with mid |
| `Decimal.NatToString` | src/ics124/utils/UnitTest.java:48-49 | `%d` of a count is a non-empty run of decimal digits with no leading zero |
| `Decimal.NatRoundTrip` | src/ics124/utils/UnitTest.java:48-49 | parsing the printed count gives the count back |
| `Decimal.NatToStringInjective` | src/ics124/utils/UnitTest.java:48-49 | different counts print differently |
| `Decimal.TakeNatOf` | src/ics124/utils/UnitTest.java:48-49 | a printed count followed by a non-digit is read back whole, with the rest left over |
| `Decimal.IntToString` | src/ics124/utils/UnitTest.java:178 | an int prints with a leading minus iff negative, followed by digits |
| `Decimal.IntRoundTrip` | src/ics124/utils/UnitTest.java:178 | parsing a printed int gives it back |
| `Decimal.IntToStringInjective` | src/ics124/utils/UnitTest.java:178 | different ints print differently |
| `Lexicographic.CompareTo` | src/ics124/utils/UnitTest.java:149 | `compareTo` is zero iff the two strings are equal; it is the length difference when one is a prefix of the other, and otherwise the character difference at the first index where they differ |
| `UnitTests.PassesPlusFails` | src/ics124/utils/UnitTest.java:76-86 | passes plus failures in a history equal its length: passed + failed is the number of assertions since the last reset |
| `UnitTests.NoFailsAllPassed` | src/ics124/utils/UnitTest.java:50-51 | the failure count is zero iff every recorded assertion passed |
| `UnitTests.UnitTest.PassedTest` | src/ics124/utils/UnitTest.java:76-80 | passed goes up by one and failed is unchanged; a pass line is printed iff verbose |
| `UnitTests.UnitTest.FailedTest` | src/ics124/utils/UnitTest.java:81-86 | failed goes up by one and passed is unchanged; exactly one fail line carrying the reason is printed, verbose or not |
| `UnitTests.UnitTest.Pass` | src/ics124/utils/UnitTest.java:91-93 | records a pass |
| `UnitTests.UnitTest.Fail` | src/ics124/utils/UnitTest.java:99-101 | records a failure with the given reason |
| `UnitTests.UnitTest.AssertIsTrue` | src/ics124/utils/UnitTest.java:108-114 | a pass iff the result holds, else a failure carrying the reason |
| `UnitTests.UnitTest.AssertIsFalse` | src/ics124/utils/UnitTest.java:121-127 | a pass iff the result does not hold, else a failure carrying the reason |
| `UnitTests.UnitTest.AssertIsNull` | src/ics124/utils/UnitTest.java:134-140 | a pass iff there is no value, else a failure with `expected NULL, got <<v>>` |
| `UnitTests.UnitTest.AssertEqualsString` | src/ics124/utils/UnitTest.java:148-154 | a pass iff the strings are equal (decided through `compareTo`), else a failure with `expected "e" got "a"` |
| `UnitTests.UnitTest.AssertEqualsObject` | src/ics124/utils/UnitTest.java:161-167 | a pass iff the values are equal, else a failure with `expected <<e>> got <<a>>` |
| `UnitTests.UnitTest.AssertEqualsNumber` | src/ics124/utils/UnitTest.java:174-180 | a pass iff the numbers are equal, else a failure with `expected e got a` |

Every recording method also keeps `Valid()`: the counters equal the passes
and failures in `History`. With `PassesPlusFails`, this gives
passed + failed = the number of assertions since the last reset.

## Left out

- Test-case name lookup (`getTestCaseName`, lines 67-74) reads the call stack at a fixed depth. The name is a parameter instead.
- Console I/O: `System.out.println` is modelled as appending to the ghost list `Output`.
- The `ConsoleColor` class is not part of this model. RED, GREEN and RESET are given the conventional ANSI escape sequences. The proofs use only what `Console.ColourFacts` states about them: neither RED nor GREEN is a prefix of the other, and RED does not start with 'R'.
- `Object.equals` and `toString` of arbitrary objects: `AssertEqualsObject` uses Dafny equality on a type with equality. `AssertIsNull` and `AssertEqualsObject` take the textual form as a function parameter `show`.
- `UnitTests.UnitTest.AssertEqualsNumber` covers only `int` (Java `Integer`). Boxed `Long`, `Double` and other `Number` types are out of scope. So is the quirk that `Number.equals` is false across boxed types of equal value. The reason string is used as a format string with no arguments; a decimal int holds no `%`, so this has no effect here.
- Null arguments are not modelled; the types here cannot be null. In the source:
  - A null `actual` to any `assertEquals` overload throws `NullPointerException` (lines 149, 162, 175).
  - A null `expected` to the String overload throws too (`compareTo`, line 149).
  - A null `expected` to the Object or Number overload is an ordinary failure, because `actual.equals(null)` is false. The reason is then `expected <<null>> got <<a>>` (line 165) or `expected null got a` (line 178).
  - A null `reason` to `fail`, `assertIsTrue` or `assertIsFalse` is an ordinary failure whose line ends in `null` (line 84).
- The counters are `static` in the source, so they are shared by all instances, and each construction resets them. The model has one tracker owning its counters, with no concurrency.
- `UnitTests.UnitTest.PassedTest`: `passed` is unbounded. The Java `int` wrap-around after 2^31 - 1 passes is not modelled.
- `UnitTests.UnitTest.FailedTest`: `failed` is unbounded. The Java `int` wrap-around after 2^31 - 1 failures is not modelled.
- `UnitTests.UnitTest.SummarizeTests`: two behaviours of lines 48-49 are not modelled.
  - The total `numPassed+numFailed` is Java `int` addition. It turns negative once the sum passes 2^31 - 1, even while neither counter has wrapped. The model's total is the unbounded sum.
  - `String.format` renders `%d` in the default locale, which can replace '0'..'9' with that locale's digits. `Decimal.NatToString` always uses '0'..'9'.
- `Lexicographic.CompareTo`: Java compares UTF-16 code units, while Dafny characters are Unicode scalar values. For characters outside the Basic Multilingual Plane, this can change the value and the sign of `compareTo`. It cannot change whether the result is zero, which is all the tracker uses.
