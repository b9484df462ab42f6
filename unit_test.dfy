/** The assertion tracker: two counters, the verbose and fancy flags, and
    one method per assertion. The console is modelled as the ghost list of
    lines printed so far, and the outcomes since the last (re)initialisation
    as a ghost history that the counters must agree with. */
module UnitTests {
  import opened Options
  import opened Console
  import Lexicographic

  /** The outcome of one recorded assertion, with the test case it was made in. */
  datatype Verdict = Passed(name: string) | Failed(name: string, reason: string)

  /** The number of passes in a history. */
  function Passes(h: seq<Verdict>): nat {
    if h == [] then 0 else Passes(h[..|h| - 1]) + (if h[|h| - 1].Passed? then 1 else 0)
  }

  /** The number of failures in a history. */
  function Fails(h: seq<Verdict>): nat {
    if h == [] then 0 else Fails(h[..|h| - 1]) + (if h[|h| - 1].Failed? then 1 else 0)
  }

  /** Every recorded assertion is counted exactly once, as a pass or as a failure. */
  lemma {:induction false} PassesPlusFails(h: seq<Verdict>)
    ensures Passes(h) + Fails(h) == |h|
  {
    if h != [] {
      PassesPlusFails(h[..|h| - 1]);
    }
  }

  /** No failure recorded means every assertion passed. */
  lemma {:induction false} NoFailsAllPassed(h: seq<Verdict>)
    ensures Fails(h) == 0 <==> forall i :: 0 <= i < |h| ==> h[i].Passed?
  {
    if h != [] {
      var init := h[..|h| - 1];
      NoFailsAllPassed(init);
      assert forall i :: 0 <= i < |init| ==> init[i] == h[i];
    }
  }

  class UnitTest {
    /** Print a line for passed assertions too, not only for failed ones. */
    var verbose: bool
    /** Use Unicode check and cross glyphs as markers. */
    var fancy: bool
    var passed: nat
    var failed: nat

    /** The outcomes recorded since the last InitTests. */
    ghost var History: seq<Verdict>
    /** The lines printed so far, oldest first. */
    ghost var Output: seq<string>

    ghost predicate Valid()
      reads this
    {
      passed == Passes(History) && failed == Fails(History)
    }

    constructor (verbose: bool, fancy: bool)
      ensures Valid()
      ensures this.verbose == verbose && this.fancy == fancy
      ensures passed == 0 && failed == 0 && History == [] && Output == []
    {
      this.verbose := verbose;
      this.fancy := fancy;
      passed, failed := 0, 0;
      History, Output := [], [];
    }

    /** The tracker made with no arguments: quiet and plain. */
    constructor Default()
      ensures Valid()
      ensures !verbose && !fancy
      ensures passed == 0 && failed == 0 && History == [] && Output == []
    {
      verbose, fancy := false, false;
      passed, failed := 0, 0;
      History, Output := [], [];
    }

    /** The tracker made with a verbosity only: plain markers. */
    constructor WithVerbose(verbose: bool)
      ensures Valid()
      ensures this.verbose == verbose && !fancy
      ensures passed == 0 && failed == 0 && History == [] && Output == []
    {
      this.verbose := verbose;
      fancy := false;
      passed, failed := 0, 0;
      History, Output := [], [];
    }

    /** Starts a fresh tally; prints nothing and keeps the flags. */
    method InitTests()
      modifies this`passed, this`failed, this`History
      ensures Valid()
      ensures passed == 0 && failed == 0 && History == []
    {
      passed, failed := 0, 0;
      History := [];
    }

    /** The summary of the tally so far, in red when anything failed. */
    function SummarizeTests(): (s: string)
      reads this
      ensures WrappedIn(RED, s) <==> failed > 0
      ensures Plain(s) == SummaryText(passed, failed)
    {
      var text := SummaryText(passed, failed);
      if failed > 0 then Red(text) else text
    }

    method PassedTest(name: string)
      requires Valid()
      modifies this`passed, this`History, this`Output
      ensures Valid()
      ensures passed == old(passed) + 1 && failed == old(failed)
      ensures History == old(History) + [Passed(name)]
      ensures Output == old(Output) + if verbose then [PassLine(fancy, name)] else []
    {
      if verbose {
        Output := Output + [PassLine(fancy, name)];
      }
      passed := passed + 1;
      History := History + [Passed(name)];
    }

    method FailedTest(name: string, reason: string)
      requires Valid()
      modifies this`failed, this`History, this`Output
      ensures Valid()
      ensures passed == old(passed) && failed == old(failed) + 1
      ensures History == old(History) + [Failed(name, reason)]
      ensures Output == old(Output) + [FailLine(fancy, name, reason)]
    {
      var failedText := Red(" FAILED: ");
      Output := Output + [FailMark(fancy) + name + failedText + reason];
      failed := failed + 1;
      History := History + [Failed(name, reason)];
    }

    /** Records a pass unconditionally. */
    method Pass(name: string)
      requires Valid()
      modifies this`passed, this`History, this`Output
      ensures Valid()
      ensures passed == old(passed) + 1 && failed == old(failed)
      ensures History == old(History) + [Passed(name)]
      ensures Output == old(Output) + if verbose then [PassLine(fancy, name)] else []
    {
      PassedTest(name);
    }

    /** Records a failure unconditionally. */
    method Fail(name: string, reason: string)
      requires Valid()
      modifies this`failed, this`History, this`Output
      ensures Valid()
      ensures passed == old(passed) && failed == old(failed) + 1
      ensures History == old(History) + [Failed(name, reason)]
      ensures Output == old(Output) + [FailLine(fancy, name, reason)]
    {
      FailedTest(name, reason);
    }

    /** Passes iff `result` holds; otherwise fails with `reason`. */
    method AssertIsTrue(name: string, result: bool, reason: string)
      requires Valid()
      modifies this`passed, this`failed, this`History, this`Output
      ensures Valid()
      ensures History == old(History) + [if result then Passed(name) else Failed(name, reason)]
      ensures result ==> passed == old(passed) + 1 && failed == old(failed)
      ensures !result ==> passed == old(passed) && failed == old(failed) + 1
      ensures Output == old(Output) + if result then (if verbose then [PassLine(fancy, name)] else [])
                                      else [FailLine(fancy, name, reason)]
    {
      if result {
        PassedTest(name);
      } else {
        FailedTest(name, reason);
      }
    }

    /** Passes iff `result` does not hold; otherwise fails with `reason`. */
    method AssertIsFalse(name: string, result: bool, reason: string)
      requires Valid()
      modifies this`passed, this`failed, this`History, this`Output
      ensures Valid()
      ensures History == old(History) + [if !result then Passed(name) else Failed(name, reason)]
      ensures !result ==> passed == old(passed) + 1 && failed == old(failed)
      ensures result ==> passed == old(passed) && failed == old(failed) + 1
      ensures Output == old(Output) + if !result then (if verbose then [PassLine(fancy, name)] else [])
                                      else [FailLine(fancy, name, reason)]
    {
      if !result {
        PassedTest(name);
      } else {
        FailedTest(name, reason);
      }
    }

    /** Passes iff there is no value (a null reference); otherwise fails
        showing the value's textual form, as given by `show`. */
    method AssertIsNull<T>(name: string, actual: Option<T>, show: T -> string)
      requires Valid()
      modifies this`passed, this`failed, this`History, this`Output
      ensures Valid()
      ensures actual.None? ==> History == old(History) + [Passed(name)]
      ensures actual.Some? ==> History == old(History) + [Failed(name, NullReason(show(actual.value)))]
      ensures actual.None? ==> passed == old(passed) + 1 && failed == old(failed)
      ensures actual.Some? ==> passed == old(passed) && failed == old(failed) + 1
      ensures Output == old(Output) + match actual
        case None => if verbose then [PassLine(fancy, name)] else []
        case Some(v) => [FailLine(fancy, name, NullReason(show(v)))]
    {
      match actual
      case None =>
        PassedTest(name);
      case Some(v) =>
        FailedTest(name, NullReason(show(v)));
    }

    /** Passes iff the strings are equal (`compareTo` gives zero); otherwise
        fails with `expected "<expected>" got "<actual>"`. */
    method AssertEqualsString(name: string, actual: string, expected: string)
      requires Valid()
      modifies this`passed, this`failed, this`History, this`Output
      ensures Valid()
      ensures actual == expected ==> History == old(History) + [Passed(name)]
      ensures actual != expected ==>
        History == old(History) + [Failed(name, StringMismatchReason(actual, expected))]
      ensures actual == expected ==> passed == old(passed) + 1 && failed == old(failed)
      ensures actual != expected ==> passed == old(passed) && failed == old(failed) + 1
      ensures Output == old(Output) +
        if actual == expected then (if verbose then [PassLine(fancy, name)] else [])
        else [FailLine(fancy, name, StringMismatchReason(actual, expected))]
    {
      if Lexicographic.CompareTo(actual, expected) == 0 {
        PassedTest(name);
      } else {
        FailedTest(name, StringMismatchReason(actual, expected));
      }
    }

    /** Passes iff the values are equal; otherwise fails with
        `expected <<e>> got <<a>>`, both shown through `show`. */
    method AssertEqualsObject<T(==)>(name: string, actual: T, expected: T, show: T -> string)
      requires Valid()
      modifies this`passed, this`failed, this`History, this`Output
      ensures Valid()
      ensures actual == expected ==> History == old(History) + [Passed(name)]
      ensures actual != expected ==>
        History == old(History) + [Failed(name, ObjectMismatchReason(show(actual), show(expected)))]
      ensures actual == expected ==> passed == old(passed) + 1 && failed == old(failed)
      ensures actual != expected ==> passed == old(passed) && failed == old(failed) + 1
      ensures Output == old(Output) +
        if actual == expected then (if verbose then [PassLine(fancy, name)] else [])
        else [FailLine(fancy, name, ObjectMismatchReason(show(actual), show(expected)))]
    {
      if actual == expected {
        PassedTest(name);
      } else {
        FailedTest(name, ObjectMismatchReason(show(actual), show(expected)));
      }
    }

    /** Passes iff the numbers are equal; otherwise fails with
        `expected e got a`, both in decimal. */
    method AssertEqualsNumber(name: string, actual: int, expected: int)
      requires Valid()
      modifies this`passed, this`failed, this`History, this`Output
      ensures Valid()
      ensures actual == expected ==> History == old(History) + [Passed(name)]
      ensures actual != expected ==>
        History == old(History) + [Failed(name, NumberMismatchReason(actual, expected))]
      ensures actual == expected ==> passed == old(passed) + 1 && failed == old(failed)
      ensures actual != expected ==> passed == old(passed) && failed == old(failed) + 1
      ensures Output == old(Output) +
        if actual == expected then (if verbose then [PassLine(fancy, name)] else [])
        else [FailLine(fancy, name, NumberMismatchReason(actual, expected))]
    {
      if actual == expected {
        PassedTest(name);
      } else {
        FailedTest(name, NumberMismatchReason(actual, expected));
      }
    }
  }

  /** What a caller can conclude from the contracts alone: a quiet session
      with one passing and one failing assertion prints just the failure and
      summarises in red with the counts 2, 1 and 1. */
  method QuietSession()
  {
    var t := new UnitTest.Default();
    t.AssertIsTrue("truth", true, "unused");
    assert t.Output == [];
    assert "abc"[2] != "abd"[2];
    t.AssertEqualsString("strings", "abc", "abd");
    assert t.Output == [FailLine(false, "strings", StringMismatchReason("abc", "abd"))];
    assert t.passed + t.failed == |t.History| == 2;
    var s := t.SummarizeTests();
    assert WrappedIn(RED, s) && Plain(s) == SummaryText(1, 1);
    t.InitTests();
    s := t.SummarizeTests();
    assert s == SummaryText(0, 0);
  }
}
