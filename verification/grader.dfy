/**
 * The grading engine: find the entry function in a submission, call it with
 * each test's input, turn every fault into an `ERROR:` text, compare the
 * output with the expected text after stripping whitespace, and aggregate the
 * per-test outcomes into a verdict.
 *
 * Running Python code is outside the model. A submission is represented by
 * what the interpreter makes of it: the namespace `exec` leaves behind (or the
 * exception it raised), and what calling one of its bindings with given
 * arguments produces (the `str()` of the return value, or the exception).
 */
module Grader {
  import opened Optional
  import opened Json
  import opened Text

  /** One entry of the execution namespace, in insertion (definition) order. */
  datatype Binding = Binding(name: string, isCallable: bool)

  type Namespace = seq<Binding>

  /** What `exec(code, namespace)` does: fills the namespace, or raises. */
  datatype Load = Loaded(namespace: Namespace) | LoadRaised(kind: string, message: string)

  /** The arguments of the call `fn(*positional, **keywords)`. */
  datatype CallArgs = CallArgs(positional: seq<Value>, keywords: map<string, Value>)

  /** What calling a binding does: `str()` of its return value, or an exception. */
  datatype CallOutcome = Returned(text: string) | Raised(kind: string, message: string)

  /** A submission as the interpreter sees it. */
  datatype Program = Program(load: Load, call: (Binding, CallArgs) -> CallOutcome)

  /** One test of a grading request; `is_public` defaults to true. */
  datatype TestCase = TestCase(id: int, input: Value, expected: string, isPublic: bool := true)

  datatype GradeRequest = GradeRequest(problemId: int, code: Program, tests: seq<TestCase>)

  datatype TestResult = TestResult(
    testId: int, input: Value, expected: string, actual: string, passed: bool, isPublic: bool)

  datatype GradeResult = GradeResult(
    correct: bool, results: seq<TestResult>, totalTests: nat, passedTests: nat)

  /** The fixed text returned when no eligible function exists. */
  const NoFunctionFound: string := "ERROR: No function found in code"

  /** `f"ERROR: {type(e).__name__}: {str(e)}"`. */
  function ErrorText(kind: string, message: string): string {
    "ERROR: " + kind + ": " + message
  }

  /** A binding the discovery loop accepts: callable, and not named with a leading `__`. */
  predicate IsEntryCandidate(b: Binding) {
    b.isCallable && !StartsWith(b.name, "__")
  }

  /** No binding before position `n` is a candidate. */
  predicate NoCandidateBefore(ns: Namespace, n: nat)
    requires n <= |ns|
  {
    forall j :: 0 <= j < n ==> !IsEntryCandidate(ns[j])
  }

  /** Position `i` holds the first candidate of the namespace. */
  predicate IsFirstCandidate(ns: Namespace, i: int) {
    0 <= i < |ns| && IsEntryCandidate(ns[i]) && NoCandidateBefore(ns, i)
  }

  /** Index of the first candidate in namespace order, if any. */
  function FindEntry(ns: Namespace): (r: Option<nat>)
    ensures r.Some? ==> IsFirstCandidate(ns, r.value)
    ensures r.None? <==> NoCandidateBefore(ns, |ns|)
  {
    if ns == [] then None
    else if IsEntryCandidate(ns[0]) then Some(0)
    else
      match FindEntry(ns[1..])
      case None => None
      case Some(i) => Some(i + 1)
  }

  /** Argument shape: a list spreads positionally, a dict by keyword, anything else is the one argument. */
  function Dispatch(input: Value): (args: CallArgs)
    ensures input.List? ==> args == CallArgs(input.items, map[])
    ensures input.Dict? ==> args == CallArgs([], input.fields)
    ensures !input.List? && !input.Dict? ==> args == CallArgs([input], map[])
  {
    match input
    case List(items) => CallArgs(items, map[])
    case Dict(fields) => CallArgs([], fields)
    case _ => CallArgs([input], map[])
  }

  /** Because the shape decides the call, some distinct inputs make identical calls. */
  lemma DispatchCollisions(v: Value)
    requires !v.List? && !v.Dict?
    ensures Dispatch(List([v])) == Dispatch(v)
    ensures Dispatch(List([])) == Dispatch(Dict(map[])) == CallArgs([], map[])
    ensures Dispatch(Str("ab")).positional == [Str("ab")]
  {
  }

  function Render(out: CallOutcome): string {
    match out
    case Returned(text) => text
    case Raised(kind, message) => ErrorText(kind, message)
  }

  /**
   * `execute_code`: never fails; load faults, a missing entry and call
   * faults all come back as text. The function called is the first candidate
   * of the namespace.
   */
  function Execute(code: Program, input: Value): (actual: string)
    ensures code.load.LoadRaised? ==> actual == ErrorText(code.load.kind, code.load.message)
    ensures code.load.Loaded? && NoCandidateBefore(code.load.namespace, |code.load.namespace|)
            ==> actual == NoFunctionFound
    ensures code.load.Loaded? ==>
              forall i :: IsFirstCandidate(code.load.namespace, i)
                          ==> actual == Render(code.call(code.load.namespace[i], Dispatch(input)))
  {
    match code.load
    case LoadRaised(kind, message) => ErrorText(kind, message)
    case Loaded(ns) =>
      match FindEntry(ns)
      case None => NoFunctionFound
      case Some(i) => Render(code.call(ns[i], Dispatch(input)))
  }

  /** Something went wrong in loading, discovery or the call itself. */
  predicate Faulted(code: Program, input: Value) {
    match code.load
    case LoadRaised(_, _) => true
    case Loaded(ns) =>
      match FindEntry(ns)
      case None => true
      case Some(i) => code.call(ns[i], Dispatch(input)).Raised?
  }

  /** Every fault is reported as an `ERROR: ` text; otherwise the output is the function's rendered result. */
  lemma FaultsBecomeErrorText(code: Program, input: Value)
    ensures Faulted(code, input) ==> StartsWith(Execute(code, input), "ERROR: ")
    ensures !Faulted(code, input) ==>
              exists i :: 0 <= i < |code.load.namespace|
                          && code.call(code.load.namespace[i], Dispatch(input)) == Returned(Execute(code, input))
  {
    match code.load
    case LoadRaised(kind, message) =>
      assert ErrorText(kind, message) == "ERROR: " + (kind + ": " + message);
    case Loaded(ns) =>
      match FindEntry(ns)
      case None =>
      case Some(i) =>
        var out := code.call(ns[i], Dispatch(input));
        if out.Raised? {
          assert ErrorText(out.kind, out.message) == "ERROR: " + (out.kind + ": " + out.message);
        }
  }

  /** With two candidate functions defined, only the first one is called. */
  lemma FirstDefinedWins(code: Program, input: Value, before: Namespace, b: Binding, after: Namespace)
    requires code.load == Loaded(before + [b] + after)
    requires forall j :: 0 <= j < |before| ==> !IsEntryCandidate(before[j])
    requires IsEntryCandidate(b)
    ensures Execute(code, input) == Render(code.call(b, Dispatch(input)))
  {
    var ns := before + [b] + after;
    assert ns[|before|] == b;
    assert forall j :: 0 <= j < |before| ==> ns[j] == before[j];
    assert IsFirstCandidate(ns, |before|);
  }

  /** Names with a leading `__` are skipped; a single leading underscore is eligible. */
  lemma SingleUnderscoreIsEligible(call: (Binding, CallArgs) -> CallOutcome, input: Value)
    ensures var code := Program(Loaded([Binding("__init__", true), Binding("_helper", true), Binding("solve", true)]), call);
      Execute(code, input) == Render(call(Binding("_helper", true), Dispatch(input)))
  {
    var ns := [Binding("__init__", true), Binding("_helper", true), Binding("solve", true)];
    assert StartsWith(ns[0].name, "__");
    assert !StartsWith(ns[1].name, "__") by { assert ns[1].name[..2] == "_h"; }
    assert IsFirstCandidate(ns, 1);
  }

  /** Whitespace-trimmed, case-sensitive textual equality. */
  predicate OutputMatches(actual: string, expected: string) {
    Strip(actual) == Strip(expected)
  }

  /** One test: run it and record the outcome next to the test's own fields. */
  function Judge(code: Program, test: TestCase): (r: TestResult)
    ensures r.testId == test.id && r.input == test.input && r.expected == test.expected && r.isPublic == test.isPublic
    ensures r.actual == Execute(code, test.input)
    ensures r.passed <==> OutputMatches(r.actual, test.expected)
  {
    var output := Execute(code, test.input);
    TestResult(test.id, test.input, test.expected, output, OutputMatches(output, test.expected), test.isPublic)
  }

  /** Whitespace-only differences around the output never turn a passing test into a failing one. */
  lemma PaddingNeverFails(actual: string, expected: string, p: string, q: string, p': string, q': string)
    requires AllSpace(p) && AllSpace(q) && AllSpace(p') && AllSpace(q')
    ensures OutputMatches(p + actual + q, p' + expected + q') <==> OutputMatches(actual, expected)
  {
    StripIgnoresPadding(p, actual, q);
    StripIgnoresPadding(p', expected, q');
  }

  /** A submission without a usable function reports that fixed text for every test. */
  lemma NoFunctionEveryTest(code: Program, test: TestCase)
    requires code.load.Loaded? && NoCandidateBefore(code.load.namespace, |code.load.namespace|)
    ensures Judge(code, test).actual == NoFunctionFound
    ensures Judge(code, test).passed <==> Strip(test.expected) == NoFunctionFound
  {
    var s := NoFunctionFound;
    assert s[0] == 'E' && s[|s| - 1] == 'e';
    StripKeepsTrimmedText(s);
  }

  /** Number of passed results. */
  function CountPassed(rs: seq<TestResult>): nat {
    if rs == [] then 0
    else CountPassed(rs[..|rs| - 1]) + (if rs[|rs| - 1].passed then 1 else 0)
  }

  lemma {:induction false} CountPassedBounds(rs: seq<TestResult>)
    ensures CountPassed(rs) <= |rs|
    ensures CountPassed(rs) == |rs| <==> forall k :: 0 <= k < |rs| ==> rs[k].passed
  {
    if rs != [] {
      var init := rs[..|rs| - 1];
      CountPassedBounds(init);
      assert forall k :: 0 <= k < |init| ==> init[k] == rs[k];
    }
  }

  /**
   * `grade_submission`: one result per test in test order, totals derived
   * from the results, and `correct` cleared only by a failing test, so an
   * empty test list is correct.
   */
  method Grade(request: GradeRequest) returns (g: GradeResult)
    ensures g.totalTests == |request.tests| == |g.results|
    ensures forall i :: 0 <= i < |g.results| ==> g.results[i] == Judge(request.code, request.tests[i])
    ensures g.passedTests == CountPassed(g.results) <= g.totalTests
    ensures g.correct <==> forall i :: 0 <= i < |g.results| ==> g.results[i].passed
    ensures g.correct <==> g.passedTests == g.totalTests
    ensures request.tests == [] ==> g.correct
  {
    var results, allPassed := RunTests(request.code, request.tests);
    JudgeAllInOrder(request.code, request.tests);
    var passedTests := SumPassed(results);
    CountPassedBounds(results);
    g := GradeResult(allPassed, results, |request.tests|, passedTests);
  }

  /** The results of judging every test, in test order. */
  function JudgeAll(code: Program, tests: seq<TestCase>): (rs: seq<TestResult>)
    ensures |rs| == |tests|
    decreases |tests|
  {
    if tests == [] then []
    else JudgeAll(code, tests[..|tests| - 1]) + [Judge(code, tests[|tests| - 1])]
  }

  /** Result `k` is the judgement of test `k`. */
  lemma {:induction false} JudgeAllInOrder(code: Program, tests: seq<TestCase>)
    ensures forall k :: 0 <= k < |tests| ==> JudgeAll(code, tests)[k] == Judge(code, tests[k])
    decreases |tests|
  {
    if tests != [] {
      var init := tests[..|tests| - 1];
      JudgeAllInOrder(code, init);
      var rs := JudgeAll(code, tests);
      var before := JudgeAll(code, init);
      assert rs == before + [Judge(code, tests[|tests| - 1])];
      forall k | 0 <= k < |tests| ensures rs[k] == Judge(code, tests[k]) {
        if k < |init| {
          assert rs[k] == before[k];
          assert init[k] == tests[k];
        }
      }
    }
  }

  /** The loop of `grade_submission`: every test judged in order, and whether all of them passed. */
  method RunTests(code: Program, tests: seq<TestCase>) returns (results: seq<TestResult>, allPassed: bool)
    ensures results == JudgeAll(code, tests)
    ensures allPassed == AllPassed(results)
  {
    results := [];
    allPassed := true;
    for i := 0 to |tests|
      invariant results == JudgeAll(code, tests[..i])
      invariant allPassed == AllPassed(results)
    {
      var result := RunTest(code, tests[i]);
      AllPassedSnoc(results, result);
      if !result.passed {
        allPassed := false;
      }
      assert tests[..i + 1][..i] == tests[..i] && tests[..i + 1][i] == tests[i];
      assert JudgeAll(code, tests[..i + 1]) == JudgeAll(code, tests[..i]) + [Judge(code, tests[i])];
      results := results + [result];
    }
    assert tests[..|tests|] == tests;
  }

  /** Every result passed. */
  predicate AllPassed(rs: seq<TestResult>) {
    forall k :: 0 <= k < |rs| ==> rs[k].passed
  }

  /** Appending a result keeps `all_passed` only if that result passed. */
  lemma AllPassedSnoc(rs: seq<TestResult>, r: TestResult)
    ensures AllPassed(rs + [r]) <==> AllPassed(rs) && r.passed
  {
    assert (rs + [r])[|rs|] == r;
    assert forall k :: 0 <= k < |rs| ==> (rs + [r])[k] == rs[k];
  }

  /** The loop body of `grade_submission`: execute one test and compare its output. */
  method RunTest(code: Program, test: TestCase) returns (result: TestResult)
    ensures result == Judge(code, test)
  {
    var output := Execute(code, test.input);
    var passed := OutputMatches(output, test.expected);
    result := TestResult(test.id, test.input, test.expected, output, passed, test.isPublic);
  }

  /** `sum(1 for r in results if r['passed'])`. */
  method SumPassed(results: seq<TestResult>) returns (n: nat)
    ensures n == CountPassed(results)
  {
    n := 0;
    for j := 0 to |results|
      invariant n == CountPassed(results[..j])
    {
      assert results[..j + 1][..j] == results[..j];
      if results[j].passed {
        n := n + 1;
      }
    }
    assert results[..|results|] == results;
  }

  /** Tests built without an explicit flag are public. */
  lemma TestsArePublicByDefault(id: int, input: Value, expected: string)
    ensures TestCase(id, input, expected).isPublic
  {
  }
}
