/**
 * The `add_testcases` command: for every problem named in `TESTCASES` it
 * looks the problem up by exact name, skips all its cases when there is no
 * such problem, and otherwise creates the cases one by one. An exception
 * while creating counts every case of that problem as an error, although the
 * cases created before it stay created and counted.
 */
module AddTestcases {
  import opened Optional
  import opened Json

  /** A stored problem, as far as the lookup sees it: its primary key and its name. */
  datatype ProblemRow = ProblemRow(id: nat, name: string)

  /** A created `TestCase` row. */
  datatype StoredCase = StoredCase(problemId: nat, input: Value, expected: Value, isPublic: Value)

  datatype Counts = Counts(added: nat, skipped: nat, errors: nat)

  /** `Problem.objects.filter(name=name).first()`: the first exact match in the order of `problems`. */
  function FindProblem(problems: seq<ProblemRow>, name: string): (r: Option<ProblemRow>)
    ensures r.Some? ==> r.value in problems && r.value.name == name
    ensures r.Some? ==> exists i :: 0 <= i < |problems| && problems[i] == r.value
                          && forall j :: 0 <= j < i ==> problems[j].name != name
    ensures r.None? <==> forall p :: p in problems ==> p.name != name
  {
    if problems == [] then None
    else if problems[0].name == name then Some(problems[0])
    else
      var r := FindProblem(problems[1..], name);
      assert r.Some? ==> r.value in problems;
      if r.Some? then
        var i :| 0 <= i < |problems[1..]| && problems[1..][i] == r.value
                 && forall j :: 0 <= j < i ==> problems[1..][j].name != name;
        assert problems[i + 1] == r.value;
        assert forall j :: 1 <= j < i + 1 ==> problems[j] == problems[1..][j - 1];
        r
      else r
  }

  /**
   * `TestCase.objects.create(...)` for one item: `None` when the item raises,
   * which it does unless it is a dictionary holding both `input_data` and
   * `expected_output`. `is_public` defaults to `True`.
   */
  function CaseFrom(problemId: nat, data: Value): (r: Option<StoredCase>)
    ensures r.Some? <==> data.Dict? && "input_data" in data.fields && "expected_output" in data.fields
    ensures r.Some? ==> r.value.problemId == problemId
                        && r.value.input == data.fields["input_data"]
                        && r.value.expected == data.fields["expected_output"]
    ensures r.Some? && "is_public" !in data.fields ==> r.value.isPublic == Bool(true)
    ensures r.Some? && "is_public" in data.fields ==> r.value.isPublic == data.fields["is_public"]
  {
    match data
    case Dict(d) =>
      if "input_data" in d && "expected_output" in d then
        Some(StoredCase(problemId, d["input_data"], d["expected_output"], GetOr(d, "is_public", Bool(true))))
      else None
    case _ => None
  }

  /** The cases created for one problem, and whether an item raised. */
  datatype Made = Made(cases: seq<StoredCase>, failed: bool)

  /** The inner loop over `items`, item by item: the cases created in order, up to the first item that raises. */
  function CreateCases(problemId: nat, items: seq<Value>): (r: Made)
    ensures |r.cases| <= |items|
    ensures !r.failed ==> |r.cases| == |items|
    decreases |items|
  {
    if items == [] then Made([], false)
    else
      var before := CreateCases(problemId, items[..|items| - 1]);
      if before.failed then before
      else
        match CaseFrom(problemId, items[|items| - 1])
        case None => Made(before.cases, true)
        case Some(c) => Made(before.cases + [c], false)
  }

  /**
   * The cases are created from the items in order, one per item, and the
   * creation fails exactly when some item raises.
   */
  lemma {:induction false} CreateCasesInOrder(problemId: nat, items: seq<Value>)
    ensures var r := CreateCases(problemId, items);
      && (!r.failed <==> forall i :: 0 <= i < |items| ==> CaseFrom(problemId, items[i]).Some?)
      && (forall k :: 0 <= k < |r.cases| ==> CaseFrom(problemId, items[k]) == Some(r.cases[k]))
    decreases |items|
  {
    if items != [] {
      var init := items[..|items| - 1];
      CreateCasesInOrder(problemId, init);
      assert forall i :: 0 <= i < |init| ==> init[i] == items[i];
    }
  }

  /** The cases created so far and the three counters. */
  datatype Tally = Tally(created: seq<StoredCase>, counts: Counts)

  function Plus(a: Counts, b: Counts): Counts {
    Counts(a.added + b.added, a.skipped + b.skipped, a.errors + b.errors)
  }

  /** What the outer loop body does for one problem: the cases it creates and how the counters move. */
  function HandleProblem(problems: seq<ProblemRow>, name: string, items: seq<Value>): (r: Tally)
    ensures FindProblem(problems, name).None? ==> r == Tally([], Counts(0, |items|, 0))
    ensures r.counts.added == |r.created| && r.counts.skipped + r.counts.added <= |items|
    ensures r.counts.errors == 0 || r.counts.errors == |items|
    ensures r.counts.errors == 0 ==> r.counts.added + r.counts.skipped == |items|
    ensures FindProblem(problems, name).Some? ==>
              var m := CreateCases(FindProblem(problems, name).value.id, items);
              && r.created == m.cases && r.counts.skipped == 0
              && r.counts.errors == (if m.failed then |items| else 0)
  {
    match FindProblem(problems, name)
    case None => Tally([], Counts(0, |items|, 0))
    case Some(p) =>
      var made := CreateCases(p.id, items);
      Tally(made.cases, Counts(|made.cases|, 0, if made.failed then |items| else 0))
  }

  /**
   * For a problem that exists: case `k` is built from item `k`, and all of
   * the problem's cases are counted as errors exactly when one of its items
   * raises, none otherwise.
   */
  lemma ProblemErrorsIffItemRaises(problems: seq<ProblemRow>, name: string, items: seq<Value>)
    requires FindProblem(problems, name).Some?
    ensures var id := FindProblem(problems, name).value.id;
      var r := HandleProblem(problems, name, items);
      && (r.counts.errors == 0 <==> forall i :: 0 <= i < |items| ==> CaseFrom(id, items[i]).Some?)
      && (r.counts.errors != 0 ==> r.counts.errors == |items|)
      && (forall k :: 0 <= k < |r.created| ==> CaseFrom(id, items[k]) == Some(r.created[k]))
  {
    var id := FindProblem(problems, name).value.id;
    CreateCasesInOrder(id, items);
    if CreateCases(id, items).failed {
      assert items != [];
    }
  }

  /** The outer loop over the `(problem name, cases)` entries of `TESTCASES`, in order. */
  function Run(problems: seq<ProblemRow>, entries: seq<(string, seq<Value>)>): (r: Tally)
    ensures r.counts.added == |r.created|
    decreases |entries|
  {
    if entries == [] then Tally([], Counts(0, 0, 0))
    else
      var before := Run(problems, entries[..|entries| - 1]);
      var step := HandleProblem(problems, entries[|entries| - 1].0, entries[|entries| - 1].1);
      Tally(before.created + step.created, Plus(before.counts, step.counts))
  }

  /** The number of cases in `TESTCASES`. */
  function TotalCases(entries: seq<(string, seq<Value>)>): nat {
    if entries == [] then 0 else TotalCases(entries[..|entries| - 1]) + |entries[|entries| - 1].1|
  }

  /**
   * Added and skipped cases never outnumber the cases, and account for all
   * of them when nothing failed.
   */
  lemma {:induction false} RunBounds(problems: seq<ProblemRow>, entries: seq<(string, seq<Value>)>)
    ensures Run(problems, entries).counts.added + Run(problems, entries).counts.skipped <= TotalCases(entries)
    ensures Run(problems, entries).counts.errors == 0 ==>
              Run(problems, entries).counts.added + Run(problems, entries).counts.skipped == TotalCases(entries)
    decreases |entries|
  {
    if entries != [] {
      RunBounds(problems, entries[..|entries| - 1]);
    }
  }

  /**
   * `handle`: the nested loops, counting one addition per created case,
   * every case of a missing problem as skipped, and every case of a problem
   * whose creation raised as an error.
   */
  method Handle(problems: seq<ProblemRow>, entries: seq<(string, seq<Value>)>)
    returns (created: seq<StoredCase>, counts: Counts)
    ensures Tally(created, counts) == Run(problems, entries)
    ensures counts.added == |created|
  {
    created := [];
    counts := Counts(0, 0, 0);
    for e := 0 to |entries|
      invariant Tally(created, counts) == Run(problems, entries[..e])
    {
      var made, step := HandleOne(problems, entries[e].0, entries[e].1);
      RunSnoc(problems, entries, e);
      created := created + made;
      counts := Plus(counts, step);
    }
    assert entries[..|entries|] == entries;
  }

  /** Running one more entry adds what that entry's problem does. */
  lemma RunSnoc(problems: seq<ProblemRow>, entries: seq<(string, seq<Value>)>, e: nat)
    requires e < |entries|
    ensures var before := Run(problems, entries[..e]);
      var step := HandleProblem(problems, entries[e].0, entries[e].1);
      Run(problems, entries[..e + 1]) == Tally(before.created + step.created, Plus(before.counts, step.counts))
  {
    assert entries[..e + 1][..e] == entries[..e];
    assert entries[..e + 1][e] == entries[e];
  }

  /** The outer loop body: the lookup, then the inner loop when the problem exists. */
  method HandleOne(problems: seq<ProblemRow>, name: string, items: seq<Value>) returns (made: seq<StoredCase>, step: Counts)
    ensures Tally(made, step) == HandleProblem(problems, name, items)
  {
    match FindProblem(problems, name)
    case None =>
      return [], Counts(0, |items|, 0);
    case Some(p) =>
      var failed;
      made, failed := CreateAll(p.id, items);
      return made, Counts(|made|, 0, if failed then |items| else 0);
  }

  /** The inner loop: creates the cases of one problem in order and stops at the first item that raises. */
  method CreateAll(problemId: nat, items: seq<Value>) returns (made: seq<StoredCase>, failed: bool)
    ensures Made(made, failed) == CreateCases(problemId, items)
  {
    failed := false;
    made := [];
    var k := 0;
    while k < |items| && !failed
      invariant 0 <= k <= |items|
      invariant Made(made, failed) == CreateCases(problemId, items[..k])
      decreases |items| - k
    {
      assert items[..k + 1][..k] == items[..k];
      assert items[..k + 1][k] == items[k];
      var c := CaseFrom(problemId, items[k]);
      if c.None? {
        failed := true;
      } else {
        made := made + [c.value];
      }
      k := k + 1;
    }
    if failed {
      CreateCasesStops(problemId, items, k);
    } else {
      assert items[..k] == items;
    }
  }

  /** A prefix that raised decides the whole list. */
  lemma {:induction false} CreateCasesStops(problemId: nat, items: seq<Value>, n: nat)
    requires n <= |items|
    requires CreateCases(problemId, items[..n]).failed
    ensures CreateCases(problemId, items) == CreateCases(problemId, items[..n])
    decreases |items| - n
  {
    if n < |items| {
      var m := |items| - 1;
      assert items[..m][..n] == items[..n];
      CreateCasesStops(problemId, items[..m], n);
      assert CreateCases(problemId, items[..m]).failed;
    } else {
      assert items[..n] == items;
    }
  }

  const WellFormed: Value := Dict(map["input_data" := Str("1"), "expected_output" := Str("1")])
  const MissingExpected: Value := Dict(map["input_data" := Str("2")])

  lemma ExampleCreation()
    ensures CreateCases(7, [WellFormed, MissingExpected])
         == Made([StoredCase(7, Str("1"), Str("1"), Bool(true))], true)
  {
    var stored := StoredCase(7, Str("1"), Str("1"), Bool(true));
    assert CaseFrom(7, MissingExpected).None?;
    assert CaseFrom(7, WellFormed) == Some(stored);
    assert [WellFormed, MissingExpected][..1] == [WellFormed];
    assert [WellFormed][..0] == [];
    assert CreateCases(7, []) == Made([], false);
    assert CreateCases(7, [WellFormed]) == Made([] + [stored], false);
    assert [] + [stored] == [stored];
  }

  /**
   * A problem whose second case lacks `expected_output` gets its first case
   * created and counted, and both of its cases counted as errors: the
   * counters then add up to more than the number of cases.
   */
  lemma CountsCanExceedTotal()
    ensures var entries := [("P", [WellFormed, MissingExpected])];
      var r := Run([ProblemRow(7, "P")], entries);
      TotalCases(entries) == 2 && r.counts == Counts(1, 0, 2)
      && r.counts.added + r.counts.skipped + r.counts.errors > TotalCases(entries)
  {
    var problems := [ProblemRow(7, "P")];
    var entries := [("P", [WellFormed, MissingExpected])];
    ExampleCreation();
    assert FindProblem(problems, "P") == Some(ProblemRow(7, "P"));
    assert HandleProblem(problems, "P", [WellFormed, MissingExpected]).counts == Counts(1, 0, 2);
    assert entries[..0] == [];
  }
}
