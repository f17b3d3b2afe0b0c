/**
 * The `add_problems` command: it validates the items of `PROBLEMS` one by
 * one, skips the invalid ones with a warning naming their 1-based position,
 * and creates the valid ones in one batch at the end.
 */
module AddProblems {
  import opened Json
  import opened Text

  /** The `Problem` row the command creates. */
  datatype Problem = Problem(name: string, points: int, assignment: Value)

  /** What the loop body does with one item. */
  datatype ItemVerdict = Accept(problem: Problem) | Skip | Raise(message: string)

  /** `item.get("name") or ""`. */
  function RawName(d: Object): Value {
    if Truthy(Get(d, "name")) then Get(d, "name") else Str("")
  }

  /** `item.get("assignment") or ""`. */
  function Assignment(d: Object): Value {
    if Truthy(Get(d, "assignment")) then Get(d, "assignment") else Str("")
  }

  /** The integer an integer field stores for an `int` or a `bool`. */
  function PointsValue(v: Value): int
    requires IsPyInt(v)
  {
    if v.Bool? then (if v.b then 1 else 0) else v.i
  }

  /** The whole loop body for one item, including the exceptions it lets escape. */
  function CheckItem(item: Value): (v: ItemVerdict)
    ensures !item.Dict? ==> v == Raise(NoAttributeMessage(item, "get"))
    ensures item.Dict? && !RawName(item.fields).Str? ==> v == Raise(NoAttributeMessage(RawName(item.fields), "strip"))
    ensures v.Raise? <==> !item.Dict? || !RawName(item.fields).Str?
    ensures v.Skip? <==>
              item.Dict? && RawName(item.fields).Str?
              && (Strip(RawName(item.fields).s) == [] || !IsPyInt(Get(item.fields, "points")))
    ensures v.Accept? <==>
              item.Dict? && RawName(item.fields).Str? && Strip(RawName(item.fields).s) != []
              && IsPyInt(Get(item.fields, "points"))
    ensures v.Accept? ==>
              && v.problem.name == Strip(RawName(item.fields).s)
              && v.problem.points == PointsValue(Get(item.fields, "points"))
              && v.problem.assignment == Assignment(item.fields)
  {
    match item
    case Dict(d) =>
      var raw := RawName(d);
      if !raw.Str? then Raise(NoAttributeMessage(raw, "strip"))
      else
        var name := Strip(raw.s);
        var points := Get(d, "points");
        if name == [] || !IsPyInt(points) then Skip
        else Accept(Problem(name, PointsValue(points), Assignment(d)))
    case _ => Raise(NoAttributeMessage(item, "get"))
  }

  /** An accepted name has no surrounding whitespace left: it is its own strip, and it is never empty. */
  lemma AcceptedNameIsStripped(item: Value)
    requires CheckItem(item).Accept?
    ensures var n := CheckItem(item).problem.name;
      n != [] && Strip(n) == n && !IsSpace(n[0]) && !IsSpace(n[|n| - 1])
  {
    var n := CheckItem(item).problem.name;
    StripIdempotent(RawName(item.fields).s);
    StripShape(RawName(item.fields).s);
  }

  /** `True` is accepted as a point value and stored as 1, since `bool` is a subclass of `int`. */
  lemma BoolPointsAccepted(name: string)
    requires Strip(name) != []
    ensures CheckItem(Dict(map["name" := Str(name), "points" := Bool(true)]))
         == Accept(Problem(Strip(name), 1, Str("")))
  {
  }

  /** What the loop has produced after some prefix of the items: the batch and the skipped positions, or an exception. */
  datatype Scan = Scanned(created: seq<Problem>, skipped: seq<nat>) | Raised(message: string)

  /** The loop over `items`, item by item; the first exception ends it. */
  function ScanItems(items: seq<Value>): (r: Scan)
    ensures r.Scanned? ==> |r.created| + |r.skipped| == |items|
    decreases |items|
  {
    if items == [] then Scanned([], [])
    else
      var last := |items| - 1;
      match ScanItems(items[..last])
      case Raised(m) => Raised(m)
      case Scanned(created, skipped) =>
        match CheckItem(items[last])
        case Raise(m) => Raised(m)
        case Accept(p) => Scanned(created + [p], skipped)
        case Skip => Scanned(created, skipped + [last + 1])
  }

  /** The scan raises exactly when some item raises. */
  lemma {:induction false} ScanRaisesIffItemRaises(items: seq<Value>)
    ensures ScanItems(items).Scanned? <==> forall i :: 0 <= i < |items| ==> !CheckItem(items[i]).Raise?
    decreases |items|
  {
    if items != [] {
      var init := items[..|items| - 1];
      ScanRaisesIffItemRaises(init);
      assert forall i :: 0 <= i < |init| ==> init[i] == items[i];
    }
  }

  /** One more item adds its 1-based position to the skipped list exactly when it is invalid. */
  lemma ScanSkipsLast(items: seq<Value>)
    requires items != [] && ScanItems(items).Scanned?
    ensures ScanItems(items[..|items| - 1]).Scanned?
    ensures var before, skipped := ScanItems(items[..|items| - 1]).skipped, ScanItems(items).skipped;
      skipped == before || (skipped == before + [|items|] && CheckItem(items[|items| - 1]).Skip?)
  {
  }

  /** Every skipped position is a 1-based position of an invalid item. */
  lemma {:induction false} SkippedItemsAreInvalid(items: seq<Value>)
    requires ScanItems(items).Scanned?
    ensures var skipped := ScanItems(items).skipped;
      forall k :: 0 <= k < |skipped| ==> 1 <= skipped[k] <= |items| && CheckItem(items[skipped[k] - 1]).Skip?
    decreases |items|
  {
    if items != [] {
      var init := items[..|items| - 1];
      ScanSkipsLast(items);
      SkippedItemsAreInvalid(init);
      var before := ScanItems(init).skipped;
      var skipped := ScanItems(items).skipped;
      forall k | 0 <= k < |before|
        ensures 1 <= skipped[k] <= |items| && CheckItem(items[skipped[k] - 1]).Skip?
      {
        assert skipped[k] == before[k] && init[before[k] - 1] == items[before[k] - 1];
      }
    }
  }

  /** Every invalid item has its 1-based position reported as skipped. */
  lemma {:induction false} InvalidItemsAreSkipped(items: seq<Value>)
    requires ScanItems(items).Scanned?
    ensures forall i :: 0 <= i < |items| && CheckItem(items[i]).Skip? ==> i + 1 in ScanItems(items).skipped
    decreases |items|
  {
    if items != [] {
      var init := items[..|items| - 1];
      InvalidItemsAreSkipped(init);
      forall i | 0 <= i < |items| && CheckItem(items[i]).Skip?
        ensures i + 1 in ScanItems(items).skipped
      {
        if i < |init| {
          assert init[i] == items[i];
        }
      }
    }
  }

  /** The problems the valid items describe, in input order: the list comprehension the loop amounts to. */
  function AcceptedProblems(items: seq<Value>): seq<Problem>
    decreases |items|
  {
    if items == [] then [] else Taken(items[0]) + AcceptedProblems(items[1..])
  }

  /** The problem a valid item contributes, or nothing. */
  function Taken(item: Value): seq<Problem> {
    match CheckItem(item)
    case Accept(p) => [p]
    case _ => []
  }

  /** The 0-based input positions of the valid items. */
  function AcceptedPositions(items: seq<Value>): seq<nat>
    decreases |items|
  {
    if items == [] then []
    else
      var last := |items| - 1;
      AcceptedPositions(items[..last]) + (if CheckItem(items[last]).Accept? then [last] else [])
  }

  /** The valid positions are listed in increasing order, each within the list. */
  lemma {:induction false} AcceptedPositionsIncrease(items: seq<Value>)
    ensures forall k :: 0 <= k < |AcceptedPositions(items)| ==> AcceptedPositions(items)[k] < |items|
    ensures forall k, l :: 0 <= k < l < |AcceptedPositions(items)| ==>
              AcceptedPositions(items)[k] < AcceptedPositions(items)[l]
    decreases |items|
  {
    if items != [] {
      var last := |items| - 1;
      var init := items[..last];
      AcceptedPositionsIncrease(init);
      var before := AcceptedPositions(init);
      var ps := AcceptedPositions(items);
      assert ps == before + (if CheckItem(items[last]).Accept? then [last] else []);
      forall k | 0 <= k < |ps| ensures ps[k] <= last && (k < |before| ==> ps[k] == before[k] < last) {
        if k < |before| {
          assert ps[k] == before[k];
          assert before[k] < |init|;
        }
      }
    }
  }

  /** Every valid item's position is listed. */
  lemma {:induction false} AcceptedPositionsCover(items: seq<Value>)
    ensures forall i :: 0 <= i < |items| && CheckItem(items[i]).Accept? ==> i in AcceptedPositions(items)
    decreases |items|
  {
    if items != [] {
      var last := |items| - 1;
      var init := items[..last];
      AcceptedPositionsCover(init);
      forall i | 0 <= i < |items| && CheckItem(items[i]).Accept?
        ensures i in AcceptedPositions(items)
      {
        if i < last {
          assert init[i] == items[i];
        }
      }
    }
  }

  /**
   * `AcceptedProblems` takes exactly one problem from each valid item, in
   * input order: problem `k` is the one the item at the `k`-th valid
   * position describes.
   */
  lemma {:induction false} AcceptedInInputOrder(items: seq<Value>)
    ensures var ps := AcceptedPositions(items);
      var accepted := AcceptedProblems(items);
      && |ps| == |accepted| <= |items|
      && forall k :: 0 <= k < |ps| ==> ps[k] < |items| && CheckItem(items[ps[k]]) == Accept(accepted[k])
    decreases |items|
  {
    if items != [] {
      var last := |items| - 1;
      var init := items[..last];
      AcceptedInInputOrder(init);
      AcceptedPositionsIncrease(init);
      AcceptedProblemsSnoc(init, items[last]);
      assert init + [items[last]] == items;
      var before := AcceptedPositions(init);
      forall k | 0 <= k < |before| ensures CheckItem(items[before[k]]) == CheckItem(init[before[k]]) {
        assert init[before[k]] == items[before[k]];
      }
    }
  }

  /** Adding an item at the end adds its problem, if it is valid, at the end. */
  lemma {:induction false} AcceptedProblemsSnoc(items: seq<Value>, x: Value)
    ensures AcceptedProblems(items + [x]) == AcceptedProblems(items) + Taken(x)
    decreases |items|
  {
    var ix := items + [x];
    if items == [] {
      assert ix == [x] && ix[1..] == [];
    } else {
      assert ix[0] == items[0] && ix[1..] == items[1..] + [x];
      AcceptedProblemsSnoc(items[1..], x);
      var head, tail := Taken(items[0]), AcceptedProblems(items[1..]);
      calc {
        AcceptedProblems(ix);
        head + AcceptedProblems(items[1..] + [x]);
        head + (tail + Taken(x));
        (head + tail) + Taken(x);
      }
    }
  }

  /** A scan that raised nothing has queued exactly the valid items' problems, in input order. */
  lemma {:induction false} ScanCreatesAcceptedProblems(items: seq<Value>)
    requires ScanItems(items).Scanned?
    ensures ScanItems(items).created == AcceptedProblems(items)
    decreases |items|
  {
    if items != [] {
      var last := |items| - 1;
      var init := items[..last];
      ScanCreatesAcceptedProblems(init);
      AcceptedProblemsSnoc(init, items[last]);
      assert init + [items[last]] == items;
    }
  }

  /** What `handle` ends with. */
  datatype AddOutcome =
    | NothingToAdd
    | NoValidProblems(skipped: seq<nat>)
    | Added(problems: seq<Problem>, skipped: seq<nat>)
    | Failed(message: string)

  /**
   * `handle`: nothing for an empty or non-list `PROBLEMS`; otherwise the
   * items are scanned and the accepted ones created together, unless an
   * item raised, in which case nothing is created.
   */
  method Handle(problems: Value) returns (r: AddOutcome)
    ensures !problems.List? || |problems.items| == 0 ==> r == NothingToAdd
    ensures problems.List? && |problems.items| > 0 ==>
              match ScanItems(problems.items)
              case Raised(m) => r == Failed(m)
              case Scanned(created, skipped) =>
                if created == [] then r == NoValidProblems(skipped) else r == Added(created, skipped)
    ensures r.Added? ==> 0 < |r.problems| <= |problems.items|
    ensures r.Added? ==> r.problems == AcceptedProblems(problems.items)
    ensures r.NoValidProblems? ==> AcceptedProblems(problems.items) == []
  {
    if !problems.List? || |problems.items| == 0 {
      return NothingToAdd;
    }
    var items := problems.items;
    var instances: seq<Problem> := [];
    var skipped: seq<nat> := [];
    for i := 0 to |items|
      invariant ScanItems(items[..i]) == Scanned(instances, skipped)
    {
      assert items[..i + 1][..i] == items[..i];
      match CheckItem(items[i])
      case Raise(m) =>
        assert items[..i + 1][i] == items[i];
        assert !ScanItems(items[..i + 1]).Scanned?;
        ScanStopsAtRaise(items, i + 1);
        return Failed(m);
      case Accept(p) =>
        instances := instances + [p];
      case Skip =>
        skipped := skipped + [i + 1];
    }
    assert items[..|items|] == items;
    ScanCreatesAcceptedProblems(items);
    if instances == [] {
      return NoValidProblems(skipped);
    }
    return Added(instances, skipped);
  }

  /** An exception in a prefix is the exception of the whole scan. */
  lemma {:induction false} ScanStopsAtRaise(items: seq<Value>, n: nat)
    requires n <= |items|
    requires ScanItems(items[..n]).Raised?
    ensures ScanItems(items) == ScanItems(items[..n])
    decreases |items| - n
  {
    if n < |items| {
      var m := |items| - 1;
      assert items[..m][..n] == items[..n];
      ScanStopsAtRaise(items[..m], n);
      assert ScanItems(items[..m]).Raised?;
    } else {
      assert items[..n] == items;
    }
  }
}
