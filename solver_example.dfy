/**
 * The planner's unit-test scenario (src/solvers/naive_solver.rs): one
 * material, a free 8 m piece limited to one, an unlimited 8 m piece at 3.5,
 * three 3 m parts and one 1.5 m part, no blade width. The plan uses the
 * free piece for two 3 m parts and the 1.5 m part and one bought piece for
 * the third 3 m part, so the total price is 3.5.
 */
module SolverExample {
  import opened Wrappers
  import opened Sizes
  import opened Modeling
  import opened Aggregation
  import opened NaiveSolver

  const PineMaterial: Material := Material("Pine 2x4", OneD)
  const ExampleSupplies: seq<Supply> :=
    [Supply("", FromMeters(8.0), 0.0, 1), Supply("", FromMeters(8.0), 3.5, Unlimited)]
  const ExampleParts: seq<Part> := [Part("", FromMeters(3.0), 3), Part("", FromMeters(1.5), 1)]
  const ExampleProblem: SubProblem := SubProblem(ExampleSupplies, ExampleParts, FromMeters(0.0))
  const ExpectedCutLists: seq<CutList> := [CutList(0, [0, 0, 1], 1), CutList(1, [0], 1)]

  lemma ExampleCheapest(used: seq<int>, len: real, b: nat)
    requires |used| == 2 && b < 2 && 0.0 < len <= 8.0
    requires used[0] < 1 <==> b == 0
    ensures Cheapest(ExampleSupplies, used, len) == Some(b)
  {
    var r := Cheapest(ExampleSupplies, used, len);
    assert Eligible(ExampleSupplies[1], used[1], len);
    if used[0] < 1 {
      assert Eligible(ExampleSupplies[0], used[0], len);
    }
  }

  /** The plan once the three 3 m parts are placed. */
  const AfterFirstPart: Plan := Plan([CutList(0, [0, 0], 1), CutList(1, [0], 1)], [1, 1], [2.0, 5.0])

  /** The three 3 m parts: the free piece twice, then a bought piece. */
  lemma ExampleFirstPart()
    ensures PlaceParts(Start(ExampleProblem), ExampleProblem, 0) == PlaceParts(AfterFirstPart, ExampleProblem, 1)
  {
    var sp := ExampleProblem;
    var p0 := Start(sp);
    assert p0 == Plan([], [0, 0], []);
    ExampleCheapest([0, 0], 3.0, 0);
    OpenStep(p0, sp, 0, 0);
    var p1 := Open(p0, sp, 0, 0);
    assert p1 == Plan([CutList(0, [0], 1)], [1, 0], [5.0]);
    assert FirstFit(p1.partials, 3.0) == Some(0);
    ReuseStep(p1, sp, 0, 0);
    var p2 := Reuse(p1, sp, 0, 0);
    assert [0] + [0] == [0, 0];
    assert p2 == Plan([CutList(0, [0, 0], 1)], [1, 0], [2.0]);
    // the free piece is used up
    assert FirstFit(p2.partials, 3.0) == None;
    ExampleCheapest([1, 0], 3.0, 1);
    OpenStep(p2, sp, 0, 1);
    assert Open(p2, sp, 0, 1) == AfterFirstPart;
    ResumeStep(p0, sp, 0, 3, p1);
    ResumeStep(p1, sp, 0, 2, p2);
    ResumeStep(p2, sp, 0, 1, AfterFirstPart);
  }

  /** The plan the greedy pass builds: the 1.5 m part goes into what is left of the free piece. */
  lemma ExampleGreedy()
    ensures Greedy(ExampleProblem) == Ok(SubSolution(ExpectedCutLists, ExampleSupplies, ExampleParts))
  {
    var sp := ExampleProblem;
    ExampleFirstPart();
    var p3 := AfterFirstPart;
    assert FirstFit(p3.partials, 1.5) == Some(0);
    ReuseStep(p3, sp, 1, 0);
    var p4 := Reuse(p3, sp, 1, 0);
    assert [0, 0] + [1] == [0, 0, 1];
    assert p4 == Plan(ExpectedCutLists, [1, 1], [0.5, 5.0]);
    ResumeStep(p3, sp, 1, 1, p4);
    assert PlaceParts(p3, sp, 1) == PlaceParts(p4, sp, 2);
  }

  /** The test's assertion: the single-material solution costs 3.5. */
  lemma ExampleTotalPrice()
    ensures Greedy(ExampleProblem).Ok?
    ensures var solution := map[PineMaterial := Greedy(ExampleProblem).value];
            SolutionInRange(solution) && TotalPrice(solution) == 3.5
  {
    ExampleGreedy();
    var sub := SubSolution(ExpectedCutLists, ExampleSupplies, ExampleParts);
    var solution := map[PineMaterial := sub];
    assert Cost(ExampleSupplies, ExpectedCutLists[..1]) == 0.0 by {
      assert ExpectedCutLists[..1][..0] == [];
    }
    assert Cost(ExampleSupplies, ExpectedCutLists) == 3.5 by {
      assert ExpectedCutLists[..|ExpectedCutLists| - 1] == ExpectedCutLists[..1];
    }
    var totals := SubTotals(solution);
    assert totals == map[PineMaterial := 3.5];
    SumValuesRemove(totals, PineMaterial);
    assert totals - {PineMaterial} == map[];
  }
}
