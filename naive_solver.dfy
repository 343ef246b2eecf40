/**
 * The greedy cut-list planner (src/solvers/naive_solver.rs). Parts are
 * placed one unit at a time, in input order: first into the earliest opened
 * piece with enough length left, otherwise into a new piece of the cheapest
 * supply that is long enough and not used up.
 *
 * `Greedy` is the planner as a function; `SolveSubProblem` is the source's
 * loop nest, proved to compute exactly `Greedy`. The lemmas below prove what
 * every successful plan satisfies.
 */
module NaiveSolver {
  import opened Wrappers
  import opened Sizes
  import opened Modeling
  import opened Aggregation

  const InsufficientSize: string := "No materials available with sufficient size"

  /** How many times `for _ in 0..quantity` runs. */
  function Units(quantity: int): (n: nat)
    ensures quantity >= 0 ==> n == quantity
    ensures quantity < 0 ==> n == 0
  {
    if quantity < 0 then 0 else quantity
  }

  /**
   * The planner's three parallel vectors: the cut lists opened so far, the
   * number of pieces taken from each supply, and the length still usable in
   * each opened piece.
   */
  datatype Plan = Plan(cutLists: seq<CutList>, consumption: seq<int>, partials: seq<real>)

  predicate Shaped(plan: Plan, sp: SubProblem)
  {
    |plan.partials| == |plan.cutLists| && |plan.consumption| == |sp.supplies|
  }

  function Start(sp: SubProblem): (plan: Plan)
    ensures Shaped(plan, sp)
  {
    Plan([], seq(|sp.supplies|, _ => 0), [])
  }

  // ----- first fit among the opened pieces -----

  function FirstFitFrom(partials: seq<real>, len: real, j: nat): (r: Option<nat>)
    ensures r.Some? ==> j <= r.value < |partials| && len <= partials[r.value]
                        && forall k :: j <= k < r.value ==> partials[k] < len
    ensures r.None? ==> forall k :: j <= k < |partials| ==> partials[k] < len
    decreases |partials| - j
  {
    if j >= |partials| then None
    else if len <= partials[j] then Some(j)
    else FirstFitFrom(partials, len, j + 1)
  }

  /** The lowest-indexed opened piece with at least `len` left, if any. */
  function FirstFit(partials: seq<real>, len: real): (r: Option<nat>)
    ensures r.Some? ==> r.value < |partials| && len <= partials[r.value]
                        && forall k :: 0 <= k < r.value ==> partials[k] < len
    ensures r.None? <==> forall k :: 0 <= k < |partials| ==> partials[k] < len
  {
    FirstFitFrom(partials, len, 0)
  }

  // ----- cheapest eligible supply -----

  /** Long enough, and under its limit unless the limit is the unlimited sentinel. */
  predicate Eligible(supply: Supply, used: int, len: real)
  {
    len <= ToMeters(supply.length) && (used < supply.maxQuantity || supply.maxQuantity == Unlimited)
  }

  /**
   * `best` is the eligible supply of strictly lowest price among the first
   * `n`, the earliest one on a tie; `None` when none of them is eligible.
   */
  predicate CheapestAmong(supplies: seq<Supply>, used: seq<int>, len: real, n: nat, best: Option<nat>)
    requires |used| == |supplies| && n <= |supplies|
  {
    match best
    case None => forall k :: 0 <= k < n ==> !Eligible(supplies[k], used[k], len)
    case Some(b) =>
      && b < n
      && Eligible(supplies[b], used[b], len)
      && (forall k :: 0 <= k < n && Eligible(supplies[k], used[k], len) ==> supplies[b].price <= supplies[k].price)
      && (forall k :: 0 <= k < b && Eligible(supplies[k], used[k], len) ==> supplies[b].price < supplies[k].price)
  }

  /** The scan over the supplies, `best` being the choice so far. */
  function CheapestFrom(supplies: seq<Supply>, used: seq<int>, len: real, k: nat, best: Option<nat>): Option<nat>
    requires |used| == |supplies| && k <= |supplies|
    requires best.Some? ==> best.value < |supplies|
    decreases |supplies| - k
  {
    if k == |supplies| then best
    else
      var better := Eligible(supplies[k], used[k], len)
                    && (best.None? || supplies[k].price < supplies[best.value].price);
      CheapestFrom(supplies, used, len, k + 1, if better then Some(k) else best)
  }

  lemma {:induction false} CheapestFromCorrect(supplies: seq<Supply>, used: seq<int>, len: real, k: nat, best: Option<nat>)
    requires |used| == |supplies| && k <= |supplies|
    requires CheapestAmong(supplies, used, len, k, best)
    ensures CheapestAmong(supplies, used, len, |supplies|, CheapestFrom(supplies, used, len, k, best))
    decreases |supplies| - k
  {
    if k < |supplies| {
      var better := Eligible(supplies[k], used[k], len)
                    && (best.None? || supplies[k].price < supplies[best.value].price);
      CheapestFromCorrect(supplies, used, len, k + 1, if better then Some(k) else best);
    }
  }

  /** The supply a new piece is taken from, if any is eligible. */
  function Cheapest(supplies: seq<Supply>, used: seq<int>, len: real): (r: Option<nat>)
    requires |used| == |supplies|
    ensures CheapestAmong(supplies, used, len, |supplies|, r)
  {
    CheapestFromCorrect(supplies, used, len, 0, None);
    CheapestFrom(supplies, used, len, 0, None)
  }

  // ----- the greedy plan -----

  predicate SomeFits(plan: Plan, len: real)
  {
    exists j :: 0 <= j < |plan.partials| && len <= plan.partials[j]
  }

  /** Part `i` goes into the opened piece `j`: one more index, one part and one blade less left. */
  function Reuse(plan: Plan, sp: SubProblem, i: nat, j: nat): (r: Plan)
    requires Shaped(plan, sp) && i < |sp.parts| && j < |plan.cutLists|
    ensures Shaped(r, sp)
  {
    var cutList := plan.cutLists[j];
    Plan(plan.cutLists[j := cutList.(partIndices := cutList.partIndices + [i])],
         plan.consumption,
         plan.partials[j := plan.partials[j] - (ToMeters(sp.parts[i].length) + ToMeters(sp.bladeWidth))])
  }

  /** Part `i` opens a new piece of supply `b`. */
  function Open(plan: Plan, sp: SubProblem, i: nat, b: nat): (r: Plan)
    requires Shaped(plan, sp) && i < |sp.parts| && b < |sp.supplies|
    ensures Shaped(r, sp)
  {
    Plan(plan.cutLists + [CutList(b, [i], 1)],
         plan.consumption[b := plan.consumption[b] + 1],
         plan.partials + [ToMeters(sp.supplies[b].length) - ToMeters(sp.parts[i].length) - ToMeters(sp.bladeWidth)])
  }

  /**
   * One unit of part `i`: reuse the first opened piece it fits in, else
   * open a piece of the cheapest eligible supply, else fail.
   */
  function PlaceUnit(plan: Plan, sp: SubProblem, i: nat): (r: Option<Plan>)
    requires Shaped(plan, sp) && i < |sp.parts|
    ensures r.Some? ==> Shaped(r.value, sp)
  {
    var len := ToMeters(sp.parts[i].length);
    match FirstFit(plan.partials, len)
    case Some(j) => Some(Reuse(plan, sp, i, j))
    case None =>
      match Cheapest(sp.supplies, plan.consumption, len)
      case None => None
      case Some(b) => Some(Open(plan, sp, i, b))
  }

  /**
   * A unit fails to be placed exactly when no opened piece has room and no
   * supply is eligible; a new piece is opened exactly when no opened piece
   * has room.
   */
  lemma PlaceUnitChoice(plan: Plan, sp: SubProblem, i: nat)
    requires Shaped(plan, sp) && i < |sp.parts|
    ensures var len := ToMeters(sp.parts[i].length);
            var r := PlaceUnit(plan, sp, i);
            && (r.None? <==> !SomeFits(plan, len)
                             && forall s :: 0 <= s < |sp.supplies| ==> !Eligible(sp.supplies[s], plan.consumption[s], len))
            && (r.Some? ==> |r.value.cutLists| == |plan.cutLists| + (if SomeFits(plan, len) then 0 else 1))
  {
  }

  /** `n` more units of part `i`. */
  function PlaceUnits(plan: Plan, sp: SubProblem, i: nat, n: nat): (r: Option<Plan>)
    requires Shaped(plan, sp) && i < |sp.parts|
    ensures r.Some? ==> Shaped(r.value, sp)
    decreases n
  {
    if n == 0 then Some(plan)
    else
      match PlaceUnit(plan, sp, i)
      case None => None
      case Some(next) => PlaceUnits(next, sp, i, n - 1)
  }

  /** Every unit of the parts from `i` on. */
  function PlaceParts(plan: Plan, sp: SubProblem, i: nat): (r: Option<Plan>)
    requires Shaped(plan, sp) && i <= |sp.parts|
    ensures r.Some? ==> Shaped(r.value, sp)
    decreases |sp.parts| - i
  {
    if i == |sp.parts| then Some(plan)
    else Resume(plan, sp, i, Units(sp.parts[i].quantity))
  }

  /** `n` more units of part `i`, then the parts after it. */
  function Resume(plan: Plan, sp: SubProblem, i: nat, n: nat): (r: Option<Plan>)
    requires Shaped(plan, sp) && i < |sp.parts|
    ensures r.Some? ==> Shaped(r.value, sp)
    decreases |sp.parts| - i, 0
  {
    match PlaceUnits(plan, sp, i, n)
    case None => None
    case Some(next) => PlaceParts(next, sp, i + 1)
  }

  /** The planner's result for one sub-problem. */
  function Greedy(sp: SubProblem): (r: Result<SubSolution, string>)
    ensures r.Ok? ==> r.value.supplies == sp.supplies && r.value.parts == sp.parts
    ensures r.Err? ==> r.error == InsufficientSize
  {
    match PlaceParts(Start(sp), sp, 0)
    case None => Err(InsufficientSize)
    case Some(plan) => Ok(SubSolution(plan.cutLists, sp.supplies, sp.parts))
  }

  // ----- the source's loop nest -----

  lemma ReuseStep(plan: Plan, sp: SubProblem, i: nat, j: nat)
    requires Shaped(plan, sp) && i < |sp.parts|
    requires FirstFit(plan.partials, ToMeters(sp.parts[i].length)) == Some(j)
    ensures PlaceUnit(plan, sp, i) == Some(Reuse(plan, sp, i, j))
  {
  }

  lemma OpenStep(plan: Plan, sp: SubProblem, i: nat, b: nat)
    requires Shaped(plan, sp) && i < |sp.parts|
    requires FirstFit(plan.partials, ToMeters(sp.parts[i].length)).None?
    requires Cheapest(sp.supplies, plan.consumption, ToMeters(sp.parts[i].length)) == Some(b)
    ensures PlaceUnit(plan, sp, i) == Some(Open(plan, sp, i, b))
  {
  }

  lemma ResumeStep(plan: Plan, sp: SubProblem, i: nat, m: nat, next: Plan)
    requires Shaped(plan, sp) && i < |sp.parts| && m > 0
    requires PlaceUnit(plan, sp, i) == Some(next)
    ensures Resume(plan, sp, i, m) == Resume(next, sp, i, m - 1)
  {
  }

  lemma ResumeFail(plan: Plan, sp: SubProblem, i: nat, m: nat)
    requires Shaped(plan, sp) && i < |sp.parts| && m > 0
    requires PlaceUnit(plan, sp, i).None?
    ensures Resume(plan, sp, i, m) == None
  {
  }

  /** The scan over the opened pieces: the first one with `len` left. */
  method FindReusable(partials: seq<real>, len: real) returns (r: Option<nat>)
    ensures r == FirstFit(partials, len)
  {
    var j := 0;
    while j < |partials|
      invariant 0 <= j <= |partials|
      invariant FirstFitFrom(partials, len, j) == FirstFit(partials, len)
      decreases |partials| - j
    {
      if len <= partials[j] {
        return Some(j);
      }
      j := j + 1;
    }
    return None;
  }

  /** The scan over the supplies: the cheapest eligible one, the earliest on a tie. */
  method FindCheapest(supplies: seq<Supply>, consumption: array<int>, len: real) returns (r: Option<nat>)
    requires consumption.Length == |supplies|
    ensures r == Cheapest(supplies, consumption[..], len)
  {
    var bestSupply := 0;
    var found := false;
    var bestPrice := 0.0;
    for k := 0 to |supplies|
      invariant found ==> bestSupply < k && bestPrice == supplies[bestSupply].price
      invariant Cheapest(supplies, consumption[..], len)
                == CheapestFrom(supplies, consumption[..], len, k, if found then Some(bestSupply) else None)
    {
      var supply := supplies[k];
      if len <= ToMeters(supply.length)
         && (consumption[k] < supply.maxQuantity || supply.maxQuantity == Unlimited)
         && (!found || supply.price < bestPrice)
      {
        bestSupply := k;
        bestPrice := supply.price;
        found := true;
      }
    }
    r := if found then Some(bestSupply) else None;
  }

  /**
   * One pass of the source's unit loop: reuse the first opened piece with
   * room, else open a piece of the cheapest eligible supply; `ok` is false
   * when neither is possible.
   */
  method PlaceOne(sp: SubProblem, i: nat, cutLists: seq<CutList>, consumption: array<int>, partials: seq<real>)
    returns (ok: bool, cutLists': seq<CutList>, partials': seq<real>)
    requires i < |sp.parts| && consumption.Length == |sp.supplies| && |partials| == |cutLists|
    modifies consumption
    ensures ok <==> PlaceUnit(Plan(cutLists, old(consumption[..]), partials), sp, i).Some?
    ensures ok ==> PlaceUnit(Plan(cutLists, old(consumption[..]), partials), sp, i)
                   == Some(Plan(cutLists', consumption[..], partials'))
    ensures !ok ==> consumption[..] == old(consumption[..]) && cutLists' == cutLists && partials' == partials
  {
    ghost var before := Plan(cutLists, consumption[..], partials);
    var len := ToMeters(sp.parts[i].length);
    var blade := ToMeters(sp.bladeWidth);
    // Prefer a piece that is already in the cut list
    var fit := FindReusable(partials, len);
    if fit.Some? {
      var j := fit.value;
      ReuseStep(before, sp, i, j);
      cutLists' := cutLists[j := cutLists[j].(partIndices := cutLists[j].partIndices + [i])];
      partials' := partials[j := partials[j] - (len + blade)];
      return true, cutLists', partials';
    }
    // Otherwise the cheapest supply that is long enough
    var best := FindCheapest(sp.supplies, consumption, len);
    if best.None? {
      return false, cutLists, partials;
    }
    var b := best.value;
    OpenStep(before, sp, i, b);
    cutLists' := cutLists + [CutList(b, [i], 1)];
    consumption[b] := consumption[b] + 1;
    assert consumption[..] == before.consumption[b := before.consumption[b] + 1];
    partials' := partials + [ToMeters(sp.supplies[b].length) - len - blade];
    ok := true;
  }

  /** `NaiveSolver::solve_sub_problem` without the progress messages. */
  method SolveSubProblem(sp: SubProblem) returns (r: Result<SubSolution, string>)
    ensures r == Greedy(sp)
  {
    var cutLists: seq<CutList> := [];
    var consumption := new int[|sp.supplies|](_ => 0);
    var partials: seq<real> := [];
    assert consumption[..] == Start(sp).consumption;

    for i := 0 to |sp.parts|
      invariant consumption.Length == |sp.supplies| && |partials| == |cutLists|
      invariant PlaceParts(Start(sp), sp, 0) == PlaceParts(Plan(cutLists, consumption[..], partials), sp, i)
    {
      var part := sp.parts[i];
      for u := 0 to Units(part.quantity)
        invariant consumption.Length == |sp.supplies| && |partials| == |cutLists|
        invariant PlaceParts(Start(sp), sp, 0) == Resume(Plan(cutLists, consumption[..], partials), sp, i, Units(part.quantity) - u)
      {
        ghost var before := Plan(cutLists, consumption[..], partials);
        var ok;
        ok, cutLists, partials := PlaceOne(sp, i, cutLists, consumption, partials);
        if !ok {
          ResumeFail(before, sp, i, Units(part.quantity) - u);
          return Err(InsufficientSize);
        }
        ResumeStep(before, sp, i, Units(part.quantity) - u, Plan(cutLists, consumption[..], partials));
      }
    }
    r := Ok(SubSolution(cutLists, sp.supplies, sp.parts));
  }

  // ----- what a plan satisfies -----

  /** Total length of the parts `indices` refer to. */
  function PartsLength(parts: seq<Part>, indices: seq<nat>): real
    requires forall k :: 0 <= k < |indices| ==> indices[k] < |parts|
  {
    if indices == [] then 0.0
    else PartsLength(parts, indices[..|indices| - 1]) + ToMeters(parts[indices[|indices| - 1]].length)
  }

  /** How many units of part `p` the cut lists cut, each list counted `quantity` times. */
  function Occurrences(cutLists: seq<CutList>, p: nat): nat
  {
    if cutLists == [] then 0
    else
      var last := cutLists[|cutLists| - 1];
      Occurrences(cutLists[..|cutLists| - 1], p) + last.quantity * multiset(last.partIndices)[p]
  }

  predicate NonDecreasing(s: seq<nat>)
  {
    forall a, b :: 0 <= a < b < |s| ==> s[a] <= s[b]
  }

  /**
   * The parts of a cut list, with one blade width between neighbours, fit
   * in its supply.
   */
  predicate Fits(sp: SubProblem, cutList: CutList)
    requires cutList.supplyIndex < |sp.supplies|
    requires forall k :: 0 <= k < |cutList.partIndices| ==> cutList.partIndices[k] < |sp.parts|
  {
    PartsLength(sp.parts, cutList.partIndices) + (|cutList.partIndices| - 1) as real * ToMeters(sp.bladeWidth)
      <= ToMeters(sp.supplies[cutList.supplyIndex].length)
  }

  predicate WellFormedCutList(sp: SubProblem, cutList: CutList)
  {
    && cutList.quantity == 1
    && cutList.supplyIndex < |sp.supplies|
    && cutList.partIndices != []
    && (forall k :: 0 <= k < |cutList.partIndices| ==> cutList.partIndices[k] < |sp.parts|)
    && NonDecreasing(cutList.partIndices)
    && Fits(sp, cutList)
  }

  /** A used supply stays within its `max_quantity`, unless that is the unlimited sentinel. */
  predicate WithinLimit(supply: Supply, used: int)
  {
    used > 0 ==> supply.maxQuantity == Unlimited || used <= supply.maxQuantity
  }

  /** What every successful plan promises. */
  predicate Satisfies(sp: SubProblem, sol: SubSolution)
  {
    && sol.supplies == sp.supplies
    && sol.parts == sp.parts
    && (forall j :: 0 <= j < |sol.cutLists| ==> WellFormedCutList(sp, sol.cutLists[j]))
    && (forall p :: 0 <= p < |sp.parts| ==> Occurrences(sol.cutLists, p) == Units(sp.parts[p].quantity))
    && (forall s :: 0 <= s < |sp.supplies| ==> WithinLimit(sp.supplies[s], Consumed(sol.cutLists, s)))
  }

  /** Units of part `p` placed once `placed` units of part `i` are. */
  function Demanded(sp: SubProblem, i: nat, placed: nat, p: nat): nat
    requires p < |sp.parts|
  {
    if p < i then Units(sp.parts[p].quantity) else if p == i then placed else 0
  }

  /** An opened piece during planning: `partial` is what it has left. */
  predicate OpenPiece(sp: SubProblem, i: nat, cutList: CutList, partial: real)
  {
    && cutList.quantity == 1
    && cutList.supplyIndex < |sp.supplies|
    && cutList.partIndices != []
    && (forall k :: 0 <= k < |cutList.partIndices| ==> cutList.partIndices[k] < |sp.parts| && cutList.partIndices[k] <= i)
    && NonDecreasing(cutList.partIndices)
    && partial == ToMeters(sp.supplies[cutList.supplyIndex].length) - CutLength(sp, cutList.partIndices)
    && partial >= -ToMeters(sp.bladeWidth)
  }

  /** Length taken by cutting the parts `indices` refer to: each part and one blade width. */
  function CutLength(sp: SubProblem, indices: seq<nat>): real
    requires forall k :: 0 <= k < |indices| ==> indices[k] < |sp.parts|
  {
    if indices == [] then 0.0
    else CutLength(sp, indices[..|indices| - 1]) + ToMeters(sp.parts[indices[|indices| - 1]].length) + ToMeters(sp.bladeWidth)
  }

  lemma CutLengthAppend(sp: SubProblem, indices: seq<nat>, i: nat)
    requires i < |sp.parts|
    requires forall k :: 0 <= k < |indices| ==> indices[k] < |sp.parts|
    ensures CutLength(sp, indices + [i]) == CutLength(sp, indices) + ToMeters(sp.parts[i].length) + ToMeters(sp.bladeWidth)
  {
    assert (indices + [i])[..|indices|] == indices;
  }

  /** The cut length is the parts' length and one blade width per part. */
  lemma {:induction false} CutLengthSum(sp: SubProblem, indices: seq<nat>)
    requires forall k :: 0 <= k < |indices| ==> indices[k] < |sp.parts|
    ensures CutLength(sp, indices) == PartsLength(sp.parts, indices) + |indices| as real * ToMeters(sp.bladeWidth)
  {
    if indices != [] {
      var init := indices[..|indices| - 1];
      CutLengthSum(sp, init);
      var blade := ToMeters(sp.bladeWidth);
      assert |indices| as real * blade == |init| as real * blade + blade by {
        assert |indices| as real == |init| as real + 1.0;
      }
    }
  }

  /** A finished opened piece fits its supply. */
  lemma OpenPieceFits(sp: SubProblem, i: nat, cutList: CutList, partial: real)
    requires OpenPiece(sp, i, cutList, partial)
    ensures WellFormedCutList(sp, cutList)
  {
    CutLengthSum(sp, cutList.partIndices);
    var blade := ToMeters(sp.bladeWidth);
    var n := |cutList.partIndices|;
    assert (n - 1) as real * blade == n as real * blade - blade by {
      assert (n - 1) as real == n as real - 1.0;
    }
  }

  predicate PiecesOpen(plan: Plan, sp: SubProblem, i: nat)
    requires Shaped(plan, sp)
  {
    forall j :: 0 <= j < |plan.cutLists| ==> OpenPiece(sp, i, plan.cutLists[j], plan.partials[j])
  }

  /** The consumption counters count the opened pieces, and respect the limits. */
  predicate Counted(plan: Plan, sp: SubProblem)
    requires Shaped(plan, sp)
  {
    forall s :: 0 <= s < |sp.supplies| ==>
      plan.consumption[s] == Consumed(plan.cutLists, s) && WithinLimit(sp.supplies[s], plan.consumption[s])
  }

  predicate Placed(plan: Plan, sp: SubProblem, i: nat, placed: nat)
  {
    forall p :: 0 <= p < |sp.parts| ==> Occurrences(plan.cutLists, p) == Demanded(sp, i, placed, p)
  }

  /** The planner's invariant, after `placed` units of part `i`. */
  predicate PlanInvariant(plan: Plan, sp: SubProblem, i: nat, placed: nat)
  {
    Shaped(plan, sp) && PiecesOpen(plan, sp, i) && Counted(plan, sp) && Placed(plan, sp, i, placed)
  }

  lemma {:induction false} ConsumedUpdate(cutLists: seq<CutList>, j: nat, c: CutList, s: nat)
    requires j < |cutLists|
    requires c.supplyIndex == cutLists[j].supplyIndex && c.quantity == cutLists[j].quantity
    ensures Consumed(cutLists[j := c], s) == Consumed(cutLists, s)
  {
    var n := |cutLists|;
    if j < n - 1 {
      assert cutLists[j := c][..n - 1] == cutLists[..n - 1][j := c];
      ConsumedUpdate(cutLists[..n - 1], j, c, s);
    } else {
      assert cutLists[j := c][..n - 1] == cutLists[..n - 1];
    }
  }

  lemma {:induction false} OccurrencesUpdate(cutLists: seq<CutList>, j: nat, c: CutList, p: nat)
    requires j < |cutLists|
    ensures Occurrences(cutLists[j := c], p) + cutLists[j].quantity * multiset(cutLists[j].partIndices)[p]
            == Occurrences(cutLists, p) + c.quantity * multiset(c.partIndices)[p]
  {
    var n := |cutLists|;
    if j < n - 1 {
      assert cutLists[j := c][..n - 1] == cutLists[..n - 1][j := c];
      OccurrencesUpdate(cutLists[..n - 1], j, c, p);
    } else {
      assert cutLists[j := c][..n - 1] == cutLists[..n - 1];
    }
  }

  lemma OccurrencesAppend(cutLists: seq<CutList>, c: CutList, p: nat)
    ensures Occurrences(cutLists + [c], p) == Occurrences(cutLists, p) + c.quantity * multiset(c.partIndices)[p]
  {
    assert (cutLists + [c])[..|cutLists|] == cutLists;
  }

  lemma ConsumedAppend(cutLists: seq<CutList>, c: CutList, s: nat)
    ensures Consumed(cutLists + [c], s) == Consumed(cutLists, s) + (if c.supplyIndex == s then c.quantity else 0)
  {
    assert (cutLists + [c])[..|cutLists|] == cutLists;
  }

  lemma {:induction false} StartInvariant(sp: SubProblem)
    ensures PlanInvariant(Start(sp), sp, 0, 0)
  {
  }

  lemma NonDecreasingAppend(s: seq<nat>, x: nat)
    requires NonDecreasing(s) && forall k :: 0 <= k < |s| ==> s[k] <= x
    ensures NonDecreasing(s + [x])
  {
  }

  /** A piece with room for part `i` is still an opened piece once `i` is cut from it. */
  lemma ExtendPiece(sp: SubProblem, i: nat, c: CutList, partial: real)
    requires i < |sp.parts| && OpenPiece(sp, i, c, partial) && ToMeters(sp.parts[i].length) <= partial
    ensures OpenPiece(sp, i, c.(partIndices := c.partIndices + [i]),
                      partial - (ToMeters(sp.parts[i].length) + ToMeters(sp.bladeWidth)))
  {
    CutLengthAppend(sp, c.partIndices, i);
    NonDecreasingAppend(c.partIndices, i);
  }

  lemma ReusePieces(plan: Plan, sp: SubProblem, i: nat, j: nat)
    requires Shaped(plan, sp) && i < |sp.parts| && j < |plan.cutLists|
    requires PiecesOpen(plan, sp, i) && ToMeters(sp.parts[i].length) <= plan.partials[j]
    ensures PiecesOpen(Reuse(plan, sp, i, j), sp, i)
  {
    var next := Reuse(plan, sp, i, j);
    forall k | 0 <= k < |next.cutLists|
      ensures OpenPiece(sp, i, next.cutLists[k], next.partials[k])
    {
      if k == j {
        ExtendPiece(sp, i, plan.cutLists[j], plan.partials[j]);
      } else {
        assert next.cutLists[k] == plan.cutLists[k] && next.partials[k] == plan.partials[k];
      }
    }
  }

  lemma ReuseCounted(plan: Plan, sp: SubProblem, i: nat, j: nat)
    requires Shaped(plan, sp) && i < |sp.parts| && j < |plan.cutLists|
    requires Counted(plan, sp)
    ensures Counted(Reuse(plan, sp, i, j), sp)
  {
    var next := Reuse(plan, sp, i, j);
    forall s | 0 <= s < |sp.supplies|
      ensures next.consumption[s] == Consumed(next.cutLists, s)
    {
      ConsumedUpdate(plan.cutLists, j, next.cutLists[j], s);
    }
  }

  lemma ReusePlaced(plan: Plan, sp: SubProblem, i: nat, placed: nat, j: nat)
    requires Shaped(plan, sp) && i < |sp.parts| && j < |plan.cutLists|
    requires Placed(plan, sp, i, placed) && plan.cutLists[j].quantity == 1
    ensures Placed(Reuse(plan, sp, i, j), sp, i, placed + 1)
  {
    var next := Reuse(plan, sp, i, j);
    var c := plan.cutLists[j];
    var c' := next.cutLists[j];
    assert next.cutLists == plan.cutLists[j := c'];
    forall p | 0 <= p < |sp.parts|
      ensures Occurrences(next.cutLists, p) == Demanded(sp, i, placed + 1, p)
    {
      OccurrencesUpdate(plan.cutLists, j, c', p);
      assert multiset(c'.partIndices)[p] == multiset(c.partIndices)[p] + (if p == i then 1 else 0);
    }
  }

  lemma OpenPieces(plan: Plan, sp: SubProblem, i: nat, b: nat)
    requires Shaped(plan, sp) && i < |sp.parts| && b < |sp.supplies|
    requires PiecesOpen(plan, sp, i) && ToMeters(sp.parts[i].length) <= ToMeters(sp.supplies[b].length)
    ensures PiecesOpen(Open(plan, sp, i, b), sp, i)
  {
    var next := Open(plan, sp, i, b);
    CutLengthAppend(sp, [], i);
    assert [] + [i] == [i];
    assert OpenPiece(sp, i, next.cutLists[|plan.cutLists|], next.partials[|plan.cutLists|]);
  }

  lemma OpenCounted(plan: Plan, sp: SubProblem, i: nat, b: nat)
    requires Shaped(plan, sp) && i < |sp.parts| && b < |sp.supplies|
    requires Counted(plan, sp) && Eligible(sp.supplies[b], plan.consumption[b], ToMeters(sp.parts[i].length))
    ensures Counted(Open(plan, sp, i, b), sp)
  {
    var next := Open(plan, sp, i, b);
    forall s | 0 <= s < |sp.supplies|
      ensures next.consumption[s] == Consumed(next.cutLists, s) && WithinLimit(sp.supplies[s], next.consumption[s])
    {
      ConsumedAppend(plan.cutLists, CutList(b, [i], 1), s);
    }
  }

  lemma OpenPlaced(plan: Plan, sp: SubProblem, i: nat, placed: nat, b: nat)
    requires Shaped(plan, sp) && i < |sp.parts| && b < |sp.supplies|
    requires Placed(plan, sp, i, placed)
    ensures Placed(Open(plan, sp, i, b), sp, i, placed + 1)
  {
    var next := Open(plan, sp, i, b);
    forall p | 0 <= p < |sp.parts|
      ensures Occurrences(next.cutLists, p) == Demanded(sp, i, placed + 1, p)
    {
      OccurrencesAppend(plan.cutLists, CutList(b, [i], 1), p);
    }
  }

  /** Placing one unit keeps the invariant, one more unit of part `i` being placed. */
  lemma PlaceUnitInvariant(plan: Plan, sp: SubProblem, i: nat, placed: nat)
    requires i < |sp.parts| && PlanInvariant(plan, sp, i, placed)
    requires PlaceUnit(plan, sp, i).Some?
    ensures PlanInvariant(PlaceUnit(plan, sp, i).value, sp, i, placed + 1)
  {
    var len := ToMeters(sp.parts[i].length);
    match FirstFit(plan.partials, len)
    case Some(j) =>
      assert OpenPiece(sp, i, plan.cutLists[j], plan.partials[j]);
      ReusePieces(plan, sp, i, j);
      ReuseCounted(plan, sp, i, j);
      ReusePlaced(plan, sp, i, placed, j);
    case None =>
      var b := Cheapest(sp.supplies, plan.consumption, len).value;
      OpenPieces(plan, sp, i, b);
      OpenCounted(plan, sp, i, b);
      OpenPlaced(plan, sp, i, placed, b);
  }

  /**
   * Placing `n` units of part `i` keeps the invariant, `n` more units being
   * placed. The postcondition compares with `true` so that it is checked as
   * one fact, which the recursive call provides, rather than conjunct by
   * conjunct.
   */
  lemma {:induction false} PlaceUnitsInvariant(plan: Plan, sp: SubProblem, i: nat, placed: nat, n: nat, total: nat)
    requires i < |sp.parts| && PlanInvariant(plan, sp, i, placed) && placed + n == total
    requires PlaceUnits(plan, sp, i, n).Some?
    ensures PlanInvariant(PlaceUnits(plan, sp, i, n).value, sp, i, total) == true
    decreases n
  {
    if n > 0 {
      var next := PlaceUnit(plan, sp, i).value;
      assert PlaceUnits(plan, sp, i, n) == PlaceUnits(next, sp, i, n - 1);
      PlaceUnitInvariant(plan, sp, i, placed);
      PlaceUnitsInvariant(next, sp, i, placed + 1, n - 1, total);
    }
  }

  lemma NextPart(plan: Plan, sp: SubProblem, i: nat)
    requires i < |sp.parts| && PlanInvariant(plan, sp, i, Units(sp.parts[i].quantity))
    ensures PlanInvariant(plan, sp, i + 1, 0)
  {
    forall j | 0 <= j < |plan.cutLists|
      ensures OpenPiece(sp, i + 1, plan.cutLists[j], plan.partials[j])
    {
      assert OpenPiece(sp, i, plan.cutLists[j], plan.partials[j]);
    }
  }

  lemma {:induction false} PlacePartsInvariant(plan: Plan, sp: SubProblem, i: nat)
    requires i <= |sp.parts| && PlanInvariant(plan, sp, i, 0)
    requires PlaceParts(plan, sp, i).Some?
    ensures PlanInvariant(PlaceParts(plan, sp, i).value, sp, |sp.parts|, 0)
    decreases |sp.parts| - i
  {
    if i < |sp.parts| {
      var n := Units(sp.parts[i].quantity);
      var next := PlaceUnits(plan, sp, i, n).value;
      PlaceUnitsInvariant(plan, sp, i, 0, n, n);
      NextPart(next, sp, i);
      PlacePartsInvariant(next, sp, i + 1);
    }
  }

  /**
   * Every successful plan cuts each part exactly `quantity` times, keeps
   * every supply within its limit, and fits every cut list in its supply.
   */
  lemma GreedySatisfies(sp: SubProblem)
    ensures Greedy(sp).Ok? ==> Satisfies(sp, Greedy(sp).value)
  {
    if PlaceParts(Start(sp), sp, 0).Some? {
      StartInvariant(sp);
      PlacePartsInvariant(Start(sp), sp, 0);
      var plan := PlaceParts(Start(sp), sp, 0).value;
      forall j | 0 <= j < |plan.cutLists|
        ensures WellFormedCutList(sp, plan.cutLists[j])
      {
        OpenPieceFits(sp, |sp.parts|, plan.cutLists[j], plan.partials[j]);
      }
    }
  }

  // ----- consequences -----

  lemma {:induction false} NothingPlaced(sp: SubProblem, i: nat)
    requires i <= |sp.parts|
    requires forall p :: i <= p < |sp.parts| ==> sp.parts[p].quantity <= 0
    ensures PlaceParts(Start(sp), sp, i) == Some(Start(sp))
    decreases |sp.parts| - i
  {
    if i < |sp.parts| {
      NothingPlaced(sp, i + 1);
    }
  }

  /** Without demand the plan is empty, whatever the supplies. */
  lemma NothingDemanded(sp: SubProblem)
    requires forall p :: 0 <= p < |sp.parts| ==> sp.parts[p].quantity <= 0
    ensures Greedy(sp) == Ok(SubSolution([], sp.supplies, sp.parts))
  {
    NothingPlaced(sp, 0);
  }

  lemma {:induction false} OccurrencesPositive(cutLists: seq<CutList>, p: nat)
    requires Occurrences(cutLists, p) > 0
    ensures exists j :: 0 <= j < |cutLists| && p in cutLists[j].partIndices
  {
    var n := |cutLists|;
    var last := cutLists[n - 1];
    if last.quantity * multiset(last.partIndices)[p] > 0 {
      assert p in last.partIndices;
    } else {
      OccurrencesPositive(cutLists[..n - 1], p);
      var j :| 0 <= j < n - 1 && p in cutLists[..n - 1][j].partIndices;
      assert cutLists[j] == cutLists[..n - 1][j];
    }
  }

  lemma {:induction false} PartsLengthAtLeast(parts: seq<Part>, indices: seq<nat>, p: nat)
    requires forall k :: 0 <= k < |indices| ==> indices[k] < |parts|
    requires forall k :: 0 <= k < |parts| ==> ToMeters(parts[k].length) >= 0.0
    requires p in indices
    ensures PartsLength(parts, indices) >= ToMeters(parts[p].length)
  {
    var init := indices[..|indices| - 1];
    PartsLengthNonNegative(parts, init);
    if p != indices[|indices| - 1] {
      assert p in init by {
        assert indices == init + [indices[|indices| - 1]];
      }
      PartsLengthAtLeast(parts, init, p);
    }
  }

  lemma {:induction false} PartsLengthNonNegative(parts: seq<Part>, indices: seq<nat>)
    requires forall k :: 0 <= k < |indices| ==> indices[k] < |parts|
    requires forall k :: 0 <= k < |parts| ==> ToMeters(parts[k].length) >= 0.0
    ensures PartsLength(parts, indices) >= 0.0
  {
    if indices != [] {
      PartsLengthNonNegative(parts, indices[..|indices| - 1]);
    }
  }

  /** A part of a well-formed cut list is no longer than the list's supply. */
  lemma CutListPartFits(sp: SubProblem, c: CutList, p: nat)
    requires WellFormedCutList(sp, c) && p in c.partIndices
    requires forall k :: 0 <= k < |sp.parts| ==> ToMeters(sp.parts[k].length) >= 0.0
    requires ToMeters(sp.bladeWidth) >= 0.0
    ensures p < |sp.parts| && ToMeters(sp.parts[p].length) <= ToMeters(sp.supplies[c.supplyIndex].length)
  {
    PartsLengthAtLeast(sp.parts, c.partIndices, p);
    var gaps := (|c.partIndices| - 1) as real;
    var blade := ToMeters(sp.bladeWidth);
    assert gaps * blade >= 0.0 by {
      assert gaps >= 0.0;
    }
  }

  /**
   * In a solution that satisfies the sub-problem, with lengths and the blade
   * width not negative, every demanded part fits in some supply.
   */
  lemma DemandedPartFits(sp: SubProblem, sol: SubSolution, p: nat)
    requires Satisfies(sp, sol) && p < |sp.parts| && sp.parts[p].quantity > 0
    requires forall k :: 0 <= k < |sp.parts| ==> ToMeters(sp.parts[k].length) >= 0.0
    requires ToMeters(sp.bladeWidth) >= 0.0
    ensures exists s :: 0 <= s < |sp.supplies| && ToMeters(sp.parts[p].length) <= ToMeters(sp.supplies[s].length)
  {
    assert Occurrences(sol.cutLists, p) > 0;
    OccurrencesPositive(sol.cutLists, p);
    var j :| 0 <= j < |sol.cutLists| && p in sol.cutLists[j].partIndices;
    CutListPartFits(sp, sol.cutLists[j], p);
  }

  /**
   * With lengths and the blade width not negative, a demanded part longer
   * than every supply makes the planner fail.
   */
  lemma TooLongPartFails(sp: SubProblem, p: nat)
    requires p < |sp.parts| && sp.parts[p].quantity > 0
    requires forall k :: 0 <= k < |sp.parts| ==> ToMeters(sp.parts[k].length) >= 0.0
    requires ToMeters(sp.bladeWidth) >= 0.0
    requires forall s :: 0 <= s < |sp.supplies| ==> ToMeters(sp.supplies[s].length) < ToMeters(sp.parts[p].length)
    ensures Greedy(sp) == Err(InsufficientSize)
  {
    var g := Greedy(sp);
    GreedySatisfies(sp);
    if g.Ok? {
      DemandedPartFits(sp, g.value, p);
    }
  }
}
