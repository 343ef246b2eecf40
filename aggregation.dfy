/**
 * Reporting helpers over a solution (src/utils.rs): how many pieces of each
 * supply a solution consumes, and what it costs.
 */
module Aggregation {
  import opened Modeling

  /** Indexing a supply out of range panics in the source. */
  predicate IndicesInRange(supplies: seq<Supply>, cutLists: seq<CutList>)
  {
    forall k :: 0 <= k < |cutLists| ==> cutLists[k].supplyIndex < |supplies|
  }

  predicate SolutionInRange(solution: Solution)
  {
    forall m :: m in solution ==> IndicesInRange(solution[m].supplies, solution[m].cutLists)
  }

  /** Total `quantity` of the cut lists taken from supply `s`. */
  function Consumed(cutLists: seq<CutList>, s: nat): nat
  {
    if cutLists == [] then 0
    else
      var last := cutLists[|cutLists| - 1];
      Consumed(cutLists[..|cutLists| - 1], s) + (if last.supplyIndex == s then last.quantity else 0)
  }

  /** Consumption of every supply of a sub-solution, by supply index. */
  function Consumption(sub: SubSolution): (r: seq<nat>)
    ensures |r| == |sub.supplies|
    ensures forall s :: 0 <= s < |r| ==> r[s] == Consumed(sub.cutLists, s)
  {
    seq(|sub.supplies|, (s: int) requires 0 <= s => Consumed(sub.cutLists, s))
  }

  /** Sum of `price * quantity` over the cut lists. */
  function Cost(supplies: seq<Supply>, cutLists: seq<CutList>): real
    requires IndicesInRange(supplies, cutLists)
  {
    if cutLists == [] then 0.0
    else
      var last := cutLists[|cutLists| - 1];
      Cost(supplies, cutLists[..|cutLists| - 1]) + supplies[last.supplyIndex].price * last.quantity as real
  }

  /** Sum of the values of a map, in no particular order. */
  ghost function SumValues<K>(m: map<K, real>): real
    decreases |m|
  {
    if m == map[] then 0.0
    else
      var k :| k in m;
      assert |m - {k}| < |m| by { assert m.Keys - {k} < m.Keys; }
      m[k] + SumValues(m - {k})
  }

  /** Summing a map may start from any key. */
  lemma {:induction false} SumValuesRemove<K>(m: map<K, real>, k: K)
    requires k in m
    ensures SumValues(m) == m[k] + SumValues(m - {k})
    decreases |m|
  {
    var j :| j in m && SumValues(m) == m[j] + SumValues(m - {j});
    if j != k {
      assert |m - {j}| < |m| by { assert m.Keys - {j} < m.Keys; }
      assert |m - {k}| < |m| by { assert m.Keys - {k} < m.Keys; }
      SumValuesRemove(m - {j}, k);
      SumValuesRemove(m - {k}, j);
      assert m - {j} - {k} == m - {k} - {j};
    }
  }

  lemma {:induction false} SumValuesNonNegative<K>(m: map<K, real>)
    requires forall k :: k in m ==> m[k] >= 0.0
    ensures SumValues(m) >= 0.0
    decreases |m|
  {
    if m != map[] {
      var k :| k in m;
      SumValuesRemove(m, k);
      assert |m - {k}| < |m| by { assert m.Keys - {k} < m.Keys; }
      SumValuesNonNegative(m - {k});
    }
  }

  function SubTotals(solution: Solution): (r: map<Material, real>)
    requires SolutionInRange(solution)
    ensures r.Keys == solution.Keys
  {
    map m | m in solution :: Cost(solution[m].supplies, solution[m].cutLists)
  }

  /** What `compute_total_price` computes: every cut list's price times its quantity, summed. */
  ghost function TotalPrice(solution: Solution): real
    requires SolutionInRange(solution)
  {
    SumValues(SubTotals(solution))
  }

  function Restrict<K, V>(m: map<K, V>, keys: set<K>): (r: map<K, V>)
    ensures r.Keys == m.Keys * keys
    ensures forall k :: k in r ==> r[k] == m[k]
  {
    map k | k in m && k in keys :: m[k]
  }

  /** `compute_supply_consumption`: one vector per material, indexed by supply. */
  method ComputeSupplyConsumption(solution: Solution) returns (consumption: map<Material, seq<nat>>)
    requires SolutionInRange(solution)
    ensures consumption.Keys == solution.Keys
    ensures forall m :: m in solution ==> consumption[m] == Consumption(solution[m])
  {
    consumption := map[];
    var rest := solution.Keys;
    while rest != {}
      invariant rest <= solution.Keys
      invariant consumption.Keys == solution.Keys - rest
      invariant forall m :: m in consumption ==> consumption[m] == Consumption(solution[m])
      decreases rest
    {
      var material :| material in rest;
      var sub := solution[material];
      var subConsumption := new nat[|sub.supplies|](_ => 0);
      for j := 0 to |sub.cutLists|
        invariant forall s :: 0 <= s < subConsumption.Length ==> subConsumption[s] == Consumed(sub.cutLists[..j], s)
      {
        var cutList := sub.cutLists[j];
        assert sub.cutLists[..j + 1][..j] == sub.cutLists[..j];
        subConsumption[cutList.supplyIndex] := subConsumption[cutList.supplyIndex] + cutList.quantity;
      }
      assert sub.cutLists[..|sub.cutLists|] == sub.cutLists;
      consumption := consumption[material := subConsumption[..]];
      rest := rest - {material};
    }
  }

  /** `compute_total_price`: the materials are visited in an unspecified order. */
  method ComputeTotalPrice(solution: Solution) returns (total: real)
    requires SolutionInRange(solution)
    ensures total == TotalPrice(solution)
    ensures solution == map[] ==> total == 0.0
  {
    total := 0.0;
    ghost var subTotals := SubTotals(solution);
    var rest := solution.Keys;
    assert Restrict(subTotals, rest) == subTotals;
    while rest != {}
      invariant rest <= solution.Keys
      invariant total + SumValues(Restrict(subTotals, rest)) == SumValues(subTotals)
      decreases rest
    {
      var material :| material in rest;
      var sub := solution[material];
      ghost var before := total;
      for j := 0 to |sub.cutLists|
        invariant total == before + Cost(sub.supplies, sub.cutLists[..j])
      {
        var cutList := sub.cutLists[j];
        assert sub.cutLists[..j + 1][..j] == sub.cutLists[..j];
        var unitPrice := sub.supplies[cutList.supplyIndex].price;
        total := total + unitPrice * cutList.quantity as real;
      }
      assert sub.cutLists[..|sub.cutLists|] == sub.cutLists;
      SumValuesRemove(Restrict(subTotals, rest), material);
      assert Restrict(subTotals, rest) - {material} == Restrict(subTotals, rest - {material});
      rest := rest - {material};
    }
  }

  /** Sum over the supplies `s < n` of consumption times unit price. */
  function ConsumptionCost(supplies: seq<Supply>, cutLists: seq<CutList>, n: nat): real
    requires n <= |supplies|
  {
    if n == 0 then 0.0
    else ConsumptionCost(supplies, cutLists, n - 1) + Consumed(cutLists, n - 1) as real * supplies[n - 1].price
  }

  lemma {:induction false} ConsumptionCostAppend(supplies: seq<Supply>, cutLists: seq<CutList>, c: CutList, n: nat)
    requires n <= |supplies|
    ensures ConsumptionCost(supplies, cutLists + [c], n)
            == ConsumptionCost(supplies, cutLists, n)
               + (if c.supplyIndex < n then c.quantity as real * supplies[c.supplyIndex].price else 0.0)
  {
    assert (cutLists + [c])[..|cutLists|] == cutLists;
    if n > 0 {
      ConsumptionCostAppend(supplies, cutLists, c, n - 1);
      var extra := if c.supplyIndex == n - 1 then c.quantity else 0;
      var price := supplies[n - 1].price;
      assert Consumed(cutLists + [c], n - 1) == Consumed(cutLists, n - 1) + extra;
      assert (Consumed(cutLists, n - 1) + extra) as real * price
             == Consumed(cutLists, n - 1) as real * price + extra as real * price;
    }
  }

  /** A sub-solution's cost is its consumption vector weighted by the unit prices. */
  lemma {:induction false} CostByConsumption(supplies: seq<Supply>, cutLists: seq<CutList>)
    requires IndicesInRange(supplies, cutLists)
    ensures Cost(supplies, cutLists) == ConsumptionCost(supplies, cutLists, |supplies|)
  {
    if cutLists == [] {
      ConsumptionCostEmpty(supplies, |supplies|);
    } else {
      var init := cutLists[..|cutLists| - 1];
      var last := cutLists[|cutLists| - 1];
      CostByConsumption(supplies, init);
      ConsumptionCostAppend(supplies, init, last, |supplies|);
      assert init + [last] == cutLists;
    }
  }

  lemma {:induction false} ConsumptionCostEmpty(supplies: seq<Supply>, n: nat)
    requires n <= |supplies|
    ensures ConsumptionCost(supplies, [], n) == 0.0
  {
    if n > 0 {
      ConsumptionCostEmpty(supplies, n - 1);
    }
  }

  /**
   * The two helpers agree: the total price is the sum over materials and
   * supplies of consumption times unit price.
   */
  lemma TotalPriceByConsumption(solution: Solution)
    requires SolutionInRange(solution)
    ensures TotalPrice(solution)
            == SumValues(map m | m in solution :: ConsumptionCost(solution[m].supplies, solution[m].cutLists, |solution[m].supplies|))
  {
    forall m | m in solution {
      CostByConsumption(solution[m].supplies, solution[m].cutLists);
    }
    assert SubTotals(solution)
           == map m | m in solution :: ConsumptionCost(solution[m].supplies, solution[m].cutLists, |solution[m].supplies|);
  }

  lemma {:induction false} CostNonNegative(supplies: seq<Supply>, cutLists: seq<CutList>)
    requires IndicesInRange(supplies, cutLists)
    requires forall s :: 0 <= s < |supplies| ==> supplies[s].price >= 0.0
    ensures Cost(supplies, cutLists) >= 0.0
  {
    if cutLists != [] {
      CostNonNegative(supplies, cutLists[..|cutLists| - 1]);
    }
  }

  /** With no negative price, no solution has a negative total price. */
  lemma TotalPriceNonNegative(solution: Solution)
    requires SolutionInRange(solution)
    requires forall m, s :: m in solution && 0 <= s < |solution[m].supplies| ==> solution[m].supplies[s].price >= 0.0
    ensures TotalPrice(solution) >= 0.0
  {
    forall m | m in solution {
      CostNonNegative(solution[m].supplies, solution[m].cutLists);
    }
    SumValuesNonNegative(SubTotals(solution));
  }
}
