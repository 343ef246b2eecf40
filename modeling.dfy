/**
 * The entities shared by the planner, the aggregation helpers and the
 * interface: materials, supplies, parts, sub-problems, cut lists and
 * solutions, with the fields src/solvers/naive_solver.rs and
 * src/ui/utils.rs use (src/modeling.rs declares older, different types).
 */
module Modeling {
  import opened Sizes

  datatype Dimension = OneD | TwoD

  /** Supplies and parts of different materials never interact. */
  datatype Material = Material(name: string, dimension: Dimension)

  /** A purchasable or on-hand stock item; `maxQuantity == Unlimited` means no limit. */
  datatype Supply = Supply(name: string, length: Size, price: real, maxQuantity: int)

  /** A demanded cut: `quantity` pieces of `length`. */
  datatype Part = Part(name: string, length: Size, quantity: int)

  datatype SubProblem = SubProblem(supplies: seq<Supply>, parts: seq<Part>, bladeWidth: Size)

  type Problem = map<Material, SubProblem>

  /**
   * `quantity` identical pieces of supply `supplyIndex`, each cut into the
   * parts `partIndices` in that order.
   */
  datatype CutList = CutList(supplyIndex: nat, partIndices: seq<nat>, quantity: nat)

  datatype SubSolution = SubSolution(cutLists: seq<CutList>, supplies: seq<Supply>, parts: seq<Part>)

  type Solution = map<Material, SubSolution>

  /** The `max_quantity` sentinel for a supply without limit. */
  const Unlimited: int := -1
}
