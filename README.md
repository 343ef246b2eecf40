# chop-chop cut-list planner, modelled in Dafny

chop-chop plans how to cut a list of **parts** (name, length, quantity) out of
**supplies** (stock pieces with a length, a unit price and an optional limit
on how many may be bought). The user enters both in a GTK front end. Rows are
grouped by **material** (name and dimension) into one **sub-problem** per
material. A greedy solver turns each sub-problem into **cut lists**: one
stock piece and the parts cut from it, with the saw blade's width lost
between cuts. The result is reported as a supply consumption and a total
price, and it is laid out in pages of displayable blocks.

This project models the following, and proves what each part promises:

- **`Sizes`** (`src/size.rs`):
  - exact lengths in four units, converted to meters with 0.3048 m per foot;
  - the unit names and symbols;
  - mixed-fraction formatting.
- **`Units`** (`src/units.rs`): the older length-unit module, modelled as written.
- **`Modeling`**: the entities as `src/solvers/naive_solver.rs` and `src/ui/utils.rs` use them: materials with a dimension, supplies with a limit of −1 for unlimited, parts, sub-problems, cut lists of indices and solutions.
- **`NaiveSolver`** (`src/solvers/naive_solver.rs`):
  - the greedy pass `solve_sub_problem`, written as a method over an array of consumption counters;
  - the same pass written as a specification function, `Greedy`;
  - lemmas that every plan it returns cuts each part exactly `quantity` times, keeps every limited supply within its limit, and fits every cut list into its stock piece.
- **`SolverExample`**: the solver's unit-test scenario, proved as a lemma.
- **`Aggregation`** (`src/utils.rs`): supply consumption and total price over a whole solution.
- **`Text`**: the text primitives the parsers rely on:
  - whitespace trimming;
  - splitting;
  - 64-bit integer parsing and printing.
- **`UiUtils`** (`src/ui/utils.rs`):
  - selection indices to enums;
  - the fraction, price and quantity parsers;
  - price and quantity labels;
  - turning entry rows into a problem;
  - the flatten/unflatten conversion of results.
- **`Display`** (`src/ui/display.rs`):
  - the `DisplayEngine` bookkeeping of blocks, sections and page breaks;
  - cut diagrams built from cut lists;
  - the pagination rule as the source writes it, and the corrected rule of the Findings below.

Exact `Fraction` and `Decimal` values are modelled as `real`. Library
parsers and formatters that the model does not contain are passed in as
function parameters:

- `fraction` for `Fraction::from_str`;
- `decimal` for `Decimal::from_str`;
- `show` for `Fraction`'s `Display`;
- `decimal` for the `f64` formatting with a precision.

Block heights, which the source measures with cairo and pango, are the
parameter `height`. A Rust panic (`unwrap`, `expect`, `panic!`, an index out
of range) becomes a precondition where the caller guarantees it. It becomes
`None` / `Err` where user text or a selection index drives it.

## Model

| member | source | states |
|---|---|---|
| Sizes.SizeUnit.HasMinor | src/size.rs:115-120 | a unit has a minor part exactly when it is the feet unit, the one with symbol "ft" |
| Sizes.SizeUnit.MajorName | src/size.rs:122-129 | every unit's name is non-empty and starts with the upper-case form of its symbol's first letter |
| Sizes.SizeUnit.MajorSymbol | src/size.rs:131-138 | every unit's symbol is one or two lower-case letters |
| Sizes.SizeUnit.MinorName | src/size.rs:140-145 | the minor unit name is empty exactly for the units without a minor part, and for feet-and-inches it is the inch unit's name |
| Sizes.SizeUnit.MinorSymbol | src/size.rs:147-152 | the minor unit symbol is empty exactly for the units without a minor part; for feet-and-inches it is the inch symbol, distinct from the major symbol |
| Sizes.DefaultUnit | src/size.rs:105-112 | the default unit is meters: no minor part, symbol "m" |
| Sizes.DefaultSize | src/size.rs:55-60 | the default size is in the default unit and measures 0 m |
| Sizes.ToMeters | src/size.rs:90-98 | non-negative major and minor parts give a non-negative length in meters |
| Sizes.FromMeters | src/size.rs:79-88 | `from_meters` gives a meters size with no minor part that converts back to the same number of meters |
| Sizes.ToMetersMonotone | src/size.rs:90-98 | a larger major part never gives a shorter length, in any unit |
| Sizes.InchesPerFoot | src/size.rs:93-94 | feet-and-inches agrees with inches at 12 inches per foot; 0 ft 12 in is exactly 1 ft |
| Sizes.CentimetersPerMeter | src/size.rs:95-96 | 100·m centimeters is m meters |
| Sizes.Trunc | src/size.rs:23 | truncation toward zero: the remainder lies in [0, 1) for non-negative and in (-1, 0] for negative values |
| Sizes.Format | src/size.rs:14-20 | decimal format is the `f64` rendering at the given precision and fraction format is the fraction's `Display`; the mixed form of zero is "0", and that of a whole number or a proper fraction is the plain fraction |
| Sizes.FormatMixed | src/size.rs:22-34 | zero prints "0"; a value with no whole part prints the fraction; a whole number prints the integer; otherwise "integer remainder" |
| Sizes.FormatSize | src/size.rs:63-77 | the text starts with the formatted major part and symbol, and continues exactly when the unit has a minor part |
| Units.LengthUnit.HasSubunit | src/units.rs:15-20 | a unit has a subunit exactly when it is the feet unit, the one with symbol "ft" |
| Units.LengthUnit.MainSymbol | src/units.rs:22-29 | every unit has a non-empty main symbol |
| Units.LengthUnit.SubunitSymbol | src/units.rs:31-36 | the subunit symbol is empty exactly for units with no subunit |
| Units.ToMeters | src/units.rs:39-47 | non-negative inputs give a non-negative length; meters pass through; centimeters are divided by 100 |
| Units.MetricAgreesWithSizes | src/units.rs:44-45 | for meters and centimeters the two conversion modules agree |
| Units.InchesIgnoresLength | src/units.rs:43 | the `Inches` conversion does not depend on `length` |
| Units.FeetInchesCounterexample | src/units.rs:42 | as written, 0 ft 12 in converts to 144 times the length of 1 ft; `Sizes.ToMeters` makes them equal |
| Units.InchesCounterexample | src/units.rs:43 | as written, one inch converts to 12 feet; `Sizes.ToMeters` gives 1/12 foot |
| NaiveSolver.Units | src/solvers/naive_solver.rs:29 | `0..quantity` runs `quantity` times, and not at all for a negative quantity |
| NaiveSolver.Start | src/solvers/naive_solver.rs:20-22 | the initial plan keeps the source's parallel vectors in step: one consumption counter per supply, one remaining length per cut list |
| NaiveSolver.FirstFitFrom | src/solvers/naive_solver.rs:33-40 | the scan from j returns the first index at or after j whose remaining length admits the part, or None when there is none |
| NaiveSolver.FirstFit | src/solvers/naive_solver.rs:33-40 | the reuse scan finds the first opened piece whose remaining length admits the part; None when no piece does |
| NaiveSolver.CheapestFromCorrect | src/solvers/naive_solver.rs:43-55 | the incremental scan with strict `<` yields the eligible supply of least price, the earliest one on a tie |
| NaiveSolver.Cheapest | src/solvers/naive_solver.rs:43-55 | the result is an eligible supply (long enough, and under its limit or unlimited) that no eligible supply undercuts, with no earlier eligible supply at its price; None iff no supply is eligible |
| NaiveSolver.Reuse | src/solvers/naive_solver.rs:35-36 | reusing piece j keeps one counter per supply and one remaining length per cut list (what it does is stated by `ReuseStep`, `ReusePieces`, `ReuseCounted` and `ReusePlaced`) |
| NaiveSolver.Open | src/solvers/naive_solver.rs:60-70 | opening a piece of supply b keeps one counter per supply and one remaining length per cut list (what it does is stated by `OpenStep`, `OpenPieces`, `OpenCounted` and `OpenPlaced`) |
| NaiveSolver.PlaceUnit | src/solvers/naive_solver.rs:30-72 | a successful placement of one unit keeps the plan's vectors in step; `ReuseStep`, `OpenStep` and `PlaceUnitChoice` say which branch is taken |
| NaiveSolver.PlaceUnitChoice | src/solvers/naive_solver.rs:30-72 | placing a unit fails iff no opened piece admits the part and no supply is eligible; on success it adds a cut list exactly when no opened piece admits the part |
| NaiveSolver.PlaceUnits | src/solvers/naive_solver.rs:29-76 | placing n units of a part, when it succeeds, keeps the plan's vectors in step |
| NaiveSolver.PlaceParts | src/solvers/naive_solver.rs:27-77 | the pass over the parts, when it succeeds, keeps the plan's vectors in step |
| NaiveSolver.Resume | src/solvers/naive_solver.rs:27-77 | resuming in the middle of part i, when it succeeds, keeps the plan's vectors in step |
| NaiveSolver.Greedy | src/solvers/naive_solver.rs:10-84 | the planner's result for one sub-problem: a success carries that sub-problem's supplies and parts, and the only failure is the "No materials available with sufficient size" error |
| NaiveSolver.ReuseStep | src/solvers/naive_solver.rs:33-40 | when the reuse scan finds piece j, the unit is placed by reusing j |
| NaiveSolver.OpenStep | src/solvers/naive_solver.rs:43-70 | when no piece is reusable and supply b is the cheapest, the unit opens a piece of b |
| NaiveSolver.ResumeStep | src/solvers/naive_solver.rs:29-76 | a successful unit placement advances the loop by one unit |
| NaiveSolver.ResumeFail | src/solvers/naive_solver.rs:56-58 | a unit that cannot be placed fails the whole pass |
| NaiveSolver.FindReusable | src/solvers/naive_solver.rs:33-40 | the reuse loop returns exactly `FirstFit` |
| NaiveSolver.FindCheapest | src/solvers/naive_solver.rs:43-55 | the supply scan returns exactly `Cheapest` on the current counts; the `Decimal::infinity()` sentinel is a found flag |
| NaiveSolver.PlaceOne | src/solvers/naive_solver.rs:30-72 | one pass of the unit loop succeeds iff `PlaceUnit` does, and then leaves the cut lists, counts and remaining lengths `PlaceUnit` gives; on failure it changes nothing |
| NaiveSolver.SolveSubProblem | src/solvers/naive_solver.rs:10-84 | the method returns exactly `Greedy(sp)`: the plan's cut lists with the supplies and parts, or the "No materials available with sufficient size" error |
| NaiveSolver.CutLengthAppend | src/solvers/naive_solver.rs:35-36 | appending a part to a cut list adds its length plus one blade width to the length the list consumes |
| NaiveSolver.CutLengthSum | src/solvers/naive_solver.rs:60-70 | the stock length a cut list consumes is its parts' total plus one blade width per part |
| NaiveSolver.OpenPieceFits | src/solvers/naive_solver.rs:34-36 | an opened piece whose remaining length is at least minus one blade width is a well-formed cut list: quantity 1, indices in range and in order, and its parts with one blade width between neighbours fit in the stock length |
| NaiveSolver.ConsumedUpdate | src/solvers/naive_solver.rs:35 | changing one cut list's part indices leaves the supply counts unchanged |
| NaiveSolver.OccurrencesUpdate | src/solvers/naive_solver.rs:35 | appending part i to a cut list adds one occurrence of i and none of any other part |
| NaiveSolver.OccurrencesAppend | src/solvers/naive_solver.rs:60-64 | a new cut list of quantity 1 adds its parts' occurrences |
| NaiveSolver.ConsumedAppend | src/solvers/naive_solver.rs:60-65 | a new cut list counts one more unit of its supply, in step with `supply_consumption` |
| NaiveSolver.StartInvariant | src/solvers/naive_solver.rs:20-22 | the initial plan satisfies the planner invariant |
| NaiveSolver.NonDecreasingAppend | src/solvers/naive_solver.rs:35 | appending the current part index keeps a cut list's indices in order |
| NaiveSolver.ExtendPiece | src/solvers/naive_solver.rs:34-36 | cutting a part from a piece that admits it leaves an opened piece, with remaining length reduced by the part and one blade width |
| NaiveSolver.ReusePieces | src/solvers/naive_solver.rs:33-40 | reuse keeps every open piece within its stock length |
| NaiveSolver.ReuseCounted | src/solvers/naive_solver.rs:33-40 | reuse keeps the supply counts equal to the cut lists' counts |
| NaiveSolver.ReusePlaced | src/solvers/naive_solver.rs:33-40 | reuse records exactly one more occurrence of part i |
| NaiveSolver.OpenPieces | src/solvers/naive_solver.rs:60-70 | opening a piece keeps every open piece within its stock length |
| NaiveSolver.OpenCounted | src/solvers/naive_solver.rs:60-70 | opening keeps the counts equal to the cut lists' counts and within each supply's limit |
| NaiveSolver.OpenPlaced | src/solvers/naive_solver.rs:60-70 | opening records exactly one more occurrence of part i |
| NaiveSolver.PlaceUnitInvariant | src/solvers/naive_solver.rs:30-72 | placing one unit preserves the planner invariant and adds one occurrence of part i |
| NaiveSolver.PlaceUnitsInvariant | src/solvers/naive_solver.rs:29-76 | placing n units preserves the invariant and adds n occurrences of part i |
| NaiveSolver.NextPart | src/solvers/naive_solver.rs:27-29 | after all of part i's units, parts up to i are placed exactly `quantity` times |
| NaiveSolver.PlacePartsInvariant | src/solvers/naive_solver.rs:27-77 | the pass over the remaining parts preserves the invariant and completes every part's demand |
| NaiveSolver.GreedySatisfies | src/solvers/naive_solver.rs:10-84 | an `Ok` result carries the sub-problem's supplies and parts, cuts every part exactly `quantity` times (none when negative), keeps every limited supply within `max_quantity`, and fits every cut list, with a blade width between neighbouring parts, into its stock piece |
| NaiveSolver.NothingPlaced | src/solvers/naive_solver.rs:27-29 | parts with no demand leave the plan unchanged |
| NaiveSolver.NothingDemanded | src/solvers/naive_solver.rs:10-84 | without demand the planner returns an empty plan with the supplies and parts, whatever the supplies |
| NaiveSolver.OccurrencesPositive | src/solvers/naive_solver.rs:35 | a part that occurs has a cut list that holds it |
| NaiveSolver.PartsLengthAtLeast | src/solvers/naive_solver.rs:34-36 | the total length of a cut list's parts is at least that of any one of them |
| NaiveSolver.PartsLengthNonNegative | src/solvers/naive_solver.rs:34-36 | with non-negative part lengths, a cut list's parts have a non-negative total |
| NaiveSolver.CutListPartFits | src/solvers/naive_solver.rs:47 | each part of a well-formed cut list is no longer than its stock piece |
| NaiveSolver.DemandedPartFits | src/solvers/naive_solver.rs:47 | in a satisfying plan every demanded part fits into some supply |
| NaiveSolver.TooLongPartFails | src/solvers/naive_solver.rs:56-58 | a demanded part longer than every supply makes the planner return `InsufficientSize` |
| SolverExample.ExampleCheapest | src/solvers/naive_solver.rs:103-116 | the free piece is chosen while its single unit is unused, the bought piece afterwards |
| SolverExample.ExampleFirstPart | src/solvers/naive_solver.rs:117-122 | the three 3 m parts go twice into the free piece and once into a bought piece |
| SolverExample.ExampleGreedy | src/solvers/naive_solver.rs:97-139 | the test's sub-problem gives the cut lists (free piece: 3, 3, 1.5) and (bought piece: 3) |
| SolverExample.ExampleTotalPrice | src/solvers/naive_solver.rs:140 | the test's solution has total price 3.5 |
| Aggregation.Consumption | src/utils.rs:10-13 | one count per supply, each the sum of the quantities of the cut lists on that supply |
| Aggregation.SumValuesRemove | src/utils.rs:22 | summing over a map is one value plus the sum over the rest, in any order |
| Aggregation.SumValuesNonNegative | src/utils.rs:22 | a map of non-negative values has a non-negative sum |
| Aggregation.SubTotals | src/utils.rs:22-27 | one subtotal per material of the solution |
| Aggregation.Restrict | src/utils.rs:22 | restriction keeps exactly the given keys with their values |
| Aggregation.ComputeSupplyConsumption | src/utils.rs:7-17 | the map has the solution's materials, each with `Consumption` of its sub-solution |
| Aggregation.ComputeTotalPrice | src/utils.rs:20-29 | the result is the sum over every material and cut list of unit price × quantity; an empty solution costs 0 |
| Aggregation.ConsumptionCostAppend | src/utils.rs:23-25 | one more cut list adds its price × quantity to the cost |
| Aggregation.CostByConsumption | src/utils.rs:7-29 | a sub-solution's price equals Σ over supplies of count × unit price, with the counts that `compute_supply_consumption` reports |
| Aggregation.ConsumptionCostEmpty | src/utils.rs:21 | no cut lists cost 0 |
| Aggregation.TotalPriceByConsumption | src/utils.rs:7-29 | the total price is the sum over materials of consumption × unit price |
| Aggregation.CostNonNegative | src/utils.rs:23-25 | non-negative unit prices give a non-negative sub-solution price |
| Aggregation.TotalPriceNonNegative | src/utils.rs:20-29 | non-negative unit prices give a non-negative total price |
| Text.TrimStart | src/ui/utils.rs:150 | the result is a suffix of the input, everything removed is whitespace, and it does not start with whitespace |
| Text.TrimEnd | src/ui/utils.rs:150 | the result is a prefix of the input, everything removed is whitespace, and it does not end with whitespace |
| Text.Trim | src/ui/utils.rs:150 | the result is a slice of the input with only whitespace removed around it, and it neither starts nor ends with whitespace |
| Text.TrimSpan | src/ui/utils.rs:150 | trimming the start, then the end, leaves one slice of the input with whitespace on both sides |
| Text.Split | src/ui/utils.rs:150 | splitting gives at least one piece, and no piece holds the separator |
| Text.JoinSplit | src/ui/utils.rs:150 | joining the pieces of a split with the separator gives back the text |
| Text.SplitPrefix | src/ui/utils.rs:150 | text without the separator stays one piece, joined to the first piece of what follows |
| Text.SplitJoin | src/ui/utils.rs:150 | splitting pieces joined with a separator none of them holds gives back the pieces |
| Text.NonEmpty | src/ui/utils.rs:150 | the filtered pieces are non-empty pieces of the input, and every non-empty piece is among them |
| Text.NonEmptyAppend | src/ui/utils.rs:150 | filtering a concatenation filters each part in turn, so order and repeats are kept |
| Text.NonEmptySingle | src/ui/utils.rs:150 | a single piece is kept exactly when it is not empty |
| Text.DigitChar | src/ui/utils.rs:84 | each digit value prints as the matching decimal digit |
| Text.NatToString | src/ui/utils.rs:84 | a natural number prints as a non-empty string of digits |
| Text.IntToString | src/ui/utils.rs:84 | a non-negative integer prints as digits only; a negative one starts with '-' |
| Text.ParseI64 | src/ui/utils.rs:187 | a parsed value lies in the 64-bit signed range |
| Text.NatToStringValue | src/ui/utils.rs:84 | the printed digits read back as the same number |
| Text.ParseIntToString | src/ui/utils.rs:84-187 | every non-negative `i64` reads back from its decimal text |
| Text.TrimUnpadded | src/ui/utils.rs:181 | trimming text without surrounding whitespace changes nothing |
| Text.TrimDigits | src/ui/utils.rs:181 | trimming a string of digits changes nothing |
| UiUtils.DimensionFrom | src/ui/utils.rs:15-23 | selection 0 is 1-D and 1 is 2-D; any other selection is refused |
| UiUtils.DimensionFromIndex | src/ui/utils.rs:15-23 | each dimension is recovered from its selection index |
| UiUtils.SizeUnitFrom | src/ui/utils.rs:46-56 | selections 0 to 3 are feet-and-inches, inches, meters and centimeters; others are refused |
| UiUtils.SizeUnitFromIndex | src/ui/utils.rs:46-56 | each unit is recovered from its selection index |
| UiUtils.FractionFormatFrom | src/ui/utils.rs:25-34 | selections 0 to 2 are decimal (with the given precision), mixed and fraction; others are refused |
| UiUtils.FractionFormatFromIndex | src/ui/utils.rs:25-34 | each format is recovered from its selection index, a decimal one taking the given precision |
| UiUtils.Tokens | src/ui/utils.rs:150 | the tokens of trimmed text are non-empty and hold no space |
| UiUtils.SumTokens | src/ui/utils.rs:154-161 | the sum succeeds iff every token parses to a non-negative fraction, and the sum is then non-negative |
| UiUtils.PositiveFraction | src/ui/utils.rs:149-163 | no tokens (unless empty input is allowed) or more than two tokens is an error; empty allowed gives 0; success iff at most two tokens, each a non-negative fraction; the value is non-negative |
| UiUtils.SumTokensStep | src/ui/utils.rs:155-159 | one more token adds its value to the running sum, or fails the parse when it is not a non-negative fraction |
| UiUtils.PrefixSumFails | src/ui/utils.rs:158 | once a token fails, the whole parse fails |
| UiUtils.PositiveFractionValue | src/ui/utils.rs:154-161 | a success is the single token's value, or the sum of the two tokens (as in "1 1/2") |
| UiUtils.ParsePositiveFraction | src/ui/utils.rs:149-163 | the loop returns exactly `PositiveFraction` |
| UiUtils.ParsePrice | src/ui/utils.rs:166-178 | empty trimmed text gives 0 or an error as `allow_empty` says; otherwise success iff the decimal parses and is non-negative, with that value |
| UiUtils.ParseQuantity | src/ui/utils.rs:180-192 | allowed empty text gives the unlimited marker −1 and nothing else does; otherwise success iff the text parses as a non-negative `i64`, with that value |
| UiUtils.QuantityRoundTrip | src/ui/utils.rs:80-192 | every non-negative quantity label parses back to the quantity |
| UiUtils.WordRejected | src/ui/utils.rs:187-189 | a trimmed word that starts with neither a sign nor a digit is not a quantity |
| UiUtils.UnlimitedLabel | src/ui/utils.rs:80-86 | −1 is labelled "Unlimited", and that label does not parse back as a quantity |
| UiUtils.FormatQuantity | src/ui/utils.rs:80-86 | the label is never empty, starts with the letter of "Unlimited" exactly for the −1 marker, and is all digits for a non-negative quantity |
| UiUtils.FormatPrice | src/ui/utils.rs:69-78 | the label is "Free" iff the price is zero; otherwise "$" followed by the price at the given precision |
| UiUtils.LengthFrom | src/ui/utils.rs:234-240 | a length is read iff the unit index is valid and both parts parse as non-negative fractions (empty allowed); it then has those parts and a non-negative length in meters |
| UiUtils.ParseLength | src/ui/utils.rs:36-44 | the method returns exactly `LengthFrom` |
| UiUtils.MaterialOf | src/ui/utils.rs:96-99 | a row has a material iff its dimension selection is valid; the material then has the row's name and that dimension |
| UiUtils.SupplyFrom | src/ui/utils.rs:95-105 | a supply row is read iff its dimension, length, price and limit all parse; the supply keeps the row's name and has a non-negative length, a non-negative price and a limit that is −1 or non-negative |
| UiUtils.PartFrom | src/ui/utils.rs:121-130 | a part row is read iff its dimension, length and quantity parse; the part keeps the row's name and has a non-negative length and a quantity that is −1 or non-negative |
| UiUtils.MapAll | src/ui/utils.rs:95-130 | a list of rows is read iff every row is, elementwise and in order |
| UiUtils.ParseSupply | src/ui/utils.rs:96-105 | the method returns exactly `SupplyFrom` |
| UiUtils.ParsePart | src/ui/utils.rs:122-130 | the method returns exactly `PartFrom` |
| UiUtils.ProblemOf | src/ui/utils.rs:88-147 | the problem has one sub-problem per material that occurs in a supply row or a part row |
| UiUtils.FilterAppend | src/ui/utils.rs:106-117 | a new row joins its material's list at the end and no other |
| UiUtils.MaterialsAppend | src/ui/utils.rs:106-117 | a new row adds its material to the materials present |
| UiUtils.FilterAbsent | src/ui/utils.rs:110-117 | a material with no rows has an empty list |
| UiUtils.FilterContains | src/ui/utils.rs:106-108 | each row lands in its own material's list |
| UiUtils.FilterLength | src/ui/utils.rs:106-117 | a material's list is empty iff the material has no rows |
| UiUtils.AddSupplyStep | src/ui/utils.rs:106-118 | adding a supply row appends it to its material's sub-problem, or inserts a new sub-problem with the blade width when the material is new |
| UiUtils.AddPartStep | src/ui/utils.rs:131-143 | adding a part row appends it to its material's sub-problem, or inserts a new one with no supplies when the material is new |
| UiUtils.GenerateProblem | src/ui/utils.rs:88-147 | a problem is built iff every supply and part row is readable, and it is then the rows grouped by material in entry order |
| UiUtils.CollectSupplies | src/ui/utils.rs:95-119 | the supply loop gives the supply rows grouped by material |
| UiUtils.AddSupply | src/ui/utils.rs:106-118 | one supply row is added to the problem as `AddSupplyStep` says |
| UiUtils.CollectParts | src/ui/utils.rs:121-144 | the part loop extends the supply grouping with the part rows grouped by material |
| UiUtils.AddPart | src/ui/utils.rs:131-143 | one part row is added to the problem as `AddPartStep` says |
| UiUtils.MapAllStep | src/ui/utils.rs:95-105 | reading one more row either fails the whole list or extends the read prefix by that row |
| UiUtils.PrefixFails | src/ui/utils.rs:103-104 | an unreadable prefix makes the whole list unreadable |
| UiUtils.ProblemOfRows | src/ui/utils.rs:88-147 | every row is in its material's sub-problem; a material with no supply row has no supplies; every sub-problem has the blade width and at least one row |
| UiUtils.PairKeysAppend | src/ui/utils.rs:63 | one more pair adds its key |
| UiUtils.EnumeratesAdd | src/ui/utils.rs:63 | a fresh key and its value extend an enumeration of a map |
| UiUtils.MapPairs | src/ui/utils.rs:63 | collecting a map gives each entry exactly once |
| UiUtils.FlattenResults | src/ui/utils.rs:59-67 | None stays None; an error stays the same error; a solution becomes a list that enumerates it |
| UiUtils.FromPairs | src/ui/utils.rs:200-203 | the map built from pairs has exactly the pairs' keys |
| UiUtils.FromPairsLast | src/ui/utils.rs:200-203 | the last pair for a key decides its value |
| UiUtils.FromEnumeration | src/ui/utils.rs:200-203 | inserting the pairs of an enumeration rebuilds the map |
| UiUtils.UnflattenResults | src/ui/utils.rs:195-209 | the insertion loop returns exactly `Unflattened` |
| UiUtils.UnflattenFlatten | src/ui/utils.rs:59-209 | unflattening a flattened result gives back the original result |
| Display.CutDiagramFrom | src/ui/display.rs:215-227 | the diagram holds the cut list's supply, its parts in cut order, and the given maximum length |
| Display.DiagramLengthResolved | src/ui/display.rs:215-227 | the diagram's parts total the cut list's parts length |
| Display.DiagramFits | src/ui/display.rs:215-227 | for a satisfying solution every cut list resolves, and its diagram's parts with the blade gaps fit in the supply length |
| Display.Heights | src/ui/display.rs:133-134 | one height per block, in order |
| Display.BreaksAsWritten | src/ui/display.rs:130-143 | the source's breaks are in range, strictly increasing and at least two blocks apart |
| Display.AsWrittenFit | src/ui/display.rs:133-140 | the source's pass from a fitting partial page keeps the first page fitting, and every later page fitting once its opening block is left out |
| Display.AsWrittenBreakFits | src/ui/display.rs:135-137 | a break closes a fitting page, and the next page is counted from the block after the break |
| Display.AsWrittenPagesFit | src/ui/display.rs:130-143 | as the source paginates, the first page fits and every later page fits without the block that opened it |
| Display.BreaksFrom | src/ui/display.rs:130-143 | the corrected breaks are in range and strictly increasing |
| Display.PageBreaksValid | src/ui/display.rs:130-143 | both rules give valid break lists for the blocks |
| Display.PagesTile | src/ui/display.rs:102-128 | the pages start at block 0, end at the last block, meet end to start, and none is empty when there are blocks |
| Display.PageOrder | src/ui/display.rs:102-128 | an earlier page ends before a later page starts |
| Display.BlockOnOnePage | src/ui/display.rs:102-128 | every block is drawn on exactly one page |
| Display.BreaksFromFit | src/ui/display.rs:130-143 | the corrected pass from a fitting partial page only makes fitting pages |
| Display.BreakStepFit | src/ui/display.rs:135-137 | a break starts a page that fits, and the rest continues to fit |
| Display.FillStepFit | src/ui/display.rs:138-139 | adding a block to a page that still fits keeps it fitting |
| Display.BreakFits | src/ui/display.rs:135-137 | a break after a fitting page followed by fitting pages is a fitting pagination |
| Display.PageBreaksFit | src/ui/display.rs:130-143 | with the corrected rule, every page fits its blocks and the two margins in the page height, unless the page holds a single block |
| Display.AsWrittenOverfills | src/ui/display.rs:135-140 | heights 10, 40, 40 on a 50-high page: the source breaks only at block 1, so that page holds 80 plus margins; the corrected rule breaks at 1 and 2 |
| Display.DisplayEngine.constructor | src/ui/display.rs:21-34 | a fresh engine is empty, with no section and no pagination |
| Display.DisplayEngine.AppendBlock | src/ui/display.rs:42-44 | the block is appended and nothing else changes |
| Display.DisplayEngine.AppendCutDiagram | src/ui/display.rs:151-162 | the cut list's diagram is appended as one block and nothing else changes |
| Display.DisplayEngine.Clear | src/ui/display.rs:46-51 | blocks, sections, the open section and the pagination are all reset |
| Display.DisplayEngine.StartSection | src/ui/display.rs:145-147 | the open section starts at the next block |
| Display.DisplayEngine.EndSection | src/ui/display.rs:116-120 | the open section closes at the current block count and is recorded; there is no open section afterwards |
| Display.DisplayEngine.Paginate | src/ui/display.rs:130-143 | the engine records the source's page breaks for its blocks' heights (`BreaksAsWritten`, resetting `y` to 0 after a break); blocks and sections are unchanged |
| Display.DisplayEngine.NPages | src/ui/display.rs:122-128 | there is always at least one page, one more than the breaks |
| Display.DisplayEngine.PageBlocks | src/ui/display.rs:102-114 | page i is the blocks from the previous break (or 0) up to the next break (or the end) |

## Left out

- The progress messages and the optional sender (`src/solvers/naive_solver.rs:24-25`, `74-75`) are not modelled. They carry `f64` progress to the UI and do not affect the plan.
- Orchestration is not part of this model, because the cut logic is in `solve_sub_problem`:
  - the `Solver` trait's `solve` (splitting a problem by material, threads);
  - the 1-D solver in `src/solvers/oned_solver.rs`;
  - `src/modeling.rs`: its `Material`, `Supply`, `Part` and `CutList` (with `f32` lengths, a limit of 0 for unlimited and cuts as lengths) are not the types the solver and the interface use. `Modeling` follows their use in `src/solvers/naive_solver.rs` and `src/ui/utils.rs` instead.
- The unit test goes through `solve`. `SolverExample` proves the same result, total price 3.5, through `Greedy` on the single sub-problem.
- `FractionFormat::format_decimal`, `Size::to_meters_f64` and the `f64` rounding in `format_price` are floating-point formatting. They are the parameter `decimal`.
- `Fraction`'s printing and the `Fraction` and `Decimal` parsers are the parameters `show`, `fraction` and `decimal`. NaN and infinities are not modelled, and `is_sign_negative` is modelled as `< 0`, so a parsed −0 is accepted.
- `NaiveSolver.FindCheapest`: the `Decimal::infinity()` starting price is modelled as a "found" flag. A supply priced at infinity would differ.
- Counters are unbounded integers. The `usize` consumption counts and the `i64` sum of quantities cannot overflow in the model.
- `i64` parsing is modelled for ASCII digits with an optional sign, within the 64-bit range.
- `validate_entry` is not modelled; it only toggles GTK widget state.
- In `src/ui/display.rs`, these are not modelled, because they are GTK, cairo and pango drawing:
  - `display`;
  - `draw`, `draw_blocks` and the `DisplayBlock` `draw`/`height` methods;
  - the block types' drawing.
- The block heights enter as the parameter `height`.
- Header, paragraph and table blocks are modelled as values, and their appenders are `AppendBlock` with that value.
- `NaiveSolver.SolveSubProblem`: the two inner scans of the source are the helper methods `FindReusable` and `FindCheapest`, and one unit's placement is `PlaceOne`. The loop order and the arithmetic are the source's.
- `UiUtils.GenerateProblem`: the two row loops are `CollectSupplies` and `CollectParts`, and each row's grouping step is `AddSupply` / `AddPart`.
- `UiUtils.GenerateProblem`: the `unwrap` panics on unreadable rows are modelled as `None`.
- `UiUtils.DimensionFrom`, `SizeUnitFrom` and `FractionFormatFrom`: the `panic!()` on other selections is modelled as `None`.
- The `HashMap` iteration order in `flatten_results` is not modelled. `UiUtils.FlattenResults` is a ghost function that promises only that the list enumerates the map, in some order.
- `Display.DisplayEngine.Paginate`: the heights, the running `y`, `h` and `MARGIN_VERTICAL` are `f64` in the source and exact reals here. Rounding of the running height could change a break decision at the boundary.
- `units.rs`'s `to_meters` is modelled as written. The rest of the model converts with `Sizes.ToMeters`, from `src/size.rs`.

## Findings

| source | as written | input that shows it | evidently intended | confidence | as-written member | corrected member |
|---|---|---|---|---|---|---|
| src/ui/display.rs:135-140 | after a break, `y` is reset to 0 and the block that caused the break is not counted on its new page | block heights 10, 40, 40 with page height 50: breaks only at block 1, so page 2 holds 40 + 40 plus 20 of margins | the breaking block starts the new page's height (`y = b`), so every page with more than one block fits | not executed | Display.AsWrittenOverfills | Display.PageBreaksFit |
| src/units.rs:42-43 | feet-and-inches multiplies the inches by 12 instead of dividing, and inches ignores `length` and multiplies by 12 | 0 ft 12 in converts to 144 ft; 1 in converts to 12 ft | inches are twelfths of a foot, as in `src/size.rs:93-94` | not executed | Units.FeetInchesCounterexample | Sizes.InchesPerFoot |
