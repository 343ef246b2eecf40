/**
 * The interface helpers of src/ui/utils.rs: the drop-down selection
 * mappings, the text parsers for lengths, prices and quantities, the
 * price and quantity labels, the grouping of entered rows into a problem,
 * and the flattening of a solution map into a list of pairs and back.
 *
 * The library parsers `Fraction::from_str` and `Decimal::from_str` are the
 * parameters `fraction` and `decimal`: partial functions from a token to
 * an exact value. A panic of the source (`unwrap`, `panic!()`) on text the
 * user typed is `None`.
 */
module UiUtils {
  import opened Wrappers
  import opened Text
  import opened Sizes
  import opened Modeling

  // ----- selection indices -----

  /** The position of each dimension in its drop-down. */
  function DimensionIndex(d: Dimension): nat
  {
    match d
    case OneD => 0
    case TwoD => 1
  }

  /** `Dimension::from`: `None` where the source panics. */
  function DimensionFrom(selection: nat): (r: Option<Dimension>)
    ensures r.Some? <==> selection < 2
    ensures r.Some? ==> DimensionIndex(r.value) == selection
  {
    match selection
    case 0 => Some(OneD)
    case 1 => Some(TwoD)
    case _ => None
  }

  lemma DimensionFromIndex(d: Dimension)
    ensures DimensionFrom(DimensionIndex(d)) == Some(d)
  {
  }

  function SizeUnitIndex(u: SizeUnit): nat
  {
    match u
    case FeetInches => 0
    case Inches => 1
    case Meters => 2
    case Centimeters => 3
  }

  /** `SizeUnit::from`: `None` where the source panics. */
  function SizeUnitFrom(selection: nat): (r: Option<SizeUnit>)
    ensures r.Some? <==> selection < 4
    ensures r.Some? ==> SizeUnitIndex(r.value) == selection
  {
    match selection
    case 0 => Some(FeetInches)
    case 1 => Some(Inches)
    case 2 => Some(Meters)
    case 3 => Some(Centimeters)
    case _ => None
  }

  lemma SizeUnitFromIndex(u: SizeUnit)
    ensures SizeUnitFrom(SizeUnitIndex(u)) == Some(u)
  {
  }

  function FractionFormatIndex(f: FractionFormat): nat
  {
    match f
    case Decimal(_) => 0
    case Mixed => 1
    case Fraction => 2
  }

  /** `FractionFormat::from`: the precision only matters for `Decimal`. */
  function FractionFormatFrom(selection: nat, precision: nat): (r: Option<FractionFormat>)
    ensures r.Some? <==> selection < 3
    ensures r.Some? ==> FractionFormatIndex(r.value) == selection
    ensures r.Some? && r.value.Decimal? ==> r.value.precision == precision
  {
    match selection
    case 0 => Some(Decimal(precision))
    case 1 => Some(Mixed)
    case 2 => Some(Fraction)
    case _ => None
  }

  lemma FractionFormatFromIndex(f: FractionFormat, precision: nat)
    ensures FractionFormatFrom(FractionFormatIndex(f), precision)
            == Some(if f.Decimal? then Decimal(precision) else f)
  {
  }

  // ----- parsers -----

  /** The tokens of a length: trimmed, split at single spaces, empty pieces dropped. */
  function Tokens(text: string): (r: seq<string>)
    ensures forall k :: 0 <= k < |r| ==> r[k] != [] && ' ' !in r[k]
  {
    NonEmpty(Split(Trim(text), ' '))
  }

  /** `Fraction::from_str` accepts the token and its value is not negative. */
  predicate TokenValid(token: string, fraction: string -> Option<real>)
  {
    fraction(token).Some? && fraction(token).value >= 0.0
  }

  /** The sum of the tokens' values; `Err` once a token fails to parse or is negative. */
  function SumTokens(tokens: seq<string>, fraction: string -> Option<real>): (r: Result<real, ()>)
    ensures r.Ok? <==> forall k :: 0 <= k < |tokens| ==> TokenValid(tokens[k], fraction)
    ensures r.Ok? ==> r.value >= 0.0
  {
    if tokens == [] then Ok(0.0)
    else
      match SumTokens(tokens[..|tokens| - 1], fraction)
      case Err(e) => Err(e)
      case Ok(sum) =>
        match fraction(tokens[|tokens| - 1])
        case Some(value) =>
          if value < 0.0 then Err(()) else Ok(sum + value)
        case None => Err(())
  }

  /**
   * What `parse_positive_fraction` returns: at most two tokens, such as
   * "3 1/2", each non-negative, summed; no token at all only if `allowEmpty`.
   */
  function PositiveFraction(text: string, allowEmpty: bool, fraction: string -> Option<real>): (r: Result<real, ()>)
    ensures (Tokens(text) == [] && !allowEmpty) || |Tokens(text)| > 2 ==> r.Err?
    ensures Tokens(text) == [] && allowEmpty ==> r == Ok(0.0)
    ensures r.Ok? <==> && (Tokens(text) != [] || allowEmpty) && |Tokens(text)| <= 2
                       && forall k :: 0 <= k < |Tokens(text)| ==> TokenValid(Tokens(text)[k], fraction)
    ensures r.Ok? ==> r.value >= 0.0
  {
    var tokens := Tokens(text);
    if (tokens == [] && !allowEmpty) || |tokens| > 2 then Err(())
    else SumTokens(tokens, fraction)
  }

  /** A successful parse is the token's value, or the two tokens' values added. */
  lemma PositiveFractionValue(text: string, allowEmpty: bool, fraction: string -> Option<real>)
    requires PositiveFraction(text, allowEmpty, fraction).Ok?
    ensures var tokens := Tokens(text);
            var value := PositiveFraction(text, allowEmpty, fraction).value;
            && (|tokens| == 1 ==> value == fraction(tokens[0]).value)
            && (|tokens| == 2 ==> value == fraction(tokens[0]).value + fraction(tokens[1]).value)
  {
    var tokens := Tokens(text);
    if |tokens| == 1 {
      assert tokens[..0] == [];
      assert SumTokens(tokens, fraction) == Ok(0.0 + fraction(tokens[0]).value);
    } else if |tokens| == 2 {
      assert tokens[..1][..0] == [];
      assert SumTokens(tokens[..1], fraction) == Ok(0.0 + fraction(tokens[0]).value);
      assert SumTokens(tokens, fraction) == Ok(0.0 + fraction(tokens[0]).value + fraction(tokens[1]).value);
    }
  }

  /** `parse_positive_fraction`, with its accumulation loop and early return. */
  method ParsePositiveFraction(text: string, allowEmpty: bool, fraction: string -> Option<real>)
    returns (r: Result<real, ()>)
    ensures r == PositiveFraction(text, allowEmpty, fraction)
  {
    var tokens := Tokens(text);
    if (tokens == [] && !allowEmpty) || |tokens| > 2 {
      return Err(());
    }
    assert PositiveFraction(text, allowEmpty, fraction) == SumTokens(tokens, fraction);
    var size := 0.0;
    for k := 0 to |tokens|
      invariant SumTokens(tokens[..k], fraction) == Ok(size)
    {
      SumTokensStep(tokens, k, fraction, size);
      var parsed := fraction(tokens[k]);
      if parsed.None? || parsed.value < 0.0 {
        PrefixSumFails(tokens, k + 1, fraction);
        return Err(());
      }
      size := size + parsed.value;
    }
    assert tokens[..|tokens|] == tokens;
    r := Ok(size);
  }

  /** One more token: its value is added, or the sum fails. */
  lemma SumTokensStep(tokens: seq<string>, k: nat, fraction: string -> Option<real>, sum: real)
    requires k < |tokens| && SumTokens(tokens[..k], fraction) == Ok(sum)
    ensures var v := fraction(tokens[k]);
            SumTokens(tokens[..k + 1], fraction) == if v.None? || v.value < 0.0 then Err(()) else Ok(sum + v.value)
  {
    assert tokens[..k + 1][..k] == tokens[..k];
  }

  /** A prefix with an invalid token makes the whole sum fail. */
  lemma PrefixSumFails(tokens: seq<string>, n: nat, fraction: string -> Option<real>)
    requires n <= |tokens| && SumTokens(tokens[..n], fraction).Err?
    ensures SumTokens(tokens, fraction).Err?
  {
    var k :| 0 <= k < n && !TokenValid(tokens[..n][k], fraction);
    assert tokens[k] == tokens[..n][k];
  }

  /** `parse_price`: a non-negative decimal, or zero for an allowed empty text. */
  function ParsePrice(text: string, allowEmpty: bool, decimal: string -> Option<real>): (r: Result<real, ()>)
    ensures Trim(text) == [] ==> r == (if allowEmpty then Ok(0.0) else Err(()))
    ensures Trim(text) != [] ==> (r.Ok? <==> decimal(Trim(text)).Some? && decimal(Trim(text)).value >= 0.0)
    ensures Trim(text) != [] && r.Ok? ==> r.value == decimal(Trim(text)).value
    ensures r.Ok? ==> r.value >= 0.0
  {
    var t := Trim(text);
    if t == [] && !allowEmpty then Err(())
    else if t == [] then Ok(0.0)
    else
      match decimal(t)
      case Some(value) => if value >= 0.0 then Ok(value) else Err(())
      case None => Err(())
  }

  /**
   * `parse_quantity`: a non-negative 64-bit integer, or the unlimited
   * sentinel -1 for an allowed empty text.
   */
  function ParseQuantity(text: string, allowEmpty: bool): (r: Result<int, ()>)
    ensures r == Ok(Unlimited) <==> Trim(text) == [] && allowEmpty
    ensures Trim(text) == [] && !allowEmpty ==> r.Err?
    ensures Trim(text) != [] ==> (r.Ok? <==> ParseI64(Trim(text)).Some? && ParseI64(Trim(text)).value >= 0)
    ensures Trim(text) != [] && r.Ok? ==> r.value == ParseI64(Trim(text)).value
    ensures r.Ok? ==> r.value == Unlimited || 0 <= r.value <= I64Max
  {
    var t := Trim(text);
    if t == [] && !allowEmpty then Err(())
    else if t == [] then Ok(Unlimited)
    else
      match ParseI64(t)
      case Some(value) => if value >= 0 then Ok(value) else Err(())
      case None => Err(())
  }

  // ----- labels -----

  /** `format_quantity`: "Unlimited" for the sentinel, else the decimal numeral. */
  function FormatQuantity(quantity: int): (r: string)
    ensures r != [] && (r[0] == 'U' <==> quantity == Unlimited)
    ensures quantity >= 0 ==> forall k :: 0 <= k < |r| ==> IsDigit(r[k])
  {
    if quantity == Unlimited then "Unlimited" else IntToString(quantity)
  }

  /** A shown non-negative quantity reads back as itself. */
  lemma QuantityRoundTrip(quantity: int, allowEmpty: bool)
    requires 0 <= quantity <= I64Max
    ensures ParseQuantity(FormatQuantity(quantity), allowEmpty) == Ok(quantity)
  {
    TrimDigits(IntToString(quantity));
    ParseIntToString(quantity);
  }

  /** Text that starts with neither a sign nor a digit is not a quantity. */
  lemma WordRejected(t: string, allowEmpty: bool)
    requires t != [] && !IsWhitespace(t[0]) && !IsWhitespace(t[|t| - 1])
    requires !IsDigit(t[0]) && t[0] != '-' && t[0] != '+'
    ensures ParseQuantity(t, allowEmpty).Err?
  {
    TrimUnpadded(t);
    assert 0 <= 0 < |t| && !IsDigit(t[0]);
    assert ParseI64(t) == None;
  }

  /** The label of the sentinel is not a quantity the parser accepts. */
  lemma UnlimitedLabel(allowEmpty: bool)
    ensures FormatQuantity(Unlimited) == "Unlimited"
    ensures ParseQuantity(FormatQuantity(Unlimited), allowEmpty).Err?
  {
    var t := "Unlimited";
    assert t[0] == 'U' && t[|t| - 1] == 'd';
    WordRejected(t, allowEmpty);
  }

  /**
   * `format_price`: "Free" for a zero price, else "$" and the amount
   * rounded to `precision` places; the rounding goes through `f64` and is
   * the parameter `decimal`.
   */
  function FormatPrice(price: real, precision: nat, decimal: (real, nat) -> string): (r: string)
    ensures r == "Free" <==> price == 0.0
    ensures price != 0.0 ==> r == "$" + decimal(price, precision)
  {
    if price == 0.0 then "Free"
    else
      var r := "$" + decimal(price, precision);
      assert r[0] != "Free"[0];
      r
  }

  // ----- rows to problem -----

  /** The text fields of one supply or part row, as the interface stores them. */
  datatype EntryData = EntryData(
    name: string,
    material: string,
    dimension: nat,
    price: string,
    quantity: string,
    lengthUnit: nat,
    majorLength: string,
    minorLength: string)

  /** `Size::from(selection, major, minor)` and `parse_length`. */
  function LengthFrom(unit: nat, major: string, minor: string, fraction: string -> Option<real>): (r: Option<Size>)
    ensures r.Some? <==> && SizeUnitFrom(unit).Some?
                         && PositiveFraction(major, true, fraction).Ok?
                         && PositiveFraction(minor, true, fraction).Ok?
    ensures r.Some? ==> && r.value.unit == SizeUnitFrom(unit).value
                        && r.value.major == PositiveFraction(major, true, fraction).value
                        && r.value.minor == PositiveFraction(minor, true, fraction).value
                        && ToMeters(r.value) >= 0.0
  {
    match SizeUnitFrom(unit)
    case None => None
    case Some(u) =>
      match PositiveFraction(major, true, fraction)
      case Err(_) => None
      case Ok(majorValue) =>
        match PositiveFraction(minor, true, fraction)
        case Err(_) => None
        case Ok(minorValue) => Some(Size(u, majorValue, minorValue))
  }

  method ParseLength(unit: nat, major: string, minor: string, fraction: string -> Option<real>)
    returns (r: Option<Size>)
    ensures r == LengthFrom(unit, major, minor, fraction)
  {
    var u := SizeUnitFrom(unit);
    if u.None? {
      return None;
    }
    var majorValue := ParsePositiveFraction(major, true, fraction);
    var minorValue := ParsePositiveFraction(minor, true, fraction);
    if majorValue.Err? || minorValue.Err? {
      return None;
    }
    r := Some(Size(u.value, majorValue.value, minorValue.value));
  }

  /** The row's material: its name and selected dimension, `None` where `Dimension::from` panics. */
  function MaterialOf(e: EntryData): (r: Option<Material>)
    ensures r.Some? <==> e.dimension < 2
    ensures r.Some? ==> r.value.name == e.material && DimensionIndex(r.value.dimension) == e.dimension
  {
    match DimensionFrom(e.dimension)
    case None => None
    case Some(d) => Some(Material(e.material, d))
  }

  /** A supply row: its material and supply, `None` where building it panics. */
  function SupplyFrom(e: EntryData, fraction: string -> Option<real>, decimal: string -> Option<real>)
    : (r: Option<(Material, Supply)>)
    ensures r.Some? <==> && MaterialOf(e).Some?
                         && LengthFrom(e.lengthUnit, e.majorLength, e.minorLength, fraction).Some?
                         && ParsePrice(e.price, true, decimal).Ok?
                         && ParseQuantity(e.quantity, true).Ok?
    ensures r.Some? ==> && r.value.0 == MaterialOf(e).value
                        && r.value.1.name == e.name
                        && ToMeters(r.value.1.length) >= 0.0
                        && r.value.1.price >= 0.0
                        && (r.value.1.maxQuantity == Unlimited || r.value.1.maxQuantity >= 0)
  {
    match MaterialOf(e)
    case None => None
    case Some(material) =>
      match LengthFrom(e.lengthUnit, e.majorLength, e.minorLength, fraction)
      case None => None
      case Some(length) =>
        match ParsePrice(e.price, true, decimal)
        case Err(_) => None
        case Ok(price) =>
          match ParseQuantity(e.quantity, true)
          case Err(_) => None
          case Ok(maxQuantity) => Some((material, Supply(e.name, length, price, maxQuantity)))
  }

  /** A part row; an empty quantity gives the sentinel, which asks for no units. */
  function PartFrom(e: EntryData, fraction: string -> Option<real>): (r: Option<(Material, Part)>)
    ensures r.Some? <==> && MaterialOf(e).Some?
                         && LengthFrom(e.lengthUnit, e.majorLength, e.minorLength, fraction).Some?
                         && ParseQuantity(e.quantity, true).Ok?
    ensures r.Some? ==> && r.value.0 == MaterialOf(e).value
                        && r.value.1.name == e.name
                        && ToMeters(r.value.1.length) >= 0.0
                        && (r.value.1.quantity == Unlimited || r.value.1.quantity >= 0)
  {
    match MaterialOf(e)
    case None => None
    case Some(material) =>
      match LengthFrom(e.lengthUnit, e.majorLength, e.minorLength, fraction)
      case None => None
      case Some(length) =>
        match ParseQuantity(e.quantity, true)
        case Err(_) => None
        case Ok(quantity) => Some((material, Part(e.name, length, quantity)))
  }

  /** Every element converted, or `None` if any conversion fails. */
  function MapAll<A, B>(xs: seq<A>, f: A -> Option<B>): (r: Option<seq<B>>)
    ensures r.Some? <==> forall k :: 0 <= k < |xs| ==> f(xs[k]).Some?
    ensures r.Some? ==> |r.value| == |xs| && forall k :: 0 <= k < |xs| ==> r.value[k] == f(xs[k]).value
  {
    if xs == [] then Some([])
    else
      match MapAll(xs[..|xs| - 1], f)
      case None => None
      case Some(init) =>
        match f(xs[|xs| - 1])
        case None => None
        case Some(last) => Some(init + [last])
  }

  function SupplyItems(entries: seq<EntryData>, fraction: string -> Option<real>, decimal: string -> Option<real>)
    : Option<seq<(Material, Supply)>>
  {
    MapAll(entries, e => SupplyFrom(e, fraction, decimal))
  }

  function PartItems(entries: seq<EntryData>, fraction: string -> Option<real>): Option<seq<(Material, Part)>>
  {
    MapAll(entries, e => PartFrom(e, fraction))
  }

  /** One supply row, parsed field by field. */
  method ParseSupply(e: EntryData, fraction: string -> Option<real>, decimal: string -> Option<real>)
    returns (r: Option<(Material, Supply)>)
    ensures r == SupplyFrom(e, fraction, decimal)
  {
    var material := MaterialOf(e);
    var length := ParseLength(e.lengthUnit, e.majorLength, e.minorLength, fraction);
    var price := ParsePrice(e.price, true, decimal);
    var maxQuantity := ParseQuantity(e.quantity, true);
    if material.None? || length.None? || price.Err? || maxQuantity.Err? {
      return None;
    }
    r := Some((material.value, Supply(e.name, length.value, price.value, maxQuantity.value)));
  }

  /** One part row, parsed field by field. */
  method ParsePart(e: EntryData, fraction: string -> Option<real>) returns (r: Option<(Material, Part)>)
    ensures r == PartFrom(e, fraction)
  {
    var material := MaterialOf(e);
    var length := ParseLength(e.lengthUnit, e.majorLength, e.minorLength, fraction);
    var quantity := ParseQuantity(e.quantity, true);
    if material.None? || length.None? || quantity.Err? {
      return None;
    }
    r := Some((material.value, Part(e.name, length.value, quantity.value)));
  }

  /** The materials the items name. */
  function Materials<T>(items: seq<(Material, T)>): set<Material>
  {
    set k | 0 <= k < |items| :: items[k].0
  }

  /** The items of material `m`, in their order. */
  function Filter<T>(items: seq<(Material, T)>, m: Material): seq<T>
  {
    if items == [] then []
    else
      var last := items[|items| - 1];
      Filter(items[..|items| - 1], m) + (if last.0 == m then [last.1] else [])
  }

  /**
   * The problem the rows describe: one sub-problem per material named by a
   * supply or a part row, holding that material's supplies and parts in row
   * order and the common blade width.
   */
  function ProblemOf(supplies: seq<(Material, Supply)>, parts: seq<(Material, Part)>, bladeWidth: Size): (r: Problem)
    ensures r.Keys == Materials(supplies) + Materials(parts)
  {
    map m | m in Materials(supplies) + Materials(parts) :: SubProblem(Filter(supplies, m), Filter(parts, m), bladeWidth)
  }

  lemma FilterAppend<T>(items: seq<(Material, T)>, x: (Material, T), m: Material)
    ensures Filter(items + [x], m) == Filter(items, m) + (if x.0 == m then [x.1] else [])
  {
    assert (items + [x])[..|items|] == items;
  }

  lemma MaterialsAppend<T>(items: seq<(Material, T)>, x: (Material, T))
    ensures Materials(items + [x]) == Materials(items) + {x.0}
  {
    var all := items + [x];
    forall m | m in Materials(all) ensures m in Materials(items) + {x.0} {
      var k :| 0 <= k < |all| && all[k].0 == m;
      if k < |items| {
        assert items[k].0 == m;
      }
    }
    forall m | m in Materials(items) ensures m in Materials(all) {
      var k :| 0 <= k < |items| && items[k].0 == m;
      assert all[k].0 == m;
    }
    assert all[|items|].0 == x.0;
  }

  /** A material no item names has no items. */
  lemma {:induction false} FilterAbsent<T>(items: seq<(Material, T)>, m: Material)
    requires m !in Materials(items)
    ensures Filter(items, m) == []
  {
    if items != [] {
      var init := items[..|items| - 1];
      assert items == init + [items[|items| - 1]];
      MaterialsAppend(init, items[|items| - 1]);
      FilterAbsent(init, m);
    }
  }

  /** Every item lands in its material's list. */
  lemma {:induction false} FilterContains<T>(items: seq<(Material, T)>, k: nat)
    requires k < |items|
    ensures items[k].1 in Filter(items, items[k].0)
  {
    var n := |items|;
    var init := items[..n - 1];
    if k < n - 1 {
      FilterContains(init, k);
      assert init[k] == items[k];
    }
  }

  /** Filtering by every material and counting gives back every item. */
  lemma {:induction false} FilterLength<T>(items: seq<(Material, T)>, m: Material)
    ensures |Filter(items, m)| <= |items|
    ensures Filter(items, m) == [] <==> m !in Materials(items)
  {
    if items != [] {
      var init := items[..|items| - 1];
      var last := items[|items| - 1];
      assert items == init + [last];
      MaterialsAppend(init, last);
      FilterLength(init, m);
    }
  }

  lemma AddSupplyStep(supplies: seq<(Material, Supply)>, x: (Material, Supply), bladeWidth: Size)
    ensures var p := ProblemOf(supplies, [], bladeWidth);
            ProblemOf(supplies + [x], [], bladeWidth)
            == if x.0 in p then p[x.0 := p[x.0].(supplies := p[x.0].supplies + [x.1])]
               else p[x.0 := SubProblem([x.1], [], bladeWidth)]
  {
    var p := ProblemOf(supplies, [], bladeWidth);
    var q := ProblemOf(supplies + [x], [], bladeWidth);
    var expected := if x.0 in p then p[x.0 := p[x.0].(supplies := p[x.0].supplies + [x.1])]
                    else p[x.0 := SubProblem([x.1], [], bladeWidth)];
    MaterialsAppend(supplies, x);
    assert Materials<Part>([]) == {};
    assert q.Keys == expected.Keys;
    forall m | m in q ensures q[m] == expected[m] {
      FilterAppend(supplies, x, m);
      if m == x.0 && x.0 !in p {
        FilterAbsent(supplies, x.0);
      }
    }
  }

  lemma AddPartStep(supplies: seq<(Material, Supply)>, parts: seq<(Material, Part)>, x: (Material, Part), bladeWidth: Size)
    ensures var p := ProblemOf(supplies, parts, bladeWidth);
            ProblemOf(supplies, parts + [x], bladeWidth)
            == if x.0 in p then p[x.0 := p[x.0].(parts := p[x.0].parts + [x.1])]
               else p[x.0 := SubProblem([], [x.1], bladeWidth)]
  {
    var p := ProblemOf(supplies, parts, bladeWidth);
    var q := ProblemOf(supplies, parts + [x], bladeWidth);
    var expected := if x.0 in p then p[x.0 := p[x.0].(parts := p[x.0].parts + [x.1])]
                    else p[x.0 := SubProblem([], [x.1], bladeWidth)];
    MaterialsAppend(parts, x);
    assert q.Keys == expected.Keys;
    forall m | m in q ensures q[m] == expected[m] {
      FilterAppend(parts, x, m);
      if m == x.0 && x.0 !in p {
        FilterAbsent(supplies, x.0);
        FilterAbsent(parts, x.0);
      }
    }
  }

  /**
   * `generate_problem`: every supply row, then every part row, appended to
   * the sub-problem of its material, which is created on first sight.
   * `None` when a row's selection or text makes the source panic.
   */
  method GenerateProblem(supplyEntries: seq<EntryData>, partEntries: seq<EntryData>, bladeWidth: Size,
                         fraction: string -> Option<real>, decimal: string -> Option<real>)
    returns (r: Option<Problem>)
    ensures r.Some? <==> SupplyItems(supplyEntries, fraction, decimal).Some? && PartItems(partEntries, fraction).Some?
    ensures r.Some? ==> r.value == ProblemOf(SupplyItems(supplyEntries, fraction, decimal).value,
                                             PartItems(partEntries, fraction).value, bladeWidth)
  {
    var withSupplies := CollectSupplies(supplyEntries, bladeWidth, fraction, decimal);
    if withSupplies.None? {
      return None;
    }
    r := CollectParts(withSupplies.value, SupplyItems(supplyEntries, fraction, decimal).value, partEntries,
                      bladeWidth, fraction);
  }

  /** The supply loop of `generate_problem`. */
  method CollectSupplies(entries: seq<EntryData>, bladeWidth: Size,
                         fraction: string -> Option<real>, decimal: string -> Option<real>)
    returns (r: Option<Problem>)
    ensures r.Some? <==> SupplyItems(entries, fraction, decimal).Some?
    ensures r.Some? ==> r.value == ProblemOf(SupplyItems(entries, fraction, decimal).value, [], bladeWidth)
  {
    var problem: Problem := map[];
    ghost var supplies: seq<(Material, Supply)> := [];
    for k := 0 to |entries|
      invariant SupplyItems(entries[..k], fraction, decimal) == Some(supplies)
      invariant problem == ProblemOf(supplies, [], bladeWidth)
    {
      var item := ParseSupply(entries[k], fraction, decimal);
      MapAllStep(entries, k, e => SupplyFrom(e, fraction, decimal), supplies);
      if item.None? {
        return None;
      }
      problem := AddSupply(problem, supplies, item.value, bladeWidth);
      supplies := supplies + [item.value];
    }
    assert entries[..|entries|] == entries;
    r := Some(problem);
  }

  /** One step of the supply loop: the supply joins its material's sub-problem. */
  method AddSupply(problem: Problem, ghost supplies: seq<(Material, Supply)>, item: (Material, Supply), bladeWidth: Size)
    returns (next: Problem)
    requires problem == ProblemOf(supplies, [], bladeWidth)
    ensures next == ProblemOf(supplies + [item], [], bladeWidth)
  {
    var (material, supply) := item;
    AddSupplyStep(supplies, item, bladeWidth);
    if material in problem {
      next := problem[material := problem[material].(supplies := problem[material].supplies + [supply])];
    } else {
      next := problem[material := SubProblem([supply], [], bladeWidth)];
    }
  }

  /** The part loop of `generate_problem`, continuing from the supplies' problem. */
  method CollectParts(problem: Problem, ghost supplies: seq<(Material, Supply)>, entries: seq<EntryData>,
                      bladeWidth: Size, fraction: string -> Option<real>)
    returns (r: Option<Problem>)
    requires problem == ProblemOf(supplies, [], bladeWidth)
    ensures r.Some? <==> PartItems(entries, fraction).Some?
    ensures r.Some? ==> r.value == ProblemOf(supplies, PartItems(entries, fraction).value, bladeWidth)
  {
    var current := problem;
    ghost var parts: seq<(Material, Part)> := [];
    for k := 0 to |entries|
      invariant PartItems(entries[..k], fraction) == Some(parts)
      invariant current == ProblemOf(supplies, parts, bladeWidth)
    {
      var item := ParsePart(entries[k], fraction);
      MapAllStep(entries, k, e => PartFrom(e, fraction), parts);
      if item.None? {
        return None;
      }
      current := AddPart(current, supplies, parts, item.value, bladeWidth);
      parts := parts + [item.value];
    }
    assert entries[..|entries|] == entries;
    r := Some(current);
  }

  /** One step of the part loop: the part joins its material's sub-problem. */
  method AddPart(problem: Problem, ghost supplies: seq<(Material, Supply)>, ghost parts: seq<(Material, Part)>,
                 item: (Material, Part), bladeWidth: Size)
    returns (next: Problem)
    requires problem == ProblemOf(supplies, parts, bladeWidth)
    ensures next == ProblemOf(supplies, parts + [item], bladeWidth)
  {
    var (material, part) := item;
    AddPartStep(supplies, parts, item, bladeWidth);
    if material in problem {
      next := problem[material := problem[material].(parts := problem[material].parts + [part])];
    } else {
      next := problem[material := SubProblem([], [part], bladeWidth)];
    }
  }

  /** Converting one more element: it fails if that element fails, else it extends the prefix's result. */
  lemma MapAllStep<A, B>(xs: seq<A>, k: nat, f: A -> Option<B>, init: seq<B>)
    requires k < |xs| && MapAll(xs[..k], f) == Some(init)
    ensures f(xs[k]).None? ==> MapAll(xs, f).None?
    ensures f(xs[k]).Some? ==> MapAll(xs[..k + 1], f) == Some(init + [f(xs[k]).value])
  {
    assert xs[..k + 1][..k] == xs[..k];
    if f(xs[k]).None? {
      assert xs[..k + 1][k] == xs[k];
      PrefixFails(xs, k + 1, f);
    }
  }

  /** A failing prefix makes the whole conversion fail. */
  lemma PrefixFails<A, B>(xs: seq<A>, n: nat, f: A -> Option<B>)
    requires n <= |xs| && MapAll(xs[..n], f).None?
    ensures MapAll(xs, f).None?
  {
    var k :| 0 <= k < n && f(xs[..n][k]).None?;
    assert xs[..n][k] == xs[k];
  }

  /**
   * What the rows promise the planner: each row's supply or part is in its
   * material's sub-problem, a material named only by parts has no
   * supplies, every sub-problem has the given blade width, and every parsed
   * length, price and limit is in range.
   */
  lemma ProblemOfRows(supplies: seq<(Material, Supply)>, parts: seq<(Material, Part)>, bladeWidth: Size)
    ensures var p := ProblemOf(supplies, parts, bladeWidth);
            && (forall k :: 0 <= k < |supplies| ==> supplies[k].1 in p[supplies[k].0].supplies)
            && (forall k :: 0 <= k < |parts| ==> parts[k].1 in p[parts[k].0].parts)
            && (forall m :: m in p && m !in Materials(supplies) ==> p[m].supplies == [])
            && (forall m :: m in p ==> p[m].bladeWidth == bladeWidth && (p[m].supplies != [] || p[m].parts != []))
  {
    var p := ProblemOf(supplies, parts, bladeWidth);
    forall k | 0 <= k < |supplies| ensures supplies[k].1 in p[supplies[k].0].supplies {
      FilterContains(supplies, k);
    }
    forall k | 0 <= k < |parts| ensures parts[k].1 in p[parts[k].0].parts {
      FilterContains(parts, k);
    }
    forall m | m in p ensures (m !in Materials(supplies) ==> p[m].supplies == []) && (p[m].supplies != [] || p[m].parts != []) {
      FilterLength(supplies, m);
      FilterLength(parts, m);
    }
  }

  // ----- solution map to pairs and back -----

  function PairKeys<K, V>(pairs: seq<(K, V)>): set<K>
  {
    set j | 0 <= j < |pairs| :: pairs[j].0
  }

  /** `pairs` lists every entry of `m` exactly once, in some order. */
  predicate Enumerates<K, V(==)>(m: map<K, V>, pairs: seq<(K, V)>)
  {
    && PairKeys(pairs) == m.Keys
    && (forall k :: 0 <= k < |pairs| ==> pairs[k].0 in m && m[pairs[k].0] == pairs[k].1)
    && (forall a, b :: 0 <= a < b < |pairs| ==> pairs[a].0 != pairs[b].0)
  }

  lemma PairKeysAppend<K, V>(pairs: seq<(K, V)>, x: (K, V))
    ensures PairKeys(pairs + [x]) == PairKeys(pairs) + {x.0}
  {
    var all := pairs + [x];
    forall k | k in PairKeys(all) ensures k in PairKeys(pairs) + {x.0} {
      var j :| 0 <= j < |all| && all[j].0 == k;
      if j < |pairs| { assert pairs[j].0 == k; }
    }
    forall k | k in PairKeys(pairs) ensures k in PairKeys(all) {
      var j :| 0 <= j < |pairs| && pairs[j].0 == k;
      assert all[j].0 == k;
    }
    assert all[|pairs|].0 == x.0;
  }

  /** Adding a new key at the end of an enumeration enumerates the larger map. */
  lemma EnumeratesAdd<K, V>(m: map<K, V>, pairs: seq<(K, V)>, k: K, v: V)
    requires Enumerates(m, pairs) && k !in m
    ensures Enumerates(m[k := v], pairs + [(k, v)])
  {
    PairKeysAppend(pairs, (k, v));
    var all := pairs + [(k, v)];
    forall a, b | 0 <= a < b < |all| ensures all[a].0 != all[b].0 {
      if b == |pairs| {
        assert all[a].0 in PairKeys(pairs);
      }
    }
  }

  /** Some enumeration of a map; the source's `into_iter` order is unspecified. */
  ghost function MapPairs<K, V>(m: map<K, V>): (r: seq<(K, V)>)
    ensures Enumerates(m, r)
    decreases |m|
  {
    if m == map[] then []
    else
      var k :| k in m;
      var rest := m - {k};
      assert |rest| < |m| by { assert rest.Keys < m.Keys; }
      var pairs := MapPairs(rest);
      EnumeratesAdd(rest, pairs, k, m[k]);
      assert rest[k := m[k]] == m;
      pairs + [(k, m[k])]
  }

  /** `flatten_results`: a solution map becomes a list of pairs. */
  ghost function FlattenResults(results: Option<Result<Solution, string>>): (r: Option<Result<seq<(Material, SubSolution)>, string>>)
    ensures results.None? <==> r.None?
    ensures results.Some? && results.value.Err? ==> r == Some(Err(results.value.error))
    ensures results.Some? && results.value.Ok? ==> r.Some? && r.value.Ok? && Enumerates(results.value.value, r.value.value)
  {
    match results
    case Some(Ok(solution)) => Some(Ok(MapPairs(solution)))
    case Some(Err(message)) => Some(Err(message))
    case None => None
  }

  /** The map the pairs build when inserted in order. */
  function FromPairs<K, V>(pairs: seq<(K, V)>): (r: map<K, V>)
    ensures r.Keys == PairKeys(pairs)
  {
    if pairs == [] then map[]
    else
      var last := pairs[|pairs| - 1];
      var init := pairs[..|pairs| - 1];
      assert pairs == init + [last];
      PairKeysAppend(init, last);
      FromPairs(init)[last.0 := last.1]
  }

  /** A later pair wins. */
  lemma {:induction false} FromPairsLast<K, V>(pairs: seq<(K, V)>, j: nat)
    requires j < |pairs|
    requires forall i :: j < i < |pairs| ==> pairs[i].0 != pairs[j].0
    ensures pairs[j].0 in FromPairs(pairs) && FromPairs(pairs)[pairs[j].0] == pairs[j].1
  {
    var n := |pairs|;
    if j < n - 1 {
      var init := pairs[..n - 1];
      FromPairsLast(init, j);
    }
  }

  /** Inserting an enumeration of a map gives the map back. */
  lemma FromEnumeration<K, V>(m: map<K, V>, pairs: seq<(K, V)>)
    requires Enumerates(m, pairs)
    ensures FromPairs(pairs) == m
  {
    var r := FromPairs(pairs);
    forall k | k in r ensures r[k] == m[k] {
      var j :| 0 <= j < |pairs| && pairs[j].0 == k;
      FromPairsLast(pairs, j);
    }
  }

  /** What `unflatten_results` returns. */
  function Unflattened(results: Option<Result<seq<(Material, SubSolution)>, string>>): Option<Result<Solution, string>>
  {
    match results
    case Some(Ok(pairs)) => Some(Ok(FromPairs(pairs)))
    case Some(Err(message)) => Some(Err(message))
    case None => None
  }

  /** `unflatten_results`, inserting the pairs one by one. */
  method UnflattenResults(results: Option<Result<seq<(Material, SubSolution)>, string>>)
    returns (r: Option<Result<Solution, string>>)
    ensures r == Unflattened(results)
  {
    match results
    case Some(Ok(pairs)) =>
      var solution: Solution := map[];
      for j := 0 to |pairs|
        invariant solution == FromPairs(pairs[..j])
      {
        assert pairs[..j + 1][..j] == pairs[..j];
        solution := solution[pairs[j].0 := pairs[j].1];
      }
      assert pairs[..|pairs|] == pairs;
      r := Some(Ok(solution));
    case Some(Err(message)) =>
      r := Some(Err(message));
    case None =>
      r := None;
  }

  /** Flattening and unflattening gives back the results, errors and absence included. */
  lemma UnflattenFlatten(results: Option<Result<Solution, string>>)
    ensures Unflattened(FlattenResults(results)) == results
  {
    if results.Some? && results.value.Ok? {
      FromEnumeration(results.value.value, FlattenResults(results).value.value);
    }
  }
}
