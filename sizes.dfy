/**
 * Lengths as entered by the user (src/size.rs): a unit, a major and a minor
 * amount (feet and inches for `FeetInches`), converted exactly to metres.
 * `fraction::Fraction` is exact, so amounts are `real`.
 */
module Sizes {

  /** One foot is 3048/10000 m (FEET_TO_METERS_NUM / FEET_TO_METERS_DEN). */
  const FeetToMeters: real := 3048.0 / 10000.0

  datatype SizeUnit = FeetInches | Inches | Centimeters | Meters {

    /** Only feet-and-inches sizes carry a second (minor) amount. */
    predicate HasMinor(): (r: bool)
      ensures r <==> MajorSymbol() == "ft"
    {
      this == FeetInches
    }

    /** The unit's name: it starts with the upper-case form of its symbol's first letter. */
    function MajorName(): (r: string)
      ensures r != [] && r[0] as int == MajorSymbol()[0] as int - 32
    {
      match this
      case FeetInches => "Feet"
      case Inches => "Inches"
      case Centimeters => "Centimeters"
      case Meters => "Meters"
    }

    /** The unit's symbol: one or two lower-case letters. */
    function MajorSymbol(): (r: string)
      ensures 1 <= |r| <= 2 && forall k :: 0 <= k < |r| ==> 'a' <= r[k] <= 'z'
    {
      match this
      case FeetInches => "ft"
      case Inches => "in"
      case Centimeters => "cm"
      case Meters => "m"
    }

    /** The minor amount of a feet-and-inches size is counted in inches. */
    function MinorName(): (r: string)
      ensures r == "" <==> !HasMinor()
      ensures HasMinor() ==> r == Inches.MajorName()
    {
      match this
      case FeetInches => "Inches"
      case _ => ""
    }

    function MinorSymbol(): (r: string)
      ensures r == "" <==> !HasMinor()
      ensures HasMinor() ==> r == Inches.MajorSymbol() && r != MajorSymbol()
    {
      match this
      case FeetInches => "in"
      case _ => ""
    }
  }

  /** `#[default]` on the enum: a new size is in metres. */
  function DefaultUnit(): (u: SizeUnit)
    ensures !u.HasMinor() && u.MajorSymbol() == "m"
  {
    Meters
  }

  datatype Size = Size(unit: SizeUnit, major: real, minor: real)

  /** `#[derive(Default)]`: zero metres. */
  function DefaultSize(): (s: Size)
    ensures s.unit == DefaultUnit() && ToMeters(s) == 0.0
  {
    Size(DefaultUnit(), 0.0, 0.0)
  }

  /** `Size::to_meters`, exact. */
  function ToMeters(s: Size): (r: real)
    ensures s.major >= 0.0 && s.minor >= 0.0 ==> r >= 0.0
  {
    match s.unit
    case FeetInches => FeetToMeters * (s.major + s.minor / 12.0)
    case Inches => FeetToMeters * (s.major / 12.0)
    case Meters => s.major
    case Centimeters => s.major / 100.0
  }

  /** `Size::from_meters`: a metre size whose conversion gives back `m`. */
  function FromMeters(m: real): (s: Size)
    ensures ToMeters(s) == m
    ensures s.unit == Meters && s.minor == 0.0
  {
    Size(Meters, m, 0.0)
  }

  /** With the minor amount fixed, a larger major amount is a longer size. */
  lemma ToMetersMonotone(unit: SizeUnit, a: real, b: real, minor: real)
    requires a <= b
    ensures ToMeters(Size(unit, a, minor)) <= ToMeters(Size(unit, b, minor))
  {
  }

  /** Twelve inches make a foot, whether written as feet-and-inches or inches. */
  lemma InchesPerFoot(feet: real, inches: real)
    ensures ToMeters(Size(FeetInches, feet, inches)) == ToMeters(Size(Inches, 12.0 * feet + inches, 0.0))
    ensures ToMeters(Size(FeetInches, 0.0, 12.0)) == ToMeters(Size(FeetInches, 1.0, 0.0))
  {
  }

  lemma CentimetersPerMeter(m: real)
    ensures ToMeters(Size(Centimeters, 100.0 * m, 0.0)) == ToMeters(Size(Meters, m, 0.0))
  {
  }

  /** How a fraction is shown: `Decimal(precision)`, `Fraction` or `Mixed`. */
  datatype FractionFormat = Decimal(precision: nat) | Fraction | Mixed

  /** `Fraction::trunc`: the integer part, rounded toward zero. */
  function Trunc(f: real): (n: int)
    ensures f >= 0.0 ==> 0.0 <= f - n as real < 1.0
    ensures f < 0.0 ==> -1.0 < f - n as real <= 0.0
  {
    if f >= 0.0 then f.Floor else -((-f).Floor)
  }

  /**
   * `FractionFormat::format_mixed`: the integer part and the remainder
   * separated by a space, either one left out when it is zero. `show` is
   * the `Display` of `fraction::Fraction`, a library routine not modelled here.
   */
  function FormatMixed(f: real, show: real -> string): (r: string)
    ensures f == 0.0 ==> r == "0"
    ensures f != 0.0 && Trunc(f) == 0 ==> r == show(f)
    ensures Trunc(f) != 0 && f == Trunc(f) as real ==> r == show(f)
    ensures Trunc(f) != 0 && f != Trunc(f) as real ==>
              r == show(Trunc(f) as real) + " " + show(f - Trunc(f) as real)
  {
    var whole := Trunc(f) as real;
    var remainder := f - whole;
    if whole == 0.0 && f == 0.0 then "0"
    else if whole == 0.0 then show(remainder)
    else if remainder == 0.0 then show(whole)
    else show(whole) + " " + show(remainder)
  }

  /**
   * `FractionFormat::format`. The decimal rendering goes through `f64`
   * rounding and is the parameter `decimal`. The mixed form of zero is "0",
   * and that of a whole number or of a proper fraction is the plain fraction.
   */
  function Format(format: FractionFormat, f: real, show: real -> string,
                  decimal: (real, nat) -> string): (r: string)
    ensures format.Decimal? ==> r == decimal(f, format.precision)
    ensures format.Fraction? ==> r == show(f)
    ensures format.Mixed? && f == 0.0 ==> r == "0"
    ensures format.Mixed? && f != 0.0 && (Trunc(f) == 0 || f == Trunc(f) as real) ==> r == show(f)
  {
    match format
    case Decimal(precision) => decimal(f, precision)
    case Mixed => FormatMixed(f, show)
    case Fraction => show(f)
  }

  /**
   * `Size::format`: "major symbol", followed by ", minor symbol" exactly
   * when the unit has a minor amount.
   */
  function FormatSize(s: Size, format: FractionFormat, show: real -> string,
                      decimal: (real, nat) -> string): (r: string)
    ensures var head := Format(format, s.major, show, decimal) + " " + s.unit.MajorSymbol();
            |head| <= |r| && r[..|head|] == head && (|r| > |head| <==> s.unit.HasMinor())
  {
    var output := Format(format, s.major, show, decimal) + " " + s.unit.MajorSymbol();
    if s.unit.HasMinor() then
      output + ", " + Format(format, s.minor, show, decimal) + " " + s.unit.MinorSymbol()
    else
      output
  }
}
