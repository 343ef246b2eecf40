/**
 * The older length-unit module (src/units.rs). Its conversion is kept as
 * written; the lemmas at the end show where it disagrees with `Sizes`.
 */
module Units {
  import Sizes

  datatype LengthUnit = FeetInches | Inches | Centimeters | Meters {

    predicate HasSubunit(): (r: bool)
      ensures r <==> MainSymbol() == "ft"
    {
      this == FeetInches
    }

    function MainSymbol(): (r: string)
      ensures r != ""
    {
      match this
      case FeetInches => "ft"
      case Inches => "in"
      case Centimeters => "cm"
      case Meters => "m"
    }

    function SubunitSymbol(): (r: string)
      ensures r == "" <==> !HasSubunit()
    {
      match this
      case FeetInches => "in"
      case _ => ""
    }
  }

  /** `to_meters(length, sublength, unit)` exactly as src/units.rs writes it. */
  function ToMeters(length: real, sublength: real, unit: LengthUnit): (r: real)
    ensures length >= 0.0 && sublength >= 0.0 ==> r >= 0.0
    ensures unit == Meters ==> r == length
    ensures unit == Centimeters ==> 100.0 * r == length
  {
    match unit
    case FeetInches => Sizes.FeetToMeters * (length + sublength * 12.0)
    case Inches => Sizes.FeetToMeters * sublength * 12.0
    case Meters => length
    case Centimeters => length / 100.0
  }

  /** The two modules agree on metric units. */
  lemma MetricAgreesWithSizes(length: real, sublength: real)
    ensures ToMeters(length, sublength, Meters) == Sizes.ToMeters(Sizes.Size(Sizes.Meters, length, sublength))
    ensures ToMeters(length, sublength, Centimeters) == Sizes.ToMeters(Sizes.Size(Sizes.Centimeters, length, sublength))
  {
  }

  /** For `Inches`, the `length` argument is ignored. */
  lemma InchesIgnoresLength(a: real, b: real, sublength: real)
    ensures ToMeters(a, sublength, Inches) == ToMeters(b, sublength, Inches)
  {
  }

  /** Twelve inches come out as 144 feet, not one foot (the minor part is multiplied by 12). */
  lemma FeetInchesCounterexample()
    ensures ToMeters(0.0, 12.0, FeetInches) == 144.0 * ToMeters(1.0, 0.0, FeetInches)
    ensures ToMeters(0.0, 12.0, FeetInches) != ToMeters(1.0, 0.0, FeetInches)
    ensures Sizes.ToMeters(Sizes.Size(Sizes.FeetInches, 0.0, 12.0)) == ToMeters(1.0, 0.0, FeetInches)
  {
  }

  /** One inch comes out as twelve feet. */
  lemma InchesCounterexample()
    ensures ToMeters(0.0, 1.0, Inches) == 12.0 * Sizes.FeetToMeters
    ensures Sizes.ToMeters(Sizes.Size(Sizes.Inches, 1.0, 0.0)) == Sizes.FeetToMeters / 12.0
  {
  }
}
