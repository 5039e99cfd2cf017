/**
 * The unit switch used when showing weights and volumes: a value of a
 * thousand base units or more is shown in the larger unit (kg or L),
 * anything smaller in the base unit (g or mL). Only the choice of unit and
 * the exact magnitude shown are modelled; rounding to two decimals is not.
 */
module Units {

  /** The four units the screen shows. */
  datatype Unit = Gram | Kilogram | Millilitre | Litre

  /** A value as shown: a magnitude and its unit. */
  datatype Reading = Reading(value: real, unit: Unit)

  /** The label printed after the magnitude. */
  function Symbol(u: Unit): string {
    match u
    case Gram => "g"
    case Kilogram => "kg"
    case Millilitre => "mL"
    case Litre => "L"
  }

  /** How many base units (grams or millilitres) one of `u` stands for. */
  function Factor(u: Unit): real {
    if u.Kilogram? || u.Litre? then 1000.0 else 1.0
  }

  /** The smallest value shown in the larger unit. */
  const Threshold: real := 1000.0

  /**
   * Chooses between the base unit and the unit a thousand times larger.
   * The reading always stands for the same amount, and its magnitude is
   * below a thousand in the base unit and at least one in the larger unit.
   */
  function Scale(x: real, base: Unit, large: Unit): (r: Reading)
    requires (base, large) == (Gram, Kilogram) || (base, large) == (Millilitre, Litre)
    ensures r.value * Factor(r.unit) == x
    ensures r.unit == large <==> x >= Threshold
    ensures r.unit == base <==> x < Threshold
    ensures r.unit == base ==> r.value < Threshold
    ensures r.unit == large ==> r.value >= 1.0
  {
    if x >= Threshold then Reading(x / Threshold, large) else Reading(x, base)
  }

  /** The weight shown for a line of the list and for the running total. */
  function ShowWeight(grams: int): (r: Reading)
    ensures r.value * Factor(r.unit) == grams as real
    ensures r.unit == Kilogram <==> grams >= 1000
    ensures r.unit == Gram <==> grams < 1000
  {
    Scale(grams as real, Gram, Kilogram)
  }

  /** The volume shown for the detergent doses. */
  function ShowVolume(ml: real): (r: Reading)
    ensures r.value * Factor(r.unit) == ml
    ensures r.unit == Litre <==> ml >= 1000.0
    ensures r.unit == Millilitre <==> ml < 1000.0
  {
    Scale(ml, Millilitre, Litre)
  }

  /** The switch happens exactly at a thousand: 1000 g is 1 kg, 999 g stays in grams. */
  lemma WeightBoundary()
    ensures ShowWeight(1000) == Reading(1.0, Kilogram)
    ensures ShowWeight(999) == Reading(999.0, Gram)
    ensures ShowWeight(1100) == Reading(1.1, Kilogram)
  {
  }

  /** The same boundary for volumes: 1000 mL is 1 L, 999 mL stays in millilitres. */
  lemma VolumeBoundary()
    ensures ShowVolume(1000.0) == Reading(1.0, Litre)
    ensures ShowVolume(999.0) == Reading(999.0, Millilitre)
  {
  }

  /** A heavier amount is never shown in a smaller unit than a lighter one. */
  lemma ShowWeightMonotone(a: int, b: int)
    requires a <= b
    ensures ShowWeight(a).unit == Kilogram ==> ShowWeight(b).unit == Kilogram
  {
  }
}
