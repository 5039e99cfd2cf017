/**
 * The detergent calculator: the doses for a machine of the given capacity
 * are the doses for an 11 kg machine scaled in proportion. Arithmetic is
 * exact; the source's floating point and display rounding are not modelled.
 */
module Dosage {
  import Units

  /** The capacity, in kg, the reference doses are given for. */
  const ReferenceCapacity: real := 11.0

  /** The reference doses: powder in grams, powder in millilitres, liquid in millilitres. */
  const ReferencePowderG: real := 80.0
  const ReferencePowderMl: real := 240.0
  const ReferenceLiquidMl: real := 100.0

  /** The three doses the calculator reports. */
  datatype Dose = Dose(powderG: real, powderMl: real, liquidMl: real)

  /** Componentwise sum of two doses. */
  function Plus(a: Dose, b: Dose): Dose {
    Dose(a.powderG + b.powderG, a.powderMl + b.powderMl, a.liquidMl + b.liquidMl)
  }

  /** A dose with every component multiplied by `k`. */
  function Times(k: real, a: Dose): Dose {
    Dose(k * a.powderG, k * a.powderMl, k * a.liquidMl)
  }

  /**
   * `calcularDetergente`: every dose is its reference value times the ratio
   * of the capacity to the reference capacity. No capacity is rejected.
   */
  function Calculate(capacity: real): (d: Dose)
    ensures d.powderG * ReferenceCapacity == ReferencePowderG * capacity
    ensures d.powderMl * ReferenceCapacity == ReferencePowderMl * capacity
    ensures d.liquidMl * ReferenceCapacity == ReferenceLiquidMl * capacity
    ensures d.powderMl == 3.0 * d.powderG
  {
    var factor := capacity / ReferenceCapacity;
    Dose(ReferencePowderG * factor, ReferencePowderMl * factor, ReferenceLiquidMl * factor)
  }

  /** The reference machine gets exactly the reference doses. */
  lemma ReferenceDose()
    ensures Calculate(ReferenceCapacity) == Dose(ReferencePowderG, ReferencePowderMl, ReferenceLiquidMl)
    ensures Calculate(11.0) == Dose(80.0, 240.0, 100.0)
  {
  }

  /** Doubling or halving the reference capacity doubles or halves the doses. */
  lemma ScaledDoses()
    ensures Calculate(22.0) == Dose(160.0, 480.0, 200.0)
    ensures Calculate(5.5) == Dose(40.0, 120.0, 50.0)
  {
  }

  /** The doses of two capacities together are the doses of the combined capacity. */
  lemma Additive(a: real, b: real)
    ensures Calculate(a + b) == Plus(Calculate(a), Calculate(b))
  {
  }

  /** Scaling the capacity scales every dose by the same factor. */
  lemma Homogeneous(k: real, c: real)
    ensures Calculate(k * c) == Times(k, Calculate(c))
  {
    assert ReferencePowderG * (k * c / ReferenceCapacity) == k * (ReferencePowderG * (c / ReferenceCapacity));
    assert ReferencePowderMl * (k * c / ReferenceCapacity) == k * (ReferencePowderMl * (c / ReferenceCapacity));
    assert ReferenceLiquidMl * (k * c / ReferenceCapacity) == k * (ReferenceLiquidMl * (c / ReferenceCapacity));
  }

  /** A larger machine never gets less detergent. */
  lemma Monotone(a: real, b: real)
    requires a <= b
    ensures Calculate(a).powderG <= Calculate(b).powderG
    ensures Calculate(a).powderMl <= Calculate(b).powderMl
    ensures Calculate(a).liquidMl <= Calculate(b).liquidMl
  {
  }

  /** A capacity of zero or less is not rejected; it yields doses of zero or less. */
  lemma NonPositiveCapacity(c: real)
    requires c <= 0.0
    ensures Calculate(c).powderG <= 0.0 && Calculate(c).powderMl <= 0.0 && Calculate(c).liquidMl <= 0.0
    ensures c == 0.0 ==> Calculate(c) == Dose(0.0, 0.0, 0.0)
  {
  }

  /** The liquid dose is shown in litres exactly when the machine holds 110 kg or more. */
  lemma LiquidShownInLitres(c: real)
    ensures Units.ShowVolume(Calculate(c).liquidMl).unit == Units.Litre <==> c >= 110.0
  {
  }

  /** The powder volume is shown in litres exactly when 240 mL per 11 kg reaches a litre. */
  lemma PowderShownInLitres(c: real)
    ensures Units.ShowVolume(Calculate(c).powderMl).unit == Units.Litre <==> 240.0 * c >= 11000.0
  {
  }
}
