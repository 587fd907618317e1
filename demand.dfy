/**
 * The daily demand curves (`curva_demanda_diaria`): a piecewise-constant
 * factor of the hour since opening, multiplied by the base arrival rate.
 * The copies disagree on the bands and on what happens outside [0, 8].
 */
module Demand {

  /** Length of the working day in hours; arrivals after it are dropped by most copies. */
  const Closing: real := 8.0

  /**
   * Factor of simulacion_master.py and simulacion_dashboard_final.py: five
   * bands with the lunch peak 1.8 on [3, 5), and nobody arrives outside [0, 8].
   */
  function MasterFactor(h: real): (f: real)
    ensures 0.0 <= f <= 1.8
    ensures f == 0.0 <==> h < 0.0 || h > Closing
    ensures f == 1.8 <==> 3.0 <= h < 5.0
  {
    if 0.0 <= h < 2.0 then 0.4
    else if 2.0 <= h < 3.0 then 0.8
    else if 3.0 <= h < 5.0 then 1.8
    else if 5.0 <= h < 7.0 then 1.2
    else if 7.0 <= h <= 8.0 then 0.6
    else 0.0
  }

  /**
   * Factor of simulacion_final.py: four two-hour bands with the peak 2.0 on
   * [4, 6), and a trickle of 0.1 outside [0, 8].
   */
  function FinalFactor(h: real): (f: real)
    ensures 0.1 <= f <= 2.0
    ensures f == 0.1 <==> h < 0.0 || h > Closing
    ensures f == 2.0 <==> 4.0 <= h < 6.0
  {
    if 0.0 <= h < 2.0 then 0.5
    else if 2.0 <= h < 4.0 then 1.0
    else if 4.0 <= h < 6.0 then 2.0
    else if 6.0 <= h <= 8.0 then 0.7
    else 0.1
  }

  /**
   * Factor of simulacion_pro.py: four two-hour bands with the peak 1.8 on
   * [4, 6), and a trickle of 0.1 outside [0, 8].
   */
  function ProFactor(h: real): (f: real)
    ensures 0.1 <= f <= 1.8
    ensures f == 0.1 <==> h < 0.0 || h > Closing
    ensures f == 1.8 <==> 4.0 <= h < 6.0
  {
    if 0.0 <= h < 2.0 then 0.4
    else if 2.0 <= h < 4.0 then 1.0
    else if 4.0 <= h < 6.0 then 1.8
    else if 6.0 <= h <= 8.0 then 0.6
    else 0.1
  }

  /**
   * Factor of simulacion_variable.py: the same four bands as the pro copy,
   * but a default of 0.5 outside [0, 8].
   */
  function VariableFactor(h: real): (f: real)
    ensures 0.4 <= f <= 1.8
    ensures f == 0.5 <==> h < 0.0 || h > Closing
    ensures 0.0 <= h <= Closing ==> f == ProFactor(h)
  {
    if 0.0 <= h < 2.0 then 0.4
    else if 2.0 <= h < 4.0 then 1.0
    else if 4.0 <= h < 6.0 then 1.8
    else if 6.0 <= h <= 8.0 then 0.6
    else 0.5
  }

  /** The lunch band is the busiest hour of each curve. */
  lemma PeakIsMaximum(h: real)
    ensures MasterFactor(h) <= MasterFactor(4.0)
    ensures FinalFactor(h) <= FinalFactor(5.0)
    ensures ProFactor(h) <= ProFactor(5.0)
    ensures VariableFactor(h) <= VariableFactor(5.0)
  {
  }

  /** The rate `tasa_base * factor` is positive exactly when the base rate is, except outside the day for the master curve. */
  lemma RateSign(h: real, base: real)
    ensures base * MasterFactor(h) > 0.0 <==> base > 0.0 && 0.0 <= h <= Closing
    ensures base * FinalFactor(h) > 0.0 <==> base > 0.0
    ensures base * ProFactor(h) > 0.0 <==> base > 0.0
    ensures base * VariableFactor(h) > 0.0 <==> base > 0.0
  {
    var m := MasterFactor(h);
    if base > 0.0 && m > 0.0 {
      assert base * m > 0.0;
    }
    if base <= 0.0 {
      assert base * m <= 0.0;
      assert base * FinalFactor(h) <= 0.0;
      assert base * ProFactor(h) <= 0.0;
      assert base * VariableFactor(h) <= 0.0;
    }
  }

  /** A draw of `random.expovariate(1.0)`: a unit exponential, which is positive. */
  type UnitDraw = r: real | r > 0.0 witness 1.0

  /**
   * `random.expovariate(rate)` written as a unit exponential draw scaled by
   * the rate: the gap is positive when the draw and the rate are, and a
   * higher rate gives a shorter gap for the same draw.
   */
  function Gap(draw: real, rate: real): (g: real)
    requires rate > 0.0
    ensures draw > 0.0 ==> g > 0.0
    ensures g * rate == draw
  {
    draw / rate
  }

  lemma GapShrinks(draw: real, r1: real, r2: real)
    requires draw > 0.0 && 0.0 < r1 <= r2
    ensures Gap(draw, r2) <= Gap(draw, r1)
  {
    var g1, g2 := Gap(draw, r1), Gap(draw, r2);
    assert g2 * r2 <= g1 * r2 by {
      assert g1 * (r2 - r1) >= 0.0;
    }
  }
}
