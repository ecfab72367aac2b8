/** The "AI metrics" panel: four percentages that drift by a random amount on every
    interval and are clamped back into a fixed band each. */
module BrainStats {
  import opened Util

  /** clamp(val, min, max) = Math.min(max, Math.max(min, val)). */
  function Clamp(val: real, lo: real, hi: real): (r: real)
    ensures lo <= hi ==> lo <= r <= hi
    ensures lo <= val <= hi ==> r == val
    ensures lo <= hi && val < lo ==> r == lo
    ensures lo <= hi && hi < val ==> r == hi
  {
    var atLeast := if val > lo then val else lo;
    if atLeast < hi then atLeast else hi
  }

  /** The product u * w of a sample and a width, kept as a named term so that the bound
      below can be stated about it. */
  function Scale(u: Sample, w: real): real {
    u * w
  }

  /** A sample scales a positive width to a value in [0, w). */
  lemma ScaleBelow(u: Sample, w: real)
    requires w > 0.0
    ensures 0.0 <= Scale(u, w) < w
  {
    assert (1.0 - u) * w > 0.0;
    assert w - u * w > 0.0;
  }

  /** rand(min, max) = Math.random() * (max - min) + min, for the sample u: a value in
      [min, max) whenever min < max. */
  function Rand(u: Sample, lo: real, hi: real): (r: real)
    ensures lo < hi ==> lo <= r < hi
  {
    if lo < hi then ScaleBelow(u, hi - lo); Scale(u, hi - lo) + lo
    else Scale(u, hi - lo) + lo
  }

  /** A metric's band and the most one interval may move it. */
  datatype Band = Band(lo: real, hi: real, spread: real)

  const STABILITY: Band := Band(88.0, 97.0, 1.2)
  const RISK: Band := Band(8.0, 15.0, 1.0)
  const BALANCE: Band := Band(80.0, 93.0, 1.0)
  const EFFICIENCY: Band := Band(15.0, 28.0, 1.0)

  predicate InBand(value: real, band: Band) {
    band.lo <= value <= band.hi
  }

  /** One interval's update of one metric: clamp(value + rand(-spread, spread), lo, hi). */
  function Drift(value: real, u: Sample, band: Band): real {
    Clamp(value + Rand(u, -band.spread, band.spread), band.lo, band.hi)
  }

  /** Whatever the random sample, a drifted metric is back inside its band, and from a
      value inside the band it has moved by at most the spread. */
  lemma DriftBounded(value: real, u: Sample, band: Band)
    requires band.lo <= band.hi && band.spread > 0.0
    ensures InBand(Drift(value, u, band), band)
    ensures InBand(value, band) ==>
      -band.spread <= Drift(value, u, band) - value <= band.spread
  {
    var delta := Rand(u, -band.spread, band.spread);
    var moved := value + delta;
    if InBand(value, band) {
      if moved < band.lo {
        assert Drift(value, u, band) == band.lo;
      } else if moved > band.hi {
        assert Drift(value, u, band) == band.hi;
      } else {
        assert Drift(value, u, band) == moved;
      }
    }
  }

  /** The four metrics of the panel. */
  class MetricsPanel {
    var stability: real
    var risk: real
    var balance: real
    var efficiency: real

    ghost predicate Valid()
      reads this
    {
      InBand(stability, STABILITY) && InBand(risk, RISK) &&
      InBand(balance, BALANCE) && InBand(efficiency, EFFICIENCY)
    }

    /** The starting readings 92, 11, 87 and 21 lie inside their bands. */
    constructor ()
      ensures Valid()
      ensures stability == 92.0 && risk == 11.0 && balance == 87.0 && efficiency == 21.0
    {
      stability, risk, balance, efficiency := 92.0, 11.0, 87.0, 21.0;
    }

    /** The interval callback: each metric drifts by its own random sample. Afterwards every
        metric is in its band, whatever the samples; from a valid panel, stability has moved
        by at most 1.2 and each other metric by at most 1. */
    method Tick(us: Sample, ur: Sample, ub: Sample, ue: Sample)
      modifies this
      ensures stability == Drift(old(stability), us, STABILITY)
      ensures risk == Drift(old(risk), ur, RISK)
      ensures balance == Drift(old(balance), ub, BALANCE)
      ensures efficiency == Drift(old(efficiency), ue, EFFICIENCY)
      ensures Valid()
      ensures old(Valid()) ==>
        && -1.2 <= stability - old(stability) <= 1.2
        && -1.0 <= risk - old(risk) <= 1.0
        && -1.0 <= balance - old(balance) <= 1.0
        && -1.0 <= efficiency - old(efficiency) <= 1.0
    {
      DriftBounded(stability, us, STABILITY);
      DriftBounded(risk, ur, RISK);
      DriftBounded(balance, ub, BALANCE);
      DriftBounded(efficiency, ue, EFFICIENCY);
      stability := Clamp(stability + Rand(us, -1.2, 1.2), 88.0, 97.0);
      risk := Clamp(risk + Rand(ur, -1.0, 1.0), 8.0, 15.0);
      balance := Clamp(balance + Rand(ub, -1.0, 1.0), 80.0, 93.0);
      efficiency := Clamp(efficiency + Rand(ue, -1.0, 1.0), 15.0, 28.0);
    }
  }
}
