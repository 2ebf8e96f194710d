/** The NFDRS spread-index formula, written once, and the timber and grass
    spread indices as reference definitions. Both classes of the calculation
    compute the indices with their own cut-off and clamping around the
    formula; each is proved equal to the reference. */
module Spread {
  import opened Numerics

  /** The unclamped formula: a coefficient of 0.1312 with a wind offset of 6
      for winds below 14 mph, 0.00918 with an offset of 14 for stronger winds. */
  function RawSpread(moisture: real, wind: real, m: MathLib): real
  {
    if wind < 14.0 then 0.1312 * (wind + 6.0) * m.Pow(33.0 - moisture, 1.65) - 3.0
    else 0.00918 * (wind + 14.0) * m.Pow(33.0 - moisture, 1.65) - 3.0
  }

  /** For a fuel whose moisture term `Pow(33 - moisture, 1.65)` is positive,
      the formula grows with the wind within each regime, but falls when the
      wind reaches 14 mph: every wind from 0 up to 14 gives more than 14 does. */
  lemma RawSpreadWindRegimes(moisture: real, w1: real, w2: real, m: MathLib)
    requires m.Pow(33.0 - moisture, 1.65) > 0.0
    ensures w1 < w2 < 14.0 ==> RawSpread(moisture, w1, m) < RawSpread(moisture, w2, m)
    ensures 14.0 <= w1 < w2 ==> RawSpread(moisture, w1, m) < RawSpread(moisture, w2, m)
    ensures 0.0 <= w1 < 14.0 ==> RawSpread(moisture, w1, m) > RawSpread(moisture, 14.0, m)
  {
  }

  /** The spread index of a fuel of the given moisture, kept within [1, 99]. */
  function SpreadIndex(moisture: real, wind: real, m: MathLib): (r: real)
    ensures 1.0 <= r <= 99.0
    ensures 1.0 <= RawSpread(moisture, wind, m) <= 99.0 ==> r == RawSpread(moisture, wind, m)
    ensures RawSpread(moisture, wind, m) >= 99.0 ==> r == 99.0
    ensures RawSpread(moisture, wind, m) <= 1.0 ==> r == 1.0
  {
    Max(Min(RawSpread(moisture, wind, m), 99.0), 1.0)
  }

  /** Timber spread: the minimum 1 once the lag moisture reaches 30%, otherwise
      the formula on the lag moisture. */
  function TimberSpread(lagMoisture: real, wind: real, m: MathLib): (r: real)
    ensures 1.0 <= r <= 99.0
    ensures lagMoisture >= 30.0 ==> r == 1.0
  {
    if lagMoisture >= 30.0 then 1.0 else SpreadIndex(lagMoisture, wind, m)
  }

  /** Grass spread: the minimum 1 when both moistures reach 30%, otherwise the
      formula on the fine fuel moisture. */
  function GrassSpread(fineMoisture: real, lagMoisture: real, wind: real, m: MathLib): (r: real)
    ensures 1.0 <= r <= 99.0
    ensures lagMoisture >= 30.0 && fineMoisture >= 30.0 ==> r == 1.0
  {
    if lagMoisture >= 30.0 && fineMoisture >= 30.0 then 1.0 else SpreadIndex(fineMoisture, wind, m)
  }
}
