/** What the fire-danger calculation guarantees, and what it leaves undone,
    stated over the specification function Danger.Compute. */
module DangerProperties {
  import opened Numerics
  import opened Forest
  import opened Scans
  import opened Danger
  import Spread

  /** Under snow nothing can fault. The spread indices are set to 0, and the
      drying factor, both fuel moistures and the fire load rating keep their
      initial 0, 99, 99 and 0. The build-up index is the prior one unless more
      than 0.1 inch fell, and then it is the snow-decayed index floored at 0. */
  lemma SnowBranch(c: Conditions, m: MathLib)
    requires c.isSnow
    ensures Compute(c, m).Ok?
    ensures var d := Compute(c, m).value;
      && d.timberSpreadIndex == 0.0 && d.grassSpreadIndex == 0.0
      && d.dryingFactor == 0.0 && d.fuelMoisture == 99.0
      && d.lagFuelMoisture == 99.0 && d.fireLoadRating == 0.0
    ensures c.precipitation <= 0.1 ==> Compute(c, m).value.buildUpIndex == c.prevBuildUpIndex
    ensures c.precipitation > 0.1 ==> Compute(c, m).value.buildUpIndex >= 0.0
    ensures c.precipitation > 0.1 ==>
      Compute(c, m).value.buildUpIndex == Max(SnowDecay(c.prevBuildUpIndex, c.precipitation, m), 0.0)
  {
  }

  /** A build-up index decayed by precipitation is never left negative, in
      either branch; without precipitation a non-negative prior index stays
      non-negative, since the drying factor is not negative. */
  lemma BuildUpIndexNonNegative(c: Conditions, m: MathLib)
    requires c.precipitation > 0.1 || c.prevBuildUpIndex >= 0.0
    ensures Compute(c, m).Ok? ==> Compute(c, m).value.buildUpIndex >= 0.0
  {
  }

  /** The depression scan starts at band 1, so table entries A[0] and B[0] are
      never used: a depression up to 12.5 uses band 1, one up to 27.5 uses
      band 2, and a larger one reads C[3], past the end of C. */
  lemma FineFuelMoistureByDepression(c: Conditions, m: MathLib)
    ensures var dif := c.dryBulbTemp - c.wetBulbTemp;
      FineFuelMoisture(c, m)
      == if dif <= 12.5 then Ok(BandMoisture(1, dif, m))
         else if dif <= 27.5 then Ok(BandMoisture(2, dif, m))
         else Err(ArrayIndexOutOfBounds(3, 3))
  {
  }

  /** Every band's fine-fuel-moisture equation is positive: each scale in B
      is positive, and so is exp. */
  lemma BandMoisturePositive(band: nat, dif: real, m: MathLib)
    requires band < |A| && band < |B|
    ensures BandMoisture(band, dif, m) > 0.0
  {
  }

  /** The raw fine fuel moisture is positive: both reachable bands have a
      positive scale, and exp is positive. */
  lemma FineFuelMoisturePositive(c: Conditions, m: MathLib)
    ensures FineFuelMoisture(c, m).Ok? ==> FineFuelMoisture(c, m).value > 0.0
  {
    FineFuelMoistureByDepression(c, m);
  }

  /** Under snow the precipitation factor multiplies the logarithm from
      outside: the decayed index is the prior's term
      `-50 log(1 - exp(-prior / 50))` scaled by `exp(-1.175 (p - 0.1))`, so it
      is proportional to that factor, and positive exactly when the log term
      is negative. */
  lemma SnowDecayFactorOutsideLog(prior: real, p: real, q: real, m: MathLib)
    ensures SnowDecay(prior, p, m) * m.Exp(-1.175 * (q - 0.1))
         == SnowDecay(prior, q, m) * m.Exp(-1.175 * (p - 0.1))
    ensures SnowDecay(prior, p, m) > 0.0 <==> m.Log(1.0 - m.Exp(-prior / 50.0)) < 0.0
  {
  }

  /** Without snow the precipitation factor sits inside the logarithm: the
      decayed index depends on the prior index and the precipitation only
      through `(1 - exp(-prior / 50)) * exp(-1.175 (p - 0.1))`. */
  lemma RainDecayFactorInsideLog(a: real, p: real, b: real, q: real, m: MathLib)
    requires (1.0 - m.Exp(-a / 50.0)) * m.Exp(-1.175 * (p - 0.1))
          == (1.0 - m.Exp(-b / 50.0)) * m.Exp(-1.175 * (q - 0.1))
    ensures RainDecay(a, p, m) == RainDecay(b, q, m)
    ensures RainDecay(a, p, m) > 0.0
        <==> m.Log(1.0 - (1.0 - m.Exp(-a / 50.0)) * m.Exp(-1.175 * (p - 0.1))) < 0.0
  {
    var x := (1.0 - m.Exp(-a / 50.0)) * m.Exp(-1.175 * (p - 0.1));
    var y := (1.0 - m.Exp(-b / 50.0)) * m.Exp(-1.175 * (q - 0.1));
    assert RainDecay(a, p, m) == -50.0 * m.Log(1.0 - x);
    assert RainDecay(b, q, m) == -50.0 * m.Log(1.0 - y);
  }

  /** Without snow the construction faults exactly when the depression exceeds
      27.5 (C[3] is read) or the raw fine fuel moisture exceeds 10 (D decreases,
      so the scan runs on to D[6]). When it does not fault, the drying band is
      1 and the drying factor 0. */
  lemma NoSnowFaults(c: Conditions, m: MathLib)
    requires !c.isSnow
    ensures var dif := c.dryBulbTemp - c.wetBulbTemp;
      dif > 27.5 ==> Compute(c, m) == Err(ArrayIndexOutOfBounds(3, 3))
    ensures var dif := c.dryBulbTemp - c.wetBulbTemp;
      dif <= 27.5 && FineFuelMoisture(c, m).value > 10.0 ==> Compute(c, m) == Err(ArrayIndexOutOfBounds(6, 6))
    ensures Compute(c, m).Ok? <==> FineFuelMoisture(c, m).Ok? && FineFuelMoisture(c, m).value <= 10.0
    ensures Compute(c, m).Ok? ==> Compute(c, m).value.dryingFactor == 0.0
  {
  }

  /** The fine fuel moisture is the raw value floored at 1, plus 0, 5 or 10
      for a cured, transitional or green herb stage; hence at least 1. */
  lemma FuelMoistureFloorAndHerb(c: Conditions, m: MathLib)
    requires !c.isSnow && Compute(c, m).Ok?
    ensures var raw := FineFuelMoisture(c, m).value;
      var fuel := Compute(c, m).value.fuelMoisture;
      && (c.herbState == Cured ==> fuel == Max(raw, 1.0))
      && (c.herbState == Transition ==> fuel == Max(raw, 1.0) + 5.0)
      && (c.herbState == Green ==> fuel == Max(raw, 1.0) + 10.0)
    ensures Compute(c, m).value.fuelMoisture >= 1.0
  {
  }

  /** With every other input the same, a green herb stage gives a fine fuel
      moisture 10 above a cured one, a transitional stage 5 above, and the
      herb stage never decides whether the construction faults. */
  lemma HerbStageOrdering(c: Conditions, m: MathLib)
    requires !c.isSnow
    ensures var cured := Compute(c.(herbState := Cured), m);
      var transition := Compute(c.(herbState := Transition), m);
      var green := Compute(c.(herbState := Green), m);
      && cured.Ok? == transition.Ok? == green.Ok?
      && (cured.Ok? ==> transition.value.fuelMoisture == cured.value.fuelMoisture + 5.0)
      && (cured.Ok? ==> green.value.fuelMoisture == cured.value.fuelMoisture + 10.0)
  {
  }

  /** Without snow the build-up index is the precipitation-adjusted prior index
      (floored at 0) plus the drying factor, and the lag fuel moisture comes
      from it and the fine fuel moisture, strictly above 0.9 times the fine
      fuel moisture plus 0.5. */
  lemma NoSnowBuildUpAndLag(c: Conditions, m: MathLib)
    requires !c.isSnow && Compute(c, m).Ok?
    ensures var d := Compute(c, m).value;
      d.buildUpIndex
      == (if c.precipitation > 0.1 then Max(RainDecay(c.prevBuildUpIndex, c.precipitation, m), 0.0)
          else c.prevBuildUpIndex) + d.dryingFactor
    ensures var d := Compute(c, m).value;
      && d.lagFuelMoisture == LagMoisture(d.fuelMoisture, d.buildUpIndex, m)
      && d.lagFuelMoisture > 0.9 * d.fuelMoisture + 0.5
  {
  }

  /** The construction never calls its spread-index helpers: without snow both
      spread indices stay at their initial 0, below the minimum 1 the helpers
      would give for the same moistures, and the fire load rating stays 0 on
      every path. */
  lemma SpreadIndicesNeverComputed(c: Conditions, m: MathLib)
    ensures Compute(c, m).Ok? ==> Compute(c, m).value.fireLoadRating == 0.0
    ensures !c.isSnow && Compute(c, m).Ok? ==>
      var d := Compute(c, m).value;
      && d.timberSpreadIndex == 0.0 && d.grassSpreadIndex == 0.0
      && d.timberSpreadIndex < Spread.TimberSpread(d.lagFuelMoisture, c.windSpeed, m)
      && d.grassSpreadIndex < Spread.GrassSpread(d.fuelMoisture, d.lagFuelMoisture, c.windSpeed, m)
  {
  }
}
