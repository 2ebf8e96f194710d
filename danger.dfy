/** The NFDRS daily calculation performed by the FireDanger constructor: fine
    fuel moisture, drying factor, build-up index and lag fuel moisture, with the
    snow / no-snow branch and the two 1-based table scans as written. */
module Danger {
  import opened Numerics
  import opened Forest
  import opened Scans
  import Spread

  // The four tables of the calculation. They are never written, so they are
  // immutable sequences.

  /** Per-band exponent of the fine-fuel-moisture formula. */
  const A: seq<real> := [-0.185900, -0.8590, -0.059660, -0.077373]
  /** Per-band scale of the fine-fuel-moisture formula */
  const B: seq<real> := [30.0, 19.2, 13.8, 22.5]
  /** Breakpoints of the wet-bulb depression */
  const C: seq<real> := [4.5, 12.5, 27.5]
  /** Breakpoints of the fine fuel moisture for the drying factor. */
  const D: seq<real> := [16.0, 10.0, 7.0, 5.0, 4.0, 3.0]

  /** The seven computed quantities, in the order the class declares them. */
  datatype DangerIndices = DangerIndices(
    dryingFactor: real,
    fuelMoisture: real,
    lagFuelMoisture: real,
    grassSpreadIndex: real,
    timberSpreadIndex: real,
    fireLoadRating: real,
    buildUpIndex: real)

  /** The values the field initialisers give, and Java's 0.0 for the fields
      declared without one. */
  const Initial := DangerIndices(0.0, 99.0, 99.0, 0.0, 0.0, 0.0, 0.0)

  /** The depression band: the scan over C from index 1 with cap 4. Only bands
      1 and 2 are reachable; a depression above the last breakpoint reads C[3]. */
  function DepressionBand(dif: real): (r: Result<nat>)
    ensures r == Ok(1) <==> dif <= 12.5
    ensures r == Ok(2) <==> 12.5 < dif <= 27.5
    ensures r == Err(ArrayIndexOutOfBounds(3, 3)) <==> dif > 27.5
  {
    Scan(C, dif, 1, 4)
  }

  /** The drying band: the scan over D from index 1 with cap 7. D decreases, so
      a moisture above D[1] = 10 exceeds every later entry and reads D[6]. */
  function DryingBand(moisture: real): (r: Result<nat>)
    ensures r == Ok(1) <==> moisture <= 10.0
    ensures r == Err(ArrayIndexOutOfBounds(6, 6)) <==> moisture > 10.0
  {
    Scan(D, moisture, 1, 7)
  }

  /** The drying factor of a drying band: 7 for band 7, otherwise band - 1. */
  function DryingFactor(index: int): (f: real)
    ensures 1 <= index <= 7 ==> 0.0 <= f <= 7.0 && f.Floor as real == f
  {
    if index == 7 then 7.0 else (index - 1) as real
  }

  /** The herb-stage addition to the fine fuel moisture: none for cured
      vegetation, 5 for a transitional stage and 10 for green vegetation. */
  function HerbAdjustment(h: HerbStage): (r: real)
    ensures r == 0.0 <==> h == Cured
    ensures r == 5.0 <==> h == Transition
    ensures r == 10.0 <==> h == Green
  {
    match h
    case Transition => 5.0
    case Green => 10.0
    case Cured => 0.0
  }

  /** The fine-fuel-moisture equation of one band: its scale times exp of its
      exponent times the wet-bulb depression. */
  function BandMoisture(band: nat, dif: real, m: MathLib): real
    requires band < |A| && band < |B|
  {
    B[band] * m.Exp(A[band] * dif)
  }

  /** The precipitation-decay equation of the build-up index under snow. */
  function SnowDecay(prior: real, precipitation: real, m: MathLib): real
  {
    -50.0 * m.Log(1.0 - m.Exp(-prior / 50.0)) * m.Exp(-1.175 * (precipitation - 0.1))
  }

  /** The precipitation-decay equation of the build-up index without snow. */
  function RainDecay(prior: real, precipitation: real, m: MathLib): real
  {
    -50.0 * m.Log(1.0 - (1.0 - m.Exp(-prior / 50.0)) * m.Exp(-1.175 * (precipitation - 0.1)))
  }

  /** The adjusted (10-day lag) fuel moisture equation. Its exp term is
      positive, so the result always exceeds 0.9 times the fine fuel moisture
      plus 0.5. */
  function LagMoisture(fuel: real, buildUp: real, m: MathLib): (r: real)
    ensures r > 0.9 * fuel + 0.5
  {
    0.9 * fuel + 0.5 + 9.5 * m.Exp(-buildUp / 50.0)
  }

  /** Fine fuel moisture from the wet-bulb depression, before the floor: the
      equation of the band the depression scan selects. */
  function FineFuelMoisture(c: Conditions, m: MathLib): (r: Result<real>)
    ensures r.Err? <==> c.dryBulbTemp - c.wetBulbTemp > 27.5
  {
    var dif := c.dryBulbTemp - c.wetBulbTemp;
    match DepressionBand(dif)
    case Err(f) => Err(f)
    case Ok(band) => Ok(BandMoisture(band, dif, m))
  }

  /** The two ways the no-snow computation can end, stated step by step. */
  lemma ComputeNoSnow(c: Conditions, m: MathLib)
    requires !c.isSnow
    ensures FineFuelMoisture(c, m).Err? ==> Compute(c, m) == Err(FineFuelMoisture(c, m).fault)
    ensures FineFuelMoisture(c, m).Ok? && DryingBand(FineFuelMoisture(c, m).value).Err? ==>
      Compute(c, m) == Err(DryingBand(FineFuelMoisture(c, m).value).fault)
    ensures FineFuelMoisture(c, m).Ok? && DryingBand(FineFuelMoisture(c, m).value).Ok? ==>
      Compute(c, m) == Ok(NoSnowIndices(c, m, FineFuelMoisture(c, m).value,
                                        DryingFactor(DryingBand(FineFuelMoisture(c, m).value).value)))
  {
  }

  /** The fine fuel moisture is read from the table entries of the band the
      depression scan selects. */
  lemma FineFuelMoistureOfBand(c: Conditions, m: MathLib, band: nat)
    requires DepressionBand(c.dryBulbTemp - c.wetBulbTemp) == Ok(band)
    ensures band < |B| && band < |A|
    ensures FineFuelMoisture(c, m)
            == Ok(BandMoisture(band, c.dryBulbTemp - c.wetBulbTemp, m))
  {
  }

  /** The build-up index under snow: the decay formula when more than 0.1 inch
      fell, stopped at 0 from below; otherwise the prior index. */
  function SnowBuildUp(prior: real, precipitation: real, m: MathLib): (b: real)
    ensures precipitation > 0.1 ==> b >= 0.0
    ensures precipitation <= 0.1 ==> b == prior
  {
    if precipitation > 0.1 then
      var decayed := SnowDecay(prior, precipitation, m);
      if decayed < 0.0 then 0.0 else decayed
    else prior
  }

  /** The build-up index without snow, before the drying factor: the (other)
      decay formula when more than 0.1 inch fell, floored at 0; otherwise the prior. */
  function RainBuildUp(prior: real, precipitation: real, m: MathLib): (b: real)
    ensures precipitation > 0.1 ==> b >= 0.0
    ensures precipitation <= 0.1 ==> b == prior
  {
    if precipitation > 0.1 then
      Max(RainDecay(prior, precipitation, m), 0.0)
    else prior
  }

  /** The no-snow outcome once the raw fine fuel moisture and the drying factor
      are known; the spread indices and the fire load rating keep their initial 0. */
  function NoSnowIndices(c: Conditions, m: MathLib, raw: real, drying: real): DangerIndices
  {
    var fuel := Max(raw, 1.0) + HerbAdjustment(c.herbState);
    var buildUp := RainBuildUp(c.prevBuildUpIndex, c.precipitation, m) + drying;
    DangerIndices(drying, fuel, LagMoisture(fuel, buildUp, m),
                  Initial.grassSpreadIndex, Initial.timberSpreadIndex, Initial.fireLoadRating, buildUp)
  }

  /** `NoSnowIndices` in terms of the adjusted fuel moisture and build-up index. */
  lemma NoSnowIndicesOf(c: Conditions, m: MathLib, raw: real, drying: real, fuel: real, buildUp: real)
    requires fuel == Max(raw, 1.0) + HerbAdjustment(c.herbState)
    requires buildUp == RainBuildUp(c.prevBuildUpIndex, c.precipitation, m) + drying
    ensures NoSnowIndices(c, m, raw, drying) == DangerIndices(drying, fuel, LagMoisture(fuel, buildUp, m), 0.0, 0.0, 0.0, buildUp)
  {
  }

  /** What constructing a FireDanger yields: the indices, or the fault that
      aborts the construction. */
  function Compute(c: Conditions, m: MathLib): (r: Result<DangerIndices>)
    ensures r.Err? ==> !c.isSnow
    ensures r.Ok? ==> r.value.fireLoadRating == 0.0
    ensures r.Ok? ==> 0.0 <= r.value.dryingFactor <= 7.0 && r.value.dryingFactor.Floor as real == r.value.dryingFactor
    ensures r.Ok? && !c.isSnow ==> r.value.fuelMoisture >= 1.0
    ensures r.Ok? && !c.isSnow ==> r.value.lagFuelMoisture > 0.9 * r.value.fuelMoisture + 0.5
  {
    if c.isSnow then
      Ok(Initial.(buildUpIndex := SnowBuildUp(c.prevBuildUpIndex, c.precipitation, m)))
    else
      match FineFuelMoisture(c, m)
      case Err(f) => Err(f)
      case Ok(raw) =>
        match DryingBand(raw)
        case Err(f) => Err(f)
        case Ok(index) => Ok(NoSnowIndices(c, m, raw, DryingFactor(index)))
  }

  /** The fire-danger indices of one observation. */
  class FireDanger {
    var dryingFactor: real
    var fuelMoisture: real
    var lagFuelMoisture: real
    var grassSpreadIndex: real
    var timberSpreadIndex: real
    var fireLoadRating: real
    var buildUpIndex: real

    /** The seven fields as a value. */
    function Indices(): DangerIndices
      reads this
    {
      DangerIndices(dryingFactor, fuelMoisture, lagFuelMoisture, grassSpreadIndex,
                    timberSpreadIndex, fireLoadRating, buildUpIndex)
    }

    /** The field initialisers, run before the computation. */
    constructor ()
      ensures Indices() == Initial
    {
      dryingFactor := 0.0;
      fuelMoisture := 99.0;
      lagFuelMoisture := 99.0;
      grassSpreadIndex := 0.0;
      timberSpreadIndex := 0.0;
      fireLoadRating := 0.0;
      buildUpIndex := 0.0;
    }

    /** Constructing a FireDanger from the forest conditions: a new object whose
        fields are the computed indices, or the array fault that aborts the
        construction. */
    static method Create(c: Conditions, m: MathLib) returns (r: Result<FireDanger>)
      ensures r.Ok? ==> fresh(r.value) && Compute(c, m) == Ok(r.value.Indices())
      ensures r.Err? ==> Compute(c, m) == Err(r.fault)
    {
      var fd := new FireDanger();
      fd.buildUpIndex := c.prevBuildUpIndex;

      if c.isSnow {
        fd.timberSpreadIndex := 0.0;
        fd.grassSpreadIndex := 0.0;
        if c.precipitation > 0.1 {
          fd.buildUpIndex := SnowDecay(fd.buildUpIndex, c.precipitation, m);
          if fd.buildUpIndex < 0.0 {
            fd.buildUpIndex := 0.0;
            return Ok(fd);
          }
        }
      } else {
        ComputeNoSnow(c, m);
        var dif := c.dryBulbTemp - c.wetBulbTemp;

        var band := ScanFromOne(C, dif, 4);
        if band.Err? {
          return Err(band.fault);
        }
        var cIndex := band.value;
        FineFuelMoistureOfBand(c, m, cIndex);
        fd.fuelMoisture := BandMoisture(cIndex, dif, m);
        ghost var raw := fd.fuelMoisture;
        assert FineFuelMoisture(c, m) == Ok(raw);

        var drying := ScanFromOne(D, fd.fuelMoisture, 7);
        if drying.Err? {
          return Err(drying.fault);
        }
        var index := drying.value;
        assert DryingBand(raw) == Ok(index);
        assert Compute(c, m) == Ok(NoSnowIndices(c, m, raw, DryingFactor(index)));
        // index never reaches 7 here: D has only six entries.
        fd.dryingFactor := if index == 7 then 7.0 else (index - 1) as real;

        fd.fuelMoisture := Max(fd.fuelMoisture, 1.0);

        fd.AdjustForHerbStage(c.herbState);
        assert fd.fuelMoisture == Max(raw, 1.0) + HerbAdjustment(c.herbState);

        fd.AdjustBuildUpForRain(c.precipitation, m);

        fd.buildUpIndex := fd.buildUpIndex + fd.dryingFactor;
        assert fd.buildUpIndex == RainBuildUp(c.prevBuildUpIndex, c.precipitation, m) + DryingFactor(index);

        fd.lagFuelMoisture := LagMoisture(fd.fuelMoisture, fd.buildUpIndex, m);
        NoSnowIndicesOf(c, m, raw, DryingFactor(index), fd.fuelMoisture, fd.buildUpIndex);
      }
      r := Ok(fd);
    }

    /** Adds the herb-stage allowance to the fine fuel moisture. */
    method AdjustForHerbStage(h: HerbStage)
      modifies this`fuelMoisture
      ensures fuelMoisture == old(fuelMoisture) + HerbAdjustment(h)
    {
      match h {
        case Transition => fuelMoisture := fuelMoisture + 5.0;
        case Green => fuelMoisture := fuelMoisture + 10.0;
        case Cured =>
      }
    }

    /** Decays the build-up index by more than 0.1 inches of rain, not below 0. */
    method AdjustBuildUpForRain(precipitation: real, m: MathLib)
      modifies this`buildUpIndex
      ensures buildUpIndex == RainBuildUp(old(buildUpIndex), precipitation, m)
    {
      if precipitation > 0.1 {
        buildUpIndex := RainDecay(buildUpIndex, precipitation, m);
        buildUpIndex := Max(buildUpIndex, 0.0);
      }
    }

    /** The timber spread index of this object's lag fuel moisture. */
    function ComputeTimberIndex(c: Conditions, m: MathLib): (r: real)
      reads this
      ensures 1.0 <= r <= 99.0
      ensures lagFuelMoisture >= 30.0 ==> r == 1.0
      ensures r == Spread.TimberSpread(lagFuelMoisture, c.windSpeed, m)
    {
      var timberIndex :=
        if lagFuelMoisture >= 30.0 then 1.0
        else Spread.RawSpread(lagFuelMoisture, c.windSpeed, m);
      Max(Min(timberIndex, 99.0), 1.0)
    }

    /** The grass spread index of this object's fuel moistures. */
    function ComputeGrassIndex(c: Conditions, m: MathLib): (r: real)
      reads this
      ensures 1.0 <= r <= 99.0
      ensures lagFuelMoisture >= 30.0 && fuelMoisture >= 30.0 ==> r == 1.0
      ensures r == Spread.GrassSpread(fuelMoisture, lagFuelMoisture, c.windSpeed, m)
    {
      var grassIndex :=
        if lagFuelMoisture >= 30.0 && fuelMoisture >= 30.0 then 1.0
        else Spread.RawSpread(fuelMoisture, c.windSpeed, m);
      Max(Min(grassIndex, 99.0), 1.0)
    }
  }
}
