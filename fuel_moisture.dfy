/** The computed fuel moisture and lag fuel moisture, with getters, setters
    and the two spread-index computations over them. */
module Moisture {
  import opened Numerics
  import opened Forest
  import Spread
  import Danger

  class FuelMoisture {
    var fuelMoisture: real     // the fuel moisture
    var lagFuelMoisture: real  // the 10-day (lag) fuel moisture

    /** A new object holds 99 for both moistures. */
    constructor ()
      ensures fuelMoisture == 99.0 && lagFuelMoisture == 99.0
    {
      fuelMoisture := 99.0;
      lagFuelMoisture := 99.0;
    }

    /** The stored fuel moisture. */
    method GetFuelMoisture() returns (v: real)
      ensures v == fuelMoisture
    {
      v := fuelMoisture;
    }

    /** Stores a fuel moisture and changes nothing else. */
    method SetFuelMoisture(v: real)
      modifies this`fuelMoisture
      ensures fuelMoisture == v
      ensures lagFuelMoisture == old(lagFuelMoisture)
    {
      fuelMoisture := v;
    }

    /** The stored lag fuel moisture. */
    method GetLagFuelMoisture() returns (v: real)
      ensures v == lagFuelMoisture
    {
      v := lagFuelMoisture;
    }

    /** Stores a lag fuel moisture and changes nothing else. */
    method SetLagFuelMoisture(v: real)
      modifies this`lagFuelMoisture
      ensures lagFuelMoisture == v
      ensures fuelMoisture == old(fuelMoisture)
    {
      lagFuelMoisture := v;
    }

    /** The timber spread index: 1 once the lag moisture reaches 30%, otherwise
        the NFDRS formula on the lag moisture, kept within [1, 99]. As a
        function it reads the fields and assigns none of them. */
    function ComputeTimberIndex(c: Conditions, m: MathLib): (r: real)
      reads this
      ensures 1.0 <= r <= 99.0
      ensures lagFuelMoisture >= 30.0 ==> r == 1.0
      ensures r == Spread.TimberSpread(lagFuelMoisture, c.windSpeed, m)
    {
      var timberIndex :=
        if lagFuelMoisture >= 30.0 then 1.0
        else Spread.RawSpread(lagFuelMoisture, c.windSpeed, m);
      Max(Min(timberIndex, 99.0), 1.0)
    }

    /** The grass spread index: 1 when both moistures reach 30%, otherwise the
        NFDRS formula on the fine fuel moisture, kept within [1, 99]. */
    function ComputeGrassIndex(c: Conditions, m: MathLib): (r: real)
      reads this
      ensures 1.0 <= r <= 99.0
      ensures lagFuelMoisture >= 30.0 && fuelMoisture >= 30.0 ==> r == 1.0
      ensures r == Spread.GrassSpread(fuelMoisture, lagFuelMoisture, c.windSpeed, m)
    {
      var grassIndex :=
        if lagFuelMoisture >= 30.0 && fuelMoisture >= 30.0 then 1.0
        else Spread.RawSpread(fuelMoisture, c.windSpeed, m);
      Max(Min(grassIndex, 99.0), 1.0)
    }
  }

  /** With both moistures at their initial 99, both spread indices are 1
      whatever the wind. */
  lemma InitialIndicesAreOne(fm: FuelMoisture, c: Conditions, m: MathLib)
    requires fm.fuelMoisture == 99.0 && fm.lagFuelMoisture == 99.0
    ensures fm.ComputeTimberIndex(c, m) == 1.0
    ensures fm.ComputeGrassIndex(c, m) == 1.0
  {
  }

  /** Below a lag moisture of 30% the timber index uses the coefficient 0.1312
      with a wind offset of 6 for winds under 14 mph, and 0.00918 with an
      offset of 14 otherwise. */
  lemma TimberWindCoefficients(fm: FuelMoisture, c: Conditions, m: MathLib)
    requires fm.lagFuelMoisture < 30.0
    ensures var p := m.Pow(33.0 - fm.lagFuelMoisture, 1.65);
      c.windSpeed < 14.0 ==> fm.ComputeTimberIndex(c, m) == Max(Min(0.1312 * (c.windSpeed + 6.0) * p - 3.0, 99.0), 1.0)
    ensures var p := m.Pow(33.0 - fm.lagFuelMoisture, 1.65);
      c.windSpeed >= 14.0 ==> fm.ComputeTimberIndex(c, m) == Max(Min(0.00918 * (c.windSpeed + 14.0) * p - 3.0, 99.0), 1.0)
  {
    // Naming the formula's value in each wind regime keeps this proof stable.
    var p := m.Pow(33.0 - fm.lagFuelMoisture, 1.65);
    if c.windSpeed < 14.0 {
      assert Spread.RawSpread(fm.lagFuelMoisture, c.windSpeed, m) == 0.1312 * (c.windSpeed + 6.0) * p - 3.0;
    } else {
      assert Spread.RawSpread(fm.lagFuelMoisture, c.windSpeed, m) == 0.00918 * (c.windSpeed + 14.0) * p - 3.0;
    }
  }

  /** The timber index depends on the lag moisture and the wind speed only:
      two objects that agree on those give the same index, whatever their fuel
      moistures. */
  lemma TimberIgnoresFuelMoisture(a: FuelMoisture, b: FuelMoisture, c: Conditions, c': Conditions, m: MathLib)
    requires a.lagFuelMoisture == b.lagFuelMoisture && c.windSpeed == c'.windSpeed
    ensures a.ComputeTimberIndex(c, m) == b.ComputeTimberIndex(c', m)
  {
  }

  /** Below the 30% cut-off the grass index is the formula on the fine fuel
      moisture: two objects that agree on it and on the wind give the same
      index, whatever their lag moistures. */
  lemma GrassUsesFuelMoisture(a: FuelMoisture, b: FuelMoisture, c: Conditions, c': Conditions, m: MathLib)
    requires a.fuelMoisture == b.fuelMoisture && c.windSpeed == c'.windSpeed
    requires a.fuelMoisture < 30.0 || (a.lagFuelMoisture < 30.0 && b.lagFuelMoisture < 30.0)
    ensures a.ComputeGrassIndex(c, m) == b.ComputeGrassIndex(c', m)
    ensures a.ComputeGrassIndex(c, m) == Spread.SpreadIndex(a.fuelMoisture, c.windSpeed, m)
  {
  }

  /** The two copies of the spread computations agree: for equal moistures and
      wind speed, this class gives the same indices as FireDanger's helpers. */
  lemma AgreesWithFireDanger(fm: FuelMoisture, fd: Danger.FireDanger, c: Conditions, m: MathLib)
    requires fm.fuelMoisture == fd.fuelMoisture && fm.lagFuelMoisture == fd.lagFuelMoisture
    ensures fm.ComputeTimberIndex(c, m) == fd.ComputeTimberIndex(c, m)
    ensures fm.ComputeGrassIndex(c, m) == fd.ComputeGrassIndex(c, m)
  {
  }
}
