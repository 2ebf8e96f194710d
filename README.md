# National Fire Danger Rating: the FireDanger calculation

A model of the daily fire-danger calculation of a small Java program that
follows the United States National Fire Danger Rating System (NFDRS). One
observation of the forest conditions goes in: dry- and wet-bulb temperature,
snow on the ground, wind speed, yesterday's build-up index, the herb stage and
the precipitation. The `FireDanger` constructor turns it into these values:

- the drying factor;
- the fine fuel moisture and the lag (10-day) fuel moisture;
- the grass and timber spread indices;
- the fire load rating;
- the build-up index.

`FuelMoisture` is a small holder of the two moistures. It has getters,
setters, and the same two spread-index computations.

The model keeps the program's behaviour as written. The constructor makes two
1-based table scans. In each, the loop test reads the table entry before it
compares the index with its cap. A depression above 27.5 therefore reads
`C[3]`, and a raw fine fuel moisture above 10 reads `D[6]`: both are
`ArrayIndexOutOfBoundsException`s. These faults are modelled as an `Err`
result, not repaired. The constructor never calls its own spread-index
helpers, so both spread indices stay 0 without snow, and the fire load rating
is never computed.

Layout:

- `numerics.dfy`: `Math.exp`, `Math.log` and `Math.pow` as a record of
  function values passed to every operation, with `exp` positive, and
  `Math.min`/`Math.max`.
- `conditions.dfy`: the input record `Forest.Conditions` and the herb stages.
- `scans.dfy`: the 1-based scan loop, its recursive specification `Scan`,
  and the fault.
- `spread.dfy`: the spread formula, written once, and reference definitions
  of the timber and grass spread indices.
- `danger.dfy`: the four tables; the named NFDRS formulas; the specification
  function `Danger.Compute`; and the class `FireDanger`. Its `Create` method
  performs the constructor's steps on the object's fields and is proved to
  agree with `Compute`.
- `danger_properties.dfy`: what the calculation guarantees, stated over
  `Compute`.
- `fuel_moisture.dfy`: the class `FuelMoisture` and its lemmas.

## Model

| member | source | states |
|---|---|---|
| Scans.Scan | src/FireDanger.java:54-56 | The 1-based scan returns the first index whose test fails. Every earlier index passes. It faults exactly when every remaining entry passes, reporting the index one past the end and the table length. |
| Scans.ScanFromOne | src/FireDanger.java:61-64 | The loop started at index 1 returns exactly `Scan(t, x, 1, cap)`, including the fault when the index reaches the table's end before the cap. |
| Scans.ScanMonotone | src/FireDanger.java:54-56 | A larger value never stops the scan earlier. Once a value runs off the end of the table, every larger value does too. |
| Danger.DepressionBand | src/FireDanger.java:52-56 | The depression selects band 1 iff it is at most 12.5, and band 2 iff it is in (12.5, 27.5]. Above 27.5 the scan faults reading C[3] of a 3-entry table. |
| Danger.DryingBand | src/FireDanger.java:61-64 | The drying scan gives band 1 iff the moisture is at most 10. Above 10 it faults reading D[6] of a 6-entry table. |
| Danger.HerbAdjustment | src/FireDanger.java:75-87 | The herb-stage addition is 0 exactly for cured vegetation, 5 exactly for a transitional stage and 10 exactly for green vegetation. |
| Danger.DryingFactor | src/FireDanger.java:66-69 | For a band between 1 and 7 the drying factor is a whole number between 0 and 7. |
| Danger.LagMoisture | src/FireDanger.java:101 | The lag fuel moisture lies strictly above 0.9 times the fine fuel moisture plus 0.5. |
| Danger.FineFuelMoisture | src/FireDanger.java:52-58 | The raw fine fuel moisture is defined iff the wet-bulb depression is at most 27.5. |
| Danger.SnowBuildUp | src/FireDanger.java:36-46 | Under snow, more than 0.1 inch of precipitation leaves a non-negative build-up index. At most 0.1 inch keeps the prior index. `DangerProperties.SnowBranch` gives the value: `Danger.SnowDecay` floored at 0. |
| Danger.RainBuildUp | src/FireDanger.java:90-96 | Without snow, more than 0.1 inch of precipitation leaves a non-negative build-up index. At most 0.1 inch keeps the prior index. |
| Danger.Compute | src/FireDanger.java:20-107 | Only the no-snow branch faults. Its successful no-snow result is `Danger.NoSnowIndices` (lines 72-101: the floor at 1, the herb stage, the rain adjustment, the added drying factor and the lag moisture). Every result has fire load rating 0 and a whole-number drying factor in [0, 7]. Without snow the fine fuel moisture is at least 1, and the lag moisture exceeds 0.9 times it plus 0.5. |
| Danger.FireDanger.constructor | src/FireDanger.java:11-17 | A new object holds drying factor 0, both moistures 99, and 0 for every other index. |
| Danger.FireDanger.Create | src/FireDanger.java:20-107 | Constructing on the object's fields in place ends with exactly the indices `Compute` gives. When `Compute` faults, the construction faults with the same exception. |
| Danger.FireDanger.AdjustForHerbStage | src/FireDanger.java:75-87 | The fine fuel moisture grows by 5 for a transitional stage, 10 for a green one and 0 for a cured one. No other field changes. |
| Danger.FireDanger.AdjustBuildUpForRain | src/FireDanger.java:90-96 | The build-up index becomes the rain-decayed one, floored at 0, when more than 0.1 inch fell, and stays otherwise. No other field changes. |
| Danger.FireDanger.ComputeTimberIndex | src/FireDanger.java:109-122 | The index lies in [1, 99] and is 1 from a lag moisture of 30% up. It equals the reference timber spread index. |
| Danger.FireDanger.ComputeGrassIndex | src/FireDanger.java:124-137 | The index lies in [1, 99] and is 1 when both moistures reach 30%. It equals the reference grass spread index. |
| Spread.SpreadIndex | src/FireDanger.java:114-121 | The formula clamped to [1, 99] stays in range. It equals the raw formula whenever that is already in range, is 99 when the raw formula is at least 99, and is 1 when it is at most 1. |
| Spread.RawSpreadWindRegimes | src/FireDanger.java:114-119 | For a positive moisture term `pow(33 - moisture, 1.65)`, the unclamped formula (`Spread.RawSpread`: 0.1312 with offset 6 below 14 mph, 0.00918 with offset 14 from 14 mph up) grows with the wind inside each regime. It falls when the wind reaches 14: every wind from 0 up to 14 gives more than 14 does. |
| Spread.TimberSpread | src/FireDanger.java:109-122 | The reference timber index lies in [1, 99] and is 1 from a lag moisture of 30% up. |
| Spread.GrassSpread | src/FireDanger.java:124-137 | The reference grass index lies in [1, 99] and is 1 when both moistures reach 30%. |
| DangerProperties.SnowBranch | src/FireDanger.java:30-47 | Under snow nothing faults. The spread indices become 0. The drying factor, both moistures and the fire load rating keep 0, 99, 99 and 0. The build-up index is the prior one when at most 0.1 inch fell, and the snow-decayed index (`Danger.SnowDecay`) floored at 0 when more fell. |
| DangerProperties.BuildUpIndexNonNegative | src/FireDanger.java:36-46 | The build-up index is never negative after a precipitation adjustment, or after a non-negative prior one, in either branch. |
| DangerProperties.FineFuelMoistureByDepression | src/FireDanger.java:52-58 | The fine fuel moisture uses band 1 up to a depression of 12.5 and band 2 up to 27.5. Above that it faults reading C[3]. Entries A[0] and B[0] are never used. |
| DangerProperties.BandMoisturePositive | src/FireDanger.java:58 | Each band's equation `B[band] * exp(A[band] * dif)` (`Danger.BandMoisture`) is positive. |
| DangerProperties.SnowDecayFactorOutsideLog | src/FireDanger.java:38-39 | The snow equation (`Danger.SnowDecay`) multiplies `-50 log(1 - exp(-prior / 50))` by the precipitation factor `exp(-1.175 (p - 0.1))` outside the logarithm. The result is proportional to that factor, and positive exactly when the log term is negative. |
| DangerProperties.RainDecayFactorInsideLog | src/FireDanger.java:91-92 | The rain equation (`Danger.RainDecay`) takes the precipitation factor inside the logarithm. The result depends on the prior index and the precipitation only through `(1 - exp(-prior / 50)) * exp(-1.175 (p - 0.1))`, and is positive exactly when its logarithm is negative. |
| DangerProperties.FineFuelMoisturePositive | src/FireDanger.java:58 | The raw fine fuel moisture, when defined, is positive. |
| DangerProperties.NoSnowFaults | src/FireDanger.java:48-105 | Without snow the constructor faults with C[3] above a depression of 27.5, and with D[6] above a raw moisture of 10. It succeeds iff neither happens, and then the drying factor is 0. |
| DangerProperties.FuelMoistureFloorAndHerb | src/FireDanger.java:71-87 | The fine fuel moisture is the raw value floored at 1, plus 0, 5 or 10 by herb stage, and hence at least 1. |
| DangerProperties.HerbStageOrdering | src/FireDanger.java:74-87 | With the other inputs fixed, the herb stage never decides success. Green gives 10 and transition 5 more fine fuel moisture than cured. |
| DangerProperties.NoSnowBuildUpAndLag | src/FireDanger.java:89-101 | The build-up index is the rain-adjusted prior index plus the drying factor. The lag moisture follows from it and lies above 0.9 times the fine moisture plus 0.5. |
| DangerProperties.SpreadIndicesNeverComputed | src/FireDanger.java:20-107 | The fire load rating is always 0. Without snow both spread indices stay 0, below the minimum 1 the spread computations would give. |
| Moisture.FuelMoisture.constructor | src/FuelMoisture.java:7-8 | A new object holds 99 for both moistures. |
| Moisture.FuelMoisture.GetFuelMoisture | src/FuelMoisture.java:15-17 | Returns the stored fuel moisture. |
| Moisture.FuelMoisture.SetFuelMoisture | src/FuelMoisture.java:24-26 | Stores the fuel moisture and leaves the lag moisture unchanged. |
| Moisture.FuelMoisture.GetLagFuelMoisture | src/FuelMoisture.java:33-35 | Returns the stored lag fuel moisture. |
| Moisture.FuelMoisture.SetLagFuelMoisture | src/FuelMoisture.java:42-44 | Stores the lag fuel moisture and leaves the fuel moisture unchanged. |
| Moisture.FuelMoisture.ComputeTimberIndex | src/FuelMoisture.java:51-63 | The index lies in [1, 99] and is 1 from a lag moisture of 30% up. It equals the reference timber spread index. |
| Moisture.FuelMoisture.ComputeGrassIndex | src/FuelMoisture.java:70-82 | The index lies in [1, 99] and is 1 when both moistures reach 30%. It equals the reference grass spread index. |
| Moisture.InitialIndicesAreOne | src/FuelMoisture.java:7-8 | With both moistures at their initial 99, both spread indices are 1 whatever the wind. |
| Moisture.TimberWindCoefficients | src/FuelMoisture.java:55-61 | Below 30% lag moisture the timber index uses 0.1312 with a wind offset of 6 under 14 mph, and 0.00918 with an offset of 14 otherwise. |
| Moisture.TimberIgnoresFuelMoisture | src/FuelMoisture.java:51-63 | The timber index depends only on the lag moisture and the wind speed. |
| Moisture.GrassUsesFuelMoisture | src/FuelMoisture.java:70-82 | Below the cut-off the grass index is the formula on the fine fuel moisture alone, whatever the lag moisture. |
| Moisture.AgreesWithFireDanger | src/FuelMoisture.java:51-82 | For equal moistures and wind, both classes give the same timber and grass indices. |

## Left out

- `Math.exp`, `Math.log` and `Math.pow` are parameters, not computed. The only property assumed is that `exp` is positive. IEEE-754 rounding, NaN, infinities, `log` of 0 or of a negative number, and the underflow of `exp` to 0 below about -745 are not modelled. Where `exp` underflows, the strict bound of `Danger.LagMoisture` would become non-strict.
- Danger.FireDanger.ComputeGrassIndex, Moisture.FuelMoisture.ComputeGrassIndex, Spread.GrassSpread: the range [1, 99] does not hold in Java when the fine fuel moisture is above 33 and the grass cut-off is not met. For example, take a new `FuelMoisture` (fuel moisture 99) after `setLagFuelMoisture_(20)`. Then `Math.pow(33 - fuelMoisture_, 1.65)` has a negative base and is NaN, `Math.min` and `Math.max` pass the NaN through, and the method returns NaN. The model's `pow` is a total real function, so it gives a value in [1, 99]. The same holds for the timber functions with a lag moisture above 33. That cannot happen there, because the 30% cut-off applies first.
- Doubles are modelled as mathematical reals. Concrete numeric outputs, which depend on the transcendental values, are not computed.
- The fire load rating formula: the program never computes it, so it stays 0.
- The unused field `precipitationValue` is not modelled, and neither is the unused `java.util` import.
- `getPrecipitation` is called by the constructor but is not declared in `src/ForestConditions.java`. The precipitation is therefore a field of the input record `Forest.Conditions`.
- A `null` herb stage, which would throw from the `switch`, cannot occur in the model's input.
- The snow equation at `src/FireDanger.java:38-39` takes the logarithm of `1 - exp(-prior / 50)` alone and multiplies the precipitation factor `exp(-1.175 (p - 0.1))` outside it. The rain equation at lines 91-92 puts that factor inside the logarithm. As written, the snow equation can raise the build-up index: for a prior index below 50 ln 2 (about 34.7) and precipitation just above 0.1 inch it gives more than the prior. With a prior of 10 and 0.2 inch it gives about 76. The model keeps both equations as written, and `SnowDecayFactorOutsideLog` and `RainDecayFactorInsideLog` state where the factor sits. It states no comparison with the prior index, because that needs values of `log` and `exp`.
- The four tables are local `final` arrays that are never written. They are modelled as immutable sequences.
- The two scan loops are one method, `Scans.ScanFromOne`, called with each table and cap.
- The herb-stage `switch` and the rain adjustment of the build-up index are written as the methods `AdjustForHerbStage` and `AdjustBuildUpForRain`, which `Create` calls at the point where the constructor performs them.
- The spread formula is written once, as `Spread.RawSpread`. Both classes' spread-index functions call it inside their own 30% cut-off and clamping, instead of repeating it inline.
- The constructor never computes the spread indices or the fire load rating: its first line is `// TODO: compute indexes` (`src/FireDanger.java:21`), and it never calls the helpers at lines 109-137. It can also fault, on the reads of `C[3]` and `D[6]`. The model follows the code: the spread indices stay 0, and the constructor faults on those two reads.
