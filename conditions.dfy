/** The input of the calculation: one observation of the weather and the fuel state. */
module Forest {

  /** The herbaceous state of the vegetation. */
  datatype HerbStage = Cured | Transition | Green

  /** The current forest conditions, an immutable record. `precipitation` is read
      by the calculation through a getter that the record's own class does not
      declare; it is part of the input here. */
  datatype Conditions = Conditions(
    dryBulbTemp: real,       // degrees Fahrenheit
    wetBulbTemp: real,       // degrees Fahrenheit
    isSnow: bool,            // snow on the ground
    windSpeed: real,         // miles per hour
    prevBuildUpIndex: real,  // yesterday's build-up index
    herbState: HerbStage,
    precipitation: real)     // inches
}
