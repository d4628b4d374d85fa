/** What the four appliance kinds share with their base class Appliance
    (Appliance.java is not part of this model): a name, a handle on the meter
    they are bound to, the "meter is set" check whose failure is fatal, and the
    random draws that the model takes as parameters instead of calling
    java.util.Random. */
module ApplianceBase {

  /** Why an hour ends the program: checkMeterSet() failed because timePasses
      was called before setMeter, or Random.nextInt(probability) threw because
      the probability read from the file is not positive. */
  datatype ApplianceError =
    | MeterNotSet(name: string)
    | BoundNotPositive(name: string, probability: int)

  /** One hour's random draws for one appliance: `units` stands for
      generateRandomUnits(minUnits, maxUnits) and `pick` for nextInt(probability).
      Each kind reads the parts its timePasses draws. */
  datatype Draw = Draw(units: real, pick: int)
}
