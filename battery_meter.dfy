/** A meter backed by a battery. Before costing, report() nets the reading
    against the battery (store a surplus, take a deficit), then bills only the
    residue drawn from the mains and never a negative amount. The Java class
    extends Meter; here the inherited state is the `meter` it holds. */
module BatteryMeter {
  import opened Battery
  import Meter

  /** What one report computes: units stored in and taken from the battery,
      units drawn from the mains, and the cost. */
  datatype Settlement = Settlement(stored: real, taken: real, mains: real, cost: real)

  function Max(x: real, y: real): real
  {
    if x < y then y else x
  }

  /** Steps after the battery call, for whatever amounts it returned: the reading
      is adjusted to reading - taken + stored; a negative residue is discarded,
      otherwise it is drawn from the mains and billed. */
  function Settle(unitCost: real, reading: real, stored: real, taken: real): (s: Settlement)
    ensures s.stored == stored && s.taken == taken
    ensures s.mains == Max(reading - taken + stored, 0.0)
    ensures s.cost == unitCost * s.mains
  {
    var adjusted := reading - taken + stored;
    if adjusted < 0.0 then Settlement(stored, taken, 0.0, 0.0)
    else Settlement(stored, taken, adjusted, unitCost * adjusted)
  }

  /** The whole report against the assumed battery: storeUnits is asked with the
      (negative) reading itself, takeUnits with a reading >= 0, including 0. */
  function Netting(unitCost: real, reading: real, b: BatteryState): (Settlement, BatteryState)
  {
    if reading < 0.0 then
      (Settle(unitCost, reading, StoreAmount(b, reading), 0.0), Apply(b, Store(reading)))
    else
      (Settle(unitCost, reading, 0.0, TakeAmount(b, reading)), Apply(b, Take(reading)))
  }

  /** The request report() makes on its battery for a given reading. */
  function RequestFor(reading: real): (q: Request)
    ensures q.amount == reading
    ensures q.Store? <==> reading < 0.0
  {
    if reading < 0.0 then Store(reading) else Take(reading)
  }

  /** With a non-negative unit cost, the billed cost is never negative,
      whatever amounts the battery returns. */
  lemma CostNeverNegative(unitCost: real, reading: real, stored: real, taken: real)
    requires unitCost >= 0.0
    ensures Settle(unitCost, reading, stored, taken).cost >= 0.0
  {
  }

  /** A surplus the battery could not absorb is not credited. */
  lemma SurplusNotCredited(unitCost: real, reading: real, stored: real, taken: real)
    requires reading - taken + stored < 0.0
    ensures Settle(unitCost, reading, stored, taken).mains == 0.0
    ensures Settle(unitCost, reading, stored, taken).cost == 0.0
  {
  }

  /** A zero reading costs nothing as long as the battery does not return a
      negative amount: this is why a second report in a row is free. */
  lemma IdleReportIsFree(unitCost: real, b: BatteryState)
    requires Sound(b)
    ensures Netting(unitCost, 0.0, b).0.cost == 0.0
    ensures Netting(unitCost, 0.0, b).1 == b
  {
  }

  /** Against the assumed battery, the mains draw is the part of the reading the
      charge cannot cover, and the new level is level - reading clamped into
      [0, capacity]; the battery stays sound. */
  lemma NettingClosedForm(unitCost: real, reading: real, b: BatteryState)
    requires Sound(b)
    ensures Netting(unitCost, reading, b).0.mains == Max(reading - b.level, 0.0)
    ensures Netting(unitCost, reading, b).1.level ==
      (if b.level - reading < 0.0 then 0.0 else if b.level - reading > b.capacity then b.capacity else b.level - reading)
    ensures Sound(Netting(unitCost, reading, b).1)
    ensures reading >= 0.0 ==> Netting(unitCost, reading, b).0.mains + Netting(unitCost, reading, b).0.taken == reading
  {
    if reading < 0.0 {
      assert StoreAmount(b, reading) <= -reading;
    } else {
      assert TakeAmount(b, reading) <= reading;
    }
  }

  class BatteryMeter {
    const meter: Meter.Meter
    const battery: Battery

    constructor (utilityName: string, unitCost: real, battery: Battery)
      ensures fresh(meter)
      ensures meter.utility == utilityName && meter.unitCost == unitCost && meter.reading == 0.0
      ensures this.battery == battery
    {
      meter := new Meter.Meter(utilityName, unitCost);
      this.battery := battery;
    }

    /** Exactly one battery call, then the reading is adjusted and billed;
        the reading is 0 afterwards on every path. */
    method Report() returns (cost: real)
      modifies meter`reading, battery`level, battery`log
      ensures battery.log == old(battery.log) + [RequestFor(old(meter.reading))]
      ensures cost == Netting(meter.unitCost, old(meter.reading), old(battery.Model())).0.cost
      ensures battery.Model() == Netting(meter.unitCost, old(meter.reading), old(battery.Model())).1
      ensures meter.reading == 0.0
    {
      var unitsToStore: real := 0.0;
      var unitsToTake: real := 0.0;
      if meter.GetMeterReading() < 0.0 {
        unitsToStore := battery.StoreUnits(meter.GetMeterReading());
      } else {
        unitsToTake := battery.TakeUnits(meter.GetMeterReading());
      }

      meter.ConsumeUnits(-unitsToTake);
      meter.ConsumeUnits(unitsToStore);

      var unitsDrawnFromMains: real;
      if meter.GetMeterReading() < 0.0 {
        unitsDrawnFromMains := 0.0;
        cost := 0.0;
        meter.SetMeterReading(0.0);
      } else {
        unitsDrawnFromMains := meter.GetMeterReading();
        cost := meter.unitCost * meter.GetMeterReading();
      }
      assert unitsDrawnFromMains == Settle(meter.unitCost, old(meter.reading), unitsToStore, unitsToTake).mains;

      meter.SetMeterReading(0.0);
    }
  }
}
