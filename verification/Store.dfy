/** The fuel counter of the store. */
module Store {
  import opened Words
  import opened Opcodes

  const U64_MAX: nat := 0xFFFF_FFFF_FFFF_FFFF

  function Saturate(n: nat): nat { if n > U64_MAX then U64_MAX else n }

  /** The counter after charging `delta`, or None when the limit is exceeded. */
  function TryConsume(consumed: nat, limit: Option<nat>, delta: nat): (r: Option<nat>) {
    var total := Saturate(consumed + delta);
    if limit.Some? && total > limit.value then None else Some(total)
  }

  class FuelStore {
    var consumedFuel: nat
    var fuelLimit: Option<nat>

    constructor (limit: Option<nat>)
      ensures consumedFuel == 0 && fuelLimit == limit
    {
      consumedFuel, fuelLimit := 0, limit;
    }

    /** Charges `delta`; on failure the counter is left alone. */
    method TryConsumeFuel(delta: nat) returns (r: Option<TrapCode>)
      modifies this
      ensures fuelLimit == old(fuelLimit)
      ensures match TryConsume(old(consumedFuel), fuelLimit, delta)
              case Some(total) => r.None? && consumedFuel == total
              case None => r == Some(OutOfFuel) && consumedFuel == old(consumedFuel)
    {
      var consumed := if consumedFuel + delta > U64_MAX then U64_MAX else consumedFuel + delta;
      if fuelLimit.Some? {
        if consumed > fuelLimit.value {
          return Some(OutOfFuel);
        }
      }
      consumedFuel := consumed;
      return None;
    }

    method RemainingFuel() returns (r: Option<nat>)
      ensures r == if fuelLimit.None? then None
                   else Some(if fuelLimit.value >= consumedFuel then fuelLimit.value - consumedFuel else 0)
    {
      if fuelLimit.None? {
        return None;
      }
      r := Some(if consumedFuel > fuelLimit.value then 0 else fuelLimit.value - consumedFuel);
    }

    method ResetFuel(newFuelLimit: nat)
      modifies this
      ensures fuelLimit == Some(newFuelLimit) && consumedFuel == 0
    {
      fuelLimit := Some(newFuelLimit);
      consumedFuel := 0;
    }
  }
}
