/**
  internal/authorization/concurrency.go, and the release closure of beginUpload and beginDownload
  of internal/ftpserver/clientdriver.go.
 */
module Gates {
  /** A gate's tokens after one release, which does nothing on an empty gate. */
  function Less(slots: nat): nat {
    if slots > 0 then slots - 1 else 0
  }

  class ConcurrencyGate {
    const max: nat
    var slots: nat  // tokens in the channel

    ghost predicate Valid()
      reads this
    {
      slots <= max
    }

    constructor (max: nat)
      ensures Valid() && this.max == max && slots == 0
    {
      this.max, slots := max, 0;
    }

    method TryAcquire() returns (ok: bool)
      requires Valid()
      modifies this
      ensures Valid() && ok == (old(slots) < max) && slots == old(slots) + (if ok then 1 else 0)
    {
      ok := slots < max;
      if ok {
        slots := slots + 1;
      }
    }

    method Release()
      modifies this
      ensures slots == Less(old(slots))
      ensures slots == if old(slots) > 0 then old(slots) - 1 else 0
    {
      if slots > 0 {
        slots := slots - 1;
      }
    }
  }

  class Gauge {
    var value: int

    constructor ()
      ensures value == 0
    {
      value := 0;
    }
  }

  /** The release closure with the flag it captures. */
  class Reservation {
    const gate: ConcurrencyGate
    const active: Gauge
    var released: bool

    constructor (gate: ConcurrencyGate, active: Gauge)
      ensures this.gate == gate && this.active == active && !released
    {
      this.gate, this.active, released := gate, active, false;
    }

    /** Gives back one slot and one count, the first time only. */
    method Release()
      modifies this, gate, active
      ensures released
      ensures gate.slots == if old(released) then old(gate.slots) else Less(old(gate.slots))
      ensures active.value == old(active.value) - (if old(released) then 0 else 1)
    {
      if released {
        return;
      }
      released := true;
      gate.Release();
      active.value := active.value - 1;
    }
  }
}
