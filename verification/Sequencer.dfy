/** Durable, monotonic sequence reservation for one paired device. */
module Sequencer {
  import opened Options
  import opened Model
  import opened Storage

  datatype SequencerError = Exhausted | Backing

  // max(pairing floor, valid stored value); anything else heals to the floor.
  function CurrentNext(floor: nat, stored: Option<int>): (next: nat)
    ensures floor <= next
    ensures stored.Some? && floor <= stored.value <= MAXIMUM_SAFE_WIRE_INTEGER ==> next == stored.value
    ensures stored.None? || stored.value < floor || stored.value > MAXIMUM_SAFE_WIRE_INTEGER ==> next == floor
  {
    if stored.Some? && 0 <= stored.value <= MAXIMUM_SAFE_WIRE_INTEGER && floor < stored.value
    then stored.value
    else floor
  }

  class CompanionSequencer {
    const backing: FileSequenceStore
    const deviceId: string
    const pairingNextSequence: nat

    constructor (backing: FileSequenceStore, deviceId: string, pairingNextSequence: nat)
      ensures this.backing == backing && this.deviceId == deviceId && this.pairingNextSequence == pairingNextSequence
    {
      this.backing := backing;
      this.deviceId := deviceId;
      this.pairingNextSequence := pairingNextSequence;
    }

    // The next sequence the store and the floor allow.
    ghost function Next(): nat
      reads this, backing, backing.file
    {
      CurrentNext(pairingNextSequence, StoredNext(backing.Contents(), deviceId))
    }

    method LoadNext() returns (next: nat)
      ensures next == Next()
    {
      next := pairingNextSequence;
      var stored := backing.Load(deviceId);
      if stored.Some? && 0 <= stored.value <= MAXIMUM_SAFE_WIRE_INTEGER && next < stored.value {
        next := stored.value;
      }
    }

    // Persisted before returned: success hands out the old next and moves the store past it; any
    // failure hands out nothing and leaves the store as it was.
    method Reserve(fault: Fault<Entries>) returns (r: Result<nat, SequencerError>)
      modifies backing.file
      ensures r.Ok? <==> old(Next()) < MAXIMUM_SAFE_WIRE_INTEGER && fault.NoFault?
      ensures r.Ok? ==> r.value == old(Next()) && Next() == r.value + 1
      ensures r.Err? ==> backing.Contents() == old(backing.Contents())
      ensures r == Err(Exhausted) <==> old(Next()) >= MAXIMUM_SAFE_WIRE_INTEGER
      ensures forall other :: other != deviceId ==>
                StoredNext(backing.Contents(), other) == old(StoredNext(backing.Contents(), other))
    {
      var current := LoadNext();
      if current >= MAXIMUM_SAFE_WIRE_INTEGER {
        return Err(Exhausted);
      }
      var ok := backing.Store(deviceId, current + 1, fault);
      if !ok {
        return Err(Backing);
      }
      return Ok(current);
    }

    // Never backwards: success means the next sequence exceeds the accepted one (unless that is the
    // last wire integer or beyond), and nothing is written when it already does.
    method Reconcile(accepted: nat, fault: Fault<Entries>) returns (r: Result<(), SequencerError>)
      modifies backing.file
      ensures var needed := accepted < MAXIMUM_SAFE_WIRE_INTEGER && old(Next()) <= accepted;
              && (r.Ok? <==> needed ==> fault.NoFault?)
              && (r.Ok? ==> Next() == if needed then accepted + 1 else old(Next()))
              && (!needed ==> backing.file.files == old(backing.file.files))
      ensures r.Err? ==> r.error == Backing && backing.Contents() == old(backing.Contents())
      ensures forall other :: other != deviceId ==>
                StoredNext(backing.Contents(), other) == old(StoredNext(backing.Contents(), other))
    {
      if accepted >= MAXIMUM_SAFE_WIRE_INTEGER {
        return Ok(());
      }
      var current := LoadNext();
      var next := if current < accepted + 1 then accepted + 1 else current;
      if next != current {
        var ok := backing.Store(deviceId, next, fault);
        if !ok {
          return Err(Backing);
        }
      }
      return Ok(());
    }
  }
}
