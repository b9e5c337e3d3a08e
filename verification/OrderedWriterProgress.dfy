/** That the ordered writer gets somewhere: a call nobody disturbs is applied, a refusal is learnt from. */
module OrderedWriterProgress {
  import opened Model
  import opened Options
  import opened OrderedWriter
  import opened Sequencer

  // These steps, one after the other, lead from `w` to `end`; each is possible where it is taken.
  ghost predicate LeadsTo(w: Writer, acts: seq<Action>, end: Writer)
    decreases |acts|
  {
    if acts == [] then end == w
    else CanStep(w, acts[0]) && LeadsTo(Step(w, acts[0]), acts[1..], end)
  }

  lemma {:induction false} LeadsOn(w: Writer, acts: seq<Action>, mid: Writer, more: seq<Action>, end: Writer)
    requires LeadsTo(w, acts, mid) && LeadsTo(mid, more, end)
    ensures LeadsTo(w, acts + more, end)
    decreases |acts|
  {
    if acts == [] {
      assert acts + more == more;
    } else {
      LeadsOn(Step(w, acts[0]), acts[1..], mid, more, end);
      assert (acts + more)[1..] == acts[1..] + more;
    }
  }

  lemma OneStep(w: Writer, a: Action)
    requires CanStep(w, a)
    ensures LeadsTo(w, [a], Step(w, a))
  {
    assert LeadsTo(Step(w, a), [a][1..], Step(w, a));
  }

  // The slot is free and no earlier call through this client is under way.
  ghost predicate IsQuiet(w: Writer, client: nat) {
    && w.slot == []
    && forall n <- w.mutations :: w.mutations[n].client == client ==> w.mutations[n].at.Finished?
  }

  // `w` with the mutation `m` at this point and this operation of its in the slot.
  ghost predicate IsAt(w: Writer, m: MutationId, mutation: Mutation, slot: seq<Operation>) {
    m in w.mutations && w.mutations[m] == mutation && w.slot == slot
  }

  // A call enters the slot.
  lemma CallEnters(w: Writer, client: nat) returns (end: Writer)
    requires IsQuiet(w, client)
    ensures LeadsTo(w, [Call(client), EnterSlot(w.nextMutation)], end)
    ensures IsAt(end, w.nextMutation, Mutation(client, Reserving, None, 0),
                 [Operation(w.nextMutation, Reservation, Waiting)])
    ensures end == w.(mutations := w.mutations[w.nextMutation := Mutation(client, Reserving, None, 0)],
                      nextMutation := w.nextMutation + 1, slot := end.slot)
  {
    var m := w.nextMutation;
    var called := Step(w, Call(client));
    OneStep(w, Call(client));
    end := Step(called, EnterSlot(m));
    OneStep(called, EnterSlot(m));
    LeadsOn(w, [Call(client)], called, [EnterSlot(m)], end);
    assert [Call(client)] + [EnterSlot(m)] == [Call(client), EnterSlot(m)];
  }

  // The next sequence is stored before it is returned.
  lemma SlotReserves(w: Writer, m: MutationId, client: nat) returns (end: Writer)
    requires IsAt(w, m, Mutation(client, Reserving, None, 0), [Operation(m, Reservation, Waiting)])
    requires Next(w) < MAXIMUM_SAFE_WIRE_INTEGER
    ensures LeadsTo(w, [LoadStored, PersistNext(true), ReturnSequence], end)
    ensures IsAt(end, m, Mutation(client, Encoding, Some(Next(w)), 0), [])
    ensures end == w.(mutations := w.mutations[m := Mutation(client, Encoding, Some(Next(w)), 0)], slot := [],
                      stored := Some(Next(w) + 1), returned := w.returned + [Next(w)])
  {
    var loaded := Step(w, LoadStored);
    OneStep(w, LoadStored);
    var stored := Step(loaded, PersistNext(true));
    OneStep(loaded, PersistNext(true));
    end := Step(stored, ReturnSequence);
    OneStep(stored, ReturnSequence);
    LeadsOn(w, [LoadStored], loaded, [PersistNext(true)], stored);
    LeadsOn(w, [LoadStored] + [PersistNext(true)], stored, [ReturnSequence], end);
    assert [LoadStored] + [PersistNext(true)] + [ReturnSequence] == [LoadStored, PersistNext(true), ReturnSequence];
  }

  // The request goes out under the sequence reserved and is applied, being above the last one.
  lemma RequestIsApplied(w: Writer, m: MutationId, client: nat, v: nat) returns (end: Writer)
    requires IsAt(w, m, Mutation(client, Encoding, Some(v), 0), [])
    requires w.server.lastApplied.Some? ==> w.server.lastApplied.value < v
    ensures LeadsTo(w, [Encode(m, true), Deliver(|w.transmissions|)], end)
    ensures IsAt(end, m, Mutation(client, InFlight, Some(v), 1), [])
    ensures end == w.(mutations := w.mutations[m := Mutation(client, InFlight, Some(v), 1)],
                      transmissions := w.transmissions + [Request(m, v)],
                      server := Server(Some(v), w.server.applied + [Request(m, v)]))
  {
    var sent := Step(w, Encode(m, true));
    OneStep(w, Encode(m, true));
    end := Step(sent, Deliver(|w.transmissions|));
    OneStep(sent, Deliver(|w.transmissions|));
    LeadsOn(w, [Encode(m, true)], sent, [Deliver(|w.transmissions|)], end);
    assert [Encode(m, true)] + [Deliver(|w.transmissions|)] == [Encode(m, true), Deliver(|w.transmissions|)];
  }

  // The acceptance is reconciled, which the store is already past, and the mutation is over.
  lemma AcceptanceEnds(w: Writer, m: MutationId, client: nat, v: nat) returns (end: Writer)
    requires IsAt(w, m, Mutation(client, InFlight, Some(v), 1), [])
    requires v < Next(w) <= MAXIMUM_SAFE_WIRE_INTEGER
    ensures LeadsTo(w, [Hear(m, Accepted(v)), LoadStored, PersistNext(true)], end)
    ensures end == w.(mutations := w.mutations[m := Mutation(client, Finished, Some(v), 1)],
                      reconciled := w.reconciled + {v})
  {
    var heard := Step(w, Hear(m, Accepted(v)));
    OneStep(w, Hear(m, Accepted(v)));
    var loaded := Step(heard, LoadStored);
    OneStep(heard, LoadStored);
    end := Step(loaded, PersistNext(true));
    OneStep(loaded, PersistNext(true));
    LeadsOn(w, [Hear(m, Accepted(v))], heard, [LoadStored], loaded);
    LeadsOn(w, [Hear(m, Accepted(v))] + [LoadStored], loaded, [PersistNext(true)], end);
    assert [Hear(m, Accepted(v))] + [LoadStored] + [PersistNext(true)]
        == [Hear(m, Accepted(v)), LoadStored, PersistNext(true)];
  }

  // The steps of a call that nobody disturbs.
  function CallSteps(w: Writer, client: nat, v: nat): seq<Action> {
    var m := w.nextMutation;
    [Call(client), EnterSlot(m)] + [LoadStored, PersistNext(true), ReturnSequence]
    + [Encode(m, true), Deliver(|w.transmissions|)] + [Hear(m, Accepted(v)), LoadStored, PersistNext(true)]
  }

  // A call that nobody disturbs is applied, under the next sequence, exactly once; it ends, and the
  // store is one ahead.
  lemma CallIsApplied(w: Writer, client: nat) returns (end: Writer)
    requires IsQuiet(w, client) && Next(w) < MAXIMUM_SAFE_WIRE_INTEGER
    requires w.server.lastApplied.Some? ==> w.server.lastApplied.value < Next(w)
    ensures LeadsTo(w, CallSteps(w, client, Next(w)), end)
    ensures IsQuiet(end, client)
    ensures end.mutations == w.mutations[w.nextMutation := Mutation(client, Finished, Some(Next(w)), 1)]
    ensures var m, v := w.nextMutation, Next(w);
            && end.server == Server(Some(v), w.server.applied + [Request(m, v)])
            && end.transmissions == w.transmissions + [Request(m, v)] && end.returned == w.returned + [v]
            && end.stored == Some(v + 1) && Next(end) == v + 1
  {
    hide LeadsTo, Step, CanStep;
    var m, v := w.nextMutation, Next(w);
    var entered := CallEnters(w, client);
    var reserved := SlotReserves(entered, m, client);
    var applied := RequestIsApplied(reserved, m, client, v);
    end := AcceptanceEnds(applied, m, client, v);
    var enter, reserve := [Call(client), EnterSlot(m)], [LoadStored, PersistNext(true), ReturnSequence];
    var send := [Encode(m, true), Deliver(|w.transmissions|)];
    LeadsOn(w, enter, entered, reserve, reserved);
    LeadsOn(w, enter + reserve, reserved, send, applied);
    LeadsOn(w, enter + reserve + send, applied, [Hear(m, Accepted(v)), LoadStored, PersistNext(true)], end);
  }

  // A refusal that tells what the server has accepted moves the store past it and never back. If it may
  // be retried and this was the first attempt the same request goes out again; otherwise the call ends.
  lemma RefusalIsLearnt(w: Writer, m: MutationId, accepted: nat, retrySafe: bool) returns (end: Writer)
    requires m in w.mutations && w.mutations[m].at.InFlight? && w.mutations[m].sequence.Some? && w.slot == []
    requires accepted < MAXIMUM_SAFE_WIRE_INTEGER && Next(w) <= MAXIMUM_SAFE_WIRE_INTEGER
    ensures LeadsTo(w, [Hear(m, Refused(Some(accepted), retrySafe)), LoadStored, PersistNext(true)], end)
    ensures Next(end) == if accepted < Next(w) then Next(w) else accepted + 1
    ensures accepted < Next(w) ==> end.stored == w.stored
    ensures end == w.(stored := end.stored, mutations := end.mutations, transmissions := end.transmissions,
                      reconciled := w.reconciled + {accepted})
    ensures var before, v := w.mutations[m], w.mutations[m].sequence.value;
            if retrySafe && before.attempts == 1
            then end.transmissions == w.transmissions + [Request(m, v)]
              && end.mutations == w.mutations[m := before.(attempts := 2)]
            else end.transmissions == w.transmissions && end.mutations == w.mutations[m := before.(at := Finished)]
  {
    hide LeadsTo;
    var heard := Step(w, Hear(m, Refused(Some(accepted), retrySafe)));
    OneStep(w, Hear(m, Refused(Some(accepted), retrySafe)));
    var loaded := Step(heard, LoadStored);
    OneStep(heard, LoadStored);
    end := Step(loaded, PersistNext(true));
    OneStep(loaded, PersistNext(true));
    var hear := [Hear(m, Refused(Some(accepted), retrySafe))];
    LeadsOn(w, hear, heard, [LoadStored], loaded);
    LeadsOn(w, hear + [LoadStored], loaded, [PersistNext(true)], end);
    assert hear + [LoadStored] + [PersistNext(true)]
        == [Hear(m, Refused(Some(accepted), retrySafe)), LoadStored, PersistNext(true)];
  }

  // Without such a sequence the same decision is made on the spot.
  lemma RefusalWithoutSequence(w: Writer, m: MutationId, retrySafe: bool)
    requires m in w.mutations && w.mutations[m].at.InFlight? && w.mutations[m].sequence.Some?
    ensures CanStep(w, Hear(m, Refused(None, retrySafe)))
    ensures var end, before := Step(w, Hear(m, Refused(None, retrySafe))), w.mutations[m];
            && end.stored == w.stored && end.slot == w.slot
            && (if retrySafe && before.attempts == 1
                then end.transmissions == w.transmissions + [Request(m, before.sequence.value)]
                  && end.mutations == w.mutations[m := before.(attempts := 2)]
                else end.transmissions == w.transmissions && end.mutations == w.mutations[m := before.(at := Finished)])
  {
  }

  // A writer that has fallen behind its server recovers: once a refusal has told what the server
  // accepted last, the next call that nobody disturbs is applied.
  lemma RefusedThenApplied(w: Writer, m: MutationId, accepted: nat) returns (end: Writer)
    requires m in w.mutations && w.mutations[m].at.InFlight? && w.mutations[m].sequence.Some? && w.slot == []
    requires forall n <- w.mutations :: w.mutations[n].client == w.mutations[m].client && n != m ==>
               w.mutations[n].at.Finished?
    requires w.server.lastApplied == Some(accepted)
    requires accepted + 1 < MAXIMUM_SAFE_WIRE_INTEGER && Next(w) < MAXIMUM_SAFE_WIRE_INTEGER
    ensures var client, v := w.mutations[m].client, if accepted < Next(w) then Next(w) else accepted + 1;
            && LeadsTo(w, [Hear(m, Refused(Some(accepted), false)), LoadStored, PersistNext(true)]
                          + CallSteps(w, client, v), end)
            && end.server == Server(Some(v), w.server.applied + [Request(w.nextMutation, v)])
  {
    var client := w.mutations[m].client;
    var learnt := RefusalIsLearnt(w, m, accepted, false);
    end := CallIsApplied(learnt, client);
    LeadsOn(w, [Hear(m, Refused(Some(accepted), false)), LoadStored, PersistNext(true)], learnt,
            CallSteps(w, client, Next(learnt)), end);
  }
}
