/** What every step of the ordered writer keeps. */
module OrderedWriterInvariants {
  import opened Options
  import opened Model
  import opened OrderedWriter

  // Sequences below this one may have been handed out; none at or above it has.
  function Frontier(w: Writer): nat {
    if w.slot != [] && w.slot[0].at.Persisted? then w.slot[0].at.current else Next(w)
  }

  ghost predicate OperationOk(w: Writer, i: nat, op: Operation) {
    && op.owner in w.mutations
    && (op.kind.Reservation? ==> w.mutations[op.owner].at.Reserving?)
    && (op.kind.Reconciliation? ==> w.mutations[op.owner].at.Reconciling?)
    && (i > 0 ==> op.at.Waiting?)
  }

  // Only the head has loaded anything, and nothing has moved the store since.
  ghost predicate SlotOk(w: Writer) {
    && (forall i :: 0 <= i < |w.slot| ==> OperationOk(w, i, w.slot[i]))
    && (forall i, j :: 0 <= i < j < |w.slot| ==> w.slot[i].owner != w.slot[j].owner)
    && (w.slot != [] && w.slot[0].at.Loaded? ==>
          && w.slot[0].at.current == Next(w)
          && (w.slot[0].kind.Reconciliation? ==> w.slot[0].kind.accepted < MAXIMUM_SAFE_WIRE_INTEGER))
    && (w.slot != [] && w.slot[0].at.Persisted? ==>
          && w.slot[0].kind.Reservation?
          && w.floor <= w.slot[0].at.current < MAXIMUM_SAFE_WIRE_INTEGER
          && w.stored == Some(w.slot[0].at.current + 1))
  }

  function Count(ts: seq<Request>, m: MutationId): nat {
    if ts == [] then 0 else Count(ts[..|ts| - 1], m) + (if ts[|ts| - 1].mutation == m then 1 else 0)
  }

  // What each stage of a mutation has done.
  ghost predicate StageOk(m: Mutation) {
    && (m.at.Queued? || m.at.Reserving? ==> m.sequence.None? && m.attempts == 0)
    && (m.at.Encoding? ==> m.sequence.Some? && m.attempts == 0)
    && (m.at.InFlight? || m.at.Reconciling? ==> m.sequence.Some? && 1 <= m.attempts)
    && (m.at == Reconciling(Resend) ==> m.attempts == 1)
    && m.attempts <= 2
  }

  ghost predicate MutationOk(w: Writer, id: MutationId, m: Mutation) {
    && id < w.nextMutation
    && StageOk(m)
    && (m.sequence.Some? ==> w.floor <= m.sequence.value < Frontier(w))
    && Count(w.transmissions, id) == m.attempts
  }

  // Sequences are distinct; and of two calls through one client the earlier is over before the later
  // has a sequence, and has the lower one.
  ghost predicate InOrder(w: Writer) {
    && (forall m <- w.mutations, n <- w.mutations ::
          m != n && w.mutations[m].sequence.Some? ==> w.mutations[m].sequence != w.mutations[n].sequence)
    && (forall m <- w.mutations, n <- w.mutations ::
          m < n && w.mutations[m].client == w.mutations[n].client && Started(w.mutations[n]) ==>
            && w.mutations[m].at.Finished?
            && (w.mutations[m].sequence.Some? && w.mutations[n].sequence.Some? ==>
                  w.mutations[m].sequence.value < w.mutations[n].sequence.value))
  }

  predicate Started(m: Mutation) {
    m.sequence.Some? || m.at.Reserving?
  }

  ghost predicate ReturnsOk(w: Writer) {
    && (forall i, j :: 0 <= i < j < |w.returned| ==> w.returned[i] < w.returned[j])
    && (forall i :: 0 <= i < |w.returned| ==>
         w.floor <= w.returned[i] < Frontier(w) && w.returned[i] < MAXIMUM_SAFE_WIRE_INTEGER)
    && (forall a <- w.reconciled :: a < MAXIMUM_SAFE_WIRE_INTEGER ==> a < Frontier(w))
  }

  ghost predicate ServerOk(w: Writer) {
    var s := w.server;
    && (forall i :: 0 <= i < |w.transmissions| ==> IsOf(w, w.transmissions[i]))
    && (forall i :: 0 <= i < |s.applied| ==> IsOf(w, s.applied[i]))
    && (forall i, j :: 0 <= i < j < |s.applied| ==> s.applied[i].sequence < s.applied[j].sequence)
    && (s.applied != [] ==> s.lastApplied == Some(s.applied[|s.applied| - 1].sequence))
  }

  // A request carries its mutation's one sequence.
  ghost predicate IsOf(w: Writer, r: Request) {
    r.mutation in w.mutations && w.mutations[r.mutation].sequence == Some(r.sequence)
  }

  ghost predicate MutationsOk(w: Writer) {
    forall m <- w.mutations :: MutationOk(w, m, w.mutations[m])
  }

  ghost predicate Local(w: Writer) {
    SlotOk(w) && ReturnsOk(w) && ServerOk(w) && MutationsOk(w)
  }

  ghost predicate Inv(w: Writer) {
    Local(w) && InOrder(w)
  }

  lemma {:induction false} NeverSent(ts: seq<Request>, m: MutationId)
    requires forall i :: 0 <= i < |ts| ==> ts[i].mutation != m
    ensures Count(ts, m) == 0
  {
    if ts != [] {
      NeverSent(ts[..|ts| - 1], m);
    }
  }

  // ---- the pieces steps are made of ------------------------------------------------------------------

  lemma CallKeepsSlot(w: Writer, client: nat)
    requires Local(w)
    ensures SlotOk(Step(w, Call(client)))
  {
    hide ReturnsOk, ServerOk, StageOk;
  }

  lemma CallKeepsMutations(w: Writer, client: nat)
    requires Local(w)
    ensures MutationsOk(Step(w, Call(client)))
  {
    hide ReturnsOk;
    NeverSent(w.transmissions, w.nextMutation);
    var next := Step(w, Call(client));
    forall n <- next.mutations ensures MutationOk(next, n, next.mutations[n]) {
      assert n in w.mutations ==> MutationOk(w, n, w.mutations[n]);
    }
  }

  lemma CallKeepsReturns(w: Writer, client: nat)
    requires Local(w)
    ensures ReturnsOk(Step(w, Call(client)))
  {
    hide MutationsOk, ServerOk, OperationOk;
  }

  lemma CallKeepsServer(w: Writer, client: nat)
    requires Local(w)
    ensures ServerOk(Step(w, Call(client)))
  {
    hide ReturnsOk, OperationOk, StageOk;
  }

  lemma CallKept(w: Writer, client: nat)
    requires Local(w)
    ensures Local(Step(w, Call(client)))
  {
    hide SlotOk, MutationsOk, ReturnsOk, ServerOk;
    CallKeepsSlot(w, client);
    CallKeepsMutations(w, client);
    CallKeepsReturns(w, client);
    CallKeepsServer(w, client);
  }

  // An attempt of a mutation with no operation in the sequencer's slot.
  lemma TransmitKeepsSlot(w: Writer, m: MutationId)
    requires Local(w) && m in w.mutations && w.mutations[m].sequence.Some?
    requires w.mutations[m].at.Encoding?
              || (w.mutations[m].attempts == 1 && !w.mutations[m].at.Queued? && !w.mutations[m].at.Reserving?)
    requires forall i :: 0 <= i < |w.slot| ==> w.slot[i].owner != m
    ensures SlotOk(Transmit(w, m))
  {
    hide ReturnsOk, ServerOk, MutationOk;
  }

  lemma TransmitKeepsMutations(w: Writer, m: MutationId)
    requires Local(w) && m in w.mutations && w.mutations[m].sequence.Some?
    requires w.mutations[m].at.Encoding?
              || (w.mutations[m].attempts == 1 && !w.mutations[m].at.Queued? && !w.mutations[m].at.Reserving?)
    requires forall i :: 0 <= i < |w.slot| ==> w.slot[i].owner != m
    ensures MutationsOk(Transmit(w, m))
  {
    hide ReturnsOk, ServerOk;
    assert Transmit(w, m).transmissions[..|w.transmissions|] == w.transmissions;
    var next := Transmit(w, m);
    forall n <- next.mutations ensures MutationOk(next, n, next.mutations[n]) {
      assert n in w.mutations ==> MutationOk(w, n, w.mutations[n]);
    }
  }

  lemma TransmitKeepsReturns(w: Writer, m: MutationId)
    requires Local(w) && m in w.mutations && w.mutations[m].sequence.Some?
    requires w.mutations[m].at.Encoding?
              || (w.mutations[m].attempts == 1 && !w.mutations[m].at.Queued? && !w.mutations[m].at.Reserving?)
    requires forall i :: 0 <= i < |w.slot| ==> w.slot[i].owner != m
    ensures ReturnsOk(Transmit(w, m))
  {
    hide MutationsOk, ServerOk, OperationOk;
  }

  lemma TransmitKeepsServer(w: Writer, m: MutationId)
    requires Local(w) && m in w.mutations && w.mutations[m].sequence.Some?
    requires w.mutations[m].at.Encoding?
              || (w.mutations[m].attempts == 1 && !w.mutations[m].at.Queued? && !w.mutations[m].at.Reserving?)
    requires forall i :: 0 <= i < |w.slot| ==> w.slot[i].owner != m
    ensures ServerOk(Transmit(w, m))
  {
    hide ReturnsOk, OperationOk, StageOk;
  }

  lemma TransmitKept(w: Writer, m: MutationId)
    requires Local(w) && m in w.mutations && w.mutations[m].sequence.Some?
    requires w.mutations[m].at.Encoding?
              || (w.mutations[m].attempts == 1 && !w.mutations[m].at.Queued? && !w.mutations[m].at.Reserving?)
    requires forall i :: 0 <= i < |w.slot| ==> w.slot[i].owner != m
    ensures Local(Transmit(w, m))
  {
    hide SlotOk, MutationsOk, ReturnsOk, ServerOk;
    TransmitKeepsSlot(w, m);
    TransmitKeepsMutations(w, m);
    TransmitKeepsReturns(w, m);
    TransmitKeepsServer(w, m);
  }

  lemma EndKeepsSlot(w: Writer, m: MutationId)
    requires Local(w) && m in w.mutations && !w.mutations[m].at.Queued?
    requires forall i :: 0 <= i < |w.slot| ==> w.slot[i].owner != m
    ensures SlotOk(End(w, m))
  {
    hide ReturnsOk, ServerOk, MutationOk;
  }

  lemma EndKeepsMutations(w: Writer, m: MutationId)
    requires Local(w) && m in w.mutations && !w.mutations[m].at.Queued?
    requires forall i :: 0 <= i < |w.slot| ==> w.slot[i].owner != m
    ensures MutationsOk(End(w, m))
  {
    hide ReturnsOk, ServerOk;
    var next := End(w, m);
    forall n <- next.mutations ensures MutationOk(next, n, next.mutations[n]) {
      assert n in w.mutations ==> MutationOk(w, n, w.mutations[n]);
    }
  }

  lemma EndKeepsReturns(w: Writer, m: MutationId)
    requires Local(w) && m in w.mutations && !w.mutations[m].at.Queued?
    requires forall i :: 0 <= i < |w.slot| ==> w.slot[i].owner != m
    ensures ReturnsOk(End(w, m))
  {
    hide MutationsOk, ServerOk, OperationOk;
  }

  lemma EndKeepsServer(w: Writer, m: MutationId)
    requires Local(w) && m in w.mutations && !w.mutations[m].at.Queued?
    requires forall i :: 0 <= i < |w.slot| ==> w.slot[i].owner != m
    ensures ServerOk(End(w, m))
  {
    hide ReturnsOk, OperationOk, StageOk;
  }

  lemma EndKept(w: Writer, m: MutationId)
    requires Local(w) && m in w.mutations && !w.mutations[m].at.Queued?
    requires forall i :: 0 <= i < |w.slot| ==> w.slot[i].owner != m
    ensures Local(End(w, m))
  {
    hide SlotOk, MutationsOk, ReturnsOk, ServerOk;
    EndKeepsSlot(w, m);
    EndKeepsMutations(w, m);
    EndKeepsReturns(w, m);
    EndKeepsServer(w, m);
  }

  lemma EnterKeepsSlot(w: Writer, m: MutationId)
    requires Local(w) && CanStep(w, EnterSlot(m))
    ensures SlotOk(Step(w, EnterSlot(m)))
  {
    hide ReturnsOk, ServerOk, StageOk;
  }

  lemma EnterKeepsMutations(w: Writer, m: MutationId)
    requires Local(w) && CanStep(w, EnterSlot(m))
    ensures MutationsOk(Step(w, EnterSlot(m)))
  {
    hide ReturnsOk, ServerOk;
    var next := Step(w, EnterSlot(m));
    forall n <- next.mutations ensures MutationOk(next, n, next.mutations[n]) {
      assert n in w.mutations ==> MutationOk(w, n, w.mutations[n]);
    }
  }

  lemma EnterKeepsReturns(w: Writer, m: MutationId)
    requires Local(w) && CanStep(w, EnterSlot(m))
    ensures ReturnsOk(Step(w, EnterSlot(m)))
  {
    hide MutationsOk, ServerOk, OperationOk;
  }

  lemma EnterKeepsServer(w: Writer, m: MutationId)
    requires Local(w) && CanStep(w, EnterSlot(m))
    ensures ServerOk(Step(w, EnterSlot(m)))
  {
    hide ReturnsOk, OperationOk, StageOk;
  }

  lemma EnterKept(w: Writer, m: MutationId)
    requires Local(w) && CanStep(w, EnterSlot(m))
    ensures Local(Step(w, EnterSlot(m)))
  {
    hide SlotOk, MutationsOk, ReturnsOk, ServerOk;
    EnterKeepsSlot(w, m);
    EnterKeepsMutations(w, m);
    EnterKeepsReturns(w, m);
    EnterKeepsServer(w, m);
  }

  lemma PopLeavesOthers(w: Writer)
    requires SlotOk(w) && w.slot != []
    ensures forall i :: 0 <= i < |w.slot[1..]| ==> w.slot[1..][i].owner != w.slot[0].owner && w.slot[1..][i].at.Waiting?
  {
  }

  lemma PopKeepsSlot(w: Writer)
    requires Local(w) && w.slot != [] && !w.slot[0].at.Persisted?
    ensures SlotOk(w.(slot := w.slot[1..]))
  {
    hide ReturnsOk, ServerOk, MutationOk;
  }

  lemma PopKeepsMutations(w: Writer)
    requires Local(w) && w.slot != [] && !w.slot[0].at.Persisted?
    ensures MutationsOk(w.(slot := w.slot[1..]))
  {
    hide ReturnsOk, ServerOk;
    var next := w.(slot := w.slot[1..]);
    forall n <- next.mutations ensures MutationOk(next, n, next.mutations[n]) {
      assert n in w.mutations ==> MutationOk(w, n, w.mutations[n]);
    }
  }

  lemma PopKeepsReturns(w: Writer)
    requires Local(w) && w.slot != [] && !w.slot[0].at.Persisted?
    ensures ReturnsOk(w.(slot := w.slot[1..]))
  {
    hide MutationsOk, ServerOk;
  }

  lemma PopKeepsServer(w: Writer)
    requires Local(w) && w.slot != [] && !w.slot[0].at.Persisted?
    ensures ServerOk(w.(slot := w.slot[1..]))
  {
    hide ReturnsOk, OperationOk, StageOk;
  }

  lemma PopKept(w: Writer)
    requires Local(w) && w.slot != [] && !w.slot[0].at.Persisted?
    ensures Local(w.(slot := w.slot[1..]))
    ensures forall i :: 0 <= i < |w.slot[1..]| ==> w.slot[1..][i].owner != w.slot[0].owner && w.slot[1..][i].at.Waiting?
  {
    hide SlotOk, MutationsOk, ReturnsOk, ServerOk;
    PopKeepsSlot(w);
    PopKeepsMutations(w);
    PopKeepsReturns(w);
    PopKeepsServer(w);
    PopLeavesOthers(w);
  }

  // The store moves forward while nothing is loaded.
  lemma AdvanceKept(w: Writer, next: nat)
    requires Local(w) && (w.slot != [] ==> w.slot[0].at.Waiting?)
    requires Next(w) < next <= MAXIMUM_SAFE_WIRE_INTEGER
    ensures Local(w.(stored := Some(next))) && Next(w.(stored := Some(next))) == next
  {
    var moved := w.(stored := Some(next));
    forall m <- w.mutations ensures MutationOk(moved, m, w.mutations[m]) {
      assert MutationOk(w, m, w.mutations[m]);
    }
  }

  lemma ReconciledKept(w: Writer)
    requires Local(w) && w.slot != [] && w.slot[0].kind.Reconciliation? && w.mutations[w.slot[0].owner].sequence.Some?
    requires !w.slot[0].at.Persisted?
    requires w.slot[0].kind.accepted < MAXIMUM_SAFE_WIRE_INTEGER ==> w.slot[0].kind.accepted < Next(w)
    ensures Local(Reconciled(w))
  {
    hide ReturnsOk, ServerOk;
    var m := w.slot[0].owner;
    PopKept(w);
    var done := w.(slot := w.slot[1..], reconciled := w.reconciled + {w.slot[0].kind.accepted});
    NotedKept(w.(slot := w.slot[1..]), w.slot[0].kind.accepted);
    assert MutationOk(w, m, w.mutations[m]);
    if w.mutations[m].at == Reconciling(Resend) {
      TransmitKept(done, m);
    } else {
      EndKept(done, m);
    }
  }

  lemma NotedKept(w: Writer, accepted: nat)
    requires Local(w) && (accepted < MAXIMUM_SAFE_WIRE_INTEGER ==> accepted < Frontier(w))
    ensures Local(w.(reconciled := w.reconciled + {accepted}))
  {
    hide StageOk;
    var noted := w.(reconciled := w.reconciled + {accepted});
    forall m <- w.mutations ensures MutationOk(noted, m, w.mutations[m]) {
      assert MutationOk(w, m, w.mutations[m]);
    }
  }

  lemma LoadedKeepsSlot(w: Writer)
    requires Local(w) && CanStep(w, LoadStored)
    requires w.slot[0].kind.Reconciliation? ==> w.slot[0].kind.accepted < MAXIMUM_SAFE_WIRE_INTEGER
    ensures SlotOk(Load(w))
  {
    hide ReturnsOk, ServerOk, MutationOk;
  }

  lemma LoadedKeepsMutations(w: Writer)
    requires Local(w) && CanStep(w, LoadStored)
    requires w.slot[0].kind.Reconciliation? ==> w.slot[0].kind.accepted < MAXIMUM_SAFE_WIRE_INTEGER
    ensures MutationsOk(Load(w))
  {
    hide ReturnsOk, ServerOk;
    var next := Load(w);
    forall n <- next.mutations ensures MutationOk(next, n, next.mutations[n]) {
      assert n in w.mutations ==> MutationOk(w, n, w.mutations[n]);
    }
  }

  lemma LoadedKeepsReturns(w: Writer)
    requires Local(w) && CanStep(w, LoadStored)
    requires w.slot[0].kind.Reconciliation? ==> w.slot[0].kind.accepted < MAXIMUM_SAFE_WIRE_INTEGER
    ensures ReturnsOk(Load(w))
  {
    hide MutationsOk, ServerOk;
  }

  lemma LoadedKeepsServer(w: Writer)
    requires Local(w) && CanStep(w, LoadStored)
    requires w.slot[0].kind.Reconciliation? ==> w.slot[0].kind.accepted < MAXIMUM_SAFE_WIRE_INTEGER
    ensures ServerOk(Load(w))
  {
    hide ReturnsOk, OperationOk, StageOk;
  }

  lemma LoadedKept(w: Writer)
    requires Local(w) && CanStep(w, LoadStored)
    requires w.slot[0].kind.Reconciliation? ==> w.slot[0].kind.accepted < MAXIMUM_SAFE_WIRE_INTEGER
    ensures Local(Load(w))
  {
    hide SlotOk, MutationsOk, ReturnsOk, ServerOk;
    LoadedKeepsSlot(w);
    LoadedKeepsMutations(w);
    LoadedKeepsReturns(w);
    LoadedKeepsServer(w);
  }

  lemma LoadKept(w: Writer)
    requires Local(w) && CanStep(w, LoadStored)
    ensures Local(Load(w))
  {
    hide SlotOk, ReturnsOk, ServerOk, MutationsOk, Transmit, End;
    if w.slot[0].kind.Reconciliation? && w.slot[0].kind.accepted >= MAXIMUM_SAFE_WIRE_INTEGER {
      ReconciledKept(w);
    } else {
      LoadedKept(w);
    }
  }

  lemma PersistedKeepsSlot(w: Writer)
    requires Local(w) && CanStep(w, PersistNext(true)) && w.slot[0].kind.Reservation?
    requires w.slot[0].at.current < MAXIMUM_SAFE_WIRE_INTEGER
    ensures SlotOk(Persist(w, true))
  {
    hide ReturnsOk, ServerOk, MutationOk;
  }

  lemma PersistedKeepsMutations(w: Writer)
    requires Local(w) && CanStep(w, PersistNext(true)) && w.slot[0].kind.Reservation?
    requires w.slot[0].at.current < MAXIMUM_SAFE_WIRE_INTEGER
    ensures MutationsOk(Persist(w, true))
  {
    hide ReturnsOk, ServerOk;
    var next := Persist(w, true);
    forall n <- next.mutations ensures MutationOk(next, n, next.mutations[n]) {
      assert n in w.mutations ==> MutationOk(w, n, w.mutations[n]);
    }
  }

  lemma PersistedKeepsReturns(w: Writer)
    requires Local(w) && CanStep(w, PersistNext(true)) && w.slot[0].kind.Reservation?
    requires w.slot[0].at.current < MAXIMUM_SAFE_WIRE_INTEGER
    ensures ReturnsOk(Persist(w, true))
  {
    hide MutationsOk, ServerOk, OperationOk;
  }

  lemma PersistedKeepsServer(w: Writer)
    requires Local(w) && CanStep(w, PersistNext(true)) && w.slot[0].kind.Reservation?
    requires w.slot[0].at.current < MAXIMUM_SAFE_WIRE_INTEGER
    ensures ServerOk(Persist(w, true))
  {
    hide ReturnsOk, OperationOk, StageOk;
  }

  lemma PersistedKept(w: Writer)
    requires Local(w) && CanStep(w, PersistNext(true)) && w.slot[0].kind.Reservation?
    requires w.slot[0].at.current < MAXIMUM_SAFE_WIRE_INTEGER
    ensures Local(Persist(w, true))
  {
    hide SlotOk, MutationsOk, ReturnsOk, ServerOk;
    PersistedKeepsSlot(w);
    PersistedKeepsMutations(w);
    PersistedKeepsReturns(w);
    PersistedKeepsServer(w);
  }

  lemma ReservationPersistKept(w: Writer, ok: bool)
    requires Local(w) && CanStep(w, PersistNext(ok)) && w.slot[0].kind.Reservation?
    ensures Local(Persist(w, ok))
  {
    if w.slot[0].at.current >= MAXIMUM_SAFE_WIRE_INTEGER || !ok {
      DroppedKept(w);
    } else {
      PersistedKept(w);
    }
  }

  lemma ReconciliationPersistKept(w: Writer, ok: bool)
    requires Local(w) && CanStep(w, PersistNext(ok)) && w.slot[0].kind.Reconciliation?
    ensures Local(Persist(w, ok))
  {
    hide ReturnsOk, ServerOk, MutationsOk, Transmit, End;
    if w.slot[0].kind.accepted < w.slot[0].at.current {
      ReconciledKept(w);
    } else if !ok {
      DroppedKept(w);
    } else {
      ReconciledForwardKept(w, w.slot[0].kind.accepted);
    }
  }

  lemma DroppedKept(w: Writer)
    requires Local(w) && w.slot != [] && !w.slot[0].at.Persisted? && OwnerCanProceed(w)
    ensures Local(End(w.(slot := w.slot[1..]), w.slot[0].owner))
  {
    hide ReturnsOk, ServerOk, End;
    PopKept(w);
    EndKept(w.(slot := w.slot[1..]), w.slot[0].owner);
  }

  lemma ReconciledForwardKept(w: Writer, accepted: nat)
    requires Local(w) && CanStep(w, PersistNext(true)) && w.slot[0].kind == Reconciliation(accepted)
    requires w.slot[0].at.current <= accepted < MAXIMUM_SAFE_WIRE_INTEGER
    ensures Local(Reconciled(w.(stored := Some(accepted + 1))))
  {
    hide OperationOk, ReturnsOk, ServerOk, Transmit, End;
    var m := w.slot[0].owner;
    PopKept(w);
    var popped := w.(slot := w.slot[1..]);
    AdvanceKept(popped, accepted + 1);
    var moved := popped.(stored := Some(accepted + 1));
    NotedKept(moved, accepted);
    var done := moved.(reconciled := w.reconciled + {accepted});
    assert MutationOk(w, m, w.mutations[m]);
    if w.mutations[m].at == Reconciling(Resend) {
      TransmitKept(done, m);
    } else {
      EndKept(done, m);
    }
  }

  lemma ReturnKeepsSlot(w: Writer)
    requires Local(w) && CanStep(w, ReturnSequence)
    ensures SlotOk(Return(w))
  {
    hide ReturnsOk, ServerOk, MutationOk;
  }

  lemma ReturnKeepsMutations(w: Writer)
    requires Local(w) && CanStep(w, ReturnSequence)
    ensures MutationsOk(Return(w))
  {
    hide ReturnsOk, ServerOk;
    var next := Return(w);
    forall n <- next.mutations ensures MutationOk(next, n, next.mutations[n]) {
      assert n in w.mutations ==> MutationOk(w, n, w.mutations[n]);
    }
  }

  lemma ReturnKeepsReturns(w: Writer)
    requires Local(w) && CanStep(w, ReturnSequence)
    ensures ReturnsOk(Return(w))
  {
    hide MutationsOk, ServerOk;
  }

  lemma ReturnKeepsServer(w: Writer)
    requires Local(w) && CanStep(w, ReturnSequence)
    ensures ServerOk(Return(w))
  {
    hide ReturnsOk;
  }

  lemma ReturnKept(w: Writer)
    requires Local(w) && CanStep(w, ReturnSequence)
    ensures Local(Return(w))
  {
    hide SlotOk, MutationsOk, ReturnsOk, ServerOk;
    ReturnKeepsSlot(w);
    ReturnKeepsMutations(w);
    ReturnKeepsReturns(w);
    ReturnKeepsServer(w);
  }

  lemma HearKept(w: Writer, m: MutationId, reply: Reply)
    requires Local(w) && CanStep(w, Hear(m, reply))
    ensures Local(HearReply(w, m, reply))
  {
    assert MutationOk(w, m, w.mutations[m]);
    NoOperation(w, m);
    var accepted := if reply.Accepted? then Some(reply.sequence) else reply.acceptedSequence;
    if accepted.None? {
      if reply.Refused? && reply.retrySafe && w.mutations[m].attempts == 1 {
        TransmitKept(w, m);
      } else {
        EndKept(w, m);
      }
    } else {
      HearAcceptedKept(w, m, reply);
    }
  }

  lemma HearAcceptedKeepsSlot(w: Writer, m: MutationId, reply: Reply)
    requires Local(w) && CanStep(w, Hear(m, reply)) && (reply.Accepted? || reply.acceptedSequence.Some?)
    ensures SlotOk(HearReply(w, m, reply))
  {
    hide ReturnsOk, ServerOk, MutationOk;
    NoOperation(w, m);
  }

  lemma HearAcceptedKeepsMutations(w: Writer, m: MutationId, reply: Reply)
    requires Local(w) && CanStep(w, Hear(m, reply)) && (reply.Accepted? || reply.acceptedSequence.Some?)
    ensures MutationsOk(HearReply(w, m, reply))
  {
    hide ReturnsOk, ServerOk;
    NoOperation(w, m);
    var next := HearReply(w, m, reply);
    forall n <- next.mutations ensures MutationOk(next, n, next.mutations[n]) {
      assert n in w.mutations ==> MutationOk(w, n, w.mutations[n]);
    }
  }

  lemma HearAcceptedKeepsReturns(w: Writer, m: MutationId, reply: Reply)
    requires Local(w) && CanStep(w, Hear(m, reply)) && (reply.Accepted? || reply.acceptedSequence.Some?)
    ensures ReturnsOk(HearReply(w, m, reply))
  {
    hide MutationsOk, ServerOk, OperationOk;
    NoOperation(w, m);
  }

  lemma HearAcceptedKeepsServer(w: Writer, m: MutationId, reply: Reply)
    requires Local(w) && CanStep(w, Hear(m, reply)) && (reply.Accepted? || reply.acceptedSequence.Some?)
    ensures ServerOk(HearReply(w, m, reply))
  {
    hide ReturnsOk, OperationOk, StageOk;
  }

  lemma HearAcceptedKept(w: Writer, m: MutationId, reply: Reply)
    requires Local(w) && CanStep(w, Hear(m, reply)) && (reply.Accepted? || reply.acceptedSequence.Some?)
    ensures Local(HearReply(w, m, reply))
  {
    hide SlotOk, MutationsOk, ReturnsOk, ServerOk;
    HearAcceptedKeepsSlot(w, m, reply);
    HearAcceptedKeepsMutations(w, m, reply);
    HearAcceptedKeepsReturns(w, m, reply);
    HearAcceptedKeepsServer(w, m, reply);
  }

  lemma NoOperation(w: Writer, m: MutationId)
    requires SlotOk(w) && m in w.mutations && !w.mutations[m].at.Reserving? && !w.mutations[m].at.Reconciling?
    ensures forall i :: 0 <= i < |w.slot| ==> w.slot[i].owner != m
  {
  }

  lemma DeliverKeepsSlot(w: Writer, i: nat)
    requires Local(w) && CanStep(w, Deliver(i))
    ensures SlotOk(Step(w, Deliver(i)))
  {
    hide ReturnsOk, ServerOk, MutationOk;
  }

  lemma DeliverKeepsMutations(w: Writer, i: nat)
    requires Local(w) && CanStep(w, Deliver(i))
    ensures MutationsOk(Step(w, Deliver(i)))
  {
    hide ReturnsOk, ServerOk;
    var next := Step(w, Deliver(i));
    forall n <- next.mutations ensures MutationOk(next, n, next.mutations[n]) {
      assert n in w.mutations ==> MutationOk(w, n, w.mutations[n]);
    }
  }

  lemma DeliverKeepsReturns(w: Writer, i: nat)
    requires Local(w) && CanStep(w, Deliver(i))
    ensures ReturnsOk(Step(w, Deliver(i)))
  {
    hide MutationsOk, ServerOk, OperationOk;
  }

  lemma DeliverKeepsServer(w: Writer, i: nat)
    requires Local(w) && CanStep(w, Deliver(i))
    ensures ServerOk(Step(w, Deliver(i)))
  {
  }

  lemma DeliverKept(w: Writer, i: nat)
    requires Local(w) && CanStep(w, Deliver(i))
    ensures Local(Step(w, Deliver(i)))
  {
    hide SlotOk, MutationsOk, ReturnsOk, ServerOk;
    DeliverKeepsSlot(w, i);
    DeliverKeepsMutations(w, i);
    DeliverKeepsReturns(w, i);
    DeliverKeepsServer(w, i);
  }

  lemma DieKeepsSlot(w: Writer)
    requires Local(w)
    ensures SlotOk(Die(w))
  {
    hide ReturnsOk, ServerOk, MutationOk;
  }

  lemma DieKeepsMutations(w: Writer)
    requires Local(w)
    ensures MutationsOk(Die(w))
  {
    hide ReturnsOk, ServerOk;
    var next := Die(w);
    forall n <- next.mutations ensures MutationOk(next, n, next.mutations[n]) {
      assert n in w.mutations ==> MutationOk(w, n, w.mutations[n]);
    }
  }

  lemma DieKeepsReturns(w: Writer)
    requires Local(w)
    ensures ReturnsOk(Die(w))
  {
    hide MutationsOk, ServerOk, OperationOk;
  }

  lemma DieKeepsServer(w: Writer)
    requires Local(w)
    ensures ServerOk(Die(w))
  {
    hide ReturnsOk, OperationOk, StageOk;
  }

  lemma DieKept(w: Writer)
    requires Local(w)
    ensures Local(Die(w))
  {
    hide SlotOk, MutationsOk, ReturnsOk, ServerOk;
    DieKeepsSlot(w);
    DieKeepsMutations(w);
    DieKeepsReturns(w);
    DieKeepsServer(w);
  }

  lemma LocalKept(w: Writer, a: Action)
    requires Local(w) && CanStep(w, a)
    ensures Local(Step(w, a))
  {
    hide Local, Transmit, End;
    match a
    case Call(client) => CallKept(w, client);
    case EnterSlot(m) => EnterKept(w, m);
    case LoadStored => LoadKept(w);
    case PersistNext(ok) =>
      if w.slot[0].kind.Reservation? { ReservationPersistKept(w, ok); } else { ReconciliationPersistKept(w, ok); }
    case ReturnSequence => ReturnKept(w);
    case Encode(m, ok) => EncodeKept(w, m);
    case Hear(m, reply) => HearKept(w, m, reply);
    case Deliver(index) => DeliverKept(w, index);
    case Crash => DieKept(w);
  }

  lemma EncodeKept(w: Writer, m: MutationId)
    requires Local(w) && m in w.mutations && w.mutations[m].at.Encoding? && w.mutations[m].sequence.Some?
    ensures Local(Transmit(w, m)) && Local(End(w, m))
  {
    NoOperation(w, m);
    TransmitKept(w, m);
    EndKept(w, m);
  }

  // Steps that start no mutation and give no sequence.
  ghost predicate SameOrder(w: Writer, next: Writer) {
    && next.mutations.Keys == w.mutations.Keys
    && forall m <- w.mutations ::
         && next.mutations[m].client == w.mutations[m].client
         && next.mutations[m].sequence == w.mutations[m].sequence
         && (Started(next.mutations[m]) ==> Started(w.mutations[m]))
         && (w.mutations[m].at.Finished? ==> next.mutations[m].at.Finished?)
  }

  lemma SlotStepsKeepOrder(w: Writer, a: Action)
    requires Local(w) && CanStep(w, a) && (a.LoadStored? || a.PersistNext?)
    ensures SameOrder(w, Step(w, a))
  {
    hide ReturnsOk, ServerOk, Frontier;
    assert MutationOk(w, w.slot[0].owner, w.mutations[w.slot[0].owner]);
  }

  lemma OtherStepsKeepOrder(w: Writer, a: Action)
    requires Local(w) && CanStep(w, a) && !a.Call? && !a.EnterSlot? && !a.ReturnSequence?
    ensures SameOrder(w, Step(w, a))
  {
    hide SlotOk, ReturnsOk, ServerOk, Frontier, Load, Persist;
    if a.LoadStored? || a.PersistNext? {
      SlotStepsKeepOrder(w, a);
    } else {
      assert a.Encode? ==> MutationOk(w, a.m, w.mutations[a.m]);
      assert a.Hear? ==> MutationOk(w, a.m, w.mutations[a.m]);
    }
  }

  lemma ReturnKeepsOrder(w: Writer)
    requires Inv(w) && CanStep(w, ReturnSequence)
    ensures InOrder(Return(w))
  {
    hide ReturnsOk, ServerOk;
    var m := w.slot[0].owner;
    forall n <- w.mutations
      ensures w.mutations[n].sequence.Some? ==> w.mutations[n].sequence.value < w.slot[0].at.current {
      assert MutationOk(w, n, w.mutations[n]);
    }
  }

  lemma StepKept(w: Writer, a: Action)
    requires Inv(w) && CanStep(w, a)
    ensures Inv(Step(w, a))
  {
    LocalKept(w, a);
    if a.ReturnSequence? {
      ReturnKeepsOrder(w);
    } else if a.Call? {
      CallKeepsOrder(w, a.client);
    } else if a.EnterSlot? {
      EnterKeepsOrder(w, a.m);
    } else {
      OtherStepsKeepOrder(w, a);
      SameOrderKept(w, Step(w, a));
    }
  }

  lemma SameOrderKept(w: Writer, next: Writer)
    requires InOrder(w) && SameOrder(w, next)
    ensures InOrder(next)
  {
  }

  lemma CallKeepsOrder(w: Writer, client: nat)
    requires Inv(w)
    ensures InOrder(Step(w, Call(client)))
  {
    forall m <- w.mutations ensures m < w.nextMutation {
      assert MutationOk(w, m, w.mutations[m]);
    }
  }

  lemma EnterKeepsOrder(w: Writer, m: MutationId)
    requires Inv(w) && CanStep(w, EnterSlot(m))
    ensures InOrder(Step(w, EnterSlot(m)))
  {
    assert MutationOk(w, m, w.mutations[m]);
  }
}
