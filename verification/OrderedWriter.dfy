/**
 The ordered writer as a distributed system: mutations of successive clients that share one
 sequencer, its FIFO slot over the durable store, a network that may lose, delay and repeat, a
 server that applies a request only above the last sequence it applied, and process crashes.
 */
module OrderedWriter {
  import opened Options
  import opened Model
  import opened Sequencer

  type MutationId = nat

  datatype Mutation = Mutation(client: nat, at: MutationPoint, sequence: Option<nat>, attempts: nat)

  datatype MutationPoint =
    | Queued
    | Reserving
    | Encoding
    | InFlight
    | Reconciling(afterwards: Afterwards)
    | Finished

  datatype Afterwards = GiveUp | Resend

  // An operation in the sequencer's FIFO slot; the head of the queue holds the slot.
  datatype Operation = Operation(owner: MutationId, kind: Kind, at: OperationPoint)

  datatype Kind = Reservation | Reconciliation(accepted: nat)

  datatype OperationPoint = Waiting | Loaded(current: nat) | Persisted(current: nat)

  // The request id is the mutation's; the bytes are fixed when it is encoded, once.
  datatype Request = Request(mutation: MutationId, sequence: nat)

  datatype Server = Server(lastApplied: Option<nat>, applied: seq<Request>)

  datatype Writer = Writer(
    floor: nat,
    stored: Option<int>,
    slot: seq<Operation>,
    mutations: map<MutationId, Mutation>,
    nextMutation: MutationId,
    transmissions: seq<Request>,   // every attempt ever put on the wire
    server: Server,
    // what happened so far; no step reads it
    returned: seq<nat>,
    reconciled: set<nat>)

  datatype Reply = Accepted(sequence: nat) | Refused(acceptedSequence: Option<nat>, retrySafe: bool)

  datatype Action =
    | Call(client: nat)
    | EnterSlot(m: MutationId)
    | LoadStored
    | PersistNext(ok: bool)
    | ReturnSequence
    | Encode(m: MutationId, ok: bool)
    | Hear(m: MutationId, reply: Reply)
    | Deliver(index: nat)
    | Crash

  function Initial(floor: nat, stored: Option<int>, lastApplied: Option<nat>): Writer {
    Writer(floor, stored, [], map[], 0, [], Server(lastApplied, []), [], {})
  }

  function Next(w: Writer): nat {
    CurrentNext(w.floor, w.stored)
  }

  function Update(w: Writer, m: MutationId, next: Mutation): Writer {
    w.(mutations := w.mutations[m := next])
  }

  // The mutation ends, which passes its client's send slot on.
  function End(w: Writer, m: MutationId): Writer
    requires m in w.mutations
  {
    Update(w, m, w.mutations[m].(at := Finished))
  }

  // The FIFO send slot: every earlier call through the same client is over.
  predicate HoldsSendSlot(w: Writer, m: MutationId)
    requires m in w.mutations
  {
    forall n <- w.mutations :: n < m && w.mutations[n].client == w.mutations[m].client ==> w.mutations[n].at.Finished?
  }

  function Transmit(w: Writer, m: MutationId): Writer
    requires m in w.mutations && w.mutations[m].sequence.Some?
  {
    Update(w, m, w.mutations[m].(at := InFlight, attempts := w.mutations[m].attempts + 1)).(
      transmissions := w.transmissions + [Request(m, w.mutations[m].sequence.value)])
  }

  // The head operation completes a reconciliation.
  function Reconciled(w: Writer): Writer
    requires w.slot != [] && w.slot[0].owner in w.mutations && w.slot[0].kind.Reconciliation?
    requires w.mutations[w.slot[0].owner].sequence.Some?
  {
    var m := w.slot[0].owner;
    var done := w.(slot := w.slot[1..], reconciled := w.reconciled + {w.slot[0].kind.accepted});
    if w.mutations[m].at == Reconciling(Resend) then Transmit(done, m) else End(done, m)
  }

  predicate CanStep(w: Writer, a: Action) {
    match a
    case Call(_) => true
    case EnterSlot(m) =>
      m in w.mutations && w.mutations[m].at.Queued? && HoldsSendSlot(w, m)
    case LoadStored => w.slot != [] && w.slot[0].at.Waiting? && OwnerCanProceed(w)
    case PersistNext(_) => w.slot != [] && w.slot[0].at.Loaded? && OwnerCanProceed(w)
    case ReturnSequence => w.slot != [] && w.slot[0].at.Persisted? && OwnerCanProceed(w)
    case Encode(m, _) => m in w.mutations && w.mutations[m].at.Encoding? && w.mutations[m].sequence.Some?
    case Hear(m, _) => m in w.mutations && w.mutations[m].at.InFlight? && w.mutations[m].sequence.Some?
    case Deliver(index) => index < |w.transmissions|
    case Crash => true
  }

  // The slot's head belongs to a mutation that is waiting for it.
  predicate OwnerCanProceed(w: Writer)
    requires w.slot != []
  {
    var o := w.slot[0].owner;
    && o in w.mutations
    && (w.slot[0].kind.Reconciliation? ==> w.mutations[o].at.Reconciling? && w.mutations[o].sequence.Some?)
    && (w.slot[0].kind.Reservation? ==> w.mutations[o].at.Reserving?)
    && (w.slot[0].at.Persisted? ==> w.slot[0].kind.Reservation?)
  }

  function Load(w: Writer): Writer
    requires CanStep(w, LoadStored)
  {
    if w.slot[0].kind.Reconciliation? && w.slot[0].kind.accepted >= MAXIMUM_SAFE_WIRE_INTEGER then
      Reconciled(w)
    else
      w.(slot := [w.slot[0].(at := Loaded(Next(w)))] + w.slot[1..])
  }

  function Persist(w: Writer, ok: bool): Writer
    requires CanStep(w, PersistNext(ok))
  {
    var m, current, popped := w.slot[0].owner, w.slot[0].at.current, w.(slot := w.slot[1..]);
    match w.slot[0].kind
    case Reservation =>
      if current >= MAXIMUM_SAFE_WIRE_INTEGER || !ok then End(popped, m)
      else w.(stored := Some(current + 1), slot := [w.slot[0].(at := Persisted(current))] + w.slot[1..])
    case Reconciliation(accepted) =>
      if accepted < current then Reconciled(w)
      else if !ok then End(popped, m)
      else Reconciled(w.(stored := Some(accepted + 1)))
  }

  function Return(w: Writer): Writer
    requires CanStep(w, ReturnSequence)
  {
    var m, current := w.slot[0].owner, w.slot[0].at.current;
    Update(w, m, w.mutations[m].(at := Encoding, sequence := Some(current))).(
      slot := w.slot[1..], returned := w.returned + [current])
  }

  function HearReply(w: Writer, m: MutationId, reply: Reply): Writer
    requires CanStep(w, Hear(m, reply))
  {
    var accepted := if reply.Accepted? then Some(reply.sequence) else reply.acceptedSequence;
    var again := reply.Refused? && reply.retrySafe && w.mutations[m].attempts == 1;
    if accepted.Some? then
      Update(w, m, w.mutations[m].(at := Reconciling(if again then Resend else GiveUp))).(
        slot := w.slot + [Operation(m, Reconciliation(accepted.value), Waiting)])
    else if again then Transmit(w, m)
    else End(w, m)
  }

  // A request is applied only above the last applied sequence; otherwise it is "behind".
  function Receive(s: Server, r: Request): Server {
    if s.lastApplied.Some? && r.sequence <= s.lastApplied.value then s
    else Server(Some(r.sequence), s.applied + [r])
  }

  // The process dies: memory is gone; the store, the network and the server stay.
  function Die(w: Writer): Writer {
    w.(slot := [],
       mutations := map m | m in w.mutations :: w.mutations[m].(at := Finished))
  }

  function Step(w: Writer, a: Action): Writer
    requires CanStep(w, a)
  {
    match a
    case Call(client) =>
      w.(mutations := w.mutations[w.nextMutation := Mutation(client, Queued, None, 0)],
         nextMutation := w.nextMutation + 1)
    case EnterSlot(m) =>
      Update(w, m, w.mutations[m].(at := Reserving)).(slot := w.slot + [Operation(m, Reservation, Waiting)])
    case LoadStored => Load(w)
    case PersistNext(ok) => Persist(w, ok)
    case ReturnSequence => Return(w)
    case Encode(m, ok) => if ok then Transmit(w, m) else End(w, m)
    case Hear(m, reply) => HearReply(w, m, reply)
    case Deliver(index) => w.(server := Receive(w.server, w.transmissions[index]))
    case Crash => Die(w)
  }
}
