/** The ordered writer's client: one mutation from reservation to reconciliation. */
module Presence {
  import opened Options
  import opened Model
  import opened Storage
  import opened Sequencer

  datatype ErrorEnvelope = Envelope(code: string, retryable: bool, acceptedSequence: Option<nat>)

  datatype TransportError =
    | Network
    | EmptyResponse(status: nat)
    | Decode
    | RequestIdMismatch
    | PayloadTooLarge(actual: nat, limit: nat)
    | CredentialDeviceMismatch
    | Server(status: nat, envelope: ErrorEnvelope)
    | HttpStatus(status: nat)
    | PairingServer(status: nat, code: string)

  predicate IsSafeForImmediateIdempotentRetry(e: TransportError) {
    match e
    case PayloadTooLarge(_, _) => false
    case CredentialDeviceMismatch => false
    case Server(status, envelope) => 500 <= status <= 599 && envelope.retryable
    case HttpStatus(status) => 500 <= status <= 599
    case EmptyResponse(_) => true
    case Decode => true
    case RequestIdMismatch => true
    case Network => true
    case PairingServer(_, _) => false
  }

  predicate NeedsRenegotiation(e: TransportError) {
    match e
    case Server(_, envelope) =>
      envelope.code == "COMPANION_SCHEMA_UNSUPPORTED" || envelope.code == "COMPANION_FEATURE_UNAVAILABLE"
    case HttpStatus(status) => status == 426
    case _ => false
  }

  function AcceptedSequenceOf(e: TransportError): Option<nat> {
    if e.Server? then e.envelope.acceptedSequence else None
  }

  // The retry matrix: no 4xx is ever resent, and a reply that calls for renegotiation is resent only
  // when it is a 5xx envelope the server itself marks retryable.
  lemma RetriesAreForServerFaults(e: TransportError)
    requires IsSafeForImmediateIdempotentRetry(e)
    ensures e.Server? || e.HttpStatus? ==> 500 <= e.status
    ensures NeedsRenegotiation(e) ==> e.Server? && e.envelope.retryable
    ensures AcceptedSequenceOf(e).Some? ==> e.Server?
  {
  }

  // What calls for renegotiation: the two codes by which a server refuses the schema or the feature,
  // and 426 from one that cannot say so.
  lemma RenegotiatesExactly(e: TransportError)
    ensures NeedsRenegotiation(e) <==>
              || e == HttpStatus(426)
              || (e.Server? && e.envelope.code in {"COMPANION_SCHEMA_UNSUPPORTED", "COMPANION_FEATURE_UNAVAILABLE"})
  {
  }

  // An encoded mutation: what an attempt puts on the wire.
  datatype Request = Request(requestId: nat, sequence: nat, bytes: seq<int>)

  datatype Failure = Wire | Reservation(error: SequencerError) | Transport(cause: TransportError)

  // One attempt as the network may answer it.
  datatype Reply = Accepted(acceptedSequence: nat) | Refused(error: TransportError)

  // The decision after a first reply: whether the same bytes go out once more.
  predicate ResendsAfter(first: Reply, reconciled: bool) {
    first.Refused? && reconciled && IsSafeForImmediateIdempotentRetry(first.error)
  }

  function AcceptedBy(reply: Reply): Option<nat> {
    if reply.Accepted? then Some(reply.acceptedSequence) else AcceptedSequenceOf(reply.error)
  }

  // Whether the store takes the sequence a reply reports: only one that is ahead has to be written.
  predicate Reconciles(next: nat, reply: Reply, fault: Fault<Entries>) {
    var accepted := AcceptedBy(reply);
    accepted.Some? && next <= accepted.value < MAXIMUM_SAFE_WIRE_INTEGER ==> fault.NoFault?
  }

  // The next sequence once it has.
  function NextAfter(next: nat, reply: Reply): nat {
    var accepted := AcceptedBy(reply);
    if accepted.Some? && next <= accepted.value < MAXIMUM_SAFE_WIRE_INTEGER then accepted.value + 1 else next
  }

  // What the caller is told about one reply whose sequence was reconciled or not.
  function Verdict(reply: Reply, reconciled: bool): Result<nat, Failure> {
    if !reconciled then Err(Reservation(Backing))
    else match reply
      case Accepted(sequence) => Ok(sequence)
      case Refused(error) => Err(Transport(error))
  }

  // While the store can be written the caller is told what the reply said; when it cannot and has to
  // be, the caller is told that instead.
  lemma VerdictsAreTold(next: nat, reply: Reply, fault: Fault<Entries>)
    ensures fault.NoFault? ==>
              Verdict(reply, Reconciles(next, reply, fault))
              == (if reply.Accepted? then Ok(reply.acceptedSequence) else Err(Transport(reply.error)))
    ensures Verdict(reply, Reconciles(next, reply, fault)) == Err(Reservation(Backing)) <==>
              !fault.NoFault?
              && (|| (reply.Accepted? && next <= reply.acceptedSequence < MAXIMUM_SAFE_WIRE_INTEGER)
                  || (reply.Refused? && reply.error.Server? && reply.error.envelope.acceptedSequence.Some?
                      && next <= reply.error.envelope.acceptedSequence.value < MAXIMUM_SAFE_WIRE_INTEGER))
  {
  }

  class PresenceClient {
    const sequencer: CompanionSequencer
    const deviceId: string
    const maximumPayloadBytes: nat
    // Requests put on the wire, oldest first.
    var sent: seq<Request>

    constructor (sequencer: CompanionSequencer, deviceId: string, maximumPayloadBytes: nat)
      ensures this.sequencer == sequencer && this.deviceId == deviceId
      ensures this.maximumPayloadBytes == maximumPayloadBytes && sent == []
    {
      this.sequencer := sequencer;
      this.deviceId := deviceId;
      this.maximumPayloadBytes := maximumPayloadBytes;
      this.sent := [];
    }

    // The size check comes before any network use; otherwise the request goes out and `reply` comes.
    method Attempt(request: Request, reply: Reply) returns (r: Reply)
      modifies this`sent
      ensures |request.bytes| > maximumPayloadBytes ==>
                sent == old(sent) && r == Refused(PayloadTooLarge(|request.bytes|, maximumPayloadBytes))
      ensures |request.bytes| <= maximumPayloadBytes ==> sent == old(sent) + [request] && r == reply
    {
      if |request.bytes| > maximumPayloadBytes {
        return Refused(PayloadTooLarge(|request.bytes|, maximumPayloadBytes));
      }
      sent := sent + [request];
      return reply;
    }

    method ReconcileFromError(error: TransportError, fault: Fault<Entries>) returns (r: Result<(), SequencerError>)
      modifies sequencer.backing.file
      ensures sequencer.Next() >= old(sequencer.Next())
      ensures r.Ok? && error.Server? && error.envelope.acceptedSequence.Some?
              && error.envelope.acceptedSequence.value < MAXIMUM_SAFE_WIRE_INTEGER ==>
                sequencer.Next() > error.envelope.acceptedSequence.value
      ensures r.Ok? <==> Reconciles(old(sequencer.Next()), Refused(error), fault)
      ensures r.Err? ==> r.error == Backing
      ensures r.Ok? ==> sequencer.Next() == NextAfter(old(sequencer.Next()), Refused(error))
    {
      var accepted := AcceptedSequenceOf(error);
      if accepted.Some? {
        r := sequencer.Reconcile(accepted.value, fault);
      } else {
        r := Ok(());
      }
    }

    // The second attempt, whose reply stands.
    method Resend(request: Request, reply: Reply, fault: Fault<Entries>) returns (r: Result<nat, Failure>)
      requires |request.bytes| <= maximumPayloadBytes
      modifies this`sent, sequencer.backing.file
      ensures sent == old(sent) + [request]
      ensures sequencer.Next() >= old(sequencer.Next())
      ensures r == Verdict(reply, Reconciles(old(sequencer.Next()), reply, fault))
      ensures r.Ok? && r.value < MAXIMUM_SAFE_WIRE_INTEGER ==> sequencer.Next() > r.value
    {
      var second := Attempt(request, reply);
      match second {
        case Accepted(accepted) =>
          var reconciled := sequencer.Reconcile(accepted, fault);
          return if reconciled.Ok? then Ok(accepted) else Err(Reservation(reconciled.error));
        case Refused(e) =>
          var noted := ReconcileFromError(e, fault);
          return if noted.Err? then Err(Reservation(noted.error)) else Err(Transport(e));
      }
    }

    // At most two attempts, the second with the identical request and only after a retry-safe first
    // failure whose accepted sequence was reconciled.
    method PerformWithSingleRetry(request: Request, first: Reply, second: Reply,
                                  fault1: Fault<Entries>, fault2: Fault<Entries>)
      returns (r: Result<nat, Failure>)
      modifies this`sent, sequencer.backing.file
      ensures sent == old(sent) || sent == old(sent) + [request] || sent == old(sent) + [request, request]
      ensures sent == old(sent) <==> |request.bytes| > maximumPayloadBytes
      ensures sequencer.Next() >= old(sequencer.Next())
      // the caller is told the first attempt's outcome, or the second's when there was one
      ensures |request.bytes| > maximumPayloadBytes ==>
                r == Err(Transport(PayloadTooLarge(|request.bytes|, maximumPayloadBytes)))
      ensures sent == old(sent) + [request] ==> r == Verdict(first, Reconciles(old(sequencer.Next()), first, fault1))
      ensures sent == old(sent) + [request, request] ==>
                r == Verdict(second, Reconciles(NextAfter(old(sequencer.Next()), first), second, fault2))
      ensures |request.bytes| <= maximumPayloadBytes ==>
                (sent == old(sent) + [request, request] <==>
                  ResendsAfter(first, Reconciles(old(sequencer.Next()), first, fault1)))
      // once the first reply's sequence is reconciled, the same bytes go out again exactly when nobody
      // knows what became of the first attempt, or the server failed and does not rule a retry out
      ensures |request.bytes| <= maximumPayloadBytes && Reconciles(old(sequencer.Next()), first, fault1) ==>
                (sent == old(sent) + [request, request] <==>
                  && first.Refused?
                  && (|| first.error.Network? || first.error.EmptyResponse? || first.error.Decode?
                      || first.error.RequestIdMismatch?
                      || (first.error.HttpStatus? && first.error.status / 100 == 5)
                      || (first.error.Server? && first.error.status / 100 == 5 && first.error.envelope.retryable)))
      // success: the last reply accepted, and the sequence it reported is reconciled
      ensures r.Ok? ==>
                && sent != old(sent)
                && (if sent == old(sent) + [request] then first else second) == Accepted(r.value)
                && (r.value < MAXIMUM_SAFE_WIRE_INTEGER ==> sequencer.Next() > r.value)
    {
      var reply := Attempt(request, first);
      var error;
      match reply {
        case Accepted(accepted) =>
          var reconciled := sequencer.Reconcile(accepted, fault1);
          return if reconciled.Ok? then Ok(accepted) else Err(Reservation(reconciled.error));
        case Refused(e) =>
          error := e;
      }
      var noted := ReconcileFromError(error, fault1);
      if noted.Err? {
        return Err(Reservation(noted.error));
      }
      if !IsSafeForImmediateIdempotentRetry(error) {
        return Err(Transport(error));
      }
      r := Resend(request, second, fault2);
    }

    // A mutation inside the send slot: reserve, map, guard the device, perform. `body` is the mapper's
    // result for the reserved sequence (a device id and the encoded bytes), None when it refuses.
    method Mutate(requestId: nat, body: nat -> Option<(string, seq<int>)>, first: Reply, second: Reply,
                  reserveFault: Fault<Entries>, fault1: Fault<Entries>, fault2: Fault<Entries>)
      returns (r: Result<nat, Failure>)
      modifies this`sent, sequencer.backing.file
      ensures old(sequencer.Next()) >= MAXIMUM_SAFE_WIRE_INTEGER || !reserveFault.NoFault? ==>
                && r == Err(Reservation(
                          if old(sequencer.Next()) >= MAXIMUM_SAFE_WIRE_INTEGER then Exhausted else Backing))
                && sent == old(sent)
                && sequencer.backing.Contents() == old(sequencer.backing.Contents())
      // reserved: the sequence is consumed whatever happens next, and only it is ever sent
      ensures old(sequencer.Next()) < MAXIMUM_SAFE_WIRE_INTEGER && reserveFault.NoFault? ==>
                && sequencer.Next() > old(sequencer.Next())
                && |old(sent)| <= |sent| <= |old(sent)| + 2
                && sent[..|old(sent)|] == old(sent)
                && (forall i :: |old(sent)| <= i < |sent| ==>
                      && sent[i].sequence == old(sequencer.Next()) && sent[i].requestId == requestId
                      && sent[i] == sent[|old(sent)|])
      // the reserved sequence is mapped for this device, or nothing is sent
      ensures old(sequencer.Next()) < MAXIMUM_SAFE_WIRE_INTEGER && reserveFault.NoFault? ==>
                var mapped := body(old(sequencer.Next()));
                if mapped.None? then sent == old(sent) && r == Err(Wire)
                else if mapped.value.0 != deviceId then
                  sent == old(sent) && r == Err(Transport(CredentialDeviceMismatch))
                else if |mapped.value.1| > maximumPayloadBytes then
                  sent == old(sent) && r == Err(Transport(PayloadTooLarge(|mapped.value.1|, maximumPayloadBytes)))
                else
                  var next := old(sequencer.Next()) + 1;
                  && sent[|old(sent)|..] != [] && sent[|old(sent)|].bytes == mapped.value.1
                  && (|sent| == |old(sent)| + 2 <==> ResendsAfter(first, Reconciles(next, first, fault1)))
                  && r == if |sent| == |old(sent)| + 2
                          then Verdict(second, Reconciles(NextAfter(next, first), second, fault2))
                          else Verdict(first, Reconciles(next, first, fault1))
    {
      var reserved := sequencer.Reserve(reserveFault);
      if reserved.Err? {
        assert reserved.error == Exhausted || reserved.error == Backing;
        return Err(Reservation(reserved.error));
      }
      var sequence := reserved.value;
      var mapped := body(sequence);
      if mapped.None? {
        return Err(Wire);
      }
      if mapped.value.0 != deviceId {
        return Err(Transport(CredentialDeviceMismatch));
      }
      r := PerformWithSingleRetry(Request(requestId, sequence, mapped.value.1), first, second, fault1, fault2);
    }
  }
}
