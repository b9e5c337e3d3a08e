/**
 Why one sequencer per device. A discarded authority leaves its sequencer to the clients that still
 hold it, and the next resolve makes another: several FIFO slots over one stored entry.
 */
module SequencerRuns {
  import opened Model
  import opened Options
  import opened Sequencer

  // A reservation or a reconciliation that has loaded and not yet stored; its sequencer's slot is taken.
  datatype Operation = Operation(loaded: nat, accepted: Option<nat>)

  datatype Device = Device(
    floor: nat,
    stored: Option<int>,
    sequencers: nat,                  // objects made so far, numbered from 0
    holding: map<nat, Operation>,     // by sequencer
    returned: seq<nat>,
    reconciled: set<nat>)

  datatype Action =
    | NewAuthority
    | Load(sequencer: nat, accepted: Option<nat>)
    | Store(sequencer: nat, ok: bool)
    | Crash

  function Next(d: Device): nat {
    CurrentNext(d.floor, d.stored)
  }

  ghost predicate Initial(d: Device) {
    d.sequencers == 1 && d.holding == map[] && d.returned == [] && d.reconciled == {}
  }

  // An exhausted reservation and a reconciliation outside the range store nothing: they are no steps.
  predicate CanStep(d: Device, a: Action) {
    match a
    case NewAuthority => true
    case Load(s, accepted) =>
      && s < d.sequencers && s !in d.holding
      && (if accepted.None? then Next(d) else accepted.value) < MAXIMUM_SAFE_WIRE_INTEGER
    case Store(s, _) => s in d.holding
    case Crash => true
  }

  function Stored(d: Device, s: nat, ok: bool): Device
    requires s in d.holding
  {
    var op := d.holding[s];
    var free := d.(holding := d.holding - {s});
    if op.accepted.None? then
      if ok then free.(stored := Some(op.loaded + 1), returned := d.returned + [op.loaded]) else free
    else if op.accepted.value < op.loaded then free.(reconciled := d.reconciled + {op.accepted.value})
    else if ok then free.(stored := Some(op.accepted.value + 1), reconciled := d.reconciled + {op.accepted.value})
    else free
  }

  function Step(d: Device, a: Action): Device
    requires CanStep(d, a)
  {
    match a
    case NewAuthority => d.(sequencers := d.sequencers + 1)
    case Load(s, accepted) => d.(holding := d.holding[s := Operation(Next(d), accepted)])
    case Store(s, ok) => Stored(d, s, ok)
    case Crash => d.(holding := map[])
  }

  ghost predicate IsRun(ds: seq<Device>, acts: seq<Action>) {
    && |ds| == |acts| + 1
    && Initial(ds[0])
    && forall i :: 0 <= i < |acts| ==> Linked(ds, acts, i)
  }

  ghost predicate Linked(ds: seq<Device>, acts: seq<Action>, i: nat)
    requires i < |acts| && |ds| == |acts| + 1
  {
    CanStep(ds[i], acts[i]) && ds[i + 1] == Step(ds[i], acts[i])
  }

  // ---- operations that write -------------------------------------------------------------------------

  // Storing this operation changes the entry.
  predicate Writes(op: Operation, ok: bool) {
    ok && (op.accepted.Some? ==> op.accepted.value >= op.loaded)
  }

  // What is in flight in this sequencer's slot before step `i` will get as far as writing.
  predicate WillWrite(acts: seq<Action>, i: nat, s: nat, op: Operation)
    decreases |acts| - i
  {
    if i >= |acts| || acts[i].Crash? then false
    else if acts[i].Store? && acts[i].sequencer == s then Writes(op, acts[i].ok)
    else WillWrite(acts, i + 1, s, op)
  }

  predicate InFlight(d: Device, acts: seq<Action>, i: nat, s: nat) {
    s in d.holding && WillWrite(acts, i, s, d.holding[s])
  }

  // Step `i` loads for a write while another write has loaded and not stored.
  ghost predicate Overlaps(ds: seq<Device>, acts: seq<Action>, i: nat)
    requires i < |acts| && |ds| == |acts| + 1
  {
    && acts[i].Load?
    && WillWrite(acts, i + 1, acts[i].sequencer, Operation(Next(ds[i]), acts[i].accepted))
    && exists s :: InFlight(ds[i], acts, i, s)
  }

  ghost predicate NoOverlap(ds: seq<Device>, acts: seq<Action>, n: nat)
    requires n <= |acts| && |ds| == |acts| + 1
  {
    forall i :: 0 <= i < n ==> !Overlaps(ds, acts, i)
  }

  // Step `i` writes on top of an entry that is no longer the one it loaded.
  predicate IsStale(ds: seq<Device>, acts: seq<Action>, i: nat)
    requires i < |acts| && |ds| == |acts| + 1
  {
    && acts[i].Store? && acts[i].sequencer in ds[i].holding
    && Writes(ds[i].holding[acts[i].sequencer], acts[i].ok)
    && ds[i].holding[acts[i].sequencer].loaded != Next(ds[i])
  }

  ghost predicate Increasing(returned: seq<nat>) {
    forall i, j :: 0 <= i < j < |returned| ==> returned[i] < returned[j]
  }

  ghost predicate Repeats(returned: seq<nat>) {
    exists i, j :: 0 <= i < j < |returned| && returned[i] == returned[j]
  }

  // ---- without overlap -----------------------------------------------------------------------------

  predicate CanStore(op: Operation) {
    (if op.accepted.None? then op.loaded else op.accepted.value) < MAXIMUM_SAFE_WIRE_INTEGER
  }

  // One write at a time, and on top of what it loaded; nothing else loaded more than there is.
  ghost predicate OneAtATime(d: Device, acts: seq<Action>, i: nat) {
    && (forall s, t :: InFlight(d, acts, i, s) && InFlight(d, acts, i, t) ==> s == t)
    && (forall s :: InFlight(d, acts, i, s) ==> d.holding[s].loaded == Next(d))
    && (forall s <- d.holding :: d.holding[s].loaded <= Next(d) && CanStore(d.holding[s]))
  }

  ghost predicate Ordered(d: Device) {
    && Increasing(d.returned)
    && (forall v <- d.returned :: d.floor <= v < Next(d))
    && (forall v <- d.reconciled :: v < Next(d))
  }

  lemma StoreOrders(d: Device, s: nat, ok: bool)
    requires Ordered(d) && s in d.holding && CanStore(d.holding[s])
    requires d.holding[s].loaded <= Next(d) && (Writes(d.holding[s], ok) ==> d.holding[s].loaded == Next(d))
    ensures Ordered(Stored(d, s, ok)) && Next(d) <= Next(Stored(d, s, ok))
    ensures !Writes(d.holding[s], ok) ==> Next(Stored(d, s, ok)) == Next(d)
  {
    var next := Stored(d, s, ok);
    forall i, j | 0 <= i < j < |next.returned| ensures next.returned[i] < next.returned[j] {
      assert d.returned[i] in d.returned;
    }
  }

  lemma NextIsOrdered(d: Device, acts: seq<Action>, i: nat)
    requires i < |acts| && CanStep(d, acts[i]) && OneAtATime(d, acts, i) && Ordered(d)
    ensures var next := Step(d, acts[i]);
            && Ordered(next) && Next(d) <= Next(next)
            && (Next(d) != Next(next) ==> acts[i].Store? && InFlight(d, acts, i, acts[i].sequencer))
  {
    var a := acts[i];
    if a.Store? {
      assert Writes(d.holding[a.sequencer], a.ok) ==> InFlight(d, acts, i, a.sequencer);
      StoreOrders(d, a.sequencer, a.ok);
    }
    hide Stored;
  }

  // What is in flight after a step was in flight before it, or has just loaded.
  lemma InFlightBefore(d: Device, acts: seq<Action>, i: nat, s: nat)
    requires i < |acts| && CanStep(d, acts[i]) && InFlight(Step(d, acts[i]), acts, i + 1, s)
    ensures var next := Step(d, acts[i]);
            if acts[i].Load? && acts[i].sequencer == s then next.holding[s] == Operation(Next(d), acts[i].accepted)
            else InFlight(d, acts, i, s) && next.holding[s] == d.holding[s]
    ensures acts[i].Store? ==> s != acts[i].sequencer
  {
  }

  lemma HeldIsSane(d: Device, a: Action, s: nat)
    requires CanStep(d, a) && s in Step(d, a).holding
    ensures if a.Load? && a.sequencer == s then Step(d, a).holding[s] == Operation(Next(d), a.accepted)
            else s in d.holding && Step(d, a).holding[s] == d.holding[s]
  {
  }

  lemma NextIsOneAtATime(ds: seq<Device>, acts: seq<Action>, i: nat)
    requires IsRun(ds, acts) && i < |acts| && !Overlaps(ds, acts, i)
    requires OneAtATime(ds[i], acts, i) && Ordered(ds[i])
    ensures OneAtATime(ds[i + 1], acts, i + 1) && Ordered(ds[i + 1])
  {
    assert Linked(ds, acts, i);
    NextIsOrdered(ds[i], acts, i);
    var next, j := ds[i + 1], i + 1;
    forall s | InFlight(next, acts, j, s)
      ensures if acts[i].Load? && acts[i].sequencer == s
                then next.holding[s] == Operation(Next(ds[i]), acts[i].accepted)
              else InFlight(ds[i], acts, i, s) && next.holding[s] == ds[i].holding[s]
      ensures acts[i].Store? ==> s != acts[i].sequencer
    {
      InFlightBefore(ds[i], acts, i, s);
    }
    forall s <- next.holding ensures next.holding[s].loaded <= Next(next) && CanStore(next.holding[s]) {
      HeldIsSane(ds[i], acts[i], s);
    }
    hide Ordered, CurrentNext, Step, IsRun;
  }

  // However many sequencers there are, with failing stores, reconciliations and crashes: as long as no
  // write loads while another is under way, returned sequences strictly increase, never repeat, and
  // exceed every accepted value that was reconciled before them.
  lemma {:induction false} NoOverlapOrders(ds: seq<Device>, acts: seq<Action>, i: nat)
    requires IsRun(ds, acts) && i <= |acts| && NoOverlap(ds, acts, i)
    ensures OneAtATime(ds[i], acts, i) && Ordered(ds[i])
  {
    if i > 0 {
      NoOverlapOrders(ds, acts, i - 1);
      assert !Overlaps(ds, acts, i - 1);
      NextIsOneAtATime(ds, acts, i - 1);
    }
  }

  // One sequencer's slot rules an overlap out: it takes a discarded authority.
  lemma {:induction false} OneAuthorityNeverOverlaps(ds: seq<Device>, acts: seq<Action>, i: nat)
    requires IsRun(ds, acts) && i <= |acts| && NewAuthority !in acts[..i]
    ensures ds[i].sequencers == 1 && (forall s <- ds[i].holding :: s == 0) && NoOverlap(ds, acts, i)
  {
    if i > 0 {
      assert acts[..i] == acts[..i - 1] + [acts[i - 1]];
      OneAuthorityNeverOverlaps(ds, acts, i - 1);
      assert Linked(ds, acts, i - 1);
    }
  }

  // ---- with overlap ----------------------------------------------------------------------------------

  // A write on its way in this slot, on top of `v`.
  predicate IsOnTop(d: Device, acts: seq<Action>, i: nat, s: nat, v: nat) {
    InFlight(d, acts, i, s) && d.holding[s].loaded == v
  }

  ghost predicate Sane(d: Device) {
    forall s <- d.holding :: d.floor <= d.holding[s].loaded && CanStore(d.holding[s])
  }

  lemma {:induction false} AlwaysSane(ds: seq<Device>, acts: seq<Action>, i: nat)
    requires IsRun(ds, acts) && i <= |acts|
    ensures Sane(ds[i])
  {
    if i > 0 {
      AlwaysSane(ds, acts, i - 1);
      assert Linked(ds, acts, i - 1);
    }
  }

  // Nothing on its way is below `v`, and two writes are on top of it, or one is and the entry moved on.
  ghost predicate Race(d: Device, acts: seq<Action>, i: nat, v: nat) {
    && Next(d) >= v && (forall s :: InFlight(d, acts, i, s) ==> d.holding[s].loaded >= v)
    && ((exists s, t :: s != t && IsOnTop(d, acts, i, s, v) && IsOnTop(d, acts, i, t, v))
        || (Next(d) > v && exists s :: IsOnTop(d, acts, i, s, v)))
  }

  lemma StoreMovesOn(d: Device, s: nat, ok: bool)
    requires Sane(d) && s in d.holding
    ensures Next(Stored(d, s, ok)) == Next(d) || Writes(d.holding[s], ok)
    ensures Writes(d.holding[s], ok) ==> Next(Stored(d, s, ok)) > d.holding[s].loaded
  {
  }

  lemma OthersStayOnTop(d: Device, acts: seq<Action>, i: nat, s: nat, v: nat)
    requires i < |acts| && CanStep(d, acts[i]) && IsOnTop(d, acts, i, s, v)
    ensures !acts[i].Crash?
    ensures acts[i].Store? && acts[i].sequencer == s ==> Writes(d.holding[s], acts[i].ok)
    ensures !(acts[i].Store? && acts[i].sequencer == s) ==> IsOnTop(Step(d, acts[i]), acts, i + 1, s, v)
  {
  }

  lemma RaceGoesOn(ds: seq<Device>, acts: seq<Action>, i: nat, v: nat)
    requires IsRun(ds, acts) && i < |acts| && Race(ds[i], acts, i, v) && !IsStale(ds, acts, i)
    ensures Race(ds[i + 1], acts, i + 1, v)
  {
    AlwaysSane(ds, acts, i);
    assert Linked(ds, acts, i);
    var d, a, next := ds[i], acts[i], ds[i + 1];
    if a.Store? {
      StoreMovesOn(d, a.sequencer, a.ok);
      assert Writes(d.holding[a.sequencer], a.ok) ==> InFlight(d, acts, i, a.sequencer);
    }
    forall s | s in next.holding && s in d.holding && next.holding[s] == d.holding[s]
      ensures InFlight(next, acts, i + 1, s) ==> InFlight(d, acts, i, s)
    {
    }
    hide Stored, Writes;
    if s, t :| s != t && IsOnTop(d, acts, i, s, v) && IsOnTop(d, acts, i, t, v) {
      OthersStayOnTop(d, acts, i, s, v);
      OthersStayOnTop(d, acts, i, t, v);
    } else {
      var s :| IsOnTop(d, acts, i, s, v);
      OthersStayOnTop(d, acts, i, s, v);
    }
  }

  lemma {:induction false} RaceEndsStale(ds: seq<Device>, acts: seq<Action>, i: nat, v: nat) returns (m: nat)
    requires IsRun(ds, acts) && i <= |acts| && Race(ds[i], acts, i, v)
    ensures m < |acts| && IsStale(ds, acts, m)
    decreases |acts| - i
  {
    if i < |acts| && IsStale(ds, acts, i) {
      m := i;
    } else if i < |acts| {
      RaceGoesOn(ds, acts, i, v);
      m := RaceEndsStale(ds, acts, i + 1, v);
    }
  }

  lemma {:induction false} FirstOverlap(ds: seq<Device>, acts: seq<Action>, n: nat) returns (i: nat)
    requires |ds| == |acts| + 1 && n <= |acts| && !NoOverlap(ds, acts, n)
    ensures i < n && NoOverlap(ds, acts, i) && Overlaps(ds, acts, i)
  {
    if NoOverlap(ds, acts, n - 1) {
      i := n - 1;
    } else {
      i := FirstOverlap(ds, acts, n - 1);
    }
  }

  // At the first overlap two writes are on top of the same entry.
  lemma OverlapBegins(ds: seq<Device>, acts: seq<Action>, i: nat) returns (s: nat)
    requires IsRun(ds, acts) && i < |acts| && NoOverlap(ds, acts, i) && Overlaps(ds, acts, i)
    ensures s != acts[i].sequencer
    ensures IsOnTop(ds[i + 1], acts, i + 1, s, Next(ds[i]))
    ensures IsOnTop(ds[i + 1], acts, i + 1, acts[i].sequencer, Next(ds[i]))
    ensures Race(ds[i + 1], acts, i + 1, Next(ds[i]))
  {
    NoOverlapOrders(ds, acts, i);
    assert Linked(ds, acts, i);
    s :| InFlight(ds[i], acts, i, s);
    OthersStayOnTop(ds[i], acts, i, s, Next(ds[i]));
    assert IsOnTop(ds[i + 1], acts, i + 1, acts[i].sequencer, Next(ds[i]));
    var next, j := ds[i + 1], i + 1;
    forall t | InFlight(next, acts, j, t) ensures next.holding[t].loaded >= Next(ds[i]) {
      assert t == acts[i].sequencer || InFlight(ds[i], acts, i, t);
    }
  }

  // Reservations and reconciliations of any number of sequencers in any interleaving, with failed stores
  // and crashes: some write goes on top of an entry other than the one it loaded exactly when some write
  // loaded while another had loaded and not stored.
  lemma StaleExactlyOnOverlap(ds: seq<Device>, acts: seq<Action>)
    requires IsRun(ds, acts)
    ensures (exists m: nat :: m < |acts| && IsStale(ds, acts, m)) <==> !NoOverlap(ds, acts, |acts|)
  {
    if !NoOverlap(ds, acts, |acts|) {
      var i := FirstOverlap(ds, acts, |acts|);
      var s := OverlapBegins(ds, acts, i);
      var m := RaceEndsStale(ds, acts, i + 1, Next(ds[i]));
    } else if m: nat :| m < |acts| && IsStale(ds, acts, m) {
      NoOverlapOrders(ds, acts, m);
      assert InFlight(ds[m], acts, m, acts[m].sequencer);
    }
  }

  // ---- what is returned twice ------------------------------------------------------------------------

  ghost predicate OnlyReservations(acts: seq<Action>) {
    forall i :: 0 <= i < |acts| && acts[i].Load? ==> acts[i].accepted.None?
  }

  predicate Reserves(d: Device, acts: seq<Action>, i: nat, s: nat, v: nat) {
    IsOnTop(d, acts, i, s, v) && d.holding[s].accepted.None?
  }

  // Two reservations are on their way to return `v`, or the second one still is, or both have.
  ghost predicate Doubled(d: Device, acts: seq<Action>, i: nat, v: nat) {
    || (exists s, t :: s != t && Reserves(d, acts, i, s, v) && Reserves(d, acts, i, t, v))
    || (v in d.returned && exists s :: Reserves(d, acts, i, s, v))
    || Repeats(d.returned)
  }

  lemma ReservationGoesOn(d: Device, acts: seq<Action>, i: nat, s: nat, v: nat)
    requires i < |acts| && CanStep(d, acts[i]) && Reserves(d, acts, i, s, v)
    ensures var next := Step(d, acts[i]);
            && d.returned <= next.returned
            && (Reserves(next, acts, i + 1, s, v)
                 || (acts[i].Store? && acts[i].sequencer == s && next.returned == d.returned + [v]))
  {
    OthersStayOnTop(d, acts, i, s, v);
  }

  lemma DoubledGoesOn(d: Device, acts: seq<Action>, i: nat, v: nat)
    requires i < |acts| && CanStep(d, acts[i]) && Doubled(d, acts, i, v)
    ensures Doubled(Step(d, acts[i]), acts, i + 1, v)
  {
    var next := Step(d, acts[i]);
    assert d.returned <= next.returned;
    hide Step, Reserves, CanStep;
    if Repeats(d.returned) {
      var k, l :| 0 <= k < l < |d.returned| && d.returned[k] == d.returned[l];
      assert next.returned[k] == next.returned[l];
    } else if v in d.returned {
      var s :| Reserves(d, acts, i, s, v);
      var k :| 0 <= k < |d.returned| && d.returned[k] == v;
      assert next.returned[k] == v;
      ReservationGoesOn(d, acts, i, s, v);
      assert next.returned == d.returned + [v] ==> next.returned[|d.returned|] == v;
    } else {
      var s, t :| s != t && Reserves(d, acts, i, s, v) && Reserves(d, acts, i, t, v);
      ReservationGoesOn(d, acts, i, s, v);
      ReservationGoesOn(d, acts, i, t, v);
      assert next.returned == d.returned + [v] ==> next.returned[|d.returned|] == v;
    }
  }

  lemma {:induction false} DoubledEndsInARepeat(ds: seq<Device>, acts: seq<Action>, i: nat, v: nat)
    requires IsRun(ds, acts) && i <= |acts| && Doubled(ds[i], acts, i, v)
    ensures Repeats(ds[|acts|].returned)
    decreases |acts| - i
  {
    if i < |acts| {
      assert Linked(ds, acts, i);
      DoubledGoesOn(ds[i], acts, i, v);
      DoubledEndsInARepeat(ds, acts, i + 1, v);
    }
  }

  lemma {:induction false} OnlyReservationsHeld(ds: seq<Device>, acts: seq<Action>, i: nat)
    requires IsRun(ds, acts) && i <= |acts| && OnlyReservations(acts)
    ensures forall s <- ds[i].holding :: ds[i].holding[s].accepted.None?
  {
    if i > 0 {
      OnlyReservationsHeld(ds, acts, i - 1);
      assert Linked(ds, acts, i - 1);
    }
  }

  // Reservations of any number of sequencers in any interleaving, with failed stores and crashes: some
  // sequence is returned twice exactly when some reservation that succeeds loaded while another that
  // succeeds had loaded and not stored.
  lemma RepeatsExactlyOnOverlap(ds: seq<Device>, acts: seq<Action>)
    requires IsRun(ds, acts) && OnlyReservations(acts)
    ensures Repeats(ds[|acts|].returned) <==> !NoOverlap(ds, acts, |acts|)
  {
    if NoOverlap(ds, acts, |acts|) {
      NoOverlapOrders(ds, acts, |acts|);
    } else {
      var i := FirstOverlap(ds, acts, |acts|);
      var s := OverlapBegins(ds, acts, i);
      OnlyReservationsHeld(ds, acts, i + 1);
      var v := Next(ds[i]);
      assert Reserves(ds[i + 1], acts, i + 1, s, v) && Reserves(ds[i + 1], acts, i + 1, acts[i].sequencer, v);
      DoubledEndsInARepeat(ds, acts, i + 1, v);
    }
  }

  // With a reconciliation in it an overlap need not repeat a sequence: a reservation that loaded before
  // it and stores after it puts the entry back to where the accepted sequence is handed out again.
  lemma ReservationUndoesReconciliation(d: Device, accepted: nat)
    requires Initial(d) && Next(d) < accepted < MAXIMUM_SAFE_WIRE_INTEGER
    ensures var acts := [NewAuthority, Load(0, None), Load(1, Some(accepted)), Store(1, true), Store(0, true)];
            exists ds: seq<Device> ::
              && IsRun(ds, acts) && !NoOverlap(ds, acts, 5) && !Repeats(ds[5].returned)
              && accepted in ds[5].reconciled && Next(ds[5]) <= accepted
  {
    var acts := [NewAuthority, Load(0, None), Load(1, Some(accepted)), Store(1, true), Store(0, true)];
    var d1 := Step(d, NewAuthority);
    var d2 := Step(d1, Load(0, None));
    var d3 := Step(d2, Load(1, Some(accepted)));
    var d4 := Step(d3, Store(1, true));
    var d5 := Step(d4, Store(0, true));
    var ds := [d, d1, d2, d3, d4, d5];
    assert IsRun(ds, acts);
    assert WillWrite(acts, 4, 0, Operation(Next(d), None));
    assert WillWrite(acts, 3, 0, Operation(Next(d), None));
    assert InFlight(d2, acts, 2, 0);
    assert WillWrite(acts, 3, 1, Operation(Next(d), Some(accepted)));
    assert Overlaps(ds, acts, 2);
  }
}
