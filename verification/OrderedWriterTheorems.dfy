/** What holds of every run of the ordered writer, whatever the network, the store and crashes do. */
module OrderedWriterTheorems {
  import opened Model
  import opened OrderedWriter
  import opened OrderedWriterInvariants

  ghost predicate IsRun(ws: seq<Writer>, acts: seq<Action>) {
    && |ws| == |acts| + 1
    && (exists floor, stored, lastApplied :: ws[0] == Initial(floor, stored, lastApplied))
    && forall i :: 0 <= i < |acts| ==> Linked(ws, acts, i)
  }

  ghost predicate Linked(ws: seq<Writer>, acts: seq<Action>, i: nat)
    requires i < |acts| && |ws| == |acts| + 1
  {
    CanStep(ws[i], acts[i]) && ws[i + 1] == Step(ws[i], acts[i])
  }

  lemma {:induction false} Reachable(ws: seq<Writer>, acts: seq<Action>, i: nat)
    requires IsRun(ws, acts) && i <= |acts|
    ensures Inv(ws[i])
  {
    if i > 0 {
      Reachable(ws, acts, i - 1);
      assert Linked(ws, acts, i - 1);
      StepKept(ws[i - 1], acts[i - 1]);
    }
  }

  // ---- the sequencer ------------------------------------------------------------------------------

  // Step `a` returns sequence `v` from a reservation.
  predicate Returns(w: Writer, a: Action, v: nat) {
    a.ReturnSequence? && CanStep(w, a) && w.slot[0].at.current == v
  }

  // Step `a` completes a reconciliation of `accepted`.
  predicate Reconciles(w: Writer, a: Action, accepted: nat) {
    && CanStep(w, a) && w.slot != [] && w.slot[0].kind == Reconciliation(accepted)
    && ((a.LoadStored? && accepted >= MAXIMUM_SAFE_WIRE_INTEGER)
        || (a.PersistNext? && (accepted < w.slot[0].at.current || a.ok)))
  }

  // How one step moves what the theorems speak of.
  ghost predicate Follows(w: Writer, a: Action, next: Writer)
    requires CanStep(w, a)
  {
    && next.floor == w.floor
    && next.returned == (if a.ReturnSequence? then w.returned + [w.slot[0].at.current] else w.returned)
    && w.reconciled <= next.reconciled
    && (forall accepted: nat :: Reconciles(w, a, accepted) ==> accepted in next.reconciled)
    && (next.stored != w.stored ==>
          next.stored.Some? && Next(w) < next.stored.value <= MAXIMUM_SAFE_WIRE_INTEGER
            && next.stored.value == Next(next))
    && (a.Call? || next.mutations.Keys == w.mutations.Keys)
  }

  lemma Following(ws: seq<Writer>, acts: seq<Action>, i: nat)
    requires IsRun(ws, acts) && i < |acts|
    ensures CanStep(ws[i], acts[i]) && Follows(ws[i], acts[i], ws[i + 1])
  {
    Reachable(ws, acts, i);
    assert Linked(ws, acts, i);
    StepFollows(ws[i], acts[i]);
  }

  lemma SlotStepFollows(w: Writer, a: Action)
    requires SlotOk(w) && CanStep(w, a) && (a.LoadStored? || a.PersistNext?)
    ensures Follows(w, a, Step(w, a))
  {
    hide OperationOk;
  }

  lemma StepFollows(w: Writer, a: Action)
    requires SlotOk(w) && CanStep(w, a)
    ensures Follows(w, a, Step(w, a))
  {
    hide SlotOk, Load, Persist;
    if a.LoadStored? || a.PersistNext? {
      SlotStepFollows(w, a);
    }
  }

  lemma {:induction false} HistoryGrows(ws: seq<Writer>, acts: seq<Action>, i: nat, j: nat)
    requires IsRun(ws, acts) && i <= j <= |acts|
    ensures ws[i].returned <= ws[j].returned && ws[i].reconciled <= ws[j].reconciled && ws[i].floor == ws[j].floor
  {
    if i < j {
      HistoryGrows(ws, acts, i, j - 1);
      Following(ws, acts, j - 1);
    }
  }

  // Crashes are steps of the run, so this spans restarts: a sequence handed out before a crash is
  // never handed out after it.
  // A returned sequence is at least the pairing floor and at most 2^53 - 2, exceeds every sequence
  // returned before it, and every accepted sequence reconciled before it that is a usable one.
  lemma ReturnedSequences(ws: seq<Writer>, acts: seq<Action>, j: nat, v: nat)
    requires IsRun(ws, acts) && j < |acts| && Returns(ws[j], acts[j], v)
    ensures ws[0].floor <= v < MAXIMUM_SAFE_WIRE_INTEGER
    ensures forall i: nat, u: nat :: i < j && Returns(ws[i], acts[i], u) ==> u < v
    ensures forall i: nat, accepted: nat ::
              i < j && Reconciles(ws[i], acts[i], accepted) && accepted < MAXIMUM_SAFE_WIRE_INTEGER ==> accepted < v
  {
    Reachable(ws, acts, j);
    HistoryGrows(ws, acts, 0, j);
    forall i: nat, u: nat | i < j && Returns(ws[i], acts[i], u) ensures u < v {
      Following(ws, acts, i);
      HistoryGrows(ws, acts, i + 1, j);
      assert ws[i + 1].returned[|ws[i].returned|] == u;
      assert ws[j].returned[|ws[i].returned|] == u;
    }
    forall i: nat, accepted: nat | i < j && Reconciles(ws[i], acts[i], accepted) && accepted < MAXIMUM_SAFE_WIRE_INTEGER
      ensures accepted < v
    {
      Following(ws, acts, i);
      HistoryGrows(ws, acts, i + 1, j);
      assert accepted in ws[j].reconciled;
    }
  }

  // Every write to the store moves the next sequence forward and stays on the wire's range.
  lemma StoreOnlyMovesForward(ws: seq<Writer>, acts: seq<Action>, i: nat)
    requires IsRun(ws, acts) && i < |acts|
    ensures ws[i + 1].stored != ws[i].stored ==>
              ws[i + 1].stored.Some? && Next(ws[i]) < ws[i + 1].stored.value <= MAXIMUM_SAFE_WIRE_INTEGER
    ensures Next(ws[i]) <= Next(ws[i + 1])
  {
    Following(ws, acts, i);
  }

  // ---- attempts and sequences -----------------------------------------------------------------------

  // Each mutation is put on the wire at most twice, both times as the same request; and two requests
  // with one sequence belong to one mutation, across clients, errors and crashes.
  lemma AttemptsAreIdempotent(ws: seq<Writer>, acts: seq<Action>, k: nat, i: nat, j: nat)
    requires IsRun(ws, acts) && k <= |acts| && i < |ws[k].transmissions| && j < |ws[k].transmissions|
    ensures var ts := ws[k].transmissions;
            && Count(ts, ts[i].mutation) <= 2
            && (ts[i].mutation == ts[j].mutation <==> ts[i] == ts[j])
            && (ts[i].sequence == ts[j].sequence ==> ts[i].mutation == ts[j].mutation)
  {
    Reachable(ws, acts, k);
    var w := ws[k];
    assert IsOf(w, w.transmissions[i]) && IsOf(w, w.transmissions[j]);
    assert MutationOk(w, w.transmissions[i].mutation, w.mutations[w.transmissions[i].mutation]);
  }

  // ---- the server -------------------------------------------------------------------------------------

  // However requests are lost, delayed and repeated, the server applies each mutation at most once,
  // and the mutations of one client in the order of their calls.
  lemma AppliedAtMostOnceInOrder(ws: seq<Writer>, acts: seq<Action>, k: nat, i: nat, j: nat)
    requires IsRun(ws, acts) && k <= |acts| && i < j < |ws[k].server.applied|
    ensures var applied := ws[k].server.applied;
            && applied[i].mutation in ws[k].mutations && applied[j].mutation in ws[k].mutations
            && applied[i].mutation != applied[j].mutation
            && applied[i].sequence < applied[j].sequence
            && (ws[k].mutations[applied[i].mutation].client == ws[k].mutations[applied[j].mutation].client ==>
                  applied[i].mutation < applied[j].mutation)
  {
    Reachable(ws, acts, k);
    var w, r, s := ws[k], ws[k].server.applied[i], ws[k].server.applied[j];
    assert IsOf(w, r) && IsOf(w, s);
  }
}
