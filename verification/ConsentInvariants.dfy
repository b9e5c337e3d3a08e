/**
 What the tasks of the consent system know: facts about moments of the run, which no later step of
 anybody undoes, and the outcome of a click in terms of them.
 */
module ConsentInvariants {
  import opened Capture
  import opened Consent
  import opened ConsentGates
  import opened ConsentRuns
  import opened Fingerprint
  import opened Options
  import MediaSessions

  // The capture read the run's configurations, at the moments it says.
  ghost predicate Follows(ws: seq<World>, i: nat, since: nat, t: Taken) {
    && |t.times| <= 4
    && (forall k :: 0 <= k < |t.times| ==> since <= t.times[k] < i && t.times[k] < |ws|)
    && (forall k, m :: 0 <= k < m < |t.times| ==> t.times[k] < t.times[m])
    && (|t.times| > 0 ==> t.delivery.includeMedia == ws[t.times[0]].privacy.sources.media)
    && (|t.times| > 1 ==> t.delivery.read1 == ws[t.times[1]].privacy)
    && (|t.times| > 2 ==> t.delivery.read2 == ws[t.times[2]].privacy)
    && (|t.times| > 3 ==> t.delivery.read3 == ws[t.times[3]].privacy)
  }

  function Rank(at: ClickPoint): nat {
    match at
    case CheckingConnection => 0
    case ReadingPreview => 1
    case ReadingGate => 2
    case FirstCapture => 3
    case Validating => 4
    case Enabling => 5
    case SecondCapture => 6
    case RereadingPolicy => 7
    case Revalidating => 8
    case RollingBack => 9
  }

  // What a click that came past `n` steps has seen, in the order it saw it.
  ghost predicate Saw(ws: seq<World>, i: nat, l: ClickLog, n: nat)
    requires i <= |ws|
  {
    && (n >= 1 ==> l.checkedAt < i && ws[l.checkedAt].enabled.Some?)
    && (n >= 2 ==> l.checkedAt < l.shownAt < i && l.shown == ws[l.shownAt].preview)
    && (if n < 3 then l.first.times == []
        else l.shown.Some? && l.shownAt < l.gateAt < i && l.uiFingerprint == ws[l.gateAt].gate.currentFingerprint
             && Follows(ws, i, l.gateAt + 1, l.first))
    && (n == 3 ==> |l.first.times| < 4)
    && (n >= 4 ==> |l.first.times| == 4)
    && (n >= 5 ==>
          && l.first.times[3] < l.validatedAt < i
          && Confirms(ws[l.validatedAt].gate, l.uiFingerprint, l.shown, l.first))
    && (if n < 6 then l.second.times == []
        else l.enableWrites && Follows(ws, i, l.validatedAt + 1, l.second))
    && (n == 6 ==> |l.second.times| < 4)
    && (n >= 7 ==> |l.second.times| == 4)
    && (n >= 8 ==> l.second.times[3] < l.policyAt < i && l.fingerprintNow == Preimage(ws[l.policyAt].privacy))
    && (n >= 9 ==> l.policyAt < l.revalidatedAt < i)
  }

  // The last check, made at `revalidatedAt`.
  ghost predicate PassesLast(ws: seq<World>, l: ClickLog)
    requires l.revalidatedAt < |ws|
  {
    l.fingerprintNow == l.uiFingerprint && Confirms(ws[l.revalidatedAt].gate, l.uiFingerprint, l.shown, l.second)
  }

  // The click made of what its steps saw.
  ghost function At(ws: seq<World>, t: nat): Elsewhere
    requires t < |ws|
  {
    Elsewhere(ws[t].privacy, ws[t].preview, ws[t].gate, MediaSessions.Tracker(None, 0))
  }

  ghost predicate InRange(ws: seq<World>, l: ClickLog) {
    && l.checkedAt < |ws| && l.shownAt < |ws| && l.gateAt < |ws| && l.validatedAt < |ws| && l.policyAt < |ws|
         && l.revalidatedAt < |ws|
    && (l.first.times != [] ==> l.first.times[0] < |ws|)
    && (l.second.times != [] ==> l.second.times[0] < |ws|)
  }

  ghost function ClickOf(ws: seq<World>, l: ClickLog): Click
    requires InRange(ws, l)
  {
    Click(l.uiFingerprint, At(ws, l.shownAt), At(ws, l.gateAt),
          At(ws, if l.first.times == [] then 0 else l.first.times[0]), l.first.delivery, At(ws, l.validatedAt),
            l.enableWrites,
          At(ws, if l.second.times == [] then 0 else l.second.times[0]), l.second.delivery,
          At(ws, l.policyAt), At(ws, l.revalidatedAt), l.rollbackWrites)
  }

  ghost function Outcome(ws: seq<World>, l: ClickLog): Result<(), ServiceError>
    requires InRange(ws, l)
  {
    ConfirmOutcome(ws[l.checkedAt].enabled, ClickOf(ws, l)).0
  }

  // What a task's data say about the run so far.
  ghost predicate Facts(ws: seq<World>, i: nat, t: Task)
    requires i <= |ws|
  {
    match t
    case Refresh(taken, at, rejected) =>
      && Follows(ws, i, 0, taken) && (if at.Taking? then |taken.times| < 4 else |taken.times| == 4)
      && (at.Storing? ==> at.preview.projection == Seen(taken))
      && (rejected.Some? ==> InRange(ws, rejected.value) && Outcome(ws, rejected.value) == Err(PreviewOutOfDate))
    case Check(at) => at.Comparing? ==> at.readAt < i && at.fingerprint == Preimage(ws[at.readAt].privacy)
    case Confirm(l, at) =>
      && InRange(ws, l) && Saw(ws, i, l, Rank(at))
      && (at.RollingBack? ==> !PassesLast(ws, l))
    case Returned(result, l) =>
      && InRange(ws, l) && result == Outcome(ws, l)
      && (result.Ok? ==> Saw(ws, i, l, 9) && PassesLast(ws, l))
  }

  lemma FollowsNext(ws: seq<World>, i: nat, since: nat, t: Taken)
    requires i < |ws| && ws[i].now == i && since <= i && Follows(ws, i, since, t) && |t.times| < 4
    ensures Follows(ws, i + 1, since, ReadNext(t, ws[i]))
    ensures |ReadNext(t, ws[i]).times| == |t.times| + 1 && ReadNext(t, ws[i]).times[0] < |ws|
  {
  }

  lemma FollowsOn(ws: seq<World>, i: nat, since: nat, t: Taken)
    requires Follows(ws, i, since, t)
    ensures Follows(ws, i + 1, since, t)
  {
  }

  lemma SawOn(ws: seq<World>, i: nat, l: ClickLog, n: nat)
    requires i < |ws| && Saw(ws, i, l, n)
    ensures Saw(ws, i + 1, l, n)
  {
    hide Confirms, Preimage;
  }

  // ---- what the result says -------------------------------------------------------------------------

  // The first three checks of a click are those of the click made of what it saw.
  lemma FirstOfClick(ws: seq<World>, l: ClickLog)
    requires InRange(ws, l) && l.shown == ws[l.shownAt].preview
    requires l.first.times != [] ==> l.first.delivery.includeMedia == ws[l.first.times[0]].privacy.sources.media
    ensures l.shown.None? || l.uiFingerprint != ws[l.gateAt].gate.currentFingerprint ==> !PassesFirst(ClickOf(ws, l))
    ensures l.shown.Some? && l.uiFingerprint == ws[l.gateAt].gate.currentFingerprint && l.first.times != [] ==>
              (PassesFirst(ClickOf(ws, l)) <==> Confirms(ws[l.validatedAt].gate, l.uiFingerprint, l.shown, l.first))
  {
    hide Shown, Preimage, Validates;
  }

  lemma SecondOfClick(ws: seq<World>, l: ClickLog)
    requires InRange(ws, l) && l.shown == ws[l.shownAt].preview && l.shown.Some?
    requires l.second.times != [] && l.second.delivery.includeMedia == ws[l.second.times[0]].privacy.sources.media
    requires l.fingerprintNow == Preimage(ws[l.policyAt].privacy)
    ensures PassesSecond(ClickOf(ws, l)) <==> PassesLast(ws, l)
  {
    hide Shown, Preimage, Validates;
  }

  lemma EarlyRejection(ws: seq<World>, l: ClickLog)
    requires InRange(ws, l) && l.shown == ws[l.shownAt].preview && ws[l.checkedAt].enabled.Some?
    requires l.first.times != [] ==> l.first.delivery.includeMedia == ws[l.first.times[0]].privacy.sources.media
    requires || l.shown.None? || l.uiFingerprint != ws[l.gateAt].gate.currentFingerprint
             || (l.first.times != [] && !Confirms(ws[l.validatedAt].gate, l.uiFingerprint, l.shown, l.first))
    ensures Outcome(ws, l) == Err(PreviewOutOfDate)
  {
    FirstOfClick(ws, l);
    hide PassesFirst, Confirms, Preimage;
  }

  // The result of a click that was confirmed at first.
  lemma LateOutcome(ws: seq<World>, l: ClickLog)
    requires InRange(ws, l) && ws[l.checkedAt].enabled.Some? && l.shown.Some? && l.shown == ws[l.shownAt].preview
    requires l.uiFingerprint == ws[l.gateAt].gate.currentFingerprint
    requires l.first.times != [] && l.first.delivery.includeMedia == ws[l.first.times[0]].privacy.sources.media
    requires Confirms(ws[l.validatedAt].gate, l.uiFingerprint, l.shown, l.first)
    requires l.enableWrites ==>
              l.second.times != [] && l.second.delivery.includeMedia == ws[l.second.times[0]].privacy.sources.media
    requires l.enableWrites ==> l.fingerprintNow == Preimage(ws[l.policyAt].privacy)
    ensures Outcome(ws, l) == if !l.enableWrites then Err(Internal)
                              else if PassesLast(ws, l) then Ok(())
                              else if !l.rollbackWrites then Err(Internal)
                              else Err(PreviewOutOfDate)
  {
    FirstOfClick(ws, l);
    if l.enableWrites {
      SecondOfClick(ws, l);
    }
    hide PassesFirst, PassesSecond, PassesLast, Confirms, Preimage;
  }

  // ---- the facts are kept -----------------------------------------------------------------------------

  lemma ClickFacts(ws: seq<World>, i: nat, l: ClickLog, at: ClickPoint, writes: bool, sensors: Delivery)
    requires i < |ws| && ws[i].now == i && Facts(ws, i, Confirm(l, at))
    ensures Facts(ws, i + 1, NextClick(ws[i], l, at, writes, sensors))
  {
    hide Facts, NextClick;
    match at
    case CheckingConnection => PairedFacts(ws, i, l, writes, sensors);
    case ReadingPreview => PairedFacts(ws, i, l, writes, sensors);
    case ReadingGate => GateFacts(ws, i, l, writes, sensors);
    case FirstCapture => FirstCaptureFacts(ws, i, l, writes, sensors);
    case Validating => ValidationFacts(ws, i, l, writes, sensors);
    case Enabling => EnablingFacts(ws, i, l, writes, sensors);
    case SecondCapture => SecondCaptureFacts(ws, i, l, writes, sensors);
    case RereadingPolicy => PolicyFacts(ws, i, l, writes, sensors);
    case Revalidating => RevalidationFacts(ws, i, l, writes, sensors);
    case RollingBack => RollbackFacts(ws, i, l, writes, sensors);
  }

  lemma PairedFacts(ws: seq<World>, i: nat, l: ClickLog, writes: bool, sensors: Delivery)
    requires i < |ws| && ws[i].now == i
    ensures Facts(ws, i, Confirm(l, CheckingConnection)) ==>
              Facts(ws, i + 1, NextClick(ws[i], l, CheckingConnection, writes, sensors))
    ensures Facts(ws, i, Confirm(l, ReadingPreview)) ==>
              Facts(ws, i + 1, NextClick(ws[i], l, ReadingPreview, writes, sensors))
  {
    if InRange(ws, l) && ws[i].enabled.None? {
      UnpairedOutcome(ws, i, l);
    }
    hide Confirms, Preimage, ConfirmOutcome, Shown, ClickOf, PassesLast, ReadNext;
  }

  lemma GateFacts(ws: seq<World>, i: nat, l: ClickLog, writes: bool, sensors: Delivery)
    requires i < |ws| && ws[i].now == i && Facts(ws, i, Confirm(l, ReadingGate))
    ensures Facts(ws, i + 1, NextClick(ws[i], l, ReadingGate, writes, sensors))
  {
    GateOutcome(ws, i, l, sensors);
    hide Confirms, Preimage, ConfirmOutcome, Shown, ClickOf, PassesLast, ReadNext;
  }

  lemma FirstCaptureFacts(ws: seq<World>, i: nat, l: ClickLog, writes: bool, sensors: Delivery)
    requires i < |ws| && ws[i].now == i && Facts(ws, i, Confirm(l, FirstCapture))
    ensures Facts(ws, i + 1, NextClick(ws[i], l, FirstCapture, writes, sensors))
  {
    hide Confirms, Preimage, ConfirmOutcome, Shown, ClickOf, PassesLast, ReadNext, Follows;
    FollowsNext(ws, i, l.gateAt + 1, l.first);
  }

  lemma SecondCaptureFacts(ws: seq<World>, i: nat, l: ClickLog, writes: bool, sensors: Delivery)
    requires i < |ws| && ws[i].now == i && Facts(ws, i, Confirm(l, SecondCapture))
    ensures Facts(ws, i + 1, NextClick(ws[i], l, SecondCapture, writes, sensors))
  {
    hide Confirms, Preimage, ConfirmOutcome, Shown, ClickOf, PassesLast, ReadNext, Follows;
    FollowsOn(ws, i, l.gateAt + 1, l.first);
    FollowsNext(ws, i, l.validatedAt + 1, l.second);
  }

  lemma ValidationFacts(ws: seq<World>, i: nat, l: ClickLog, writes: bool, sensors: Delivery)
    requires i < |ws| && ws[i].now == i && Facts(ws, i, Confirm(l, Validating))
    ensures Facts(ws, i + 1, NextClick(ws[i], l, Validating, writes, sensors))
  {
    ValidationOutcome(ws, i, l);
    hide Confirms, Preimage, ConfirmOutcome, Shown, ClickOf, PassesLast, ReadNext;
  }

  lemma EnablingFacts(ws: seq<World>, i: nat, l: ClickLog, writes: bool, sensors: Delivery)
    requires i < |ws| && ws[i].now == i && Facts(ws, i, Confirm(l, Enabling))
    ensures Facts(ws, i + 1, NextClick(ws[i], l, Enabling, writes, sensors))
  {
    UnwrittenOutcome(ws, i, l, sensors);
    hide Confirms, Preimage, ConfirmOutcome, Shown, ClickOf, PassesLast, ReadNext;
  }

  lemma PolicyFacts(ws: seq<World>, i: nat, l: ClickLog, writes: bool, sensors: Delivery)
    requires i < |ws| && ws[i].now == i && Facts(ws, i, Confirm(l, RereadingPolicy))
    ensures Facts(ws, i + 1, NextClick(ws[i], l, RereadingPolicy, writes, sensors))
  {
    SawOn(ws, i, l, 7);
    hide Follows, Confirms, Preimage, ConfirmOutcome, Shown, ClickOf, PassesLast, ReadNext;
  }

  lemma SawLast(ws: seq<World>, i: nat, l: ClickLog)
    requires i < |ws| && Saw(ws, i, l, 8)
    ensures Saw(ws, i + 1, l.(revalidatedAt := i), 9)
  {
    hide Confirms, Preimage;
  }

  lemma RevalidationFacts(ws: seq<World>, i: nat, l: ClickLog, writes: bool, sensors: Delivery)
    requires i < |ws| && ws[i].now == i && Facts(ws, i, Confirm(l, Revalidating))
    ensures Facts(ws, i + 1, NextClick(ws[i], l, Revalidating, writes, sensors))
  {
    hide Saw, Follows, Confirms, Preimage, ConfirmOutcome, Shown, ClickOf, ReadNext;
    var next := l.(revalidatedAt := i);
    SawLast(ws, i, l);
    if PassesLast(ws, next) {
      AcceptedOutcome(ws, i + 1, next);
    }
  }

  lemma RollbackFacts(ws: seq<World>, i: nat, l: ClickLog, writes: bool, sensors: Delivery)
    requires i < |ws| && ws[i].now == i && Facts(ws, i, Confirm(l, RollingBack))
    ensures Facts(ws, i + 1, NextClick(ws[i], l, RollingBack, writes, sensors))
  {
    hide Saw, Confirms, Preimage, ConfirmOutcome, Shown, ClickOf, PassesLast, ReadNext;
    RollbackOutcome(ws, i, l, writes);
  }

  lemma UnpairedOutcome(ws: seq<World>, i: nat, l: ClickLog)
    requires i < |ws| && InRange(ws, l) && ws[i].enabled.None?
    ensures Outcome(ws, l.(checkedAt := i)) == Err(NotPaired)
  {
    hide PassesFirst, PassesSecond;
  }

  lemma GateOutcome(ws: seq<World>, i: nat, l: ClickLog, sensors: Delivery)
    requires i < |ws| && InRange(ws, l) && Saw(ws, i, l, 2)
    ensures l.shown.None? || l.uiFingerprint != ws[i].gate.currentFingerprint ==>
              Outcome(ws, l.(gateAt := i, first := Taken(sensors, []))) == Err(PreviewOutOfDate)
  {
    hide PassesLast, ConfirmOutcome, ClickOf, Preimage, Shown, Validates;
    if l.shown.None? || l.uiFingerprint != ws[i].gate.currentFingerprint {
      EarlyRejection(ws, l.(gateAt := i, first := Taken(sensors, [])));
    }
  }

  lemma ValidationOutcome(ws: seq<World>, i: nat, l: ClickLog)
    requires i < |ws| && InRange(ws, l) && Saw(ws, i, l, 4)
    ensures !Confirms(ws[i].gate, l.uiFingerprint, l.shown, l.first) ==>
              Outcome(ws, l.(validatedAt := i)) == Err(PreviewOutOfDate)
  {
    hide PassesLast, ConfirmOutcome, ClickOf, Preimage, Shown, Validates;
    if !Confirms(ws[i].gate, l.uiFingerprint, l.shown, l.first) {
      EarlyRejection(ws, l.(validatedAt := i));
    }
  }

  lemma UnwrittenOutcome(ws: seq<World>, i: nat, l: ClickLog, sensors: Delivery)
    requires i < |ws| && InRange(ws, l) && Saw(ws, i, l, 5)
    ensures Outcome(ws, l.(enableWrites := false, second := Taken(sensors, []))) == Err(Internal)
  {
    hide PassesLast, ConfirmOutcome, ClickOf, Preimage, Shown, Validates;
    LateOutcome(ws, l.(enableWrites := false, second := Taken(sensors, [])));
  }

  lemma AcceptedOutcome(ws: seq<World>, i: nat, l: ClickLog)
    requires i <= |ws| && InRange(ws, l) && Saw(ws, i, l, 9) && PassesLast(ws, l)
    ensures Outcome(ws, l) == Ok(())
  {
    hide ConfirmOutcome, ClickOf, Preimage, Shown, Confirms;
    LateOutcome(ws, l);
  }

  lemma RollbackOutcome(ws: seq<World>, i: nat, l: ClickLog, writes: bool)
    requires i < |ws| && InRange(ws, l) && Saw(ws, i, l, 9) && !PassesLast(ws, l)
    ensures Outcome(ws, l.(rollbackWrites := writes)) == Err(if writes then PreviewOutOfDate else Internal)
  {
    hide ConfirmOutcome, ClickOf, Preimage, Shown, Confirms;
    LateOutcome(ws, l.(rollbackWrites := writes));
  }

  lemma RefreshFacts(ws: seq<World>, i: nat, t: Task)
    requires i < |ws| && ws[i].now == i && t.Refresh? && !IsDone(t) && Facts(ws, i, t)
    ensures Facts(ws, i + 1, NextRefresh(ws[i], t))
  {
    hide Confirms, Preimage, ConfirmOutcome, Shown, ClickOf, PassesLast, ReadNext;
    if t.refreshPoint.Taking? {
      FollowsNext(ws, i, 0, t.taken);
    }
  }

  lemma IdleFacts(ws: seq<World>, i: nat, t: Task)
    requires i < |ws| && Facts(ws, i, t)
    ensures Facts(ws, i + 1, t)
  {
    hide Confirms, Preimage, ConfirmOutcome, Shown, ClickOf, PassesLast;
  }

  lemma FreshFacts(ws: seq<World>, i: nat, uiFingerprint: string, sensors: Delivery)
    requires i < |ws|
    ensures Facts(ws, i + 1, Confirm(FreshLog(uiFingerprint, sensors), CheckingConnection))
    ensures Facts(ws, i + 1, Refresh(Taken(sensors, []), Taking, None))
  {
    hide Confirms, Preimage, ConfirmOutcome, Shown, ClickOf, PassesLast;
  }

  lemma CheckFacts(ws: seq<World>, i: nat, at: CheckPoint)
    requires i < |ws| && ws[i].now == i
    ensures Facts(ws, i + 1, Check(NextCheck(ws[i], at))) && Facts(ws, i + 1, Check(ReadingPolicy))
  {
    hide Preimage;
  }

  lemma {:induction false} NowIsTheStep(ws: seq<World>, acts: seq<Action>, i: nat)
    requires IsRun(ws, acts) && i <= |acts|
    ensures ws[i].now == i
  {
    if i > 0 {
      NowIsTheStep(ws, acts, i - 1);
      assert Linked(ws, acts, i - 1);
      hide After;
    }
  }

  // Whatever the tasks do between each other, what each of them carries is what the run had at the
  // moments it says, in that order; and a click that returned, returned its outcome.
  lemma {:induction false} FactsHold(ws: seq<World>, acts: seq<Action>, i: nat, id: TaskId)
    requires IsRun(ws, acts) && i <= |acts| && id in ws[i].tasks
    ensures Facts(ws, i, ws[i].tasks[id])
  {
    hide Facts, NextTask, Shared;
    if i > 0 {
      assert Linked(ws, acts, i - 1);
      NowIsTheStep(ws, acts, i - 1);
      var w, a := ws[i - 1], acts[i - 1];
      if id in w.tasks {
        FactsHold(ws, acts, i - 1, id);
        IdleFacts(ws, i - 1, w.tasks[id]);
      }
      match a
      case BeginRefresh(_, sensors) => FreshFacts(ws, i - 1, "", sensors);
      case EditPolicy(_, _) => CheckFacts(ws, i - 1, ReadingPolicy);
      case BeginClick(_, ui, sensors) => FreshFacts(ws, i - 1, ui, sensors);
      case Advance(stepping, writes, sensors) =>
        if id == stepping {
          AdvanceFacts(ws, i - 1, w.tasks[id], writes, sensors);
        }
      case WriteConnection(_) =>
      case ClearGate =>
      case DropPreview =>
    }
  }

  lemma AdvanceFacts(ws: seq<World>, i: nat, t: Task, writes: bool, sensors: Delivery)
    requires i < |ws| && ws[i].now == i && !IsDone(t) && Facts(ws, i, t)
    ensures Facts(ws, i + 1, NextTask(ws[i], t, writes, sensors))
  {
    hide Facts, NextClick, NextRefresh, NextCheck;
    match t
    case Refresh(_, _, _) => RefreshFacts(ws, i, t);
    case Check(at) => CheckFacts(ws, i, at);
    case Confirm(l, at) => ClickFacts(ws, i, l, at, writes, sensors);
  }
}
