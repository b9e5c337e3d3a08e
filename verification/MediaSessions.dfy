/** Media session identity: one remembered identity, a fresh id on every semantic change or reset. */
module MediaSessions {
  import opened Options
  import opened Model

  datatype MediaSemanticIdentity = Identity(
    kind: MediaKind,
    title: Option<string>,
    artist: Option<string>,
    album: Option<string>,
    playerDisplayName: Option<string>,
    durationSeconds: Option<real>)

  // Random ids are drawn from a counter: `nextId` has never been issued.
  datatype Tracker = Tracker(current: Option<(MediaSemanticIdentity, nat)>, nextId: nat)

  function Observe(t: Tracker, identity: MediaSemanticIdentity): (r: (Tracker, nat))
  {
    if t.current.Some? && t.current.value.0 == identity then
      (t, t.current.value.1)
    else
      (Tracker(Some((identity, t.nextId)), t.nextId + 1), t.nextId)
  }

  function Reset(t: Tracker): Tracker {
    t.(current := None)
  }

  class MediaSessionTracker {
    var current: Option<(MediaSemanticIdentity, nat)>
    var nextId: nat

    ghost function State(): Tracker
      reads this
    {
      Tracker(current, nextId)
    }

    constructor ()
      ensures State() == Tracker(None, 0)
    {
      current := None;
      nextId := 0;
    }

    method SessionId(identity: MediaSemanticIdentity) returns (sessionId: nat)
      modifies this
      ensures (State(), sessionId) == Observe(old(State()), identity)
    {
      if current.Some? && current.value.0 == identity {
        return current.value.1;
      }
      sessionId := nextId;
      nextId := nextId + 1;
      current := Some((identity, sessionId));
    }

    method ResetContinuity()
      modifies this
      ensures State() == Reset(old(State()))
    {
      current := None;
    }
  }

  // One use of the tracker: a capture that shares media, or a continuity break.
  datatype Use = Sees(identity: MediaSemanticIdentity) | Breaks

  function Answer(t: Tracker, u: Use): (Tracker, Option<nat>) {
    match u
    case Sees(identity) => var (t', id) := Observe(t, identity); (t', Some(id))
    case Breaks => (Reset(t), None)
  }

  function After(t: Tracker, uses: seq<Use>): Tracker {
    if uses == [] then t else Answer(After(t, uses[..|uses| - 1]), uses[|uses| - 1]).0
  }

  // The id that the last of `uses` is answered with.
  function LastId(t: Tracker, uses: seq<Use>): Option<nat>
    requires uses != []
  {
    Answer(After(t, uses[..|uses| - 1]), uses[|uses| - 1]).1
  }

  ghost predicate Fresh(t: Tracker) {
    t.current.Some? ==> t.current.value.1 < t.nextId
  }

  // Uses i..j are one unbroken session: every one of them sees the same identity.
  ghost predicate SameSession(uses: seq<Use>, i: nat, j: nat)
    requires i <= j < |uses|
  {
    forall k :: i <= k <= j ==> uses[k].Sees? && uses[k] == uses[i]
  }

  lemma {:induction false} AfterKeepsFresh(t: Tracker, uses: seq<Use>)
    requires Fresh(t)
    ensures Fresh(After(t, uses)) && t.nextId <= After(t, uses).nextId
  {
    if uses != [] {
      AfterKeepsFresh(t, uses[..|uses| - 1]);
    }
  }

  // What the tracker remembers after uses[..n] (n > i) answers whether id `LastId(uses[..i+1])` is still current.
  lemma {:induction false} Remembered(t: Tracker, uses: seq<Use>, i: nat)
    requires Fresh(t) && i < |uses| && uses[i].Sees?
    ensures var now := After(t, uses).current;
            var id := LastId(t, uses[..i + 1]).value;
            && id < After(t, uses).nextId
            && (SameSession(uses, i, |uses| - 1) <==> now.Some? && now.value.1 == id)
            && (SameSession(uses, i, |uses| - 1) ==> now.value.0 == uses[i].identity)
  {
    var n := |uses|;
    AfterKeepsFresh(t, uses[..n - 1]);
    if i == n - 1 {
      assert uses[..i + 1] == uses;
    } else {
      var before := uses[..n - 1];
      assert before[..i + 1] == uses[..i + 1];
      Remembered(t, before, i);
      assert SameSession(uses, i, n - 1) <==> SameSession(before, i, n - 2) && uses[n - 1] == uses[i];
    }
  }

  // Two captures of any history of uses report the same session id exactly when nothing but that
  // one identity was seen from the first to the second: no other track, no break.
  lemma {:induction false} SameIdIffSameSession(t: Tracker, uses: seq<Use>, i: nat, j: nat)
    requires Fresh(t) && i <= j < |uses| && uses[i].Sees? && uses[j].Sees?
    ensures LastId(t, uses[..i + 1]) == LastId(t, uses[..j + 1]) <==> SameSession(uses, i, j)
  {
    var upto := uses[..j + 1];
    assert upto[..i + 1] == uses[..i + 1];
    Remembered(t, upto, i);
    Remembered(t, upto, j);
    assert SameSession(upto, j, |upto| - 1);
    assert SameSession(upto, i, j) <==> SameSession(uses, i, j);
  }
}
