/** The consent gate: which projection was confirmed under which policy. */
module ConsentGates {
  import opened Model
  import opened Options

  datatype PreviewPlayback = PreviewPlayback(state: PlaybackState, durationSeconds: Option<real>, rate: real)

  datatype PreviewMedia = PreviewMedia(
    kind: MediaKind, title: Option<string>, artist: Option<string>, album: Option<string>,
    playerDisplayName: Option<string>, playback: PreviewPlayback)

  // What consent binds: not the times, not the position, not the session id.
  datatype PreviewProjection = PreviewProjection(application: Option<SanitizedApplication>, media: Option<PreviewMedia>)

  function ProjectionOf(s: SanitizedSnapshot): PreviewProjection {
    PreviewProjection(
      s.application,
      if s.media.None? then None
      else
        var m := s.media.value.media;
        Some(PreviewMedia(m.kind, m.title, m.artist, m.album, m.playerDisplayName,
                          PreviewPlayback(m.playback.state, m.playback.durationSeconds, m.playback.rate))))
  }

  // Two snapshots project to the same exactly when they differ in continuity alone: when they were
  // taken, how far playback had got, and which session they belong to.
  lemma SameProjectionExactly(s: SanitizedSnapshot, r: SanitizedSnapshot)
    ensures ProjectionOf(s) == ProjectionOf(r) <==>
              && s.application == r.application
              && (s.media.Some? <==> r.media.Some?)
              && (s.media.Some? ==>
                    var m, n := s.media.value.media, r.media.value.media;
                    m == n.(playback := n.playback.(
                              positionSeconds := m.playback.positionSeconds, sampledAt := m.playback.sampledAt)))
  {
  }

  datatype Confirmation = Confirmation(policyFingerprint: string, projection: PreviewProjection)

  datatype Gate = Gate(currentFingerprint: string, confirmation: Option<Confirmation>)

  datatype GateUse = Recorded(projection: PreviewProjection) | PolicyChanged(fingerprint: string) | Cleared

  function GateStep(g: Gate, u: GateUse): Gate {
    match u
    case Recorded(projection) => g.(confirmation := Some(Confirmation(g.currentFingerprint, projection)))
    case PolicyChanged(fingerprint) => if fingerprint == g.currentFingerprint then g else Gate(fingerprint, None)
    case Cleared => g.(confirmation := None)
  }

  predicate Validates(g: Gate, candidate: Confirmation, current: PreviewProjection) {
    && g.confirmation == Some(candidate)
    && candidate.policyFingerprint == g.currentFingerprint
    && candidate.projection == current
  }

  class ConsentGate {
    var currentFingerprint: string
    var confirmation: Option<Confirmation>

    ghost function State(): Gate
      reads this
    {
      Gate(currentFingerprint, confirmation)
    }

    constructor (initialFingerprint: string)
      ensures State() == Gate(initialFingerprint, None)
    {
      currentFingerprint := initialFingerprint;
      confirmation := None;
    }

    method PolicyDidChange(fingerprint: string)
      modifies this
      ensures State() == GateStep(old(State()), PolicyChanged(fingerprint))
    {
      if fingerprint == currentFingerprint {
        return;
      }
      currentFingerprint := fingerprint;
      confirmation := None;
    }

    method Record(projection: PreviewProjection) returns (recorded: Confirmation)
      modifies this
      ensures State() == GateStep(old(State()), Recorded(projection))
      ensures recorded == Confirmation(old(currentFingerprint), projection)
    {
      recorded := Confirmation(currentFingerprint, projection);
      confirmation := Some(recorded);
    }

    method Clear()
      modifies this
      ensures State() == GateStep(old(State()), Cleared)
    {
      confirmation := None;
    }

    method IsValid(candidate: Confirmation, current: PreviewProjection) returns (valid: bool)
      ensures valid == Validates(State(), candidate, current)
    {
      if confirmation.None? {
        return false;
      }
      valid := candidate == confirmation.value && candidate.policyFingerprint == currentFingerprint
        && candidate.projection == current;
    }
  }

  // ---- histories of the gate ----------------------------------------------------------------------

  function GateAfter(g: Gate, uses: seq<GateUse>): Gate {
    if uses == [] then g else GateStep(GateAfter(g, uses[..|uses| - 1]), uses[|uses| - 1])
  }

  // From the i-th use on nothing undid it: no effective policy change, nothing cleared, nothing else recorded.
  ghost predicate StandsSince(g: Gate, uses: seq<GateUse>, i: nat)
    requires i < |uses|
  {
    forall k :: i < k < |uses| ==>
      uses[k] == PolicyChanged(GateAfter(g, uses[..i]).currentFingerprint)
  }

  // The record that a confirmation stems from.
  ghost predicate StemsFrom(g: Gate, uses: seq<GateUse>, i: nat, c: Confirmation) {
    && i < |uses| && uses[i] == Recorded(c.projection)
    && GateAfter(g, uses[..i]).currentFingerprint == c.policyFingerprint
    && StandsSince(g, uses, i)
  }

  // The gate holds a confirmation exactly when it was recorded under that policy and has stood since.
  lemma {:induction false} ConfirmationStands(g: Gate, uses: seq<GateUse>, c: Confirmation)
    requires g.confirmation.None?
    ensures GateAfter(g, uses).confirmation == Some(c) <==> exists i: nat :: StemsFrom(g, uses, i, c)
    ensures GateAfter(g, uses).confirmation == Some(c) ==> GateAfter(g, uses).currentFingerprint == c.policyFingerprint
  {
    if uses != [] {
      var n := |uses| - 1;
      var before := uses[..n];
      ConfirmationStands(g, before, c);
      forall i: nat | i < n ensures uses[..i] == before[..i] {
      }
      if uses[n] == Recorded(c.projection) && GateAfter(g, before).currentFingerprint == c.policyFingerprint {
        assert StemsFrom(g, uses, n, c);
      }
      if GateAfter(g, uses).confirmation == Some(c) && !uses[n].Recorded? {
        var i: nat :| StemsFrom(g, before, i, c);
        assert StemsFrom(g, uses, i, c);
      }
      forall i: nat | i < n && StemsFrom(g, uses, i, c)
        ensures StemsFrom(g, before, i, c) && GateAfter(g, uses).confirmation == Some(c) {
        assert uses[n] == PolicyChanged(GateAfter(g, uses[..i]).currentFingerprint);
        forall k | i < k < |before| ensures before[k] == PolicyChanged(GateAfter(g, before[..i]).currentFingerprint) {
          assert uses[k] == PolicyChanged(GateAfter(g, uses[..i]).currentFingerprint);
        }
        assert StemsFrom(g, before, i, c);
      }
    }
  }
}
