/** Disabling against crashes: what a process killed after the disabling write starts again with. */
module RestartTheorems {
  import opened ConfigStorage
  import opened CoordinatorTheorems
  import opened Options
  import opened Storage
  import CM = CoordinatorModel

  // `CompanionService::start` publishes on launch exactly then.
  predicate ResumesPublishing(c: CoreConfig) {
    c.connection.Some? && c.connection.value.liveDeskEnabled
  }

  // The write of disable_live_desk.
  function WithoutPublishing(c: CoreConfig): CoreConfig {
    if c.connection.None? then c else c.(connection := Some(c.connection.value.(liveDeskEnabled := false)))
  }

  // One configuration update that reached the disk's write.
  datatype Written = Written(next: CoreConfig, fault: Fault<CoreConfig>)

  // The disk between updates.
  function DiskAfter(f: Files<CoreConfig>, updates: seq<Written>): Files<CoreConfig> {
    if updates == [] then f
    else
      var before, last := updates[..|updates| - 1], updates[|updates| - 1];
      var states := WriteStates(DiskAfter(f, before), last.next, last.fault);
      states[|states| - 1]
  }

  lemma LastState(f: Files<CoreConfig>, next: CoreConfig, fault: Fault<CoreConfig>)
    requires Durable(f) && IsValid(next)
    ensures var states := WriteStates(f, next, fault);
            && Durable(states[|states| - 1])
            && Load(states[|states| - 1]) == if fault.NoFault? then next else Load(f)
  {
  }

  lemma {:induction false} StaysDisabledOnDisk(f: Files<CoreConfig>, updates: seq<Written>)
    requires Durable(f) && !ResumesPublishing(Load(f))
    requires forall u <- updates :: IsValid(u.next) && !ResumesPublishing(u.next)
    ensures Durable(DiskAfter(f, updates)) && !ResumesPublishing(Load(DiskAfter(f, updates)))
  {
    if updates != [] {
      var before, last := updates[..|updates| - 1], updates[|updates| - 1];
      StaysDisabledOnDisk(f, before);
      LastState(DiskAfter(f, before), last.next, last.fault);
    }
  }

  // The disable itself: killed at any of its sub-steps the next process resumes publishing exactly
  // if the old one would have and the rename was not done.
  lemma KilledDisableExactly(f: Files<CoreConfig>, fault: Fault<CoreConfig>, at: nat, after: Files<CoreConfig>)
    requires Durable(f) && at < |WriteStates(f, WithoutPublishing(Load(f)), fault)|
    requires AfterCrash(WriteStates(f, WithoutPublishing(Load(f)), fault)[at], after)
    ensures ResumesPublishing(Load(after)) <==> ResumesPublishing(Load(f)) && at < 4
  {
    RestartAfterKilledUpdate(f, WithoutPublishing(Load(f)), fault, at, after);
  }

  // After it: whatever is written next, failing or not, as long as it does not enable Live Desk, a
  // kill at any sub-step of any of these writes restarts a process that does not resume publishing.
  lemma KilledLaterNeverResumes(f: Files<CoreConfig>, updates: seq<Written>, last: Written, at: nat,
      after: Files<CoreConfig>)
    requires Durable(f)
    requires forall u <- updates + [last] :: IsValid(u.next) && !ResumesPublishing(u.next)
    requires var disabled := DiskAfter(f, [Written(WithoutPublishing(Load(f)), NoFault)]);
             var disk := DiskAfter(disabled, updates);
             && at < |WriteStates(disk, last.next, last.fault)|
             && AfterCrash(WriteStates(disk, last.next, last.fault)[at], after)
    ensures !ResumesPublishing(Load(after))
  {
    var disable := Written(WithoutPublishing(Load(f)), NoFault);
    var disabled := DiskAfter(f, [disable]);
    assert [disable][..0] == [];
    LastState(f, disable.next, disable.fault);
    assert forall u <- updates :: u in updates + [last];
    assert last in updates + [last];
    StaysDisabledOnDisk(disabled, updates);
    RestartAfterKilledUpdate(DiskAfter(disabled, updates), last.next, last.fault, at, after);
  }

  // The connection a coordinator sees in a configuration.
  function ConnectionOf(c: CoreConfig, urlParses: bool): Option<CM.Connection> {
    if c.connection.None? then None
    else
      var s := c.connection.value;
      Some(CM.Connection(s.baseUrl, urlParses, s.deviceId, s.pairingNextSequence, s.liveDeskEnabled))
  }

  // Disable, kill, restart: from the rename of the disabling write on, the process that starts on
  // what the crash left neither resumes publishing nor, whatever is asked of its coordinator, starts
  // a send or publishes before a write enables Live Desk.
  lemma KilledDisableStaysOff(f: Files<CoreConfig>, fault: Fault<CoreConfig>, after: Files<CoreConfig>,
                              urlParses: bool, now: int, ws: seq<CM.World>, acts: seq<CM.Action>, k: nat)
    requires Durable(f) && |WriteStates(f, WithoutPublishing(Load(f)), fault)| == 5
    requires AfterCrash(WriteStates(f, WithoutPublishing(Load(f)), fault)[4], after)
    requires IsRun(ws, acts) && ws[0] == CM.Initial(ConnectionOf(Load(after), urlParses), now)
    requires k < |acts| && forall m :: 0 <= m < k ==> !IsEnablingWrite(acts[m])
    ensures !ResumesPublishing(Load(after))
    ensures !StartsSend(ws[k], acts[k]) && !Publishes(ws[k], acts[k])
  {
    KilledDisableExactly(f, fault, 4, after);
    DisabledStartStaysOff(ws, acts, k);
  }
}
