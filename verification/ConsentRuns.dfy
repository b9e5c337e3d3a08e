/**
 Consent as a transition system: preview refreshes, policy edits with their checks, clicks and the
 other lifecycle commands, each with its own program counter. A step is one locked segment or one
 configuration read or write; between two steps of a task any other step may run.
 */
module ConsentRuns {
  import opened Capture
  import opened Consent
  import opened ConsentGates
  import opened Fingerprint
  import opened Model
  import opened Options

  // A capture: what it saw so far, and the moments of its four configuration reads (whether to
  // include media, then the three of the pipeline; a read that the pipeline skips decides nothing).
  datatype Taken = Taken(delivery: Delivery, times: seq<nat>)

  datatype RefreshPoint = Taking | Recording | Storing(preview: Preview) | Refreshed

  datatype CheckPoint =
    | ReadingPolicy
    | Comparing(fingerprint: string, readAt: nat)
    | DroppingPreview
    | Republishing
    | Checked

  datatype ClickPoint =
    | CheckingConnection
    | ReadingPreview
    | ReadingGate
    | FirstCapture
    | Validating
    | Enabling
    | SecondCapture
    | RereadingPolicy
    | Revalidating
    | RollingBack

  // What a click carries along, and the moment of each of its steps.
  datatype ClickLog = ClickLog(
    uiFingerprint: string,
    checkedAt: nat,
    shown: Option<Preview>,
    shownAt: nat,
    gateAt: nat,
    first: Taken,
    validatedAt: nat,
    enableWrites: bool,
    second: Taken,
    fingerprintNow: string,
    policyAt: nat,
    revalidatedAt: nat,
    rollbackWrites: bool)

  datatype Task =
    // `rejected` is the click that is being rejected with this refresh
    | Refresh(taken: Taken, refreshPoint: RefreshPoint, rejected: Option<ClickLog>)
    | Check(checkPoint: CheckPoint)
    | Confirm(log: ClickLog, at: ClickPoint)
    | Returned(result: Result<(), ServiceError>, log: ClickLog)

  type TaskId = nat

  datatype World = World(
    now: nat,
    privacy: PrivacyConfig,
    enabled: Option<bool>,
    preview: Option<Preview>,
    gate: Gate,
    republishes: nat,
    tasks: map<TaskId, Task>)

  datatype Action =
    | BeginRefresh(id: TaskId, sensors: Delivery)
    | EditPolicy(id: TaskId, policy: PrivacyConfig)
    | BeginClick(id: TaskId, uiFingerprint: string, sensors: Delivery)
    // one step of a task; `writes` and `sensors` are for the steps that write and that begin a capture
    | Advance(id: TaskId, writes: bool, sensors: Delivery)
    // pair, disable and unpair: none of them writes an enabled connection
    | WriteConnection(connection: Option<bool>)
    | ClearGate
    | DropPreview

  ghost predicate Initial(w: World) {
    w.now == 0 && w.preview.None? && w.gate == Gate(Preimage(w.privacy), None) && w.tasks == map[]
  }

  // ---- steps -----------------------------------------------------------------------------------------

  function ReadNext(t: Taken, w: World): Taken {
    var d := t.delivery;
    Taken(
      if |t.times| == 0 then d.(includeMedia := w.privacy.sources.media)
      else if |t.times| == 1 then d.(read1 := w.privacy)
      else if |t.times| == 2 then d.(read2 := w.privacy)
      else d.(read3 := w.privacy),
      t.times + [w.now])
  }

  // What a finished capture shows the user.
  function Seen(t: Taken): PreviewProjection {
    Shown(t.delivery, t.delivery.includeMedia)
  }

  function NextRefresh(w: World, t: Task): Task
    requires t.Refresh? && !IsDone(t)
  {
    match t.refreshPoint
    case Taking =>
      var taken := ReadNext(t.taken, w);
      t.(taken := taken, refreshPoint := if |taken.times| < 4 then Taking else Recording)
    case Recording => t.(refreshPoint := Storing(Preview(Seen(t.taken), w.gate.currentFingerprint,
      t.taken.delivery.observedAt)))
    case Storing(_) => if t.rejected.Some? then Returned(Err(PreviewOutOfDate), t.rejected.value)
      else t.(refreshPoint := Refreshed)
  }

  function NextCheck(w: World, at: CheckPoint): CheckPoint {
    match at
    case ReadingPolicy => Comparing(Preimage(w.privacy), w.now)
    case Comparing(fingerprint, _) => if fingerprint == w.gate.currentFingerprint then Checked else DroppingPreview
    case DroppingPreview => Republishing
    case Republishing => Checked
    case Checked => Checked
  }

  // The gate stands by the displayed preview, and the capture still shows it.
  predicate Confirms(g: Gate, uiFingerprint: string, shown: Option<Preview>, taken: Taken) {
    shown.Some? && Validates(g, Confirmation(uiFingerprint, shown.value.projection), Seen(taken))
  }

  function Rejecting(l: ClickLog, sensors: Delivery): Task {
    Refresh(Taken(sensors, []), Taking, Some(l))
  }

  function NextClick(w: World, l: ClickLog, at: ClickPoint, writes: bool, sensors: Delivery): Task {
    match at
    case CheckingConnection =>
      var next := l.(checkedAt := w.now);
      if w.enabled.None? then Returned(Err(NotPaired), next) else Confirm(next, ReadingPreview)
    case ReadingPreview => Confirm(l.(shown := w.preview, shownAt := w.now), ReadingGate)
    case ReadingGate =>
      var next := l.(gateAt := w.now, first := Taken(sensors, []));
      if l.shown.Some? && l.uiFingerprint == w.gate.currentFingerprint then Confirm(next, FirstCapture)
      else Rejecting(next, sensors)
    case FirstCapture =>
      var taken := ReadNext(l.first, w);
      Confirm(l.(first := taken), if |taken.times| < 4 then FirstCapture else Validating)
    case Validating =>
      var next := l.(validatedAt := w.now);
      if Confirms(w.gate, l.uiFingerprint, l.shown, l.first) then Confirm(next, Enabling) else Rejecting(next, sensors)
    case Enabling =>
      var next := l.(enableWrites := writes, second := Taken(sensors, []));
      if writes then Confirm(next, SecondCapture) else Returned(Err(Internal), next)
    case SecondCapture =>
      var taken := ReadNext(l.second, w);
      Confirm(l.(second := taken), if |taken.times| < 4 then SecondCapture else RereadingPolicy)
    case RereadingPolicy => Confirm(l.(fingerprintNow := Preimage(w.privacy), policyAt := w.now), Revalidating)
    case Revalidating =>
      var next := l.(revalidatedAt := w.now);
      if l.fingerprintNow == l.uiFingerprint && Confirms(w.gate, l.uiFingerprint, l.shown, l.second)
        then Returned(Ok(()), next)
      else Confirm(next, RollingBack)
    case RollingBack =>
      var next := l.(rollbackWrites := writes);
      if writes then Rejecting(next, sensors) else Returned(Err(Internal), next)
  }

  function NextTask(w: World, t: Task, writes: bool, sensors: Delivery): Task
    requires !IsDone(t)
  {
    match t
    case Refresh(_, _, _) => NextRefresh(w, t)
    case Check(at) => Check(NextCheck(w, at))
    case Confirm(l, at) => NextClick(w, l, at, writes, sensors)
  }

  function Flagged(w: World, value: bool): World {
    if w.enabled.Some? then w.(enabled := Some(value)) else w
  }

  // What a step of a task does to the shared state.
  function Shared(w: World, t: Task, writes: bool): World {
    match t
    case Refresh(taken, Recording, _) => w.(gate := GateStep(w.gate, Recorded(Seen(taken))))
    case Refresh(_, Storing(preview), _) => w.(preview := Some(preview))
    case Check(Comparing(fingerprint, _)) => w.(gate := GateStep(w.gate, PolicyChanged(fingerprint)))
    case Check(DroppingPreview) => w.(preview := None)
    case Check(Republishing) => w.(republishes := w.republishes + 1)
    case Confirm(_, Enabling) => if writes then Flagged(w, true) else w
    case Confirm(_, RollingBack) => if writes then Flagged(w, false) else w
    case _ => w
  }

  predicate IsDone(t: Task) {
    match t
    case Refresh(_, at, _) => at.Refreshed?
    case Check(at) => at.Checked?
    case Confirm(_, _) => false
    case Returned(_, _) => true
  }

  predicate CanStep(w: World, a: Action) {
    match a
    case BeginRefresh(id, _) => id !in w.tasks
    case EditPolicy(id, _) => id !in w.tasks
    case BeginClick(id, _, _) => id !in w.tasks
    case Advance(id, _, _) => id in w.tasks && !IsDone(w.tasks[id])
    case WriteConnection(connection) => connection != Some(true)
    case ClearGate => true
    case DropPreview => true
  }

  function FreshLog(uiFingerprint: string, sensors: Delivery): ClickLog {
    ClickLog(uiFingerprint, 0, None, 0, 0, Taken(sensors, []), 0, false, Taken(sensors, []), "", 0, 0, false)
  }

  function After(w: World, a: Action): World
    requires CanStep(w, a)
  {
    match a
    case BeginRefresh(id, sensors) => w.(tasks := w.tasks[id := Refresh(Taken(sensors, []), Taking, None)])
    case EditPolicy(id, policy) => w.(privacy := policy, tasks := w.tasks[id := Check(ReadingPolicy)])
    case BeginClick(id, ui, sensors) => w.(tasks := w.tasks[id := Confirm(FreshLog(ui, sensors), CheckingConnection)])
    case Advance(id, writes, sensors) =>
      Shared(w, w.tasks[id], writes).(tasks := w.tasks[id := NextTask(w, w.tasks[id], writes, sensors)])
    case WriteConnection(connection) => w.(enabled := connection)
    case ClearGate => w.(gate := GateStep(w.gate, Cleared))
    case DropPreview => w.(preview := None)
  }

  function Step(w: World, a: Action): World
    requires CanStep(w, a)
  {
    After(w, a).(now := w.now + 1)
  }

  // ---- runs ------------------------------------------------------------------------------------------

  ghost predicate IsRun(ws: seq<World>, acts: seq<Action>) {
    && |ws| == |acts| + 1
    && Initial(ws[0])
    && forall i :: 0 <= i < |acts| ==> Linked(ws, acts, i)
  }

  ghost predicate Linked(ws: seq<World>, acts: seq<Action>, i: nat)
    requires i < |acts| && |ws| == |acts| + 1
  {
    CanStep(ws[i], acts[i]) && ws[i + 1] == Step(ws[i], acts[i])
  }
}
