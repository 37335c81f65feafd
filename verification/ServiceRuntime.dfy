/** The lifecycle of the service runtime as a state machine whose steps are the stretches of code between
    two awaits. Components, operations, shutdown attempts, callers of `stop` and contexts are numbered.
    The components' lifecycles, the contexts and the tasks are chosen by the event. */
module ServiceRuntime {
  import opened Base
  import opened ServicePlan
  import opened ServiceStops

  datatype State = Created | Starting | Running | Stopping | Stopped

  /** A list that is stopped one by one from its end: what is left of it, and the wait for its last element. */
  datatype Line = Line(todo: seq<nat>, wait: Wait)

  datatype Startup = Idle | Building | Launching(next: nat) | RollingBack(line: Line) | Over(failed: bool)

  /** `drainTasks`: tasks were active when it began; they were, and then the registry's `drain` saw none; or none
      was, and it sealed admission at once. */
  datatype Drain = Busy | Seen | Closed

  datatype Stage =
    | AwaitStartup | Rolling(line: Line) | RollDrain(drain: Drain)
    | Group(step: nat, waits: map<nat, Wait>) | Draining(drain: Drain) | Final(line: Line)
    | Ended(ok: bool)

  /** A run of `stopOnce`. */
  datatype Attempt = Attempt(ctx: nat, stage: Stage)

  datatype Status = Waiting(attempt: nat, owns: bool) | Returned | Threw

  /** A call of `stop`. */
  datatype Caller = Caller(ctx: nat, status: Status)

  /** `tasks` are the numbers of the active tasks of the registry, `nextTask` the number the next one gets. */
  datatype Runtime = Runtime(parts: seq<Part>, plan: seq<Launch>, stops: Stops, state: State, startup: Startup,
                             rollbackPending: bool, expired: set<nat>, stopPromise: Option<nat>,
                             attempts: seq<Attempt>, callers: seq<Caller>, tasks: set<nat>, nextTask: nat,
                             accepting: bool)

  /** The context of the startup, which `stop` aborts. */
  const STARTUP: nat := 0

  function Initial(parts: seq<Part>): Runtime {
    Runtime(parts, [], Stops([], map[], map[], []), Created, Idle, false, {}, None, [], [], {}, 0, true)
  }

  predicate StartupPending(s: Runtime) {
    s.startup.Building? || s.startup.Launching? || s.startup.RollingBack?
  }

  ghost predicate StageShape(stage: Stage, ops: seq<Op>, parts: seq<Part>) {
    match stage
    case Rolling(line) => LineShape(line, ops)
    case Final(line) => LineShape(line, ops)
    case Group(_, waits) => forall c <- waits :: c < |parts| && (waits[c].OnOp? ==> waits[c].op < |ops|)
    case _ => true
  }

  ghost predicate LineShape(line: Line, ops: seq<Op>) {
    line.wait.OnOp? ==> line.todo != [] && line.wait.op < |ops|
  }

  ghost predicate Shape(s: Runtime) {
    && PendingsOk(s.stops) && Known(s.parts, s.stops.started)
    && (s.stopPromise.Some? ==> s.stopPromise.value < |s.attempts|)
    && (forall i :: 0 <= i < |s.attempts| ==> StageShape(s.attempts[i].stage, s.stops.ops, s.parts))
    && (forall i :: 0 <= i < |s.callers| && s.callers[i].status.Waiting? ==> s.callers[i].status.attempt < |s.attempts|)
    && (s.startup.Launching? ==> s.startup.next < |s.plan|)
    && (s.startup.RollingBack? ==> LineShape(s.startup.line, s.stops.ops))
  }

  // ---- Stopping one by one ----

  function BeginLine(s: Stops, todo: seq<nat>, ctx: nat): (r: (Stops, Line))
    requires PendingsOk(s)
    ensures PendingsOk(r.0) && r.0.started == s.started && r.1.todo == todo && LineShape(r.1, r.0.ops)
  {
    if todo == [] then (s, Line([], Fulfilled))
    else
      var (t, w) := StopComponent(s, todo[|todo| - 1], ctx, false);
      (t, Line(todo, w))
  }

  /** The rest of a line whose last element has stopped. */
  function NextInLine(s: Stops, line: Line, ctx: nat): (r: (Stops, Line))
    requires PendingsOk(s) && line.todo != []
    ensures PendingsOk(r.0) && r.0.started == s.started && LineShape(r.1, r.0.ops)
  {
    BeginLine(s, line.todo[..|line.todo| - 1], ctx)
  }

  // ---- Startup ----

  function LaunchFrom(s: Runtime, p: nat): Runtime {
    if p < |s.plan| then s.(startup := Launching(p)) else s.(state := Running, startup := Over(false))
  }

  function StartupFails(s: Runtime): (t: Runtime)
    requires PendingsOk(s.stops)
    ensures t == s.(accepting := false, rollbackPending := true, stops := t.stops, startup := t.startup)
    ensures t.stops.started == s.stops.started && t.startup.RollingBack?
  {
    var (t, line) := BeginLine(s.stops, s.stops.started, STARTUP);
    s.(accepting := false, rollbackPending := true, stops := t, startup := RollingBack(line))
  }

  function Pushed(s: Runtime, launch: Launch): Runtime {
    if launch.Start? then s.(stops := s.stops.(started := s.stops.started + [launch.part])) else s
  }

  function DoBuildEnds(s: Runtime, ok: bool): Runtime
    requires PendingsOk(s.stops)
  {
    if !ok || STARTUP in s.expired then StartupFails(s) else LaunchFrom(s, 0)
  }

  function DoLaunchEnds(s: Runtime, ok: bool): Runtime
    requires PendingsOk(s.stops) && s.startup.Launching? && s.startup.next < |s.plan|
  {
    if !ok then StartupFails(s)
    else
      var pushed := Pushed(s, s.plan[s.startup.next]);
      if STARTUP in s.expired then StartupFails(pushed) else LaunchFrom(pushed, s.startup.next + 1)
  }

  function FinishStartup(s: Runtime): Runtime {
    s.(state := if s.stops.started == [] && s.tasks == {} then Stopped else Stopping, startup := Over(true))
  }

  function DoStartupProceeds(s: Runtime): (t: Runtime)
    requires PendingsOk(s.stops) && s.startup.RollingBack?
    ensures t == s.(stops := t.stops, startup := t.startup, state := t.state, rollbackPending := t.rollbackPending)
    ensures t.stops.started == s.stops.started && (t.state == s.state || t.state == Stopping || t.state == Stopped)
  {
    var line := s.startup.line;
    if line.todo == [] then FinishStartup(s.(rollbackPending := false))
    else if line.wait.Fulfilled? then
      var (t, next) := NextInLine(s.stops, line, STARTUP);
      s.(stops := t, startup := RollingBack(next))
    else FinishStartup(s)
  }

  function DoStartupResumes(s: Runtime): (t: Runtime)
    requires PendingsOk(s.stops) && s.startup.RollingBack? && LineShape(s.startup.line, s.stops.ops)
    requires s.startup.line.wait.OnOp?
    ensures t == s.(stops := t.stops, startup := t.startup) && t.stops.started == s.stops.started
  {
    var (t, w) := Resume(s.stops, s.startup.line.wait, STARTUP, s.expired);
    s.(stops := t, startup := RollingBack(s.startup.line.(wait := w)))
  }

  // ---- One attempt to stop ----

  function Members(started: seq<nat>, parts: seq<Part>, k: nat): (r: seq<nat>)
    requires Known(parts, started)
    ensures Known(parts, r) && forall c :: c in r <==> c in started && InStep(parts[c], k)
    ensures Distinct(started) ==> Distinct(r)
  {
    if started == [] then []
    else
      var last := started[|started| - 1];
      assert started == started[..|started| - 1] + [last];
      Members(started[..|started| - 1], parts, k) + if InStep(parts[last], k) then [last] else []
  }

  /** `stopComponent` on every element of a list, from its end. */
  function StopAll(s: Stops, list: seq<nat>, parts: seq<Part>, k: nat, ctx: nat): (r: (Stops, map<nat, Wait>))
    requires PendingsOk(s) && Known(parts, list)
    ensures PendingsOk(r.0) && r.0.started == s.started && r.1.Keys == set c | c in list
    ensures |s.ops| <= |r.0.ops| && StageShape(Group(k, r.1), r.0.ops, parts)
    decreases |list|
  {
    if list == [] then (s, map[])
    else
      var last, rest := list[|list| - 1], list[..|list| - 1];
      assert list == rest + [last];
      var (t, w) := StopComponent(s, last, ctx, AdmissionOnly(parts[last], k));
      var (u, waits) := StopAll(t, rest, parts, k, ctx);
      (u, waits[last := w])
  }

  function SetStage(s: Runtime, i: nat, stage: Stage): Runtime
    requires i < |s.attempts|
  {
    s.(attempts := s.attempts[i := s.attempts[i].(stage := stage)])
  }

  /** `drainTasks` begins: with no task active it seals admission at once. */
  function BeginDrain(s: Runtime): Drain {
    if s.tasks == {} then Closed else Busy
  }

  function SealIfIdle(s: Runtime): Runtime {
    if s.tasks == {} then s.(accepting := false) else s
  }

  /** The k-th step of the ordinary path begins. */
  function EnterStep(s: Runtime, i: nat, k: nat): (t: Runtime)
    requires i < |s.attempts| && PendingsOk(s.stops) && Known(s.parts, s.stops.started)
    ensures t == s.(stops := t.stops, attempts := t.attempts, accepting := t.accepting)
    ensures |t.attempts| == |s.attempts| && t.stops.started == s.stops.started
    ensures (t.accepting ==> s.accepting) && (k != 5 ==> t.accepting == s.accepting)
  {
    var ctx := s.attempts[i].ctx;
    if k == 5 then SetStage(SealIfIdle(s), i, Draining(BeginDrain(s)))
    else if k == 8 then
      var (t, line) := BeginLine(s.stops, Members(s.stops.started, s.parts, 8), ctx);
      SetStage(s.(stops := t), i, Final(line))
    else
      var (t, waits) := StopAll(s.stops, Members(s.stops.started, s.parts, k), s.parts, k, ctx);
      SetStage(s.(stops := t), i, Group(k, waits))
  }

  function BeginRolling(s: Runtime, i: nat): (t: Runtime)
    requires i < |s.attempts| && PendingsOk(s.stops)
    ensures t == s.(stops := t.stops, attempts := t.attempts) && |t.attempts| == |s.attempts|
      && t.stops.started == s.stops.started
  {
    var (t, line) := BeginLine(s.stops, s.stops.started, s.attempts[i].ctx);
    SetStage(s.(stops := t), i, Rolling(line))
  }

  /** `stopOnce` once no startup is pending. */
  function AfterStartup(s: Runtime, i: nat): (t: Runtime)
    requires i < |s.attempts| && PendingsOk(s.stops) && Known(s.parts, s.stops.started)
    ensures t == s.(stops := t.stops, attempts := t.attempts) && |t.attempts| == |s.attempts|
      && t.stops.started == s.stops.started
  {
    if s.rollbackPending then BeginRolling(s, i) else EnterStep(s, i, 1)
  }

  function BeginAttempt(s: Runtime, ctx: nat): (t: Runtime)
    requires PendingsOk(s.stops) && Known(s.parts, s.stops.started)
    ensures t == s.(stops := t.stops, attempts := t.attempts, state := Stopping, stopPromise := t.stopPromise,
      expired := t.expired)
    ensures t.stops.started == s.stops.started && s.expired <= t.expired
  {
    var i := |s.attempts|;
    var begun := s.(state := Stopping, attempts := s.attempts + [Attempt(ctx, AwaitStartup)], stopPromise := Some(i));
    if StartupPending(s) then begun.(expired := s.expired + {STARTUP}) else AfterStartup(begun, i)
  }

  function DoStartupSeen(s: Runtime, i: nat, timedOut: bool): (t: Runtime)
    requires i < |s.attempts| && PendingsOk(s.stops) && Known(s.parts, s.stops.started)
    ensures t == s.(stops := t.stops, attempts := t.attempts, state := t.state, accepting := t.accepting,
      rollbackPending := t.rollbackPending)
    ensures t.stops.started == s.stops.started && (t.state == s.state || t.state == Stopped)
      && (t.accepting ==> s.accepting)
  {
    if timedOut then SetStage(s.(accepting := false), i, Ended(false)) else AfterStartup(s, i)
  }

  predicate AllSettled(waits: map<nat, Wait>) {
    forall c <- waits :: Settled(waits[c])
  }

  predicate AllFulfilled(waits: map<nat, Wait>) {
    forall c <- waits :: waits[c].Fulfilled?
  }

  function GroupEnds(s: Runtime, i: nat): (t: Runtime)
    requires i < |s.attempts| && PendingsOk(s.stops) && Known(s.parts, s.stops.started) && s.attempts[i].stage.Group?
    ensures t == s.(stops := t.stops, attempts := t.attempts, state := t.state, accepting := t.accepting,
      rollbackPending := t.rollbackPending)
    ensures t.stops.started == s.stops.started && (t.state == s.state || t.state == Stopped)
      && (t.accepting ==> s.accepting)
  {
    var Group(k, waits) := s.attempts[i].stage;
    if AllFulfilled(waits) then EnterStep(s, i, k + 1) else SetStage(s, i, Ended(false))
  }

  function RollingProceeds(s: Runtime, i: nat): (t: Runtime)
    requires i < |s.attempts| && PendingsOk(s.stops) && s.attempts[i].stage.Rolling?
    ensures t == s.(stops := t.stops, attempts := t.attempts, state := t.state, accepting := t.accepting,
      rollbackPending := t.rollbackPending)
    ensures t.stops.started == s.stops.started && (t.state == s.state || t.state == Stopped)
      && (t.accepting ==> s.accepting)
  {
    var line := s.attempts[i].stage.line;
    if line.todo == [] then SetStage(SealIfIdle(s).(rollbackPending := false), i, RollDrain(BeginDrain(s)))
    else if line.wait.Fulfilled? then
      var (t, next) := NextInLine(s.stops, line, s.attempts[i].ctx);
      SetStage(s.(stops := t), i, Rolling(next))
    else SetStage(s, i, Ended(false))
  }

  function FinalProceeds(s: Runtime, i: nat): (t: Runtime)
    requires i < |s.attempts| && PendingsOk(s.stops) && s.attempts[i].stage.Final?
    ensures t == s.(stops := t.stops, attempts := t.attempts, state := t.state, accepting := t.accepting,
      rollbackPending := t.rollbackPending)
    ensures t.stops.started == s.stops.started && (t.state == s.state || t.state == Stopped)
      && (t.accepting ==> s.accepting)
  {
    var line := s.attempts[i].stage.line;
    if line.todo == [] then SetStage(s.(state := Stopped), i, Ended(true))
    else if line.wait.Fulfilled? then
      var (t, next) := NextInLine(s.stops, line, s.attempts[i].ctx);
      SetStage(s.(stops := t), i, Final(next))
    else SetStage(s, i, Ended(false))
  }

  /** The registry's `drain` saw no task. The attempt does not know yet, and tasks are admitted until it does. */
  function DoDrainSees(s: Runtime, i: nat): (t: Runtime)
    requires i < |s.attempts|
    ensures t == s.(attempts := t.attempts) && |t.attempts| == |s.attempts|
  {
    match s.attempts[i].stage
    case RollDrain(_) => SetStage(s, i, RollDrain(Seen))
    case Draining(_) => SetStage(s, i, Draining(Seen))
    case _ => s
  }

  /** `drainTasks` ended, sealing admission whether or not it succeeded. */
  function DoDrainEnds(s: Runtime, i: nat, ok: bool): (t: Runtime)
    requires i < |s.attempts| && PendingsOk(s.stops) && Known(s.parts, s.stops.started)
    ensures t == s.(stops := t.stops, attempts := t.attempts, state := t.state, accepting := t.accepting,
      rollbackPending := t.rollbackPending)
    ensures t.stops.started == s.stops.started && (t.state == s.state || t.state == Stopped)
      && (t.accepting ==> s.accepting)
  {
    var sealed := s.(accepting := false);
    if !ok then SetStage(sealed, i, Ended(false))
    else if s.attempts[i].stage.RollDrain? then SetStage(sealed.(state := Stopped), i, Ended(true))
    else EnterStep(sealed, i, 6)
  }

  /** The wait of an attempt for one component. */
  function WaitFor(stage: Stage, c: nat): (w: Option<Wait>)
  {
    match stage
    case Group(_, waits) => if c in waits then Some(waits[c]) else None
    case Rolling(line) => if line.todo != [] && line.todo[|line.todo| - 1] == c then Some(line.wait) else None
    case Final(line) => if line.todo != [] && line.todo[|line.todo| - 1] == c then Some(line.wait) else None
    case _ => None
  }

  function WithWait(stage: Stage, c: nat, w: Wait): Stage {
    match stage
    case Group(k, waits) => Group(k, waits[c := w])
    case Rolling(line) => Rolling(line.(wait := w))
    case Final(line) => Final(line.(wait := w))
    case _ => stage
  }

  function DoWaitResumes(s: Runtime, i: nat, c: nat): (t: Runtime)
    requires i < |s.attempts| && PendingsOk(s.stops) && StageShape(s.attempts[i].stage, s.stops.ops, s.parts)
    ensures t == s.(stops := t.stops, attempts := t.attempts) && |t.attempts| == |s.attempts|
      && t.stops.started == s.stops.started
  {
    var w := WaitFor(s.attempts[i].stage, c);
    if w.Some? && w.value.OnOp? then
      var (t, v) := Resume(s.stops, w.value, s.attempts[i].ctx, s.expired);
      SetStage(s.(stops := t), i, WithWait(s.attempts[i].stage, c, v))
    else s
  }

  // ---- Callers of `stop` ----

  /** One turn of the loop in `stop`: own a new attempt or wait for the one under way. */
  function Join(s: Runtime, k: nat): (t: Runtime)
    requires k < |s.callers| && PendingsOk(s.stops) && Known(s.parts, s.stops.started)
    ensures t == s.(stops := t.stops, attempts := t.attempts, callers := t.callers, state := t.state,
      stopPromise := t.stopPromise, expired := t.expired, accepting := t.accepting)
    ensures t.stops.started == s.stops.started && s.expired <= t.expired && (t.accepting ==> s.accepting)
    ensures t.state == s.state || t.state == Stopping || t.state == Stopped
  {
    var caller := s.callers[k];
    match s.stopPromise
    case Some(i) => s.(callers := s.callers[k := caller.(status := Waiting(i, false))])
    case None => BeginAttempt(s, caller.ctx).(callers := s.callers[k := caller.(status := Waiting(|s.attempts|, true))])
  }

  predicate NothingToStop(s: Runtime) {
    !StartupPending(s) && s.stops.started == [] && s.tasks == {}
  }

  function DoStopCall(s: Runtime, ctx: nat): (t: Runtime)
    requires PendingsOk(s.stops) && Known(s.parts, s.stops.started)
    ensures t == s.(stops := t.stops, attempts := t.attempts, callers := t.callers, state := t.state,
      stopPromise := t.stopPromise, expired := t.expired, accepting := t.accepting)
    ensures t.stops.started == s.stops.started && s.expired <= t.expired && (t.accepting ==> s.accepting)
    ensures t.state == s.state || t.state == Stopping || t.state == Stopped
  {
    if NothingToStop(s) then
      s.(accepting := false, state := Stopped, callers := s.callers + [Caller(ctx, Returned)])
    else Join(s.(callers := s.callers + [Caller(ctx, Threw)]), |s.callers|)
  }

  function DoCallerWakes(s: Runtime, k: nat, timedOut: bool): (t: Runtime)
    requires k < |s.callers| && s.callers[k].status.Waiting? && s.callers[k].status.attempt < |s.attempts|
    requires PendingsOk(s.stops) && Known(s.parts, s.stops.started)
    ensures t == s.(stops := t.stops, attempts := t.attempts, callers := t.callers, state := t.state,
      stopPromise := t.stopPromise, expired := t.expired, accepting := t.accepting)
    ensures t.stops.started == s.stops.started && s.expired <= t.expired && (t.accepting ==> s.accepting)
    ensures t.state == s.state || t.state == Stopping || t.state == Stopped
  {
    var caller := s.callers[k];
    var stage := s.attempts[caller.status.attempt].stage;
    if timedOut then s.(accepting := false, callers := s.callers[k := caller.(status := Threw)])
    else if stage == Ended(true) then s.(callers := s.callers[k := caller.(status := Returned)])
    else if caller.ctx in s.expired || caller.status.owns then
      s.(accepting := false, callers := s.callers[k := caller.(status := Threw)])
    else Join(s, k)
  }

  // ---- Events ----

  datatype Event =
    | Begin(admission: bool) | BuildEnds(ok: bool) | LaunchEnds(ok: bool) | StartupResumes | StartupProceeds
    | SettleOp(op: nat, outcome: Outcome)
    | StopCall(ctx: nat) | CallerWakes(caller: nat, timedOut: bool) | Release
    | StartupSeen(timedOut: bool) | WaitResumes(part: nat) | Proceeds | DrainSees | DrainEnds(ok: bool)
    | Expire(ctx: nat) | TaskStart | TaskEnd(task: nat)

  predicate LineReady(line: Line, ctx: nat, expired: set<nat>) {
    Settled(line.wait) || ctx in expired
  }

  predicate Ready(attempt: Attempt, expired: set<nat>) {
    match attempt.stage
    case Group(_, waits) => AllSettled(waits) || attempt.ctx in expired
    case Rolling(line) => LineReady(line, attempt.ctx, expired)
    case Final(line) => LineReady(line, attempt.ctx, expired)
    case _ => false
  }

  /** Whether callers would join an attempt. */
  predicate Active(s: Runtime) {
    s.stopPromise.Some? && s.stopPromise.value < |s.attempts|
  }

  function Current(s: Runtime): Attempt
    requires Active(s)
  {
    s.attempts[s.stopPromise.value]
  }

  predicate InDrain(stage: Stage) {
    stage.RollDrain? || stage.Draining?
  }

  /** A drain that begins with no task active cannot fail, and one that saw tasks ends well only after it saw none. */
  predicate MayEnd(drain: Drain, ok: bool) {
    match drain
    case Busy => !ok
    case Seen => true
    case Closed => ok
  }

  predicate Enabled(s: Runtime, e: Event) {
    match e
    case Begin(_) => s.state == Created
    case BuildEnds(_) => s.startup.Building?
    case LaunchEnds(_) => s.startup.Launching?
    case StartupResumes =>
      && s.startup.RollingBack? && s.startup.line.wait.OnOp? && s.startup.line.wait.op < |s.stops.ops|
      && !s.stops.ops[s.startup.line.wait.op].outcome.InFlight?
    case StartupProceeds => s.startup.RollingBack? && LineReady(s.startup.line, STARTUP, s.expired)
    case SettleOp(o, outcome) => o < |s.stops.ops| && s.stops.ops[o].outcome.InFlight? && !outcome.InFlight?
    case StopCall(ctx) => ctx != STARTUP
    case CallerWakes(k, timedOut) =>
      && k < |s.callers| && s.callers[k].status.Waiting? && s.callers[k].status.attempt < |s.attempts|
      && (if timedOut then s.callers[k].ctx in s.expired else s.attempts[s.callers[k].status.attempt].stage.Ended?)
    case Release => Active(s) && Current(s).stage.Ended?
    case StartupSeen(timedOut) =>
      Active(s) && Current(s).stage.AwaitStartup?
        && if timedOut then Current(s).ctx in s.expired else !StartupPending(s)
    case WaitResumes(c) => Active(s) && WaitFor(Current(s).stage, c).Some?
    case Proceeds => Active(s) && Ready(Current(s), s.expired)
    case DrainSees => Active(s) && InDrain(Current(s).stage) && Current(s).stage.drain == Busy && s.tasks == {}
    case DrainEnds(ok) => Active(s) && InDrain(Current(s).stage) && MayEnd(Current(s).stage.drain, ok)
    case Expire(_) => true
    case TaskStart => true
    case TaskEnd(task) => task in s.tasks
  }

  function DoProceeds(s: Runtime, i: nat): (t: Runtime)
    requires i < |s.attempts| && PendingsOk(s.stops) && Known(s.parts, s.stops.started)
    requires s.attempts[i].stage.Group? || s.attempts[i].stage.Rolling? || s.attempts[i].stage.Final?
    ensures t == s.(stops := t.stops, attempts := t.attempts, state := t.state, accepting := t.accepting,
      rollbackPending := t.rollbackPending)
    ensures t.stops.started == s.stops.started && (t.state == s.state || t.state == Stopped)
      && (t.accepting ==> s.accepting)
  {
    match s.attempts[i].stage
    case Group(_, _) => GroupEnds(s, i)
    case Rolling(_) => RollingProceeds(s, i)
    case Final(_) => FinalProceeds(s, i)
  }

  function Step(s: Runtime, e: Event): Runtime
    requires Shape(s) && Enabled(s, e)
  {
    match e
    case Begin(admission) => s.(state := Starting, startup := Building, plan := Plan(s.parts, admission))
    case BuildEnds(ok) => DoBuildEnds(s, ok)
    case LaunchEnds(ok) => DoLaunchEnds(s, ok)
    case StartupResumes => DoStartupResumes(s)
    case StartupProceeds => DoStartupProceeds(s)
    case SettleOp(o, outcome) => s.(stops := Settle(s.stops, o, outcome))
    case StopCall(ctx) => DoStopCall(s, ctx)
    case CallerWakes(k, timedOut) => DoCallerWakes(s, k, timedOut)
    case Release => s.(stopPromise := None)
    case StartupSeen(timedOut) => DoStartupSeen(s, s.stopPromise.value, timedOut)
    case WaitResumes(c) => DoWaitResumes(s, s.stopPromise.value, c)
    case Proceeds => DoProceeds(s, s.stopPromise.value)
    case DrainSees => DoDrainSees(s, s.stopPromise.value)
    case DrainEnds(ok) => DoDrainEnds(s, s.stopPromise.value, ok)
    case Expire(ctx) => s.(expired := s.expired + {ctx})
    case TaskStart => if s.accepting then s.(tasks := s.tasks + {s.nextTask}, nextTask := s.nextTask + 1) else s
    case TaskEnd(task) => s.(tasks := s.tasks - {task})
  }
}
