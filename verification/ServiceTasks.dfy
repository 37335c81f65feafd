/** What a shutdown does about the tasks of the runtime: when it may end with a task still active. */
module ServiceTasks {
  import opened Base
  import opened ServicePlan
  import opened ServiceStops
  import opened ServiceRuntime
  import opened ServiceRuns
  import opened ServiceTheorems

  /** Admission is only ever sealed, and only an admission adds a task. */
  lemma TasksStep(s: Runtime, e: Event)
    requires Shape(s) && Enabled(s, e)
    ensures var t := Step(s, e);
      && (t.accepting ==> s.accepting)
      && t.tasks <= (if e.TaskStart? && s.accepting then s.tasks + {s.nextTask} else s.tasks)
  {
    hide Shape, Enabled, DoProceeds, DoCallerWakes, DoStopCall, DoWaitResumes, DoDrainEnds, DoStartupSeen, DoDrainSees;
    hide StartupFails, DoStartupProceeds, DoStartupResumes, Plan;
  }

  /** Event `m` admits task `task`. */
  ghost predicate Admits(states: seq<Runtime>, events: seq<Event>, m: nat, task: nat) {
    m < |events| && m < |states| && events[m].TaskStart? && states[m].accepting && states[m].nextTask == task
  }

  lemma {:induction false} SealedForGood(states: seq<Runtime>, events: seq<Event>, i: nat, j: nat)
    requires Run(states, events) && i <= j < |states| && !states[i].accepting
    ensures !states[j].accepting && states[j].tasks <= states[i].tasks
  {
    hide Step, Shape, Enabled;
    if i < j {
      SealedForGood(states, events, i, j - 1);
      assert Leads(states[j - 1], events[j - 1], states[j]);
      TasksStep(states[j - 1], events[j - 1]);
    }
  }

  /** A task that is active was active before, or was admitted since. */
  lemma {:induction false} Since(states: seq<Runtime>, events: seq<Event>, i: nat, j: nat, task: nat) returns (m: nat)
    requires Run(states, events) && i <= j < |states| && task in states[j].tasks && task !in states[i].tasks
    ensures i <= m < j && Admits(states, events, m, task)
  {
    hide Step, Shape, Enabled;
    assert Leads(states[j - 1], events[j - 1], states[j]);
    TasksStep(states[j - 1], events[j - 1]);
    if task in states[j - 1].tasks { m := Since(states, events, i, j - 1, task); } else { m := j - 1; }
  }

  /** How a shutdown came to know that no task was active: state `i` had none, and step `j` left admission sealed.
      Either it is one step, or a drain of one attempt saw none at `i` and ended at `j`. */
  ghost predicate Window(states: seq<Runtime>, events: seq<Event>, i: nat, j: nat) {
    && i <= j < |events| && j + 1 < |states| && states[i].tasks == {} && !states[j + 1].accepting
    && (i < j ==> events[i].DrainSees? && events[j] == DrainEnds(true) && Active(states[i])
                  && states[i].stopPromise == states[j].stopPromise)
  }

  /** After such a window a task is active if and only if one admitted inside the window has not ended. */
  lemma OutlivesIff(states: seq<Runtime>, events: seq<Event>, i: nat, j: nat, k: nat)
    requires Run(states, events) && Window(states, events, i, j) && j < k < |states|
    ensures states[k].tasks != {} <==>
      exists m, task :: i < m < j && Admits(states, events, m, task) && task in states[k].tasks
  {
    SealedForGood(states, events, j + 1, k);
    if task :| task in states[k].tasks {
      var m := Since(states, events, i, j + 1, task);
      assert Leads(states[j], events[j], states[j + 1]);
      WindowEdges(states, events, i, j, m, task);
    }
  }

  lemma WindowEdges(states: seq<Runtime>, events: seq<Event>, i: nat, j: nat, m: nat, task: nat)
    requires Run(states, events) && Window(states, events, i, j) && i <= m <= j && Admits(states, events, m, task)
    ensures i < m < j
  {
    hide Shape, Enabled, Step;
    assert Leads(states[m], events[m], states[m + 1]);
    AdmissionStays(states[m]);
  }

  lemma AdmissionStays(s: Runtime)
    requires Shape(s)
    ensures Enabled(s, TaskStart) && Step(s, TaskStart).accepting == s.accepting
  {
    hide Shape;
  }

  // ---- Every shutdown that ends well goes through a window ----

  ghost predicate Past(stage: Stage) {
    || (stage.Group? && stage.step >= 6) || stage.Final? || stage == Ended(true)
    || (InDrain(stage) && stage.drain == Closed)
  }

  /** The runtime is stopped, a caller of `stop` has returned, or an attempt is past its drain. */
  ghost predicate Drained(s: Runtime) {
    || s.state == Stopped
    || (exists k :: 0 <= k < |s.callers| && s.callers[k].status.Returned?)
    || (exists a :: 0 <= a < |s.attempts| && Past(s.attempts[a].stage))
  }

  /** The drain of attempt `a` has seen no task. */
  ghost predicate Saw(s: Runtime, a: nat) {
    a < |s.attempts| && InDrain(s.attempts[a].stage) && s.attempts[a].stage.drain == Seen
  }

  /** What one step may do: get past a drain by seeing no task and sealing admission at once, or by the end of a
      drain that had seen none; and see none. */
  ghost predicate Gets(s: Runtime, e: Event, t: Runtime) {
    && (Drained(t) ==>
          || Drained(s) || (s.tasks == {} && !t.accepting)
          || (e == DrainEnds(true) && Active(s) && Saw(s, s.stopPromise.value)))
    && (forall a: nat :: Saw(t, a) ==> Saw(s, a) || (e == DrainSees && s.stopPromise == Some(a)))
  }

  /** Only attempt `i` changes, and if it gets past a drain it does so at once. */
  ghost predicate Enters(s: Runtime, t: Runtime, i: nat) {
    && i < |s.attempts| && |t.attempts| == |s.attempts| && t.callers == s.callers
    && (forall a :: 0 <= a < |s.attempts| && a != i ==> t.attempts[a] == s.attempts[a])
    && (Past(t.attempts[i].stage) || t.state == Stopped ==> Drained(s) || (s.tasks == {} && !t.accepting))
    && !Saw(t, i)
  }

  lemma EntersGets(s: Runtime, e: Event, t: Runtime, i: nat)
    requires Enters(s, t, i)
    ensures Gets(s, e, t)
  {
    hide Past, InDrain;
    if a :| 0 <= a < |t.attempts| && Past(t.attempts[a].stage) && a != i { assert Past(s.attempts[a].stage); }
  }

  lemma EnterStepGets(s: Runtime, i: nat, k: nat)
    requires i < |s.attempts| && PendingsOk(s.stops) && Known(s.parts, s.stops.started)
    requires k >= 6 ==> Drained(s)
    ensures Enters(s, EnterStep(s, i, k), i)
  {
    hide StopAll, BeginLine, Members, PendingsOk, Known;
  }

  lemma EndsGets(s: Runtime, e: Event, t: Runtime, i: nat)
    requires i < |s.attempts| && t == SetStage(s.(accepting := t.accepting), i, Ended(false))
    ensures Gets(s, e, t)
  {
    assert s.state == Stopped ==> Drained(s);
    EntersGets(s, e, t, i);
  }

  lemma BeginAttemptGets(s: Runtime, e: Event, ctx: nat)
    requires PendingsOk(s.stops) && Known(s.parts, s.stops.started)
    ensures Gets(s, e, BeginAttempt(s, ctx))
  {
    hide StopAll, BeginLine, Members, PendingsOk, Known;
    var i, t := |s.attempts|, BeginAttempt(s, ctx);
    assert |t.attempts| == i + 1 && !Past(t.attempts[i].stage) && !Saw(t, i);
    assert forall a :: 0 <= a < i ==> t.attempts[a] == s.attempts[a];
    hide Past, InDrain, BeginAttempt;
    if a :| 0 <= a < |t.attempts| && Past(t.attempts[a].stage) { assert Past(s.attempts[a].stage); }
  }

  /** Only the state and the callers change. */
  lemma CallersGets(s: Runtime, e: Event, t: Runtime)
    requires t.attempts == s.attempts
    requires t.state == s.state || t.state != Stopped || (s.tasks == {} && !t.accepting)
    requires forall k :: 0 <= k < |t.callers| && t.callers[k].status.Returned? ==>
      Drained(s) || (s.tasks == {} && !t.accepting)
    ensures Gets(s, e, t)
  {
    hide Past, InDrain;
    if a :| 0 <= a < |t.attempts| && Past(t.attempts[a].stage) { assert Past(s.attempts[a].stage); }
  }

  lemma JoinGets(s: Runtime, e: Event, k: nat)
    requires PendingsOk(s.stops) && Known(s.parts, s.stops.started) && k < |s.callers|
    ensures Gets(s, e, Join(s, k))
  {
    hide BeginAttempt, PendingsOk, Known, Past;
    if s.stopPromise.None? {
      var t := BeginAttempt(s, s.callers[k].ctx);
      BeginAttemptGets(s, e, s.callers[k].ctx);
      WakingGets(s, e, t, Join(s, k));
    } else {
      CallersGets(s, e, Join(s, k));
    }
  }

  /** Between `t` and `u` a caller begins to wait. */
  lemma WakingGets(s: Runtime, e: Event, t: Runtime, u: Runtime)
    requires Gets(s, e, t) && t.callers == s.callers && u == t.(callers := u.callers)
    requires forall k :: 0 <= k < |u.callers| && u.callers[k].status.Returned? ==>
      k < |t.callers| && t.callers[k].status.Returned?
    ensures Gets(s, e, u)
  {
    hide Past, InDrain;
    if a :| 0 <= a < |u.attempts| && Past(u.attempts[a].stage) { assert Past(t.attempts[a].stage); }
    forall a: nat | Saw(u, a) ensures Saw(t, a) {}
  }

  lemma StopCallGets(s: Runtime, e: Event, ctx: nat)
    requires PendingsOk(s.stops) && Known(s.parts, s.stops.started)
    ensures Gets(s, e, DoStopCall(s, ctx))
  {
    hide Join, PendingsOk, Known, Past;
    if NothingToStop(s) {
      CallersGets(s, e, DoStopCall(s, ctx));
    } else {
      var t := s.(callers := s.callers + [Caller(ctx, Threw)]);
      JoinGets(t, e, |s.callers|);
      NewCaller(s, e, t, DoStopCall(s, ctx));
    }
  }

  lemma NewCaller(s: Runtime, e: Event, t: Runtime, u: Runtime)
    requires Gets(t, e, u) && t == s.(callers := t.callers)
    requires forall k :: 0 <= k < |t.callers| && t.callers[k].status.Returned? ==>
      k < |s.callers| && s.callers[k].status.Returned?
    ensures Gets(s, e, u)
  {
    hide Past, InDrain;
    if a :| 0 <= a < |t.attempts| && Past(t.attempts[a].stage) { assert Past(s.attempts[a].stage); }
    forall a: nat | Saw(t, a) ensures Saw(s, a) {}
  }

  lemma CallerWakesGets(s: Runtime, k: nat, timedOut: bool)
    requires PendingsOk(s.stops) && Known(s.parts, s.stops.started) && Enabled(s, CallerWakes(k, timedOut))
    ensures Gets(s, CallerWakes(k, timedOut), DoCallerWakes(s, k, timedOut))
  {
    hide Join, PendingsOk, Known;
    var stage := s.attempts[s.callers[k].status.attempt].stage;
    if stage == Ended(true) { assert Past(stage); }
    if !timedOut && stage != Ended(true) && s.callers[k].ctx !in s.expired && !s.callers[k].status.owns {
      JoinGets(s, CallerWakes(k, timedOut), k);
    } else {
      CallersGets(s, CallerWakes(k, timedOut), DoCallerWakes(s, k, timedOut));
    }
  }

  lemma GroupEndsGets(s: Runtime, i: nat)
    requires PendingsOk(s.stops) && Known(s.parts, s.stops.started)
    requires i < |s.attempts| && s.attempts[i].stage.Group? && s.attempts[i].stage.step != 5
    ensures Gets(s, Proceeds, GroupEnds(s, i))
  {
    hide EnterStep, PendingsOk, Known;
    var Group(k, waits) := s.attempts[i].stage;
    if AllFulfilled(waits) {
      assert k >= 6 ==> Past(s.attempts[i].stage);
      EnterStepGets(s, i, k + 1);
      EntersGets(s, Proceeds, GroupEnds(s, i), i);
    } else {
      EndsGets(s, Proceeds, GroupEnds(s, i), i);
    }
  }

  lemma RollingGets(s: Runtime, i: nat)
    requires PendingsOk(s.stops) && i < |s.attempts| && s.attempts[i].stage.Rolling?
    ensures Gets(s, Proceeds, RollingProceeds(s, i))
  {
    hide BeginLine, PendingsOk, Known;
    assert s.state == Stopped ==> Drained(s);
    EntersGets(s, Proceeds, RollingProceeds(s, i), i);
  }

  lemma FinalGets(s: Runtime, i: nat)
    requires PendingsOk(s.stops) && i < |s.attempts| && s.attempts[i].stage.Final?
    ensures Gets(s, Proceeds, FinalProceeds(s, i))
  {
    hide BeginLine, PendingsOk, Known;
    assert Past(s.attempts[i].stage);
    EntersGets(s, Proceeds, FinalProceeds(s, i), i);
  }

  lemma DrainSeesGets(s: Runtime, i: nat)
    requires i < |s.attempts| && s.stopPromise == Some(i)
    ensures Gets(s, DrainSees, DoDrainSees(s, i))
  {
    var t := DoDrainSees(s, i);
    assert forall a :: 0 <= a < |s.attempts| && a != i ==> t.attempts[a] == s.attempts[a];
    assert Past(t.attempts[i].stage) ==> Past(s.attempts[i].stage);
    hide Past, InDrain, DoDrainSees;
    if a :| 0 <= a < |t.attempts| && Past(t.attempts[a].stage) { assert Past(s.attempts[a].stage); }
  }

  lemma DrainEndsGets(s: Runtime, i: nat, ok: bool)
    requires PendingsOk(s.stops) && Known(s.parts, s.stops.started)
    requires i < |s.attempts| && s.stopPromise == Some(i) && InDrain(s.attempts[i].stage)
    requires MayEnd(s.attempts[i].stage.drain, ok)
    ensures Gets(s, DrainEnds(ok), DoDrainEnds(s, i, ok))
  {
    hide EnterStep, PendingsOk, Known;
    var sealed, t := s.(accepting := false), DoDrainEnds(s, i, ok);
    if !ok {
      EndsGets(s, DrainEnds(ok), t, i);
    } else {
      assert s.attempts[i].stage.drain == Closed ==> Past(s.attempts[i].stage);
      assert Saw(s, i) || Drained(s);
      if s.attempts[i].stage.Draining? { EnterAfterDrain(sealed, i); }
      assert forall a :: 0 <= a < |s.attempts| && a != i ==> t.attempts[a] == s.attempts[a];
      assert !Saw(t, i);
    }
  }

  lemma EnterAfterDrain(s: Runtime, i: nat)
    requires PendingsOk(s.stops) && Known(s.parts, s.stops.started) && i < |s.attempts|
    ensures var t := EnterStep(s, i, 6);
      |t.attempts| == |s.attempts| && t.attempts[i].stage.Group?
      && forall a :: 0 <= a < |s.attempts| && a != i ==> t.attempts[a] == s.attempts[a]
  {
    hide StopAll, Members, PendingsOk, Known;
  }

  lemma StartupSeenGets(s: Runtime, i: nat, timedOut: bool)
    requires PendingsOk(s.stops) && Known(s.parts, s.stops.started) && i < |s.attempts|
    ensures Gets(s, StartupSeen(timedOut), DoStartupSeen(s, i, timedOut))
  {
    hide EnterStep, BeginLine, PendingsOk, Known;
    assert s.state == Stopped ==> Drained(s);
    if !timedOut && !s.rollbackPending { EnterStepGets(s, i, 1); }
    EntersGets(s, StartupSeen(timedOut), DoStartupSeen(s, i, timedOut), i);
  }

  lemma WaitResumesGets(s: Runtime, i: nat, c: nat)
    requires i < |s.attempts| && PendingsOk(s.stops) && StageShape(s.attempts[i].stage, s.stops.ops, s.parts)
    ensures Gets(s, WaitResumes(c), DoWaitResumes(s, i, c))
  {
    hide Resume, PendingsOk, StageShape;
    assert s.state == Stopped ==> Drained(s);
    var t := DoWaitResumes(s, i, c);
    assert Past(t.attempts[i].stage) ==> Past(s.attempts[i].stage);
    if t == s { CallersGets(s, WaitResumes(c), t); } else { EntersGets(s, WaitResumes(c), t, i); }
  }

  lemma StepGets(s: Runtime, e: Event)
    requires Inv(s) && Enabled(s, e)
    ensures Shape(s) && Gets(s, e, Step(s, e))
  {
    hide StartupOk, ModeOk, CallersOk, StateOk, PlanOk, StageOk, Gets, Shape;
    ShapeParts'(s);
    match e
    case StopCall(ctx) => StopCallGets(s, e, ctx);
    case CallerWakes(k, timedOut) => CallerWakesGets(s, k, timedOut);
    case StartupSeen(timedOut) => StartupSeenGets(s, s.stopPromise.value, timedOut);
    case WaitResumes(c) =>
      StageShaped(s, s.stopPromise.value);
      WaitResumesGets(s, s.stopPromise.value, c);
    case Proceeds =>
      GroupStep(s, s.stopPromise.value);
      match s.attempts[s.stopPromise.value].stage {
        case Group(_, _) => GroupEndsGets(s, s.stopPromise.value);
        case Rolling(_) => RollingGets(s, s.stopPromise.value);
        case Final(_) => FinalGets(s, s.stopPromise.value);
      }
    case DrainSees => DrainSeesGets(s, s.stopPromise.value);
    case DrainEnds(ok) => DrainEndsGets(s, s.stopPromise.value, ok);
    case _ => OthersGet(s, e);
  }

  lemma GroupStep(s: Runtime, i: nat)
    requires Inv(s) && i < |s.attempts|
    ensures s.attempts[i].stage.Group? ==> s.attempts[i].stage.step != 5
  {
    AttemptStage(s, i);
  }

  /** Events that leave attempts and callers alone. */
  lemma OthersGet(s: Runtime, e: Event)
    requires Inv(s) && Shape(s) && Enabled(s, e)
    requires !e.StopCall? && !e.CallerWakes? && !e.StartupSeen? && !e.WaitResumes? && !e.Proceeds?
    requires !e.DrainSees? && !e.DrainEnds?
    ensures Gets(s, e, Step(s, e))
  {
    hide Gets, ModeOk, AttemptsOk, CallersOk, StateOk, PlanOk, Plan, Starts, RollOk, StartupFails, DoStartupResumes;
    hide BeginLine, Settle;
    var t := Step(s, e);
    assert t.attempts == s.attempts && t.callers == s.callers;
    assert forall k :: 0 <= k < |s.callers| && s.callers[k].status.Returned? ==> Drained(s);
    CallersGets(s, e, t);
  }

  // ---- Over whole runs ----

  lemma {:induction false} SawSince(states: seq<Runtime>, events: seq<Event>, k: nat, a: nat) returns (i: nat)
    requires Run(states, events) && k < |states| && Saw(states[k], a)
    ensures i < k && events[i] == DrainSees && states[i].stopPromise == Some(a) && states[i].tasks == {}
    ensures Active(states[i])
  {
    hide Step, Shape, Inv, Saw;
    if k == 0 {
      NotAtFirst(states, events, a);
    } else {
      RunsKeepInv(states, events, k - 1);
      assert Leads(states[k - 1], events[k - 1], states[k]);
      StepGets(states[k - 1], events[k - 1]);
      if Saw(states[k - 1], a) { i := SawSince(states, events, k - 1, a); } else { i := k - 1; }
    }
  }

  lemma NotAtFirst(states: seq<Runtime>, events: seq<Event>, a: nat)
    requires Run(states, events)
    ensures !Drained(states[0]) && !Saw(states[0], a)
  {
    hide Step, Shape, Enabled;
  }

  /** A shutdown that ended well, in whatever way, went through a window. */
  lemma {:induction false} DrainedByWindow(states: seq<Runtime>, events: seq<Event>, k: nat) returns (i: nat, j: nat)
    requires Run(states, events) && k < |states| && Drained(states[k])
    ensures Window(states, events, i, j) && j < k
  {
    hide Step, Shape, Inv, Saw, Drained, Enabled;
    if k == 0 {
      NotAtFirst(states, events, 0);
    } else {
      var s, e, t := states[k - 1], events[k - 1], states[k];
      RunsKeepInv(states, events, k - 1);
      assert Leads(s, e, t);
      StepGets(s, e);
      if Drained(s) {
        i, j := DrainedByWindow(states, events, k - 1);
      } else if s.tasks == {} && !t.accepting {
        i, j := k - 1, k - 1;
      } else {
        j := k - 1;
        i := SawSince(states, events, k - 1, s.stopPromise.value);
        DrainSeals(s, e);
      }
    }
  }

  lemma DrainSeals(s: Runtime, e: Event)
    requires Shape(s) && Enabled(s, e) && e == DrainEnds(true)
    ensures !Step(s, e).accepting
  {
    hide EnterStep, Shape;
    ShapeParts(s);
  }

  /** From the moment the runtime is stopped, a caller of `stop` has returned or an attempt is past its drain, a task
      is active if and only if it was admitted between the sight of none and the seal of admission, and has not
      ended. */
  lemma StoppedTasks(states: seq<Runtime>, events: seq<Event>, k: nat, l: nat) returns (i: nat, j: nat)
    requires Run(states, events) && k <= l < |states| && Drained(states[k])
    ensures Window(states, events, i, j) && j < k
    ensures states[l].tasks != {} <==>
      exists m, task :: i < m < j && Admits(states, events, m, task) && task in states[l].tasks
  {
    hide Run, Drained, Window;
    i, j := DrainedByWindow(states, events, k);
    OutlivesIff(states, events, i, j, l);
  }

  lemma SettledStartup(s: Runtime, e: Event)
    requires Shape(s) && Enabled(s, e) && !StartupPending(s) && s.state != Created
    ensures Step(s, e).startup == s.startup && Step(s, e).state != Created
  {
    hide Shape, DoProceeds, DoCallerWakes, DoStopCall, DoWaitResumes, DoDrainEnds, DoStartupSeen, DoDrainSees, Plan;
  }

  lemma {:induction false} StartupSettled(states: seq<Runtime>, events: seq<Event>, i: nat, j: nat)
    requires Run(states, events) && i <= j < |states| && !StartupPending(states[i]) && states[i].state != Created
    ensures states[j].startup == states[i].startup && states[j].state != Created
  {
    hide Step, Shape, Enabled;
    if i < j {
      StartupSettled(states, events, i, j - 1);
      assert Leads(states[j - 1], events[j - 1], states[j]);
      SettledStartup(states[j - 1], events[j - 1]);
    }
  }

  lemma DrainIsOrdinary(s: Runtime)
    requires Inv(s) && Active(s) && InDrain(Current(s).stage)
    ensures !StartupPending(s) && s.state != Created && (Failing(s) ==> !s.accepting)
  {
    AttemptStage(s, s.stopPromise.value);
  }

  /** After a failed startup no task outlives the shutdown: admission was sealed before any drain looked. */
  lemma FailedLeavesNone(states: seq<Runtime>, events: seq<Event>, k: nat, l: nat)
    requires Run(states, events) && k <= l < |states| && Drained(states[k]) && Failing(states[k])
    ensures states[l].tasks == {}
  {
    hide Run, Inv, Drained, Step, Shape;
    var i, j := StoppedTasks(states, events, k, l);
    if m, task :| i < m < j && Admits(states, events, m, task) && task in states[l].tasks {
      SawOrdinary(states, events, i);
      RunsKeepInv(states, events, i);
      DrainIsOrdinary(states[i]);
      StartupSettled(states, events, i, k);
      SealedForGood(states, events, i, m);
      assert false;
    }
  }

  lemma SawOrdinary(states: seq<Runtime>, events: seq<Event>, i: nat)
    requires Run(states, events) && i < |events| && events[i] == DrainSees
    ensures Active(states[i]) && InDrain(Current(states[i]).stage)
  {
    hide Step, Shape;
    assert Leads(states[i], events[i], states[i + 1]);
  }

  // ---- A task that outlives the shutdown ----

  lemma {:induction false} NothingPlanned(r: nat)
    requires r <= |START_ORDER|
    ensures PlanFrom([], true, r) == []
    decreases |START_ORDER| - r
  {
    if r < |START_ORDER| { NothingPlanned(r + 1); }
  }

  /** A runtime without components that runs, with the tasks `tasks`. */
  function Idling(tasks: set<nat>, nextTask: nat): Runtime {
    Runtime([], [], Stops([], map[], map[], []), Running, Over(false), false, {}, None, [], [], tasks, nextTask, true)
  }

  /** And that is being stopped. */
  function Halting(stage: Stage, tasks: set<nat>, nextTask: nat, accepting: bool): Runtime {
    Idling(tasks, nextTask).(state := Stopping, stopPromise := Some(0), attempts := [Attempt(1, stage)],
                             callers := [Caller(1, Waiting(0, true))], accepting := accepting)
  }

  lemma RunBegins(s: Runtime)
    requires s == Initial([]).(state := Starting, startup := Building)
    ensures Leads(Initial([]), Begin(true), s) && Leads(s, BuildEnds(true), Idling({}, 0))
  {
    hide PlanFrom, DoProceeds, DoCallerWakes, DoStopCall, DoWaitResumes, DoStartupSeen, DoDrainEnds, DoDrainSees,
         StopAll, StartupFails, DoStartupProceeds, DoStartupResumes, DoLaunchEnds;
    NothingPlanned(0);
  }

  lemma TaskBegins()
    ensures Leads(Idling({}, 0), TaskStart, Idling({0}, 1))
  {
    hide Plan, DoProceeds, DoCallerWakes, DoStopCall, DoWaitResumes, DoStartupSeen, DoDrainEnds, DoDrainSees, StopAll,
         StartupFails, DoStartupProceeds, DoStartupResumes, DoLaunchEnds, DoBuildEnds;
  }

  lemma HaltBegins()
    ensures Leads(Idling({0}, 1), StopCall(1), Halting(Group(1, map[]), {0}, 1, true))
  {
    assert Members([], [], 1) == [];
  }

  lemma HaltShape(stage: Stage, tasks: set<nat>, nextTask: nat, accepting: bool)
    requires StageShape(stage, [], [])
    ensures var s := Halting(stage, tasks, nextTask, accepting);
      Shape(s) && PendingsOk(s.stops) && Known(s.parts, s.stops.started)
  {}

  lemma HaltStep(k: nat, tasks: set<nat>, nextTask: nat, accepting: bool)
    requires k in {1, 2, 3, 6}
    ensures Leads(Halting(Group(k, map[]), tasks, nextTask, accepting), Proceeds,
                  Halting(Group(k + 1, map[]), tasks, nextTask, accepting))
  {
    hide Shape, Plan, DoCallerWakes, DoStopCall, DoWaitResumes, DoStartupSeen, DoStartupProceeds, DoStartupResumes,
         DoBuildEnds, DoLaunchEnds, RollingProceeds, FinalProceeds, DoDrainEnds, DoDrainSees, BeginLine;
    HaltShape(Group(k, map[]), tasks, nextTask, accepting);
    assert Members([], [], k + 1) == [];
  }

  lemma HaltDrains()
    ensures Leads(Halting(Group(4, map[]), {0}, 1, true), Proceeds, Halting(Draining(Busy), {0}, 1, true))
  {
    hide Shape, Plan, DoCallerWakes, DoStopCall, DoWaitResumes, DoStartupSeen, DoStartupProceeds, DoStartupResumes,
         DoBuildEnds, DoLaunchEnds, RollingProceeds, FinalProceeds, DoDrainEnds, DoDrainSees, BeginLine, StopAll;
    HaltShape(Group(4, map[]), {0}, 1, true);
  }

  lemma HaltTaskEnds()
    ensures Leads(Halting(Draining(Busy), {0}, 1, true), TaskEnd(0), Halting(Draining(Busy), {}, 1, true))
  {
    hide Shape, Plan, DoCallerWakes, DoStopCall, DoWaitResumes, DoStartupSeen, DoStartupProceeds, DoStartupResumes,
         DoBuildEnds, DoLaunchEnds, RollingProceeds, DoProceeds, DoDrainEnds, DoDrainSees;
    HaltShape(Draining(Busy), {0}, 1, true);
  }

  lemma HaltSees()
    ensures Leads(Halting(Draining(Busy), {}, 1, true), DrainSees, Halting(Draining(Seen), {}, 1, true))
    ensures Leads(Halting(Draining(Seen), {}, 1, true), TaskStart, Halting(Draining(Seen), {1}, 2, true))
  {
    hide Shape, Plan, DoCallerWakes, DoStopCall, DoWaitResumes, DoStartupSeen, DoStartupProceeds, DoStartupResumes,
         DoBuildEnds, DoLaunchEnds, RollingProceeds, DoProceeds, DoDrainEnds;
    HaltShape(Draining(Busy), {}, 1, true);
    HaltShape(Draining(Seen), {}, 1, true);
  }

  lemma HaltSeals()
    ensures Leads(Halting(Draining(Seen), {1}, 2, true), DrainEnds(true), Halting(Group(6, map[]), {1}, 2, false))
  {
    hide Shape, Plan, DoCallerWakes, DoStopCall, DoWaitResumes, DoStartupSeen, DoStartupProceeds, DoStartupResumes,
         DoBuildEnds, DoLaunchEnds, RollingProceeds, DoProceeds, DoDrainSees, BeginLine;
    HaltShape(Draining(Seen), {1}, 2, true);
    assert Members([], [], 6) == [];
  }

  lemma HaltComesToEnd()
    ensures Leads(Halting(Group(7, map[]), {1}, 2, false), Proceeds, Halting(Final(Line([], Fulfilled)), {1}, 2, false))
  {
    hide Shape, Plan, DoCallerWakes, DoStopCall, DoWaitResumes, DoStartupSeen, DoStartupProceeds, DoStartupResumes,
         DoBuildEnds, DoLaunchEnds, RollingProceeds, FinalProceeds, DoDrainEnds, DoDrainSees, StopAll;
    HaltShape(Group(7, map[]), {1}, 2, false);
    assert Members([], [], 8) == [];
  }

  lemma HaltEnds(s: Runtime, t: Runtime)
    requires s == Halting(Ended(true), {1}, 2, false).(state := Stopped)
    requires t == s.(callers := [Caller(1, Returned)])
    ensures Leads(Halting(Final(Line([], Fulfilled)), {1}, 2, false), Proceeds, s)
    ensures Leads(s, CallerWakes(0, false), t)
  {
    hide Plan, DoStopCall, DoWaitResumes, DoStartupSeen, DoDrainEnds, DoDrainSees, StopAll, BeginLine, Join,
         StartupFails, DoStartupProceeds, DoStartupResumes, DoLaunchEnds, DoBuildEnds;
  }

  /** So a task can outlive the shutdown of a runtime that ran: the runtime is stopped, the caller of `stop` has
      returned, and the task admitted after the drain had seen none is active. */
  lemma TaskOutlives() returns (states: seq<Runtime>, events: seq<Event>)
    ensures Run(states, events)
    ensures var s := states[|events|];
      s.state == Stopped && |s.callers| == 1 && s.callers[0].status.Returned? && s.tasks == {1}
  {
    hide Leads, Halting, Idling;
    var building := Initial([]).(state := Starting, startup := Building);
    var stopped := Halting(Ended(true), {1}, 2, false).(state := Stopped);
    var returned := stopped.(callers := [Caller(1, Returned)]);
    RunBegins(building);
    TaskBegins();
    HaltBegins();
    HaltStep(1, {0}, 1, true);
    HaltStep(2, {0}, 1, true);
    HaltStep(3, {0}, 1, true);
    HaltDrains();
    HaltTaskEnds();
    HaltSees();
    HaltSeals();
    HaltStep(6, {1}, 2, false);
    HaltComesToEnd();
    HaltEnds(stopped, returned);
    states := [Initial([]), building, Idling({}, 0), Idling({0}, 1), Halting(Group(1, map[]), {0}, 1, true),
               Halting(Group(2, map[]), {0}, 1, true), Halting(Group(3, map[]), {0}, 1, true),
               Halting(Group(4, map[]), {0}, 1, true), Halting(Draining(Busy), {0}, 1, true),
               Halting(Draining(Busy), {}, 1, true), Halting(Draining(Seen), {}, 1, true),
               Halting(Draining(Seen), {1}, 2, true), Halting(Group(6, map[]), {1}, 2, false),
               Halting(Group(7, map[]), {1}, 2, false), Halting(Final(Line([], Fulfilled)), {1}, 2, false),
               stopped, returned];
    events := [Begin(true), BuildEnds(true), TaskStart, StopCall(1), Proceeds, Proceeds, Proceeds, Proceeds, TaskEnd(0),
               DrainSees, TaskStart, DrainEnds(true), Proceeds, Proceeds, Proceeds, CallerWakes(0, false)];
    HaltTasks();
  }

  lemma HaltTasks()
    ensures Halting(Ended(true), {1}, 2, false).tasks == {1}
  {}
}
