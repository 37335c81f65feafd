/** What every step of the runtime's lifecycle leads to, told field by field over the runs: for a caller of `stop`, for
    an attempt, for the startup and for the component stops they wait for. */
module ServiceOutcomes {
  import opened Base
  import opened ServicePlan
  import opened ServiceStops
  import opened ServiceRuntime
  import opened ServiceRuns
  import opened ServiceTheorems

  /** State `i` of a run, the event after it, and where that leads. */
  lemma At(states: seq<Runtime>, events: seq<Event>, i: nat)
    requires Run(states, events) && i < |events|
    ensures Inv(states[i]) && Shape(states[i]) && Enabled(states[i], events[i])
    ensures states[i + 1] == Step(states[i], events[i])
    ensures PendingsOk(states[i].stops) && Known(states[i].parts, states[i].stops.started)
  {
    hide Inv, Step, Enabled, Shape, PendingsOk, Known;
    RunsKeepInv(states, events, i);
    assert Leads(states[i], events[i], states[i + 1]);
    ShapeParts(states[i]);
  }

  // ---- Callers of `stop` ----

  /** A caller waits: for the attempt under way, or for one of its own, under its own context. */
  ghost predicate WaitsAgain(s: Runtime, t: Runtime, caller: Caller, after: Status) {
    match s.stopPromise
    case Some(a) => after == Waiting(a, false) && t.attempts == s.attempts && t.stopPromise == s.stopPromise
    case None =>
      && after == Waiting(|s.attempts|, true) && t.stopPromise == Some(|s.attempts|)
      && |t.attempts| == |s.attempts| + 1 && t.attempts[|s.attempts|].ctx == caller.ctx
      && t.attempts[..|s.attempts|] == s.attempts && t.state == Stopping
  }

  lemma JoinWaits(s: Runtime, k: nat)
    requires PendingsOk(s.stops) && Known(s.parts, s.stops.started) && k < |s.callers|
    ensures var t := Join(s, k);
      && |t.callers| == |s.callers| && t.callers == s.callers[k := s.callers[k].(status := t.callers[k].status)]
      && WaitsAgain(s, t, s.callers[k], t.callers[k].status)
  {
    hide StopAll, BeginLine, Members, PendingsOk, Known;
  }

  /** How a caller of `stop` fares when it wakes. */
  ghost predicate Wakes(s: Runtime, t: Runtime, caller: Caller, timedOut: bool, after: Status)
    requires caller.status.Waiting? && caller.status.attempt < |s.attempts|
  {
    var stage := s.attempts[caller.status.attempt].stage;
    if timedOut then caller.ctx in s.expired && after == Threw
    else
      && stage.Ended?
      && (after == Returned <==> stage.ok)
      && (after == Threw <==> !stage.ok && (caller.ctx in s.expired || caller.status.owns))
      && (after != Returned && after != Threw ==> WaitsAgain(s, t, caller, after))
  }

  lemma WakeStep(s: Runtime, k: nat, timedOut: bool)
    requires PendingsOk(s.stops) && Known(s.parts, s.stops.started) && Enabled(s, CallerWakes(k, timedOut))
    ensures var t := DoCallerWakes(s, k, timedOut);
      && |t.callers| == |s.callers| && t.callers == s.callers[k := s.callers[k].(status := t.callers[k].status)]
      && Wakes(s, t, s.callers[k], timedOut, t.callers[k].status)
  {
    hide Join, PendingsOk, Known;
    JoinWaits(s, k);
  }

  /** In every run: a caller that wakes from an attempt that ended returns if and only if the attempt ended well. If it
      failed the caller throws if and only if its own context has expired or it owned that attempt. Otherwise it waits
      again, for the attempt callers would join or for one of its own under its own context. A caller that wakes from
      its deadline throws. */
  lemma CallerWoken(states: seq<Runtime>, events: seq<Event>, i: nat, k: nat, timedOut: bool)
    requires Run(states, events) && i < |events| && events[i] == CallerWakes(k, timedOut)
    ensures var s, t := states[i], states[i + 1];
      && k < |s.callers| && s.callers[k].status.Waiting? && s.callers[k].status.attempt < |s.attempts|
      && |t.callers| == |s.callers| && t.callers == s.callers[k := s.callers[k].(status := t.callers[k].status)]
      && Wakes(s, t, s.callers[k], timedOut, t.callers[k].status)
  {
    hide Inv, Shape, Wakes, DoCallerWakes, Known, PendingsOk;
    At(states, events, i);
    WakeStep(states[i], k, timedOut);
  }

  lemma StopCallStep(s: Runtime, ctx: nat)
    requires PendingsOk(s.stops) && Known(s.parts, s.stops.started)
    ensures var t, n := DoStopCall(s, ctx), |s.callers|;
      && |t.callers| == n + 1 && t.callers[..n] == s.callers && t.callers[n].ctx == ctx
      && if !StartupPending(s) && s.stops.started == [] && s.tasks == {} then
           t.callers[n].status == Returned && t.state == Stopped && !t.accepting && t.attempts == s.attempts
         else WaitsAgain(s, t, t.callers[n], t.callers[n].status)
  {
    hide Join, PendingsOk, Known;
    if !NothingToStop(s) { JoinWaits(s.(callers := s.callers + [Caller(ctx, Threw)]), |s.callers|); }
  }

  /** In every run a call of `stop` returns at once if no startup is pending, nothing is started and no task is active,
      and waits otherwise. */
  lemma StopCalled(states: seq<Runtime>, events: seq<Event>, i: nat, ctx: nat)
    requires Run(states, events) && i < |events| && events[i] == StopCall(ctx)
    ensures var s, t, n := states[i], states[i + 1], |states[i].callers|;
      && |t.callers| == n + 1 && t.callers[..n] == s.callers && t.callers[n].ctx == ctx
      && if !StartupPending(s) && s.stops.started == [] && s.tasks == {} then
           t.callers[n].status == Returned && t.state == Stopped && !t.accepting && t.attempts == s.attempts
         else WaitsAgain(s, t, t.callers[n], t.callers[n].status)
  {
    hide Inv, Shape, WaitsAgain, DoStopCall, Known, PendingsOk;
    At(states, events, i);
    StopCallStep(states[i], ctx);
  }

  lemma OthersLeaveCallers(s: Runtime, e: Event)
    requires Shape(s) && Enabled(s, e) && !e.StopCall? && !e.CallerWakes?
    ensures Step(s, e).callers == s.callers
  {
    hide Shape, DoProceeds, DoWaitResumes, DoDrainEnds, DoStartupSeen, DoDrainSees, DoStartupProceeds, DoStartupResumes,
         StartupFails, Plan;
  }

  /** A caller that threw was out of time, or owned an attempt that failed; and admission is sealed. */
  ghost predicate Excused(s: Runtime, k: nat)
    requires k < |s.callers|
  {
    match s.callers[k].status
    case Waiting(a, owns) => a < |s.attempts| && (owns ==> s.attempts[a].ctx == s.callers[k].ctx)
    case Returned => true
    case Threw =>
      && !s.accepting
      && (s.callers[k].ctx in s.expired || Attempt(s.callers[k].ctx, Ended(false)) in s.attempts)
  }

  /** What attempts and contexts never take back. */
  ghost predicate Keeps(s: Runtime, t: Runtime) {
    && s.expired <= t.expired && (t.accepting ==> s.accepting) && |s.attempts| <= |t.attempts|
    && (forall a :: 0 <= a < |s.attempts| ==>
          t.attempts[a].ctx == s.attempts[a].ctx && (s.attempts[a].stage.Ended? ==> t.attempts[a] == s.attempts[a]))
  }

  /** The event is a step of the attempt under way. */
  predicate OfAttempt(e: Event) {
    e.StartupSeen? || e.WaitResumes? || e.Proceeds? || e.DrainSees? || e.DrainEnds?
  }

  /** Of the attempts only the stage of attempt `i` changed. */
  ghost predicate OnlyStage(s: Runtime, t: Runtime, i: nat) {
    && i < |s.attempts| && |t.attempts| == |s.attempts|
    && t.attempts == s.attempts[i := s.attempts[i].(stage := t.attempts[i].stage)]
  }

  lemma EnterOnlyStage(s: Runtime, i: nat, k: nat)
    requires i < |s.attempts| && PendingsOk(s.stops) && Known(s.parts, s.stops.started)
    ensures OnlyStage(s, EnterStep(s, i, k), i)
  {
    hide StopAll, BeginLine, Members, PendingsOk, Known;
  }

  lemma ProceedOnlyStage(s: Runtime, i: nat)
    requires i < |s.attempts| && PendingsOk(s.stops) && Known(s.parts, s.stops.started)
    requires s.attempts[i].stage.Group? || s.attempts[i].stage.Rolling? || s.attempts[i].stage.Final?
    ensures OnlyStage(s, DoProceeds(s, i), i)
  {
    hide EnterStep, BeginLine, PendingsOk, Known;
    if s.attempts[i].stage.Group? { EnterOnlyStage(s, i, s.attempts[i].stage.step + 1); }
  }

  lemma DrainOnlyStage(s: Runtime, i: nat, ok: bool)
    requires i < |s.attempts| && PendingsOk(s.stops) && Known(s.parts, s.stops.started)
    ensures OnlyStage(s, DoDrainEnds(s, i, ok), i) && OnlyStage(s, DoDrainSees(s, i), i)
  {
    hide EnterStep, PendingsOk, Known;
    EnterOnlyStage(s.(accepting := false), i, 6);
    assert s.attempts[i := s.attempts[i]] == s.attempts;
  }

  lemma SeenOnlyStage(s: Runtime, i: nat, timedOut: bool)
    requires i < |s.attempts| && PendingsOk(s.stops) && Known(s.parts, s.stops.started)
    ensures OnlyStage(s, DoStartupSeen(s, i, timedOut), i)
  {
    hide EnterStep, BeginLine, PendingsOk, Known;
    EnterOnlyStage(s, i, 1);
  }

  lemma WaitOnlyStage(s: Runtime, i: nat, c: nat)
    requires i < |s.attempts| && PendingsOk(s.stops) && StageShape(s.attempts[i].stage, s.stops.ops, s.parts)
    ensures OnlyStage(s, DoWaitResumes(s, i, c), i)
  {
    hide Resume, PendingsOk, StageShape;
    assert s.attempts[i := s.attempts[i]] == s.attempts;
  }

  lemma AttemptStep(s: Runtime, e: Event)
    requires Inv(s) && Shape(s) && PendingsOk(s.stops) && Known(s.parts, s.stops.started)
    requires Enabled(s, e) && OfAttempt(e)
    ensures Active(s) && !Current(s).stage.Ended? && OnlyStage(s, Step(s, e), s.stopPromise.value)
    ensures var t := Step(s, e); t.expired == s.expired && (t.accepting ==> s.accepting)
  {
    hide Inv, Shape, PendingsOk, Known, OnlyStage, DoProceeds, DoWaitResumes, DoDrainSees, DoDrainEnds, DoStartupSeen;
    var i := s.stopPromise.value;
    match e
    case StartupSeen(timedOut) => SeenOnlyStage(s, i, timedOut);
    case WaitResumes(c) =>
      StageShaped(s, i);
      WaitOnlyStage(s, i, c);
    case Proceeds => ProceedOnlyStage(s, i);
    case DrainSees => DrainOnlyStage(s, i, true);
    case DrainEnds(ok) => DrainOnlyStage(s, i, ok);
  }

  lemma CallersKeep(s: Runtime, e: Event)
    requires Shape(s) && PendingsOk(s.stops) && Known(s.parts, s.stops.started) && Enabled(s, e)
    requires e.StopCall? || e.CallerWakes?
    ensures var t := Step(s, e);
      && s.expired <= t.expired && (t.accepting ==> s.accepting)
      && |s.attempts| <= |t.attempts| && t.attempts[..|s.attempts|] == s.attempts
  {
    hide Shape, Join, PendingsOk, Known;
    if e.StopCall? {
      JoinWaits(s.(callers := s.callers + [Caller(e.ctx, Threw)]), |s.callers|);
    } else {
      JoinWaits(s, e.caller);
    }
  }

  lemma OthersLeaveAttempts(s: Runtime, e: Event)
    requires Shape(s) && Enabled(s, e) && !e.StopCall? && !e.CallerWakes? && !OfAttempt(e)
    ensures var t := Step(s, e);
      t.attempts == s.attempts && s.expired <= t.expired && (t.accepting ==> s.accepting)
  {
    hide Shape, DoStartupProceeds, DoStartupResumes, StartupFails, Plan;
  }

  lemma AttemptsKept(s: Runtime, e: Event)
    requires Inv(s) && Shape(s) && PendingsOk(s.stops) && Known(s.parts, s.stops.started) && Enabled(s, e)
    ensures Keeps(s, Step(s, e))
  {
    hide Inv, Shape, PendingsOk, Known, Step, Enabled;
    var t := Step(s, e);
    if OfAttempt(e) {
      AttemptStep(s, e);
    } else if e.StopCall? || e.CallerWakes? {
      CallersKeep(s, e);
      assert forall a :: 0 <= a < |s.attempts| ==> t.attempts[a] == t.attempts[..|s.attempts|][a];
    } else {
      OthersLeaveAttempts(s, e);
    }
  }

  lemma StaysExcused(s: Runtime, t: Runtime, k: nat)
    requires k < |s.callers| && k < |t.callers| && t.callers[k] == s.callers[k] && Excused(s, k) && Keeps(s, t)
    ensures Excused(t, k)
  {
    if s.callers[k].status.Threw? && Attempt(s.callers[k].ctx, Ended(false)) in s.attempts {
      var a :| 0 <= a < |s.attempts| && s.attempts[a] == Attempt(s.callers[k].ctx, Ended(false));
      assert t.attempts[a] == s.attempts[a];
    }
  }

  lemma WakesExcused(s: Runtime, k: nat, timedOut: bool)
    requires PendingsOk(s.stops) && Known(s.parts, s.stops.started)
    requires s.stopPromise.Some? ==> s.stopPromise.value < |s.attempts|
    requires Enabled(s, CallerWakes(k, timedOut)) && Excused(s, k) && Keeps(s, DoCallerWakes(s, k, timedOut))
    ensures var t := DoCallerWakes(s, k, timedOut); k < |t.callers| && Excused(t, k)
  {
    hide Join, PendingsOk, Known;
    WakeStep(s, k, timedOut);
    var caller := s.callers[k];
    var a := caller.status.attempt;
    var t := DoCallerWakes(s, k, timedOut);
    assert !timedOut ==> t.attempts[a] == s.attempts[a];
    assert !timedOut && caller.status.owns && s.attempts[a].stage == Ended(false) ==>
      t.attempts[a] == Attempt(caller.ctx, Ended(false));
    assert t.callers[k].status == Threw ==> !t.accepting;
  }

  /** In every run a caller of `stop` has thrown only if its own context expired, or an attempt it owned, under its own
      context, failed: never for the expiry of another one. And then admission is sealed. */
  lemma {:induction false} ThrewForItself(states: seq<Runtime>, events: seq<Event>, i: nat, k: nat)
    requires Run(states, events) && i < |states| && k < |states[i].callers|
    ensures Excused(states[i], k)
  {
    hide Inv, Step, Enabled, Shape, Excused, Keeps, PendingsOk, Known;
    var s, e, t := states[i - 1], events[i - 1], states[i];
    At(states, events, i - 1);
    AttemptsKept(s, e);
    if k < |s.callers| { ThrewForItself(states, events, i - 1, k); }
    ExcusedStep(s, e, k);
  }

  lemma ExcusedStep(s: Runtime, e: Event, k: nat)
    requires Inv(s) && Shape(s) && PendingsOk(s.stops) && Known(s.parts, s.stops.started) && Enabled(s, e)
    requires Keeps(s, Step(s, e)) && k < |Step(s, e).callers| && (k < |s.callers| ==> Excused(s, k))
    ensures Excused(Step(s, e), k)
  {
    hide Inv, Shape, Excused, Keeps, PendingsOk, Known, DoStopCall, DoCallerWakes, WaitsAgain, Wakes;
    var t := Step(s, e);
    if e.StopCall? {
      StopCallStep(s, e.ctx);
      if k < |s.callers| {
        assert t.callers[k] == t.callers[..|s.callers|][k];
        StaysExcused(s, t, k);
      } else {
        NewExcused(s, t, k);
      }
    } else if e.CallerWakes? {
      WakeStep(s, e.caller, e.timedOut);
      PromiseShaped(s);
      if e.caller == k { WakesExcused(s, k, e.timedOut); } else { StaysExcused(s, t, k); }
    } else {
      OthersLeaveCallers(s, e);
      StaysExcused(s, t, k);
    }
  }

  lemma PromiseShaped(s: Runtime)
    requires Shape(s)
    ensures s.stopPromise.Some? ==> s.stopPromise.value < |s.attempts|
  {}

  lemma NewExcused(s: Runtime, t: Runtime, k: nat)
    requires k < |t.callers| && Shape(s)
    requires t.callers[k].status == Returned || WaitsAgain(s, t, t.callers[k], t.callers[k].status)
    ensures Excused(t, k)
  {}

  // ---- Stops that are asked for ----

  /** The stop of a component is asked for: the wait is for the pending call, if there is one, or for a new one made
      under this context. It counts as joined if the call was made under another context. */
  ghost predicate Asks(s: Stops, t: Stops, c: nat, ctx: nat, admission: bool, w: Wait) {
    && c in t.Pending(admission) && t.Pending(admission)[c] < |t.ops|
    && var o := t.Pending(admission)[c];
       && w == OnOp(o, t.ops[o].ctx != ctx)
       && if c in s.Pending(admission) then o == s.Pending(admission)[c]
          else o >= |s.ops| && t.ops[o] == Op(c, admission, ctx, InFlight, s.started)
  }

  /** What was called before is as it was, what is started too, and new calls are of components of `asked`. */
  ghost predicate Grows(s: Stops, t: Stops, asked: set<nat>) {
    && t.started == s.started && |s.ops| <= |t.ops| && t.ops[..|s.ops|] == s.ops
    && (forall o :: |s.ops| <= o < |t.ops| ==> t.ops[o].part in asked)
    && (forall c, admission :: c !in asked ==>
          (c in t.Pending(admission) <==> c in s.Pending(admission))
          && (c in s.Pending(admission) ==> t.Pending(admission)[c] == s.Pending(admission)[c]))
  }

  lemma StopAsks(s: Stops, c: nat, ctx: nat, admission: bool)
    requires PendingsOk(s)
    ensures var (t, w) := StopComponent(s, c, ctx, admission); Asks(s, t, c, ctx, admission, w) && Grows(s, t, {c})
  {}

  lemma GrowsOn(s: Stops, t: Stops, u: Stops, a: set<nat>, b: set<nat>)
    requires Grows(s, t, a) && Grows(t, u, b)
    ensures Grows(s, u, a + b)
  {
    assert u.ops[..|s.ops|] == u.ops[..|t.ops|][..|s.ops|];
    forall o | |s.ops| <= o < |u.ops| ensures u.ops[o].part in a + b {
      if o < |t.ops| { assert u.ops[o] == u.ops[..|t.ops|][o]; }
    }
  }

  lemma AsksKept(s: Stops, t: Stops, u: Stops, c: nat, ctx: nat, admission: bool, w: Wait, asked: set<nat>)
    requires Asks(s, t, c, ctx, admission, w) && Grows(t, u, asked) && c !in asked
    ensures Asks(s, u, c, ctx, admission, w)
  {
    var o := t.Pending(admission)[c];
    assert u.ops[o] == u.ops[..|t.ops|][o];
  }

  lemma AsksBefore(s: Stops, t: Stops, u: Stops, c: nat, ctx: nat, admission: bool, w: Wait, asked: set<nat>)
    requires Grows(s, t, asked) && c !in asked && Asks(t, u, c, ctx, admission, w)
    ensures Asks(s, u, c, ctx, admission, w)
  {}

  lemma StopAllUnfolds(s: Stops, list: seq<nat>, parts: seq<Part>, k: nat, ctx: nat)
    requires PendingsOk(s) && Known(parts, list)
    ensures list == [] ==> StopAll(s, list, parts, k, ctx) == (s, map[])
    ensures list != [] ==>
      var last, rest := list[|list| - 1], list[..|list| - 1];
      var (t, w) := StopComponent(s, last, ctx, AdmissionOnly(parts[last], k));
      Known(parts, rest)
      && var (u, waits) := StopAll(t, rest, parts, k, ctx);
         StopAll(s, list, parts, k, ctx) == (u, waits[last := w])
  {
    hide StopComponent, PendingOk, StageShape;
  }

  lemma {:induction false} AllAsked(s: Stops, list: seq<nat>, parts: seq<Part>, k: nat, ctx: nat)
    requires PendingsOk(s) && Known(parts, list) && Distinct(list)
    ensures var (t, waits) := StopAll(s, list, parts, k, ctx);
      && Grows(s, t, ToSet(list))
      && forall c <- waits :: c < |parts| && Asks(s, t, c, ctx, AdmissionOnly(parts[c], k), waits[c])
    decreases |list|
  {
    hide StopComponent, Asks, Grows, PendingsOk, StageShape, AdmissionOnly, StopAll;
    StopAllUnfolds(s, list, parts, k, ctx);
    if list == [] {
      NothingGrows(s);
      assert ToSet(list) == {};
    } else {
      var n := |list| - 1;
      var last, rest := list[n], list[..n];
      assert list == rest + [last];
      var (t, w) := StopComponent(s, last, ctx, AdmissionOnly(parts[last], k));
      var (u, waits) := StopAll(t, rest, parts, k, ctx);
      StopAsks(s, last, ctx, AdmissionOnly(parts[last], k));
      AllAsked(t, rest, parts, k, ctx);
      GrowsOn(s, t, u, {last}, ToSet(rest));
      assert {last} + ToSet(rest) == ToSet(list) && last !in rest;
      AsksKept(s, t, u, last, ctx, AdmissionOnly(parts[last], k), w, ToSet(rest));
      forall c <- waits ensures c < |parts| && Asks(s, u, c, ctx, AdmissionOnly(parts[c], k), waits[c]) {
        AsksBefore(s, t, u, c, ctx, AdmissionOnly(parts[c], k), waits[c], {last});
      }
    }
  }

  lemma NothingGrows(s: Stops)
    ensures Grows(s, s, {})
  {}

  /** The components of a list are stopped one by one from its end: the last one is asked for first. */
  ghost predicate LineBegins(s: Stops, t: Stops, todo: seq<nat>, ctx: nat, line: Line) {
    && line.todo == todo
    && if todo == [] then line.wait == Fulfilled && t == s
       else Asks(s, t, Last(todo), ctx, false, line.wait) && Grows(s, t, {Last(todo)})
  }

  lemma LineAsks(s: Stops, todo: seq<nat>, ctx: nat)
    requires PendingsOk(s)
    ensures var (t, line) := BeginLine(s, todo, ctx); LineBegins(s, t, todo, ctx, line)
  {
    hide StopComponent, Asks, Grows, PendingOk;
    if todo != [] { StopAsks(s, Last(todo), ctx, false); }
  }

  /** What a wait comes to when the call it is for has settled: an answer, or, where only the caller that made the call
      ran out of time, the same stop asked for again. */
  ghost predicate Answers(s: Stops, t: Stops, w: Wait, ctx: nat, expired: set<nat>, v: Wait)
    requires w.OnOp? && w.op < |s.ops|
  {
    var op := s.ops[w.op];
    match op.outcome
    case InFlight => v == w && t == s
    case Succeeded => v == Fulfilled && t == s
    case Failed(cancellation) =>
      if w.joined && cancellation && op.ctx in expired && ctx !in expired then
        Asks(s, t, op.part, ctx, op.admission, v) && Grows(s, t, {op.part})
      else v == Rejected && t == s
  }

  lemma ResumeAnswers(s: Stops, w: Wait, ctx: nat, expired: set<nat>)
    requires PendingsOk(s) && w.OnOp? && w.op < |s.ops|
    ensures var (t, v) := Resume(s, w, ctx, expired); Answers(s, t, w, ctx, expired, v)
  {
    hide StopComponent, Asks, Grows, PendingOk;
    StopAsks(s, s.ops[w.op].part, ctx, s.ops[w.op].admission);
  }

  // ---- The stages of an attempt ----

  /** The components of the k-th step: the admission of producers, or their stop where they have none; producers; the
      admission or the stop of connectors; storages and pools; sinks; connectors; telemetry. */
  predicate Concerned(part: Part, k: nat) {
    match part.category
    case Connector => k == 3 || k == 7
    case DataSink => k == 6
    case Telemetry => k == 8
    case _ => if part.category in PRODUCERS then k == 1 || (k == 2 && part.hasAdmission) else k == 4
  }

  lemma InStepConcerned(part: Part, k: nat)
    ensures InStep(part, k) <==> Concerned(part, k)
    ensures AdmissionOnly(part, k) <==> part.hasAdmission && (k == 1 || k == 3)
  {}

  /** The stop of every started component the step concerns is asked for, or of its admission. */
  ghost predicate GroupBegun(s: Runtime, t: Runtime, k: nat, ctx: nat, waits: map<nat, Wait>) {
    && Grows(s.stops, t.stops, waits.Keys)
    && (forall c :: c in waits <==> c in s.stops.started && c < |s.parts| && Concerned(s.parts[c], k))
    && (forall c <- waits ::
          Asks(s.stops, t.stops, c, ctx, s.parts[c].hasAdmission && (k == 1 || k == 3), waits[c]))
  }

  /** A step of the ordinary path begins. */
  ghost predicate StepBegun(s: Runtime, t: Runtime, k: nat, ctx: nat, stage: Stage) {
    if k == 5 then
      && stage == Draining(if s.tasks == {} then Closed else Busy) && t.stops == s.stops
      && (t.accepting <==> s.accepting && s.tasks != {})
    else
      && t.accepting == s.accepting
      && if k == 8 then
           stage.Final? && Known(s.parts, s.stops.started)
           && LineBegins(s.stops, t.stops, Members(s.stops.started, s.parts, 8), ctx, stage.line)
         else stage.Group? && stage.step == k && GroupBegun(s, t, k, ctx, stage.waits)
  }

  lemma KnownPart(parts: seq<Part>, list: seq<nat>, c: nat)
    requires Known(parts, list) && c in list
    ensures c < |parts|
  {}

  lemma GroupBegins(s: Runtime, t: Runtime, k: nat, ctx: nat)
    requires PendingsOk(s.stops) && Known(s.parts, s.stops.started) && Distinct(s.stops.started)
    requires t.stops == StopAll(s.stops, Members(s.stops.started, s.parts, k), s.parts, k, ctx).0
    ensures GroupBegun(s, t, k, ctx, StopAll(s.stops, Members(s.stops.started, s.parts, k), s.parts, k, ctx).1)
  {
    hide StopAll, PendingOk, StageShape, Asks, Grows, InStep, AdmissionOnly, Known, Concerned;
    var list := Members(s.stops.started, s.parts, k);
    AllAsked(s.stops, list, s.parts, k, ctx);
    var waits := StopAll(s.stops, list, s.parts, k, ctx).1;
    assert waits.Keys == ToSet(list);
    forall c | c in s.stops.started ensures c < |s.parts| { KnownPart(s.parts, s.stops.started, c); }
    assert Grows(s.stops, t.stops, waits.Keys);
    assert forall c :: c in waits <==> c in list;
    assert forall c :: c in waits <==> c in s.stops.started && c < |s.parts| && InStep(s.parts[c], k);
    GroupConcerned(s, t, k, ctx, waits);
  }

  lemma GroupConcerned(s: Runtime, t: Runtime, k: nat, ctx: nat, waits: map<nat, Wait>)
    requires Grows(s.stops, t.stops, waits.Keys)
    requires forall c :: c in waits <==> c in s.stops.started && c < |s.parts| && InStep(s.parts[c], k)
    requires forall c <- waits :: Asks(s.stops, t.stops, c, ctx, AdmissionOnly(s.parts[c], k), waits[c])
    ensures GroupBegun(s, t, k, ctx, waits)
  {
    hide Asks, Grows, InStep, AdmissionOnly, Concerned;
    forall c | c in s.stops.started && c < |s.parts|
      ensures InStep(s.parts[c], k) <==> Concerned(s.parts[c], k)
      ensures AdmissionOnly(s.parts[c], k) <==> s.parts[c].hasAdmission && (k == 1 || k == 3)
    {
      InStepConcerned(s.parts[c], k);
    }
  }

  lemma EnterBegins(s: Runtime, i: nat, k: nat)
    requires i < |s.attempts| && PendingsOk(s.stops) && Known(s.parts, s.stops.started) && Distinct(s.stops.started)
    ensures var t := EnterStep(s, i, k);
      i < |t.attempts| && StepBegun(s, t, k, s.attempts[i].ctx, t.attempts[i].stage)
  {
    hide StopAll, BeginLine, Members, PendingOk, StageShape, LineBegins, GroupBegun;
    var ctx, list := s.attempts[i].ctx, Members(s.stops.started, s.parts, k);
    if k == 8 {
      LineAsks(s.stops, list, ctx);
    } else if k != 5 {
      GroupBegins(s, EnterStep(s, i, k), k, ctx);
    }
  }

  /** What follows the startup in an attempt: the rollback of everything started, if one is left over, or the first
      step of the ordinary path. */
  ghost predicate PathBegun(s: Runtime, t: Runtime, ctx: nat, stage: Stage) {
    if s.rollbackPending then
      && stage.Rolling? && LineBegins(s.stops, t.stops, s.stops.started, ctx, stage.line) && t.accepting == s.accepting
    else StepBegun(s, t, 1, ctx, stage)
  }

  lemma AfterStartupBegins(s: Runtime, i: nat)
    requires i < |s.attempts| && PendingsOk(s.stops) && Known(s.parts, s.stops.started) && Distinct(s.stops.started)
    ensures var t := AfterStartup(s, i);
      i < |t.attempts| && PathBegun(s, t, s.attempts[i].ctx, t.attempts[i].stage)
  {
    hide EnterStep, BeginLine, PendingOk, StepBegun, LineBegins;
    if s.rollbackPending {
      LineAsks(s.stops, s.stops.started, s.attempts[i].ctx);
    } else {
      EnterBegins(s, i, 1);
    }
  }

  /** A list that is stopped one by one goes on when its last component has stopped; it fails when that was not to be,
      or the context ran out of time. */
  ghost predicate LineGoesOn(s: Stops, t: Stops, line: Line, ctx: nat, next: Line) {
    line.todo != [] && LineBegins(s, t, line.todo[..|line.todo| - 1], ctx, next)
  }

  lemma NextAsks(s: Stops, line: Line, ctx: nat)
    requires PendingsOk(s) && line.todo != []
    ensures var (t, next) := NextInLine(s, line, ctx); LineGoesOn(s, t, line, ctx, next)
  {
    LineAsks(s, line.todo[..|line.todo| - 1], ctx);
    hide LineBegins, BeginLine;
  }

  /** The stage that follows, once what a stage waits for has settled or its context ran out of time. */
  ghost predicate Follows(s: Runtime, t: Runtime, stage: Stage, ctx: nat, next: Stage) {
    match stage
    case Group(k, waits) =>
      if forall c <- waits :: waits[c].Fulfilled? then StepBegun(s, t, k + 1, ctx, next)
      else next == Ended(false) && t.stops == s.stops
    case Rolling(line) =>
      if line.todo == [] then next == RollDrain(if s.tasks == {} then Closed else Busy) && !t.rollbackPending
      else if line.wait.Fulfilled? then next.Rolling? && LineGoesOn(s.stops, t.stops, line, ctx, next.line)
      else next == Ended(false) && t.stops == s.stops
    case Final(line) =>
      if line.todo == [] then next == Ended(true) && t.state == Stopped
      else if line.wait.Fulfilled? then next.Final? && LineGoesOn(s.stops, t.stops, line, ctx, next.line)
      else next == Ended(false) && t.stops == s.stops
    case _ => true
  }

  lemma ProceedFollows(s: Runtime, i: nat)
    requires i < |s.attempts| && PendingsOk(s.stops) && Known(s.parts, s.stops.started) && Distinct(s.stops.started)
    requires s.attempts[i].stage.Group? || s.attempts[i].stage.Rolling? || s.attempts[i].stage.Final?
    ensures var t := DoProceeds(s, i);
      i < |t.attempts| && Follows(s, t, s.attempts[i].stage, s.attempts[i].ctx, t.attempts[i].stage)
  {
    hide EnterStep, NextInLine, PendingOk, StepBegun, LineGoesOn;
    match s.attempts[i].stage
    case Group(k, waits) => EnterBegins(s, i, k + 1);
    case Rolling(line) => if line.todo != [] { NextAsks(s.stops, line, s.attempts[i].ctx); }
    case Final(line) => if line.todo != [] { NextAsks(s.stops, line, s.attempts[i].ctx); }
  }

  /** One wait of a stage is answered, and the others stay. */
  ghost predicate WaitAnswered(s: Runtime, t: Runtime, stage: Stage, c: nat, ctx: nat, next: Stage)
    requires WaitFor(stage, c).Some?
  {
    var w := WaitFor(stage, c).value;
    if w.OnOp? then
      && w.op < |s.stops.ops| && WaitFor(next, c).Some? && next == WithWait(stage, c, WaitFor(next, c).value)
      && Answers(s.stops, t.stops, w, ctx, s.expired, WaitFor(next, c).value)
    else next == stage && t.stops == s.stops
  }

  lemma WaitsFor(stage: Stage, c: nat, w: Wait)
    requires WaitFor(stage, c).Some?
    ensures WaitFor(WithWait(stage, c, w), c) == Some(w)
  {}

  lemma ResumesAnswered(s: Runtime, i: nat, c: nat)
    requires i < |s.attempts| && PendingsOk(s.stops) && StageShape(s.attempts[i].stage, s.stops.ops, s.parts)
    requires WaitFor(s.attempts[i].stage, c).Some?
    ensures var t := DoWaitResumes(s, i, c);
      i < |t.attempts| && WaitAnswered(s, t, s.attempts[i].stage, c, s.attempts[i].ctx, t.attempts[i].stage)
  {
    hide Resume, PendingOk, Answers, WithWait;
    var stage := s.attempts[i].stage;
    var w := WaitFor(stage, c).value;
    if w.OnOp? {
      ResumeAnswers(s.stops, w, s.attempts[i].ctx, s.expired);
      WaitsFor(stage, c, Resume(s.stops, w, s.attempts[i].ctx, s.expired).1);
    }
  }

  /** What a step of the attempt under way makes of its stage. */
  ghost predicate StageGoes(s: Runtime, e: Event, t: Runtime, attempt: Attempt, next: Stage)
    requires OfAttempt(e) && Active(s) && Enabled(s, e) && attempt == Current(s)
  {
    match e
    case StartupSeen(timedOut) =>
      if timedOut then attempt.ctx in s.expired && next == Ended(false) && !t.accepting
      else PathBegun(s, t, attempt.ctx, next)
    case WaitResumes(c) => WaitAnswered(s, t, attempt.stage, c, attempt.ctx, next)
    case Proceeds => Follows(s, t, attempt.stage, attempt.ctx, next)
    case DrainSees => next == if attempt.stage.RollDrain? then RollDrain(Seen) else Draining(Seen)
    case DrainEnds(ok) =>
      && !t.accepting
      && if !ok then next == Ended(false)
         else if attempt.stage.RollDrain? then next == Ended(true) && t.state == Stopped
         else StepBegun(s.(accepting := false), t, 6, attempt.ctx, next)
    case _ => true
  }

  lemma DrainGoes(s: Runtime, i: nat, ok: bool)
    requires i < |s.attempts| && PendingsOk(s.stops) && Known(s.parts, s.stops.started) && Distinct(s.stops.started)
    requires s.attempts[i].stage.RollDrain? || s.attempts[i].stage.Draining?
    ensures var t, stage := DoDrainEnds(s, i, ok), s.attempts[i].stage;
      && i < |t.attempts| && !t.accepting
      && if !ok then t.attempts[i].stage == Ended(false)
         else if stage.RollDrain? then t.attempts[i].stage == Ended(true) && t.state == Stopped
         else StepBegun(s.(accepting := false), t, 6, s.attempts[i].ctx, t.attempts[i].stage)
  {
    hide EnterStep, PendingOk, StepBegun;
    EnterBegins(s.(accepting := false), i, 6);
  }

  lemma SeenGoes(s: Runtime, i: nat, timedOut: bool)
    requires i < |s.attempts| && PendingsOk(s.stops) && Known(s.parts, s.stops.started) && Distinct(s.stops.started)
    ensures var t := DoStartupSeen(s, i, timedOut);
      && i < |t.attempts|
      && if timedOut then t.attempts[i].stage == Ended(false) && !t.accepting
         else PathBegun(s, t, s.attempts[i].ctx, t.attempts[i].stage)
  {
    hide AfterStartup, PendingOk, PathBegun;
    AfterStartupBegins(s, i);
  }

  lemma InvDistinct(s: Runtime)
    requires Inv(s)
    ensures Distinct(s.stops.started)
  {}

  lemma StageStep(s: Runtime, e: Event)
    requires Inv(s) && Shape(s) && PendingsOk(s.stops) && Known(s.parts, s.stops.started)
    requires Enabled(s, e) && OfAttempt(e)
    ensures var t, a := Step(s, e), s.stopPromise;
      Active(s) && a.value < |t.attempts| && StageGoes(s, e, t, Current(s), t.attempts[a.value].stage)
  {
    hide Inv, Shape, PendingsOk, Known, DoProceeds, DoWaitResumes, DoDrainEnds, DoStartupSeen, StepBegun, PathBegun,
         Follows, WaitAnswered;
    InvDistinct(s);
    var i := s.stopPromise.value;
    match e
    case StartupSeen(timedOut) => SeenGoes(s, i, timedOut);
    case WaitResumes(c) =>
      StageShaped(s, i);
      ResumesAnswered(s, i, c);
    case Proceeds => ProceedFollows(s, i);
    case DrainSees =>
    case DrainEnds(ok) => DrainGoes(s, i, ok);
  }

  /** In every run, how attempts go on: only the attempt under way changes, only by its own steps, and each of them
      leads to the stage that is due. It fails only if a stop it waited for failed, its context ran out of time, or its
      drain failed; it does not fail when everything it waited for succeeded. */
  lemma AttemptGoesOn(states: seq<Runtime>, events: seq<Event>, i: nat, a: nat)
    requires Run(states, events) && i < |events| && a < |states[i].attempts|
    ensures var s, e, t := states[i], events[i], states[i + 1];
      && a < |t.attempts| && t.attempts[a].ctx == s.attempts[a].ctx
      && if OfAttempt(e) && s.stopPromise == Some(a) then
           Active(s) && Enabled(s, e) && StageGoes(s, e, t, s.attempts[a], t.attempts[a].stage)
         else t.attempts[a] == s.attempts[a]
  {
    hide Inv, Shape, PendingsOk, Known, Step, Enabled, StageGoes;
    var s, e, t := states[i], events[i], states[i + 1];
    At(states, events, i);
    if OfAttempt(e) {
      AttemptStep(s, e);
      StageStep(s, e);
    } else if e.StopCall? || e.CallerWakes? {
      CallersKeep(s, e);
      assert t.attempts[a] == t.attempts[..|s.attempts|][a];
    } else {
      OthersLeaveAttempts(s, e);
    }
  }

  // ---- The beginning of an attempt ----

  lemma AttemptBegins(s: Runtime, ctx: nat)
    requires PendingsOk(s.stops) && Known(s.parts, s.stops.started) && Distinct(s.stops.started)
    ensures var t, n := BeginAttempt(s, ctx), |s.attempts|;
      && n < |t.attempts| && t.attempts[n].ctx == ctx && t.stopPromise == Some(n) && t.state == Stopping
      && if StartupPending(s) then
           t.attempts[n].stage == AwaitStartup && t.expired == s.expired + {STARTUP} && t.stops == s.stops
         else PathBegun(s, t, ctx, t.attempts[n].stage) && t.expired == s.expired
  {
    hide AfterStartup, PendingOk, PathBegun;
    var begun := s.(state := Stopping, attempts := s.attempts + [Attempt(ctx, AwaitStartup)],
                    stopPromise := Some(|s.attempts|));
    AfterStartupBegins(begun, |s.attempts|);
    SeenOnlyStage(begun, |s.attempts|, false);
    if !StartupPending(s) {
      var t := BeginAttempt(s, ctx);
      SamePath(s, begun, t, t, ctx, t.attempts[|s.attempts|].stage);
    }
  }

  lemma SamePath(s: Runtime, u: Runtime, t: Runtime, v: Runtime, ctx: nat, stage: Stage)
    requires u == s.(callers := u.callers, state := u.state, attempts := u.attempts, stopPromise := u.stopPromise)
    requires t == v.(callers := t.callers) && PathBegun(u, v, ctx, stage)
    ensures PathBegun(s, t, ctx, stage)
  {
    hide LineBegins, Grows, Asks;
    if !s.rollbackPending && stage.Group? {
      assert GroupBegun(u, v, 1, ctx, stage.waits) ==> GroupBegun(s, t, 1, ctx, stage.waits);
    }
  }

  lemma NewAttemptStep(s: Runtime, e: Event)
    requires Inv(s) && Shape(s) && PendingsOk(s.stops) && Known(s.parts, s.stops.started) && Enabled(s, e)
    requires |Step(s, e).attempts| > |s.attempts|
    ensures var t, n := Step(s, e), |s.attempts|;
      && s.stopPromise.None? && t.stopPromise == Some(n) && t.state == Stopping
      && if StartupPending(s) then
           t.attempts[n].stage == AwaitStartup && t.expired == s.expired + {STARTUP} && t.stops == s.stops
         else PathBegun(s, t, t.attempts[n].ctx, t.attempts[n].stage) && t.expired == s.expired
  {
    hide Inv, Shape, PendingsOk, Known, PathBegun, BeginAttempt, DoProceeds, DoWaitResumes, DoDrainEnds, DoStartupSeen,
         DoDrainSees;
    InvDistinct(s);
    if OfAttempt(e) { AttemptStep(s, e); }
    if !e.StopCall? && !e.CallerWakes? && !OfAttempt(e) { OthersLeaveAttempts(s, e); }
    var ctx := if e.StopCall? then e.ctx else s.callers[e.caller].ctx;
    var u := if e.StopCall? then s.(callers := s.callers + [Caller(e.ctx, Threw)]) else s;
    AttemptBegins(u, ctx);
    if !StartupPending(s) {
      var v := BeginAttempt(u, ctx);
      SamePath(s, u, Step(s, e), v, ctx, v.attempts[|s.attempts|].stage);
    }
  }

  /** In every run an attempt begins, under the context of its owner, when no other is under way: it aborts the startup
      that is pending and waits for it, or sets out at once. */
  lemma AttemptBegun(states: seq<Runtime>, events: seq<Event>, i: nat)
    requires Run(states, events) && i < |events| && |states[i + 1].attempts| > |states[i].attempts|
    ensures var s, t, n := states[i], states[i + 1], |states[i].attempts|;
      && s.stopPromise.None? && t.stopPromise == Some(n) && t.state == Stopping
      && if StartupPending(s) then
           t.attempts[n].stage == AwaitStartup && t.expired == s.expired + {STARTUP} && t.stops == s.stops
         else PathBegun(s, t, t.attempts[n].ctx, t.attempts[n].stage) && t.expired == s.expired
  {
    hide Inv, Shape, PendingsOk, Known, Step, Enabled, PathBegun;
    At(states, events, i);
    NewAttemptStep(states[i], events[i]);
  }

  // ---- The startup ----

  /** The step ends a call of the startup badly, or the startup was aborted. */
  predicate StartFails(s: Runtime, e: Event) {
    (e.BuildEnds? || e.LaunchEnds?) && (!e.ok || STARTUP in s.expired)
  }

  /** What is started once the call under way has ended. */
  function StartedThen(s: Runtime, e: Event): seq<nat> {
    if e == LaunchEnds(true) && s.startup.Launching? && s.startup.next < |s.plan| && s.plan[s.startup.next].Start? then
      s.stops.started + [s.plan[s.startup.next].part]
    else s.stops.started
  }

  /** How the startup goes on. */
  ghost predicate StartupGoes(s: Runtime, e: Event, t: Runtime)
    requires Shape(s) && Enabled(s, e)
  {
    match e
    case Begin(admission) => t.startup == Building && t.plan == Plan(s.parts, admission) && t.state == Starting
    case BuildEnds(_) => CallGoes(s, e, t, 0)
    case LaunchEnds(_) => CallGoes(s, e, t, s.startup.next + 1)
    case StartupResumes =>
      var line := s.startup.line;
      && t.startup.RollingBack? && t.startup.line.todo == line.todo && t.state == s.state
      && Answers(s.stops, t.stops, line.wait, STARTUP, s.expired, t.startup.line.wait)
    case StartupProceeds =>
      var line := s.startup.line;
      if line.todo != [] && line.wait.Fulfilled? then
        && t.startup.RollingBack? && LineGoesOn(s.stops, t.stops, line, STARTUP, t.startup.line) && t.state == s.state
        && t.rollbackPending == s.rollbackPending
      else
        && t.startup == Over(true) && t.stops == s.stops && t.rollbackPending == (s.rollbackPending && line.todo != [])
        && t.state == if s.stops.started == [] && s.tasks == {} then Stopped else Stopping
    case _ => t.startup == s.startup && t.plan == s.plan
  }

  /** A call of the startup has ended: the startup fails and everything started is rolled back, or the next call is
      made, or the runtime runs. */
  ghost predicate CallGoes(s: Runtime, e: Event, t: Runtime, p: nat) {
    var started := StartedThen(s, e);
    t.stops.started == started && t.plan == s.plan &&
    if StartFails(s, e) then
      && t.startup.RollingBack? && t.rollbackPending && !t.accepting && t.state == s.state
      && LineBegins(s.stops.(started := started), t.stops, started, STARTUP, t.startup.line)
    else if p < |s.plan| then
      t.startup == Launching(p) && t.state == s.state && t.stops == s.stops.(started := started)
    else t.startup == Over(false) && t.state == Running && t.stops == s.stops.(started := started)
  }

  lemma FailsBegins(s: Runtime)
    requires PendingsOk(s.stops)
    ensures var t := StartupFails(s);
      && t.startup.RollingBack? && t.rollbackPending && !t.accepting && t.state == s.state
      && LineBegins(s.stops, t.stops, s.stops.started, STARTUP, t.startup.line)
  {
    hide BeginLine, LineBegins, PendingOk;
    LineAsks(s.stops, s.stops.started, STARTUP);
  }

  lemma StartupStep(s: Runtime, e: Event)
    requires Shape(s) && PendingsOk(s.stops) && Known(s.parts, s.stops.started) && Enabled(s, e)
    requires e.Begin? || e.BuildEnds? || e.LaunchEnds? || e.StartupResumes? || e.StartupProceeds?
    ensures StartupGoes(s, e, Step(s, e))
  {
    hide StartupFails, Plan, NextInLine, Resume, LineBegins, LineGoesOn, Answers, Known, Shape, PendingOk;
    match e
    case Begin(_) =>
    case BuildEnds(ok) =>
      FailsBegins(s);
      assert s.stops.(started := s.stops.started) == s.stops;
    case LaunchEnds(ok) =>
      LaunchShaped(s);
      FailsBegins(s);
      FailsBegins(Pushed(s, s.plan[s.startup.next]));
      assert s.stops.(started := s.stops.started) == s.stops;
    case StartupResumes => ResumeAnswers(s.stops, s.startup.line.wait, STARTUP, s.expired);
    case StartupProceeds => if s.startup.line.todo != [] { NextAsks(s.stops, s.startup.line, STARTUP); }
    case _ =>
  }

  lemma LaunchShaped(s: Runtime)
    requires Shape(s) && s.startup.Launching?
    ensures s.startup.next < |s.plan|
  {}

  lemma OthersLeaveStartup(s: Runtime, e: Event)
    requires Shape(s) && Enabled(s, e)
    requires !(e.Begin? || e.BuildEnds? || e.LaunchEnds? || e.StartupResumes? || e.StartupProceeds?)
    ensures Step(s, e).startup == s.startup && Step(s, e).plan == s.plan
  {
    hide Shape, DoProceeds, DoCallerWakes, DoStopCall, DoWaitResumes, DoDrainEnds, DoStartupSeen, DoDrainSees;
  }

  /** In every run, how the startup goes on: a call that ends well leads to the next one or, the last, to a runtime that
      runs; a call that fails, or an abort, leads to the rollback of everything started; and the rollback goes on from
      the end until it is done or a stop in it failed. */
  lemma StartupGoesOn(states: seq<Runtime>, events: seq<Event>, i: nat)
    requires Run(states, events) && i < |events|
    ensures Shape(states[i]) && Enabled(states[i], events[i]) && StartupGoes(states[i], events[i], states[i + 1])
  {
    hide Inv, Shape, PendingsOk, Known, Step, Enabled, CallGoes, LineGoesOn, Answers;
    At(states, events, i);
    var e := events[i];
    if e.Begin? || e.BuildEnds? || e.LaunchEnds? || e.StartupResumes? || e.StartupProceeds? {
      StartupStep(states[i], e);
    } else {
      OthersLeaveStartup(states[i], e);
    }
  }

  /** So a runtime comes to run exactly when the last call of its startup ended well and it was not aborted: and then
      everything that is to start is started. */
  lemma RunsWhenStarted(states: seq<Runtime>, events: seq<Event>, i: nat)
    requires Run(states, events) && i < |events| && states[i].state != Running
    ensures var s, e, t := states[i], events[i], states[i + 1];
      && (t.state == Running <==>
            && STARTUP !in s.expired
            && ((e == BuildEnds(true) && s.plan == [])
                || (e == LaunchEnds(true) && s.startup.Launching? && s.startup.next + 1 == |s.plan|)))
      && (t.state == Running ==> t.stops.started == Starts(t.plan))
  {
    hide Shape, PendingsOk, Known, Step, LineGoesOn, Answers, ModeOk, AttemptsOk, CallersOk, Plan, Starts;
    var s, e, t := states[i], events[i], states[i + 1];
    At(states, events, i);
    StartupGoesOn(states, events, i);
    if !e.BuildEnds? && !e.LaunchEnds? { OnlyStartupRuns(s, e); }
    LaunchShape(s);
    if s.startup.Launching? {
      StartsNext(s.plan, s.startup.next);
      assert s.startup.next + 1 == |s.plan| ==> s.plan[..s.startup.next + 1] == s.plan;
    }
    StartsNone();
  }

  lemma LaunchShape(s: Runtime)
    requires Shape(s)
    ensures s.startup.Launching? ==> s.startup.next < |s.plan|
  {}

  lemma StartsNone()
    ensures Starts([]) == []
  {}

  lemma OnlyStartupRuns(s: Runtime, e: Event)
    requires Shape(s) && Enabled(s, e) && !e.BuildEnds? && !e.LaunchEnds? && s.state != Running
    ensures Step(s, e).state != Running
  {
    hide Shape, DoProceeds, DoCallerWakes, DoStopCall, DoWaitResumes, DoDrainEnds, DoStartupSeen, DoDrainSees, Plan,
         DoStartupProceeds, DoStartupResumes;
  }

  // ---- Flags, contexts and tasks ----

  /** The drain of an attempt begins. */
  ghost predicate DrainBegins(s: Runtime, e: Event) {
    && e == Proceeds && Active(s)
    && match Current(s).stage
       case Group(k, waits) => k == 4 && forall c <- waits :: waits[c].Fulfilled?
       case Rolling(line) => line.todo == []
       case _ => false
  }

  /** The step seals the admission of tasks. */
  ghost predicate Seals(s: Runtime, e: Event, t: Runtime) {
    || StartFails(s, e) || e == StartupSeen(true) || e.DrainEnds? || (DrainBegins(s, e) && s.tasks == {})
    || (e.StopCall? && !StartupPending(s) && s.stops.started == [] && s.tasks == {})
    || (e.CallerWakes? && e.caller < |t.callers| && t.callers[e.caller].status == Threw)
  }

  lemma EnterAccepting(s: Runtime, i: nat, k: nat)
    requires i < |s.attempts| && PendingsOk(s.stops) && Known(s.parts, s.stops.started)
    ensures EnterStep(s, i, k).accepting == (s.accepting && (k == 5 ==> s.tasks != {}))
  {
    hide StopAll, BeginLine, Members, PendingsOk, Known;
  }

  lemma ProceedAccepting(s: Runtime, i: nat)
    requires i < |s.attempts| && PendingsOk(s.stops) && Known(s.parts, s.stops.started) && s.stopPromise == Some(i)
    requires s.attempts[i].stage.Group? || s.attempts[i].stage.Rolling? || s.attempts[i].stage.Final?
    ensures DoProceeds(s, i).accepting == (s.accepting && !(DrainBegins(s, Proceeds) && s.tasks == {}))
    ensures DoProceeds(s, i).rollbackPending ==
      (s.rollbackPending && !(s.attempts[i].stage.Rolling? && s.attempts[i].stage.line.todo == []))
  {
    hide EnterStep, BeginLine, PendingsOk, Known;
    if s.attempts[i].stage.Group? { EnterAccepting(s, i, s.attempts[i].stage.step + 1); }
  }

  lemma AttemptSeals(s: Runtime, e: Event)
    requires Shape(s) && PendingsOk(s.stops) && Known(s.parts, s.stops.started) && Enabled(s, e) && OfAttempt(e)
    ensures var t := Step(s, e);
      && (t.accepting <==> s.accepting && !Seals(s, e, t))
      && t.rollbackPending == (s.rollbackPending && !(e == Proceeds && Current(s).stage.Rolling?
                                                      && Current(s).stage.line.todo == []))
      && t.expired == s.expired && t.stopPromise == s.stopPromise && t.tasks == s.tasks && t.nextTask == s.nextTask
  {
    hide Shape, PendingsOk, Known, EnterStep, BeginLine, DoProceeds, DoWaitResumes, DrainBegins;
    var i := s.stopPromise.value;
    EnterAccepting(s, i, 1);
    EnterAccepting(s.(accepting := false), i, 6);
    if e == Proceeds { ProceedAccepting(s, i); }
    NoDrain(s, e);
  }

  lemma NoDrain(s: Runtime, e: Event)
    ensures e != Proceeds ==> !DrainBegins(s, e)
  {}

  lemma BeginFlags(s: Runtime, ctx: nat)
    requires PendingsOk(s.stops) && Known(s.parts, s.stops.started)
    ensures var t := BeginAttempt(s, ctx); t.accepting == s.accepting && t.stopPromise == Some(|s.attempts|)
  {
    hide EnterStep, BeginLine, PendingsOk, Known;
    var begun := s.(state := Stopping, attempts := s.attempts + [Attempt(ctx, AwaitStartup)],
                    stopPromise := Some(|s.attempts|));
    EnterAccepting(begun, |s.attempts|, 1);
  }

  lemma CallerSeals(s: Runtime, e: Event)
    requires Shape(s) && PendingsOk(s.stops) && Known(s.parts, s.stops.started) && Enabled(s, e)
    requires e.StopCall? || e.CallerWakes?
    ensures var t := Step(s, e);
      && (t.accepting <==> s.accepting && !Seals(s, e, t)) && t.rollbackPending == s.rollbackPending
      && t.stopPromise == (if |t.attempts| > |s.attempts| then Some(|s.attempts|) else s.stopPromise)
      && t.tasks == s.tasks && t.nextTask == s.nextTask
  {
    hide Shape, PendingsOk, Known, BeginAttempt;
    var u := if e.StopCall? then s.(callers := s.callers + [Caller(e.ctx, Threw)]) else s;
    var k := if e.StopCall? then |s.callers| else e.caller;
    BeginFlags(u, u.callers[k].ctx);
    JoinWaits(u, k);
    NoDrain(s, e);
    if e.CallerWakes? { WakeStep(s, k, e.timedOut); }
  }

  lemma OtherSeals(s: Runtime, e: Event)
    requires Shape(s) && PendingsOk(s.stops) && Enabled(s, e) && !OfAttempt(e) && !e.StopCall? && !e.CallerWakes?
    ensures var t := Step(s, e);
      && (t.accepting <==> s.accepting && !Seals(s, e, t))
      && t.rollbackPending ==
           (if StartFails(s, e) then true
            else s.rollbackPending && !(e == StartupProceeds && s.startup.line.todo == []))
  {
    hide Shape, PendingsOk, Plan, NextInLine, Resume, BeginLine, DrainBegins;
    NoDrain(s, e);
  }

  lemma OtherMoves(s: Runtime, e: Event)
    requires Shape(s) && PendingsOk(s.stops) && Enabled(s, e) && !OfAttempt(e) && !e.StopCall? && !e.CallerWakes?
    ensures var t := Step(s, e);
      && t.expired == s.expired + (if e.Expire? then {e.ctx} else {})
      && t.stopPromise == (if e.Release? then None else s.stopPromise)
      && t.tasks == (if e.TaskStart? && s.accepting then s.tasks + {s.nextTask}
                     else if e.TaskEnd? then s.tasks - {e.task} else s.tasks)
      && t.nextTask == (if e.TaskStart? && s.accepting then s.nextTask + 1 else s.nextTask)
  {
    hide Shape, PendingsOk, Plan, StartupFails, DoStartupProceeds, DoStartupResumes, Settle;
    match e
    case BuildEnds(_) => StartupMovesNone(s, e);
    case LaunchEnds(_) => StartupMovesNone(s, e);
    case _ =>
      hide DoBuildEnds, DoLaunchEnds;
  }

  lemma StartupMovesNone(s: Runtime, e: Event)
    requires Shape(s) && PendingsOk(s.stops) && Enabled(s, e) && (e.BuildEnds? || e.LaunchEnds?)
    ensures var t := Step(s, e);
      t.expired == s.expired && t.stopPromise == s.stopPromise && t.tasks == s.tasks && t.nextTask == s.nextTask
  {
    hide PendingsOk, StartupFails;
  }

  /** In every run, what moves the flags: admission is sealed, never to be opened again, by a failed startup, a drain
      that finds no task or ends, an attempt or a caller that gives up, and a `stop` with nothing to do; a rollback is
      left over from a failed startup until one has gone through; an attempt is joined until it is released. */
  lemma FlagChanges(states: seq<Runtime>, events: seq<Event>, i: nat)
    requires Run(states, events) && i < |events|
    ensures var s, e, t := states[i], events[i], states[i + 1];
      && (t.accepting <==> s.accepting && !Seals(s, e, t))
      && (t.rollbackPending <==>
            StartFails(s, e)
            || (s.rollbackPending
                && !(e == StartupProceeds && s.startup.RollingBack? && s.startup.line.todo == [])
                && !(e == Proceeds && Active(s) && Current(s).stage.Rolling? && Current(s).stage.line.todo == [])))
      && t.stopPromise == (if |t.attempts| > |s.attempts| then Some(|s.attempts|)
                           else if e.Release? then None else s.stopPromise)
  {
    hide Inv, Shape, PendingsOk, Known, Step, Seals;
    var s, e, t := states[i], events[i], states[i + 1];
    At(states, events, i);
    if OfAttempt(e) {
      AttemptSeals(s, e);
      AttemptStep(s, e);
    } else if e.StopCall? || e.CallerWakes? {
      CallerSeals(s, e);
    } else {
      OtherSeals(s, e);
      OtherMoves(s, e);
      OthersLeaveAttempts(s, e);
    }
  }

  /** In every run a context runs out by its own expiry, the startup's also by an attempt that begins while it is
      pending; a task is active from its admission, while admission is open, until it ends. */
  lemma TaskChanges(states: seq<Runtime>, events: seq<Event>, i: nat)
    requires Run(states, events) && i < |events|
    ensures var s, e, t := states[i], events[i], states[i + 1];
      && t.expired == s.expired + (if e.Expire? then {e.ctx} else {})
           + (if |t.attempts| > |s.attempts| && StartupPending(s) then {STARTUP} else {})
      && t.tasks == (if e.TaskStart? && s.accepting then s.tasks + {s.nextTask}
                     else if e.TaskEnd? then s.tasks - {e.task} else s.tasks)
      && t.nextTask == (if e.TaskStart? && s.accepting then s.nextTask + 1 else s.nextTask)
  {
    hide Inv, Shape, PendingsOk, Known, Step, Seals, Enabled, PathBegun;
    var s, e, t := states[i], events[i], states[i + 1];
    At(states, events, i);
    if OfAttempt(e) {
      AttemptSeals(s, e);
      AttemptStep(s, e);
    } else if e.StopCall? || e.CallerWakes? {
      CallerSeals(s, e);
      if |t.attempts| > |s.attempts| { NewAttemptStep(s, e); } else { NoAttemptExpires(s, e); }
    } else {
      OtherMoves(s, e);
      OthersLeaveAttempts(s, e);
    }
  }

  lemma NoAttemptExpires(s: Runtime, e: Event)
    requires Shape(s) && PendingsOk(s.stops) && Known(s.parts, s.stops.started) && Enabled(s, e)
    requires (e.StopCall? || e.CallerWakes?) && |Step(s, e).attempts| <= |s.attempts|
    ensures Step(s, e).expired == s.expired
  {
    hide Shape, PendingsOk, Known, BeginAttempt;
    var u := if e.StopCall? then s.(callers := s.callers + [Caller(e.ctx, Threw)]) else s;
    var k := if e.StopCall? then |s.callers| else e.caller;
    JoinWaits(u, k);
  }

  lemma ProceedState(s: Runtime, i: nat)
    requires i < |s.attempts| && PendingsOk(s.stops) && Known(s.parts, s.stops.started)
    requires s.attempts[i].stage.Group? || s.attempts[i].stage.Rolling? || s.attempts[i].stage.Final?
    ensures var t := DoProceeds(s, i);
      i < |t.attempts| && t.state == if t.attempts[i].stage == Ended(true) then Stopped else s.state
  {
    hide PendingsOk, Known, EnterStep, BeginLine;
    if s.attempts[i].stage.Group? { EnterNotEnded(s, i, s.attempts[i].stage.step + 1); }
  }

  lemma SeenState(s: Runtime, i: nat, timedOut: bool)
    requires i < |s.attempts| && PendingsOk(s.stops) && Known(s.parts, s.stops.started)
    ensures var t := DoStartupSeen(s, i, timedOut);
      i < |t.attempts| && t.attempts[i].stage != Ended(true) && t.state == s.state
  {
    hide PendingsOk, Known, EnterStep, BeginLine;
    EnterNotEnded(s, i, 1);
  }

  lemma DrainState(s: Runtime, i: nat, ok: bool)
    requires i < |s.attempts| && PendingsOk(s.stops) && Known(s.parts, s.stops.started)
    ensures var t := DoDrainEnds(s, i, ok);
      i < |t.attempts| && t.state == if t.attempts[i].stage == Ended(true) then Stopped else s.state
    ensures var t := DoDrainSees(s, i);
      !s.attempts[i].stage.Ended? ==> !t.attempts[i].stage.Ended? && t.state == s.state
  {
    hide PendingsOk, Known, EnterStep;
    EnterNotEnded(s.(accepting := false), i, 6);
  }

  lemma WaitState(s: Runtime, i: nat, c: nat)
    requires i < |s.attempts| && PendingsOk(s.stops) && StageShape(s.attempts[i].stage, s.stops.ops, s.parts)
    ensures var t := DoWaitResumes(s, i, c);
      !s.attempts[i].stage.Ended? ==> !t.attempts[i].stage.Ended? && t.state == s.state
  {
    hide PendingsOk, Resume, StageShape;
  }

  lemma AttemptState(s: Runtime, e: Event)
    requires Inv(s) && Shape(s) && PendingsOk(s.stops) && Known(s.parts, s.stops.started)
    requires Enabled(s, e) && OfAttempt(e)
    ensures var t := Step(s, e);
      && Active(s) && s.stopPromise.value < |t.attempts|
      && t.state == if t.attempts[s.stopPromise.value].stage == Ended(true) then Stopped else s.state
  {
    hide Inv, Shape, PendingsOk, Known, DoProceeds, DoWaitResumes, DoDrainSees, DoDrainEnds, DoStartupSeen;
    var i := s.stopPromise.value;
    match e
    case StartupSeen(timedOut) => SeenState(s, i, timedOut);
    case WaitResumes(c) =>
      StageShaped(s, i);
      WaitState(s, i, c);
    case Proceeds => ProceedState(s, i);
    case DrainSees => DrainState(s, i, true);
    case DrainEnds(ok) => DrainState(s, i, ok);
  }

  lemma EnterNotEnded(s: Runtime, i: nat, k: nat)
    requires i < |s.attempts| && PendingsOk(s.stops) && Known(s.parts, s.stops.started)
    ensures !EnterStep(s, i, k).attempts[i].stage.Ended?
  {
    hide StopAll, BeginLine, Members, PendingsOk, Known;
  }

  lemma CallerState(s: Runtime, e: Event)
    requires Shape(s) && PendingsOk(s.stops) && Known(s.parts, s.stops.started) && Enabled(s, e)
    requires e.StopCall? || e.CallerWakes?
    ensures var t := Step(s, e);
      t.state == if |t.attempts| > |s.attempts| then Stopping
                 else if e.StopCall? && NothingToStop(s) then Stopped else s.state
  {
    hide Shape, PendingsOk, Known, BeginAttempt;
    var u := if e.StopCall? then s.(callers := s.callers + [Caller(e.ctx, Threw)]) else s;
    JoinWaits(u, if e.StopCall? then |s.callers| else e.caller);
  }

  lemma OtherState(s: Runtime, e: Event)
    requires Shape(s) && Enabled(s, e) && !OfAttempt(e) && !e.StopCall? && !e.CallerWakes?
    requires !e.Begin? && !e.BuildEnds? && !e.LaunchEnds? && !e.StartupProceeds?
    ensures Step(s, e).state == s.state
  {
    hide Shape, Resume;
  }

  /** In every run, but for the startup's own steps, the runtime is stopping when an attempt begins, and stopped when
      one ends well or a `stop` finds nothing to do. */
  lemma StateChanges(states: seq<Runtime>, events: seq<Event>, i: nat)
    requires Run(states, events) && i < |events|
    requires !events[i].Begin? && !events[i].BuildEnds? && !events[i].LaunchEnds? && !events[i].StartupProceeds?
    ensures var s, e, t := states[i], events[i], states[i + 1];
      t.state ==
        if |t.attempts| > |s.attempts| then Stopping
        else if e.StopCall? && !StartupPending(s) && s.stops.started == [] && s.tasks == {} then Stopped
        else if OfAttempt(e) && Active(s) && s.stopPromise.value < |t.attempts|
                && t.attempts[s.stopPromise.value].stage == Ended(true) then Stopped
        else s.state
  {
    hide Inv, Shape, PendingsOk, Known, Step, Enabled;
    var s, e := states[i], events[i];
    At(states, events, i);
    if OfAttempt(e) {
      AttemptState(s, e);
      AttemptStep(s, e);
    } else if e.StopCall? || e.CallerWakes? {
      CallerState(s, e);
    } else {
      OtherState(s, e);
      OthersLeaveAttempts(s, e);
    }
  }

  // ---- Component stops ----

  /** What a call of a component's stop that settles leaves behind. */
  ghost predicate SettledAs(s: Stops, t: Stops, o: nat, outcome: Outcome)
    requires o < |s.ops|
  {
    var op := s.ops[o];
    var gone := outcome.Succeeded? && !op.admission;
    && t.ops == s.ops[o := op.(outcome := outcome)]
    && t.started == (if gone then Without(s.started, op.part) else s.started)
    && (forall c, admission ::
          (c in t.Pending(admission) <==>
             c in s.Pending(admission)
             && !(gone && admission && c == op.part)
             && !(outcome.Failed? && admission == op.admission && s.Pending(admission)[c] == o))
          && (c in t.Pending(admission) ==> t.Pending(admission)[c] == s.Pending(admission)[c]))
  }

  lemma SettleStep(s: Stops, o: nat, outcome: Outcome)
    requires PendingsOk(s) && o < |s.ops| && !outcome.InFlight?
    ensures SettledAs(s, ServiceStops.Settle(s, o, outcome), o, outcome)
  {
    hide Without;
  }

  lemma StopsStay(s: Runtime, e: Event)
    requires Shape(s) && Enabled(s, e) && (e.Begin? || e.Release? || e.Expire? || e.TaskStart? || e.TaskEnd?)
    ensures Step(s, e).stops == s.stops
  {
    hide Shape, Plan;
  }

  /** In every run: a call that settles is entered as settled; one that succeeded takes its component out, with its
      admission's entry, and one that failed its own entry, so that the stop can be asked for again. Calls are made by
      asking only, and contexts, tasks and releases leave them alone. */
  lemma StopSettled(states: seq<Runtime>, events: seq<Event>, i: nat)
    requires Run(states, events) && i < |events|
    ensures var s, e, t := states[i], events[i], states[i + 1];
      && (e.SettleOp? ==> e.op < |s.stops.ops| && SettledAs(s.stops, t.stops, e.op, e.outcome))
      && (e.Begin? || e.Release? || e.Expire? || e.TaskStart? || e.TaskEnd? ==> t.stops == s.stops)
  {
    hide Inv, Shape, PendingsOk, Known, SettledAs, Settle;
    var s, e := states[i], events[i];
    At(states, events, i);
    if e.SettleOp? { SettleStep(s.stops, e.op, e.outcome); }
    if e.Begin? || e.Release? || e.Expire? || e.TaskStart? || e.TaskEnd? { StopsStay(s, e); }
  }

  /** The components of a step are stopped in the order they started, seen from the end. */
  lemma {:induction false} MembersInOrder(started: seq<nat>, parts: seq<Part>, k: nat, i: nat, j: nat)
    returns (p: nat, q: nat)
    requires Known(parts, started) && i < j < |Members(started, parts, k)|
    ensures p < q < |started|
    ensures started[p] == Members(started, parts, k)[i] && started[q] == Members(started, parts, k)[j]
  {
    var n := |started| - 1;
    var rest := Members(started[..n], parts, k);
    if j < |rest| {
      p, q := MembersInOrder(started[..n], parts, k, i, j);
    } else {
      assert rest[i] in rest && rest[i] in started[..n];
      p :| 0 <= p < n && started[..n][p] == rest[i];
      q := n;
    }
  }
}
