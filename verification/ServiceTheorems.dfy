/** What holds over every run of the runtime's lifecycle, however many callers of `stop` with whatever
    contexts wait, time out and retry. */
module ServiceTheorems {
  import opened Base
  import opened ServicePlan
  import opened ServiceStops
  import opened ServiceRuntime
  import opened ServiceRuns

  ghost predicate Leads(s: Runtime, e: Event, t: Runtime) {
    Shape(s) && Enabled(s, e) && t == Step(s, e)
  }

  ghost predicate Run(states: seq<Runtime>, events: seq<Event>) {
    && |states| == |events| + 1 && (exists parts :: states[0] == Initial(parts))
    && (forall i :: 0 <= i < |events| ==> Leads(states[i], events[i], states[i + 1]))
  }

  lemma {:induction false} RunsKeepInv(states: seq<Runtime>, events: seq<Event>, i: nat)
    requires Run(states, events) && i < |states|
    ensures Inv(states[i])
  {
    hide Inv, Shape, Enabled, Step;
    if i == 0 {
      var parts :| states[0] == Initial(parts);
      InitialInv(parts);
    } else {
      RunsKeepInv(states, events, i - 1);
      assert Leads(states[i - 1], events[i - 1], states[i]);
      StepKeeps(states[i - 1], events[i - 1]);
    }
  }

  // ---- Physical stops ----

  ghost predicate SameKind(a: Op, b: Op) {
    a.part == b.part && a.admission == b.admission
  }

  /** Of the physical calls of one kind on one component at most one is under way, at most one ever
      succeeds, and none is made once one has succeeded. */
  lemma StopsNeverOverlap(states: seq<Runtime>, events: seq<Event>, i: nat, o: nat, p: nat)
    requires Run(states, events) && i < |states|
    requires o < |states[i].stops.ops| && p < |states[i].stops.ops| && o != p
      && SameKind(states[i].stops.ops[o], states[i].stops.ops[p])
    ensures var a, b := states[i].stops.ops[o].outcome, states[i].stops.ops[p].outcome;
      && !(a.InFlight? && b.InFlight?) && !(a.Succeeded? && b.Succeeded?) && !(a.InFlight? && b.Succeeded?)
      && (o < p ==> a.Failed?)
  {
    RunsKeepInv(states, events, i);
  }

  /** No component is stopped while its admission is being stopped. */
  lemma StopAfterAdmission(states: seq<Runtime>, events: seq<Event>, i: nat, o: nat, p: nat)
    requires Run(states, events) && i < |states|
    requires o < |states[i].stops.ops| && p < |states[i].stops.ops|
      && states[i].stops.ops[o].part == states[i].stops.ops[p].part
    requires states[i].stops.ops[o].admission && !states[i].stops.ops[p].admission
    ensures !(states[i].stops.ops[o].outcome.InFlight? && states[i].stops.ops[p].outcome.InFlight?)
  {
    RunsKeepInv(states, events, i);
    var t := states[i].stops;
    assert OpOk(t, t.ops[o], o) && OpOk(t, t.ops[p], p);
  }

  // ---- The order of an ordinary shutdown ----

  /** A `stop` is called when every component whose step is earlier has left. */
  lemma StopsInTurn(states: seq<Runtime>, events: seq<Event>, i: nat, o: nat, d: nat)
    requires Run(states, events) && i < |states| && !Failing(states[i])
    requires o < |states[i].stops.ops| && !states[i].stops.ops[o].admission && d in states[i].stops.ops[o].during
    ensures var parts, op := states[i].parts, states[i].stops.ops[o];
      op.part < |parts| && d < |parts| && StepOf(parts[d]) >= StepOf(parts[op.part])
  {
    RunsKeepInv(states, events, i);
    assert OpInTurn(states[i].stops.ops[o], states[i].parts);
  }

  /** Sources, components and servers, which bring work in. */
  const PRODUCERS: set<Category> := {DataSource, Component, HttpServer}

  const STORES: set<Category> := {Storage, DelayPool, TaskPool, PriorityTaskPool}

  /** What may still be started when the stop of a component is called: everything, for a producer, save those without
      an admission when it has one; no producer behind them; and then connectors without an admission leave before
      storages and pools, these before sinks, sinks before the other connectors, and telemetry last. */
  predicate MayOutlast(part: Part, other: Part) {
    if part.category in PRODUCERS then part.hasAdmission && other.category in PRODUCERS ==> other.hasAdmission
    else
      && other.category !in PRODUCERS
      && match part.category
         case Connector => if part.hasAdmission then other.category == Telemetry || (other.category == Connector
                                                       && other.hasAdmission) else true
         case DataSink => other.category !in STORES && (other.category == Connector ==> other.hasAdmission)
         case Telemetry => other.category == Telemetry
         case _ => other.category == Connector ==> other.hasAdmission
  }

  /** In every run an ordinary shutdown stops producers first, connectors whose admission can be stopped after sinks,
      and telemetry after everything else. */
  lemma SinksAfterProducers(states: seq<Runtime>, events: seq<Event>, i: nat, o: nat, d: nat)
    requires Run(states, events) && i < |states| && !Failing(states[i])
    requires o < |states[i].stops.ops| && !states[i].stops.ops[o].admission && d in states[i].stops.ops[o].during
    ensures var parts, op := states[i].parts, states[i].stops.ops[o];
      op.part < |parts| && d < |parts| && MayOutlast(parts[op.part], parts[d])
  {
    StopsInTurn(states, events, i, o, d);
  }

  /** In every run, while a component with an admission, a producer or a connector, is being stopped in an ordinary
      shutdown, its admission has been stopped. */
  lemma AdmissionStopsFirst(states: seq<Runtime>, events: seq<Event>, i: nat, o: nat) returns (p: nat)
    requires Run(states, events) && i < |states| && !Failing(states[i]) && o < |states[i].stops.ops|
    requires var t, op := states[i].stops, states[i].stops.ops[o];
      && !op.admission && op.outcome.InFlight? && op.part in t.started && op.part < |states[i].parts|
      && states[i].parts[op.part].hasAdmission
      && (states[i].parts[op.part].category in PRODUCERS || states[i].parts[op.part].category == Connector)
    ensures var t := states[i].stops;
      p < |t.ops| && t.ops[p].admission && t.ops[p].part == t.ops[o].part && t.ops[p].outcome.Succeeded?
  {
    RunsKeepInv(states, events, i);
    p := AdmissionBefore(states[i].stops, states[i].parts, o);
    hide Run, Inv;
  }

  lemma AdmissionBefore(t: Stops, parts: seq<Part>, o: nat) returns (p: nat)
    requires StopsOk(t) && Turns(t, parts) && o < |t.ops| && !t.ops[o].admission && t.ops[o].outcome.InFlight?
    requires t.ops[o].part in t.started && t.ops[o].part < |parts| && parts[t.ops[o].part].hasAdmission
    requires parts[t.ops[o].part].category in PRODUCERS || parts[t.ops[o].part].category == Connector
    ensures p < |t.ops| && t.ops[p].admission && t.ops[p].part == t.ops[o].part && t.ops[p].outcome.Succeeded?
  {
    hide Serial, Distinct, OpInTurn, StepOf;
    var c := t.ops[o].part;
    assert OpOk(t, t.ops[o], o) && SealedIn(t, c);
    p := t.admissionStops[c];
  }

  // ---- Startup and rollback ----

  /** While the runtime starts, and after its startup failed, what is started is a beginning of the start
      order, and each `stop` was called on its last element. */
  lemma StartedIsPrefix(states: seq<Runtime>, events: seq<Event>, i: nat)
    requires Run(states, events) && i < |states| && (StartupPending(states[i]) || Failing(states[i]))
    ensures var s := states[i];
      && (exists admission :: s.plan == Plan(s.parts, admission))
      && s.stops.started <= Starts(s.plan) && InStartOrder(s.parts, s.stops.started)
      && forall o :: 0 <= o < |s.stops.ops| ==>
           var op := s.stops.ops[o]; !op.admission && op.during != [] && op.part == op.during[|op.during| - 1]
  {
    hide Plan, Starts, Shape, AttemptsOk, CallersOk, StateOk, Turns, StopsOk, RollOk;
    RunsKeepInv(states, events, i);
    var s := states[i];
    if s.startup.Launching? { LaunchedOk(s, s.startup.next); }
    if s.startup.Building? { assert s.stops.started <= Starts(s.plan); }
    var admission :| s.plan == Plan(s.parts, admission);
    PlanStarts(s.parts, admission);
    OrderDistinct(s.parts, Starts(s.plan), s.stops.started);
    assert Failing(s) ==> forall o :: 0 <= o < |s.stops.ops| ==> FromTheEnd(s.stops, s.stops.ops[o]);
  }

  /** Only a `start` that returns and a `stop` that succeeds change what is started. */
  lemma StartedChanges(s: Runtime, e: Event)
    requires Shape(s) && Enabled(s, e)
    ensures var before, after := s.stops.started, Step(s, e).stops.started;
      match e
      case LaunchEnds(true) =>
        after == before + if s.plan[s.startup.next].Start? then [s.plan[s.startup.next].part] else []
      case SettleOp(o, Succeeded) =>
        after == if s.stops.ops[o].admission then before else Without(before, s.stops.ops[o].part)
      case _ => after == before
  {
    hide Shape, DoProceeds, DoCallerWakes, DoStopCall, DoWaitResumes, DoDrainEnds, DoStartupSeen;
    hide DoStartupProceeds, DoStartupResumes, Plan, Without, BeginLine;
  }

  /** A step of a failed startup takes at most the last component. */
  lemma FailingStep(s: Runtime, e: Event)
    requires Inv(s) && Enabled(s, e) && Failing(s)
    ensures var before, after := s.stops.started, Step(s, e).stops.started;
      after == before || (before != [] && after == before[..|before| - 1])
  {
    hide Plan, Starts, StartupOk, AttemptsOk, CallersOk, StateOk, Turns, Settle;
    if e.SettleOp? {
      hide DoProceeds, DoCallerWakes, DoStopCall, DoWaitResumes, DoDrainEnds, DoStartupSeen;
      SettleRolls(s.stops, e.op, e.outcome);
    } else {
      StartedChanges(s, e);
    }
  }

  lemma FailingStays(s: Runtime, e: Event)
    requires Inv(s) && Enabled(s, e) && Failing(s)
    ensures Failing(Step(s, e))
  {
    hide PlanOk, StartupOk, ModeOk, AttemptsOk, CallersOk, Shape, StartupFails, BeginLine, Settle, Plan;
    hide DoProceeds, DoCallerWakes, DoStopCall, DoWaitResumes, DoDrainSees, DoDrainEnds, DoStartupSeen;
  }

  /** In every run components leave a failed startup strictly in reverse order: what is started at any later time
      is a beginning of what was. */
  lemma {:induction false} LeavesFromTheEnd(states: seq<Runtime>, events: seq<Event>, i: nat, j: nat)
    requires Run(states, events) && i <= j < |states| && Failing(states[i])
    ensures Failing(states[j]) && states[j].stops.started <= states[i].stops.started
  {
    hide Step, Inv, Enabled, Failing;
    if i < j {
      LeavesFromTheEnd(states, events, i, j - 1);
      RunsKeepInv(states, events, j - 1);
      assert Leads(states[j - 1], events[j - 1], states[j]);
      FailingStep(states[j - 1], events[j - 1]);
      FailingStays(states[j - 1], events[j - 1]);
    }
  }

  /** Once the startup was aborted the runtime does not come to run. */
  lemma AbortedStep(s: Runtime, e: Event)
    requires Shape(s) && Enabled(s, e) && STARTUP in s.expired && s.state != Running
    ensures STARTUP in Step(s, e).expired && Step(s, e).state != Running
  {
    hide Shape, DoProceeds, DoCallerWakes, DoStopCall, DoWaitResumes, DoDrainEnds, DoStartupSeen;
    hide StartupFails, DoStartupProceeds, DoStartupResumes, Plan;
  }

  lemma {:induction false} NeverRunsAborted(states: seq<Runtime>, events: seq<Event>, i: nat, j: nat)
    requires Run(states, events) && i <= j < |states| && STARTUP in states[i].expired && states[i].state != Running
    ensures STARTUP in states[j].expired && states[j].state != Running
  {
    hide Step, Shape, Enabled;
    if i < j {
      NeverRunsAborted(states, events, i, j - 1);
      assert Leads(states[j - 1], events[j - 1], states[j]);
      AbortedStep(states[j - 1], events[j - 1]);
    }
  }

  // ---- The end ----

  lemma FinishedStays(s: Runtime, e: Event)
    requires Inv(s) && Enabled(s, e) && Finished(s)
    ensures Finished(Step(s, e))
  {
    hide Plan, StartupOk, ModeOk, AttemptsOk, CallersOk, PendingsOk, StageShape;
    hide DoProceeds, DoCallerWakes, DoStopCall, DoWaitResumes, DoDrainEnds, DoStartupSeen;
    if e.SettleOp? { EmptyStays(s.stops, e.op, e.outcome); }
  }

  lemma {:induction false} FinishedForGood(states: seq<Runtime>, events: seq<Event>, i: nat, j: nat)
    requires Run(states, events) && i <= j < |states| && Finished(states[i])
    ensures Finished(states[j])
  {
    hide Step, Inv, Enabled, Finished;
    if i < j {
      FinishedForGood(states, events, i, j - 1);
      RunsKeepInv(states, events, j - 1);
      assert Leads(states[j - 1], events[j - 1], states[j]);
      FinishedStays(states[j - 1], events[j - 1]);
    }
  }

  /** Once the runtime is stopped, or one caller of `stop` has returned, nothing is started, nothing ever
      will be, and no task is admitted. */
  lemma StoppedMeansStopped(states: seq<Runtime>, events: seq<Event>, i: nat, j: nat)
    requires Run(states, events) && i <= j < |states|
    requires states[i].state == Stopped
             || exists k :: 0 <= k < |states[i].callers| && states[i].callers[k].status.Returned?
    ensures states[j].stops.started == [] && !StartupPending(states[j]) && !states[j].accepting
  {
    hide Step, Enabled;
    RunsKeepInv(states, events, i);
    FinishedForGood(states, events, i, j);
  }
}
