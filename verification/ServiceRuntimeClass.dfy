/** The runtime as the object it is: fields updated in place, one method per stretch of code between two
    awaits. Every method is proved to make the step of the state machine in `ServiceRuntime`. */
module ServiceRuntimeClass {
  import opened Base
  import opened ServicePlan
  import opened ServiceStops
  import Machine = ServiceRuntime
  import opened ServiceRuns

  lemma {:induction false} WithoutAt(s: seq<nat>, c: nat, i: nat)
    requires i < |s| && s[i] == c && forall j :: 0 <= j < i ==> s[j] != c
    ensures Without(s, c) == s[..i] + s[i + 1..]
  {
    if i > 0 {
      WithoutAt(s[1..], c, i - 1);
      assert s[..i] + s[i + 1..] == [s[0]] + (s[1..][..i - 1] + s[1..][i..]);
    }
  }

  lemma {:induction false} MembersStep(started: seq<nat>, parts: seq<Part>, k: nat, n: nat)
    requires Known(parts, started) && n < |started|
    ensures Known(parts, started[..n]) && Known(parts, started[..n + 1])
    ensures Machine.Members(started[..n + 1], parts, k)
      == Machine.Members(started[..n], parts, k) + if InStep(parts[started[n]], k) then [started[n]] else []
  {
    assert started[..n + 1][..n] == started[..n];
  }

  lemma {:induction false} OfCategoryAt(parts: seq<Part>, category: Category, n: nat, found: seq<nat>)
    requires n < |parts|
    ensures (found + (if parts[n].category == category then [n] else [])) + OfCategory(parts, category, n + 1)
      == found + OfCategory(parts, category, n)
  {
    if parts[n].category == category {
      assert found + ([n] + OfCategory(parts, category, n + 1)) == found + [n] + OfCategory(parts, category, n + 1);
    } else {
      assert found + [] == found;
    }
  }

  lemma PlanStep(parts: seq<Part>, admission: bool, r: nat)
    requires r < |START_ORDER|
    ensures PlanFrom(parts, admission, r) == Turn(parts, START_ORDER[r], admission) + PlanFrom(parts, admission, r + 1)
  {}

  lemma PlanEnd(parts: seq<Part>, admission: bool)
    ensures PlanFrom(parts, admission, |START_ORDER|) == []
  {}

  /** Stopping the last of a list, and then the others. */
  lemma StopAllSplit(s: Stops, list: seq<nat>, n: nat, parts: seq<Part>, k: nat, ctx: nat, waits: map<nat, Wait>)
    requires PendingsOk(s) && n < |list| && Known(parts, list)
    ensures Known(parts, list[..n]) && Known(parts, list[..n + 1])
    ensures var (t, w) := ServiceStops.StopComponent(s, list[n], ctx, AdmissionOnly(parts[list[n]], k));
      var (whole, rest) :=
        (Machine.StopAll(s, list[..n + 1], parts, k, ctx), Machine.StopAll(t, list[..n], parts, k, ctx));
      whole.0 == rest.0 && whole.1 + waits == rest.1 + (map[list[n] := w] + waits)
  {
    hide ServiceStops.StopComponent, PendingsOk, Machine.StageShape, Machine.StopAll;
    var whole := list[..n + 1];
    assert whole[..n] == list[..n] && whole[n] == list[n];
    StopAllLast(s, whole, parts, k, ctx);
  }

  lemma StopAllLast(s: Stops, list: seq<nat>, parts: seq<Part>, k: nat, ctx: nat)
    requires PendingsOk(s) && list != [] && Known(parts, list)
    ensures var last, rest := list[|list| - 1], list[..|list| - 1];
      var (t, w) := ServiceStops.StopComponent(s, last, ctx, AdmissionOnly(parts[last], k));
      var (u, waits) := Machine.StopAll(t, rest, parts, k, ctx);
      Machine.StopAll(s, list, parts, k, ctx) == (u, waits[last := w])
  {
    hide ServiceStops.StopComponent, PendingsOk, Machine.StageShape;
  }

  lemma NoneLeft(s: Stops, list: seq<nat>, parts: seq<Part>, k: nat, ctx: nat, waits: map<nat, Wait>)
    requires PendingsOk(s)
    ensures Known(parts, list[..0]) && Machine.StopAll(s, list[..0], parts, k, ctx).0 == s
    ensures Machine.StopAll(s, list[..0], parts, k, ctx).1 + waits == waits
  {}

  lemma Each(parts: seq<Part>, list: seq<nat>, n: nat)
    requires Known(parts, list) && n < |list|
    ensures list[n] < |parts|
  {}

  /** What a method may rely on before it makes the step of an event. */
  lemma Kept(s: Machine.Runtime, e: Machine.Event)
    requires Inv(s)
    ensures Machine.Shape(s) && PendingsOk(s.stops) && Known(s.parts, s.stops.started)
    ensures Machine.Enabled(s, e) ==> Inv(Machine.Step(s, e))
    ensures s.startup.Launching? ==> s.startup.next < |s.plan|
    ensures s.startup.RollingBack? && s.startup.line.wait.OnOp? ==>
      s.startup.line.todo != [] && s.startup.line.wait.op < |s.stops.ops|
    ensures Machine.Active(s) ==> Machine.StageShape(Machine.Current(s).stage, s.stops.ops, s.parts)
  {
    if Machine.Enabled(s, e) { StepKeeps(s, e); }
    hide Inv, Machine.Step;
  }

  class ServiceRuntime {
    const parts: seq<Part>
    var plan: seq<Launch>
    var started: seq<nat>
    var admissionStops: map<nat, nat>
    var componentStops: map<nat, nat>
    var ops: seq<Op>
    var state: Machine.State
    var startup: Machine.Startup
    var rollbackPending: bool
    var expired: set<nat>
    var stopPromise: Option<nat>
    var attempts: seq<Machine.Attempt>
    var callers: seq<Machine.Caller>
    var tasks: set<nat>
    var nextTask: nat
    var accepting: bool

    function Stopping(): (s: Stops)
      reads this
    {
      Stops(started, admissionStops, componentStops, ops)
    }

    function View(): (s: Machine.Runtime)
      reads this
    {
      Machine.Runtime(parts, plan, Stopping(), state, startup, rollbackPending, expired, stopPromise,
                      attempts, callers, tasks, nextTask, accepting)
    }

    constructor (parts: seq<Part>)
      ensures View() == Machine.Initial(parts) && Inv(View())
    {
      this.parts := parts;
      plan, started, admissionStops, componentStops, ops := [], [], map[], map[], [];
      state, startup, rollbackPending, expired, stopPromise := Machine.Created, Machine.Idle, false, {}, None;
      attempts, callers, tasks, nextTask, accepting := [], [], {}, 0, true;
      new;
      InitialInv(parts);
    }

    // ---- Stopping components ----

    method StopComponent(c: nat, ctx: nat, admission: bool) returns (w: Wait)
      requires PendingsOk(Stopping())
      modifies this`admissionStops, this`componentStops, this`ops
      ensures (Stopping(), w) == ServiceStops.StopComponent(old(Stopping()), c, ctx, admission)
    {
      var pending := if admission then admissionStops else componentStops;
      if c in pending { return OnOp(pending[c], ops[pending[c]].ctx != ctx); }
      var o := |ops|;
      ops := ops + [Op(c, admission, ctx, InFlight, started)];
      if admission { admissionStops := admissionStops[c := o]; } else { componentStops := componentStops[c := o]; }
      return OnOp(o, false);
    }

    method Unlist(c: nat)
      modifies this`started
      ensures started == Without(old(started), c)
    {
      var i := 0;
      while i < |started| && started[i] != c
        invariant i <= |started| && forall j :: 0 <= j < i ==> started[j] != c
      {
        i := i + 1;
      }
      if i < |started| {
        WithoutAt(started, c, i);
        started := started[..i] + started[i + 1..];
      } else {
        assert c !in started;
      }
    }

    /** The handlers of a physical stop. */
    method Settle(o: nat, outcome: Outcome)
      requires o < |ops| && !outcome.InFlight?
      modifies this`started, this`admissionStops, this`componentStops, this`ops
      ensures Stopping() == ServiceStops.Settle(old(Stopping()), o, outcome)
    {
      var op := ops[o];
      ops := ops[o := op.(outcome := outcome)];
      if outcome.Succeeded? {
        if !op.admission {
          Unlist(op.part);
          admissionStops := admissionStops - {op.part};
        }
      } else if op.admission {
        if op.part in admissionStops && admissionStops[op.part] == o { admissionStops := admissionStops - {op.part}; }
      } else {
        if op.part in componentStops && componentStops[op.part] == o { componentStops := componentStops - {op.part}; }
      }
    }

    /** The `catch` of a joined stop. */
    method Resume(w: Wait, ctx: nat) returns (v: Wait)
      requires w.OnOp? && w.op < |ops| && PendingsOk(Stopping())
      modifies this`admissionStops, this`componentStops, this`ops
      ensures (Stopping(), v) == ServiceStops.Resume(old(Stopping()), w, ctx, expired)
    {
      var op := ops[w.op];
      if op.outcome.InFlight? { return w; }
      if op.outcome.Succeeded? { return Fulfilled; }
      if w.joined && op.outcome.cancellation && op.ctx in expired && ctx !in expired {
        v := StopComponent(op.part, ctx, op.admission);
        return;
      }
      return Rejected;
    }

    method Filter(k: nat) returns (list: seq<nat>)
      requires Known(parts, started)
      ensures list == Machine.Members(started, parts, k)
    {
      list := [];
      assert started[..0] == [];
      var n := 0;
      while n < |started|
        invariant n <= |started| && Known(parts, started[..n]) && list == Machine.Members(started[..n], parts, k)
      {
        MembersStep(started, parts, k, n);
        if InStep(parts[started[n]], k) { list := list + [started[n]]; }
        n := n + 1;
      }
      assert started[..n] == started;
    }

    /** `stopGroup` up to its await: the components of a list stop concurrently, called from its end. */
    method StopGroup(list: seq<nat>, k: nat, ctx: nat) returns (waits: map<nat, Wait>)
      requires PendingsOk(Stopping()) && Known(parts, list)
      modifies this`admissionStops, this`componentStops, this`ops
      ensures (Stopping(), waits) == Machine.StopAll(old(Stopping()), list, parts, k, ctx)
    {
      hide ServiceStops.StopComponent, PendingOk, Machine.StopAll, Machine.StageShape, Known;
      waits := map[];
      var n := |list|;
      assert list[..n] == list;
      ghost var total := Machine.StopAll(Stopping(), list, parts, k, ctx);
      assert total.1 + map[] == total.1;
      while n > 0
        invariant n <= |list| && PendingsOk(Stopping()) && started == old(started) && Known(parts, list[..n])
        invariant Machine.StopAll(Stopping(), list[..n], parts, k, ctx).0 == total.0
        invariant Machine.StopAll(Stopping(), list[..n], parts, k, ctx).1 + waits == total.1
      {
        n := n - 1;
        Each(parts, list, n);
        StopAllSplit(Stopping(), list, n, parts, k, ctx, waits);
        var w := StopComponent(list[n], ctx, AdmissionOnly(parts[list[n]], k));
        waits := map[list[n] := w] + waits;
      }
      NoneLeft(Stopping(), list, parts, k, ctx, waits);
    }

    /** One turn of `stopSequential` up to its await. */
    method StopLast(todo: seq<nat>, ctx: nat) returns (line: Machine.Line)
      requires PendingsOk(Stopping())
      modifies this`admissionStops, this`componentStops, this`ops
      ensures (Stopping(), line) == Machine.BeginLine(old(Stopping()), todo, ctx)
    {
      if todo == [] { return Machine.Line([], Fulfilled); }
      var w := StopComponent(todo[|todo| - 1], ctx, false);
      return Machine.Line(todo, w);
    }

    // ---- Startup ----

    method FindCategory(category: Category) returns (list: seq<nat>)
      ensures list == OfCategory(parts, category, 0)
    {
      list := [];
      var n := 0;
      while n < |parts|
        invariant n <= |parts| && list + OfCategory(parts, category, n) == OfCategory(parts, category, 0)
      {
        OfCategoryAt(parts, category, n, list);
        if parts[n].category == category { list := list + [n]; } else { list := list + []; }
        n := n + 1;
      }
      assert list + [] == list;
    }

    /** The calls of one turn of the startup loop. */
    method MakeTurn(category: Category, admission: bool) returns (calls: seq<Launch>)
      ensures calls == Turn(parts, category, admission)
    {
      hide OfCategory;
      if !admission && (category == DataSource || category == HttpServer) { return []; }
      calls := [];
      if category == DataSource {
        var connectors := FindCategory(Connector);
        calls := Calls(connectors, true);
      }
      var list := FindCategory(category);
      calls := calls + Calls(list, false);
    }

    /** The calls the startup loop makes one after the other. */
    method MakePlan(admission: bool) returns (calls: seq<Launch>)
      ensures calls == Plan(parts, admission)
    {
      hide Turn, PlanFrom;
      calls := [];
      assert [] + Plan(parts, admission) == Plan(parts, admission);
      var r := 0;
      while r < |START_ORDER|
        invariant r <= |START_ORDER| && calls + PlanFrom(parts, admission, r) == Plan(parts, admission)
      {
        PlanStep(parts, admission, r);
        var turn := MakeTurn(START_ORDER[r], admission);
        assert calls + (turn + PlanFrom(parts, admission, r + 1)) == calls + turn + PlanFrom(parts, admission, r + 1);
        calls := calls + turn;
        r := r + 1;
      }
      PlanEnd(parts, admission);
      assert calls + [] == calls;
    }

    method StartMode(admission: bool) returns (ok: bool)
      requires Inv(View())
      modifies this`state, this`startup, this`plan
      ensures Inv(View()) && ok == (old(state) == Machine.Created)
      ensures View() == if ok then Machine.Step(old(View()), Machine.Begin(admission)) else old(View())
    {
      hide Inv, Machine.Shape, Plan;
      Kept(View(), Machine.TaskStart);
      if state != Machine.Created { return false; }
      Kept(View(), Machine.Begin(admission));
      state := Machine.Starting;
      startup := Machine.Building;
      plan := MakePlan(admission);
      return true;
    }

    method Fail()
      requires PendingsOk(Stopping())
      modifies this
      ensures View() == Machine.StartupFails(old(View()))
    {
      hide ServiceStops.StopComponent, PendingOk, Machine.LineShape, Machine.BeginLine;
      accepting := false;
      rollbackPending := true;
      var line := StopLast(started, Machine.STARTUP);
      startup := Machine.RollingBack(line);
    }

    method LaunchFrom(p: nat)
      modifies this`state, this`startup
      ensures View() == Machine.LaunchFrom(old(View()), p)
    {
      if p < |plan| {
        startup := Machine.Launching(p);
      } else {
        state := Machine.Running;
        startup := Machine.Over(false);
      }
    }

    method BuildEnds(ok: bool)
      requires Inv(View()) && Machine.Enabled(View(), Machine.BuildEnds(ok))
      modifies this
      ensures View() == Machine.Step(old(View()), Machine.BuildEnds(ok)) && Inv(View())
    {
      hide Inv, Machine.Shape, Machine.StartupFails, Machine.LaunchFrom, PendingOk;
      Kept(View(), Machine.BuildEnds(ok));
      if !ok || Machine.STARTUP in expired { Fail(); } else { LaunchFrom(0); }
    }

    method LaunchEnds(ok: bool)
      requires Inv(View()) && Machine.Enabled(View(), Machine.LaunchEnds(ok))
      modifies this
      ensures View() == Machine.Step(old(View()), Machine.LaunchEnds(ok)) && Inv(View())
    {
      hide Inv, Machine.Shape, Machine.StartupFails, Machine.LaunchFrom, PendingOk;
      Kept(View(), Machine.LaunchEnds(ok));
      if !ok {
        Fail();
        return;
      }
      var p := startup.next;
      if plan[p].Start? { started := started + [plan[p].part]; }
      if Machine.STARTUP in expired { Fail(); } else { LaunchFrom(p + 1); }
    }

    method StartupProceeds()
      requires Inv(View()) && Machine.Enabled(View(), Machine.StartupProceeds)
      modifies this
      ensures View() == Machine.Step(old(View()), Machine.StartupProceeds) && Inv(View())
    {
      hide Inv, Machine.Shape, ServiceStops.StopComponent, PendingOk, Machine.LineShape, Machine.BeginLine;
      Kept(View(), Machine.StartupProceeds);
      var line := startup.line;
      if line.todo != [] && line.wait.Fulfilled? {
        var next := StopLast(line.todo[..|line.todo| - 1], Machine.STARTUP);
        startup := Machine.RollingBack(next);
        return;
      }
      if line.todo == [] { rollbackPending := false; }
      state := if started == [] && tasks == {} then Machine.Stopped else Machine.Stopping;
      startup := Machine.Over(true);
    }

    method StartupResumes()
      requires Inv(View()) && Machine.Enabled(View(), Machine.StartupResumes)
      modifies this
      ensures View() == Machine.Step(old(View()), Machine.StartupResumes) && Inv(View())
    {
      hide Inv, Machine.Shape, ServiceStops.Resume, PendingOk;
      Kept(View(), Machine.StartupResumes);
      var line := startup.line;
      var w := Resume(line.wait, Machine.STARTUP);
      startup := Machine.RollingBack(line.(wait := w));
    }

    // ---- Attempts ----

    method SetStage(i: nat, stage: Machine.Stage)
      requires i < |attempts|
      modifies this`attempts
      ensures View() == Machine.SetStage(old(View()), i, stage)
    {
      attempts := attempts[i := attempts[i].(stage := stage)];
    }

    /** `drainTasks` up to its await. */
    method BeginDrain() returns (drain: Machine.Drain)
      modifies this`accepting
      ensures drain == Machine.BeginDrain(old(View())) && View() == Machine.SealIfIdle(old(View()))
    {
      if tasks != {} { return Machine.Busy; }
      accepting := false;
      return Machine.Closed;
    }

    method EnterStep(i: nat, k: nat)
      requires i < |attempts| && PendingsOk(Stopping()) && Known(parts, started)
      modifies this
      ensures View() == Machine.EnterStep(old(View()), i, k)
    {
      if k == 5 {
        var drain := BeginDrain();
        SetStage(i, Machine.Draining(drain));
        return;
      }
      var list := Filter(k);
      if k == 8 {
        var line := StopLast(list, attempts[i].ctx);
        SetStage(i, Machine.Final(line));
      } else {
        var waits := StopGroup(list, k, attempts[i].ctx);
        SetStage(i, Machine.Group(k, waits));
      }
    }

    /** `stopOnce` once no startup is pending. */
    method AfterStartup(i: nat)
      requires i < |attempts| && PendingsOk(Stopping()) && Known(parts, started)
      modifies this
      ensures View() == Machine.AfterStartup(old(View()), i)
    {
      if rollbackPending {
        var line := StopLast(started, attempts[i].ctx);
        SetStage(i, Machine.Rolling(line));
      } else {
        EnterStep(i, 1);
      }
    }

    method BeginAttempt(ctx: nat)
      requires PendingsOk(Stopping()) && Known(parts, started)
      modifies this
      ensures View() == Machine.BeginAttempt(old(View()), ctx)
    {
      hide Machine.AfterStartup, PendingOk;
      var i := |attempts|;
      attempts := attempts + [Machine.Attempt(ctx, Machine.AwaitStartup)];
      stopPromise := Some(i);
      state := Machine.Stopping;
      if startup.Building? || startup.Launching? || startup.RollingBack? {
        expired := expired + {Machine.STARTUP};
      } else {
        AfterStartup(i);
      }
    }

    /** The startup an attempt waits for is over, or the attempt's context has expired. */
    method StartupSeen(i: nat, timedOut: bool)
      requires i < |attempts| && PendingsOk(Stopping()) && Known(parts, started)
      modifies this
      ensures View() == Machine.DoStartupSeen(old(View()), i, timedOut)
    {
      hide Machine.AfterStartup, PendingOk;
      if timedOut {
        accepting := false;
        SetStage(i, Machine.Ended(false));
      } else {
        AfterStartup(i);
      }
    }

    /** A wait of an attempt for one component goes on. */
    method WaitResumes(i: nat, c: nat)
      requires i < |attempts| && PendingsOk(Stopping()) && Machine.StageShape(attempts[i].stage, ops, parts)
      modifies this
      ensures View() == Machine.DoWaitResumes(old(View()), i, c)
    {
      hide ServiceStops.Resume, PendingOk;
      var w := Machine.WaitFor(attempts[i].stage, c);
      if w.Some? && w.value.OnOp? {
        var v := Resume(w.value, attempts[i].ctx);
        SetStage(i, Machine.WithWait(attempts[i].stage, c, v));
      }
    }

    method RollingProceeds(i: nat)
      requires i < |attempts| && PendingsOk(Stopping()) && attempts[i].stage.Rolling?
      modifies this
      ensures View() == Machine.RollingProceeds(old(View()), i)
    {
      hide ServiceStops.StopComponent, PendingOk, Machine.LineShape, Machine.BeginLine;
      var line := attempts[i].stage.line;
      if line.todo == [] {
        rollbackPending := false;
        var drain := BeginDrain();
        SetStage(i, Machine.RollDrain(drain));
      } else if line.wait.Fulfilled? {
        var next := StopLast(line.todo[..|line.todo| - 1], attempts[i].ctx);
        SetStage(i, Machine.Rolling(next));
      } else {
        SetStage(i, Machine.Ended(false));
      }
    }

    method FinalProceeds(i: nat)
      requires i < |attempts| && PendingsOk(Stopping()) && attempts[i].stage.Final?
      modifies this
      ensures View() == Machine.FinalProceeds(old(View()), i)
    {
      hide ServiceStops.StopComponent, PendingOk, Machine.LineShape, Machine.BeginLine;
      var line := attempts[i].stage.line;
      if line.todo == [] {
        state := Machine.Stopped;
        SetStage(i, Machine.Ended(true));
      } else if line.wait.Fulfilled? {
        var next := StopLast(line.todo[..|line.todo| - 1], attempts[i].ctx);
        SetStage(i, Machine.Final(next));
      } else {
        SetStage(i, Machine.Ended(false));
      }
    }

    method GroupEnds(i: nat)
      requires i < |attempts| && PendingsOk(Stopping()) && Known(parts, started) && attempts[i].stage.Group?
      modifies this
      ensures View() == Machine.GroupEnds(old(View()), i)
    {
      hide Machine.EnterStep, PendingOk;
      var Group(k, waits) := attempts[i].stage;
      if Machine.AllFulfilled(waits) { EnterStep(i, k + 1); } else { SetStage(i, Machine.Ended(false)); }
    }

    method DrainEnds(i: nat, ok: bool)
      requires i < |attempts| && PendingsOk(Stopping()) && Known(parts, started)
      modifies this
      ensures View() == Machine.DoDrainEnds(old(View()), i, ok)
    {
      hide Machine.EnterStep, PendingOk;
      accepting := false;
      if !ok {
        SetStage(i, Machine.Ended(false));
      } else if attempts[i].stage.RollDrain? {
        state := Machine.Stopped;
        SetStage(i, Machine.Ended(true));
      } else {
        EnterStep(i, 6);
      }
    }

    // ---- `stop` ----

    method Join(k: nat)
      requires k < |callers| && PendingsOk(Stopping()) && Known(parts, started)
      modifies this
      ensures View() == Machine.Join(old(View()), k)
    {
      var caller, i := callers[k], |attempts|;
      if stopPromise.Some? {
        callers := callers[k := caller.(status := Machine.Waiting(stopPromise.value, false))];
      } else {
        BeginAttempt(caller.ctx);
        callers := callers[k := caller.(status := Machine.Waiting(i, true))];
      }
    }

    method Stop(ctx: nat)
      requires Inv(View()) && Machine.Enabled(View(), Machine.StopCall(ctx))
      modifies this
      ensures View() == Machine.Step(old(View()), Machine.StopCall(ctx)) && Inv(View())
    {
      hide Inv, Machine.Shape, Machine.Join, PendingOk;
      Kept(View(), Machine.StopCall(ctx));
      var pending := startup.Building? || startup.Launching? || startup.RollingBack?;
      if !pending && started == [] && tasks == {} {
        accepting := false;
        state := Machine.Stopped;
        callers := callers + [Machine.Caller(ctx, Machine.Returned)];
        return;
      }
      callers := callers + [Machine.Caller(ctx, Machine.Threw)];
      Join(|callers| - 1);
    }

    /** A caller of `stop` wakes from its wait for an attempt. */
    method Wake(k: nat, timedOut: bool)
      requires Inv(View()) && Machine.Enabled(View(), Machine.CallerWakes(k, timedOut))
      modifies this
      ensures View() == Machine.Step(old(View()), Machine.CallerWakes(k, timedOut)) && Inv(View())
    {
      hide Inv, Machine.Shape, Machine.Join, PendingOk;
      Kept(View(), Machine.CallerWakes(k, timedOut));
      var caller := callers[k];
      if !timedOut {
        if attempts[caller.status.attempt].stage == Machine.Ended(true) {
          callers := callers[k := caller.(status := Machine.Returned)];
          return;
        }
        if caller.ctx !in expired && !caller.status.owns {
          Join(k);
          return;
        }
      }
      accepting := false;
      callers := callers[k := caller.(status := Machine.Threw)];
    }

    // ---- The other events ----

    /** A physical stop settles. */
    method StopSettles(o: nat, outcome: Outcome)
      requires Inv(View()) && Machine.Enabled(View(), Machine.SettleOp(o, outcome))
      modifies this
      ensures View() == Machine.Step(old(View()), Machine.SettleOp(o, outcome)) && Inv(View())
    {
      hide Inv, Machine.Shape, ServiceStops.Settle, PendingOk;
      Kept(View(), Machine.SettleOp(o, outcome));
      Settle(o, outcome);
    }

    /** The startup an attempt waits for is over, or its context has expired. */
    method AttemptSeesStartup(timedOut: bool)
      requires Inv(View()) && Machine.Enabled(View(), Machine.StartupSeen(timedOut))
      modifies this
      ensures View() == Machine.Step(old(View()), Machine.StartupSeen(timedOut)) && Inv(View())
    {
      hide Inv, Machine.Shape, Machine.DoStartupSeen, PendingOk;
      Kept(View(), Machine.StartupSeen(timedOut));
      StartupSeen(stopPromise.value, timedOut);
    }

    /** An attempt's wait for one component goes on. */
    method AttemptResumes(c: nat)
      requires Inv(View()) && Machine.Enabled(View(), Machine.WaitResumes(c))
      modifies this
      ensures View() == Machine.Step(old(View()), Machine.WaitResumes(c)) && Inv(View())
    {
      hide Inv, Machine.Shape, Machine.DoWaitResumes, PendingOk, Machine.StageShape;
      Kept(View(), Machine.WaitResumes(c));
      WaitResumes(stopPromise.value, c);
    }

    /** The stage of an attempt is over. */
    method AttemptProceeds()
      requires Inv(View()) && Machine.Enabled(View(), Machine.Proceeds)
      modifies this
      ensures View() == Machine.Step(old(View()), Machine.Proceeds) && Inv(View())
    {
      hide Inv, Machine.Shape, Machine.GroupEnds, Machine.RollingProceeds, Machine.FinalProceeds, PendingOk,
           Machine.StageShape;
      Kept(View(), Machine.Proceeds);
      match attempts[stopPromise.value].stage
      case Group(_, _) => GroupEnds(stopPromise.value);
      case Rolling(_) => RollingProceeds(stopPromise.value);
      case Final(_) => FinalProceeds(stopPromise.value);
    }

    /** The loop of the registry's `drain` finds no task. */
    method DrainSees()
      requires Inv(View()) && Machine.Enabled(View(), Machine.DrainSees)
      modifies this`attempts
      ensures View() == Machine.Step(old(View()), Machine.DrainSees) && Inv(View())
    {
      hide Inv, Machine.Shape, PendingOk, Machine.StageShape;
      Kept(View(), Machine.DrainSees);
      var rolls := attempts[stopPromise.value].stage.RollDrain?;
      SetStage(stopPromise.value, if rolls then Machine.RollDrain(Machine.Seen) else Machine.Draining(Machine.Seen));
    }

    /** The drain of tasks in an attempt is over. */
    method AttemptDrains(ok: bool)
      requires Inv(View()) && Machine.Enabled(View(), Machine.DrainEnds(ok))
      modifies this
      ensures View() == Machine.Step(old(View()), Machine.DrainEnds(ok)) && Inv(View())
    {
      hide Inv, Machine.Shape, Machine.DoDrainEnds, PendingOk, Machine.StageShape;
      Kept(View(), Machine.DrainEnds(ok));
      DrainEnds(stopPromise.value, ok);
    }

    /** A settled attempt is no longer joined. */
    method Release()
      requires Inv(View()) && Machine.Enabled(View(), Machine.Release)
      modifies this`stopPromise
      ensures View() == Machine.Step(old(View()), Machine.Release) && Inv(View())
    {
      hide Inv, Machine.Shape;
      Kept(View(), Machine.Release);
      stopPromise := None;
    }

    /** A context expires. */
    method Expire(ctx: nat)
      requires Inv(View()) && Machine.Enabled(View(), Machine.Expire(ctx))
      modifies this`expired
      ensures View() == Machine.Step(old(View()), Machine.Expire(ctx)) && Inv(View())
    {
      hide Inv, Machine.Shape;
      Kept(View(), Machine.Expire(ctx));
      expired := expired + {ctx};
    }

    /** A task is admitted, or refused once admission is sealed. */
    method TaskStarts() returns (ok: bool)
      requires Inv(View()) && Machine.Enabled(View(), Machine.TaskStart)
      modifies this`tasks, this`nextTask
      ensures View() == Machine.Step(old(View()), Machine.TaskStart) && Inv(View())
      ensures ok == accepting && (!ok ==> View() == old(View()))
    {
      hide Inv, Machine.Shape;
      Kept(View(), Machine.TaskStart);
      if !accepting { return false; }
      tasks := tasks + {nextTask};
      nextTask := nextTask + 1;
      return true;
    }

    /** A task is over. */
    method TaskEnds(task: nat)
      requires Inv(View()) && Machine.Enabled(View(), Machine.TaskEnd(task))
      modifies this`tasks
      ensures View() == Machine.Step(old(View()), Machine.TaskEnd(task)) && Inv(View())
    {
      hide Inv, Machine.Shape;
      Kept(View(), Machine.TaskEnd(task));
      tasks := tasks - {task};
    }
  }
}
