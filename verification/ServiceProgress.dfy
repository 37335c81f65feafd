/** A shutdown is never stuck: whoever waits in `stop` waits for something that can still happen. */
module ServiceProgress {
  import opened Base
  import opened ServicePlan
  import opened ServiceStops
  import opened ServiceRuntime
  import opened ServiceRuns
  import opened ServiceTheorems

  /** The stage waits for the o-th physical stop. */
  ghost predicate WaitsOn(stage: Stage, o: nat) {
    match stage
    case Group(_, waits) => exists c <- waits :: waits[c].OnOp? && waits[c].op == o
    case Rolling(line) => line.wait.OnOp? && line.wait.op == o
    case Final(line) => line.wait.OnOp? && line.wait.op == o
    case _ => false
  }

  /** Something outside of the runtime that attempt `a` waits for: the construction or a call of the startup it has
      aborted, a component's stop, or an active task. */
  ghost predicate Outside(s: Runtime, a: nat, e: Event)
    requires a < |s.attempts|
  {
    var stage := s.attempts[a].stage;
    match e
    case BuildEnds(_) => stage.AwaitStartup?
    case LaunchEnds(_) => stage.AwaitStartup?
    case SettleOp(o, _) =>
      || (stage.AwaitStartup? && s.startup.RollingBack? && s.startup.line.wait.OnOp? && s.startup.line.wait.op == o)
      || WaitsOn(stage, o)
    case TaskEnd(_) => stage.RollDrain? || stage.Draining?
    case _ => false
  }

  /** The step moves attempt `a`, or the startup it waits for. */
  ghost predicate Moves(s: Runtime, a: nat, e: Event)
    requires a < |s.attempts| && Shape(s) && Enabled(s, e)
  {
    var t := Step(s, e);
    a < |t.attempts|
    && (t.attempts[a].stage != s.attempts[a].stage || (s.attempts[a].stage.AwaitStartup? && t.startup != s.startup))
  }

  lemma ResumeMoves(s: Stops, w: Wait, ctx: nat, expired: set<nat>)
    requires PendingsOk(s) && w.OnOp? && w.op < |s.ops| && !s.ops[w.op].outcome.InFlight?
    requires s.ops[w.op].part in s.Pending(s.ops[w.op].admission) ==>
      s.Pending(s.ops[w.op].admission)[s.ops[w.op].part] != w.op || s.ops[w.op].outcome.Succeeded?
    ensures Resume(s, w, ctx, expired).1 != w
  {}

  /** A wait of the startup's rollback, or its next turn. */
  lemma StartupMoves(s: Runtime, a: nat) returns (e: Event)
    requires Inv(s) && a < |s.attempts| && s.attempts[a].stage.AwaitStartup? && StartupPending(s)
    ensures Enabled(s, e) && (Outside(s, a, e) || Moves(s, a, e))
  {
    match s.startup
    case Building => e := BuildEnds(true);
    case Launching(_) => e := LaunchEnds(true);
    case RollingBack(line) =>
      if line.wait.OnOp? {
        if s.stops.ops[line.wait.op].outcome.InFlight? {
          e := SettleOp(line.wait.op, Succeeded);
        } else {
          e := StartupResumes;
          ResumeMoves(s.stops, line.wait, STARTUP, s.expired);
        }
      } else {
        e := StartupProceeds;
      }
    case _ =>
  }

  lemma GroupMoves(s: Runtime, a: nat) returns (e: Event)
    requires Inv(s) && a < |s.attempts| && s.attempts[a].stage.Group?
    ensures Enabled(s, e) && (Outside(s, a, e) || Moves(s, a, e))
  {
    var waits := s.attempts[a].stage.waits;
    if AllSettled(waits) {
      e := Proceeds;
    } else {
      var c :| c in waits && !Settled(waits[c]);
      var o := waits[c].op;
      if s.stops.ops[o].outcome.InFlight? {
        e := SettleOp(o, Succeeded);
      } else {
        e := WaitResumes(c);
        ResumeMoves(s.stops, waits[c], s.attempts[a].ctx, s.expired);
      }
    }
  }

  /** The wait of a line is for the stop of its last component. */
  lemma LineWaits(s: Runtime, a: nat)
    requires Inv(s) && a < |s.attempts| && (s.attempts[a].stage.Rolling? || s.attempts[a].stage.Final?)
    requires !s.attempts[a].stage.Ended?
    ensures s.stopPromise == Some(a) && Shape(s) && LineShape(s.attempts[a].stage.line, s.stops.ops)
    ensures var line := s.attempts[a].stage.line;
      line.todo != [] ==> WaitOk(s.stops, Last(line.todo), false, line.wait)
  {
    hide PlanOk, StartupOk, ModeOk, CallersOk, StateOk, WaitOk, PendingsOk;
    assert StageOk(s, s.attempts[a].stage);
  }

  lemma LineMoves(s: Runtime, a: nat) returns (e: Event)
    requires Inv(s) && a < |s.attempts| && (s.attempts[a].stage.Rolling? || s.attempts[a].stage.Final?)
    ensures Enabled(s, e) && (Outside(s, a, e) || Moves(s, a, e))
  {
    hide Inv, WaitOk, Moves, PendingOk, StageShape;
    LineWaits(s, a);
    var line := s.attempts[a].stage.line;
    if line.wait.OnOp? {
      if s.stops.ops[line.wait.op].outcome.InFlight? {
        e := SettleOp(line.wait.op, Succeeded);
      } else {
        e := WaitResumes(Last(line.todo));
        LineResumes(s, a, Last(line.todo));
      }
    } else {
      e := Proceeds;
      LineProceeds(s, a);
    }
  }

  lemma LineResumes(s: Runtime, a: nat, c: nat)
    requires a < |s.attempts| && (s.attempts[a].stage.Rolling? || s.attempts[a].stage.Final?)
    requires Shape(s) && s.stopPromise == Some(a)
    requires var line := s.attempts[a].stage.line;
      && line.todo != [] && c == Last(line.todo) && line.wait.OnOp? && line.wait.op < |s.stops.ops|
      && !s.stops.ops[line.wait.op].outcome.InFlight? && WaitOk(s.stops, c, false, line.wait)
    ensures Enabled(s, WaitResumes(c)) && Moves(s, a, WaitResumes(c))
  {
    hide Resume, PendingOk, StageShape;
    ResumeMoves(s.stops, s.attempts[a].stage.line.wait, s.attempts[a].ctx, s.expired);
  }

  lemma LineProceeds(s: Runtime, a: nat)
    requires a < |s.attempts| && (s.attempts[a].stage.Rolling? || s.attempts[a].stage.Final?)
    requires Shape(s) && Enabled(s, Proceeds) && s.stopPromise == Some(a)
    ensures Moves(s, a, Proceeds)
  {
    hide PendingOk, StageShape;
  }

  lemma DrainMoves(s: Runtime, a: nat) returns (e: Event)
    requires Inv(s) && a < |s.attempts| && InDrain(s.attempts[a].stage)
    ensures Enabled(s, e) && (Outside(s, a, e) || Moves(s, a, e))
  {
    if s.attempts[a].stage.drain != Busy {
      e := DrainEnds(true);
    } else if s.tasks == {} {
      e := DrainSees;
    } else {
      var task :| task in s.tasks;
      e := TaskEnd(task);
    }
  }

  /** In every run a caller that waits in `stop` can return or throw or begin anew, its attempt having ended, or its
      attempt, or the startup that has to end first, can make a step, or waits for a physical stop, a call of the
      startup, or a task, that is still under way. */
  lemma NeverStuck(states: seq<Runtime>, events: seq<Event>, i: nat, k: nat) returns (e: Event)
    requires Run(states, events) && i < |states| && k < |states[i].callers| && states[i].callers[k].status.Waiting?
    ensures Shape(states[i]) && Enabled(states[i], e) && states[i].callers[k].status.attempt < |states[i].attempts|
    ensures var a := states[i].callers[k].status.attempt;
      if states[i].attempts[a].stage.Ended? then e == CallerWakes(k, false)
      else Outside(states[i], a, e) || Moves(states[i], a, e)
  {
    RunsKeepInv(states, events, i);
    var s := states[i];
    var a := s.callers[k].status.attempt;
    match s.attempts[a].stage
    case Ended(_) => e := CallerWakes(k, false);
    case AwaitStartup => if StartupPending(s) { e := StartupMoves(s, a); } else { e := StartupSeen(false); }
    case Group(_, _) => e := GroupMoves(s, a);
    case Rolling(_) => e := LineMoves(s, a);
    case Final(_) => e := LineMoves(s, a);
    case RollDrain(_) => e := DrainMoves(s, a);
    case Draining(_) => e := DrainMoves(s, a);
  }
}
