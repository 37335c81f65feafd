/** What every step of the runtime's lifecycle keeps. */
module ServiceRuns {
  import opened Base
  import opened ServicePlan
  import opened ServiceStops
  import opened ServiceRuntime

  // ---- Rolling back a failed startup ----

  function Last(s: seq<nat>): nat
    requires s != []
  {
    s[|s| - 1]
  }

  ghost predicate NoneInFlight(t: Stops) {
    forall o :: 0 <= o < |t.ops| ==> !t.ops[o].outcome.InFlight?
  }

  /** Every `stop` was called on the component that had started last of those left, and one that is still
      under way concerns that component. */
  ghost predicate FromTheEnd(t: Stops, op: Op) {
    && !op.admission && op.during != [] && op.part == Last(op.during)
    && (op.outcome.InFlight? ==> t.started != [] && op.part == Last(t.started))
  }

  ghost predicate Rolls(t: Stops) {
    t.admissionStops == map[] && forall o :: 0 <= o < |t.ops| ==> FromTheEnd(t, t.ops[o])
  }

  ghost predicate RollOk(t: Stops, line: Line) {
    if line.todo == [] then t.started == []
    else
      && WaitOk(t, Last(line.todo), false, line.wait)
      && (t.started == line.todo
          || (t.started == line.todo[..|line.todo| - 1] && NoneInFlight(t)
              && (line.wait.OnOp? ==> t.ops[line.wait.op].outcome.Succeeded?)))
  }

  lemma LastInFlight(t: Stops, o: nat)
    requires StopsOk(t) && Rolls(t) && o < |t.ops| && t.ops[o].outcome.InFlight?
    ensures t.started != [] && t.ops[o].part == Last(t.started) && t.ops[o].part in t.componentStops
      && !t.ops[o].admission
    ensures forall p :: 0 <= p < |t.ops| && p != o ==> !t.ops[p].outcome.InFlight?
    ensures forall p :: 0 <= p < |t.ops| && p != o && t.ops[p].part == t.ops[o].part ==> t.ops[p].outcome.Failed?
  {
    assert FromTheEnd(t, t.ops[o]) && OpOk(t, t.ops[o], o);
    forall p | 0 <= p < |t.ops| && p != o
      ensures !t.ops[p].outcome.InFlight? && (t.ops[p].part == t.ops[o].part ==> t.ops[p].outcome.Failed?)
    {
      assert FromTheEnd(t, t.ops[p]) && OpOk(t, t.ops[p], p);
    }
  }

  lemma SettleRolls(t: Stops, o: nat, outcome: Outcome)
    requires StopsOk(t) && Rolls(t) && o < |t.ops| && t.ops[o].outcome.InFlight? && !outcome.InFlight?
    ensures Rolls(Settle(t, o, outcome)) && t.started != []
    ensures Settle(t, o, outcome).started == (if outcome.Succeeded? then t.started[..|t.started| - 1] else t.started)
    ensures NoneInFlight(Settle(t, o, outcome))
  {
    LastInFlight(t, o);
    WithoutLast(t.started);
    var u := Settle(t, o, outcome);
    hide Serial, PendingOk, OpOk, Without, Distinct;
    forall p | 0 <= p < |u.ops| ensures FromTheEnd(u, u.ops[p]) { assert FromTheEnd(t, t.ops[p]); }
  }

  lemma SettleRoll(t: Stops, o: nat, outcome: Outcome, line: Line)
    requires StopsOk(t) && Rolls(t) && o < |t.ops| && t.ops[o].outcome.InFlight? && !outcome.InFlight?
      && RollOk(t, line)
    ensures RollOk(Settle(t, o, outcome), line)
  {
    if line.todo != [] {
      SettleWait(t, o, outcome, Last(line.todo), false, line.wait);
      SettleRolls(t, o, outcome);
      LastInFlight(t, o);
      hide StopsOk, Rolls, Sealed;
    }
  }

  lemma BeginLineRolls(t: Stops, ctx: nat)
    requires StopsOk(t) && Rolls(t)
    ensures var (u, line) := BeginLine(t, t.started, ctx); StopsOk(u) && Rolls(u) && RollOk(u, line)
  {
    if t.started != [] {
      var c := Last(t.started);
      StopComponentOk(t, c, ctx, false);
      var u := BeginLine(t, t.started, ctx).0;
      hide StopsOk, WaitOk;
      forall o | 0 <= o < |u.ops| ensures FromTheEnd(u, u.ops[o]) {
        if o < |t.ops| { assert FromTheEnd(t, t.ops[o]); }
      }
    }
  }

  lemma NextInLineRolls(t: Stops, line: Line, ctx: nat)
    requires StopsOk(t) && Rolls(t) && RollOk(t, line) && line.todo != [] && line.wait.Fulfilled?
    ensures var (u, next) := NextInLine(t, line, ctx); StopsOk(u) && Rolls(u) && RollOk(u, next)
  {
    assert Last(line.todo) in line.todo;
    assert t.started == line.todo[..|line.todo| - 1];
    BeginLineRolls(t, ctx);
  }

  lemma ResumeRolls(t: Stops, line: Line, ctx: nat, expired: set<nat>)
    requires StopsOk(t) && Rolls(t) && RollOk(t, line) && line.todo != [] && line.wait.OnOp?
    ensures var (u, w) := Resume(t, line.wait, ctx, expired);
      StopsOk(u) && Rolls(u) && RollOk(u, line.(wait := w)) && u.started == t.started
  {
    var c := Last(line.todo);
    ResumeOk(t, c, false, line.wait, ctx, expired);
    var (u, w) := Resume(t, line.wait, ctx, expired);
    hide StopsOk, WaitOk;
    forall o | 0 <= o < |u.ops| ensures FromTheEnd(u, u.ops[o]) {
      if o < |t.ops| { assert FromTheEnd(t, t.ops[o]); }
    }
  }

  // ---- The ordinary shutdown ----

  /** Components whose admission stops before they do. */
  predicate TwoStage(part: Part) {
    part.hasAdmission && (Admits(part.category) || part.category == Connector)
  }

  function AdmissionStep(part: Part): nat {
    if Admits(part.category) then 1 else 3
  }

  ghost predicate SealedIn(t: Stops, c: nat) {
    c in t.admissionStops && Sealed(t, c)
  }

  ghost predicate OpInTurn(op: Op, parts: seq<Part>) {
    && op.part < |parts| && Known(parts, op.during)
    && (if op.admission then TwoStage(parts[op.part])
        else forall i :: 0 <= i < |op.during| ==> StepOf(parts[op.during[i]]) >= StepOf(parts[op.part]))
  }

  /** Every `stop` was called in its turn, and after the admission of its component had stopped. */
  ghost predicate Turns(t: Stops, parts: seq<Part>) {
    && (forall o :: 0 <= o < |t.ops| ==> OpInTurn(t.ops[o], parts))
    && (forall c <- t.started :: c < |parts| && TwoStage(parts[c]) && c in t.componentStops ==> SealedIn(t, c))
  }

  /** The steps before the k-th are done. */
  ghost predicate Reached(t: Stops, parts: seq<Part>, k: nat) {
    forall c <- t.started ::
      c < |parts| && StepOf(parts[c]) >= k && (TwoStage(parts[c]) && AdmissionStep(parts[c]) < k ==> SealedIn(t, c))
  }

  ghost predicate GroupOk(t: Stops, parts: seq<Part>, k: nat, waits: map<nat, Wait>) {
    && Reached(t, parts, k) && 1 <= k <= 7 && k != 5
    && (forall c <- waits ::
          c < |parts| && InStep(parts[c], k) && StepOf(parts[c]) >= k
            && WaitOk(t, c, AdmissionOnly(parts[c], k), waits[c]))
    && (forall c <- t.started :: c < |parts| && InStep(parts[c], k) ==> c in waits)
  }

  ghost predicate FinalOk(t: Stops, parts: seq<Part>, line: Line) {
    && (forall c <- t.started :: c in line.todo)
    && (forall c <- line.todo :: c < |parts| && StepOf(parts[c]) == 8)
    && (line.todo != [] ==> WaitOk(t, Last(line.todo), false, line.wait))
  }

  lemma SettledInTurn(op: Op, outcome: Outcome, parts: seq<Part>)
    requires OpInTurn(op, parts)
    ensures OpInTurn(op.(outcome := outcome), parts)
  {}

  lemma SettleTurns(t: Stops, o: nat, outcome: Outcome, parts: seq<Part>)
    requires StopsOk(t) && Turns(t, parts) && o < |t.ops| && t.ops[o].outcome.InFlight?
    ensures Turns(Settle(t, o, outcome), parts)
  {
    hide Without, Serial, PendingOk, OpInTurn, TwoStage;
    WithoutDistinct(t.started, t.ops[o].part);
    assert OpOk(t, t.ops[o], o);
    hide Distinct;
    var u := Settle(t, o, outcome);
    forall p | 0 <= p < |u.ops| ensures OpInTurn(u.ops[p], parts) { SettledInTurn(t.ops[p], u.ops[p].outcome, parts); }
    forall c <- u.started | c < |parts| && TwoStage(parts[c]) && c in u.componentStops ensures SealedIn(u, c) {
      assert c in t.started && SealedIn(t, c);
    }
  }

  lemma SettleReached(t: Stops, o: nat, outcome: Outcome, parts: seq<Part>, k: nat)
    requires StopsOk(t) && Reached(t, parts, k) && o < |t.ops| && t.ops[o].outcome.InFlight?
    ensures Reached(Settle(t, o, outcome), parts, k)
  {
    WithoutDistinct(t.started, t.ops[o].part);
    assert OpOk(t, t.ops[o], o);
    hide Without, Serial, Distinct;
    var u := Settle(t, o, outcome);
    forall c <- u.started ensures c in t.started && (SealedIn(t, c) ==> SealedIn(u, c)) {}
  }

  lemma SettleGroup(t: Stops, o: nat, outcome: Outcome, parts: seq<Part>, k: nat, waits: map<nat, Wait>)
    requires StopsOk(t) && GroupOk(t, parts, k, waits) && o < |t.ops| && t.ops[o].outcome.InFlight?
    ensures GroupOk(Settle(t, o, outcome), parts, k, waits)
  {
    SettleReached(t, o, outcome, parts, k);
    var u := Settle(t, o, outcome);
    forall c <- waits ensures WaitOk(u, c, AdmissionOnly(parts[c], k), waits[c]) {
      SettleWait(t, o, outcome, c, AdmissionOnly(parts[c], k), waits[c]);
    }
    hide WaitOk, Reached, StopsOk, StepOf, AdmissionOnly;
  }

  lemma SettleFinal(t: Stops, o: nat, outcome: Outcome, parts: seq<Part>, line: Line)
    requires StopsOk(t) && FinalOk(t, parts, line) && o < |t.ops| && t.ops[o].outcome.InFlight?
    ensures FinalOk(Settle(t, o, outcome), parts, line)
  {
    if line.todo != [] { SettleWait(t, o, outcome, Last(line.todo), false, line.wait); }
    hide WaitOk, StopsOk, StepOf;
  }

  /** A component may be stopped, or its admission, in a given step. */
  ghost predicate MayStop(t: Stops, parts: seq<Part>, c: nat, admission: bool) {
    && c < |parts| && Known(parts, t.started)
    && (if admission then c in t.started && TwoStage(parts[c])
        else
          && (forall d <- t.started :: StepOf(parts[d]) >= StepOf(parts[c]))
          && (c in t.started && TwoStage(parts[c]) ==> SealedIn(t, c)))
  }

  lemma NewOpTurns(t: Stops, parts: seq<Part>, c: nat, ctx: nat, admission: bool)
    requires StopsOk(t) && Turns(t, parts) && MayStop(t, parts, c, admission) && Free(t, c, admission)
    ensures Turns(StopComponent(t, c, ctx, admission).0, parts)
  {
    var u := StopComponent(t, c, ctx, admission).0;
    hide OpOk, Serial, Distinct, StepOf;
    forall o | 0 <= o < |u.ops| ensures OpInTurn(u.ops[o], parts) {
      if o < |t.ops| { assert OpInTurn(t.ops[o], parts); }
    }
    forall d <- u.started | d < |parts| && TwoStage(parts[d]) && d in u.componentStops ensures SealedIn(u, d) {
      assert SealedIn(t, d);
    }
  }

  /** What a step asks of the components it is about to stop. */
  ghost predicate Due(t: Stops, parts: seq<Part>, list: seq<nat>, k: nat) {
    Distinct(list) && Known(parts, list)
    && forall c <- list :: MayStop(t, parts, c, AdmissionOnly(parts[c], k)) && Free(t, c, AdmissionOnly(parts[c], k))
  }

  lemma ApartFree(s: Stops, t: Stops, c: nat, d: nat, parts: seq<Part>, admission: bool)
    requires Apart(s, t, c) && c != d && MayStop(s, parts, d, admission) && Free(s, d, admission)
    ensures MayStop(t, parts, d, admission) && Free(t, d, admission)
  {
    assert forall o :: 0 <= o < |s.ops| ==> t.ops[o] == s.ops[o];
    hide StepOf, TwoStage;
  }

  lemma {:induction false} StopAllApart(s: Stops, list: seq<nat>, parts: seq<Part>, k: nat, ctx: nat, d: nat,
      admission: bool, w: Wait)
    requires PendingsOk(s) && Known(parts, list) && d !in list && WaitOk(s, d, admission, w)
    ensures WaitOk(StopAll(s, list, parts, k, ctx).0, d, admission, w)
    decreases |list|
  {
    hide StopComponent, WaitOk, PendingsOk, Apart;
    if list != [] {
      var last, rest := list[|list| - 1], list[..|list| - 1];
      StopComponentApart(s, last, ctx, AdmissionOnly(parts[last], k));
      var t := StopComponent(s, last, ctx, AdmissionOnly(parts[last], k)).0;
      ApartWait(s, t, last, d, admission, w);
      StopAllApart(t, rest, parts, k, ctx, d, admission, w);
    }
  }

  lemma {:induction false} StopAllOk(s: Stops, list: seq<nat>, parts: seq<Part>, k: nat, ctx: nat)
    requires StopsOk(s) && Turns(s, parts) && Due(s, parts, list, k)
    ensures var (t, waits) := StopAll(s, list, parts, k, ctx);
      StopsOk(t) && Turns(t, parts)
      && forall c <- waits :: c < |parts| && WaitOk(t, c, AdmissionOnly(parts[c], k), waits[c])
    decreases |list|
  {
    hide StopComponent, WaitOk, Apart, Turns, MayStop, Free, AdmissionOnly, Serial, PendingOk, OpOk;
    if list != [] {
      var last, rest := list[|list| - 1], list[..|list| - 1];
      var admission := AdmissionOnly(parts[last], k);
      assert last in list;
      StopComponentOk(s, last, ctx, admission);
      NewOpTurns(s, parts, last, ctx, admission);
      var (t, w) := StopComponent(s, last, ctx, admission);
      forall c <- rest
        ensures MayStop(t, parts, c, AdmissionOnly(parts[c], k)) && Free(t, c, AdmissionOnly(parts[c], k))
      {
        assert c in list && c != last;
        ApartFree(s, t, last, c, parts, AdmissionOnly(parts[c], k));
      }
      StopAllOk(t, rest, parts, k, ctx);
      StopAllApart(t, rest, parts, k, ctx, last, admission, w);
    }
  }

  lemma MembersDue(t: Stops, parts: seq<Part>, k: nat)
    requires StopsOk(t) && Turns(t, parts) && Reached(t, parts, k) && Known(parts, t.started) && 1 <= k <= 7 && k != 5
    ensures Due(t, parts, Members(t.started, parts, k), k)
  {
    var list := Members(t.started, parts, k);
    forall c <- list
      ensures MayStop(t, parts, c, AdmissionOnly(parts[c], k)) && Free(t, c, AdmissionOnly(parts[c], k))
    {
      assert c in t.started;
      if c in t.admissionStops { assert OpInTurn(t.ops[t.admissionStops[c]], parts); }
    }
    hide Serial, OpOk, Members;
  }

  lemma ApartReached(s: Stops, t: Stops, parts: seq<Part>, k: nat)
    requires t.started == s.started && Reached(s, parts, k) && |s.ops| <= |t.ops| && t.ops[..|s.ops|] == s.ops
    requires forall c <- s.admissionStops :: c in t.admissionStops && t.admissionStops[c] == s.admissionStops[c]
    requires forall c <- s.admissionStops :: s.admissionStops[c] < |s.ops|
    ensures Reached(t, parts, k)
  {
    assert forall o :: 0 <= o < |s.ops| ==> t.ops[o] == s.ops[o];
    hide StepOf, TwoStage, AdmissionStep;
  }

  lemma StopComponentExtends(s: Stops, c: nat, ctx: nat, admission: bool)
    requires PendingsOk(s)
    ensures var t := StopComponent(s, c, ctx, admission).0;
      && |s.ops| <= |t.ops| && t.ops[..|s.ops|] == s.ops
      && forall d <- s.admissionStops :: d in t.admissionStops && t.admissionStops[d] == s.admissionStops[d]
  {}

  lemma {:induction false} StopAllExtends(s: Stops, list: seq<nat>, parts: seq<Part>, k: nat, ctx: nat)
    requires PendingsOk(s) && Known(parts, list)
    ensures var t := StopAll(s, list, parts, k, ctx).0;
      && |s.ops| <= |t.ops| && t.ops[..|s.ops|] == s.ops
      && forall d <- s.admissionStops :: d in t.admissionStops && t.admissionStops[d] == s.admissionStops[d]
    decreases |list|
  {
    hide StopComponent, AdmissionOnly, PendingsOk;
    if list != [] {
      var last := list[|list| - 1];
      StopComponentExtends(s, last, ctx, AdmissionOnly(parts[last], k));
      var t := StopComponent(s, last, ctx, AdmissionOnly(parts[last], k)).0;
      StopAllExtends(t, list[..|list| - 1], parts, k, ctx);
      var u := StopAll(t, list[..|list| - 1], parts, k, ctx).0;
      assert u.ops[..|s.ops|] == t.ops[..|s.ops|];
    }
  }

  /** A step of the ordinary path begins as it should. */
  lemma GroupBegins(s: Stops, parts: seq<Part>, k: nat, ctx: nat)
    requires StopsOk(s) && Turns(s, parts) && Reached(s, parts, k) && Known(parts, s.started) && 1 <= k <= 7 && k != 5
    ensures var (t, waits) := StopAll(s, Members(s.started, parts, k), parts, k, ctx);
      StopsOk(t) && Turns(t, parts) && GroupOk(t, parts, k, waits)
  {
    var list := Members(s.started, parts, k);
    MembersDue(s, parts, k);
    StopAllOk(s, list, parts, k, ctx);
    StopAllExtends(s, list, parts, k, ctx);
    ApartReached(s, StopAll(s, list, parts, k, ctx).0, parts, k);
    hide StopAll, Turns, Serial, OpOk, WaitOk, Members;
  }

  /** When every wait of a step was fulfilled its work is done. */
  lemma GroupDone(t: Stops, parts: seq<Part>, k: nat, waits: map<nat, Wait>)
    requires GroupOk(t, parts, k, waits) && AllFulfilled(waits)
    ensures Reached(t, parts, k + 1)
  {
    forall c <- t.started
      ensures c < |parts| && StepOf(parts[c]) >= k + 1
        && (TwoStage(parts[c]) && AdmissionStep(parts[c]) < k + 1 ==> SealedIn(t, c))
    {
      if InStep(parts[c], k) { assert waits[c].Fulfilled?; }
    }
  }

  lemma ResumeGroup(s: Stops, parts: seq<Part>, k: nat, waits: map<nat, Wait>, c: nat, ctx: nat, expired: set<nat>)
    requires StopsOk(s) && Turns(s, parts) && Known(parts, s.started) && GroupOk(s, parts, k, waits) && c in waits
      && waits[c].OnOp?
    ensures var (t, w) := Resume(s, waits[c], ctx, expired);
      StopsOk(t) && Turns(t, parts) && GroupOk(t, parts, k, waits[c := w]) && t.started == s.started
  {
    var admission := AdmissionOnly(parts[c], k);
    ResumeOk(s, c, admission, waits[c], ctx, expired);
    var (t, w) := Resume(s, waits[c], ctx, expired);
    ResumeTurns(s, parts, k, waits, c, ctx, expired);
    if t != s { StopComponentExtends(s, c, ctx, admission); }
    ApartReached(s, t, parts, k);
    forall d <- waits | d != c ensures WaitOk(t, d, AdmissionOnly(parts[d], k), waits[d]) {
      ApartWait(s, t, c, d, AdmissionOnly(parts[d], k), waits[d]);
    }
    hide WaitOk, Reached, StopsOk, StepOf, Turns, StopComponent;
  }

  lemma ResumeTurns(s: Stops, parts: seq<Part>, k: nat, waits: map<nat, Wait>, c: nat, ctx: nat, expired: set<nat>)
    requires StopsOk(s) && Turns(s, parts) && Known(parts, s.started) && GroupOk(s, parts, k, waits) && c in waits
      && waits[c].OnOp?
    ensures Turns(Resume(s, waits[c], ctx, expired).0, parts)
  {
    if Rejoins(s, waits[c], ctx, expired) {
      var admission := AdmissionOnly(parts[c], k);
      assert WaitOk(s, c, admission, waits[c]);
      assert MayStop(s, parts, c, admission);
      NewOpTurns(s, parts, c, ctx, admission);
    }
    hide StopComponent, Turns, Serial, OpOk;
  }

  lemma TelemetryMayStop(s: Stops, parts: seq<Part>, c: nat)
    requires StopsOk(s) && Turns(s, parts) && c < |parts| && StepOf(parts[c]) == 8
    requires forall d <- s.started :: d < |parts| && StepOf(parts[d]) == 8
    ensures MayStop(s, parts, c, false) && Free(s, c, false)
  {
    assert forall o :: 0 <= o < |s.ops| ==> OpInTurn(s.ops[o], parts);
    forall i | 0 <= i < |s.started| ensures s.started[i] < |parts| { assert s.started[i] in s.started; }
    hide Serial, OpOk;
  }

  lemma FinalBegins(s: Stops, parts: seq<Part>, todo: seq<nat>, ctx: nat)
    requires StopsOk(s) && Turns(s, parts) && Known(parts, s.started)
    requires (forall c <- s.started :: c in todo) && forall c <- todo :: c < |parts| && StepOf(parts[c]) == 8
    ensures var (t, line) := BeginLine(s, todo, ctx); StopsOk(t) && Turns(t, parts) && FinalOk(t, parts, line)
  {
    if todo != [] {
      assert Last(todo) in todo;
      TelemetryMayStop(s, parts, Last(todo));
      StopComponentOk(s, Last(todo), ctx, false);
      NewOpTurns(s, parts, Last(todo), ctx, false);
    }
    hide StopsOk, Turns, StopComponent, WaitOk, StepOf;
  }

  lemma NextInFinal(s: Stops, parts: seq<Part>, line: Line, ctx: nat)
    requires StopsOk(s) && Turns(s, parts) && Known(parts, s.started)
    requires FinalOk(s, parts, line) && line.todo != [] && line.wait.Fulfilled?
    ensures var (t, next) := NextInLine(s, line, ctx); StopsOk(t) && Turns(t, parts) && FinalOk(t, parts, next)
  {
    var rest := line.todo[..|line.todo| - 1];
    assert line.todo == rest + [Last(line.todo)];
    forall c <- s.started ensures c in rest { assert c in line.todo && c != Last(line.todo); }
    forall c <- rest ensures c < |parts| && StepOf(parts[c]) == 8 { assert c in line.todo; }
    FinalBegins(s, parts, rest, ctx);
    hide StopsOk, Turns, BeginLine;
  }

  lemma ResumeFinal(s: Stops, parts: seq<Part>, line: Line, ctx: nat, expired: set<nat>)
    requires StopsOk(s) && Turns(s, parts) && Known(parts, s.started)
    requires FinalOk(s, parts, line) && line.todo != [] && line.wait.OnOp?
    ensures var (t, w) := Resume(s, line.wait, ctx, expired);
      StopsOk(t) && Turns(t, parts) && FinalOk(t, parts, line.(wait := w)) && t.started == s.started
  {
    var c := Last(line.todo);
    assert c in line.todo;
    ResumeOk(s, c, false, line.wait, ctx, expired);
    TelemetryMayStop(s, parts, c);
    NewOpTurns(s, parts, c, ctx, false);
    hide StopsOk, Turns, StopComponent, StepOf, Free;
  }

  // ---- The invariant of the whole runtime ----

  predicate Failing(s: Runtime) {
    s.startup.RollingBack? || s.startup == Over(true)
  }

  /** The ordinary path finds nothing to stop. */
  predicate Bare(s: Runtime) {
    Failing(s) || s.startup.Idle?
  }

  /** Nothing is left to stop and nothing more will start. */
  ghost predicate Finished(s: Runtime) {
    !StartupPending(s) && s.stops.started == [] && !s.accepting
  }

  ghost predicate Quiet(t: Stops) {
    t.ops == [] && t.admissionStops == map[] && t.componentStops == map[]
  }

  /** The order in which the components start. */
  ghost function StartOrder(s: Runtime): seq<nat> {
    Starts(s.plan)
  }

  ghost predicate PlanOk(s: Runtime) {
    s.startup.Idle? || exists admission :: s.plan == Plan(s.parts, admission)
  }

  ghost predicate StartupOk(s: Runtime) {
    match s.startup
    case Idle => s.stops.started == [] && Quiet(s.stops) && !s.rollbackPending
    case Building => s.stops.started == [] && Quiet(s.stops) && !s.rollbackPending
    case Launching(p) => p < |s.plan| && s.stops.started == Starts(s.plan[..p]) && Quiet(s.stops) && !s.rollbackPending
    case RollingBack(line) => s.stops.started <= StartOrder(s) && RollOk(s.stops, line) && s.rollbackPending
      && !s.accepting
    case Over(failed) =>
      if failed then s.stops.started <= StartOrder(s) && (!s.rollbackPending ==> s.stops.started == []) && !s.accepting
      else !s.rollbackPending
  }

  ghost predicate ModeOk(s: Runtime) {
    StopsOk(s.stops) && if Failing(s) then Rolls(s.stops) else Turns(s.stops, s.parts)
  }

  /** The ordinary path is under way: no startup is pending and none is to be rolled back. */
  ghost predicate Ordinary(s: Runtime) {
    !StartupPending(s) && !s.rollbackPending
  }

  ghost predicate StageOk(s: Runtime, stage: Stage) {
    match stage
    case AwaitStartup => StartupPending(s) ==> STARTUP in s.expired
    case Rolling(line) => s.startup == Over(true) && s.rollbackPending && RollOk(s.stops, line)
    case RollDrain(_) => Ordinary(s) && s.stops.started == []
    case Group(k, waits) =>
      && Ordinary(s) && GroupOk(s.stops, s.parts, k, waits) && (k >= 6 ==> !s.accepting) && (Bare(s) ==> waits == map[])
    case Draining(_) => Ordinary(s) && Reached(s.stops, s.parts, 5)
    case Final(line) => Ordinary(s) && FinalOk(s.stops, s.parts, line) && !s.accepting && (Bare(s) ==> line.todo == [])
    case Ended(ok) => ok ==> Finished(s)
  }

  /** At most one attempt is under way, the one callers join. */
  ghost predicate AttemptsOk(s: Runtime) {
    forall i :: 0 <= i < |s.attempts| ==>
      StageOk(s, s.attempts[i].stage) && (s.attempts[i].stage.Ended? || s.stopPromise == Some(i))
  }

  ghost predicate CallersOk(s: Runtime) {
    forall k :: 0 <= k < |s.callers| ==> s.callers[k].status.Returned? ==> Finished(s)
  }

  ghost predicate StateOk(s: Runtime) {
    && (s.state == Created ==> s.startup.Idle? && s.attempts == [] && s.accepting)
    && (s.state == Starting ==> StartupPending(s))
    && (s.state == Running ==> s.startup == Over(false))
    && (s.state == Stopped ==> Finished(s))
  }

  ghost predicate Inv(s: Runtime) {
    Shape(s) && PlanOk(s) && StartupOk(s) && ModeOk(s) && AttemptsOk(s) && CallersOk(s) && StateOk(s)
  }

  lemma InitialInv(parts: seq<Part>)
    ensures Inv(Initial(parts))
  {}

  // ---- An operation settles ----

  lemma SettleShape(s: Runtime, o: nat, outcome: Outcome)
    requires Shape(s) && StopsOk(s.stops) && o < |s.stops.ops| && s.stops.ops[o].outcome.InFlight? && !outcome.InFlight?
    ensures Shape(s.(stops := Settle(s.stops, o, outcome)))
  {
    SettleOk(s.stops, o, outcome);
    var t := Settle(s.stops, o, outcome);
    assert |t.ops| == |s.stops.ops|;
    forall i | 0 <= i < |t.started| ensures t.started[i] < |s.parts| { assert t.started[i] in t.started; }
    forall i | 0 <= i < |s.attempts| ensures StageShape(s.attempts[i].stage, t.ops, s.parts) {
      assert StageShape(s.attempts[i].stage, s.stops.ops, s.parts);
    }
    hide Settle, Serial, OpOk, PendingOk, Distinct;
  }

  lemma SettleStage(s: Runtime, o: nat, outcome: Outcome, stage: Stage)
    requires ModeOk(s) && o < |s.stops.ops| && s.stops.ops[o].outcome.InFlight? && !outcome.InFlight?
      && StageOk(s, stage)
    ensures StageOk(s.(stops := Settle(s.stops, o, outcome)), stage)
  {
    match stage
    case Rolling(line) => SettleRoll(s.stops, o, outcome, line);
    case Group(k, waits) => SettleGroup(s.stops, o, outcome, s.parts, k, waits);
    case Draining(_) => SettleReached(s.stops, o, outcome, s.parts, 5);
    case Final(line) => SettleFinal(s.stops, o, outcome, s.parts, line);
    case RollDrain(_) => EmptyStays(s.stops, o, outcome);
    case Ended(_) => EmptyStays(s.stops, o, outcome);
    case _ =>
    hide Settle, StopsOk, Rolls, Turns, RollOk, GroupOk, FinalOk, Reached;
  }

  lemma EmptyStays(t: Stops, o: nat, outcome: Outcome)
    requires o < |t.ops|
    ensures t.started == [] ==> Settle(t, o, outcome).started == []
  {}

  lemma SettleStartup(s: Runtime, o: nat, outcome: Outcome)
    requires StartupOk(s) && ModeOk(s) && o < |s.stops.ops| && s.stops.ops[o].outcome.InFlight? && !outcome.InFlight?
    ensures var t := s.(stops := Settle(s.stops, o, outcome)); StartupOk(t) && ModeOk(t)
  {
    SettleOk(s.stops, o, outcome);
    EmptyStays(s.stops, o, outcome);
    if Failing(s) {
      SettleRolls(s.stops, o, outcome);
      if s.startup.RollingBack? { SettleRoll(s.stops, o, outcome, s.startup.line); }
    } else {
      SettleTurns(s.stops, o, outcome, s.parts);
    }
    hide Settle, StopsOk, Rolls, Turns, RollOk, Starts;
  }

  lemma ModeStops(s: Runtime)
    requires ModeOk(s)
    ensures StopsOk(s.stops)
  {}

  lemma SettleInv(s: Runtime, o: nat, outcome: Outcome)
    requires Inv(s) && o < |s.stops.ops| && s.stops.ops[o].outcome.InFlight? && !outcome.InFlight?
    ensures Inv(s.(stops := Settle(s.stops, o, outcome)))
  {
    hide Shape, StartupOk, ModeOk, StageOk, Settle, Plan;
    var t := s.(stops := Settle(s.stops, o, outcome));
    ModeStops(s);
    SettleShape(s, o, outcome);
    SettleStartup(s, o, outcome);
    EmptyStays(s.stops, o, outcome);
    forall i | 0 <= i < |s.attempts| ensures StageOk(t, t.attempts[i].stage) {
      assert StageOk(s, s.attempts[i].stage);
      SettleStage(s, o, outcome, s.attempts[i].stage);
    }
  }

  // ---- Startup ----

  /** While a startup is pending every attempt waits for it or has failed. */
  lemma OthersWait(s: Runtime, t: Runtime)
    requires StartupPending(s) && AttemptsOk(s) && CallersOk(s)
    requires t.attempts == s.attempts && t.callers == s.callers && t.expired == s.expired
      && t.stopPromise == s.stopPromise
    ensures AttemptsOk(t) && CallersOk(t)
  {
    hide RollOk, GroupOk, FinalOk, Reached;
    forall i | 0 <= i < |t.attempts| ensures StageOk(t, t.attempts[i].stage) {
      assert StageOk(s, s.attempts[i].stage);
    }
  }

  lemma ShapeGrows(s: Runtime, t: Runtime)
    requires Shape(s) && PendingsOk(t.stops) && Known(t.parts, t.stops.started) && |s.stops.ops| <= |t.stops.ops|
    requires t.attempts == s.attempts && t.callers == s.callers && t.stopPromise == s.stopPromise && t.parts == s.parts
    requires t.startup.Launching? ==> t.startup.next < |t.plan|
    requires t.startup.RollingBack? ==> LineShape(t.startup.line, t.stops.ops)
    ensures Shape(t)
  {
    hide PendingsOk;
    forall i | 0 <= i < |t.attempts| ensures StageShape(t.attempts[i].stage, t.stops.ops, t.parts) {
      assert StageShape(s.attempts[i].stage, s.stops.ops, s.parts);
    }
  }

  lemma ShapeSame(s: Runtime, t: Runtime)
    requires Shape(s) && t.stops == s.stops && !t.startup.RollingBack?
    requires t.attempts == s.attempts && t.callers == s.callers && t.stopPromise == s.stopPromise && t.parts == s.parts
    requires t.startup.Launching? ==> t.startup.next < |t.plan|
    ensures Shape(t)
  {
    ShapeGrows(s, t);
  }

  lemma OrderDistinct(parts: seq<Part>, list: seq<nat>, prefix: seq<nat>)
    requires InStartOrder(parts, list) && prefix <= list
    ensures Distinct(prefix) && Known(parts, prefix) && InStartOrder(parts, prefix)
  {
    forall i, j | 0 <= i < j < |prefix|
      ensures prefix[i] != prefix[j] && prefix[i] < |parts| && prefix[j] < |parts|
        && Before(parts, prefix[i], prefix[j])
    {
      assert prefix[i] == list[i] && prefix[j] == list[j] && Before(parts, list[i], list[j]);
    }
    forall i | 0 <= i < |prefix| ensures prefix[i] < |parts| { assert prefix[i] == list[i]; }
  }

  /** What the startup has started so far. */
  lemma LaunchedOk(s: Runtime, p: nat)
    requires PlanOk(s) && !s.startup.Idle? && p <= |s.plan|
    ensures Starts(s.plan[..p]) <= StartOrder(s) && Distinct(Starts(s.plan[..p])) && Known(s.parts, Starts(s.plan[..p]))
  {
    hide Plan, Starts;
    var admission :| s.plan == Plan(s.parts, admission);
    PlanStarts(s.parts, admission);
    StartsPrefix(s.plan, p);
    OrderDistinct(s.parts, StartOrder(s), Starts(s.plan[..p]));
  }

  lemma FailsOk(s: Runtime)
    requires Shape(s) && Quiet(s.stops) && Distinct(s.stops.started) && s.stops.started <= StartOrder(s)
    ensures var t := StartupFails(s); StartupOk(t) && ModeOk(t) && Shape(t) && StartupPending(t) && Failing(t)
  {
    hide RollOk, Starts;
    BeginLineRolls(s.stops, STARTUP);
    hide Rolls, StopsOk, BeginLine;
    ShapeGrows(s, StartupFails(s));
  }

  lemma QuietOk(t: Stops, parts: seq<Part>)
    requires Quiet(t) && Distinct(t.started)
    ensures StopsOk(t) && Rolls(t) && Turns(t, parts)
  {}

  lemma StartupFailsInv(s: Runtime, t: Runtime)
    requires Inv(s) && StartupPending(s) && Shape(t) && Quiet(t.stops)
    requires t == s.(stops := t.stops) && Distinct(t.stops.started) && t.stops.started <= StartOrder(t)
    requires s.state == Stopping || s.state == Starting
    ensures Inv(StartupFails(t))
  {
    FailsOk(t);
    OthersWait(s, StartupFails(t));
    hide Shape, StartupOk, ModeOk, AttemptsOk, Plan, Starts;
    hide BeginLine;
  }

  lemma PendingState(s: Runtime)
    requires Inv(s) && StartupPending(s)
    ensures s.state == Stopping || s.state == Starting
  {
    hide Shape, StartupOk, ModeOk, AttemptsOk, Plan, CallersOk;
  }

  lemma LaunchFromInv(s: Runtime, t: Runtime, p: nat)
    requires Inv(s) && StartupPending(s) && !s.startup.RollingBack? && Shape(t) && Quiet(t.stops) && p <= |t.plan|
    requires t == s.(stops := t.stops) && t.stops.started == Starts(t.plan[..p]) && STARTUP !in s.expired
    ensures Inv(LaunchFrom(t, p))
  {
    hide Shape, AttemptsOk, CallersOk, Plan, Starts, StopsOk, Rolls, Turns, RollOk;
    var u := LaunchFrom(t, p);
    LaunchedOk(t, p);
    QuietOk(t.stops, t.parts);
    ShapeSame(t, u);
    OthersWait(s, u);
  }

  lemma PushedOk(s: Runtime, p: nat)
    requires Shape(s) && PlanOk(s) && s.startup == Launching(p) && p < |s.plan|
      && s.stops.started == Starts(s.plan[..p]) && Quiet(s.stops)
    ensures var t := Pushed(s, s.plan[p]);
      && t == s.(stops := t.stops) && Quiet(t.stops) && Shape(t)
      && t.stops.started == Starts(s.plan[..p + 1]) && t.stops.started <= StartOrder(s) && Distinct(t.stops.started)
  {
    hide Shape, Plan, Starts, PlanOk;
    LaunchedOk(s, p + 1);
    StartsNext(s.plan, p);
    ShapeParts(s);
    ShapeGrows(s, Pushed(s, s.plan[p]));
  }

  lemma StartsNext(plan: seq<Launch>, p: nat)
    requires p < |plan|
    ensures Starts(plan[..p + 1]) == Starts(plan[..p]) + if plan[p].Start? then [plan[p].part] else []
  {
    assert plan[..p + 1][..p] == plan[..p];
  }

  lemma BuildEndsInv(s: Runtime, ok: bool)
    requires Inv(s) && s.startup.Building?
    ensures Inv(DoBuildEnds(s, ok))
  {
    PendingState(s);
    assert s.plan[..0] == [];
    if !ok || STARTUP in s.expired { StartupFailsInv(s, s); } else { LaunchFromInv(s, s, 0); }
    hide Inv, StartupFails, LaunchFrom;
  }

  lemma LaunchEndsInv(s: Runtime, ok: bool)
    requires Inv(s) && s.startup.Launching?
    ensures Inv(DoLaunchEnds(s, ok))
  {
    hide StartupFails, LaunchFrom, AttemptsOk, CallersOk, StateOk, Starts, Plan, Rolls, Turns, Serial, OpOk, PendingOk,
         StageShape;
    PendingState(s);
    var p := s.startup.next;
    LaunchedOk(s, p);
    if !ok {
      StartupFailsInv(s, s);
    } else {
      PushedOk(s, p);
      var t := Pushed(s, s.plan[p]);
      if STARTUP in s.expired { StartupFailsInv(s, t); } else { LaunchFromInv(s, t, p + 1); }
    }
  }

  lemma StartupLineInv(s: Runtime, t: Runtime)
    requires Inv(s) && s.startup.RollingBack? && t.startup.RollingBack?
      && t == s.(stops := t.stops, startup := t.startup)
    requires StopsOk(t.stops) && Rolls(t.stops) && RollOk(t.stops, t.startup.line)
      && LineShape(t.startup.line, t.stops.ops)
    requires t.stops.started == s.stops.started && |s.stops.ops| <= |t.stops.ops|
    ensures Inv(t)
  {
    hide AttemptsOk, CallersOk, Plan, Starts, RollOk, Rolls, Turns, Serial, OpOk, StageShape, PendingOk;
    OthersWait(s, t);
    ShapeGrows(s, t);
  }

  lemma FinishStartupInv(s: Runtime, t: Runtime)
    requires Inv(s) && s.startup.RollingBack? && t == s.(rollbackPending := t.rollbackPending)
    requires !t.rollbackPending ==> s.stops.started == []
    ensures Inv(FinishStartup(t))
  {
    hide Shape, AttemptsOk, CallersOk, Plan, Starts, RollOk, Rolls, Turns, StopsOk;
    var u := FinishStartup(t);
    OthersWait(s, u);
    ShapeSame(s, u);
  }

  lemma StartupProceedsInv(s: Runtime)
    requires Inv(s) && s.startup.RollingBack?
    ensures Inv(DoStartupProceeds(s))
  {
    var line := s.startup.line;
    if line.todo != [] && line.wait.Fulfilled? {
      NextInLineRolls(s.stops, line, STARTUP);
      StopComponentGrows(s.stops, line.todo[..|line.todo| - 1], STARTUP);
      StartupLineInv(s, DoStartupProceeds(s));
    } else {
      FinishStartupInv(s, if line.todo == [] then s.(rollbackPending := false) else s);
    }
    hide AttemptsOk, CallersOk, StateOk, Plan, Starts, Rolls, StopsOk, NextInLine, FinishStartup;
  }

  lemma StopComponentGrows(s: Stops, todo: seq<nat>, ctx: nat)
    requires PendingsOk(s)
    ensures |s.ops| <= |BeginLine(s, todo, ctx).0.ops|
  {}

  lemma ResumeGrows(s: Stops, w: Wait, ctx: nat, expired: set<nat>)
    requires w.OnOp? && w.op < |s.ops| && PendingsOk(s)
    ensures var (t, v) := Resume(s, w, ctx, expired); |s.ops| <= |t.ops| && (v.OnOp? ==> v.op < |t.ops|)
  {}

  lemma StartupResumesInv(s: Runtime)
    requires Inv(s) && Enabled(s, StartupResumes)
    ensures Inv(DoStartupResumes(s))
  {
    var line := s.startup.line;
    ResumeRolls(s.stops, line, STARTUP, s.expired);
    ResumeGrows(s.stops, line.wait, STARTUP, s.expired);
    StartupLineInv(s, DoStartupResumes(s));
    hide AttemptsOk, CallersOk, StateOk, Plan, Starts, Rolls, StopsOk, Resume;
  }

  // ---- Attempts ----

  /** `t` differs from `s` in what the attempt under way may change. */
  ghost predicate Moves(s: Runtime, t: Runtime, i: nat) {
    && i < |s.attempts| && |t.attempts| == |s.attempts| && s.stopPromise == Some(i)
    && t == s.(stops := t.stops, attempts := s.attempts[i := s.attempts[i].(stage := t.attempts[i].stage)],
               state := t.state, accepting := t.accepting, rollbackPending := t.rollbackPending)
    && t.stops.started == s.stops.started && |s.stops.ops| <= |t.stops.ops| && (t.accepting ==> s.accepting)
    && PendingsOk(t.stops) && StageShape(t.attempts[i].stage, t.stops.ops, t.parts)
    && (t.stops == s.stops || !StartupPending(s))
  }

  lemma MovesShape(s: Runtime, t: Runtime, i: nat)
    requires Shape(s) && Moves(s, t, i)
    ensures Shape(t)
  {
    forall j | 0 <= j < |t.attempts| ensures StageShape(t.attempts[j].stage, t.stops.ops, t.parts) {
      assert StageShape(s.attempts[j].stage, s.stops.ops, s.parts);
    }
    hide PendingsOk;
  }

  lemma MovesOthers(s: Runtime, t: Runtime, i: nat)
    requires AttemptsOk(s) && CallersOk(s) && Moves(s, t, i) && StageOk(t, t.attempts[i].stage)
    ensures AttemptsOk(t) && CallersOk(t)
  {
    hide RollOk, GroupOk, FinalOk, Reached, StageShape, PendingsOk;
    forall j | 0 <= j < |t.attempts| ensures StageOk(t, t.attempts[j].stage) {
      if j != i { assert StageOk(s, s.attempts[j].stage); }
    }
  }

  lemma MovesInv(s: Runtime, t: Runtime, i: nat)
    requires Inv(s) && Moves(s, t, i) && StageOk(t, t.attempts[i].stage) && ModeOk(t) && StartupOk(t)
    requires t.state == s.state || (t.state == Stopped && Finished(t))
    ensures Inv(t)
  {
    hide Shape, AttemptsOk, CallersOk, Plan, Starts, RollOk, ModeOk, StageOk, StageShape, PendingsOk, StartupOk;
    MovesShape(s, t, i);
    MovesOthers(s, t, i);
    assert |t.attempts| == |s.attempts|;
  }

  lemma EndsInv(s: Runtime, i: nat)
    requires Inv(s) && i < |s.attempts| && s.stopPromise == Some(i)
    ensures Inv(SetStage(s, i, Ended(false))) && Inv(SetStage(s.(accepting := false), i, Ended(false)))
  {
    hide AttemptsOk, CallersOk, StateOk, Plan, Starts, RollOk, Rolls, Turns, StopsOk, StageShape;
    var t, u := SetStage(s, i, Ended(false)), SetStage(s.(accepting := false), i, Ended(false));
    StageShapes(s, i, Ended(false), s.stops.ops);
    assert Moves(s, t, i) && Moves(s, u, i);
    assert StartupOk(t) && StartupOk(u);
    assert ModeOk(t) && ModeOk(u);
    MovesInv(s, t, i);
    MovesInv(s, u, i);
  }

  lemma StopAllNone(s: Stops, parts: seq<Part>, k: nat, ctx: nat)
    requires PendingsOk(s) && s.started == []
    ensures StopAll(s, Members(s.started, parts, k), parts, k, ctx) == (s, map[])
  {}

  lemma EnterStepMoves(s: Runtime, i: nat, k: nat)
    requires i < |s.attempts| && s.stopPromise == Some(i) && Shape(s) && !StartupPending(s)
    ensures Moves(s, EnterStep(s, i, k), i)
  {
    var ctx := s.attempts[i].ctx;
    hide PendingsOk, StopAll, BeginLine, Members, StageShape;
    if k == 8 {
      StopComponentGrows(s.stops, Members(s.stops.started, s.parts, 8), ctx);
      StageShapes(s, i, EnterStep(s, i, k).attempts[i].stage, EnterStep(s, i, k).stops.ops);
    } else {
      StageShapes(s, i, EnterStep(s, i, k).attempts[i].stage, EnterStep(s, i, k).stops.ops);
    }
  }

  lemma StageShapes(s: Runtime, i: nat, stage: Stage, ops: seq<Op>)
    ensures stage.Draining? || stage.RollDrain? || stage.Ended? ==> StageShape(stage, ops, s.parts)
    ensures stage.Final? && LineShape(stage.line, ops) ==> StageShape(stage, ops, s.parts)
    ensures stage.Rolling? && LineShape(stage.line, ops) ==> StageShape(stage, ops, s.parts)
  {}

  lemma FinalEnters(s: Runtime, i: nat)
    requires i < |s.attempts| && Shape(s) && ModeOk(s) && Ordinary(s) && !Bare(s)
    requires Reached(s.stops, s.parts, 8) && !s.accepting
    ensures var t := EnterStep(s, i, 8); StageOk(t, t.attempts[i].stage) && ModeOk(t)
  {
    hide BeginLine, StopAll, Members, Rolls, StopsOk, Turns, GroupOk, FinalOk, RollOk, PendingsOk, StageShape, Reached;
    AllTelemetry(s.stops, s.parts);
    FinalBegins(s.stops, s.parts, Members(s.stops.started, s.parts, 8), s.attempts[i].ctx);
  }

  lemma GroupEnters(s: Runtime, i: nat, k: nat)
    requires i < |s.attempts| && Shape(s) && ModeOk(s) && Ordinary(s) && !Bare(s)
    requires 1 <= k <= 7 && k != 5 && Reached(s.stops, s.parts, k) && (k >= 6 ==> !s.accepting)
    ensures var t := EnterStep(s, i, k); StageOk(t, t.attempts[i].stage) && ModeOk(t)
  {
    hide BeginLine, StopAll, Members, Rolls, StopsOk, Turns, GroupOk, FinalOk, RollOk, PendingsOk, StageShape, Reached;
    GroupBegins(s.stops, s.parts, k, s.attempts[i].ctx);
  }

  lemma EnterStepOk(s: Runtime, i: nat, k: nat)
    requires i < |s.attempts| && s.stopPromise == Some(i) && Shape(s) && ModeOk(s) && Ordinary(s) && StartupOk(s)
    requires 1 <= k <= 8 && Reached(s.stops, s.parts, k) && (k >= 6 ==> !s.accepting)
    ensures var t := EnterStep(s, i, k); StageOk(t, t.attempts[i].stage) && ModeOk(t)
  {
    hide Shape, ModeOk, RollOk, Starts, Reached, GroupOk, FinalOk;
    ShapeParts(s);
    if k == 5 {
      SameMode(s, EnterStep(s, i, 5));
    } else if Bare(s) {
      BareEnters(s, i, k);
    } else if k == 8 {
      FinalEnters(s, i);
    } else {
      GroupEnters(s, i, k);
    }
  }

  lemma SameMode(s: Runtime, t: Runtime)
    requires ModeOk(s) && t.stops == s.stops && t.startup == s.startup && t.parts == s.parts
    ensures ModeOk(t)
  {}

  lemma ShapeParts(s: Runtime)
    requires Shape(s)
    ensures PendingsOk(s.stops) && Known(s.parts, s.stops.started)
  {}

  lemma LastStep(part: Part)
    requires StepOf(part) >= 8
    ensures StepOf(part) == 8 && InStep(part, 8)
  {}

  lemma AllTelemetry(t: Stops, parts: seq<Part>)
    requires Reached(t, parts, 8) && Known(parts, t.started)
    ensures forall c <- t.started :: c in Members(t.started, parts, 8)
    ensures forall c <- Members(t.started, parts, 8) :: c < |parts| && StepOf(parts[c]) == 8
  {
    hide Members, SealedIn, StepOf, InStep, TwoStage;
    forall c <- t.started ensures c < |parts| && StepOf(parts[c]) == 8 && InStep(parts[c], 8) { LastStep(parts[c]); }
  }

  lemma BareEnters(s: Runtime, i: nat, k: nat)
    requires i < |s.attempts| && Shape(s) && ModeOk(s) && Ordinary(s) && Bare(s) && s.stops.started == []
    requires 1 <= k <= 8 && k != 5 && (k >= 6 ==> !s.accepting)
    ensures var t := EnterStep(s, i, k); StageOk(t, t.attempts[i].stage) && ModeOk(t)
  {
    StopAllNone(s.stops, s.parts, k, s.attempts[i].ctx);
    hide StopAll, Rolls, StopsOk, StageShape;
  }

  lemma EnterStepInv(s: Runtime, t: Runtime, i: nat, k: nat)
    requires Inv(s) && i < |s.attempts| && s.stopPromise == Some(i) && Ordinary(s)
    requires t == s.(accepting := t.accepting) && (t.accepting ==> s.accepting)
    requires 1 <= k <= 8 && Reached(s.stops, s.parts, k) && (k >= 6 ==> !t.accepting)
    ensures Inv(EnterStep(t, i, k))
  {
    hide AttemptsOk, CallersOk, StateOk, Plan, Rolls, Turns, StopsOk, StageShape, PendingsOk, Reached, StageOk, Starts,
         RollOk;
    ShapeSame(s, t);
    assert ModeOk(t);
    EnterStepOk(t, i, k);
    EnterStepMoves(t, i, k);
    var u := EnterStep(t, i, k);
    hide EnterStep, Shape;
    assert StartupOk(u) by { SameStartup(t, u, i); }
    MovesInv(s, u, i);
  }

  lemma SameStartup(s: Runtime, t: Runtime, i: nat)
    requires Moves(s, t, i) && StartupOk(s) && !StartupPending(s) && t.rollbackPending == s.rollbackPending
    requires s.startup.Idle? ==> Quiet(t.stops)
    ensures StartupOk(t)
  {
    hide Starts, PendingsOk, StageShape;
  }

  lemma AttemptStage(s: Runtime, i: nat)
    requires Inv(s) && i < |s.attempts|
    ensures StageOk(s, s.attempts[i].stage)
  {}

  /** The list under way in a rollback moves on. */
  lemma RollMovesInv(s: Runtime, i: nat, u: Stops, line: Line)
    requires Inv(s) && i < |s.attempts| && s.stopPromise == Some(i) && s.startup == Over(true) && s.rollbackPending
    requires StopsOk(u) && Rolls(u) && RollOk(u, line) && LineShape(line, u.ops)
    requires u.started == s.stops.started && |s.stops.ops| <= |u.ops|
    ensures Inv(SetStage(s.(stops := u), i, Rolling(line)))
  {
    hide Shape, AttemptsOk, CallersOk, StateOk, Plan, Rolls, Turns, Starts, RollOk, Serial, OpOk, PendingOk, StageShape;
    var t := SetStage(s.(stops := u), i, Rolling(line));
    StageShapes(s, i, Rolling(line), u.ops);
    assert Moves(s, t, i);
    SameStartup(s, t, i);
    MovesInv(s, t, i);
  }

  lemma AfterStartupInv(s: Runtime, i: nat)
    requires Inv(s) && i < |s.attempts| && s.stopPromise == Some(i) && !StartupPending(s)
    ensures Inv(AfterStartup(s, i))
  {
    hide AttemptsOk, CallersOk, StateOk, Plan, Turns, Starts, Rolls, Serial, OpOk, PendingOk, StageShape, EnterStep,
         BeginLine, RollOk;
    if s.rollbackPending {
      BeginLineRolls(s.stops, s.attempts[i].ctx);
      StopComponentGrows(s.stops, s.stops.started, s.attempts[i].ctx);
      var (u, line) := BeginLine(s.stops, s.stops.started, s.attempts[i].ctx);
      RollMovesInv(s, i, u, line);
    } else {
      FirstReached(s.stops, s.parts);
      EnterStepInv(s, s, i, 1);
    }
  }

  lemma FirstReached(t: Stops, parts: seq<Part>)
    requires Known(parts, t.started)
    ensures Reached(t, parts, 1)
  {
    forall c <- t.started ensures c < |parts| {
      var i :| 0 <= i < |t.started| && t.started[i] == c;
    }
  }

  lemma GroupEndsInv(s: Runtime, i: nat)
    requires Inv(s) && i < |s.attempts| && s.stopPromise == Some(i) && s.attempts[i].stage.Group?
    ensures Inv(GroupEnds(s, i))
  {
    hide AttemptsOk, CallersOk, StateOk, Plan, Turns, Starts, Rolls, StopsOk, StageShape, EnterStep, RollOk, Reached,
         PendingsOk;
    AttemptStage(s, i);
    var Group(k, waits) := s.attempts[i].stage;
    if AllFulfilled(waits) {
      GroupDone(s.stops, s.parts, k, waits);
      EnterStepInv(s, s, i, k + 1);
    } else {
      EndsInv(s, i);
    }
  }

  lemma RollDoneInv(s: Runtime, i: nat)
    requires Inv(s) && i < |s.attempts| && s.stopPromise == Some(i) && s.startup == Over(true) && s.stops.started == []
    ensures Inv(SetStage(SealIfIdle(s).(rollbackPending := false), i, RollDrain(BeginDrain(s))))
  {
    hide Shape, AttemptsOk, CallersOk, StateOk, Plan, Rolls, Turns, Starts, RollOk, StopsOk, StageShape, PendingsOk;
    ShapeParts(s);
    StageShapes(s, i, RollDrain(BeginDrain(s)), s.stops.ops);
    MovesInv(s, SetStage(SealIfIdle(s).(rollbackPending := false), i, RollDrain(BeginDrain(s))), i);
  }

  lemma RollingProceedsInv(s: Runtime, i: nat)
    requires Inv(s) && i < |s.attempts| && s.stopPromise == Some(i) && s.attempts[i].stage.Rolling?
    ensures Inv(RollingProceeds(s, i))
  {
    hide AttemptsOk, CallersOk, StateOk, Plan, Turns, Starts, Rolls, StopsOk, StageShape, PendingsOk, BeginLine, Shape,
         WaitOk;
    AttemptStage(s, i);
    ShapeParts(s);
    var line := s.attempts[i].stage.line;
    if line.todo == [] {
      RollDoneInv(s, i);
    } else if line.wait.Fulfilled? {
      NextInLineRolls(s.stops, line, s.attempts[i].ctx);
      StopComponentGrows(s.stops, line.todo[..|line.todo| - 1], s.attempts[i].ctx);
      var (u, next) := NextInLine(s.stops, line, s.attempts[i].ctx);
      RollMovesInv(s, i, u, next);
    } else {
      EndsInv(s, i);
    }
  }

  lemma FinalMovesInv(s: Runtime, i: nat, u: Stops, line: Line)
    requires Inv(s) && i < |s.attempts| && s.stopPromise == Some(i) && Ordinary(s) && !s.accepting && !Bare(s)
    requires StopsOk(u) && Turns(u, s.parts) && FinalOk(u, s.parts, line) && LineShape(line, u.ops)
    requires u.started == s.stops.started && |s.stops.ops| <= |u.ops|
    ensures Inv(SetStage(s.(stops := u), i, Final(line)))
  {
    hide Shape, AttemptsOk, CallersOk, StateOk, Plan, Rolls, Turns, Starts, RollOk, FinalOk, Serial, OpOk, PendingOk,
         StageShape;
    var t := SetStage(s.(stops := u), i, Final(line));
    StageShapes(s, i, Final(line), u.ops);
    assert Moves(s, t, i);
    SameStartup(s, t, i);
    MovesInv(s, t, i);
  }

  lemma StoppedInv(s: Runtime, t: Runtime, i: nat)
    requires Inv(s) && i < |s.attempts| && s.stopPromise == Some(i) && t == s.(accepting := false) && Finished(t)
    ensures Inv(SetStage(t.(state := Stopped), i, Ended(true)))
  {
    hide Shape, AttemptsOk, CallersOk, StateOk, Plan, Rolls, Turns, Starts, RollOk, StopsOk, StageShape, PendingsOk;
    ShapeParts(s);
    var u := SetStage(t.(state := Stopped), i, Ended(true));
    StageShapes(s, i, Ended(true), s.stops.ops);
    MovesInv(s, u, i);
  }

  lemma FinalProceedsInv(s: Runtime, i: nat)
    requires Inv(s) && i < |s.attempts| && s.stopPromise == Some(i) && s.attempts[i].stage.Final?
    ensures Inv(FinalProceeds(s, i))
  {
    hide AttemptsOk, CallersOk, StateOk, Plan, Turns, Starts, Rolls, StopsOk, StageShape, PendingsOk, BeginLine, Shape,
         FinalOk, RollOk;
    AttemptStage(s, i);
    ShapeParts(s);
    var line := s.attempts[i].stage.line;
    if line.todo == [] {
      FinalEmpty(s.stops, s.parts, line);
      StoppedInv(s, s, i);
    } else if line.wait.Fulfilled? {
      NextInFinal(s.stops, s.parts, line, s.attempts[i].ctx);
      StopComponentGrows(s.stops, line.todo[..|line.todo| - 1], s.attempts[i].ctx);
      var (u, next) := NextInLine(s.stops, line, s.attempts[i].ctx);
      FinalMovesInv(s, i, u, next);
    } else {
      EndsInv(s, i);
    }
  }

  lemma FinalEmpty(t: Stops, parts: seq<Part>, line: Line)
    requires FinalOk(t, parts, line)
    ensures line.todo == [] ==> t.started == []
  {
    assert t.started != [] ==> t.started[0] in t.started;
  }

  lemma DrainEndsInv(s: Runtime, i: nat, ok: bool)
    requires Inv(s) && i < |s.attempts| && s.stopPromise == Some(i)
    requires s.attempts[i].stage.RollDrain? || s.attempts[i].stage.Draining?
    ensures Inv(DoDrainEnds(s, i, ok))
  {
    hide AttemptsOk, CallersOk, StateOk, Plan, Turns, Starts, Rolls, StopsOk, StageShape, EnterStep, RollOk, PendingsOk,
         GroupOk, FinalOk, Reached;
    AttemptStage(s, i);
    if !ok {
      EndsInv(s, i);
    } else if s.attempts[i].stage.RollDrain? {
      StoppedInv(s, s.(accepting := false), i);
    } else {
      DrainedReached(s.stops, s.parts);
      EnterStepInv(s, s.(accepting := false), i, 6);
    }
  }

  lemma DrainSeesInv(s: Runtime, i: nat)
    requires Inv(s) && i < |s.attempts| && s.stopPromise == Some(i) && InDrain(s.attempts[i].stage)
    ensures Inv(DoDrainSees(s, i))
  {
    hide Shape, AttemptsOk, CallersOk, StateOk, Plan, Rolls, Turns, Starts, RollOk, StopsOk, StageShape, PendingsOk,
         Reached;
    AttemptStage(s, i);
    ShapeParts(s);
    var t := DoDrainSees(s, i);
    StageShapes(s, i, t.attempts[i].stage, s.stops.ops);
    MovesInv(s, t, i);
  }

  lemma DrainedReached(t: Stops, parts: seq<Part>)
    requires Reached(t, parts, 5)
    ensures Reached(t, parts, 6)
  {}

  lemma GroupMovesInv(s: Runtime, i: nat, u: Stops, k: nat, waits: map<nat, Wait>)
    requires Inv(s) && i < |s.attempts| && s.stopPromise == Some(i) && Ordinary(s) && (k >= 6 ==> !s.accepting)
      && !Bare(s)
    requires StopsOk(u) && Turns(u, s.parts) && GroupOk(u, s.parts, k, waits)
    requires u.started == s.stops.started && |s.stops.ops| <= |u.ops|
    ensures Inv(SetStage(s.(stops := u), i, Group(k, waits)))
  {
    hide Shape, AttemptsOk, CallersOk, StateOk, Plan, Rolls, Turns, Starts, RollOk, FinalOk, Serial, OpOk, PendingOk,
         StageShape, GroupOk;
    var t := SetStage(s.(stops := u), i, Group(k, waits));
    GroupShape(u, s.parts, k, waits);
    assert Moves(s, t, i);
    SameStartup(s, t, i);
    MovesInv(s, t, i);
  }

  lemma GroupShape(u: Stops, parts: seq<Part>, k: nat, waits: map<nat, Wait>)
    requires GroupOk(u, parts, k, waits)
    ensures StageShape(Group(k, waits), u.ops, parts)
  {
    hide Reached, InStep, StepOf;
  }

  lemma WaitResumesInv(s: Runtime, i: nat, c: nat)
    requires Inv(s) && i < |s.attempts| && s.stopPromise == Some(i) && WaitFor(s.attempts[i].stage, c).Some?
    requires StageShape(s.attempts[i].stage, s.stops.ops, s.parts)
    ensures Inv(DoWaitResumes(s, i, c))
  {
    hide Shape, AttemptsOk, CallersOk, StateOk, Plan, Turns, Starts, Rolls, StopsOk, RollOk, PendingsOk, GroupOk,
         FinalOk, Resume;
    AttemptStage(s, i);
    ShapeParts(s);
    var ctx := s.attempts[i].ctx;
    var w := WaitFor(s.attempts[i].stage, c).value;
    if w.OnOp? {
      ResumeGrows(s.stops, w, ctx, s.expired);
      var (u, v) := Resume(s.stops, w, ctx, s.expired);
      match s.attempts[i].stage {
        case Group(k, waits) =>
          ResumeGroup(s.stops, s.parts, k, waits, c, ctx, s.expired);
          GroupMovesInv(s, i, u, k, waits[c := v]);
        case Rolling(line) =>
          ResumeRolls(s.stops, line, ctx, s.expired);
          RollMovesInv(s, i, u, line.(wait := v));
        case Final(line) =>
          ResumeFinal(s.stops, s.parts, line, ctx, s.expired);
          FinalMovesInv(s, i, u, line.(wait := v));
      }
    }
  }

  // ---- Callers of `stop`, and the environment ----

  /** An attempt begins: it has not looked at the runtime yet. */
  lemma BegunInv(s: Runtime, t: Runtime, ctx: nat)
    requires Inv(s) && s.stopPromise.None?
    requires t == s.(state := Stopping, attempts := s.attempts + [Attempt(ctx, AwaitStartup)],
      stopPromise := Some(|s.attempts|), expired := if StartupPending(s) then s.expired + {STARTUP} else s.expired)
    ensures Inv(t)
  {
    hide Plan, Starts, Rolls, Turns, StopsOk, RollOk, PendingsOk, GroupOk, FinalOk, Reached;
    forall i | 0 <= i < |t.attempts|
      ensures StageOk(t, t.attempts[i].stage) && StageShape(t.attempts[i].stage, t.stops.ops, t.parts)
    {
      if i < |s.attempts| {
        assert StageOk(s, s.attempts[i].stage) && s.attempts[i].stage.Ended?;
      }
    }
  }

  lemma BeginAttemptInv(s: Runtime, ctx: nat)
    requires Inv(s) && s.stopPromise.None?
    ensures var t := BeginAttempt(s, ctx); Inv(t) && |t.attempts| == |s.attempts| + 1 && t.callers == s.callers
  {
    hide Inv;
    ShapeParts'(s);
    var begun := s.(state := Stopping, attempts := s.attempts + [Attempt(ctx, AwaitStartup)],
      stopPromise := Some(|s.attempts|));
    BegunInv(s, if StartupPending(s) then begun.(expired := s.expired + {STARTUP}) else begun, ctx);
    if !StartupPending(s) { AfterStartupInv(begun, |s.attempts|); }
  }

  lemma ShapeParts'(s: Runtime)
    requires Inv(s)
    ensures Shape(s) && PendingsOk(s.stops) && Known(s.parts, s.stops.started)
  {}

  lemma CallersInv(s: Runtime, t: Runtime)
    requires Inv(s) && t == s.(callers := t.callers, accepting := t.accepting, state := t.state)
      && (t.accepting ==> s.accepting)
    requires (t.state == s.state && (t.state == Created ==> t.accepting)) || (t.state == Stopped && Finished(t))
    requires forall k :: 0 <= k < |t.callers| ==>
      (t.callers[k].status.Waiting? ==> t.callers[k].status.attempt < |t.attempts|)
      && (t.callers[k].status.Returned? ==> Finished(t))
    ensures Inv(t)
  {
    hide Plan, Starts, Rolls, Turns, StopsOk, RollOk, PendingsOk, GroupOk, FinalOk, Reached, StageShape;
    forall i | 0 <= i < |t.attempts| ensures StageOk(t, t.attempts[i].stage) {
      assert StageOk(s, s.attempts[i].stage);
    }
  }

  lemma JoinInv(s: Runtime, k: nat)
    requires Inv(s) && k < |s.callers|
    ensures Inv(Join(s, k))
  {
    hide Plan, Starts, ModeOk, StartupOk, AttemptsOk, PendingsOk, StageShape, BeginAttempt;
    if s.stopPromise.None? {
      BeginAttemptInv(s, s.callers[k].ctx);
      CallersInv(BeginAttempt(s, s.callers[k].ctx), Join(s, k));
    } else {
      CallersInv(s, Join(s, k));
    }
  }

  lemma StopCallInv(s: Runtime, ctx: nat)
    requires Inv(s)
    ensures Inv(DoStopCall(s, ctx))
  {
    hide Plan, Starts, ModeOk, StartupOk, AttemptsOk, PendingsOk, StageShape, Join;
    if NothingToStop(s) {
      CallersInv(s, DoStopCall(s, ctx));
    } else {
      var t := s.(callers := s.callers + [Caller(ctx, Threw)]);
      CallersInv(s, t);
      JoinInv(t, |s.callers|);
    }
  }

  lemma CallerWakesInv(s: Runtime, k: nat, timedOut: bool, t: Runtime)
    requires PendingsOk(s.stops) && Known(s.parts, s.stops.started) && Enabled(s, CallerWakes(k, timedOut))
    requires t == DoCallerWakes(s, k, timedOut) && Inv(s)
    ensures Inv(t)
  {
    hide Plan, Starts, ModeOk, StartupOk, AttemptsOk, PendingsOk, StageShape, Join;
    AttemptStage(s, s.callers[k].status.attempt);
    if !timedOut && s.attempts[s.callers[k].status.attempt].stage != Ended(true)
       && s.callers[k].ctx !in s.expired && !s.callers[k].status.owns {
      JoinInv(s, k);
    } else {
      CallersInv(s, t);
    }
  }

  lemma ReleaseInv(s: Runtime)
    requires Inv(s) && Enabled(s, Release)
    ensures Inv(s.(stopPromise := None))
  {
    hide Plan, Starts, ModeOk, StartupOk, PendingsOk, StageShape, StateOk, RollOk, GroupOk, FinalOk, Reached;
    var t := s.(stopPromise := None);
    ShapeReleased(s);
    forall i | 0 <= i < |t.attempts| ensures StageOk(t, t.attempts[i].stage) { assert StageOk(s, s.attempts[i].stage); }
    SameMode(s, t);
    assert StartupOk(t) by { StartupSame(s, t); }
    assert StateOk(t) by { StateSame(s, t); }
  }

  lemma ShapeReleased(s: Runtime)
    requires Shape(s)
    ensures Shape(s.(stopPromise := None))
  {}

  lemma StartupSame(s: Runtime, t: Runtime)
    requires StartupOk(s)
    requires t == s.(stopPromise := t.stopPromise, expired := t.expired, tasks := t.tasks, nextTask := t.nextTask)
    ensures StartupOk(t)
  {}

  lemma StateSame(s: Runtime, t: Runtime)
    requires StateOk(s)
    requires t == s.(stopPromise := t.stopPromise, expired := t.expired, tasks := t.tasks, nextTask := t.nextTask)
    ensures StateOk(t)
  {}

  /** A context expires, or a task begins or ends. */
  lemma EnvironmentInv(s: Runtime, t: Runtime)
    requires Inv(s) && t == s.(expired := t.expired, tasks := t.tasks, nextTask := t.nextTask) && s.expired <= t.expired
    ensures Inv(t)
  {
    hide Plan, Starts, ModeOk, StartupOk, PendingsOk, StageShape, StateOk, RollOk, GroupOk, FinalOk, Reached;
    ShapeStays(s, t);
    forall i | 0 <= i < |t.attempts| ensures StageOk(t, t.attempts[i].stage) { assert StageOk(s, s.attempts[i].stage); }
    SameMode(s, t);
    StartupSame(s, t);
    StateSame(s, t);
  }

  lemma ShapeStays(s: Runtime, t: Runtime)
    requires Shape(s) && t == s.(expired := t.expired, tasks := t.tasks, nextTask := t.nextTask)
    ensures Shape(t)
  {}

  lemma BeginInv(s: Runtime, admission: bool)
    requires Inv(s) && s.state == Created
    ensures Inv(s.(state := Starting, startup := Building, plan := Plan(s.parts, admission)))
  {
    hide Plan, Starts, Rolls, Turns, StopsOk, RollOk, PendingsOk, StageOk, StageShape;
    var t := s.(state := Starting, startup := Building, plan := Plan(s.parts, admission));
    assert t.plan == Plan(t.parts, admission);
  }

  lemma StageShaped(s: Runtime, i: nat)
    requires Inv(s) && i < |s.attempts|
    ensures StageShape(s.attempts[i].stage, s.stops.ops, s.parts)
  {}

  /** The attempt under way makes a step. */
  lemma AttemptKeeps(s: Runtime, e: Event)
    requires Shape(s) && Inv(s) && Enabled(s, e)
    requires e.StartupSeen? || e.WaitResumes? || e.Proceeds? || e.DrainSees? || e.DrainEnds?
    ensures Inv(Step(s, e))
  {
    hide Inv, Shape, DoWaitResumes, DoDrainSees, DoDrainEnds, GroupEnds, RollingProceeds, FinalProceeds, AfterStartup;
    ShapeParts(s);
    var i := s.stopPromise.value;
    match e
    case StartupSeen(timedOut) => if timedOut { EndsInv(s, i); } else { AfterStartupInv(s, i); }
    case WaitResumes(c) =>
      StageShaped(s, i);
      WaitResumesInv(s, i, c);
    case Proceeds =>
      match s.attempts[i].stage {
        case Group(_, _) => GroupEndsInv(s, i);
        case Rolling(_) => RollingProceedsInv(s, i);
        case Final(_) => FinalProceedsInv(s, i);
      }
    case DrainSees => DrainSeesInv(s, i);
    case DrainEnds(ok) => DrainEndsInv(s, i, ok);
  }

  /** Every step of the runtime keeps the invariant. */
  lemma StepKeeps(s: Runtime, e: Event)
    requires Inv(s) && Enabled(s, e)
    ensures Inv(Step(s, e))
  {
    hide Inv, Shape, DoBuildEnds, DoLaunchEnds, DoStartupResumes, DoStartupProceeds, DoStopCall, DoCallerWakes,
         DoWaitResumes, DoDrainSees, DoDrainEnds, DoProceeds, DoStartupSeen, Settle, Plan;
    ShapeParts'(s);
    match e
    case Begin(admission) => BeginInv(s, admission);
    case BuildEnds(ok) => BuildEndsInv(s, ok);
    case LaunchEnds(ok) => LaunchEndsInv(s, ok);
    case StartupResumes => StartupResumesInv(s);
    case StartupProceeds => StartupProceedsInv(s);
    case SettleOp(o, outcome) => SettleInv(s, o, outcome);
    case StopCall(ctx) => StopCallInv(s, ctx);
    case CallerWakes(k, timedOut) => CallerWakesInv(s, k, timedOut, Step(s, e));
    case Release => ReleaseInv(s);
    case Expire(_) => EnvironmentInv(s, Step(s, e));
    case TaskStart => EnvironmentInv(s, Step(s, e));
    case TaskEnd(_) => EnvironmentInv(s, Step(s, e));
    case _ => AttemptKeeps(s, e);
  }
}
