/** When the retry loop of `joinValue` makes progress, and when it does not. */
module JoinProgress {
  import opened Base
  import opened JoinStorage
  import opened JoinRuns
  import opened JoinTheorems

  ghost predicate Path(states: seq<Store>, events: seq<Event>) {
    && |states| == |events| + 1
    && (forall i :: 0 <= i < |events| ==> Inv(states[i]) && Leads(states[i], events[i], states[i + 1]))
  }

  /** The context that makes a call's own new group expire before the call's value can enter it. */
  predicate Doomed(call: Call, aborted: bool) {
    call.ttl > 0.0 && call.byContext && aborted
  }

  /** A call that finds no live group creates one, and that group's chain starts with the call's own
      operation, unless the call's context has a deadline and is aborted already. */
  lemma FreshChain(s: Store, c: nat, aborted: bool)
    requires MapsOk(s) && c < |s.calls| && FindLive(s, s.calls[c].key).None?
    ensures var t := DoSeek(s, c, aborted); var x := |s.items|; var call := s.calls[c];
      && t == NewItem(s, c).(items := t.items, arms := t.arms, calls := s.calls[c := call.(phase := Queued(x))])
      && |t.items| == x + 1
      && (call.ttl > 0.0 ==> t.arms == s.arms + [Arm(x, call.byContext, Doomed(call, aborted))])
      && t.items[x].ops == (if Doomed(call, aborted) then [ExpireOp(|s.arms|), JoinOp(c)] else [JoinOp(c)])
      && !t.items[x].busy && !t.items[x].processed && t.items[x].key == call.key
      && t.items[x].deadline == (if call.ttl > 0.0 then Some(s.now + call.ttl) else None)
      && CancelOk(t.items[x], x, t.arms)
  {
    var x := |s.items|;
    ArmEffect(NewItem(s, c), x, s.calls[c].byContext, aborted);
    hide ArmDeadline;
  }

  // ---- The creator of a group ----

  /** Group `x` waits for its first operation, which is the one it was made with; it is in its place, or its
      time is over. */
  ghost predicate Untouched(s: Store, x: nat, c: nat, first: Op, deadline: Option<real>) {
    && x < |s.items| && c < |s.calls| && s.calls[c].phase == Queued(x)
    && !s.items[x].busy && !s.items[x].processed && s.items[x].ops != [] && s.items[x].ops[0] == first
    && s.items[x].deadline == deadline
    && (Located(s, s.items[x].key, x) || Expired(s.items[x], s.now))
  }

  /** A step that leaves group `x` alone but for its place in the maps. */
  lemma ElsewhereUntouched(s: Store, t: Store, x: nat, c: nat, first: Op, deadline: Option<real>)
    requires Untouched(s, x, c, first, deadline) && s.now <= t.now
    requires x < |t.items| && t.items[x] == s.items[x] && c < |t.calls| && t.calls[c].phase == s.calls[c].phase
    requires Located(s, s.items[x].key, x) ==> Located(t, s.items[x].key, x) || Expired(s.items[x], s.now)
    ensures Untouched(t, x, c, first, deadline)
  {}

  lemma OthersUntouched(s: Store, e: Event, x: nat, c: nat, first: Op, deadline: Option<real>)
    requires Inv(s) && Enabled(s, e) && !OnGroup(e) && Untouched(s, x, c, first, deadline)
    ensures Untouched(Step(s, e), x, c, first, deadline)
  {
    hide Shape, History, GaugeOk, BarrierOk, DoRotate, DoSeek, StartJoin, StartExpire, DoFinishJoin, DoFinishExpire;
    if e.Rotate? {
      InvDisjoint(s);
      RotateEffect(s);
      RotateLocates(s, s.items[x].key, x);
    }
    ElsewhereUntouched(s, Step(s, e), x, c, first, deadline);
  }

  lemma InvDisjoint(s: Store)
    requires Inv(s)
    ensures MapsOk(s)
  {}

  /** A call that finds no live group takes the place of an expired one only. */
  lemma SeekLeavesPlace(s: Store, c: nat, aborted: bool, x: nat)
    requires MapsOk(s) && c < |s.calls| && x < |s.items| && Located(s, s.items[x].key, x)
    ensures Located(DoSeek(s, c, aborted), s.items[x].key, x) || Expired(s.items[x], s.now)
  {
    SeekMaps(s, c, aborted);
    hide DoSeek;
  }

  lemma SeekItems(s: Store, d: nat, aborted: bool, x: nat)
    requires MapsOk(s) && d < |s.calls| && x < |s.items| && s.items[x].ops != []
    ensures var t := DoSeek(s, d, aborted);
      && t.now == s.now && x < |t.items| && |t.calls| == |s.calls|
      && t.items[x].ops != [] && t.items[x] == s.items[x].(ops := t.items[x].ops)
      && t.items[x].ops[0] == s.items[x].ops[0]
      && (forall c :: 0 <= c < |s.calls| && c != d ==> t.calls[c] == s.calls[c])
  {
    hide CreateItem, EmptyColumns;
    CreateLeaves(s, d, aborted);
  }

  /** Creating a group leaves the other groups, the calls and the clock alone. */
  lemma CreateLeaves(s: Store, d: nat, aborted: bool)
    requires d < |s.calls|
    ensures var t := CreateItem(s, d, aborted);
      && t.now == s.now && t.calls == s.calls && |t.items| == |s.items| + 1
      && forall x :: 0 <= x < |s.items| ==> t.items[x] == s.items[x]
  {
    hide ArmDeadline, EmptyColumns;
    ArmEffect(NewItem(s, d), |s.items|, s.calls[d].byContext, aborted);
  }

  lemma SeekUntouched(s: Store, d: nat, aborted: bool, x: nat, c: nat, first: Op, deadline: Option<real>)
    requires Inv(s) && Enabled(s, Seek(d, aborted)) && Untouched(s, x, c, first, deadline)
    ensures Untouched(DoSeek(s, d, aborted), x, c, first, deadline)
  {
    hide DoSeek, History, GaugeOk, BarrierOk, ArmsOk, ChainsOk, WaitsOk, ExpiriesOk;
    SeekItems(s, d, aborted, x);
    if Located(s, s.items[x].key, x) { SeekLeavesPlace(s, d, aborted, x); }
  }

  /** Removing or renewing group `y` leaves the place of `x`. */
  lemma OtherPlace(s: Store, t: Store, y: nat, x: nat, ttl: real, evicting: bool)
    requires MapsOk(s) && x < |s.items| && y < |s.items| && x != y
    requires var key := s.items[y].key;
      || SameMaps(t, s) || SameMaps(t, RemoveAt(s, key, Locate(s, key, y), evicting))
      || (Located(s, key, y) && SameMaps(t, Renewed(s, y, ttl)))
    ensures Located(s, s.items[x].key, x) ==> Located(t, s.items[x].key, x)
  {}

  lemma StartUntouched(s: Store, y: nat, x: nat, c: nat, first: Op, deadline: Option<real>)
    requires Inv(s) && Enabled(s, StartOp(y)) && y != x && Untouched(s, x, c, first, deadline)
    ensures Untouched(Step(s, StartOp(y)), x, c, first, deadline)
  {
    hide History, GaugeOk, BarrierOk, MapsOk, WaitsOk, ExpiriesOk, CancelDeadline, ArmDeadline;
    assert OpOk(s.items[y].ops[0], y, s.items[y].key, false, s.calls, s.arms);
    if s.items[y].ops[0].JoinOp? {
      StartJoinElsewhere(s, y, s.items[y].ops[0].call, x, c);
    } else {
      assert CancelOk(s.items[y], y, s.arms);
      StartExpireElsewhere(s, y, s.items[y].ops[0].arm, x);
    }
    hide StartJoin, StartExpire, AppendAt;
    ElsewhereUntouched(s, Step(s, StartOp(y)), x, c, first, deadline);
  }

  lemma StartJoinElsewhere(s: Store, y: nat, d: nat, x: nat, c: nat)
    requires y < |s.items| && s.items[y].ops != [] && d < |s.calls| && x < |s.items| && x != y
      && c < |s.calls| && c != d
    ensures var t := StartJoin(s, y, d);
      && t.now == s.now && x < |t.items| && t.items[x] == s.items[x] && c < |t.calls| && t.calls[c] == s.calls[c]
      && SameMaps(t, s)
  {}

  lemma StartExpireElsewhere(s: Store, y: nat, a: nat, x: nat)
    requires y < |s.items| && s.items[y].ops != [] && a < |s.arms| && CancelOk(s.items[y], y, s.arms)
    requires x < |s.items| && x != y
    ensures var t := StartExpire(s, y, a);
      t.now == s.now && x < |t.items| && t.items[x] == s.items[x] && t.calls == s.calls && SameMaps(t, s)
  {}

  lemma CancelElsewhere(s: Store, y: nat)
    requires y < |s.items| && CancelOk(s.items[y], y, s.arms)
    ensures CancelDeadline(s, y).items == s.items
  {}

  lemma ArmElsewhere(s: Store, y: nat, byContext: bool, aborted: bool, x: nat)
    requires y < |s.items| && x < |s.items| && x != y
    ensures |ArmDeadline(s, y, byContext, aborted).items| == |s.items|
    ensures ArmDeadline(s, y, byContext, aborted).items[x] == s.items[x]
  {
    ArmEffect(s, y, byContext, aborted);
    hide ArmDeadline;
  }

  lemma RenewElsewhere(s: Store, y: nat, ttl: real, byContext: bool, aborted: bool, x: nat)
    requires y < |s.items| && CancelOk(s.items[y], y, s.arms) && x < |s.items| && x != y
    ensures var t := RenewDeadline(s, y, ttl, byContext, aborted);
      t.now == s.now && t.calls == s.calls && x < |t.items| && t.items[x] == s.items[x]
  {
    hide CancelDeadline, ArmDeadline;
    CancelElsewhere(Renewed(s, y, ttl), y);
    ArmElsewhere(CancelDeadline(Renewed(s, y, ttl), y), y, byContext, aborted, x);
  }

  lemma FinishJoinElsewhere(s: Store, y: nat, d: nat, outcome: Outcome, aborted: bool, x: nat, c: nat)
    requires y < |s.items| && d < |s.calls| && s.items[y].ops != [] && CancelOk(s.items[y], y, s.arms)
    requires x < |s.items| && x != y && c < |s.calls| && c != d
    ensures var t := DoFinishJoin(s, y, d, outcome, aborted);
      t.now == s.now && x < |t.items| && t.items[x] == s.items[x] && c < |t.calls| && t.calls[c] == s.calls[c]
  {
    hide CancelDeadline, RenewDeadline;
    if outcome.Returned? {
      var marked := Mark(WithPhase(PopOp(s, y), d, Leaving), y, outcome.done);
      CancelElsewhere(marked, y);
      RenewElsewhere(marked, y, s.calls[d].ttl, s.calls[d].byContext, aborted, x);
    }
  }

  lemma FinishUntouched(s: Store, e: Event, x: nat, c: nat, first: Op, deadline: Option<real>)
    requires Inv(s) && Enabled(s, e) && (e.FinishJoin? || e.FinishExpire?) && Untouched(s, x, c, first, deadline)
    ensures Untouched(Step(s, e), x, c, first, deadline)
  {
    hide History, GaugeOk, BarrierOk, WaitsOk, ExpiriesOk, DoFinishJoin, RemoveAt, Renewed, Located, Locate;
    InvDisjoint(s);
    var y := e.item;
    assert OpOk(s.items[y].ops[0], y, s.items[y].key, true, s.calls, s.arms) && CancelOk(s.items[y], y, s.arms);
    if e.FinishJoin? {
      var d := s.items[y].ops[0].call;
      FinishJoinMaps(s, y, d, e.outcome, e.aborted);
      FinishJoinElsewhere(s, y, d, e.outcome, e.aborted, x, c);
      OtherPlace(s, Step(s, e), y, x, s.calls[d].ttl, false);
    } else {
      FinishExpireElsewhere(s, y, x);
      OtherPlace(s, Step(s, e), y, x, 0.0, true);
    }
    ElsewhereUntouched(s, Step(s, e), x, c, first, deadline);
  }

  lemma FinishExpireElsewhere(s: Store, y: nat, x: nat)
    requires y < |s.items| && s.items[y].ops != [] && x < |s.items| && x != y
    ensures var t := DoFinishExpire(s, y); var key := s.items[y].key;
      && t.now == s.now && x < |t.items| && t.items[x] == s.items[x] && t.calls == s.calls
      && SameMaps(t, RemoveAt(s, key, Locate(s, key, y), true))
  {}

  lemma FireUntouched(s: Store, a: nat, x: nat, c: nat, first: Op, deadline: Option<real>)
    requires Inv(s) && a < |s.arms| && Untouched(s, x, c, first, deadline)
    ensures Untouched(Step(s, Fire(a)), x, c, first, deadline)
  {
    hide History, GaugeOk, BarrierOk, WaitsOk, ExpiriesOk, ChainsOk;
    assert ArmOk(s.arms[a], a, s.items) && CancelOk(s.items[s.arms[a].item], s.arms[a].item, s.arms);
  }

  /** Until its first operation starts nothing takes a group from its creator but the clock. */
  lemma StepUntouched(s: Store, e: Event, x: nat, c: nat, first: Op, deadline: Option<real>)
    requires Inv(s) && Enabled(s, e) && Untouched(s, x, c, first, deadline) && e != StartOp(x)
    ensures Untouched(Step(s, e), x, c, first, deadline)
  {
    hide Inv, Untouched;
    match e
    case Seek(d, aborted) => SeekUntouched(s, d, aborted, x, c, first, deadline);
    case StartOp(y) => StartUntouched(s, y, x, c, first, deadline);
    case FinishJoin(_, _, _) => FinishUntouched(s, e, x, c, first, deadline);
    case FinishExpire(_) => FinishUntouched(s, e, x, c, first, deadline);
    case Fire(a) => FireUntouched(s, a, x, c, first, deadline);
    case _ => OthersUntouched(s, e, x, c, first, deadline);
  }

  lemma {:induction false} RunUntouched(states: seq<Store>, events: seq<Event>, i: nat, j: nat, x: nat, c: nat,
      first: Op, deadline: Option<real>)
    requires Run(states, events) && i <= j < |states| && Untouched(states[i], x, c, first, deadline)
    requires forall k :: i <= k < j ==> events[k] != StartOp(x)
    ensures Untouched(states[j], x, c, first, deadline)
  {
    hide Inv, Untouched, Enabled;
    if i < j {
      RunUntouched(states, events, i, j - 1, x, c, first, deadline);
      RunsKeepInv(states, events, j - 1);
      assert Leads(states[j - 1], events[j - 1], states[j]);
      StepUntouched(states[j - 1], events[j - 1], x, c, first, deadline);
    }
  }

  /** What the first operation of such a group does. */
  lemma FirstOperation(s: Store, x: nat, c: nat, first: Op, deadline: Option<real>)
    requires Inv(s) && Untouched(s, x, c, first, deadline) && Enabled(s, StartOp(x))
    requires first == JoinOp(c) || first.ExpireOp?
    ensures c < |Step(s, StartOp(x)).calls|
    ensures Step(s, StartOp(x)).calls[c].phase == InCallback(x) <==>
      first == JoinOp(c) && (deadline.None? || s.now < deadline.value)
  {
    hide History, GaugeOk, BarrierOk, WaitsOk, ExpiriesOk, MapsOk, CancelDeadline, ArmDeadline, AppendAt;
    assert OpOk(s.items[x].ops[0], x, s.items[x].key, false, s.calls, s.arms) && CancelOk(s.items[x], x, s.arms);
  }

  /** In every run: when the group a call created starts its first operation, the call gets its value in if and
      only if its context did not have a deadline and an abort already when it created the group, and the
      group's own deadline, if it has one, has not come. */
  lemma CreatorAdmitted(states: seq<Store>, events: seq<Event>, i: nat, j: nat, c: nat, aborted: bool)
    requires Run(states, events) && i < j < |events| && events[i] == Seek(c, aborted)
    requires c < |states[i].calls| && |states[i + 1].items| > |states[i].items|
    requires events[j] == StartOp(|states[i].items|)
    requires forall k :: i < k < j ==> events[k] != StartOp(|states[i].items|)
    ensures var call := states[i].calls[c];
      && c < |states[j + 1].calls|
      && (states[j + 1].calls[c].phase == InCallback(|states[i].items|) <==>
            !Doomed(call, aborted) && (call.ttl <= 0.0 || states[j].now < states[i].now + call.ttl))
  {
    hide Inv, Enabled, Untouched, DoSeek;
    var s, x, call := states[i], |states[i].items|, states[i].calls[c];
    var first := if Doomed(call, aborted) then ExpireOp(|s.arms|) else JoinOp(c);
    var deadline := if call.ttl > 0.0 then Some(s.now + call.ttl) else None;
    RunsKeepInv(states, events, i);
    assert Leads(states[i], events[i], states[i + 1]) && Leads(states[j], events[j], states[j + 1]);
    InvDisjoint(s);
    SoughtInVain(s, c, aborted);
    CreatedUntouched(s, c, aborted);
    RunUntouched(states, events, i + 1, j, x, c, first, deadline);
    RunsKeepInv(states, events, j);
    FirstOperation(states[j], x, c, first, deadline);
  }

  lemma SoughtInVain(s: Store, c: nat, aborted: bool)
    requires Inv(s) && Enabled(s, Seek(c, aborted)) && |Step(s, Seek(c, aborted)).items| > |s.items|
    ensures FindLive(s, s.calls[c].key).None?
  {
    hide History, GaugeOk, BarrierOk, CreateItem;
  }

  lemma CreatedUntouched(s: Store, c: nat, aborted: bool)
    requires Inv(s) && MapsOk(s) && Enabled(s, Seek(c, aborted)) && FindLive(s, s.calls[c].key).None?
    ensures var call := s.calls[c];
      Untouched(DoSeek(s, c, aborted), |s.items|, c, if Doomed(call, aborted) then ExpireOp(|s.arms|) else JoinOp(c),
                if call.ttl > 0.0 then Some(s.now + call.ttl) else None)
  {
    FreshChain(s, c, aborted);
    hide DoSeek, History, GaugeOk, BarrierOk;
  }

  // ---- A doomed creator ----

  /** Running the chain of a doomed group: its expiry, then the operation of the call that made it. */
  lemma DoomedChain(s: Store, x: nat, a: nat, c: nat)
    requires x < |s.items| && a < |s.arms| && c < |s.calls| && CancelOk(s.items[x], x, s.arms)
    requires s.items[x].ops == [ExpireOp(a), JoinOp(c)] && !s.items[x].processed && s.arms[a].byContext
    requires s.items[x].key in s.current && s.current[s.items[x].key] == x && s.items[x].key !in s.previous
    ensures var u := StartExpire(s, x, a);
      && x < |u.items| && InDeadlineCallback(u.items[x]) && u.calls == s.calls
      && var v := DoFinishExpire(u, x);
      && x < |v.items| && v.items[x].ops == [JoinOp(c)] && !v.items[x].busy && v.calls == s.calls
      && var t := StartJoin(v, x, c);
      && t.now == s.now && s.items[x].key !in t.current && s.items[x].key !in t.previous
      && t.calls == s.calls[c := s.calls[c].(phase := Seeking, turnedAway := s.calls[c].turnedAway + {x})]
  {}

  lemma FourSteps(s: Store, s1: Store, s2: Store, s3: Store, s4: Store, c: nat, x: nat)
    requires Inv(s) && Inv(s1) && Inv(s2) && Inv(s3)
    requires Leads(s, Seek(c, true), s1) && Leads(s1, StartOp(x), s2)
    requires Leads(s2, FinishExpire(x), s3) && Leads(s3, StartOp(x), s4)
    ensures Path([s, s1, s2, s3, s4], [Seek(c, true), StartOp(x), FinishExpire(x), StartOp(x)])
  {
    hide Leads, Inv;
  }

  /** Seeking on behalf of a doomed call. */
  lemma DoomedSeek(s: Store, c: nat) returns (t: Store)
    requires Inv(s) && Enabled(s, Seek(c, true)) && FindLive(s, s.calls[c].key).None? && Doomed(s.calls[c], true)
    ensures Leads(s, Seek(c, true), t) && Inv(t) && t.now == s.now
    ensures var x, a, key := |s.items|, |s.arms|, s.calls[c].key;
      && x < |t.items| && a < |t.arms| && !t.items[x].busy && !t.items[x].processed && t.arms[a].byContext
      && t.items[x].ops == [ExpireOp(a), JoinOp(c)] && t.items[x].key == key
      && key in t.current && t.current[key] == x
      && t.calls == s.calls[c := s.calls[c].(phase := Queued(x))]
  {
    t := DoSeek(s, c, true);
    FreshChain(s, c, true);
    SeekInv(s, c, true);
    hide DoSeek, Shape, History, GaugeOk, BarrierOk;
  }

  /** A doomed group in a reachable state. */
  ghost predicate DoomedGroup(s: Store, x: nat, a: nat, c: nat) {
    && Inv(s) && x < |s.items| && a < |s.arms| && c < |s.calls| && !s.items[x].busy
    && s.items[x].ops == [ExpireOp(a), JoinOp(c)] && !s.items[x].processed && s.arms[a].byContext
    && s.items[x].key in s.current && s.current[s.items[x].key] == x
  }

  lemma DoomedExpires(s: Store, x: nat, a: nat, c: nat) returns (u: Store)
    requires DoomedGroup(s, x, a, c)
    ensures CancelOk(s.items[x], x, s.arms) && u == StartExpire(s, x, a) && Leads(s, StartOp(x), u) && Inv(u)
    ensures s.items[x].key !in s.previous
  {
    u := StartExpire(s, x, a);
    StartExpireInv(s, x, a);
    hide StartExpire, Shape, History;
  }

  lemma FinishedLeads(s: Store, x: nat)
    requires Inv(s) && Enabled(s, FinishExpire(x))
    ensures Leads(s, FinishExpire(x), DoFinishExpire(s, x)) && Inv(DoFinishExpire(s, x))
  {
    FinishExpireInv(s, x);
    hide DoFinishExpire, Shape, History;
  }

  lemma TurnedAwayLeads(s: Store, x: nat, c: nat)
    requires Inv(s) && Enabled(s, StartOp(x)) && s.items[x].ops[0] == JoinOp(c) && c < |s.calls|
    ensures Leads(s, StartOp(x), StartJoin(s, x, c)) && Inv(StartJoin(s, x, c)) && MapsOk(StartJoin(s, x, c))
  {
    assert OpOk(s.items[x].ops[0], x, s.items[x].key, false, s.calls, s.arms);
    StartJoinInv(s, x, c);
    hide StartJoin, Shape, History;
  }

  lemma DoomedRun(s: Store, x: nat, a: nat, c: nat) returns (u: Store, v: Store, t: Store)
    requires DoomedGroup(s, x, a, c)
    ensures Leads(s, StartOp(x), u) && Inv(u) && Leads(u, FinishExpire(x), v) && Inv(v)
    ensures Leads(v, StartOp(x), t) && Inv(t) && MapsOk(t)
    ensures t.now == s.now && s.items[x].key !in t.current && s.items[x].key !in t.previous
    ensures t.calls == s.calls[c := s.calls[c].(phase := Seeking, turnedAway := s.calls[c].turnedAway + {x})]
  {
    hide Inv, Leads;
    u := DoomedExpires(s, x, a, c);
    DoomedChain(s, x, a, c);
    v := DoFinishExpire(u, x);
    FinishedLeads(u, x);
    t := StartJoin(v, x, c);
    TurnedAwayLeads(v, x, c);
    hide StartExpire, StartJoin, DoFinishExpire;
  }

  lemma FreshNotAway(s: Store, c: nat)
    requires AwaysOk(s) && c < |s.calls|
    ensures |s.items| !in s.calls[c].turnedAway
  {
    assert AwayOk(s, s.calls[c]);
  }

  /** A doomed call goes round its loop once: its group is created, expired, removed, and turns it away. */
  lemma DoomedRound(s: Store, c: nat) returns (states: seq<Store>, events: seq<Event>)
    requires Inv(s) && Enabled(s, Seek(c, true)) && FindLive(s, s.calls[c].key).None? && Doomed(s.calls[c], true)
    ensures |events| == 4 && Path(states, events) && states[0] == s && Inv(states[4]) && states[4].now == s.now
    ensures var t := states[4];
      && |t.calls| == |s.calls| && FindLive(t, s.calls[c].key).None?
      && t.calls[c] == s.calls[c].(turnedAway := s.calls[c].turnedAway + {|s.items|})
      && |s.items| !in s.calls[c].turnedAway
  {
    FreshNotAway(s, c);
    hide Leads, Inv, Path;
    var x := |s.items|;
    var s1 := DoomedSeek(s, c);
    var s2, s3, s4 := DoomedRun(s1, x, |s.arms|, c);
    states, events := [s, s1, s2, s3, s4], [Seek(c, true), StartOp(x), FinishExpire(x), StartOp(x)];
    FourSteps(s, s1, s2, s3, s4, c, x);
  }

  lemma PathAppend(first: seq<Store>, steps: seq<Event>, rest: seq<Store>, more: seq<Event>)
    requires Path(first, steps) && Path(rest, more) && first[|steps|] == rest[0]
    ensures Path(first[..|steps|] + rest, steps + more)
  {
    hide Leads, Inv;
    var states, events := first[..|steps|] + rest, steps + more;
    forall i | 0 <= i < |events| ensures Inv(states[i]) && Leads(states[i], events[i], states[i + 1]) {
      if i < |steps| {
        assert states[i] == first[i] && states[i + 1] == first[i + 1] && events[i] == steps[i];
      } else {
        assert states[i] == rest[i - |steps|] && states[i + 1] == rest[i + 1 - |steps|];
      }
    }
  }

  /** So a doomed call can be turned away any number of times while the clock stands still. */
  lemma {:induction false} DoomedForever(s: Store, c: nat, n: nat) returns (states: seq<Store>, events: seq<Event>)
    requires Inv(s) && Enabled(s, Seek(c, true)) && FindLive(s, s.calls[c].key).None? && Doomed(s.calls[c], true)
    ensures Path(states, events) && states[0] == s && |events| == 4 * n
    ensures var t := states[4 * n];
      t.now == s.now && c < |t.calls| && t.calls[c].phase == Seeking
      && |t.calls[c].turnedAway| == |s.calls[c].turnedAway| + n
    decreases n
  {
    hide Inv;
    states, events := [s], [];
    if n > 0 {
      var first, steps := DoomedRound(s, c);
      var rest, more := DoomedForever(first[4], c, n - 1);
      PathAppend(first, steps, rest, more);
      hide Path;
      states, events := first[..4] + rest, steps + more;
    }
  }

  /** A call under a context with a deadline and an abort is something the store can receive: in a run from the
      empty store it is turned away any number of times. */
  lemma DoomedFromStart(now: real, metrics: bool, key: Key, index: nat, value: Value, ttl: real, renew: bool, n: nat)
    returns (states: seq<Store>, events: seq<Event>)
    requires ttl > 0.0 && index <= MAX_SAFE_INTEGER
    ensures Run(states, events) && |events| == 4 * n + 1 && states[0] == Initial(now, metrics)
    ensures events[0] == Begin(key, index, value, ttl, renew, true)
    ensures var t := states[4 * n + 1];
      t.now == now && 0 < |t.calls| && t.calls[0].phase == Seeking && |t.calls[0].turnedAway| == n
  {
    hide Path, Run, Inv, FindLive, DoBegin;
    var start, begin := Initial(now, metrics), Begin(key, index, value, ttl, renew, true);
    InitialInv(now, metrics);
    StepKeeps(start, begin);
    var s := Step(start, begin);
    BegunCall(now, metrics, key, index, value, ttl, renew);
    var rest, more := DoomedForever(s, 0, n);
    states, events := [start] + rest, [begin] + more;
    PathToRun(start, begin, rest, more);
    assert states[4 * n + 1] == rest[4 * n];
  }

  lemma InitialInv(now: real, metrics: bool)
    ensures Inv(Initial(now, metrics))
  {
    assert TTLJoins([]) == {};
  }

  lemma BegunCall(now: real, metrics: bool, key: Key, index: nat, value: Value, ttl: real, renew: bool)
    requires ttl > 0.0 && index <= MAX_SAFE_INTEGER
    ensures var s := DoBegin(Initial(now, metrics), key, index, value, ttl, renew, true);
      && s.now == now && |s.calls| == 1 && s.calls[0].phase == Seeking && s.calls[0].turnedAway == {}
      && Doomed(s.calls[0], true) && MapsOk(s) && FindLive(s, s.calls[0].key).None?
  {}

  lemma PathToRun(start: Store, begin: Event, rest: seq<Store>, more: seq<Event>)
    requires Path(rest, more) && start == Initial(start.now, start.metrics) && Inv(start) && Enabled(start, begin)
    requires rest[0] == Step(start, begin)
    ensures Run([start] + rest, [begin] + more) && |rest| == |more| + 1
  {
    hide Inv, Enabled;
    var states, events := [start] + rest, [begin] + more;
    forall i | 0 <= i < |events| ensures Leads(states[i], events[i], states[i + 1]) {
      if i > 0 { assert Leads(rest[i - 1], more[i - 1], rest[i]); }
    }
  }
}
