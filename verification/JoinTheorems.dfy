/** What every run of the join store promises. */
module JoinTheorems {
  import opened Base
  import opened JoinStorage
  import opened JoinRuns

  /** A run from the empty store. Nothing is assumed of a state but that an enabled event led to it. */
  ghost predicate Run(states: seq<Store>, events: seq<Event>) {
    && |states| == |events| + 1
    && states[0] == Initial(states[0].now, states[0].metrics)
    && (forall i :: 0 <= i < |events| ==> Leads(states[i], events[i], states[i + 1]))
  }

  ghost predicate Leads(s: Store, e: Event, t: Store) {
    Enabled(s, e) && (Inv(s) ==> t == Step(s, e))
  }

  lemma {:induction false} RunsKeepInv(states: seq<Store>, events: seq<Event>, i: nat)
    requires Run(states, events) && i < |states|
    ensures Inv(states[i])
  {
    if i == 0 {
      assert TTLJoins([]) == {};
    } else {
      RunsKeepInv(states, events, i - 1);
      assert Leads(states[i - 1], events[i - 1], states[i]);
      StepKeeps(states[i - 1], events[i - 1]);
    }
  }

  /** The arms of a group that have not been retired. */
  ghost function LiveArms(s: Store, x: nat): set<nat> {
    set a | 0 <= a < |s.arms| && s.arms[a].item == x && !s.arms[a].retired
  }

  /** A group waiting for its deadline has one live arm, or none and an expiry in its chain; and no group
      ever has two live arms. */
  lemma NeverOrphaned(states: seq<Store>, events: seq<Event>, i: nat, x: nat)
    requires Run(states, events) && i < |states| && x < |states[i].items|
    ensures |LiveArms(states[i], x)| <= 1
    ensures var item := states[i].items[x];
      !item.processed && item.deadline.Some? ==> |LiveArms(states[i], x)| == 1 || Expiring(item)
  {
    RunsKeepInv(states, events, i);
    var s := states[i];
    var cancel := s.items[x].cancel;
    if cancel.Some? {
      assert CancelOk(s.items[x], x, s.arms);
      assert LiveArms(s, x) <= {cancel.value};
      if Live(s.items[x], s.arms) {
        assert LiveArms(s, x) == {cancel.value};
      } else {
        assert LiveArms(s, x) == {};
      }
    } else {
      assert LiveArms(s, x) == {};
    }
  }

  /** The deadline callback of a group runs at most once, and never for a group a join callback finished;
      a finished group is finished by exactly one of the two, and leaves the maps with its last callback. */
  lemma FinishedOnce(states: seq<Store>, events: seq<Event>, i: nat, x: nat)
    requires Run(states, events) && i < |states| && x < |states[i].items|
    ensures var s := states[i]; var item := s.items[x];
      && item.deadlineRuns <= 1
      && (item.processed <==> item.joined != (item.deadlineRuns == 1))
      && (item.joined ==> item.deadlineRuns == 0)
      && (item.processed && !item.busy ==> !Located(s, item.key, x))
  {
    RunsKeepInv(states, events, i);
  }

  /** Callbacks of one group never overlap. */
  lemma CallbacksNeverOverlap(states: seq<Store>, events: seq<Event>, i: nat, c: nat, d: nat)
    requires Run(states, events) && i < |states| && c < |states[i].calls| && d < |states[i].calls|
    requires states[i].calls[c].phase.InCallback? && states[i].calls[d].phase == states[i].calls[c].phase
    ensures c == d
    ensures var x := states[i].calls[c].phase.item; x < |states[i].items| && InJoinCallback(states[i].items[x])
  {
    RunsKeepInv(states, events, i);
    var s := states[i];
    var x := s.calls[c].phase.item;
    assert WaitOk(s.calls[c], c, s.items) && WaitOk(s.calls[d], d, s.items);
    var j :| 0 <= j < |s.items[x].ops| && s.items[x].ops[j] == JoinOp(c);
    var k :| 0 <= k < |s.items[x].ops| && s.items[x].ops[k] == JoinOp(d);
    assert OpOk(s.items[x].ops[j], x, s.items[x].key, j == 0 && s.items[x].busy, s.calls, s.arms);
    assert OpOk(s.items[x].ops[k], x, s.items[x].key, k == 0 && s.items[x].busy, s.calls, s.arms);
  }

  /** A call that has settled appended its value to one group, once, at its own index. */
  lemma SettledOnce(states: seq<Store>, events: seq<Event>, i: nat, c: nat) returns (x: nat, j: nat)
    requires Run(states, events) && i < |states| && c < |states[i].calls|
    requires states[i].calls[c].phase == Done || states[i].calls[c].phase == Leaving
    ensures var s := states[i];
      && x < |s.items| && j < |s.items[x].log|
      && s.items[x].log[j] == Entry(c, s.calls[c].index, s.calls[c].value)
      && TableOf(s.items[x].values, s.items[x].log)
      && (forall y, k ::
          0 <= y < |s.items| && 0 <= k < |s.items[y].log| && s.items[y].log[k].call == c ==> y == x && k == j)
  {
    RunsKeepInv(states, events, i);
    var s := states[i];
    assert PhaseOk(s.calls[c]) && LoggedOk(s.calls[c], c, s.items);
    x := s.calls[c].group.value;
    j :| 0 <= j < |s.items[x].log| && s.items[x].log[j].call == c;
    assert EntryOk(s.items[x].log[j], x, s.calls);
    forall y, k | 0 <= y < |s.items| && 0 <= k < |s.items[y].log| && s.items[y].log[k].call == c
      ensures y == x && k == j
    {
      assert EntryOk(s.items[y].log[k], y, s.calls);
    }
  }

  /** A call still on its way has appended nothing. */
  lemma UnsettledNever(states: seq<Store>, events: seq<Event>, i: nat, c: nat, x: nat, j: nat)
    requires Run(states, events) && i < |states| && c < |states[i].calls|
    requires x < |states[i].items| && j < |states[i].items[x].log|
    requires var phase := states[i].calls[c].phase;
      phase.Refused? || phase.Admitting? || phase.Seeking? || phase.Queued?
    ensures states[i].items[x].log[j].call != c
  {
    RunsKeepInv(states, events, i);
    assert PhaseOk(states[i].calls[c]);
    assert EntryOk(states[i].items[x].log[j], x, states[i].calls);
  }

  // ---- What no step takes back ----

  ghost predicate Frozen(before: Item, after: Item) {
    && after.processed && after.values == before.values && after.log == before.log
    && after.deadlineRuns == before.deadlineRuns && after.joined == before.joined
  }

  /** Groups and calls are never forgotten, a finished group is frozen, a group that turned a call away
      stays on that call's list. */
  ghost predicate Grows(s: Store, t: Store) {
    && s.now <= t.now && |s.items| <= |t.items| && |s.calls| <= |t.calls|
    && (forall x :: 0 <= x < |s.items| && s.items[x].processed ==> Frozen(s.items[x], t.items[x]))
    && (forall c :: 0 <= c < |s.calls| ==> s.calls[c].turnedAway <= t.calls[c].turnedAway)
  }

  lemma SeekGrows(s: Store, c: nat, aborted: bool)
    requires MapsOk(s) && c < |s.calls|
    ensures Grows(s, DoSeek(s, c, aborted))
  {
    ArmEffect(NewItem(s, c), |s.items|, s.calls[c].byContext, aborted);
    hide ArmDeadline;
  }

  lemma StartJoinGrows(s: Store, x: nat, c: nat)
    requires x < |s.items| && s.items[x].ops != [] && c < |s.calls|
    ensures Grows(s, StartJoin(s, x, c))
  {}

  lemma StartExpireGrows(s: Store, x: nat, a: nat)
    requires x < |s.items| && s.items[x].ops != [] && a < |s.arms| && CancelOk(s.items[x], x, s.arms)
    ensures Grows(s, StartExpire(s, x, a))
  {}

  lemma FinishJoinGrows(s: Store, x: nat, c: nat, outcome: Outcome, aborted: bool)
    requires Returning(s, x, c)
    ensures Grows(s, DoFinishJoin(s, x, c, outcome, aborted))
  {
    assert OpOk(s.items[x].ops[0], x, s.items[x].key, true, s.calls, s.arms);
    FinishJoinMoves(s, x, c, outcome, aborted);
    hide DoFinishJoin, GroupBase;
  }

  lemma FinishExpireGrows(s: Store, x: nat)
    requires x < |s.items| && s.items[x].ops != []
    ensures Grows(s, DoFinishExpire(s, x)) && SameBarrier(s, DoFinishExpire(s, x))
  {}

  lemma FireGrows(s: Store, a: nat)
    requires a < |s.arms| && s.arms[a].item < |s.items|
    requires CancelOk(s.items[s.arms[a].item], s.arms[a].item, s.arms)
    ensures Grows(s, Expire(s, a)) && SameBarrier(s, Expire(s, a))
  {}

  /** The events that work on one group, and those that do not. */
  predicate OnGroup(e: Event) {
    e.Seek? || e.StartOp? || e.FinishJoin? || e.FinishExpire? || e.Fire?
  }

  lemma GroupStepGrows(s: Store, e: Event)
    requires Inv(s) && Enabled(s, e) && OnGroup(e)
    ensures Grows(s, Step(s, e)) && SameBarrier(s, Step(s, e))
  {
    hide Grows, SameBarrier;
    match e
    case Seek(c, aborted) =>
      SeekGrows(s, c, aborted);
      SeekBarrier(s, c, aborted);
    case StartOp(x) =>
      assert OpOk(s.items[x].ops[0], x, s.items[x].key, false, s.calls, s.arms);
      if s.items[x].ops[0].JoinOp? {
        StartJoinGrows(s, x, s.items[x].ops[0].call);
        StartJoinBarrier(s, x, s.items[x].ops[0].call);
      } else {
        StartExpireGrows(s, x, s.items[x].ops[0].arm);
        StartExpireBarrier(s, x, s.items[x].ops[0].arm);
      }
    case FinishJoin(x, outcome, aborted) =>
      assert OpOk(s.items[x].ops[0], x, s.items[x].key, true, s.calls, s.arms);
      Unpack(s, x, s.items[x].ops[0].call);
      FinishJoinGrows(s, x, s.items[x].ops[0].call, outcome, aborted);
      FinishJoinBarrier(s, x, s.items[x].ops[0].call, outcome, aborted);
    case FinishExpire(x) => FinishExpireGrows(s, x);
    case Fire(a) =>
      assert ArmOk(s.arms[a], a, s.items);
      FireGrows(s, a);
    hide DoSeek, StartJoin, StartExpire, DoFinishJoin, DoFinishExpire, Expire;
  }

  lemma BeginGrows(s: Store, key: Key, index: int, value: Value, ttl: real, renew: bool, byContext: bool)
    ensures Grows(s, DoBegin(s, key, index, value, ttl, renew, byContext))
  {}

  lemma LeaveGrows(s: Store, c: nat)
    requires c < |s.calls|
    ensures Grows(s, DoLeave(s, c))
  {}

  lemma AdmitGrows(s: Store, c: nat)
    requires c < |s.calls|
    ensures Grows(s, WithPhase(s, c, Seeking).(activeTTLJoins := s.activeTTLJoins + 1))
  {}

  lemma RotateGrows(s: Store)
    requires s.current.Keys !! s.previous.Keys
    ensures Grows(s, DoRotate(s))
  {
    RotateEffect(s);
    hide DoRotate;
  }

  lemma OtherStepGrows(s: Store, e: Event)
    requires Inv(s) && Enabled(s, e) && !OnGroup(e)
    ensures Grows(s, Step(s, e))
  {
    match e
    case Begin(key, index, value, ttl, renew, byContext) => BeginGrows(s, key, index, value, ttl, renew, byContext);
    case Admit(c) => AdmitGrows(s, c);
    case Leave(c) => LeaveGrows(s, c);
    case Rotate => RotateGrows(s);
    case Tick(_) =>
    case Stop =>
    hide DoBegin, DoLeave, DoRotate;
  }

  lemma StepGrows(s: Store, e: Event)
    requires Inv(s) && Enabled(s, e)
    ensures Grows(s, Step(s, e))
  {
    if OnGroup(e) { GroupStepGrows(s, e); } else { OtherStepGrows(s, e); }
  }

  lemma {:induction false} RunsGrow(states: seq<Store>, events: seq<Event>, i: nat, j: nat)
    requires Run(states, events) && i <= j < |states|
    ensures Grows(states[i], states[j])
  {
    if i < j {
      RunsGrow(states, events, i, j - 1);
      RunsKeepInv(states, events, j - 1);
      assert Leads(states[j - 1], events[j - 1], states[j]);
      StepGrows(states[j - 1], events[j - 1]);
    }
  }

  /** No value reaches a group after it was finished, and no callback touches it again. */
  lemma FinishedForGood(states: seq<Store>, events: seq<Event>, i: nat, j: nat, x: nat)
    requires Run(states, events) && i <= j < |states| && x < |states[i].items| && states[i].items[x].processed
    ensures x < |states[j].items| && Frozen(states[i].items[x], states[j].items[x])
  {
    RunsGrow(states, events, i, j);
  }

  /** A call never queues again on a group that turned it away. */
  lemma NeverRevisited(states: seq<Store>, events: seq<Event>, i: nat, j: nat, c: nat, x: nat)
    requires Run(states, events) && i <= j < |states|
    requires c < |states[i].calls| && x in states[i].calls[c].turnedAway
    ensures c < |states[j].calls| && states[j].calls[c].phase != Queued(x) && states[j].calls[c].phase != InCallback(x)
  {
    RunsGrow(states, events, i, j);
    RunsKeepInv(states, events, j);
    assert AwayOk(states[j], states[j].calls[c]);
  }

  // ---- Maintenance ----

  /** The generations share no key, rotation loses nothing and evicts nothing, the gauge is the size. */
  lemma MaintenanceIsHarmless(states: seq<Store>, events: seq<Event>, i: nat)
    requires Run(states, events) && i < |states|
    ensures var s := states[i]; var t := DoRotate(s);
      && s.current.Keys !! s.previous.Keys
      && (s.metrics ==> s.count == s.Size())
      && t.Size() == s.Size() && t.evictions == s.evictions && t.count == s.count
      && (forall key, x :: Located(t, key, x) == Located(s, key, x))
  {
    RunsKeepInv(states, events, i);
    var s := states[i];
    RotateEffect(s);
    RotateSize(s);
    forall key, x ensures Located(DoRotate(s), key, x) == Located(s, key, x) { RotateLocates(s, key, x); }
    hide DoRotate;
  }

  /** A step completes a `stop` only when no call with a TTL is inside, and admits none while one is pending. */
  ghost predicate StopWaits(s: Store, t: Store) {
    && (s.barrier != Released && t.barrier == Released ==> TTLJoins(t.calls) == {})
    && (s.barrier == Pending ==> t.barrier != Open && TTLJoins(t.calls) <= TTLJoins(s.calls))
  }

  lemma SameBarrierWaits(s: Store, t: Store)
    requires SameBarrier(s, t)
    ensures StopWaits(s, t)
  {}

  lemma BeginWaits(s: Store, key: Key, index: int, value: Value, ttl: real, renew: bool, byContext: bool)
    ensures StopWaits(s, DoBegin(s, key, index, value, ttl, renew, byContext))
  {}

  lemma LeaveWaits(s: Store, c: nat)
    requires c < |s.calls| && s.activeTTLJoins == |TTLJoins(s.calls)| && s.calls[c].phase == Leaving
    ensures StopWaits(s, DoLeave(s, c))
  {
    assert TTLJoins(DoLeave(s, c).calls) == TTLJoins(s.calls) - {c};
    assert s.calls[c].ttl > 0.0 ==> |TTLJoins(s.calls) - {c}| == |TTLJoins(s.calls)| - 1;
  }

  lemma StepWaits(s: Store, e: Event)
    requires Inv(s) && Enabled(s, e)
    ensures StopWaits(s, Step(s, e))
  {
    match e
    case Begin(key, index, value, ttl, renew, byContext) => BeginWaits(s, key, index, value, ttl, renew, byContext);
    case Leave(c) => LeaveWaits(s, c);
    case Rotate =>
      RotateEffect(s);
      SameBarrierWaits(s, DoRotate(s));
    case Admit(_) =>
    case Tick(_) =>
    case Stop =>
    case _ =>
      GroupStepGrows(s, e);
      SameBarrierWaits(s, Step(s, e));
    hide Shape, History, DoBegin, DoLeave, DoRotate;
  }

  /** In every run, from a pending `stop` to its release: the calls with a TTL inside only become fewer, and the
      release comes exactly when there are none. */
  lemma {:induction false} StopWaitsForJoins(states: seq<Store>, events: seq<Event>, i: nat, j: nat)
    requires Run(states, events) && i <= j < |states| && states[i].barrier == Pending
    requires forall k :: i <= k < j ==> states[k].barrier == Pending
    ensures states[j].barrier != Open && TTLJoins(states[j].calls) <= TTLJoins(states[i].calls)
    ensures states[j].barrier == Released <==> TTLJoins(states[j].calls) == {}
  {
    hide Step, Enabled, Inv, TTLJoins;
    RunsKeepInv(states, events, j);
    PendingMeansInside(states[j]);
    if i < j {
      StopWaitsForJoins(states, events, i, j - 1);
      RunsKeepInv(states, events, j - 1);
      assert Leads(states[j - 1], events[j - 1], states[j]);
      StepWaits(states[j - 1], events[j - 1]);
    }
  }

  lemma PendingMeansInside(s: Store)
    requires Inv(s)
    ensures s.barrier == Pending ==> TTLJoins(s.calls) != {}
  {
    hide Shape, History, GaugeOk, TTLJoins;
  }
}
