/** What moves every part of the join store, and that nothing else does: told field by field over the runs. */
module JoinChanges {
  import opened Base
  import opened JoinStorage
  import opened JoinRuns
  import opened JoinTheorems
  import opened JoinProgress

  // ---- The steps in closed form ----

  /** Nothing but groups, arms, calls, the maps, the gauge and the count of evictions changed. */
  ghost predicate SameRest(s: Store, t: Store) {
    && t.now == s.now && t.metrics == s.metrics && t.highWaterMark == s.highWaterMark
    && t.activeTTLJoins == s.activeTTLJoins && t.barrier == s.barrier
  }

  ghost predicate SamePlaces(s: Store, t: Store) {
    t.current == s.current && t.previous == s.previous
  }

  function Retired(arms: seq<Arm>, a: Option<nat>): (r: seq<Arm>)
    requires a.Some? ==> a.value < |arms|
    ensures |r| == |arms|
    ensures forall b :: 0 <= b < |arms| ==> r[b] == if a == Some(b) then arms[b].(retired := true) else arms[b]
  {
    if a.None? then arms else arms[a.value := arms[a.value].(retired := true)]
  }

  function Popped(item: Item): Item
    requires item.ops != []
  {
    item.(ops := item.ops[1..], busy := false)
  }

  ghost predicate Removed(s: Store, t: Store, key: Key, x: nat) {
    && t.current == (if Locate(s, key, x) == Current then s.current - {key} else s.current)
    && t.previous == (if Locate(s, key, x) == Previous then s.previous - {key} else s.previous)
  }

  predicate RenewsFor(s: Store, x: nat, call: Call)
    requires x < |s.items|
  {
    call.renew && call.ttl > 0.0 && Located(s, s.items[x].key, x)
  }

  ghost predicate DoneIs(s: Store, x: nat, t: Store)
    requires x < |s.items| && s.items[x].ops != [] && CancelOk(s.items[x], x, s.arms)
  {
    var item := s.items[x];
    && t.items == s.items[x := Popped(item).(processed := true, joined := true)] && Removed(s, t, item.key, x)
    && t.arms == if Located(s, item.key, x) then Retired(s.arms, item.cancel) else s.arms
  }

  ghost predicate RenewedIs(s: Store, x: nat, call: Call, aborted: bool, t: Store)
    requires x < |s.items| && s.items[x].ops != [] && CancelOk(s.items[x], x, s.arms)
  {
    var item, fired, a := s.items[x], call.byContext && aborted, |s.arms|;
    && t.items == s.items[x := Popped(item).(processed := false, deadline := Some(s.now + call.ttl), cancel := Some(a),
                                             ops := item.ops[1..] + if fired then [ExpireOp(a)] else [])]
    && t.arms == Retired(s.arms, item.cancel) + [Arm(x, call.byContext, fired)]
    && t.current == s.current[item.key := x]
    && t.previous == if Locate(s, item.key, x) == Previous then s.previous - {item.key} else s.previous
  }

  ghost predicate FinishIs(s: Store, x: nat, c: nat, outcome: Outcome, aborted: bool, t: Store)
    requires x < |s.items| && c < |s.calls| && s.items[x].ops != [] && CancelOk(s.items[x], x, s.arms)
  {
    && SameRest(s, t) && t.calls == s.calls[c := s.calls[c].(phase := Leaving)] && t.evictions == s.evictions
    && if outcome == Returned(true) then DoneIs(s, x, t)
       else if outcome == Returned(false) && RenewsFor(s, x, s.calls[c]) then RenewedIs(s, x, s.calls[c], aborted, t)
       else
         && t.arms == s.arms && SamePlaces(s, t)
         && t.items == s.items[x := Popped(s.items[x]).(processed := outcome.Threw? && s.items[x].processed)]
  }

  ghost predicate StartExpireIs(s: Store, x: nat, a: nat, t: Store)
    requires x < |s.items| && a < |s.arms| && s.items[x].ops != [] && CancelOk(s.items[x], x, s.arms)
  {
    var item := s.items[x];
    && SameRest(s, t) && t.calls == s.calls && SamePlaces(s, t) && t.evictions == s.evictions
    && if item.processed then t.items == s.items[x := Popped(item)] && t.arms == s.arms
       else if !s.arms[a].byContext && item.deadline.Some? && s.now < item.deadline.value then
         && t.items == s.items[x := Popped(item).(cancel := Some(|s.arms|))]
         && t.arms == Retired(s.arms, item.cancel) + [Arm(x, false, false)]
       else
         && t.items == s.items[x := item.(processed := true, busy := true, deadlineRuns := item.deadlineRuns + 1)]
         && t.arms == s.arms
  }

  ghost predicate StartJoinIs(s: Store, x: nat, c: nat, t: Store)
    requires x < |s.items| && c < |s.calls| && s.items[x].ops != []
  {
    var item, call := s.items[x], s.calls[c];
    && SameRest(s, t) && t.arms == s.arms && SamePlaces(s, t) && t.evictions == s.evictions
    && if TurnsAway(s, x) then
         && t.items == s.items[x := Popped(item)]
         && t.calls == s.calls[c := call.(phase := Seeking, turnedAway := call.turnedAway + {x})]
       else
         && t.items == s.items[x := item.(values := AppendAt(item.values, call.index, call.value), busy := true,
                                          log := item.log + [Entry(c, call.index, call.value)])]
         && t.calls == s.calls[c := call.(phase := InCallback(x), group := Some(x))]
  }

  ghost predicate FinishExpireIs(s: Store, x: nat, t: Store)
    requires x < |s.items| && s.items[x].ops != []
  {
    var item := s.items[x];
    && SameRest(s, t) && t.calls == s.calls && t.arms == s.arms && t.items == s.items[x := Popped(item)]
    && Removed(s, t, item.key, x)
    && t.evictions == s.evictions + if s.metrics && Located(s, item.key, x) then 1 else 0
  }

  ghost predicate FireIs(s: Store, a: nat, t: Store)
    requires a < |s.arms| && s.arms[a].item < |s.items|
    requires CancelOk(s.items[s.arms[a].item], s.arms[a].item, s.arms)
  {
    var x := s.arms[a].item;
    && SameRest(s, t) && t.calls == s.calls && SamePlaces(s, t) && t.evictions == s.evictions
    && if s.arms[a].retired then t.items == s.items && t.arms == s.arms
       else
         && t.items == s.items[x := s.items[x].(ops := s.items[x].ops + [ExpireOp(a)])]
         && t.arms == Retired(s.arms, s.items[x].cancel)
  }

  function FreshItem(s: Store, call: Call): Item {
    Item(call.key, EmptyColumns(call.index + 1), if call.ttl > 0.0 then Some(s.now + call.ttl) else None, false,
         if call.ttl > 0.0 then Some(|s.arms|) else None, [], false, [], 0, false)
  }

  ghost predicate CreatedIs(s: Store, call: Call, ops: seq<Op>, aborted: bool, t: Store) {
    && t.items == s.items + [FreshItem(s, call).(ops := ops)]
    && t.arms == s.arms + (if call.ttl > 0.0 then [Arm(|s.items|, call.byContext, Doomed(call, aborted))] else [])
    && t.current == s.current[call.key := |s.items|] && t.previous == s.previous - {call.key}
  }

  ghost predicate SeekIs(s: Store, c: nat, aborted: bool, t: Store)
    requires MapsOk(s) && c < |s.calls|
  {
    var call, live := s.calls[c], FindLive(s, s.calls[c].key);
    && SameRest(s, t) && t.evictions == s.evictions
    && t.calls == s.calls[c := call.(phase := Queued(if live.Some? then live.value else |s.items|))]
    && if live.Some? then
         && live.value < |s.items|
         && t.items == s.items[live.value := s.items[live.value].(ops := s.items[live.value].ops + [JoinOp(c)])]
         && t.arms == s.arms && SamePlaces(s, t)
       else
         CreatedIs(s, call, (if Doomed(call, aborted) then [ExpireOp(|s.arms|)] else []) + [JoinOp(c)], aborted, t)
  }

  lemma Twice<T>(s: seq<T>, x: nat, a: T, b: T)
    requires x < |s|
    ensures s[x := a][x := b] == s[x := b]
  {}

  lemma SetLast<T>(s: seq<T>, a: T, b: T)
    ensures (s + [a])[|s| := b] == s + [b]
  {}

  lemma CancelForm(s: Store, x: nat)
    requires x < |s.items| && CancelOk(s.items[x], x, s.arms)
    ensures CancelDeadline(s, x) == s.(arms := Retired(s.arms, s.items[x].cancel))
  {}

  /** The arm of a group is replaced by a new one. */
  lemma RearmForm(s: Store, x: nat, byContext: bool, aborted: bool)
    requires x < |s.items| && CancelOk(s.items[x], x, s.arms)
    ensures var fired, a, item := byContext && aborted, |s.arms|, s.items[x];
      ArmDeadline(CancelDeadline(s, x), x, byContext, aborted) ==
      s.(arms := Retired(s.arms, item.cancel) + [Arm(x, byContext, fired)],
         items := s.items[x := item.(cancel := Some(a), ops := item.ops + if fired then [ExpireOp(a)] else [])])
  {
    hide ArmDeadline, CancelDeadline;
    CancelForm(s, x);
    ArmEffect(CancelDeadline(s, x), x, byContext, aborted);
  }

  lemma FinishForm(s: Store, x: nat, c: nat, outcome: Outcome, aborted: bool)
    requires x < |s.items| && c < |s.calls| && s.items[x].ops != [] && CancelOk(s.items[x], x, s.arms)
    ensures FinishIs(s, x, c, outcome, aborted, DoFinishJoin(s, x, c, outcome, aborted))
  {
    hide FinishIs, DoFinishJoin;
    if outcome == Returned(true) {
      DoneForm(s, x, c, aborted);
    } else if outcome == Returned(false) && RenewsFor(s, x, s.calls[c]) {
      RenewForm(s, x, c, aborted);
    } else {
      StayForm(s, x, c, outcome, aborted);
    }
  }

  lemma DoneForm(s: Store, x: nat, c: nat, aborted: bool)
    requires x < |s.items| && c < |s.calls| && s.items[x].ops != [] && CancelOk(s.items[x], x, s.arms)
    ensures FinishIs(s, x, c, Returned(true), aborted, DoFinishJoin(s, x, c, Returned(true), aborted))
  {
    hide CancelDeadline, RenewDeadline;
    var marked := Mark(WithPhase(PopOp(s, x), c, Leaving), x, true);
    CancelForm(marked, x);
  }

  lemma RenewForm(s: Store, x: nat, c: nat, aborted: bool)
    requires x < |s.items| && c < |s.calls| && s.items[x].ops != [] && CancelOk(s.items[x], x, s.arms)
    requires RenewsFor(s, x, s.calls[c])
    ensures FinishIs(s, x, c, Returned(false), aborted, DoFinishJoin(s, x, c, Returned(false), aborted))
  {
    hide CancelDeadline, ArmDeadline;
    var marked := Mark(WithPhase(PopOp(s, x), c, Leaving), x, false);
    var v := Renewed(marked, x, s.calls[c].ttl);
    assert v.items == s.items[x := v.items[x]];
    RearmForm(v, x, s.calls[c].byContext, aborted);
    Twice(s.items, x, v.items[x], RenewDeadline(marked, x, s.calls[c].ttl, s.calls[c].byContext, aborted).items[x]);
  }

  /** A join callback that threw, or returned false without a renewal. */
  lemma StayForm(s: Store, x: nat, c: nat, outcome: Outcome, aborted: bool)
    requires x < |s.items| && c < |s.calls| && s.items[x].ops != [] && CancelOk(s.items[x], x, s.arms)
    requires outcome.Threw? || (!outcome.done && !RenewsFor(s, x, s.calls[c]))
    ensures FinishIs(s, x, c, outcome, aborted, DoFinishJoin(s, x, c, outcome, aborted))
  {
    hide CancelDeadline, RenewDeadline;
  }

  lemma StartExpireForm(s: Store, x: nat, a: nat)
    requires x < |s.items| && a < |s.arms| && s.items[x].ops != [] && CancelOk(s.items[x], x, s.arms)
    ensures StartExpireIs(s, x, a, StartExpire(s, x, a))
  {
    hide ArmDeadline, CancelDeadline;
    var u := PopOp(s, x);
    RearmForm(u, x, false, false);
    assert u.items[x].ops + [] == u.items[x].ops;
    Twice(s.items, x, u.items[x], u.items[x].(cancel := Some(|s.arms|)));
  }

  lemma StartJoinForm(s: Store, x: nat, c: nat)
    requires x < |s.items| && c < |s.calls| && s.items[x].ops != []
    ensures StartJoinIs(s, x, c, StartJoin(s, x, c))
  {
    hide AppendAt;
  }

  lemma FinishExpireForm(s: Store, x: nat)
    requires x < |s.items| && s.items[x].ops != []
    ensures FinishExpireIs(s, x, DoFinishExpire(s, x))
  {}

  lemma FireForm(s: Store, a: nat)
    requires a < |s.arms| && s.arms[a].item < |s.items|
    requires CancelOk(s.items[s.arms[a].item], s.arms[a].item, s.arms)
    ensures FireIs(s, a, Expire(s, a))
  {}

  lemma CreateForm(s: Store, c: nat, aborted: bool)
    requires c < |s.calls|
    ensures var t, call := CreateItem(s, c, aborted), s.calls[c];
      && SameRest(s, t) && t.evictions == s.evictions && t.calls == s.calls
      && CreatedIs(s, call, if Doomed(call, aborted) then [ExpireOp(|s.arms|)] else [], aborted, t)
  {
    hide ArmDeadline, EmptyColumns;
    var u, x, call := NewItem(s, c), |s.items|, s.calls[c];
    var ops := if Doomed(call, aborted) then [ExpireOp(|s.arms|)] else [];
    ArmEffect(u, x, call.byContext, aborted);
    assert [] + ops == ops && u.items == s.items + [u.items[x]] && u.items[x].ops == [];
    SetLast(s.items, u.items[x], u.items[x].(cancel := Some(|s.arms|), ops := ops));
    if call.ttl <= 0.0 { assert s.arms + [] == s.arms; }
  }

  lemma SeekForm(s: Store, c: nat, aborted: bool)
    requires MapsOk(s) && c < |s.calls|
    ensures SeekIs(s, c, aborted, DoSeek(s, c, aborted))
  {
    hide CreateItem, EmptyColumns;
    if FindLive(s, s.calls[c].key).None? {
      var u := CreateItem(s, c, aborted);
      CreateForm(s, c, aborted);
      SetLast(s.items, u.items[|s.items|], u.items[|s.items|].(ops := u.items[|s.items|].ops + [JoinOp(c)]));
    }
  }

  // ---- What a step is about ----

  /** The operation a group's chain starts with. */
  ghost predicate Heads(s: Store, x: nat, op: Op) {
    x < |s.items| && s.items[x].ops != [] && s.items[x].ops[0] == op
  }

  lemma HeadOk(s: Store, x: nat)
    requires Inv(s) && x < |s.items|
    ensures CancelOk(s.items[x], x, s.arms)
    ensures s.items[x].ops != [] ==>
      match s.items[x].ops[0]
      case JoinOp(c) =>
        c < |s.calls| && s.calls[c].key == s.items[x].key
        && s.calls[c].phase == (if s.items[x].busy then InCallback(x) else Queued(x))
      case ExpireOp(a) => a < |s.arms| && s.arms[a].item == x
  {
    hide History, GaugeOk, BarrierOk, MapsOk, WaitsOk, ExpiriesOk;
    assert ChainOk(s.items[x], x, s.calls, s.arms);
    if s.items[x].ops != [] { assert OpOk(s.items[x].ops[0], x, s.items[x].key, s.items[x].busy, s.calls, s.arms); }
  }

  lemma InvMaps(s: Store)
    requires Inv(s)
    ensures MapsOk(s)
  {}

  lemma ArmItem(s: Store, a: nat)
    requires Inv(s) && a < |s.arms|
    ensures s.arms[a].item < |s.items| && CancelOk(s.items[s.arms[a].item], s.arms[a].item, s.arms)
    ensures !s.arms[a].retired ==> s.items[s.arms[a].item].cancel == Some(a)
  {
    hide History, GaugeOk, BarrierOk, MapsOk, WaitsOk, ExpiriesOk, ChainsOk;
    assert ArmOk(s.arms[a], a, s.items);
  }

  /** An event on a group in closed form, where `s` is as the invariant has it. */
  ghost predicate StepIs(s: Store, e: Event, t: Store) {
    match e
    case Seek(c, aborted) => MapsOk(s) && c < |s.calls| && SeekIs(s, c, aborted, t)
    case StartOp(x) =>
      && x < |s.items| && s.items[x].ops != [] && CancelOk(s.items[x], x, s.arms)
      && (match s.items[x].ops[0]
          case JoinOp(c) =>
            && c < |s.calls| && s.calls[c].phase == Queued(x) && s.calls[c].key == s.items[x].key
            && StartJoinIs(s, x, c, t)
          case ExpireOp(a) => a < |s.arms| && s.arms[a].item == x && StartExpireIs(s, x, a, t))
    case FinishJoin(x, outcome, aborted) =>
      && x < |s.items| && s.items[x].ops != [] && CancelOk(s.items[x], x, s.arms) && s.items[x].ops[0].JoinOp?
      && var c := s.items[x].ops[0].call;
         c < |s.calls| && s.calls[c].phase == InCallback(x) && s.calls[c].key == s.items[x].key
         && FinishIs(s, x, c, outcome, aborted, t)
    case FinishExpire(x) =>
      x < |s.items| && s.items[x].ops != [] && s.items[x].ops[0].ExpireOp? && FinishExpireIs(s, x, t)
    case Fire(a) =>
      && a < |s.arms| && s.arms[a].item < |s.items|
      && CancelOk(s.items[s.arms[a].item], s.arms[a].item, s.arms)
      && (!s.arms[a].retired ==> s.items[s.arms[a].item].cancel == Some(a)) && FireIs(s, a, t)
    case _ => t.items == s.items && t.arms == s.arms && t.evictions == s.evictions
  }

  lemma OtherForm(s: Store, e: Event)
    requires Inv(s) && Enabled(s, e) && !OnGroup(e)
    ensures StepIs(s, e, Step(s, e))
  {
    hide Shape, History, GaugeOk, BarrierOk, DoRotate;
    if e.Rotate? {
      InvMaps(s);
      RotateEffect(s);
    }
  }

  lemma GroupForm(s: Store, e: Event)
    requires Inv(s) && Enabled(s, e) && OnGroup(e)
    ensures StepIs(s, e, Step(s, e))
  {
    hide Inv, DoSeek, StartJoin, StartExpire, DoFinishJoin, DoFinishExpire, Expire, SeekIs, StartJoinIs, StartExpireIs,
         FinishIs, FinishExpireIs, FireIs;
    InvMaps(s);
    match e
    case Seek(c, aborted) => SeekForm(s, c, aborted);
    case StartOp(x) =>
      HeadOk(s, x);
      if s.items[x].ops[0].JoinOp? {
        StartJoinForm(s, x, s.items[x].ops[0].call);
      } else {
        StartExpireForm(s, x, s.items[x].ops[0].arm);
      }
    case FinishJoin(x, outcome, aborted) =>
      HeadOk(s, x);
      FinishForm(s, x, s.items[x].ops[0].call, outcome, aborted);
    case FinishExpire(x) => FinishExpireForm(s, x);
    case Fire(a) =>
      ArmItem(s, a);
      FireForm(s, a);
  }

  /** State `i` of a run, the event after it, and where that leads. */
  lemma At(states: seq<Store>, events: seq<Event>, i: nat)
    requires Run(states, events) && i < |events|
    ensures Inv(states[i]) && Enabled(states[i], events[i]) && states[i + 1] == Step(states[i], events[i])
    ensures StepIs(states[i], events[i], states[i + 1])
  {
    hide Inv, Step, Enabled, StepIs;
    RunsKeepInv(states, events, i);
    assert Leads(states[i], events[i], states[i + 1]);
    if OnGroup(events[i]) { GroupForm(states[i], events[i]); } else { OtherForm(states[i], events[i]); }
  }

  // ---- Deadlines ----

  /** The join callback of call `c` returned false for group `x`, which is in its place, and the call renews. */
  ghost predicate Renews(s: Store, e: Event, x: nat, c: nat) {
    && e.FinishJoin? && e.item == x && e.outcome == Returned(false) && Heads(s, x, JoinOp(c)) && c < |s.calls|
    && RenewsFor(s, x, s.calls[c])
  }

  lemma DeadlineStep(s: Store, e: Event, t: Store, x: nat)
    requires StepIs(s, e, t) && x < |s.items|
    ensures x < |t.items| && t.items[x].key == s.items[x].key
    ensures forall c: nat :: Renews(s, e, x, c) ==> t.items[x].deadline == Some(s.now + s.calls[c].ttl)
    ensures (forall c: nat :: !Renews(s, e, x, c)) ==> t.items[x].deadline == s.items[x].deadline
  {
    hide EmptyColumns, AppendAt, Located, FindLive, Removed, SamePlaces, SameRest, Doomed, MapsOk, CancelOk, TurnsAway;
    if e.FinishJoin? && e.item == x {
      var c := s.items[x].ops[0].call;
      assert e.outcome == Returned(false) && RenewsFor(s, x, s.calls[c]) ==> Renews(s, e, x, c);
    }
  }

  /** In every run a group's deadline is moved by the return of a join callback, to that call's TTL from now, if the
      callback returned false, the group is in its place and the call renews with a TTL; and by nothing else. */
  lemma DeadlineChanges(states: seq<Store>, events: seq<Event>, i: nat, x: nat)
    requires Run(states, events) && i < |events| && x < |states[i].items|
    ensures var s, e := states[i], events[i];
      && x < |states[i + 1].items| && states[i + 1].items[x].key == s.items[x].key
      && (forall c: nat :: Renews(s, e, x, c) ==> states[i + 1].items[x].deadline == Some(s.now + s.calls[c].ttl))
      && ((forall c: nat :: !Renews(s, e, x, c)) ==> states[i + 1].items[x].deadline == s.items[x].deadline)
  {
    hide Inv, Step, Enabled, StepIs, Renews;
    At(states, events, i);
    DeadlineStep(states[i], events[i], states[i + 1], x);
  }

  // ---- Places ----

  /** The group in its place under a key. */
  function Placed(s: Store, key: Key): Option<nat> {
    if key in s.current then Some(s.current[key]) else if key in s.previous then Some(s.previous[key]) else None
  }

  /** The deadline of a group has come. */
  predicate Due(s: Store, x: nat)
    requires x < |s.items|
  {
    s.items[x].deadline.Some? && s.items[x].deadline.value <= s.now
  }

  /** A group takes no more values: it is finished, its deadline has come, or it has lost its place. */
  predicate Closed(s: Store, x: nat)
    requires x < |s.items|
  {
    s.items[x].processed || Due(s, x) || Placed(s, s.items[x].key) != Some(x)
  }

  lemma TurnsAwayClosed(s: Store, x: nat)
    requires MapsOk(s) && x < |s.items|
    ensures TurnsAway(s, x) <==> Closed(s, x)
  {}

  lemma LocatedPlaced(s: Store, key: Key, x: nat)
    requires MapsOk(s)
    ensures Located(s, key, x) <==> Placed(s, key) == Some(x)
  {}

  /** A call of this key looks for a group, and there is none, or its time is over. */
  ghost predicate Creates(s: Store, e: Event, key: Key) {
    && e.Seek? && e.call < |s.calls| && s.calls[e.call].key == key
    && match Placed(s, key)
       case None => true
       case Some(x) => x < |s.items| && Due(s, x)
  }

  /** The group of this key is finished: its join callback returned true, or its deadline callback is over. */
  ghost predicate Vacates(s: Store, e: Event, key: Key) {
    && ((e.FinishJoin? && e.outcome == Returned(true)) || e.FinishExpire?)
    && e.item < |s.items| && s.items[e.item].key == key && Placed(s, key) == Some(e.item)
  }

  lemma FindLivePlaced(s: Store, key: Key)
    requires MapsOk(s)
    ensures match Placed(s, key)
      case None => FindLive(s, key).None?
      case Some(x) => x < |s.items| && FindLive(s, key) == if Due(s, x) then None else Some(x)
  {}

  lemma SeekPlace(s: Store, e: Event, t: Store, key: Key)
    requires StepIs(s, e, t) && MapsOk(s) && e.Seek?
    ensures !Vacates(s, e, key)
    ensures Placed(t, key) == if Creates(s, e, key) then Some(|s.items|) else Placed(s, key)
  {
    hide EmptyColumns, SameRest, Doomed, FindLive, FreshItem, Due, MapOk;
    FindLivePlaced(s, s.calls[e.call].key);
  }

  lemma PlaceStep(s: Store, e: Event, t: Store, key: Key)
    requires StepIs(s, e, t) && MapsOk(s) && OnGroup(e)
    ensures Placed(t, key) ==
      if Creates(s, e, key) then Some(|s.items|) else if Vacates(s, e, key) then None else Placed(s, key)
  {
    hide SeekIs, AppendAt, SameRest, CancelOk, TurnsAway, Closed, FindLive, Due, Retired, MapOk;
    if e.Seek? { SeekPlace(s, e, t, key); }
  }

  /** In every run the store is one map from keys to groups: a key gets a new group when a call looks for one and finds
      none alive, loses it when it is finished, and keeps it otherwise, through rotations and renewals. */
  lemma PlaceChanges(states: seq<Store>, events: seq<Event>, i: nat, key: Key)
    requires Run(states, events) && i < |events|
    ensures var s, e := states[i], events[i];
      Placed(states[i + 1], key) ==
        if Creates(s, e, key) then Some(|s.items|) else if Vacates(s, e, key) then None else Placed(s, key)
  {
    hide Inv, Enabled, StepIs, Placed, Creates, Vacates;
    At(states, events, i);
    InvMaps(states[i]);
    if OnGroup(events[i]) {
      PlaceStep(states[i], events[i], states[i + 1], key);
    } else {
      OtherPlaces(states[i], events[i], key);
    }
  }

  lemma OtherPlaces(s: Store, e: Event, key: Key)
    requires Inv(s) && Enabled(s, e) && !OnGroup(e)
    ensures Placed(Step(s, e), key) == Placed(s, key) && !Creates(s, e, key) && !Vacates(s, e, key)
  {
    hide Shape, History, GaugeOk, BarrierOk, DoRotate;
    InvMaps(s);
    if e.Rotate? { RotateEffect(s); }
  }

  /** A rotation turns the generations: the store has shrunk enough since its high-water mark. */
  ghost predicate Turns(s: Store, e: Event) {
    e.Rotate? && (s.highWaterMark == 0 || s.Size() * SHRINK_FACTOR < s.highWaterMark)
  }

  ghost predicate RenewsKey(s: Store, e: Event, key: Key) {
    e.FinishJoin? && e.item < |s.items| && s.items[e.item].key == key && exists c: nat :: Renews(s, e, e.item, c)
  }

  lemma YoungStep(s: Store, e: Event, t: Store, key: Key)
    requires StepIs(s, e, t) && MapsOk(s) && OnGroup(e)
    ensures key in t.current <==>
      Creates(s, e, key) || RenewsKey(s, e, key) || (key in s.current && !Vacates(s, e, key))
  {
    hide EmptyColumns, AppendAt, SameRest, Doomed, CancelOk, TurnsAway, Closed, FindLive, FreshItem, Due, Retired;
    if e.Seek? { FindLivePlaced(s, s.calls[e.call].key); }
    if e.FinishJoin? {
      var c := s.items[e.item].ops[0].call;
      assert RenewsKey(s, e, s.items[e.item].key)
        <==> e.outcome == Returned(false) && RenewsFor(s, e.item, s.calls[c]) by {
        assert e.outcome == Returned(false) && RenewsFor(s, e.item, s.calls[c]) ==> Renews(s, e, e.item, c);
      }
    }
  }

  lemma OtherYoung(s: Store, e: Event, key: Key)
    requires Inv(s) && Enabled(s, e) && !OnGroup(e)
    ensures key in Step(s, e).current <==> key in s.current && !Turns(s, e)
    ensures !Creates(s, e, key) && !Vacates(s, e, key) && !RenewsKey(s, e, key)
  {
    hide Shape, History, GaugeOk, BarrierOk;
  }

  /** In every run a key is in the young generation from the creation or a renewal of its group until the group is
      finished or a rotation turns the generations. */
  lemma YoungChanges(states: seq<Store>, events: seq<Event>, i: nat, key: Key)
    requires Run(states, events) && i < |events|
    ensures var s, e := states[i], events[i];
      key in states[i + 1].current <==>
        Creates(s, e, key) || RenewsKey(s, e, key) || (key in s.current && !Vacates(s, e, key) && !Turns(s, e))
  {
    hide Inv, Enabled, StepIs, Creates, Vacates, RenewsKey;
    At(states, events, i);
    InvMaps(states[i]);
    if OnGroup(events[i]) {
      YoungStep(states[i], events[i], states[i + 1], key);
    } else {
      OtherYoung(states[i], events[i], key);
    }
  }

  // ---- Chains and arms ----

  /** An expiry of a group by its timer that has come too early: the deadline was moved. */
  ghost predicate Early(s: Store, x: nat, a: nat) {
    && Heads(s, x, ExpireOp(a)) && a < |s.arms| && !s.items[x].processed && !s.arms[a].byContext
    && s.items[x].deadline.Some? && s.now < s.items[x].deadline.value
  }

  /** The operation at the head of a chain is not run: its group turns it away, is finished, or is not due. */
  ghost predicate Skips(s: Store, e: Event, x: nat) {
    && e == StartOp(x) && x < |s.items| && s.items[x].ops != []
    && if s.items[x].ops[0].JoinOp? then Closed(s, x)
       else s.items[x].processed || Early(s, x, s.items[x].ops[0].arm)
  }

  ghost predicate Ends(e: Event, x: nat) {
    (e.FinishJoin? || e.FinishExpire?) && e.item == x
  }

  /** What is put at the end of a group's chain. */
  ghost predicate Adds(s: Store, e: Event, x: nat, op: Op) {
    || (op.JoinOp? && e.Seek? && e.call == op.call && e.call < |s.calls|
        && Placed(s, s.calls[e.call].key) == Some(x) && !Creates(s, e, s.calls[e.call].key))
    || (op.ExpireOp? && e == Fire(op.arm) && op.arm < |s.arms| && !s.arms[op.arm].retired && s.arms[op.arm].item == x)
    || (op == ExpireOp(|s.arms|) && e.FinishJoin? && e.aborted
        && exists c: nat :: Renews(s, e, x, c) && s.calls[c].byContext)
  }

  lemma ChainStep(s: Store, e: Event, t: Store, x: nat)
    requires StepIs(s, e, t) && MapsOk(s) && x < |s.items|
    ensures x < |t.items|
    ensures var kept := if (Skips(s, e, x) || Ends(e, x)) && s.items[x].ops != [] then s.items[x].ops[1..]
                        else s.items[x].ops;
      && (forall op :: Adds(s, e, x, op) ==> t.items[x].ops == kept + [op])
      && ((forall op :: !Adds(s, e, x, op)) ==> t.items[x].ops == kept)
  {
    hide EmptyColumns, AppendAt, SameRest, CancelOk, TurnsAway, Closed, FindLive, Located, Placed, Due, Removed,
         SamePlaces;
    if e.StartOp? { TurnsAwayClosed(s, e.item); }
    if e.Seek? {
      FindLivePlaced(s, s.calls[e.call].key);
      assert FindLive(s, s.calls[e.call].key) == Some(x) <==> Adds(s, e, x, JoinOp(e.call));
    }
    if e.FinishJoin? && e.item == x {
      var c := s.items[x].ops[0].call;
      var fires := e.outcome == Returned(false) && RenewsFor(s, x, s.calls[c]) && s.calls[c].byContext && e.aborted;
      assert e.outcome == Returned(false) && RenewsFor(s, x, s.calls[c]) ==> Renews(s, e, x, c);
      assert fires <==> Adds(s, e, x, ExpireOp(|s.arms|));
    }
    if e.Fire? {
      assert !s.arms[e.arm].retired && s.arms[e.arm].item == x <==> Adds(s, e, x, ExpireOp(e.arm));
    }
  }

  lemma BusyStep(s: Store, e: Event, t: Store, x: nat)
    requires StepIs(s, e, t) && MapsOk(s) && x < |s.items|
    ensures x < |t.items|
    ensures t.items[x].busy ==
      if e == StartOp(x) then !Skips(s, e, x) else if Ends(e, x) then false else s.items[x].busy
  {
    hide EmptyColumns, AppendAt, SameRest, CancelOk, TurnsAway, Closed, FindLive, Located, Placed, Due, Removed,
         SamePlaces;
    if e.StartOp? { TurnsAwayClosed(s, e.item); }
    if e.Seek? { FindLivePlaced(s, s.calls[e.call].key); }
  }

  /** In every run the operations of a group run one at a time in the order they were queued: the head of the chain
      leaves it when it is skipped or when its callback is over, and what is queued goes to the end. */
  lemma ChainChanges(states: seq<Store>, events: seq<Event>, i: nat, x: nat)
    requires Run(states, events) && i < |events| && x < |states[i].items|
    ensures var s, e, t := states[i], events[i], states[i + 1];
      && x < |t.items|
      && var kept := if (Skips(s, e, x) || Ends(e, x)) && s.items[x].ops != [] then s.items[x].ops[1..]
                     else s.items[x].ops;
         && (forall op :: Adds(s, e, x, op) ==> t.items[x].ops == kept + [op])
         && ((forall op :: !Adds(s, e, x, op)) ==> t.items[x].ops == kept)
         && t.items[x].busy == if e == StartOp(x) then !Skips(s, e, x)
                               else if Ends(e, x) then false else s.items[x].busy
  {
    hide Inv, Step, Enabled, StepIs, Adds, Skips;
    At(states, events, i);
    InvMaps(states[i]);
    ChainStep(states[i], events[i], states[i + 1], x);
    BusyStep(states[i], events[i], states[i + 1], x);
  }

  /** The arm of a group is retired: it went off, its group is finished in its place, or it gets another one. */
  ghost predicate Retires(s: Store, e: Event, a: nat) {
    && a < |s.arms| && !s.arms[a].retired
    && var x := s.arms[a].item;
       || e == Fire(a)
       || (e.FinishJoin? && e.item == x && e.outcome == Returned(true) && x < |s.items|
           && Located(s, s.items[x].key, x))
       || Rearms(s, e, x)
  }

  /** A group gets another arm: its deadline is renewed, or its timer came too early. */
  ghost predicate Rearms(s: Store, e: Event, x: nat) {
    (exists c: nat :: Renews(s, e, x, c)) || (e == StartOp(x) && exists a: nat :: Early(s, x, a))
  }

  /** The arm a step makes. */
  ghost predicate Makes(s: Store, e: Event, arm: Arm) {
    || (e.Seek? && e.call < |s.calls| && Creates(s, e, s.calls[e.call].key) && s.calls[e.call].ttl > 0.0
        && arm == Arm(|s.items|, s.calls[e.call].byContext, s.calls[e.call].byContext && e.aborted))
    || (e.FinishJoin? && exists c: nat :: Renews(s, e, e.item, c)
                          && arm == Arm(e.item, s.calls[c].byContext, s.calls[c].byContext && e.aborted))
    || (e.StartOp? && (exists a: nat :: Early(s, e.item, a)) && arm == Arm(e.item, false, false))
  }

  /** No other arm of a group is live but the one it would cancel. */
  ghost predicate OneLive(s: Store) {
    forall a :: 0 <= a < |s.arms| && !s.arms[a].retired ==>
      s.arms[a].item < |s.items| && s.items[s.arms[a].item].cancel == Some(a)
  }

  lemma InvOneLive(s: Store)
    requires Inv(s)
    ensures OneLive(s)
  {
    forall a | 0 <= a < |s.arms| && !s.arms[a].retired
      ensures s.arms[a].item < |s.items| && s.items[s.arms[a].item].cancel == Some(a)
    {
      ArmItem(s, a);
    }
  }

  lemma ArmStep(s: Store, e: Event, t: Store, a: nat)
    requires StepIs(s, e, t) && MapsOk(s) && OneLive(s) && a < |s.arms|
    ensures a < |t.arms| && t.arms[a] == s.arms[a].(retired := s.arms[a].retired || Retires(s, e, a))
  {
    hide EmptyColumns, AppendAt, SameRest, TurnsAway, Closed, FindLive, Located, Placed, Due, Removed, SamePlaces,
         MapOk;
    if e.FinishJoin? {
      var x, c := e.item, s.items[e.item].ops[0].call;
      assert e.outcome == Returned(false) && RenewsFor(s, x, s.calls[c]) ==> Renews(s, e, x, c);
    }
    if e.StartOp? && s.items[e.item].ops[0].ExpireOp? {
      var b := s.items[e.item].ops[0].arm;
      var due := s.items[e.item].deadline;
      assert !s.items[e.item].processed && !s.arms[b].byContext && due.Some? && s.now < due.value ==>
        Early(s, e.item, b);
    }
  }

  lemma NewArmStep(s: Store, e: Event, t: Store)
    requires StepIs(s, e, t) && MapsOk(s)
    ensures forall arm :: Makes(s, e, arm) ==> t.arms[|s.arms|..] == [arm] && |t.arms| == |s.arms| + 1
    ensures (forall arm :: !Makes(s, e, arm)) ==> |t.arms| == |s.arms|
  {
    hide EmptyColumns, AppendAt, SameRest, TurnsAway, Closed, FindLive, Located, Placed, Due, Removed, SamePlaces,
         MapOk;
    if e.Seek? {
      var call := s.calls[e.call];
      FindLivePlaced(s, call.key);
      assert FindLive(s, call.key).None? && call.ttl > 0.0 ==>
        Makes(s, e, Arm(|s.items|, call.byContext, call.byContext && e.aborted));
    }
    if e.FinishJoin? {
      var x, c := e.item, s.items[e.item].ops[0].call;
      assert e.outcome == Returned(false) && RenewsFor(s, x, s.calls[c]) ==> Renews(s, e, x, c);
      assert Renews(s, e, x, c) ==> Makes(s, e, Arm(x, s.calls[c].byContext, s.calls[c].byContext && e.aborted));
    }
    if e.StartOp? && s.items[e.item].ops[0].ExpireOp? {
      var b := s.items[e.item].ops[0].arm;
      assert Early(s, e.item, b) ==> Makes(s, e, Arm(e.item, false, false));
    }
  }

  /** In every run an arm is retired when it goes off, when its group is finished or gets another arm, and by nothing
      else; and a group gets an arm when it is created with a TTL, renewed, or when its timer came too early. */
  lemma ArmChanges(states: seq<Store>, events: seq<Event>, i: nat)
    requires Run(states, events) && i < |events|
    ensures var s, e, t := states[i], events[i], states[i + 1];
      && |s.arms| <= |t.arms|
      && (forall a :: 0 <= a < |s.arms| ==>
            t.arms[a] == s.arms[a].(retired := s.arms[a].retired || Retires(s, e, a)))
      && (forall arm :: Makes(s, e, arm) ==> t.arms[|s.arms|..] == [arm])
      && ((forall arm :: !Makes(s, e, arm)) ==> |t.arms| == |s.arms|)
  {
    hide Inv, Step, Enabled, StepIs, Makes, Retires;
    var s, e, t := states[i], events[i], states[i + 1];
    At(states, events, i);
    InvMaps(s);
    InvOneLive(s);
    NewArmStep(s, e, t);
    forall a | 0 <= a < |s.arms|
      ensures a < |t.arms| && t.arms[a] == s.arms[a].(retired := s.arms[a].retired || Retires(s, e, a))
    {
      ArmStep(s, e, t, a);
    }
    if arm :| Makes(s, e, arm) { assert |t.arms| == |s.arms| + 1; }
  }

  // ---- Values and verdicts ----

  /** A call's operation starts at the head of its group's chain and the group takes it. */
  ghost predicate Enters(s: Store, e: Event, x: nat, c: nat) {
    e == StartOp(x) && Heads(s, x, JoinOp(c)) && c < |s.calls| && !Skips(s, e, x)
  }

  function Larger(a: nat, b: nat): nat {
    if a < b then b else a
  }

  lemma Widened(values: seq<seq<Value>>, index: nat, value: Value)
    ensures |AppendAt(values, index, value)| == Larger(|values|, index + 1)
  {}

  lemma ValueStep(s: Store, e: Event, t: Store, x: nat)
    requires StepIs(s, e, t) && MapsOk(s) && x < |s.items|
    ensures x < |t.items|
    ensures forall c: nat :: Enters(s, e, x, c) ==>
      && t.items[x].log == s.items[x].log + [Entry(c, s.calls[c].index, s.calls[c].value)]
      && |t.items[x].values| == Larger(|s.items[x].values|, s.calls[c].index + 1)
    ensures (forall c: nat :: !Enters(s, e, x, c)) ==>
      t.items[x].log == s.items[x].log && t.items[x].values == s.items[x].values
  {
    hide SameRest, TurnsAway, Closed, FindLive, Located, Placed, Due, Removed, SamePlaces, MapOk, EmptyColumns,
         AppendAt;
    if e.StartOp? { TurnsAwayClosed(s, e.item); }
    if e.StartOp? && s.items[e.item].ops[0].JoinOp? {
      var c := s.items[e.item].ops[0].call;
      assert !Closed(s, e.item) ==> Enters(s, e, e.item, c);
      Widened(s.items[e.item].values, s.calls[c].index, s.calls[c].value);
    }
    if e.Seek? { FindLivePlaced(s, s.calls[e.call].key); }
  }

  /** In every run a value enters a group, behind those before it, when its call's operation starts and the group, not
      finished, in its time and in its place, takes it; and in no other way. The table of values is as wide as the
      indices of its values ask for. */
  lemma ValueChanges(states: seq<Store>, events: seq<Event>, i: nat, x: nat)
    requires Run(states, events) && i < |events| && x < |states[i].items|
    ensures var s, e, t := states[i], events[i], states[i + 1];
      && x < |t.items|
      && (forall c: nat :: Enters(s, e, x, c) ==>
            && t.items[x].log == s.items[x].log + [Entry(c, s.calls[c].index, s.calls[c].value)]
            && |t.items[x].values| == Larger(|s.items[x].values|, s.calls[c].index + 1))
      && ((forall c: nat :: !Enters(s, e, x, c)) ==>
            t.items[x].log == s.items[x].log && t.items[x].values == s.items[x].values)
      && TableOf(t.items[x].values, t.items[x].log)
  {
    hide Inv, Step, Enabled, StepIs, Enters, TableOf;
    At(states, events, i);
    InvMaps(states[i]);
    ValueStep(states[i], events[i], states[i + 1], x);
    RunsKeepInv(states, events, i + 1);
    InvTable(states[i + 1], x);
  }

  lemma InvTable(s: Store, x: nat)
    requires Inv(s) && x < |s.items|
    ensures TableOf(s.items[x].values, s.items[x].log)
  {
    hide Shape, GaugeOk, BarrierOk, TableOf;
    assert LogOk(s.items[x], x, s.calls);
  }

  /** The deadline callback of a group begins. */
  ghost predicate CallsBack(s: Store, e: Event, x: nat) {
    e == StartOp(x) && x < |s.items| && s.items[x].ops != [] && s.items[x].ops[0].ExpireOp? && !Skips(s, e, x)
  }

  lemma VerdictStep(s: Store, e: Event, t: Store, x: nat)
    requires StepIs(s, e, t) && MapsOk(s) && x < |s.items|
    requires InJoinCallback(s.items[x]) ==> !s.items[x].processed
    requires e.FinishJoin? ==> e.item < |s.items| && InJoinCallback(s.items[e.item])
    ensures x < |t.items|
    ensures t.items[x].processed <==>
      s.items[x].processed || CallsBack(s, e, x) || (e.FinishJoin? && e.item == x && e.outcome == Returned(true))
    ensures t.items[x].deadlineRuns == s.items[x].deadlineRuns + if CallsBack(s, e, x) then 1 else 0
  {
    hide SameRest, TurnsAway, Closed, FindLive, Located, Placed, Due, Removed, SamePlaces, MapOk, EmptyColumns,
         AppendAt;
    if e.Seek? { FindLivePlaced(s, s.calls[e.call].key); }
  }

  /** In every run a group is finished by a join callback that returns true, or by the begin of its deadline callback,
      which comes when an expiry reaches the head of its chain and the group is unfinished and due, or the expiry is
      that of a context; and by nothing else. */
  lemma VerdictChanges(states: seq<Store>, events: seq<Event>, i: nat, x: nat)
    requires Run(states, events) && i < |events| && x < |states[i].items|
    ensures var s, e, t := states[i], events[i], states[i + 1];
      && x < |t.items|
      && (t.items[x].processed <==>
            s.items[x].processed || CallsBack(s, e, x)
            || (e.FinishJoin? && e.item == x && e.outcome == Returned(true)))
      && t.items[x].deadlineRuns == s.items[x].deadlineRuns + if CallsBack(s, e, x) then 1 else 0
  {
    hide Step, StepIs, CallsBack, Shape, GaugeOk, BarrierOk, LogsOk, PhasesOk, AwaysOk;
    At(states, events, i);
    InvMaps(states[i]);
    assert CompletionOk(states[i].items[x]);
    VerdictStep(states[i], events[i], states[i + 1], x);
  }

  /** So in every run the deadline callback of a group with a deadline begins before it only for the abort of a context
      that has one. */
  lemma NeverEarly(states: seq<Store>, events: seq<Event>, i: nat, x: nat)
    requires Run(states, events) && i < |events| && x < |states[i].items|
    requires x < |states[i + 1].items| && states[i + 1].items[x].deadlineRuns > states[i].items[x].deadlineRuns
    ensures var s := states[i];
      && events[i] == StartOp(x) && s.items[x].ops != [] && s.items[x].ops[0].ExpireOp?
      && var a := s.items[x].ops[0].arm;
         a < |s.arms| && s.arms[a].item == x
         && (s.arms[a].byContext || s.items[x].deadline.None? || s.items[x].deadline.value <= s.now)
  {
    hide Inv, Step, Enabled, StepIs;
    At(states, events, i);
    VerdictChanges(states, events, i, x);
    HeadOk(states[i], x);
  }

  // ---- Calls ----

  /** The phase a step takes a call to. */
  ghost function NextPhase(s: Store, e: Event, c: nat): Phase
    requires c < |s.calls|
  {
    if e == Admit(c) then Seeking
    else if e.Seek? && e.call == c then
      Queued(if Creates(s, e, s.calls[c].key) then |s.items|
             else if Placed(s, s.calls[c].key).Some? then Placed(s, s.calls[c].key).value else 0)
    else if e.StartOp? && Heads(s, e.item, JoinOp(c)) then if Skips(s, e, e.item) then Seeking else InCallback(e.item)
    else if e.FinishJoin? && Heads(s, e.item, JoinOp(c)) then Leaving
    else if e == Leave(c) then Done
    else s.calls[c].phase
  }

  lemma CallStep(s: Store, e: Event, t: Store, c: nat)
    requires StepIs(s, e, t) && MapsOk(s) && OnGroup(e) && c < |s.calls|
    ensures c < |t.calls|
    ensures var turned := e.StartOp? && Heads(s, e.item, JoinOp(c)) && Skips(s, e, e.item);
      t.calls[c] == s.calls[c].(phase := NextPhase(s, e, c), group := t.calls[c].group,
                                turnedAway := s.calls[c].turnedAway + if turned then {e.item} else {})
  {
    hide SameRest, TurnsAway, Closed, FindLive, Located, Placed, Due, Removed, SamePlaces, MapOk, EmptyColumns,
         AppendAt;
    if e.StartOp? { TurnsAwayClosed(s, e.item); }
    if e.Seek? { FindLivePlaced(s, s.calls[e.call].key); }
    assert s.calls[c].turnedAway + {} == s.calls[c].turnedAway;
  }

  lemma OtherCallStep(s: Store, e: Event, c: nat)
    requires Inv(s) && Enabled(s, e) && !OnGroup(e) && c < |s.calls|
    ensures var t := Step(s, e); c < |t.calls| && t.calls[c] == s.calls[c].(phase := NextPhase(s, e, c))
  {
    hide Inv, NextPhase, DoRotate, DoStop;
    InvMaps(s);
    RotateEffect(s);
    StopCalls(s);
    NextPhaseOther(s, e, c);
  }

  lemma NextPhaseOther(s: Store, e: Event, c: nat)
    requires !OnGroup(e) && c < |s.calls|
    ensures NextPhase(s, e, c) == if e == Admit(c) then Seeking else if e == Leave(c) then Done else s.calls[c].phase
  {}

  lemma StopCalls(s: Store)
    ensures DoStop(s).calls == s.calls
  {}

  /** In every run a call goes from its admission to the group it finds alive or makes, into that group's callback or,
      turned away, back to look for another, and leaves after its callback; nothing else moves it. */
  lemma CallChanges(states: seq<Store>, events: seq<Event>, i: nat, c: nat)
    requires Run(states, events) && i < |events| && c < |states[i].calls|
    ensures var s, e, t := states[i], events[i], states[i + 1];
      && c < |t.calls| && t.calls[c].phase == NextPhase(s, e, c)
      && t.calls[c].key == s.calls[c].key && t.calls[c].index == s.calls[c].index
      && t.calls[c].value == s.calls[c].value && t.calls[c].ttl == s.calls[c].ttl
      && t.calls[c].renew == s.calls[c].renew && t.calls[c].byContext == s.calls[c].byContext
      && t.calls[c].turnedAway == s.calls[c].turnedAway
           + if e.StartOp? && Heads(s, e.item, JoinOp(c)) && Skips(s, e, e.item) then {e.item} else {}
  {
    hide Inv, Enabled, StepIs, NextPhase, Skips;
    At(states, events, i);
    InvMaps(states[i]);
    if OnGroup(events[i]) {
      CallStep(states[i], events[i], states[i + 1], c);
    } else {
      OtherCallStep(states[i], events[i], c);
      assert states[i].calls[c].turnedAway + {} == states[i].calls[c].turnedAway;
    }
  }

  /** In every run a call begins as what it was given: refused if its index is none, waiting if it has a TTL and `stop`
      was called, and looking for its group otherwise. */
  lemma CallBegins(states: seq<Store>, events: seq<Event>, i: nat)
    requires Run(states, events) && i < |events|
    ensures var s, e, t := states[i], events[i], states[i + 1];
      if e.Begin? then
        && |t.calls| == |s.calls| + 1
        && var call, proper := t.calls[|s.calls|], 0 <= e.index <= MAX_SAFE_INTEGER;
           && call.key == e.key && call.value == e.value && call.ttl == e.ttl && call.renew == e.renew
           && call.byContext == e.byContext && (proper ==> call.index == e.index)
           && call.phase == (if !proper then Refused
                             else if e.ttl > 0.0 && s.barrier != Open then Admitting
                             else Seeking)
      else |t.calls| == |s.calls|
  {
    hide Inv, Step, Enabled, StepIs;
    At(states, events, i);
    if OnGroup(events[i]) {
      GroupCalls(states[i], events[i], states[i + 1]);
    } else {
      OtherCalls(states[i], events[i]);
    }
  }

  lemma GroupCalls(s: Store, e: Event, t: Store)
    requires StepIs(s, e, t) && OnGroup(e)
    ensures |t.calls| == |s.calls| && !e.Begin?
  {
    hide SameRest, SamePlaces, TurnsAway, Closed, FindLive, Located, Removed, DoneIs, RenewedIs, CreatedIs, Retired,
         CancelOk,
         MapsOk;
  }

  lemma OtherCalls(s: Store, e: Event)
    requires Inv(s) && Enabled(s, e) && !OnGroup(e)
    ensures var calls := Step(s, e).calls;
      if e.Begin? then
        calls == DoBegin(s, e.key, e.index, e.value, e.ttl, e.renew, e.byContext).calls && |calls| == |s.calls| + 1
      else |calls| == |s.calls|
  {
    hide Shape, History, GaugeOk, BarrierOk, DoRotate;
    if e.Rotate? {
      InvMaps(s);
      RotateEffect(s);
    }
  }

  // ---- Births, the barrier and the counters ----

  /** In every run a group is made by a call that finds none alive, and by nothing else: empty, as wide as the call's
      index asks for, with the call's TTL from now as its deadline and the call's operation in its chain. */
  lemma GroupBegins(states: seq<Store>, events: seq<Event>, i: nat)
    requires Run(states, events) && i < |events|
    ensures var s, e, t := states[i], events[i], states[i + 1];
      if e.Seek? && e.call < |s.calls| && Creates(s, e, s.calls[e.call].key) then
        && |t.items| == |s.items| + 1
        && var item, call := t.items[|s.items|], s.calls[e.call];
           && item.key == call.key && item.values == EmptyColumns(call.index + 1) && item.log == []
           && item.deadline == (if call.ttl > 0.0 then Some(s.now + call.ttl) else None)
           && !item.processed && !item.busy && item.deadlineRuns == 0 && !item.joined
           && item.ops == (if Doomed(call, e.aborted) then [ExpireOp(|s.arms|)] else []) + [JoinOp(e.call)]
      else |t.items| == |s.items|
  {
    hide Inv, Step, Enabled, StepIs, Creates, EmptyColumns, Doomed;
    At(states, events, i);
    InvMaps(states[i]);
    BirthStep(states[i], events[i], states[i + 1]);
  }

  lemma BirthStep(s: Store, e: Event, t: Store)
    requires StepIs(s, e, t) && MapsOk(s)
    ensures
      if e.Seek? && e.call < |s.calls| && Creates(s, e, s.calls[e.call].key) then
        && |t.items| == |s.items| + 1
        && t.items[|s.items|] == FreshItem(s, s.calls[e.call]).(ops :=
             (if Doomed(s.calls[e.call], e.aborted) then [ExpireOp(|s.arms|)] else []) + [JoinOp(e.call)])
      else |t.items| == |s.items|
  {
    hide SameRest, TurnsAway, Closed, FindLive, Located, Placed, Due, Removed, SamePlaces, MapOk, EmptyColumns,
         AppendAt,
         Doomed, FreshItem;
    if e.Seek? { FindLivePlaced(s, s.calls[e.call].key); }
  }

  lemma RestStep(s: Store, e: Event)
    requires Inv(s) && Enabled(s, e) && OnGroup(e)
    ensures SameRest(s, Step(s, e))
    ensures Step(s, e).evictions == s.evictions
      + if e.FinishExpire? && s.metrics && Located(s, s.items[e.item].key, e.item) then 1 else 0
  {
    hide Inv, Step, SameRest, MapsOk, Located, TurnsAway, Closed, FindLive;
    GroupForm(s, e);
  }

  lemma LastInside(s: Store, c: nat)
    requires c < |s.calls| && s.calls[c].phase == Leaving
    ensures c in TTLJoins(s.calls) <==> s.calls[c].ttl > 0.0
    ensures s.calls[c].ttl > 0.0 ==> (TTLJoins(s.calls) == {c} <==> |TTLJoins(s.calls)| == 1)
  {
    if s.calls[c].ttl > 0.0 { assert |TTLJoins(s.calls) - {c}| == |TTLJoins(s.calls)| - 1; }
  }

  /** The barrier after a step. */
  ghost function NextBarrier(s: Store, e: Event): Barrier {
    var inside := TTLJoins(s.calls);
    if e.Stop? && s.barrier == Open then (if inside == {} then Released else Pending)
    else if e.Leave? && s.barrier == Pending && inside == {e.call} then Released
    else s.barrier
  }

  ghost function NextMark(s: Store, e: Event): nat {
    if Turns(s, e) || (e.Rotate? && s.Size() > s.highWaterMark) then s.Size() else s.highWaterMark
  }

  lemma StopStep(s: Store, e: Event)
    requires Inv(s) && Enabled(s, e) && !OnGroup(e)
    ensures Step(s, e).barrier == NextBarrier(s, e)
  {
    hide Shape, History, GaugeOk, TTLJoins, DoRotate, Turns;
    InvMaps(s);
    if e.Leave? { LastInside(s, e.call); }
    if e.Rotate? { RotateEffect(s); }
  }

  lemma MergedMark(s: Store)
    ensures Merged(s).highWaterMark == s.highWaterMark
  {}

  lemma RotateStep(s: Store)
    requires s.current.Keys !! s.previous.Keys
    ensures var t := DoRotate(s);
      t.highWaterMark == NextMark(s, Rotate) && t.evictions == s.evictions && t.metrics == s.metrics && t.now == s.now
  {
    hide Merged;
    RotateEffect(s);
    MergedMark(s.(highWaterMark := s.Size()));
  }

  lemma OtherRestStep(s: Store, e: Event)
    requires Inv(s) && Enabled(s, e) && !OnGroup(e)
    ensures var t := Step(s, e);
      && t.metrics == s.metrics && t.evictions == s.evictions && t.now == (if e.Tick? then e.now else s.now)
      && t.barrier == NextBarrier(s, e) && t.highWaterMark == NextMark(s, e)
  {
    hide Shape, History, GaugeOk, BarrierOk, TTLJoins, DoRotate, NextBarrier;
    InvMaps(s);
    StopStep(s, e);
    RotateStep(s);
  }

  lemma RestNext(s: Store, e: Event)
    requires OnGroup(e)
    ensures NextBarrier(s, e) == s.barrier && NextMark(s, e) == s.highWaterMark
  {}

  /** In every run: `stop` is answered when no call with a TTL is inside, at once or with the last that leaves; the
      high-water mark follows the size, and falls to it when the generations turn; an eviction is counted for a group
      whose deadline callback is over, if it is in its place; and the clock is what it is set to. */
  lemma RestChanges(states: seq<Store>, events: seq<Event>, i: nat)
    requires Run(states, events) && i < |events|
    ensures var s, e, t := states[i], events[i], states[i + 1];
      && t.metrics == s.metrics && t.now == (if e.Tick? then e.now else s.now)
      && t.barrier == NextBarrier(s, e) && t.highWaterMark == NextMark(s, e)
      && t.evictions == s.evictions
           + if e.FinishExpire? && s.metrics && e.item < |s.items| && Placed(s, s.items[e.item].key) == Some(e.item)
             then 1 else 0
  {
    hide Inv, Step, StepIs, NextBarrier, NextMark, Located, Placed, MapsOk;
    At(states, events, i);
    InvMaps(states[i]);
    if events[i].FinishExpire? {
      LocatedPlaced(states[i], states[i].items[events[i].item].key, events[i].item);
    }
    if OnGroup(events[i]) {
      RestStep(states[i], events[i]);
      RestNext(states[i], events[i]);
    } else {
      OtherRestStep(states[i], events[i]);
    }
  }

  // ---- Where a deadline comes from ----

  /** Event `k` gave group `x` its deadline: the call that made it, or the renewing return of a join callback. */
  ghost predicate Gives(states: seq<Store>, events: seq<Event>, k: nat, x: nat, deadline: Option<real>)
    requires k < |events| && k < |states|
  {
    var s, e := states[k], events[k];
    || (e.Seek? && x == |s.items| && e.call < |s.calls| && Creates(s, e, s.calls[e.call].key)
        && deadline == if s.calls[e.call].ttl > 0.0 then Some(s.now + s.calls[e.call].ttl) else None)
    || (exists c: nat :: Renews(s, e, x, c) && deadline == Some(s.now + s.calls[c].ttl))
  }

  ghost predicate RenewsAt(states: seq<Store>, events: seq<Event>, j: nat, x: nat, c: nat) {
    j < |states| && j < |events| && Renews(states[j], events[j], x, c)
  }

  /** In every run a group's deadline is the TTL of the call that made it, from then, or the TTL of the last call that
      renewed it, from its return. */
  lemma {:induction false} DeadlineOrigin(states: seq<Store>, events: seq<Event>, i: nat, x: nat) returns (k: nat)
    requires Run(states, events) && i < |states| && x < |states[i].items|
    ensures k < i && Gives(states, events, k, x, states[i].items[x].deadline)
    ensures forall j: nat, c: nat :: k < j < i ==> !RenewsAt(states, events, j, x, c)
  {
    hide Inv, Step, Enabled, Renews, Creates;
    assert i > 0;
    GroupBegins(states, events, i - 1);
    if x < |states[i - 1].items| {
      DeadlineChanges(states, events, i - 1, x);
      k := DeadlineOrigin(states, events, i - 1, x);
      var s, e := states[i - 1], events[i - 1];
      if c: nat :| Renews(s, e, x, c) { k := i - 1; }
    } else {
      k := i - 1;
    }
  }

  lemma OldArmsRetired(s: Store, t: Store, x: nat, b: nat)
    requires OneLive(s) && x < |s.items| && CancelOk(s.items[x], x, s.arms) && |t.arms| == |s.arms| + 1
    requires t.arms[..|s.arms|] == Retired(s.arms, s.items[x].cancel) && b in LiveArms(t, x)
    ensures b == |s.arms|
  {
    assert forall d :: 0 <= d < |s.arms| ==> t.arms[d] == t.arms[..|s.arms|][d];
  }

  /** In every run, what a join callback that returned false does to its group's time: if the group is in its place and
      the call renews with a TTL, the deadline is that TTL from now, the group is in the young generation, and it has
      one live arm, made just now for the call's context or the TTL, unless that context is aborted already and the
      group's expiry queued. Otherwise deadline, arms and generation stay. */
  lemma RenewedInTime(states: seq<Store>, events: seq<Event>, i: nat, x: nat, c: nat, aborted: bool)
    requires Run(states, events) && i < |events| && events[i] == FinishJoin(x, Returned(false), aborted)
    requires Heads(states[i], x, JoinOp(c))
    ensures c < |states[i].calls| && x < |states[i + 1].items|
    ensures var s, t, call := states[i], states[i + 1], states[i].calls[c]; var key, a := s.items[x].key, |s.arms|;
      if call.renew && call.ttl > 0.0 && Located(s, key, x) then
        && t.items[x].deadline == Some(s.now + call.ttl) && key in t.current && t.current[key] == x
        && |t.arms| == a + 1 && t.arms[a] == Arm(x, call.byContext, call.byContext && aborted)
        && LiveArms(t, x) == (if call.byContext && aborted then {} else {a})
        && (call.byContext && aborted ==> ExpireOp(a) in t.items[x].ops)
      else
        && t.items[x].deadline == s.items[x].deadline && t.arms == s.arms
        && t.current == s.current && t.previous == s.previous
  {
    hide Step, Enabled, History, GaugeOk, BarrierOk, ChainsOk, WaitsOk, ExpiriesOk, MapsOk;
    At(states, events, i);
    HeadOk(states[i], x);
    var s, t := states[i], states[i + 1];
    if RenewsFor(s, x, s.calls[c]) {
      InvOneLive(s);
      forall b | b in LiveArms(t, x) ensures b == |s.arms| { OldArmsRetired(s, t, x, b); }
    }
  }
}
