/** What every step of the join store keeps. A step touches one group, one call and the arms of the group; the
    lemmas show what such a step carries over, and that each step is one. */
module JoinRuns {
  import opened Base
  import opened JoinStorage

  ghost predicate Enabled(s: Store, e: Event) {
    match e
    case Tick(t) => s.now <= t
    case Begin(_, _, _, _, _, _) => true
    case Admit(c) => c < |s.calls| && s.calls[c].phase == Admitting && s.barrier == Released
    case Seek(c, _) => c < |s.calls| && s.calls[c].phase == Seeking
    case StartOp(x) => x < |s.items| && !s.items[x].busy && s.items[x].ops != []
    case FinishJoin(x, _, _) => x < |s.items| && InJoinCallback(s.items[x])
    case FinishExpire(x) => x < |s.items| && InDeadlineCallback(s.items[x])
    case Fire(a) => a < |s.arms|
    case Leave(c) => c < |s.calls| && s.calls[c].phase == Leaving
    case Rotate => true
    case Stop => true
  }

  ghost function Step(s: Store, e: Event): Store
    requires Inv(s) && Enabled(s, e)
  {
    match e
    case Tick(t) => s.(now := t)
    case Begin(key, index, value, ttl, renew, byContext) => DoBegin(s, key, index, value, ttl, renew, byContext)
    case Admit(c) => WithPhase(s, c, Seeking).(activeTTLJoins := s.activeTTLJoins + 1)
    case Seek(c, aborted) => DoSeek(s, c, aborted)
    case StartOp(x) =>
      assert OpOk(s.items[x].ops[0], x, s.items[x].key, s.items[x].busy, s.calls, s.arms);
      (match s.items[x].ops[0]
       case JoinOp(c) => StartJoin(s, x, c)
       case ExpireOp(a) => StartExpire(s, x, a))
    case FinishJoin(x, outcome, aborted) =>
      assert OpOk(s.items[x].ops[0], x, s.items[x].key, s.items[x].busy, s.calls, s.arms);
      DoFinishJoin(s, x, s.items[x].ops[0].call, outcome, aborted)
    case FinishExpire(x) => DoFinishExpire(s, x)
    case Fire(a) => Expire(s, a)
    case Leave(c) => DoLeave(s, c)
    case Rotate => DoRotate(s)
    case Stop => DoStop(s)
  }

  // ---- Steps that touch one group, its arms and at most one call ----

  /** What the invariant says about group `x` alone, but for its expiry. */
  ghost predicate GroupBase(s: Store, x: nat) {
    && x < |s.items|
    && CancelOk(s.items[x], x, s.arms)
    && (forall a :: 0 <= a < |s.arms| && s.arms[a].item == x && !s.arms[a].retired ==> s.items[x].cancel == Some(a))
    && ChainOk(s.items[x], x, s.calls, s.arms)
    && CompletionOk(s.items[x])
    && (s.items[x].processed && Located(s, s.items[x].key, x) ==> InDeadlineCallback(s.items[x]))
    && LogOk(s.items[x], x, s.calls)
  }

  ghost predicate GroupOk(s: Store, x: nat) {
    GroupBase(s, x) && ExpiryOk(s.items[x], s.arms)
  }

  /** What the invariant says about call `c` alone; nothing when there is no such call. */
  ghost predicate CallOk(s: Store, c: nat) {
    c < |s.calls| ==>
      && WaitOk(s.calls[c], c, s.items) && LoggedOk(s.calls[c], c, s.items)
      && PhaseOk(s.calls[c]) && AwayOk(s, s.calls[c])
  }

  ghost predicate GenerationTouched(before: map<Key, nat>, after: map<Key, nat>, x: nat, key: Key) {
    forall k <- after :: (after[k] == x && k == key) || (k in before && after[k] == before[k])
  }

  /** Nothing but group `x`, its arms, its place in the maps and call `c` changed. */
  ghost predicate Touches(s: Store, t: Store, x: nat, c: nat) {
    && t.now == s.now
    && x < |t.items| && (|t.items| == |s.items| || (x == |s.items| && |t.items| == x + 1))
    && (forall y :: 0 <= y < |s.items| && y != x ==> t.items[y] == s.items[y])
    && |s.arms| <= |t.arms|
    && (forall a :: 0 <= a < |s.arms| ==> t.arms[a].item == s.arms[a].item)
    && (forall a :: 0 <= a < |s.arms| && s.arms[a].item != x ==> t.arms[a] == s.arms[a])
    && (forall a :: |s.arms| <= a < |t.arms| ==> t.arms[a].item == x)
    && |t.calls| == |s.calls|
    && (forall d :: 0 <= d < |s.calls| && d != c ==> t.calls[d] == s.calls[d])
    && GenerationTouched(s.current, t.current, x, t.items[x].key)
    && GenerationTouched(s.previous, t.previous, x, t.items[x].key)
    && t.current.Keys !! t.previous.Keys
  }

  /** What group `x` and call `c` carry over to the next state. */
  ghost predicate Carries(s: Store, t: Store, x: nat, c: nat) {
    && |s.items| <= |t.items| && |s.calls| <= |t.calls|
    && (x < |s.items| ==>
          && t.items[x].key == s.items[x].key
          && s.items[x].log <= t.items[x].log
          && (Dead(s, x) ==> Dead(t, x))
          && (forall d :: d != c && JoinOp(d) in s.items[x].ops ==> JoinOp(d) in t.items[x].ops))
    && (c < |s.calls| ==>
          && (s.calls[c].phase.Queued? || s.calls[c].phase.InCallback? ==> s.calls[c].phase.item == x)
          && (s.calls[c].group == None || t.calls[c] == s.calls[c].(phase := t.calls[c].phase)))
  }

  lemma ArmsAfter(s: Store, t: Store, x: nat, c: nat)
    requires MapsOk(s) && ArmsOk(s) && ExpiriesOk(s)
    requires Touches(s, t, x, c) && Carries(s, t, x, c) && GroupOk(t, x)
    ensures MapsOk(t) && ArmsOk(t) && ExpiriesOk(t)
  {}

  lemma ChainsAfter(s: Store, t: Store, x: nat, c: nat)
    requires ChainsOk(s) && WaitsOk(s)
    requires Touches(s, t, x, c) && Carries(s, t, x, c) && GroupOk(t, x) && CallOk(t, c)
    ensures ChainsOk(t) && WaitsOk(t)
  {}

  lemma LogsAfter(s: Store, t: Store, x: nat, c: nat)
    requires LogsOk(s) && Touches(s, t, x, c) && Carries(s, t, x, c) && GroupOk(t, x) && CallOk(t, c)
    ensures LogsOk(t)
  {
    forall d | 0 <= d < |t.calls| ensures LoggedOk(t.calls[d], d, t.items) {
      if d != c && s.calls[d].group == Some(x) && x < |s.items| {
        assert LoggedOk(s.calls[d], d, s.items);
        var j :| 0 <= j < |s.items[x].log| && s.items[x].log[j].call == d;
        assert t.items[x].log[j].call == d;
      }
    }
  }

  lemma CompletionsAfter(s: Store, t: Store, x: nat, c: nat)
    requires MapsOk(s) && CompletionsOk(s) && Touches(s, t, x, c) && Carries(s, t, x, c) && GroupOk(t, x)
    ensures CompletionsOk(t)
  {}

  lemma PhasesAfter(s: Store, t: Store, x: nat, c: nat)
    requires MapsOk(s) && CompletionsOk(s) && PhasesOk(s)
    requires Touches(s, t, x, c) && Carries(s, t, x, c) && GroupOk(t, x) && CallOk(t, c)
    ensures PhasesOk(t)
  {}

  lemma AwaysAfter(s: Store, t: Store, x: nat, c: nat)
    requires MapsOk(s) && CompletionsOk(s) && AwaysOk(s)
    requires Touches(s, t, x, c) && Carries(s, t, x, c) && GroupOk(t, x) && CallOk(t, c)
    ensures AwaysOk(t)
  {}

  lemma TouchKeeps(s: Store, t: Store, x: nat, c: nat)
    requires Shape(s) && History(s)
    requires Touches(s, t, x, c) && Carries(s, t, x, c) && GroupOk(t, x) && CallOk(t, c)
    ensures Shape(t) && History(t)
  {
    ArmsAfter(s, t, x, c);
    ChainsAfter(s, t, x, c);
    LogsAfter(s, t, x, c);
    CompletionsAfter(s, t, x, c);
    PhasesAfter(s, t, x, c);
    AwaysAfter(s, t, x, c);
  }

  lemma ArmEffect(s: Store, x: nat, byContext: bool, aborted: bool)
    requires x < |s.items|
    ensures var fired := byContext && aborted; var a := |s.arms|;
      ArmDeadline(s, x, byContext, aborted) ==
      s.(arms := s.arms + [Arm(x, byContext, fired)],
         items := s.items[x := s.items[x].(cancel := Some(a),
                                           ops := s.items[x].ops + if fired then [ExpireOp(a)] else [])])
  {
    var item := s.items[x].(cancel := Some(|s.arms|));
    assert item.ops + [] == item.ops;
    var armed := s.(arms := s.arms + [Arm(x, byContext, false)], items := s.items[x := item]);
    if byContext && aborted {
      assert CancelDeadline(armed, x).arms == s.arms + [Arm(x, byContext, true)];
      assert s.items[x := item][x := item.(ops := item.ops + [ExpireOp(|s.arms|)])]
          == s.items[x := item.(ops := item.ops + [ExpireOp(|s.arms|)])];
    }
  }

  ghost predicate Reached(s: Store, u: Store, x: nat, c: nat) {
    Touches(s, u, x, c) && Carries(s, u, x, c)
  }

  ghost predicate Sound(u: Store, x: nat, c: nat) {
    GroupBase(u, x) && CallOk(u, c)
  }

  /** A step under way: `u` is reached from `s` by touching group `x` and call `c` only. */
  ghost predicate Moving(s: Store, u: Store, x: nat, c: nat) {
    Reached(s, u, x, c) && Sound(u, x, c)
  }

  ghost predicate Moved(s: Store, t: Store, x: nat, c: nat) {
    Moving(s, t, x, c) && ExpiryOk(t.items[x], t.arms)
  }

  ghost predicate Disarmed(s: Store, x: nat) {
    forall a :: 0 <= a < |s.arms| && s.arms[a].item == x ==> s.arms[a].retired
  }

  lemma CancelReached(s: Store, u: Store, x: nat, c: nat)
    requires Reached(s, u, x, c) && CancelOk(u.items[x], x, u.arms)
    ensures Reached(s, CancelDeadline(u, x), x, c)
  {}

  lemma CancelSound(u: Store, x: nat, c: nat)
    requires Sound(u, x, c)
    ensures Sound(CancelDeadline(u, x), x, c) && Disarmed(CancelDeadline(u, x), x)
  {}

  lemma CancelMoves(s: Store, u: Store, x: nat, c: nat)
    requires Moving(s, u, x, c)
    ensures Moving(s, CancelDeadline(u, x), x, c) && Disarmed(CancelDeadline(u, x), x)
  {
    CancelReached(s, u, x, c);
    CancelSound(u, x, c);
    hide Reached, Sound;
  }

  lemma ArmReached(s: Store, u: Store, x: nat, c: nat, byContext: bool, aborted: bool)
    requires Reached(s, u, x, c) && ChainOk(u.items[x], x, u.calls, u.arms)
    ensures Reached(s, ArmDeadline(u, x, byContext, aborted), x, c)
  {
    ArmEffect(u, x, byContext, aborted);
    hide ArmDeadline;
  }

  lemma ArmSound(u: Store, x: nat, c: nat, byContext: bool, aborted: bool)
    requires Sound(u, x, c) && Disarmed(u, x)
    ensures var t := ArmDeadline(u, x, byContext, aborted); Sound(t, x, c) && ExpiryOk(t.items[x], t.arms)
  {
    ArmEffect(u, x, byContext, aborted);
    var t := ArmDeadline(u, x, byContext, aborted);
    if byContext && aborted {
      assert t.items[x].ops[|u.items[x].ops|].ExpireOp?;
    } else {
      assert t.items[x].ops == u.items[x].ops;
    }
    hide ArmDeadline;
  }

  /** Arming a group that has no live arm completes a step. */
  lemma ArmMoves(s: Store, u: Store, x: nat, c: nat, byContext: bool, aborted: bool)
    requires Moving(s, u, x, c) && Disarmed(u, x)
    ensures Moved(s, ArmDeadline(u, x, byContext, aborted), x, c)
  {
    ArmReached(s, u, x, c, byContext, aborted);
    ArmSound(u, x, c, byContext, aborted);
    hide Reached, Sound, ArmDeadline;
  }

  lemma FireMoves(s: Store, a: nat)
    requires a < |s.arms| && !s.arms[a].retired && GroupOk(s, s.arms[a].item)
    requires s.current.Keys !! s.previous.Keys
    ensures Moved(s, Expire(s, a), s.arms[a].item, |s.calls|)
  {
    var x, t := s.arms[a].item, Expire(s, a);
    assert t.items[x].ops[|s.items[x].ops|] == ExpireOp(a);
  }

  /** Dropping the head of a chain keeps the other links. */
  lemma PopKeeps(s: Store, x: nat)
    requires x < |s.items| && s.items[x].ops != [] && ChainOk(s.items[x], x, s.calls, s.arms)
    ensures ChainOk(PopOp(s, x).items[x], x, s.calls, s.arms) || s.items[x].busy
    ensures forall op :: op in s.items[x].ops && op != s.items[x].ops[0] ==> op in s.items[x].ops[1..]
    ensures Expiring(s.items[x]) && s.items[x].ops[0].JoinOp? ==> Expiring(PopOp(s, x).items[x])
  {
    var ops := s.items[x].ops;
    if i :| 1 <= i < |ops| && ops[i].ExpireOp? {
      assert ops[1..][i - 1].ExpireOp?;
    }
  }

  lemma TableAppend(values: seq<seq<Value>>, log: seq<Entry>, e: Entry)
    requires TableOf(values, log)
    ensures TableOf(AppendAt(values, e.index, e.value), log + [e])
  {
    var longer := log + [e];
    assert longer[..|log|] == log;
    forall i | |values| <= i ensures Column(log, i) == [] {
      ColumnBeyond(log, i, |values|);
    }
  }

  lemma {:induction false} ColumnBeyond(log: seq<Entry>, index: nat, width: nat)
    requires width <= index && forall j :: 0 <= j < |log| ==> log[j].index < width
    ensures Column(log, index) == []
  {
    if log != [] {
      ColumnBeyond(log[..|log| - 1], index, width);
    }
  }

  lemma StaleExpireMoves(s: Store, x: nat, a: nat)
    requires Enabled(s, StartOp(x)) && s.items[x].ops[0] == ExpireOp(a) && a < |s.arms|
    requires GroupOk(s, x) && s.current.Keys !! s.previous.Keys && s.items[x].processed
    ensures Moved(s, StartExpire(s, x, a), x, |s.calls|)
  {
    PopKeeps(s, x);
  }

  lemma RearmMoves(s: Store, x: nat, a: nat)
    requires Enabled(s, StartOp(x)) && s.items[x].ops[0] == ExpireOp(a) && a < |s.arms|
    requires GroupOk(s, x) && s.current.Keys !! s.previous.Keys && !s.items[x].processed
    requires !s.arms[a].byContext && s.items[x].deadline.Some? && s.items[x].deadline.value > s.now
    ensures Moved(s, ArmDeadline(CancelDeadline(PopOp(s, x), x), x, false, false), x, |s.calls|)
  {
    PopKeeps(s, x);
    CancelMoves(s, PopOp(s, x), x, |s.calls|);
    ArmMoves(s, CancelDeadline(PopOp(s, x), x), x, |s.calls|, false, false);
  }

  lemma RunExpireMoves(s: Store, x: nat, a: nat)
    requires Enabled(s, StartOp(x)) && s.items[x].ops[0] == ExpireOp(a) && a < |s.arms|
    requires GroupOk(s, x) && s.current.Keys !! s.previous.Keys && !s.items[x].processed
    requires s.arms[a].byContext || s.items[x].deadline.None? || s.items[x].deadline.value <= s.now
    ensures Moved(s, StartExpire(s, x, a), x, |s.calls|)
  {
  }

  ghost predicate Starting(s: Store, x: nat, c: nat) {
    && Enabled(s, StartOp(x)) && s.items[x].ops[0] == JoinOp(c) && c < |s.calls|
    && GroupOk(s, x) && CallOk(s, c) && s.current.Keys !! s.previous.Keys
  }

  lemma TurnAwayReached(s: Store, x: nat, c: nat)
    requires Starting(s, x, c) && TurnsAway(s, x)
    ensures Reached(s, StartJoin(s, x, c), x, c)
  {
    PopKeeps(s, x);
    assert OpOk(s.items[x].ops[0], x, s.items[x].key, false, s.calls, s.arms);
    hide LogOk, AwayOk;
  }

  lemma TurnAwaySound(s: Store, x: nat, c: nat)
    requires Starting(s, x, c) && TurnsAway(s, x)
    ensures var t := StartJoin(s, x, c); Sound(t, x, c) && ExpiryOk(t.items[x], t.arms)
  {
    PopKeeps(s, x);
  }

  lemma TurnAwayMoves(s: Store, x: nat, c: nat)
    requires Starting(s, x, c) && TurnsAway(s, x)
    ensures Moved(s, StartJoin(s, x, c), x, c)
  {
    TurnAwayReached(s, x, c);
    TurnAwaySound(s, x, c);
    hide Reached, Sound, StartJoin;
  }

  lemma AppendMoves(s: Store, x: nat, c: nat)
    requires Starting(s, x, c) && !TurnsAway(s, x)
    ensures Moved(s, StartJoin(s, x, c), x, c)
  {
    var call, item := s.calls[c], s.items[x];
    var e := Entry(c, call.index, call.value);
    TableAppend(item.values, item.log, e);
    var t := StartJoin(s, x, c);
    assert t.items[x].log[|item.log|] == e;
  }

  lemma EnqueueReached(s: Store, u: Store, x: nat, c: nat)
    requires Reached(s, u, x, c) && c < |s.calls| && u.calls == s.calls && s.calls[c].phase == Seeking
    requires ChainOk(u.items[x], x, u.calls, u.arms)
    ensures Reached(s, WithPhase(Enqueue(u, x, JoinOp(c)), c, Queued(x)), x, c)
  {
    var t := WithPhase(Enqueue(u, x, JoinOp(c)), c, Queued(x));
    assert forall op :: op in u.items[x].ops ==> op in t.items[x].ops;
  }

  lemma EnqueueSound(u: Store, x: nat, c: nat)
    requires Sound(u, x, c) && ExpiryOk(u.items[x], u.arms) && c < |u.calls| && u.calls[c].phase == Seeking
    requires u.calls[c].key == u.items[x].key && x !in u.calls[c].turnedAway
    ensures var t := WithPhase(Enqueue(u, x, JoinOp(c)), c, Queued(x));
      Sound(t, x, c) && ExpiryOk(t.items[x], t.arms)
  {
    var t := WithPhase(Enqueue(u, x, JoinOp(c)), c, Queued(x));
    assert t.items[x].ops[|u.items[x].ops|] == JoinOp(c);
    if i :| 0 <= i < |u.items[x].ops| && u.items[x].ops[i].ExpireOp? {
      assert t.items[x].ops[i].ExpireOp?;
    }
  }

  lemma EnqueueMoves(s: Store, u: Store, x: nat, c: nat)
    requires Moved(s, u, x, c) && c < |s.calls| && u.calls == s.calls && s.calls[c].phase == Seeking
    requires s.calls[c].key == u.items[x].key && x !in s.calls[c].turnedAway
    ensures Moved(s, WithPhase(Enqueue(u, x, JoinOp(c)), c, Queued(x)), x, c)
  {
    EnqueueReached(s, u, x, c);
    EnqueueSound(u, x, c);
    hide Reached, Sound;
  }

  lemma NewItemMoves(s: Store, c: nat)
    requires MapsOk(s) && c < |s.calls| && CallOk(s, c) && s.calls[c].phase == Seeking
    requires forall a :: 0 <= a < |s.arms| ==> s.arms[a].item < |s.items|
    ensures var u, x := NewItem(s, c), |s.items|;
      && Moving(s, u, x, c) && Disarmed(u, x)
      && u.items[x].ops == [] && (s.calls[c].ttl <= 0.0 ==> u.items[x].deadline.None?)
  {
  }

  lemma SeekMoves(s: Store, c: nat, aborted: bool)
    requires MapsOk(s) && ArmsOk(s) && c < |s.calls| && CallOk(s, c) && s.calls[c].phase == Seeking
    requires FindLive(s, s.calls[c].key).Some? ==> GroupOk(s, FindLive(s, s.calls[c].key).value)
    ensures var live := FindLive(s, s.calls[c].key);
      Moved(s, DoSeek(s, c, aborted), if live.Some? then live.value else |s.items|, c)
  {
    match FindLive(s, s.calls[c].key)
    case Some(x) => EnqueueMoves(s, s, x, c);
    case None =>
      var x := |s.items|;
      NewItemMoves(s, c);
      if s.calls[c].ttl > 0.0 {
        ArmMoves(s, NewItem(s, c), x, c, s.calls[c].byContext, aborted);
      }
      EnqueueMoves(s, CreateItem(s, c, aborted), x, c);
  }

  ghost predicate Returning(s: Store, x: nat, c: nat) {
    && x < |s.items| && c < |s.calls| && InJoinCallback(s.items[x]) && s.items[x].ops[0] == JoinOp(c)
    && GroupOk(s, x) && CallOk(s, c) && s.current.Keys !! s.previous.Keys
  }

  /** The call of the running join callback leaves; the group is otherwise as before. */
  lemma PopMoves(s: Store, x: nat, c: nat)
    requires Returning(s, x, c)
    ensures var u := WithPhase(PopOp(s, x), c, Leaving);
      Moved(s, u, x, c) && !u.items[x].busy && !u.items[x].processed
      && Dead(u, x) == (Expired(s.items[x], s.now) || !Located(s, s.items[x].key, x))
  {
    PopKeeps(s, x);
  }

  lemma MarkMoves(s: Store, u: Store, x: nat, c: nat, done: bool)
    requires Moving(s, u, x, c) && (done || ExpiryOk(u.items[x], u.arms)) && !u.items[x].busy && !u.items[x].processed
    requires done ==> !Located(u, u.items[x].key, x)
    ensures Moved(s, Mark(u, x, done), x, c)
  {}

  lemma RemoveReached(s: Store, u: Store, x: nat, c: nat, evicting: bool)
    requires Reached(s, u, x, c)
    ensures var key := u.items[x].key; var t := RemoveAt(u, key, Locate(u, key, x), evicting);
      Reached(s, t, x, c) && !Located(t, key, x)
  {}

  lemma RemoveSound(u: Store, x: nat, c: nat, evicting: bool)
    requires Sound(u, x, c) && u.current.Keys !! u.previous.Keys
    ensures var key := u.items[x].key; Sound(RemoveAt(u, key, Locate(u, key, x), evicting), x, c)
  {}

  lemma RemoveMoves(s: Store, u: Store, x: nat, c: nat, evicting: bool)
    requires Moving(s, u, x, c)
    ensures var key := u.items[x].key; var t := RemoveAt(u, key, Locate(u, key, x), evicting);
      Moving(s, t, x, c) && !Located(t, key, x)
  {
    RemoveReached(s, u, x, c, evicting);
    RemoveSound(u, x, c, evicting);
    hide Reached, Sound, RemoveAt;
  }

  lemma PopExpireReached(s: Store, u: Store, x: nat, c: nat)
    requires Reached(s, u, x, c) && InDeadlineCallback(u.items[x])
    ensures Reached(s, PopOp(u, x), x, c)
  {
    assert forall op :: op in u.items[x].ops && op != u.items[x].ops[0] ==> op in u.items[x].ops[1..];
  }

  lemma PopExpireSound(u: Store, x: nat, c: nat)
    requires Sound(u, x, c) && InDeadlineCallback(u.items[x]) && !Located(u, u.items[x].key, x)
    ensures Sound(PopOp(u, x), x, c) && PopOp(u, x).items[x].processed
  {
    assert forall op :: op in u.items[x].ops && op != u.items[x].ops[0] ==> op in u.items[x].ops[1..];
  }

  lemma FinishExpireMoves(s: Store, x: nat)
    requires Enabled(s, FinishExpire(x)) && GroupOk(s, x) && s.current.Keys !! s.previous.Keys
    ensures Moved(s, DoFinishExpire(s, x), x, |s.calls|)
  {
    var key := s.items[x].key;
    var u := RemoveAt(s, key, Locate(s, key, x), true);
    RemoveMoves(s, s, x, |s.calls|, true);
    PopExpireReached(s, u, x, |s.calls|);
    PopExpireSound(u, x, |s.calls|);
    hide Reached, Sound;
  }

  lemma DoneCommutes(u: Store, x: nat)
    requires x < |u.items| && CancelOk(u.items[x], x, u.arms)
    ensures var key := u.items[x].key; var v := CancelDeadline(u, x);
      RemoveAt(CancelDeadline(Mark(u, x, true), x), key, Locate(u, key, x), false)
      == Mark(RemoveAt(v, key, Locate(v, key, x), false), x, true)
  {}

  lemma DoneMoves(s: Store, u: Store, x: nat, c: nat)
    requires Moved(s, u, x, c) && !u.items[x].busy && !u.items[x].processed
    ensures var key := u.items[x].key;
      Moved(s, RemoveAt(CancelDeadline(Mark(u, x, true), x), key, Locate(u, key, x), false), x, c)
  {
    var v := CancelDeadline(u, x);
    DoneCommutes(u, x);
    CancelMoves(s, u, x, c);
    RemoveMoves(s, v, x, c, false);
    MarkMoves(s, RemoveAt(v, u.items[x].key, Locate(v, u.items[x].key, x), false), x, c, true);
  }

  lemma RenewedReached(s: Store, u: Store, x: nat, c: nat, ttl: real)
    requires Reached(s, u, x, c) && Located(u, u.items[x].key, x) && x < |s.items| && !Dead(s, x)
    ensures Reached(s, Renewed(u, x, ttl), x, c)
  {}

  lemma RenewedSound(u: Store, x: nat, c: nat, ttl: real)
    requires Sound(u, x, c) && Located(u, u.items[x].key, x) && u.current.Keys !! u.previous.Keys
    requires !u.items[x].busy && !u.items[x].processed && c < |u.calls| && x !in u.calls[c].turnedAway
    ensures Sound(Renewed(u, x, ttl), x, c)
  {}

  lemma RenewedMoves(s: Store, u: Store, x: nat, c: nat, ttl: real)
    requires Moved(s, u, x, c) && !u.items[x].busy && !u.items[x].processed && Located(u, u.items[x].key, x)
    requires x < |s.items| && !Dead(s, x) && c < |s.calls| && x !in u.calls[c].turnedAway
    ensures Moving(s, Renewed(u, x, ttl), x, c)
  {
    RenewedReached(s, u, x, c, ttl);
    RenewedSound(u, x, c, ttl);
    hide Reached, Sound, Renewed;
  }

  lemma RenewMoves(s: Store, u: Store, x: nat, c: nat, ttl: real, byContext: bool, aborted: bool)
    requires Moved(s, u, x, c) && !u.items[x].busy && !u.items[x].processed && Located(u, u.items[x].key, x)
    requires x < |s.items| && !Dead(s, x) && c < |s.calls| && x !in u.calls[c].turnedAway
    ensures Moved(s, RenewDeadline(u, x, ttl, byContext, aborted), x, c)
  {
    RenewedMoves(s, u, x, c, ttl);
    hide Reached, CallOk;
    CancelMoves(s, Renewed(u, x, ttl), x, c);
    ArmMoves(s, CancelDeadline(Renewed(u, x, ttl), x), x, c, byContext, aborted);
  }

  // ---- Every step keeps the invariant ----

  lemma Unpack(s: Store, x: nat, c: nat)
    requires Shape(s) && History(s) && x < |s.items|
    ensures GroupOk(s, x) && CallOk(s, c)
  {}

  lemma StartJoinKeeps(s: Store, x: nat, c: nat)
    requires Shape(s) && History(s) && Enabled(s, StartOp(x)) && s.items[x].ops[0] == JoinOp(c) && c < |s.calls|
    ensures Shape(StartJoin(s, x, c)) && History(StartJoin(s, x, c))
  {
    Unpack(s, x, c);
    if TurnsAway(s, x) { TurnAwayMoves(s, x, c); } else { AppendMoves(s, x, c); }
    TouchKeeps(s, StartJoin(s, x, c), x, c);
  }

  lemma StartExpireKeeps(s: Store, x: nat, a: nat)
    requires Shape(s) && History(s) && Enabled(s, StartOp(x)) && s.items[x].ops[0] == ExpireOp(a) && a < |s.arms|
    ensures Shape(StartExpire(s, x, a)) && History(StartExpire(s, x, a))
  {
    Unpack(s, x, |s.calls|);
    if s.items[x].processed { StaleExpireMoves(s, x, a); }
    else if !s.arms[a].byContext && s.items[x].deadline.Some? && s.items[x].deadline.value > s.now {
      RearmMoves(s, x, a);
    } else { RunExpireMoves(s, x, a); }
    TouchKeeps(s, StartExpire(s, x, a), x, |s.calls|);
  }

  lemma FinishJoinMoves(s: Store, x: nat, c: nat, outcome: Outcome, aborted: bool)
    requires Returning(s, x, c)
    ensures Moved(s, DoFinishJoin(s, x, c, outcome, aborted), x, c)
  {
    hide Reached, Sound, RenewDeadline, RemoveAt;
    PopMoves(s, x, c);
    var u := WithPhase(PopOp(s, x), c, Leaving);
    if outcome.Returned? {
      if !Located(u, u.items[x].key, x) { MarkMoves(s, u, x, c, outcome.done); }
      else if outcome.done { DoneMoves(s, u, x, c); }
      else {
        MarkMoves(s, u, x, c, false);
        if s.calls[c].renew && s.calls[c].ttl > 0.0 {
          RenewMoves(s, Mark(u, x, false), x, c, s.calls[c].ttl, s.calls[c].byContext, aborted);
        }
      }
    }
  }

  lemma FinishJoinKeeps(s: Store, x: nat, c: nat, outcome: Outcome, aborted: bool)
    requires Shape(s) && History(s) && Enabled(s, FinishJoin(x, outcome, aborted))
    requires s.items[x].ops[0] == JoinOp(c) && c < |s.calls|
    ensures var t := DoFinishJoin(s, x, c, outcome, aborted); Shape(t) && History(t)
  {
    Unpack(s, x, c);
    FinishJoinMoves(s, x, c, outcome, aborted);
    TouchKeeps(s, DoFinishJoin(s, x, c, outcome, aborted), x, c);
  }

  lemma SeekKeeps(s: Store, c: nat, aborted: bool)
    requires Inv(s) && Enabled(s, Seek(c, aborted))
    ensures Shape(DoSeek(s, c, aborted)) && History(DoSeek(s, c, aborted))
  {
    var live := FindLive(s, s.calls[c].key);
    if live.Some? { Unpack(s, live.value, c); }
    SeekMoves(s, c, aborted);
    TouchKeeps(s, DoSeek(s, c, aborted), if live.Some? then live.value else |s.items|, c);
  }

  lemma FireKeeps(s: Store, a: nat)
    requires Inv(s) && a < |s.arms|
    ensures Shape(Expire(s, a)) && History(Expire(s, a))
  {
    if !s.arms[a].retired {
      Unpack(s, s.arms[a].item, |s.calls|);
      FireMoves(s, a);
      TouchKeeps(s, Expire(s, a), s.arms[a].item, |s.calls|);
    }
  }

  lemma FinishExpireKeeps(s: Store, x: nat)
    requires Inv(s) && Enabled(s, FinishExpire(x))
    ensures Shape(DoFinishExpire(s, x)) && History(DoFinishExpire(s, x))
  {
    Unpack(s, x, |s.calls|);
    FinishExpireMoves(s, x);
    TouchKeeps(s, DoFinishExpire(s, x), x, |s.calls|);
  }

  lemma BeginShape(s: Store, call: Call)
    requires Shape(s) && (call.phase == Refused || call.phase == Admitting || call.phase == Seeking)
    ensures Shape(s.(calls := s.calls + [call]))
  {}

  lemma BeginHistory(s: Store, call: Call)
    requires History(s) && call.group == None && call.turnedAway == {} && PhaseOk(call)
    requires call.phase == Refused || call.phase == Admitting || call.phase == Seeking
    ensures History(s.(calls := s.calls + [call]))
  {}

  lemma PhaseShape(s: Store, c: nat, phase: Phase)
    requires Shape(s) && c < |s.calls| && !phase.Queued? && !phase.InCallback?
    requires !s.calls[c].phase.Queued? && !s.calls[c].phase.InCallback?
    ensures Shape(WithPhase(s, c, phase))
  {}

  lemma PhaseHistory(s: Store, c: nat, phase: Phase)
    requires History(s) && c < |s.calls| && PhaseOk(s.calls[c].(phase := phase))
    requires !phase.Queued? && !phase.InCallback?
    ensures History(WithPhase(s, c, phase))
  {}

  lemma RescuedAll(current: map<Key, nat>, previous: map<Key, nat>)
    requires current.Keys !! previous.Keys
    ensures Rescued(current, previous) == previous
  {}

  /** Rotation evicts nothing: it moves both generations into the old one, or leaves them alone. */
  lemma RotateEffect(s: Store)
    requires s.current.Keys !! s.previous.Keys
    ensures var t := DoRotate(s);
      && t == s.(current := t.current, previous := t.previous, highWaterMark := t.highWaterMark)
      && ((t.current == s.current && t.previous == s.previous)
          || (t.current == map[] && t.previous == s.current + s.previous))
  {
    RescuedAll(s.current, s.previous);
  }

  lemma RotateSize(s: Store)
    requires s.current.Keys !! s.previous.Keys
    ensures DoRotate(s).Size() == s.Size()
  {
    RotateEffect(s);
    hide DoRotate;
    var both := s.current + s.previous;
    assert both.Keys == s.current.Keys + s.previous.Keys;
    assert |both| == |both.Keys| && |s.current| == |s.current.Keys| && |s.previous| == |s.previous.Keys|;
  }

  lemma RotateLocates(s: Store, key: Key, x: nat)
    requires s.current.Keys !! s.previous.Keys
    ensures Located(DoRotate(s), key, x) == Located(s, key, x)
  {
    RotateEffect(s);
    hide DoRotate;
  }

  lemma RelocatedKeeps(s: Store, t: Store)
    requires Shape(s) && History(s) && MapsOk(t)
    requires t == s.(current := t.current, previous := t.previous, highWaterMark := t.highWaterMark)
    requires forall x :: 0 <= x < |s.items| ==> Located(t, s.items[x].key, x) == Located(s, s.items[x].key, x)
    ensures Shape(t) && History(t)
  {}

  lemma RotateKeeps(s: Store)
    requires Inv(s)
    ensures Inv(DoRotate(s))
  {
    var t := DoRotate(s);
    RotateEffect(s);
    RotateSize(s);
    forall x | 0 <= x < |s.items| ensures Located(t, s.items[x].key, x) == Located(s, s.items[x].key, x) {
      RotateLocates(s, s.items[x].key, x);
    }
    hide DoRotate;
    hide Located;
    hide ArmsOk, ChainsOk, WaitsOk, ExpiriesOk, History, TTLJoins;
    RelocatedKeeps(s, t);
  }

  // The count gauge and the stop barrier.

  ghost predicate SameMaps(s: Store, t: Store) {
    t.metrics == s.metrics && t.current == s.current && t.previous == s.previous && t.count == s.count
  }

  lemma GaugeRemove(s: Store, key: Key, x: nat, evicting: bool)
    requires GaugeOk(s)
    ensures GaugeOk(RemoveAt(s, key, Locate(s, key, x), evicting))
  {
    assert key in s.current ==> |s.current - {key}| == |s.current| - 1;
    assert key in s.previous ==> |s.previous - {key}| == |s.previous| - 1;
  }

  lemma GaugeNew(s: Store, c: nat)
    requires GaugeOk(s) && s.current.Keys !! s.previous.Keys && c < |s.calls|
    ensures GaugeOk(NewItem(s, c))
  {
    var key := s.calls[c].key;
    assert key !in s.previous ==> s.previous - {key} == s.previous;
    assert key in s.previous ==> |s.previous - {key}| == |s.previous| - 1;
  }

  lemma GaugeRenewed(s: Store, x: nat, ttl: real)
    requires GaugeOk(s) && s.current.Keys !! s.previous.Keys && x < |s.items| && Located(s, s.items[x].key, x)
    ensures GaugeOk(Renewed(s, x, ttl))
  {}

  lemma SeekMaps(s: Store, c: nat, aborted: bool)
    requires c < |s.calls| && MapsOk(s)
    ensures SameMaps(DoSeek(s, c, aborted), if FindLive(s, s.calls[c].key).Some? then s else NewItem(s, c))
  {}

  lemma DoneMaps(s: Store, u: Store, x: nat)
    requires x < |u.items| && CancelOk(u.items[x], x, u.arms) && SameMaps(u, s)
    ensures var key := u.items[x].key; var location := Locate(s, key, x);
      SameMaps(RemoveAt(CancelDeadline(u, x), key, location, false), RemoveAt(s, key, location, false))
  {
    hide CancelDeadline;
  }

  lemma RenewedMaps(s: Store, u: Store, x: nat, ttl: real, byContext: bool, aborted: bool)
    requires x < |s.items| && x < |u.items| && CancelOk(u.items[x], x, u.arms) && SameMaps(u, s)
    requires u.items[x].key == s.items[x].key
    ensures SameMaps(RenewDeadline(u, x, ttl, byContext, aborted), Renewed(s, x, ttl))
  {
    hide CancelDeadline, ArmDeadline;
  }

  /** What finishing a join callback does to the maps and the gauge. */
  lemma FinishJoinMaps(s: Store, x: nat, c: nat, outcome: Outcome, aborted: bool)
    requires x < |s.items| && c < |s.calls| && s.items[x].ops != [] && CancelOk(s.items[x], x, s.arms)
    ensures var t := DoFinishJoin(s, x, c, outcome, aborted); var key := s.items[x].key;
      || SameMaps(t, s)
      || SameMaps(t, RemoveAt(s, key, Locate(s, key, x), false))
      || (Located(s, key, x) && SameMaps(t, Renewed(s, x, s.calls[c].ttl)))
  {
    hide CancelDeadline, RemoveAt, Renewed, RenewDeadline;
    if outcome.Returned? {
      var marked := Mark(WithPhase(PopOp(s, x), c, Leaving), x, outcome.done);
      DoneMaps(s, marked, x);
      RenewedMaps(s, marked, x, s.calls[c].ttl, s.calls[c].byContext, aborted);
    }
  }

  ghost predicate SameBarrier(s: Store, t: Store) {
    && t.activeTTLJoins == s.activeTTLJoins && t.barrier == s.barrier && |t.calls| == |s.calls|
    && (forall c :: 0 <= c < |s.calls| ==> Inside(t.calls[c]) == Inside(s.calls[c]))
  }

  lemma SameBarrierKeeps(s: Store, t: Store)
    requires BarrierOk(s) && SameBarrier(s, t)
    ensures BarrierOk(t)
  {
    assert TTLJoins(t.calls) == TTLJoins(s.calls);
  }

  lemma SeekBarrier(s: Store, c: nat, aborted: bool)
    requires MapsOk(s) && c < |s.calls| && s.calls[c].phase == Seeking
    ensures SameBarrier(s, DoSeek(s, c, aborted))
  {}

  lemma StartJoinBarrier(s: Store, x: nat, c: nat)
    requires x < |s.items| && s.items[x].ops != [] && c < |s.calls| && s.calls[c].phase == Queued(x)
    ensures SameBarrier(s, StartJoin(s, x, c))
  {}

  lemma StartExpireBarrier(s: Store, x: nat, a: nat)
    requires x < |s.items| && s.items[x].ops != [] && a < |s.arms| && CancelOk(s.items[x], x, s.arms)
    ensures SameBarrier(s, StartExpire(s, x, a))
  {}

  lemma FinishJoinBarrier(s: Store, x: nat, c: nat, outcome: Outcome, aborted: bool)
    requires x < |s.items| && s.items[x].ops != [] && CancelOk(s.items[x], x, s.arms)
    requires c < |s.calls| && s.calls[c].phase == InCallback(x)
    ensures SameBarrier(s, DoFinishJoin(s, x, c, outcome, aborted))
  {
    hide CancelDeadline, ArmDeadline;
  }

  lemma CountersIrrelevant(s: Store, t: Store)
    requires Shape(s) && History(s) && GaugeOk(s)
    requires t == s.(activeTTLJoins := t.activeTTLJoins, barrier := t.barrier)
    ensures Shape(t) && History(t) && GaugeOk(t)
  {}

  lemma AppendedJoins(calls: seq<Call>, call: Call)
    ensures |TTLJoins(calls + [call])| == |TTLJoins(calls)| + if Inside(call) then 1 else 0
  {
    if Inside(call) {
      assert TTLJoins(calls + [call]) == TTLJoins(calls) + {|calls|};
    } else {
      assert TTLJoins(calls + [call]) == TTLJoins(calls);
    }
  }

  lemma BeginBarrier(s: Store, key: Key, index: int, value: Value, ttl: real, renew: bool, byContext: bool)
    requires BarrierOk(s)
    ensures BarrierOk(DoBegin(s, key, index, value, ttl, renew, byContext))
  {
    hide TTLJoins;
    AppendedJoins(s.calls, DoBegin(s, key, index, value, ttl, renew, byContext).calls[|s.calls|]);
  }

  lemma BeginKeeps(s: Store, key: Key, index: int, value: Value, ttl: real, renew: bool, byContext: bool)
    requires Inv(s)
    ensures Inv(DoBegin(s, key, index, value, ttl, renew, byContext))
  {
    hide Shape, History, BarrierOk;
    var t := DoBegin(s, key, index, value, ttl, renew, byContext);
    var call := t.calls[|s.calls|];
    BeginShape(s, call);
    BeginHistory(s, call);
    BeginBarrier(s, key, index, value, ttl, renew, byContext);
    CountersIrrelevant(s.(calls := s.calls + [call]), t);
  }

  lemma AdmitKeeps(s: Store, c: nat)
    requires Inv(s) && Enabled(s, Admit(c))
    ensures Inv(WithPhase(s, c, Seeking).(activeTTLJoins := s.activeTTLJoins + 1))
  {
    assert PhaseOk(s.calls[c]);
    PhaseShape(s, c, Seeking);
    PhaseHistory(s, c, Seeking);
    hide Shape, History;
    CountersIrrelevant(WithPhase(s, c, Seeking), WithPhase(s, c, Seeking).(activeTTLJoins := s.activeTTLJoins + 1));
    assert TTLJoins(WithPhase(s, c, Seeking).calls) == TTLJoins(s.calls) + {c};
  }

  lemma LeaveKeeps(s: Store, c: nat)
    requires Inv(s) && Enabled(s, Leave(c))
    ensures Inv(DoLeave(s, c))
  {
    assert PhaseOk(s.calls[c]);
    PhaseShape(s, c, Done);
    PhaseHistory(s, c, Done);
    hide Shape, History;
    CountersIrrelevant(WithPhase(s, c, Done), DoLeave(s, c));
    assert TTLJoins(WithPhase(s, c, Done).calls) == TTLJoins(s.calls) - {c};
  }

  lemma TickKeeps(s: Store, now: real)
    requires Inv(s) && s.now <= now
    ensures Inv(s.(now := now))
  {}

  lemma StopKeeps(s: Store)
    requires Inv(s)
    ensures Inv(DoStop(s))
  {
    hide Shape, History;
    CountersIrrelevant(s, DoStop(s));
  }

  lemma SeekInv(s: Store, c: nat, aborted: bool)
    requires Inv(s) && Enabled(s, Seek(c, aborted))
    ensures Inv(DoSeek(s, c, aborted))
  {
    hide DoSeek, NewItem, ArmsOk, ChainsOk, WaitsOk, ExpiriesOk, History;
    SeekKeeps(s, c, aborted);
    SeekBarrier(s, c, aborted);
    SameBarrierKeeps(s, DoSeek(s, c, aborted));
    SeekMaps(s, c, aborted);
    GaugeNew(s, c);
  }

  lemma StartJoinInv(s: Store, x: nat, c: nat)
    requires Inv(s) && Enabled(s, StartOp(x)) && s.items[x].ops[0] == JoinOp(c)
    requires c < |s.calls| && s.calls[c].phase == Queued(x)
    ensures Inv(StartJoin(s, x, c))
  {
    hide Shape, History, TTLJoins;
    StartJoinKeeps(s, x, c);
    StartJoinBarrier(s, x, c);
    SameBarrierKeeps(s, StartJoin(s, x, c));
  }

  lemma StartExpireInv(s: Store, x: nat, a: nat)
    requires Inv(s) && Enabled(s, StartOp(x)) && s.items[x].ops[0] == ExpireOp(a) && a < |s.arms|
    ensures Inv(StartExpire(s, x, a))
  {
    hide History, ChainsOk, WaitsOk, ExpiriesOk, MapsOk, TTLJoins, CancelDeadline, ArmDeadline;
    StartExpireKeeps(s, x, a);
    StartExpireBarrier(s, x, a);
    SameBarrierKeeps(s, StartExpire(s, x, a));
    assert CancelOk(s.items[x], x, s.arms);
    hide Shape;
  }

  lemma FinishJoinInv(s: Store, x: nat, c: nat, outcome: Outcome, aborted: bool)
    requires Inv(s) && Enabled(s, FinishJoin(x, outcome, aborted)) && s.items[x].ops[0] == JoinOp(c)
    requires c < |s.calls| && s.calls[c].phase == InCallback(x)
    ensures Inv(DoFinishJoin(s, x, c, outcome, aborted))
  {
    hide DoFinishJoin, History, RemoveAt, Renewed, ChainsOk, WaitsOk, ExpiriesOk;
    var key := s.items[x].key;
    assert CancelOk(s.items[x], x, s.arms);
    FinishJoinKeeps(s, x, c, outcome, aborted);
    FinishJoinBarrier(s, x, c, outcome, aborted);
    FinishJoinMaps(s, x, c, outcome, aborted);
    SameBarrierKeeps(s, DoFinishJoin(s, x, c, outcome, aborted));
    GaugeRemove(s, key, x, false);
    if Located(s, key, x) { GaugeRenewed(s, x, s.calls[c].ttl); }
  }

  lemma FinishExpireInv(s: Store, x: nat)
    requires Inv(s) && Enabled(s, FinishExpire(x))
    ensures Inv(DoFinishExpire(s, x))
  {
    hide Shape, History, TTLJoins;
    FinishExpireKeeps(s, x);
    GaugeRemove(s, s.items[x].key, x, true);
    SameBarrierKeeps(s, DoFinishExpire(s, x));
  }

  lemma FireInv(s: Store, a: nat)
    requires Inv(s) && a < |s.arms|
    ensures Inv(Expire(s, a))
  {
    FireKeeps(s, a);
    assert ArmOk(s.arms[a], a, s.items) && CancelOk(s.items[s.arms[a].item], s.arms[a].item, s.arms);
    hide Shape, History, CancelDeadline;
  }

  lemma StepKeeps(s: Store, e: Event)
    requires Inv(s) && Enabled(s, e)
    ensures Inv(Step(s, e))
  {
    match e
    case Tick(t) => TickKeeps(s, t);
    case Begin(key, index, value, ttl, renew, byContext) => BeginKeeps(s, key, index, value, ttl, renew, byContext);
    case Admit(c) => AdmitKeeps(s, c);
    case Seek(c, aborted) => SeekInv(s, c, aborted);
    case StartOp(x) =>
      assert OpOk(s.items[x].ops[0], x, s.items[x].key, false, s.calls, s.arms);
      if s.items[x].ops[0].JoinOp? { StartJoinInv(s, x, s.items[x].ops[0].call); }
      else { StartExpireInv(s, x, s.items[x].ops[0].arm); }
    case FinishJoin(x, outcome, aborted) =>
      assert OpOk(s.items[x].ops[0], x, s.items[x].key, true, s.calls, s.arms);
      FinishJoinInv(s, x, s.items[x].ops[0].call, outcome, aborted);
    case FinishExpire(x) => FinishExpireInv(s, x);
    case Fire(a) => FireInv(s, a);
    case Leave(c) => LeaveKeeps(s, c);
    case Rotate => RotateKeeps(s);
    case Stop => StopKeeps(s);
  }
}
