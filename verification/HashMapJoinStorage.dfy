/** The join store as the object it is in the runtime: fields updated in place, one method per stretch of
    code between two awaits. Every method is proved to make the step of the state machine in `JoinStorage`. */
module HashMapJoinStorageClass {
  import opened Base
  import opened JoinStorage
  import opened JoinRuns

  /** The groups already rescued when the keys in `left` are still to be visited. */
  ghost function RescuedBut(from: map<Key, nat>, into: map<Key, nat>, left: set<Key>): (m: map<Key, nat>) {
    map k | k in from && k !in into && k !in left :: from[k]
  }

  lemma RescueOne(from: map<Key, nat>, into: map<Key, nat>, left: set<Key>, k: Key)
    requires k in left && k in from
    ensures var before, after := RescuedBut(from, into, left), RescuedBut(from, into, left - {k});
      k !in before && after == if k in into then before else before[k := from[k]]
  {}

  lemma AddOne(into: map<Key, nat>, m: map<Key, nat>, k: Key, x: nat)
    ensures into + m[k := x] == (into + m)[k := x]
  {}

  ghost function AllGroups(current: map<Key, nat>, previous: map<Key, nat>): map<Key, nat> {
    current + Rescued(current, previous)
  }

  ghost function RescueCount(current: map<Key, nat>, previous: map<Key, nat>): nat {
    |Rescued(current, previous)|
  }

  lemma MergeBy(s: Store, all: map<Key, nat>, evicted: int)
    requires all == AllGroups(s.current, s.previous) && evicted == |s.previous| - RescueCount(s.current, s.previous)
    ensures Merged(s) == if s.metrics && evicted > 0
      then s.(previous := all, current := map[], count := s.count - evicted, evictions := s.evictions + evicted)
      else s.(previous := all, current := map[])
  {
    hide Rescued;
  }

  lemma Known(s: Store)
    requires Inv(s)
    ensures MapsOk(s) && CancelsOk(s)
  {}

  lemma FirstKnown(s: Store, x: nat)
    requires Inv(s) && x < |s.items| && s.items[x].ops != []
    ensures OpOk(s.items[x].ops[0], x, s.items[x].key, s.items[x].busy, s.calls, s.arms)
      && CancelOk(s.items[x], x, s.arms)
  {
    assert ChainOk(s.items[x], x, s.calls, s.arms);
  }

  lemma ArmKnown(s: Store, a: nat)
    requires Inv(s) && a < |s.arms|
    ensures s.arms[a].item < |s.items| && CancelOk(s.items[s.arms[a].item], s.arms[a].item, s.arms)
  {
    assert ArmOk(s.arms[a], a, s.items);
  }

  class HashMapJoinStorage {
    const metricsEnabled: bool
    var current: map<Key, nat>
    var previous: map<Key, nat>
    var items: seq<Item>
    var arms: seq<Arm>
    var calls: seq<Call>
    var count: int
    var evictions: nat
    var highWaterMark: nat
    var activeTTLJoins: int
    var barrier: Barrier
    var now: real

    function View(): (s: Store)
      reads this
    {
      Store(now, metricsEnabled, current, previous, items, arms, calls, count, evictions, highWaterMark,
            activeTTLJoins, barrier)
    }

    constructor (now: real, metrics: bool)
      ensures View() == Initial(now, metrics) && Inv(View())
    {
      metricsEnabled, this.now := metrics, now;
      current, previous, items, arms, calls := map[], map[], [], [], [];
      count, evictions, highWaterMark, activeTTLJoins, barrier := 0, 0, 0, 0, Open;
      new;
      assert TTLJoins(calls) == {};
    }

    method Locate(key: Key, x: nat) returns (location: Location)
      ensures location == JoinStorage.Locate(View(), key, x)
    {
      location := Nowhere;
      if key in current && current[key] == x {
        location := Current;
      } else if key in previous && previous[key] == x {
        location := Previous;
      }
    }

    method FindLive(key: Key) returns (found: Option<nat>)
      requires MapsOk(View())
      ensures found == JoinStorage.FindLive(View(), key)
      ensures found.Some? ==> found.value < |items|
    {
      found := None;
      if key in current {
        if !Expired(items[current[key]], now) { found := Some(current[key]); }
      } else if key in previous && !Expired(items[previous[key]], now) {
        found := Some(previous[key]);
      }
    }

    method CancelDeadline(x: nat)
      requires x < |items| && CancelOk(items[x], x, arms)
      modifies this`arms
      ensures View() == JoinStorage.CancelDeadline(old(View()), x)
    {
      if items[x].cancel.Some? {
        var a := items[x].cancel.value;
        if !arms[a].retired { arms := arms[a := arms[a].(retired := true)]; }
      }
      assert arms == JoinStorage.CancelDeadline(old(View()), x).arms;
    }

    /** The closure a timer or an abort listener calls. */
    method Expire(a: nat)
      requires a < |arms| && arms[a].item < |items| && CancelOk(items[arms[a].item], arms[a].item, arms)
      modifies this`arms, this`items
      ensures View() == JoinStorage.Expire(old(View()), a)
    {
      if arms[a].retired { return; }
      var x := arms[a].item;
      CancelDeadline(x);
      items := items[x := items[x].(ops := items[x].ops + [ExpireOp(a)])];
    }

    method ArmDeadline(x: nat, byContext: bool, aborted: bool)
      requires x < |items|
      modifies this`arms, this`items
      ensures View() == JoinStorage.ArmDeadline(old(View()), x, byContext, aborted) && |items| == old(|items|)
    {
      var a := |arms|;
      arms := arms + [Arm(x, byContext, false)];
      items := items[x := items[x].(cancel := Some(a))];
      if byContext && aborted { Expire(a); }
    }

    method RemoveAt(key: Key, x: nat, location: Location, evicting: bool)
      requires location == JoinStorage.Locate(View(), key, x)
      modifies this`current, this`previous, this`count, this`evictions
      ensures View() == JoinStorage.RemoveAt(old(View()), key, location, evicting)
    {
      if location == Nowhere { return; }
      if location == Current { current := current - {key}; } else { previous := previous - {key}; }
      if metricsEnabled {
        count := count - 1;
        if evicting { evictions := evictions + 1; }
      }
    }

    method CreateItem(c: nat, aborted: bool) returns (x: nat)
      requires c < |calls|
      modifies this`current, this`previous, this`items, this`arms, this`count
      ensures View() == JoinStorage.CreateItem(old(View()), c, aborted) && x == old(|items|) < |items|
    {
      hide JoinStorage.ArmDeadline;
      var call := calls[c];
      x := |items|;
      var replaced := call.key in current;
      if call.key in previous && metricsEnabled { count := count - 1; }
      previous := previous - {call.key};
      current := current[call.key := x];
      items := items + [Item(call.key, EmptyColumns(call.index + 1),
                             if call.ttl > 0.0 then Some(now + call.ttl) else None,
                             false, None, [], false, [], 0, false)];
      if metricsEnabled && !replaced { count := count + 1; }
      assert View() == NewItem(old(View()), c);
      if call.ttl > 0.0 { ArmDeadline(x, call.byContext, aborted); }
    }

    /** `joinValue` up to its first await. */
    method JoinValue(key: Key, index: int, value: Value, ttl: real, renew: bool, byContext: bool)
      requires Inv(View()) && Enabled(View(), Begin(key, index, value, ttl, renew, byContext))
      modifies this`calls, this`activeTTLJoins
      ensures View() == Step(old(View()), Begin(key, index, value, ttl, renew, byContext)) && Inv(View())
    {
      hide Inv;
      StepKeeps(View(), Begin(key, index, value, ttl, renew, byContext));
      Known(View());
      if index < 0 || index > MAX_SAFE_INTEGER {
        calls := calls + [Call(key, 0, value, ttl, renew, byContext, Refused, None, {})];
      } else if ttl > 0.0 && barrier != Open {
        calls := calls + [Call(key, index, value, ttl, renew, byContext, Admitting, None, {})];
      } else {
        calls := calls + [Call(key, index, value, ttl, renew, byContext, Seeking, None, {})];
        if ttl > 0.0 { activeTTLJoins := activeTTLJoins + 1; }
      }
    }

    /** `joinValue` behind its wait for a stop under way. */
    method Admitted(c: nat)
      requires Inv(View()) && Enabled(View(), Admit(c))
      modifies this`calls, this`activeTTLJoins
      ensures View() == Step(old(View()), Admit(c)) && Inv(View())
    {
      hide Inv;
      StepKeeps(View(), Admit(c));
      activeTTLJoins := activeTTLJoins + 1;
      calls := calls[c := calls[c].(phase := Seeking)];
    }

    /** One turn of the retry loop: find or create a group and queue on it. */
    method Iterate(c: nat, aborted: bool)
      requires Inv(View()) && Enabled(View(), Seek(c, aborted))
      modifies this
      ensures View() == Step(old(View()), Seek(c, aborted)) && Inv(View())
    {
      hide Inv, JoinStorage.CreateItem;
      StepKeeps(View(), Seek(c, aborted));
      Known(View());
      var located := FindLive(calls[c].key);
      var x: nat;
      if located.Some? { x := located.value; } else { x := CreateItem(c, aborted); }
      items := items[x := items[x].(ops := items[x].ops + [JoinOp(c)])];
      calls := calls[c := calls[c].(phase := Queued(x))];
    }

    method PopOperation(x: nat)
      requires x < |items| && items[x].ops != []
      modifies this`items
      ensures View() == PopOp(old(View()), x)
    {
      items := items[x := items[x].(ops := items[x].ops[1..], busy := false)];
    }

    /** A queued join operation runs up to the user callback. */
    method RunJoin(x: nat, c: nat)
      requires x < |items| && items[x].ops != [] && c < |calls|
      modifies this`items, this`calls
      ensures View() == StartJoin(old(View()), x, c)
    {
      var location := Locate(items[x].key, x);
      var call, item := calls[c], items[x];
      if item.processed || Expired(item, now) || location == Nowhere {
        PopOperation(x);
        calls := calls[c := call.(phase := Seeking, turnedAway := call.turnedAway + {x})];
        return;
      }
      var values := item.values;
      while |values| <= call.index
        invariant |item.values| <= |values| && values[..|item.values|] == item.values
        invariant forall i :: |item.values| <= i < |values| ==> values[i] == []
        invariant |values| <= |item.values| || |values| <= call.index + 1
      {
        values := values + [[]];
      }
      values := values[call.index := values[call.index] + [call.value]];
      assert values == AppendAt(item.values, call.index, call.value);
      items := items[x := item.(values := values, busy := true, log := item.log + [Entry(c, call.index, call.value)])];
      calls := calls[c := call.(phase := InCallback(x), group := Some(x))];
    }

    method RenewDeadline(x: nat, location: Location, ttl: real, byContext: bool, aborted: bool)
      requires x < |items| && CancelOk(items[x], x, arms)
      requires location == JoinStorage.Locate(View(), items[x].key, x)
      modifies this`current, this`previous, this`items, this`arms
      ensures View() == JoinStorage.RenewDeadline(old(View()), x, ttl, byContext, aborted)
    {
      hide JoinStorage.ArmDeadline, JoinStorage.CancelDeadline;
      var key := items[x].key;
      if location == Previous { previous := previous - {key}; }
      items := items[x := items[x].(deadline := Some(now + ttl))];
      current := current[key := x];
      CancelDeadline(x);
      ArmDeadline(x, byContext, aborted);
    }

    /** The rest of a join operation, after its callback returned or threw. */
    method AfterCallback(x: nat, c: nat, outcome: Outcome, aborted: bool)
      requires x < |items| && items[x].ops != [] && c < |calls| && CancelOk(items[x], x, arms)
      modifies this
      ensures View() == DoFinishJoin(old(View()), x, c, outcome, aborted)
    {
      var call, key := calls[c], items[x].key;
      PopOperation(x);
      calls := calls[c := call.(phase := Leaving)];
      if outcome.Threw? { return; }
      items := items[x := items[x].(processed := outcome.done, joined := items[x].joined || outcome.done)];
      var location := Locate(key, x);
      if location == Nowhere { return; }
      if outcome.done {
        CancelDeadline(x);
        RemoveAt(key, x, location, false);
      } else if call.renew && call.ttl > 0.0 {
        RenewDeadline(x, location, call.ttl, call.byContext, aborted);
      }
    }

    method FinishJoin(x: nat, outcome: Outcome, aborted: bool)
      requires Inv(View()) && Enabled(View(), JoinStorage.FinishJoin(x, outcome, aborted))
      modifies this
      ensures View() == Step(old(View()), JoinStorage.FinishJoin(x, outcome, aborted)) && Inv(View())
    {
      hide Inv, DoFinishJoin;
      StepKeeps(View(), JoinStorage.FinishJoin(x, outcome, aborted));
      FirstKnown(View(), x);
      AfterCallback(x, items[x].ops[0].call, outcome, aborted);
    }

    /** A queued expiry runs up to the deadline callback, or rearms. */
    method RunExpire(x: nat, a: nat)
      requires x < |items| && items[x].ops != [] && a < |arms| && CancelOk(items[x], x, arms)
      modifies this`items, this`arms
      ensures View() == StartExpire(old(View()), x, a)
    {
      if items[x].processed {
        PopOperation(x);
      } else if !arms[a].byContext && items[x].deadline.Some? && items[x].deadline.value - now > 0.0 {
        PopOperation(x);
        CancelDeadline(x);
        ArmDeadline(x, false, false);
      } else {
        items := items[x := items[x].(processed := true, busy := true, deadlineRuns := items[x].deadlineRuns + 1)];
      }
    }

    method FinishExpire(x: nat)
      requires Inv(View()) && Enabled(View(), JoinStorage.FinishExpire(x))
      modifies this
      ensures View() == Step(old(View()), JoinStorage.FinishExpire(x)) && Inv(View())
    {
      hide Inv, JoinStorage.RemoveAt;
      StepKeeps(View(), JoinStorage.FinishExpire(x));
      Known(View());
      var location := Locate(items[x].key, x);
      RemoveAt(items[x].key, x, location, true);
      PopOperation(x);
    }

    /** The next operation of a group's promise chain runs up to its callback, or through. */
    method StartOperation(x: nat)
      requires Inv(View()) && Enabled(View(), StartOp(x))
      modifies this`items, this`calls, this`arms
      ensures View() == Step(old(View()), StartOp(x)) && Inv(View())
    {
      hide Inv, StartJoin, StartExpire;
      StepKeeps(View(), StartOp(x));
      Known(View());
      FirstKnown(View(), x);
      match items[x].ops[0]
      case JoinOp(c) => RunJoin(x, c);
      case ExpireOp(a) => RunExpire(x, a);
    }

    /** A timer fires, or an abort listener is called. */
    method FireArm(a: nat)
      requires Inv(View()) && Enabled(View(), Fire(a))
      modifies this`items, this`arms
      ensures View() == Step(old(View()), Fire(a)) && Inv(View())
    {
      hide Inv, JoinStorage.Expire;
      StepKeeps(View(), Fire(a));
      ArmKnown(View(), a);
      Expire(a);
    }

    /** The clock moves on. */
    method Tick(t: real)
      requires Inv(View()) && now <= t
      modifies this`now
      ensures View() == Step(old(View()), JoinStorage.Tick(t)) && Inv(View())
    {
      hide Inv;
      StepKeeps(View(), JoinStorage.Tick(t));
      now := t;
    }

    /** The `finally` block of `joinValue`. */
    method Leave(c: nat)
      requires Inv(View()) && Enabled(View(), JoinStorage.Leave(c))
      modifies this`calls, this`activeTTLJoins, this`barrier
      ensures View() == Step(old(View()), JoinStorage.Leave(c)) && Inv(View())
    {
      hide Inv;
      StepKeeps(View(), JoinStorage.Leave(c));
      Known(View());
      if calls[c].ttl > 0.0 {
        activeTTLJoins := activeTTLJoins - 1;
        if activeTTLJoins == 0 && barrier == Pending { barrier := Released; }
      }
      calls := calls[c := calls[c].(phase := Done)];
    }

    method Stop()
      requires Inv(View()) && Enabled(View(), JoinStorage.Stop)
      modifies this`barrier
      ensures View() == Step(old(View()), JoinStorage.Stop) && Inv(View())
    {
      hide Inv;
      StepKeeps(View(), JoinStorage.Stop);
      Known(View());
      if barrier != Open { return; }
      barrier := if activeTTLJoins == 0 then Released else Pending;
    }

    /** Moves the groups of the old generation whose key the young one lacks, and counts them. */
    method Rescue() returns (rescued: nat)
      modifies this`current
      ensures current == AllGroups(old(current), previous) && rescued == RescueCount(old(current), previous)
    {
      ghost var before := current;
      var keys := previous.Keys;
      rescued := 0;
      while keys != {}
        invariant keys <= previous.Keys
        invariant current == before + RescuedBut(previous, before, keys)
        invariant rescued == |RescuedBut(previous, before, keys)|
      {
        var k :| k in keys;
        RescueOne(previous, before, keys, k);
        AddOne(before, RescuedBut(previous, before, keys), k, previous[k]);
        hide RescuedBut;
        keys := keys - {k};
        if k !in current {
          current := current[k := previous[k]];
          rescued := rescued + 1;
        }
      }
      assert RescuedBut(previous, before, {}) == Rescued(before, previous);
    }

    method Merge()
      modifies this`current, this`previous, this`count, this`evictions
      ensures View() == Merged(old(View()))
    {
      hide Merged, AllGroups, RescueCount;
      ghost var s := View();
      var rescued := Rescue();
      var evicted := |previous| - rescued;
      MergeBy(s, current, evicted);
      ghost var all := current;
      previous := current;
      current := map[];
      if metricsEnabled && evicted > 0 {
        count := count - evicted;
        evictions := evictions + evicted;
        assert View() == s.(previous := all, current := map[], count := s.count - evicted,
          evictions := s.evictions + evicted);
      } else {
        assert View() == s.(previous := all, current := map[]);
      }
    }

    method Rotate()
      requires Inv(View()) && Enabled(View(), JoinStorage.Rotate)
      modifies this
      ensures View() == Step(old(View()), JoinStorage.Rotate) && Inv(View())
    {
      hide Inv, Merged;
      StepKeeps(View(), JoinStorage.Rotate);
      var total := |current| + |previous|;
      var shouldRotate := Shrunk(total, highWaterMark);
      if total > highWaterMark { highWaterMark := total; }
      if !shouldRotate { return; }
      highWaterMark := total;
      Merge();
    }
  }
}
