/** The timer pool: one armed timer for the earliest of the delayed tasks. Tasks are numbered as submitted. */
module DelayPool {
  import opened Base
  import opened TaskOrder
  import opened HeapOrder
  import opened IndexedHeap
  import opened PoolLedger

  // ---- The arithmetic on doubles the pool uses ----

  function Subtract(a: Num, b: Num): Num {
    match (a, b)
    case (NaN, _) => NaN
    case (_, NaN) => NaN
    case (Fin(x), Fin(y)) => Fin(x - y)
    case (PosInf, PosInf) => NaN
    case (NegInf, NegInf) => NaN
    case (PosInf, _) => PosInf
    case (NegInf, _) => NegInf
    case (_, PosInf) => NegInf
    case (_, NegInf) => PosInf
  }

  /** The pool's own comparator: the difference of the times or, where that is falsy, of the numbers. */
  function CompareDelays(a: Key, b: Key): Num {
    var difference := Subtract(a.rank, b.rank);
    if difference == NaN || difference == Fin(0.0) then Fin((a.sequence - b.sequence) as real) else difference
  }

  /** The sign of that difference, which is all the heap looks at. */
  function DelayOrder(a: Key, b: Key): int {
    var difference := CompareDelays(a, b);
    if Less(difference, Fin(0.0)) then -1 else if difference == Fin(0.0) then 0 else 1
  }

  /** It orders times that are numbers as the priority pool's comparator does, infinite ones included. */
  lemma SameOrder(a: Key, b: Key)
    requires Numeric(a) && Numeric(b)
    ensures DelayOrder(a, b) < 0 <==> Compare(a, b) < 0
    ensures DelayOrder(a, b) == 0 <==> Compare(a, b) == 0
    ensures Le(DelayOrder, a, b) <==> AtMost(a, b)
  {}

  function Min(a: Num, b: Num): Num
    requires a != NaN && b != NaN
  {
    if Less(a, b) then a else b
  }

  /** The delay asked for, cut to the time left to the context's deadline, and not below zero. */
  function EffectiveDelay(delayMs: Num, remaining: Option<real>): (d: Num)
    requires delayMs != NaN
    ensures d == PosInf || (d.Fin? && d.value >= 0.0)
    ensures remaining.Some? ==> !Less(Fin(if remaining.value > 0.0 then remaining.value else 0.0), d)
    ensures Less(d, delayMs) ==>
      remaining.Some? && d == Fin(if remaining.value > 0.0 then remaining.value else 0.0)
    ensures Less(delayMs, d) ==> d == Fin(0.0)
    ensures !Less(d, delayMs) && !Less(delayMs, d) ==> d == delayMs
  {
    var shortest := Min(delayMs, if remaining.None? then PosInf else Fin(remaining.value));
    if Less(shortest, Fin(0.0)) then Fin(0.0) else shortest
  }

  /** One dispatch of a task. */
  datatype Dispatch = Dispatch(task: nat, key: Key, at: real, aborted: bool)

  ghost predicate OnTime(d: Dispatch) {
    d.key.sequence == d.task && (d.aborted || !Less(Fin(d.at), d.key.rank))
  }

  predicate Due(key: Key, now: real) {
    !Less(Fin(now), key.rank)
  }

  /** A task is due from its time on, the moment itself included; one that waits forever never is. */
  lemma DueFrom(key: Key, now: real)
    ensures key.rank.Fin? ==> (Due(key, now) <==> key.rank.value <= now)
    ensures key.rank == PosInf ==> !Due(key, now)
  {}

  ghost function Tasks(log: seq<Dispatch>): set<nat> {
    set i | 0 <= i < |log| :: log[i].task
  }

  /** Dispatches in the order of their keys. */
  ghost predicate Ascending(log: seq<Dispatch>) {
    forall i, j :: 0 <= i < j < |log| ==> Compare(log[i].key, log[j].key) < 0
  }

  /** Every task's key carries its number and the time it is due, which may never come. */
  ghost predicate Timed(keys: map<nat, Key>) {
    forall t <- keys :: keys[t].sequence == t && Numeric(keys[t]) && keys[t].rank != NegInf
  }

  lemma TimedOrderly(keys: map<nat, Key>)
    requires Timed(keys)
    ensures Orderly(DelayOrder, keys.Values)
  {
    hide DelayOrder, Compare;
    forall a, b | a in keys.Values && b in keys.Values && DelayOrder(a, b) >= 0 ensures Le(DelayOrder, b, a) {
      SameOrder(a, b);
      SameOrder(b, a);
      Total(a, b, a);
    }
    forall a, b, c | a in keys.Values && b in keys.Values && c in keys.Values
      && Le(DelayOrder, a, b) && Le(DelayOrder, b, c)
      ensures Le(DelayOrder, a, c)
    {
      SameOrder(a, b);
      SameOrder(b, c);
      SameOrder(a, c);
      Total(a, b, c);
    }
  }

  /** The least key by the pool's comparator is the earliest. */
  lemma LeastIsEarliest(keys: map<nat, Key>, t: nat)
    requires Timed(keys) && t in keys && forall u <- keys :: Le(DelayOrder, keys[t], keys[u])
    ensures forall u <- keys :: AtMost(keys[t], keys[u])
  {
    forall u <- keys ensures AtMost(keys[t], keys[u]) { SameOrder(keys[t], keys[u]); }
    hide DelayOrder;
  }

  function After(now: real, delay: Num): Num
    requires delay != NaN
  {
    if delay.Fin? then Fin(now + delay.value) else delay
  }

  lemma TasksLast(log: seq<Dispatch>, d: Dispatch)
    ensures Tasks(log + [d]) == Tasks(log) + {d.task}
  {
    var after := log + [d];
    assert after[|log|] == d;
    forall t <- Tasks(log) ensures t in Tasks(after) {
      var i :| 0 <= i < |log| && log[i].task == t;
      assert after[i].task == t;
    }
  }

  /** The log tells of every dispatched task, once, and not before its time. */
  ghost predicate Logged(log: seq<Dispatch>, completed: set<nat>) {
    && completed == Tasks(log)
    && (forall i :: 0 <= i < |log| ==> OnTime(log[i]))
    && (forall i, j :: 0 <= i < j < |log| ==> log[i].task != log[j].task)
  }

  lemma LogGrows(log: seq<Dispatch>, completed: set<nat>, d: Dispatch)
    requires Logged(log, completed) && OnTime(d) && d.task !in completed
    ensures Logged(log + [d], completed + {d.task})
  {
    hide OnTime;
    TasksLast(log, d);
    forall i | 0 <= i < |log| ensures log[i].task != d.task { assert log[i].task in Tasks(log); }
    hide Tasks;
  }

  lemma EarliestNotDue(first: Key, other: Key, now: real)
    requires Numeric(first) && Numeric(other) && AtMost(first, other) && !Due(first, now)
    ensures !Due(other, now)
  {}

  /** What a wake-up has dispatched so far, out of the tasks that were queued before it. */
  ghost predicate Batch(batch: seq<Dispatch>, before: map<nat, Key>, queued: map<nat, Key>, now: real) {
    && Ascending(batch) && Timed(before)
    && (forall t <- before :: (t in queued && queued[t] == before[t]) || (Due(before[t], now) && t in Tasks(batch)))
    && (forall t <- queued :: t in before) && Tasks(batch) !! queued.Keys
    && (forall i :: 0 <= i < |batch| ==> batch[i].task in before && batch[i].key == before[batch[i].task])
    && (forall i, t :: 0 <= i < |batch| && t in queued ==> Compare(batch[i].key, queued[t]) < 0)
  }

  lemma BatchStarts(before: map<nat, Key>, now: real)
    requires Timed(before)
    ensures Batch([], before, before, now)
  {}

  lemma BatchGrows(batch: seq<Dispatch>, before: map<nat, Key>, queued: map<nat, Key>, now: real, t: nat)
    requires Batch(batch, before, queued, now) && t in queued && Due(queued[t], now)
    requires forall u <- queued :: AtMost(queued[t], queued[u])
    ensures Batch(batch + [Dispatch(t, queued[t], now, false)], before, queued - {t}, now)
  {
    TasksLast(batch, Dispatch(t, queued[t], now, false));
    hide Tasks;
    forall u | u in queued && u != t ensures Compare(queued[t], queued[u]) < 0 {
      Total(queued[t], queued[u], queued[t]);
    }
  }

  lemma BatchDone(batch: seq<Dispatch>, before: map<nat, Key>, queued: map<nat, Key>, now: real)
    requires Batch(batch, before, queued, now) && forall t <- queued :: !Due(queued[t], now)
    ensures Ascending(batch)
    ensures queued == map t | t in before && !Due(before[t], now) :: before[t]
    ensures Tasks(batch) == set t | t in before && Due(before[t], now)
  {}

  /** An armed timer: the clock when it was armed, and its delay in milliseconds. */
  datatype Timer = Timer(armed: real, delay: nat)

  function Ceil(x: real): (n: int)
    ensures x <= n as real < x + 1.0
  {
    -(-x).Floor
  }

  /** The timer goes off at a given time or less than a millisecond after it; at once if the time was over when it
      was armed; and before the time only if that is further ahead than a timer can be. */
  ghost predicate Meets(timer: Timer, time: real) {
    var wake := timer.armed + timer.delay as real;
    && timer.delay <= MAX_TIMEOUT && (wake < time ==> timer.delay == MAX_TIMEOUT)
    && (wake < time + 1.0 || (timer.delay == 0 && time <= timer.armed))
  }

  /** A timer runs if and only if the time to be woken at is finite, and meets it. */
  ghost predicate Ticking(timer: Option<Timer>, at: Option<Num>) {
    match at
    case Some(Fin(time)) => timer.Some? && Meets(timer.value, time)
    case _ => timer.None?
  }

  class DelayPool {
    const queue: IndexedHeap<nat, Key>
    /** Accepted tasks that have not completed. */
    var tasks: set<nat>
    var completed: set<nat>
    var timer: Option<Timer>
    var armedAt: Option<Num>
    var sequence: nat
    var state: State
    var draining: bool
    ghost var log: seq<Dispatch>
    ghost var finished: set<nat>
    ghost var drains: nat

    ghost predicate Valid()
      reads this, queue
    {
      Holding({})
    }

    /** Valid, with the tasks of `hand` accepted but neither queued nor dispatched yet. */
    ghost predicate Holding(hand: set<nat>)
      reads this, queue
    {
      && queue.Valid() && queue.clean && queue.compare == DelayOrder
      && Timed(queue.keys)
      && Accounted(hand) && Drained()
    }

    /** Every accepted task is queued or was dispatched, once, and not before its time. */
    ghost predicate Accounted(hand: set<nat>)
      reads this, queue
    {
      && tasks !! finished && (forall t <- tasks + finished :: t < sequence)
      && tasks + finished == queue.keys.Keys + completed + hand && queue.keys.Keys !! completed !! hand
      && finished <= completed && Logged(log, completed)
    }

    ghost predicate Drained()
      reads this
    {
      && (state == Stopped ==> tasks == {})
      && drains == (if state == Stopped && draining then 1 else 0)
      && (draining ==> state == Stopping || state == Stopped)
      && (state == Stopping ==> draining && tasks != {})
    }

    /** The time the armed timer should wake the pool. */
    ghost predicate Earliest(at: Option<Num>)
      reads this, queue
    {
      match at
      case None => queue.keys.Keys == {}
      case Some(time) => exists t <- queue.keys ::
        queue.keys[t].rank == time && forall u <- queue.keys :: AtMost(queue.keys[t], queue.keys[u])
    }

    /** `armedAt` is the time of the earliest queued task, and a timer runs to it if and only if that is finite. */
    ghost predicate Armed()
      reads this, queue
    {
      Earliest(armedAt) && Ticking(timer, armedAt)
    }

    /** No queued task is left without a wake-up, unless it waits forever. */
    lemma NoTimerNoTask()
      requires Valid() && Armed() && timer.None?
      ensures forall t <- queue.keys :: queue.keys[t].rank == PosInf
    {
      hide IndexedHeap.Valid, Accounted, Drained;
      if armedAt.Some? {
        var t :| t in queue.keys && queue.keys[t].rank == PosInf
          && forall u <- queue.keys :: AtMost(queue.keys[t], queue.keys[u]);
        forall u <- queue.keys ensures queue.keys[u].rank == PosInf {
          assert AtMost(queue.keys[t], queue.keys[u]) && Numeric(queue.keys[u]);
        }
      }
    }

    constructor ()
      ensures Valid() && Armed() && fresh(queue) && state == Created && tasks == {} && log == [] && sequence == 0
    {
      queue := new IndexedHeap(DelayOrder);
      tasks, completed, timer, armedAt, sequence, state, draining := {}, {}, None, None, 0, Created, false;
      log, finished, drains := [], {}, 0;
    }

    method Start() returns (ok: bool)
      requires Valid() && Armed()
      modifies this`state
      ensures Valid() && Armed() && ok == (old(state) == Created) && state == if ok then Running else old(state)
    {
      if state != Created { return false; }
      state := Running;
      return true;
    }

    /** Every task that does not wait forever is woken: by a timer that goes off less than a millisecond after its
        time, or at once if its time was over, or that is as far ahead as a timer can be. */
    lemma WokenInTime(t: nat)
      requires Valid() && Armed() && t in queue.keys && queue.keys[t].rank != PosInf
      ensures queue.keys[t].rank.Fin? && timer.Some?
      ensures var time, wake := queue.keys[t].rank.value, timer.value.armed + timer.value.delay as real;
        wake < time + 1.0 || (timer.value.delay == 0 && time <= wake)
    {
      hide IndexedHeap.Valid, Accounted, Drained;
      var e :| e in queue.keys && queue.keys[e].rank == armedAt.value
        && forall u <- queue.keys :: AtMost(queue.keys[e], queue.keys[u]);
      assert AtMost(queue.keys[e], queue.keys[t]) && Numeric(queue.keys[e]);
    }

    /** `now` is the clock when the timer is armed. */
    method Arm(now: real)
      requires Valid() && Ticking(timer, armedAt)
      modifies this`timer, this`armedAt
      ensures Valid() && Armed()
    {
      hide IndexedHeap.Valid, AtMost, Le, Logged;
      var head := queue.Peek();
      if head.Some? { LeastIsEarliest(queue.keys, head.value); }
      var next := if head.Some? then Some(queue.keys[head.value].rank) else None;
      assert Earliest(next);
      if next == armedAt { return; }
      timer := None;
      armedAt := next;
      if next.None? || next.value == PosInf { return; }
      var left := Ceil(next.value.value - now);
      timer := Some(Timer(now, if left < 0 then 0 else if left > MAX_TIMEOUT then MAX_TIMEOUT else left));
    }

    /** A task leaves the queue, if it is in it, and runs. */
    method Run(t: nat, ghost key: Key, ghost at: real, ghost aborted: bool)
      requires Holding(if t in queue.keys || t in completed then {} else {t})
      requires t in tasks && OnTime(Dispatch(t, key, at, aborted))
      requires t in queue.keys ==> key == queue.keys[t]
      modifies this`completed, this`log, queue`items, queue`positions, queue`keys
      ensures Valid() && queue.keys == old(queue.keys) - {t}
      ensures completed == old(completed) + {t}
      ensures log == if t in old(completed) then old(log) else old(log) + [Dispatch(t, key, at, aborted)]
    {
      hide IndexedHeap.Valid, Logged, OnTime;
      if t in completed { return; }
      ghost var d := Dispatch(t, key, at, aborted);
      LogGrows(log, completed, d);
      completed := completed + {t};
      var _ := queue.Remove(t);
      log := log + [d];
    }

    method Accept() returns (t: nat)
      requires Valid() && state != Stopped
      modifies this`sequence, this`tasks
      ensures Holding({t}) && t !in old(tasks) + old(finished) + queue.keys.Keys && tasks == old(tasks) + {t}
    {
      hide IndexedHeap.Valid, Logged;
      t := sequence;
      sequence := sequence + 1;
      tasks := tasks + {t};
    }

    method Wait(t: nat, key: Key, now: real)
      requires Holding({t}) && Timed(map[t := key]) && Ticking(timer, armedAt)
      modifies this`timer, this`armedAt, queue
      ensures Valid() && Armed() && queue.keys == old(queue.keys)[t := key]
    {
      hide IndexedHeap.Valid, Logged, AtMost, Orderly, Pushed, Ranks, Keyed;
      assert key == map[t := key][t];
      TimedOrderly(queue.keys[t := key]);
      queue.Push(t, key);
      assert queue.keys.Keys == old(queue.keys.Keys) + {t};
      Arm(now);
    }

    /** `remaining` is the time left to the context's deadline, if it has one. */
    method Delay(cancelled: bool, delayMs: Num, remaining: Option<real>, now: real, later: real)
      returns (task: Option<nat>)
      requires Valid() && Armed()
      modifies this, queue
      ensures Valid() && Armed() && state == old(state)
      ensures task.Some? <==> !cancelled && (old(state) == Created || old(state) == Running) && delayMs != NaN
      ensures task.None? ==> tasks == old(tasks) && log == old(log) && queue.keys == old(queue.keys)
      ensures task.Some? ==> task.value !in old(tasks) + old(finished) && tasks == old(tasks) + {task.value}
      ensures task.Some? ==> var d := EffectiveDelay(delayMs, remaining); var key := Key(After(now, d), task.value);
        (d == Fin(0.0) ==> queue.keys == old(queue.keys) && log == old(log) + [Dispatch(task.value, key, now, false)])
        && (d != Fin(0.0) ==> queue.keys == old(queue.keys)[task.value := key] && log == old(log))
    {
      hide IndexedHeap.Valid, Logged, AtMost, EffectiveDelay;
      if cancelled || state == Stopping || state == Stopped || delayMs == NaN { return None; }
      var effectiveDelay := EffectiveDelay(delayMs, remaining);
      var t := Accept();
      var key := Key(After(now, effectiveDelay), t);
      if effectiveDelay == Fin(0.0) {
        Run(t, key, now, false);
      } else {
        Wait(t, key, later);
      }
      return Some(t);
    }

    /** The abort listener of a task. */
    method Abort(t: nat, now: real)
      requires Valid() && Armed() && t in tasks && (t in queue.keys || t in completed)
      modifies this, queue
      ensures Valid() && Armed() && state == old(state) && tasks == old(tasks) && queue.keys == old(queue.keys) - {t}
      ensures t in old(queue.keys) ==> log == old(log) + [Dispatch(t, old(queue.keys)[t], now, true)]
      ensures t !in old(queue.keys) ==> log == old(log)
    {
      hide IndexedHeap.Valid;
      Run(t, if t in queue.keys then queue.keys[t] else Key(NaN, t), now, true);
      Arm(now);
    }

    /** The timer callback: exactly the tasks that are due run, in the order of their times. `later` is the clock
        when the timer is armed again. */
    method Wake(now: real, later: real)
      requires Valid() && Armed() && timer.Some?
      modifies this, queue
      ensures Valid() && Armed() && state == old(state) && tasks == old(tasks)
      ensures queue.keys == map t | t in old(queue.keys) && !Due(old(queue.keys)[t], now) :: old(queue.keys)[t]
      ensures forall t <- queue.keys :: queue.keys[t].rank.Fin? ==> now < queue.keys[t].rank.value
      ensures old(log) <= log && Ascending(log[|old(log)|..])
      ensures Tasks(log[|old(log)|..]) == set t | t in old(queue.keys) && Due(old(queue.keys)[t], now)
    {
      hide IndexedHeap.Valid, Batch, Tasks, OnTime, AtMost, Due, Ascending;
      timer := None;
      armedAt := None;
      BatchStarts(queue.keys, now);
      assert log[|log|..] == [];
      var more := true;
      while more
        invariant Valid() && state == old(state) && tasks == old(tasks) && timer.None? && armedAt.None?
        invariant old(log) <= log && Batch(log[|old(log)|..], old(queue.keys), queue.keys, now)
        invariant !more ==> forall t <- queue.keys :: !Due(queue.keys[t], now)
        decreases queue.keys.Keys, more
      {
        more := DispatchFirst(now, old(queue.keys), |old(log)|);
      }
      BatchDone(log[|old(log)|..], old(queue.keys), queue.keys, now);
      forall t <- queue.keys ensures queue.keys[t].rank.Fin? ==> now < queue.keys[t].rank.value {
        DueFrom(queue.keys[t], now);
      }
      Arm(later);
    }

    method DispatchFirst(now: real, ghost before: map<nat, Key>, ghost n: nat) returns (more: bool)
      requires Valid() && n <= |log| && Batch(log[n..], before, queue.keys, now)
      modifies this`completed, this`log, queue`items, queue`positions, queue`keys
      ensures Valid() && old(log) <= log && Batch(log[n..], before, queue.keys, now)
      ensures more ==> queue.keys.Keys < old(queue.keys.Keys)
      ensures !more ==> queue.keys == old(queue.keys) && forall t <- queue.keys :: !Due(queue.keys[t], now)
    {
      hide IndexedHeap.Valid, Batch;
      var head := queue.Peek();
      if head.None? { return false; }
      var t := head.value;
      LeastIsEarliest(queue.keys, t);
      var key := queue.keys[t];
      if !Due(key, now) {
        forall u <- queue.keys ensures !Due(queue.keys[u], now) { EarliestNotDue(key, queue.keys[u], now); }
        return false;
      }
      BatchGrows(log[n..], before, queue.keys, now, t);
      Run(t, key, now, false);
      assert log[n..] == old(log)[n..] + [Dispatch(t, key, now, false)];
      return true;
    }

    /** A dispatched task's completion settled. */
    method CompleteTask(t: nat)
      requires Valid() && Armed() && t in tasks && t in completed
      modifies this`tasks, this`finished, this`state, this`drains
      ensures Valid() && Armed() && tasks == old(tasks) - {t} && finished == old(finished) + {t}
      ensures state == if old(state) == Stopping && tasks == {} then Stopped else old(state)
    {
      hide IndexedHeap.Valid, AtMost, Logged;
      tasks := tasks - {t};
      finished := finished + {t};
      if state != Stopping || tasks != {} { return; }
      state := Stopped;
      drains := drains + 1;
    }

    /** `waits` says whether the caller is left waiting for the drain. */
    method Stop() returns (waits: bool)
      requires Valid() && Armed()
      modifies this`state, this`draining
      ensures Valid() && Armed() && waits == (state == Stopping) && (state == Stopping || state == Stopped)
      ensures state == Stopped <==> tasks == {}
    {
      hide IndexedHeap.Valid, AtMost;
      if state == Stopped { return false; }
      if !draining {
        state := Stopping;
        if tasks == {} {
          state := Stopped;
          return false;
        }
        draining := true;
      }
      return true;
    }
  }
}
