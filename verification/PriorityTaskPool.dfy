/** The executor pool over the indexed heap, with priorities and promotion of cancelled tasks. */
module PriorityTaskPool {
  import opened Base
  import opened PoolLedger
  import opened TaskOrder
  import opened HeapOrder
  import opened TaskHeaps
  import opened IndexedHeap

  /** A start. `accepted` and `cancelled` are the tasks that had been accepted, and cancelled while queued, by then. */
  datatype Launch = Launch(task: nat, accepted: set<nat>, cancelled: set<nat>)

  ghost function Tasks(starts: seq<Launch>): set<nat> {
    set i | 0 <= i < |starts| :: starts[i].task
  }

  /** What a task is ranked by: the priority it was submitted with, or the least of all once it is cancelled, and
      its number. */
  ghost function RankOf(t: nat, submitted: map<nat, Num>, cancelled: set<nat>): Key
    requires t in submitted
  {
    Key(if t in cancelled then NegInf else submitted[t], t)
  }

  ghost predicate Ranked(keys: map<nat, Key>, submitted: map<nat, Num>, cancelled: set<nat>) {
    forall t <- keys :: t in submitted && keys[t] == RankOf(t, submitted, cancelled)
  }

  /** Every priority of some tasks is a number, or that of the very first task. */
  ghost predicate AllHarmless(tasks: set<nat>, submitted: map<nat, Num>) {
    forall t <- tasks :: t in submitted ==> Harmless(Key(submitted[t], t))
  }

  /** The tasks that waited when the i-th start was made: accepted and not started. */
  ghost function Waiting(starts: seq<Launch>, i: nat): set<nat>
    requires i < |starts|
  {
    starts[i].accepted - Tasks(starts[..i])
  }

  /** The i-th start took a waiting task, a least one if the priorities submitted by then were harmless. */
  ghost predicate TookLeast(starts: seq<Launch>, i: nat, submitted: map<nat, Num>)
    requires i < |starts|
  {
    var s := starts[i];
    && s.accepted <= submitted.Keys && s.task in Waiting(starts, i)
    && (AllHarmless(s.accepted, submitted) ==>
          forall t <- Waiting(starts, i) ::
            AtMost(RankOf(s.task, submitted, s.cancelled), RankOf(t, submitted, s.cancelled)))
  }

  ghost predicate AllTookLeast(starts: seq<Launch>, submitted: map<nat, Num>) {
    forall i :: 0 <= i < |starts| ==> TookLeast(starts, i, submitted)
  }

  /** The starts made since `before` were made with these tasks accepted and cancelled. */
  ghost predicate Since(before: seq<Launch>, after: seq<Launch>, accepted: set<nat>, cancelled: set<nat>) {
    && before <= after
    && (forall i :: |before| <= i < |after| ==> after[i].accepted == accepted && after[i].cancelled == cancelled)
  }

  /** Tasks ranked by harmless priorities are totally ordered. */
  lemma RankedOrderly(keys: map<nat, Key>, submitted: map<nat, Num>, cancelled: set<nat>)
    requires Ranked(keys, submitted, cancelled) && AllHarmless(submitted.Keys, submitted)
    ensures Orderly(Compare, keys.Values)
  {
    HarmlessOrderly(keys.Values);
    hide Orderly;
  }

  lemma CancelledRanked(keys: map<nat, Key>, submitted: map<nat, Num>, cancelled: set<nat>, t: nat)
    requires Ranked(keys, submitted, cancelled) && t in keys
    ensures Ranked(keys[t := Key(NegInf, t)], submitted, cancelled + {t})
  {}

  lemma HarmlessSince(submitted: map<nat, Num>, t: nat, priority: Num)
    requires t !in submitted
    ensures AllHarmless(submitted.Keys + {t}, submitted[t := priority])
      <==> AllHarmless(submitted.Keys, submitted) && Harmless(Key(priority, t))
  {
    var more := submitted[t := priority];
    if AllHarmless(submitted.Keys + {t}, more) {
      assert Harmless(Key(more[t], t));
      forall u | u in submitted ensures Harmless(Key(submitted[u], u)) { assert Harmless(Key(more[u], u)); }
    }
    hide Harmless;
  }

  lemma TasksMore(starts: seq<Launch>, s: Launch)
    ensures Tasks(starts + [s]) == Tasks(starts) + {s.task}
  {
    var more := starts + [s];
    assert more[|starts|] == s;
    forall t <- Tasks(starts) ensures t in Tasks(more) {
      var i :| 0 <= i < |starts| && starts[i].task == t;
      assert more[i].task == t;
    }
  }

  /** A new priority leaves the earlier starts as they were. */
  lemma StartsStay(starts: seq<Launch>, submitted: map<nat, Num>, t: nat, priority: Num)
    requires AllTookLeast(starts, submitted) && t !in submitted
    ensures AllTookLeast(starts, submitted[t := priority])
  {
    hide Waiting, Tasks, AtMost, Harmless;
    var more := submitted[t := priority];
    forall i | 0 <= i < |starts| ensures TookLeast(starts, i, more) {
      assert TookLeast(starts, i, submitted);
      StartStays(starts, i, submitted, t, priority);
    }
  }

  lemma StartStays(starts: seq<Launch>, i: nat, submitted: map<nat, Num>, t: nat, priority: Num)
    requires i < |starts| && TookLeast(starts, i, submitted) && t !in submitted
    ensures TookLeast(starts, i, submitted[t := priority])
  {
    hide AtMost, Harmless;
    var s, more := starts[i], submitted[t := priority];
    assert forall u <- s.accepted :: u in submitted && more[u] == submitted[u];
    assert Waiting(starts, i) <= s.accepted;
    hide Waiting;
  }

  /** A least of the queued tasks starts. */
  lemma StartedOk(starts: seq<Launch>, s: Launch, keys: map<nat, Key>, submitted: map<nat, Num>)
    requires AllTookLeast(starts, submitted) && Ranked(keys, submitted, s.cancelled)
    requires s.accepted == submitted.Keys && keys.Keys == s.accepted - Tasks(starts) && s.task in keys
    requires AllHarmless(s.accepted, submitted) ==> forall t <- keys :: AtMost(keys[s.task], keys[t])
    ensures AllTookLeast(starts + [s], submitted)
  {
    hide Tasks, AtMost, AllHarmless;
    var more := starts + [s];
    forall i | 0 <= i < |more| ensures TookLeast(more, i, submitted) {
      if i < |starts| {
        assert more[..i] == starts[..i] && TookLeast(starts, i, submitted);
      } else {
        assert more[..i] == starts;
        assert Waiting(more, i) == keys.Keys;
      }
    }
  }

  class PriorityTaskPool {
    const queue: IndexedHeap<nat, Key>
    var executorsCount: nat
    var active: nat
    var state: State
    var sequence: nat
    ghost var accepted: set<nat>
    /** The priorities the accepted tasks were submitted with. */
    ghost var submitted: map<nat, Num>
    /** Tasks cancelled while they were queued. */
    ghost var cancelled: set<nat>
    ghost var starts: seq<Launch>
    ghost var running: set<nat>
    ghost var finished: set<nat>
    ghost var drains: nat

    ghost function Books(): (l: Ledger)
      reads this, queue
    {
      Ledger(state, executorsCount, active, accepted, queue.keys.Keys, running, finished, drains)
    }

    /** The queue is ranked by the priorities submitted, and every start took a least of the tasks waiting. */
    ghost predicate InOrder()
      reads this, queue
    {
      && (forall t <- accepted :: t < sequence) && submitted.Keys == accepted && cancelled <= accepted
      && queue.compare == Compare && Ranked(queue.keys, submitted, cancelled)
      && (AllHarmless(accepted, submitted) ==> queue.clean)
      && Tasks(starts) == running + finished && AllTookLeast(starts, submitted)
    }

    ghost predicate Valid()
      reads this, queue
    {
      queue.Valid() && Sound(Books()) && InOrder()
    }

    ghost predicate Quiescent()
      reads this, queue
    {
      Valid() && Settled(Books())
    }

    constructor (executors: nat)
      requires executors >= 1
      ensures Quiescent() && fresh(queue) && executorsCount == executors && state == Created
      ensures submitted == map[] && starts == []
    {
      queue := new IndexedHeap(Compare);
      executorsCount, active, state, sequence := executors, 0, Created, 0;
      accepted, submitted, cancelled, starts, running, finished, drains := {}, map[], {}, [], {}, {}, 0;
    }

    method FinishDrainIfIdle()
      requires Valid()
      modifies this`state, this`drains
      ensures Valid() && Books() == Drained(old(Books()))
    {
      hide IndexedHeap.Valid, Sound;
      DrainSound(Books());
      var length := queue.Length();
      if state != Stopping || active != 0 || length != 0 { return; }
      state := Stopped;
      drains := drains + 1;
    }

    method StartNext()
      requires Valid() && queue.keys.Keys != {} && (state == Running || state == Stopping)
      modifies this`active, this`starts, this`running, queue`items, queue`positions, queue`keys
      ensures Valid() && |queue.items| == |old(queue.items)| - 1
      ensures Since(old(starts), starts, accepted, cancelled) && |starts| == |old(starts)| + 1
      ensures starts[|old(starts)|].task in old(queue.keys)
      ensures Books() == Begun(old(Books()), starts[|old(starts)|].task)
    {
      hide IndexedHeap.Valid, Sound, Compare, Tasks, AllTookLeast, AllHarmless, RankOf;
      ghost var waiting, books := queue.keys, Books();
      BooksBalance(books);
      var task := queue.Pop();
      ghost var s := Launch(task.value, accepted, cancelled);
      StartedOk(starts, s, waiting, submitted);
      TasksMore(starts, s);
      StartSound(books, task.value);
      active := active + 1;
      starts := starts + [s];
      running := running + {task.value};
    }

    method Pump()
      requires Valid()
      modifies this`active, this`starts, this`running, this`state, this`drains
      modifies queue`items, queue`positions, queue`keys
      ensures Valid() && Settled(Books()) && Pumped(old(Books()), Books())
      ensures Since(old(starts), starts, accepted, cancelled) && |starts| - active == |old(starts)| - old(active)
    {
      hide IndexedHeap.Valid, Sound, InOrder, Pumped;
      NothingPumped(Books());
      if state != Running && state != Stopping { return; }
      var length := queue.Length();
      while active < executorsCount && length > 0
        invariant Valid() && state == old(state) && length == |queue.items| && (length == 0 <==> queue.keys.Keys == {})
        invariant Pumped(old(Books()), Books()) && Since(old(starts), starts, accepted, cancelled)
        invariant |starts| - active == |old(starts)| - old(active)
        decreases length
      {
        ghost var books := Books();
        StartNext();
        PumpedMore(old(Books()), books, starts[|starts| - 1].task);
        length := queue.Length();
      }
      PumpedToEnd(old(Books()), Books());
      FinishDrainIfIdle();
    }

    /** Every start took a task that had been accepted and not started, and one that is least of all those, by the
        priorities they were submitted with, or the least priority if cancelled by then, and by submission; as long
        as every priority submitted by then was a number or that of the very first task. */
    lemma StartedLeast(i: nat, t: nat)
      requires Valid() && i < |starts| && t in Waiting(starts, i)
      ensures starts[i].task in Waiting(starts, i) && t in submitted && starts[i].task in submitted
      ensures AllHarmless(starts[i].accepted, submitted) ==>
        AtMost(RankOf(starts[i].task, submitted, starts[i].cancelled), RankOf(t, submitted, starts[i].cancelled))
    {
      assert TookLeast(starts, i, submitted);
    }

    // ---- The public methods ----

    method Start() returns (ok: bool)
      requires Quiescent()
      modifies this, queue
      ensures Quiescent() && ok == (old(state) == Created)
      ensures if ok then Pumped(old(Books()).(state := Running), Books()) else Books() == old(Books())
      ensures submitted == old(submitted) && cancelled == old(cancelled)
      ensures Since(old(starts), starts, accepted, cancelled)
    {
      hide IndexedHeap.Valid, AllTookLeast, Pumped, Ranked, Sound, Tasks;
      if state != Created { return false; }
      OpenSound(Books());
      state := Running;
      Pump();
      return true;
    }

    method Resize(count: int, parallelism: nat) returns (ok: bool)
      requires Quiescent() && parallelism >= 1
      modifies this, queue
      ensures Quiescent()
      ensures if old(state) == Stopping || old(state) == Stopped then ok else ok == (0 <= count <= MAX_SAFE_INTEGER)
      ensures var n := Normalize(count, parallelism);
        if old(state) == Stopping || old(state) == Stopped || n.None? then Books() == old(Books())
        else Pumped(old(Books()).(executors := n.value), Books())
      ensures submitted == old(submitted) && cancelled == old(cancelled)
      ensures Since(old(starts), starts, accepted, cancelled)
    {
      hide IndexedHeap.Valid, AllTookLeast, Sound, Pumped, Ranked;
      if state == Stopping || state == Stopped { return true; }
      var normalized := Normalize(count, parallelism);
      if normalized.None? { return false; }
      ResizeSound(Books(), normalized.value);
      executorsCount := normalized.value;
      Pump();
      return true;
    }

    /** An accepted task gets its number and its place in the queue. */
    method Enroll(priority: Num) returns (t: nat)
      requires Valid() && (state == Created || state == Running)
      modifies this`sequence, this`accepted, this`submitted, queue
      ensures Valid() && t == old(sequence) && t !in old(accepted) && Books() == Enrolled(old(Books()), t)
      ensures submitted == old(submitted)[t := priority]
    {
      hide IndexedHeap.Valid, Sound, AllTookLeast, AllHarmless, Orderly, Compare, Pushed, Ranks, Keyed, Tasks;
      t := sequence;
      BooksBalance(Books());
      AcceptSound(Books(), t);
      StartsStay(starts, submitted, t, priority);
      HarmlessSince(submitted, t, priority);
      ghost var keys := queue.keys[t := Key(priority, t)];
      submitted := submitted[t := priority];
      assert submitted.Keys == accepted + {t};
      assert Ranked(keys, submitted, cancelled);
      if AllHarmless(submitted.Keys, submitted) { RankedOrderly(keys, submitted, cancelled); }
      sequence := sequence + 1;
      accepted := accepted + {t};
      queue.Push(t, Key(priority, t));
      assert queue.keys.Keys == old(queue.keys.Keys) + {t};
    }

    /** `over` says whether the caller's context is cancelled. */
    method AddTask(over: bool, priority: Num) returns (task: Option<nat>)
      requires Quiescent()
      modifies this, queue
      ensures Quiescent() && cancelled == old(cancelled)
      ensures task.Some? <==> !over && (old(state) == Created || old(state) == Running)
      ensures task.None? ==> Books() == old(Books()) && submitted == old(submitted)
      ensures task.Some? ==> task.value !in old(accepted) && Pumped(Enrolled(old(Books()), task.value), Books())
      ensures task.Some? ==> submitted == old(submitted)[task.value := priority]
      ensures Since(old(starts), starts, accepted, cancelled)
    {
      hide IndexedHeap.Valid, Sound, Settled, InOrder, Pumped;
      if over || state == Stopping || state == Stopped { return None; }
      var t := Enroll(priority);
      Pump();
      return Some(t);
    }

    /** The abort listener of a task: a queued task goes to the head of the queue. */
    method Cancel(t: nat)
      requires Quiescent()
      modifies this, queue
      ensures Quiescent() && Books() == old(Books()) && starts == old(starts) && submitted == old(submitted)
      ensures cancelled == old(cancelled) + if t in old(queue.keys) then {t} else {}
    {
      hide Sound, AllTookLeast, AllHarmless, Ranked, Orderly, Compare, Fixed, Ranks, Keyed, Pumped, Tasks;
      hide IndexedHeap.Valid, IndexedHeap.ValidBut;
      var queued := queue.Has(t);
      if queued {
        BooksBalance(Books());
        assert t in accepted;
        ghost var keys := queue.keys[t := Key(NegInf, t)];
        cancelled := cancelled + {t};
        CancelledRanked(queue.keys, submitted, old(cancelled), t);
        if AllHarmless(submitted.Keys, submitted) { RankedOrderly(keys, submitted, cancelled); }
        queue.Rekey(t, Key(NegInf, t));
        queue.Fix(t);
        assert queue.keys.Keys == old(queue.keys.Keys);
      }
      ghost var books := Books();
      Pump();
      SettledPump(books, Books());
    }

    method Stop() returns (waits: bool)
      requires Quiescent()
      modifies this, queue
      ensures Quiescent() && (state == Stopping || state == Stopped) && waits == (state == Stopping)
      ensures if old(state) == Stopping || old(state) == Stopped then Books() == old(Books())
              else Pumped(old(Books()).(state := Stopping), Books())
      ensures submitted == old(submitted) && cancelled == old(cancelled)
      ensures Since(old(starts), starts, accepted, cancelled)
    {
      hide IndexedHeap.Valid, AllTookLeast, Sound, Ranked;
      if state == Stopped { return false; }
      if state != Stopping {
        StopSound(Books());
        state := Stopping;
        Pump();
      }
      return state == Stopping;
    }

    method TaskFinished(ghost t: nat)
      requires Quiescent() && t in running
      modifies this, queue
      ensures Quiescent() && old(active) > 0 && Pumped(Ended(old(Books()), t), Books())
      ensures submitted == old(submitted) && cancelled == old(cancelled)
      ensures Since(old(starts), starts, accepted, cancelled)
    {
      hide IndexedHeap.Valid, AllTookLeast, Settled, Sound, Pumped, Ranked, Tasks;
      FinishSound(Books(), t);
      active := active - 1;
      running := running - {t};
      finished := finished + {t};
      assert running + finished == old(running) + old(finished);
      Pump();
    }
  }
}
