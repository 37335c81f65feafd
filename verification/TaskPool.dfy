/** The books of a task pool. */
module PoolLedger {
  import opened Base

  datatype State = Created | Running | Stopping | Stopped

  /** Where the accepted tasks are, and how often the drain promise was resolved. */
  datatype Ledger = Ledger(state: State, executors: nat, active: nat, accepted: set<nat>,
                           queued: set<nat>, running: set<nat>, finished: set<nat>, drains: nat)

  /** Every accepted task is queued, running or finished, and in one of the three only. */
  ghost predicate Balanced(l: Ledger) {
    && l.queued + l.running + l.finished == l.accepted
    && l.queued !! l.running && l.queued !! l.finished && l.running !! l.finished
    && l.active == |l.running| && l.executors >= 1
  }

  /** The drain is resolved once, by the step that stops the pool, when nothing is left to do. */
  ghost predicate DrainedInTime(l: Ledger) {
    match l.state
    case Created => l.running == {} && l.finished == {} && l.drains == 0
    case Stopped => l.running == {} && l.queued == {} && l.drains == 1
    case _ => l.drains == 0
  }

  ghost predicate Sound(l: Ledger) {
    Balanced(l) && DrainedInTime(l)
  }

  /** `normalizeExecutorsCount`: zero asks for the machine's parallelism; a count that is negative or not a safe
      integer is refused. */
  function Normalize(count: int, parallelism: nat): (r: Option<nat>)
    requires parallelism >= 1
    ensures r.Some? <==> 0 <= count <= MAX_SAFE_INTEGER
    ensures r.Some? ==> r.value >= 1 && (count > 0 ==> r.value == count) && (count == 0 ==> r.value == parallelism)
  {
    if count < 0 || count > MAX_SAFE_INTEGER then None else Some(if count == 0 then parallelism else count)
  }

  /** No executor idles while a task waits, and a stopping pool with nothing to do has stopped. */
  ghost predicate Settled(l: Ledger) {
    && (l.state == Running || l.state == Stopping ==> l.queued == {} || l.active >= l.executors)
    && (l.state == Stopping ==> l.queued != {} || l.active > 0)
  }

  function Enrolled(l: Ledger, t: nat): Ledger {
    l.(accepted := l.accepted + {t}, queued := l.queued + {t})
  }

  function Begun(l: Ledger, t: nat): Ledger {
    l.(queued := l.queued - {t}, running := l.running + {t}, active := l.active + 1)
  }

  function Ended(l: Ledger, t: nat): Ledger
    requires l.active > 0
  {
    l.(running := l.running - {t}, finished := l.finished + {t}, active := l.active - 1)
  }

  function Drained(l: Ledger): Ledger {
    if l.state == Stopping && l.active == 0 && l.queued == {} then l.(state := Stopped, drains := l.drains + 1) else l
  }

  /** What a pump may have done: queued tasks were started, as many as executors were free for, and a stopping pool
      that came to its end has stopped. Nothing else changed. */
  ghost predicate Pumped(l: Ledger, m: Ledger) {
    && m == l.(state := m.state, active := m.active, queued := m.queued, running := m.running, drains := m.drains)
    && m.queued <= l.queued && m.running == l.running + (l.queued - m.queued)
    && (m.queued != l.queued ==> m.active <= m.executors && (l.state == Running || l.state == Stopping))
    && if m.state == l.state then m.drains == l.drains
       else l.state == Stopping && m.state == Stopped && m.drains == l.drains + 1
  }

  lemma NothingPumped(l: Ledger)
    ensures Pumped(l, l)
  {
    assert l.running + {} == l.running;
  }

  lemma PumpedMore(l: Ledger, m: Ledger, t: nat)
    requires Pumped(l, m) && m.state == l.state && t in m.queued && m.active < m.executors
    requires m.state == Running || m.state == Stopping
    ensures Pumped(l, Begun(m, t))
  {
    assert l.queued - (m.queued - {t}) == l.queued - m.queued + {t};
  }

  lemma PumpedToEnd(l: Ledger, m: Ledger)
    requires Pumped(l, m) && m.state == l.state
    ensures Pumped(l, Drained(m))
  {}

  /** A settled pool has nothing to start. */
  lemma SettledPump(l: Ledger, m: Ledger)
    requires Sound(l) && Settled(l) && Sound(m) && Pumped(l, m)
    ensures m == l
  {
    assert l.running + {} == l.running;
    assert m.queued == l.queued by {
      if t :| t in l.queued - m.queued {
        assert |m.running| == |l.running| + |l.queued - m.queued|;
      }
    }
  }

  lemma AcceptSound(l: Ledger, t: nat)
    requires Sound(l) && t !in l.accepted && (l.state == Created || l.state == Running)
    ensures Sound(Enrolled(l, t))
  {}

  lemma StartSound(l: Ledger, t: nat)
    requires Sound(l) && t in l.queued && (l.state == Running || l.state == Stopping)
    ensures Sound(Begun(l, t))
  {}

  lemma FinishSound(l: Ledger, t: nat)
    requires Sound(l) && t in l.running
    ensures l.active > 0 && Sound(Ended(l, t))
  {
    assert |l.running - {t}| == |l.running| - 1;
  }

  lemma ResizeSound(l: Ledger, executors: nat)
    requires Sound(l) && executors >= 1
    ensures Sound(l.(executors := executors))
  {}

  lemma OpenSound(l: Ledger)
    requires Sound(l) && l.state == Created
    ensures Sound(l.(state := Running))
  {}

  lemma StopSound(l: Ledger)
    requires Sound(l) && l.state != Stopped
    ensures Sound(l.(state := Stopping))
  {}

  lemma DrainSound(l: Ledger)
    requires Sound(l)
    ensures Sound(Drained(l))
  {}

  lemma BooksBalance(l: Ledger)
    requires Sound(l)
    ensures l.queued + l.running + l.finished == l.accepted && l.queued == l.accepted - (l.running + l.finished)
  {}

  lemma Conserved(l: Ledger)
    requires Balanced(l)
    ensures |l.queued| + |l.running| + |l.finished| == |l.accepted|
  {
    assert |l.queued + l.running| == |l.queued| + |l.running|;
    assert |l.queued + l.running + l.finished| == |l.queued + l.running| + |l.finished|;
  }

  /** Once the drain is resolved, which happens once, every accepted task has finished. */
  lemma DrainedMeansFinished(l: Ledger)
    requires Sound(l) && l.drains > 0
    ensures l.finished == l.accepted && l.drains == 1
  {}

  /** A stopping pool that has settled still has a task running, so its drain is never forgotten. */
  lemma StoppingMakesProgress(l: Ledger)
    requires Sound(l) && Settled(l) && l.state == Stopping
    ensures l.running != {} && l.active > 0
  {}
}

/** The executor pool over the FIFO. */
module TaskPool {
  import opened Base
  import opened PoolLedger
  import opened FifoQueue

  lemma ToSetFirst(s: seq<nat>)
    requires s != [] && Distinct(s)
    ensures ToSet(s[1..]) == ToSet(s) - {s[0]} && s[0] in ToSet(s)
  {}

  lemma ToSetEmpty(s: seq<nat>)
    ensures ToSet(s) == {} <==> s == []
  {
    if s != [] { assert s[0] in ToSet(s); }
  }

  lemma ToSetLast(s: seq<nat>, t: nat)
    ensures ToSet(s + [t]) == ToSet(s) + {t}
  {}

  lemma ToSetFront(s: seq<nat>, i: nat)
    requires i < |s|
    ensures ToSet(ToFront(s, i)) == ToSet(s) && (Distinct(s) ==> Distinct(ToFront(s, i)))
  {
    ToFrontAt(s, i);
    forall t | t in s ensures t in ToFront(s, i) {
      var j :| 0 <= j < |s| && s[j] == t;
      var k := if j == i then 0 else if j < i then j + 1 else j;
      assert Source(i, k) == j && ToFront(s, i)[k] == t;
    }
    hide ToFront;
  }

  /** Task `t`, if it was waiting, is the next to start, and the others keep their order. */
  ghost predicate ComesNext(t: nat, started: seq<nat>, waiting: seq<nat>, schedule: seq<nat>) {
    && (t !in waiting ==> schedule == started + waiting)
    && (forall i :: 0 <= i < |waiting| && waiting[i] == t ==> schedule == started + ToFront(waiting, i))
  }

  lemma AlreadyNext(t: nat, started: seq<nat>, waiting: seq<nat>)
    requires Distinct(waiting) && (t !in waiting || t == waiting[0])
    ensures ComesNext(t, started, waiting, started + waiting)
  {
    assert waiting != [] ==> ToFront(waiting, 0) == waiting;
  }

  lemma MovedNext(t: nat, started: seq<nat>, waiting: seq<nat>, i: nat)
    requires Distinct(waiting) && i < |waiting| && waiting[i] == t
    ensures ComesNext(t, started, waiting, started + ToFront(waiting, i))
  {
    hide ToFront;
  }

  /** Tasks outside `promoted` appear in the order they were accepted. */
  ghost predicate InSubmissionOrder(order: seq<nat>, promoted: set<nat>) {
    forall i, j :: 0 <= i < j < |order| && order[i] !in promoted && order[j] !in promoted ==> order[i] < order[j]
  }

  lemma EnrollingKeepsOrder(order: seq<nat>, t: nat, promoted: set<nat>)
    requires InSubmissionOrder(order, promoted) && forall i :: 0 <= i < |order| ==> order[i] < t
    ensures InSubmissionOrder(order + [t], promoted)
  {}

  lemma ToSetHas(s: seq<nat>, t: nat)
    requires t in s
    ensures t in ToSet(s)
  {}

  lemma ToSetSum(a: seq<nat>, b: seq<nat>)
    ensures ToSet(a + b) == ToSet(a) + ToSet(b)
  {}

  lemma EnrollingKeepsDistinct(s: seq<nat>, t: nat)
    requires Distinct(s) && t !in ToSet(s)
    ensures Distinct(s + [t]) && t !in s
  {}

  /** Moving one task ahead leaves the others in their order. */
  lemma PromotionKeepsOrder(started: seq<nat>, waiting: seq<nat>, i: nat, promoted: set<nat>)
    requires i < |waiting| && InSubmissionOrder(started + waiting, promoted)
    ensures InSubmissionOrder(started + ToFront(waiting, i), promoted + {waiting[i]})
  {
    var before, after := started + waiting, started + ToFront(waiting, i);
    ToFrontAt(waiting, i);
    hide ToFront;
    forall j, k | 0 <= j < k < |after| && after[j] !in promoted + {waiting[i]} && after[k] !in promoted + {waiting[i]}
      ensures after[j] < after[k]
    {
      var n := |started|;
      var j', k' := if j < n then j else n + Source(i, j - n), if k < n then k else n + Source(i, k - n);
      assert before[j'] == after[j] && before[k'] == after[k];
    }
  }

  class TaskPool {
    const queue: FifoQueue<nat>
    var executorsCount: nat
    var active: nat
    var state: State
    /** The number the next accepted task gets. */
    var sequence: nat
    ghost var accepted: set<nat>
    ghost var started: seq<nat>
    ghost var running: set<nat>
    ghost var finished: set<nat>
    /** Tasks cancelled while they waited behind others. */
    ghost var promoted: set<nat>
    ghost var drains: nat

    ghost function Books(): (l: Ledger)
      reads this, queue
    {
      Ledger(state, executorsCount, active, accepted, ToSet(queue.Contents()), running, finished, drains)
    }

    /** The order in which tasks have started or will start, as things stand. */
    ghost function Schedule(): (s: seq<nat>)
      reads this, queue
    {
      started + queue.Contents()
    }

    ghost predicate InOrder()
      reads this, queue
    {
      && ToSet(started) == running + finished && Distinct(queue.Contents())
      && (forall t <- accepted :: t < sequence)
      && InSubmissionOrder(Schedule(), promoted)
    }

    ghost predicate Valid()
      reads this, queue, queue.repr
    {
      queue.Valid() && Sound(Books()) && InOrder()
    }

    constructor (executors: nat)
      requires executors >= 1
      ensures Valid() && Settled(Books()) && fresh(queue) && fresh(queue.repr)
      ensures state == Created && accepted == {}
    {
      queue := new FifoQueue();
      executorsCount, active, state, sequence := executors, 0, Created, 0;
      accepted, started, running, finished, promoted, drains := {}, [], {}, {}, {}, 0;
    }

    method FinishDrainIfIdle()
      requires Valid()
      modifies this`state, this`drains
      ensures Valid() && Books() == Drained(old(Books()))
    {
      hide Sound, FifoQueue.Valid, FifoQueue.Contents, InSubmissionOrder, ToSet, Distinct;
      DrainSound(Books());
      ToSetEmpty(queue.Contents());
      var length := queue.Length();
      if state != Stopping || active != 0 || length != 0 { return; }
      state := Stopped;
      drains := drains + 1;
    }

    method StartNext()
      requires Valid() && queue.Contents() != [] && (state == Running || state == Stopping)
      modifies this`active, this`started, this`running, queue, queue.repr
      ensures Valid() && queue.repr == old(queue.repr)
      ensures Schedule() == old(Schedule()) && |queue.Contents()| == |old(queue.Contents())| - 1
      ensures Books() == Begun(old(Books()), old(queue.Contents())[0]) && |started| == |old(started)| + 1
      ensures old(queue.Contents())[0] in ToSet(old(queue.Contents()))
    {
      hide Sound, FifoQueue.Valid, FifoQueue.Contents, InSubmissionOrder, ToSet;
      ghost var contents := queue.Contents();
      ToSetFirst(contents);
      ToSetLast(started, contents[0]);
      StartSound(Books(), contents[0]);
      var task := queue.Shift();
      active := active + 1;
      started := started + [task.value];
      running := running + {task.value};
      assert contents == [task.value] + queue.Contents();
      assert Schedule() == old(started) + contents;
    }

    method Pump()
      requires Valid()
      modifies this`active, this`started, this`running, this`state, this`drains, queue, queue.repr
      ensures Valid() && Settled(Books()) && Pumped(old(Books()), Books()) && queue.repr == old(queue.repr)
      ensures Schedule() == old(Schedule()) && |started| - active == |old(started)| - old(active)
    {
      hide Sound, FifoQueue.Valid, FifoQueue.Contents, InOrder, ToSet, Pumped;
      NothingPumped(Books());
      if state != Running && state != Stopping { return; }
      var length := queue.Length();
      while active < executorsCount && length > 0
        invariant Valid() && queue.repr == old(queue.repr) && state == old(state) && length == |queue.Contents()|
        invariant Schedule() == old(Schedule()) && |started| - active == |old(started)| - old(active)
        invariant Pumped(old(Books()), Books())
        decreases length
      {
        ghost var books, next := Books(), queue.Contents()[0];
        StartNext();
        PumpedMore(old(Books()), books, next);
        length := queue.Length();
      }
      ToSetEmpty(queue.Contents());
      PumpedToEnd(old(Books()), Books());
      FinishDrainIfIdle();
    }

    /** Tasks that were never cancelled while they waited have started in the order they were submitted. */
    lemma StartedInOrder(i: nat, j: nat)
      requires Valid() && i < j < |started| && started[i] !in promoted && started[j] !in promoted
      ensures started[i] < started[j]
    {
      assert Schedule()[i] == started[i] && Schedule()[j] == started[j];
    }

    // ---- The public methods. Between two of them the pool is quiescent. ----

    ghost predicate Quiescent()
      reads this, queue, queue.repr
    {
      Valid() && Settled(Books())
    }

    method Start() returns (ok: bool)
      requires Quiescent()
      modifies this, queue, queue.repr
      ensures Quiescent() && ok == (old(state) == Created) && queue.repr == old(queue.repr)
      ensures if ok then Pumped(old(Books()).(state := Running), Books()) else Books() == old(Books())
      ensures Schedule() == old(Schedule()) && promoted == old(promoted)
    {
      hide FifoQueue.Valid, FifoQueue.Contents, InSubmissionOrder, ToSet, Pumped, Sound;
      if state != Created { return false; }
      OpenSound(Books());
      state := Running;
      Pump();
      return true;
    }

    method Resize(count: int, parallelism: nat) returns (ok: bool)
      requires Quiescent() && parallelism >= 1
      modifies this, queue, queue.repr
      ensures Quiescent() && queue.repr == old(queue.repr)
      ensures if old(state) == Stopping || old(state) == Stopped then ok else ok == (0 <= count <= MAX_SAFE_INTEGER)
      ensures var n := Normalize(count, parallelism);
        if old(state) == Stopping || old(state) == Stopped || n.None? then Books() == old(Books())
        else Pumped(old(Books()).(executors := n.value), Books())
      ensures Schedule() == old(Schedule()) && promoted == old(promoted)
    {
      hide FifoQueue.Valid, FifoQueue.Contents, InSubmissionOrder, ToSet, Distinct, Sound, Pumped;
      if state == Stopping || state == Stopped { return true; }
      var normalized := Normalize(count, parallelism);
      if normalized.None? { return false; }
      ResizeSound(Books(), normalized.value);
      executorsCount := normalized.value;
      Pump();
      return true;
    }

    /** `cancelled` says whether the caller's context is. */
    method AddTask(cancelled: bool) returns (task: Option<nat>)
      requires Quiescent()
      modifies this, queue, queue.repr
      ensures Quiescent() && fresh(queue.repr - old(queue.repr)) && promoted == old(promoted)
      ensures task.Some? <==> !cancelled && (old(state) == Created || old(state) == Running)
      ensures task.None? ==> Books() == old(Books()) && Schedule() == old(Schedule())
      ensures task.Some? ==> task.value !in old(accepted) && Pumped(Enrolled(old(Books()), task.value), Books())
      ensures task.Some? ==> Schedule() == old(Schedule()) + [task.value]
    {
      hide FifoQueue.Valid, FifoQueue.Contents, Settled, Sound, InSubmissionOrder, ToSet, Distinct, Pumped;
      if cancelled || state == Stopping || state == Stopped { return None; }
      var t := sequence;
      BooksBalance(Books());
      AcceptSound(Books(), t);
      ToSetLast(queue.Contents(), t);
      ToSetSum(started, queue.Contents());
      ghost var order := Schedule();
      forall i | 0 <= i < |order| ensures order[i] < t { ToSetHas(order, order[i]); }
      EnrollingKeepsOrder(order, t, promoted);
      EnrollingKeepsDistinct(queue.Contents(), t);
      sequence := sequence + 1;
      accepted := accepted + {t};
      queue.Push(t);
      assert Schedule() == old(Schedule()) + [t];
      Pump();
      return Some(t);
    }

    /** The abort listener of a task. */
    method Cancel(t: nat)
      requires Quiescent()
      modifies this, queue, queue.repr
      ensures Quiescent() && Books() == old(Books()) && started == old(started) && queue.repr == old(queue.repr)
      ensures old(promoted) <= promoted <= old(promoted) + {t}
      ensures promoted == old(promoted) || t in ToSet(old(queue.Contents()))
      ensures ComesNext(t, old(started), old(queue.Contents()), Schedule())
    {
      hide FifoQueue.Valid, FifoQueue.Contents, Settled, Sound, InSubmissionOrder, ToSet, Distinct, ToFront, ComesNext,
           Pumped;
      ghost var contents := queue.Contents();
      var moved := queue.MoveToFront(t);
      if moved {
        assert t in contents;
        ToSetHas(contents, t);
        ghost var i :| 0 < i < |contents| && contents[i] == t && queue.Contents() == ToFront(contents, i);
        ToSetFront(contents, i);
        PromotionKeepsOrder(started, contents, i, promoted);
        MovedNext(t, started, contents, i);
        promoted := promoted + {t};
      } else {
        AlreadyNext(t, started, contents);
      }
      ghost var books, schedule := Books(), Schedule();
      Pump();
      SettledPump(books, Books());
      assert schedule[..|started|] == started;
    }

    method Stop() returns (waits: bool)
      requires Quiescent()
      modifies this, queue, queue.repr
      ensures Quiescent() && queue.repr == old(queue.repr)
      ensures (state == Stopping || state == Stopped) && waits == (state == Stopping)
      ensures if old(state) == Stopping || old(state) == Stopped then Books() == old(Books())
              else Pumped(old(Books()).(state := Stopping), Books())
      ensures Schedule() == old(Schedule()) && promoted == old(promoted)
    {
      hide FifoQueue.Valid, FifoQueue.Contents, InSubmissionOrder, ToSet, Distinct, Sound;
      if state == Stopped { return false; }
      if state != Stopping {
        StopSound(Books());
        state := Stopping;
        Pump();
      }
      return state == Stopping;
    }

    /** An executed task's completion settled. */
    method TaskFinished(ghost t: nat)
      requires Quiescent() && t in running
      modifies this, queue, queue.repr
      ensures Quiescent() && queue.repr == old(queue.repr)
      ensures old(active) > 0 && Pumped(Ended(old(Books()), t), Books())
      ensures Schedule() == old(Schedule()) && promoted == old(promoted)
    {
      hide FifoQueue.Valid, FifoQueue.Contents, InSubmissionOrder, ToSet, Settled, Sound, Pumped;
      FinishSound(Books(), t);
      active := active - 1;
      running := running - {t};
      finished := finished + {t};
      Pump();
    }
  }
}
