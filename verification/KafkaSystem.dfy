/** The consumer with the deliveries of its leases: each lease has one, and a lease that is no longer in force
    revokes it. */
module KafkaSystem {
  import opened Base
  import Leases = KafkaLeases
  import LeaseTheorems = KafkaTheorems
  import Delivery = KafkaDelivery

  /** The delivery of lease `l` is `deliveries[l]`. */
  datatype System = System(consumer: Leases.Consumer, deliveries: seq<Delivery.Partition>)

  /** What a new lease finds: the partition's records so far, and the offset it is read from. */
  datatype Log = Log(records: seq<int>, start: int)

  datatype Event = Consumer(event: Leases.Event, logs: seq<Log>) | Delivery(lease: nat, step: Delivery.Event)

  function Initial(restoring: bool): System {
    System(Leases.Initial(restoring), [])
  }

  /** The lease is in force on its partition. */
  predicate InForce(c: Leases.Consumer, l: nat)
    requires l < |c.leases|
  {
    Leases.Current(c, c.leases[l].partition, l)
  }

  function Revoked(d: Delivery.Partition): Delivery.Partition {
    d.(current := false, phase := if d.phase.Idle? then Delivery.Over else d.phase)
  }

  /** The consumer has changed: the deliveries of leases no longer in force are revoked. */
  function Synced(c: Leases.Consumer, deliveries: seq<Delivery.Partition>): (r: seq<Delivery.Partition>)
    requires |deliveries| <= |c.leases|
    ensures |r| == |deliveries|
    ensures forall l :: 0 <= l < |r| ==> r[l] == if InForce(c, l) then deliveries[l] else Revoked(deliveries[l])
  {
    seq(|deliveries|, l requires 0 <= l < |deliveries| =>
      if InForce(c, l) then deliveries[l] else Revoked(deliveries[l]))
  }

  function Opened(logs: seq<Log>): (r: seq<Delivery.Partition>)
    ensures |r| == |logs| && forall i :: 0 <= i < |logs| ==> r[i] == Delivery.Initial(logs[i].records, logs[i].start)
  {
    seq(|logs|, i requires 0 <= i < |logs| => Delivery.Initial(logs[i].records, logs[i].start))
  }

  /** A lease installed at a checkpoint is read from its offset. */
  predicate StartsAt(position: Leases.Position, log: Log) {
    position.At? ==> log.start == position.offset
  }

  ghost predicate LogsOk(c: Leases.Consumer, e: Leases.Event, logs: seq<Log>)
    requires Leases.Enabled(c, e)
  {
    && |c.leases| + |logs| == |Leases.Step(c, e).leases|
    && (forall i :: 0 <= i < |logs| ==> Delivery.Ascending(logs[i].records))
    && (e.SettleCommits? ==>
          var positions := c.restorations[e.restoration].positions;
          forall i :: 0 <= i < |logs| && i < |positions| ==> StartsAt(positions[i], logs[i]))
  }

  /** Revocation comes from the consumer, and a consumer that is stopping fetches no more. */
  ghost predicate Enabled(s: System, e: Event) {
    match e
    case Consumer(event, logs) => Leases.Enabled(s.consumer, event) && LogsOk(s.consumer, event, logs)
    case Delivery(l, step) =>
      && l < |s.deliveries| && Delivery.Shape(s.deliveries[l]) && Delivery.Enabled(s.deliveries[l], step)
      && !step.Revoke? && (step.FetchRecords? ==> !s.consumer.stopping)
  }

  /** A delivery that throws under a current lease fails the consumer. */
  function Delivered(s: System, l: nat, d: Delivery.Partition): System
    requires l < |s.deliveries| <= |s.consumer.leases|
  {
    if s.deliveries[l].current && !d.current then
      var c := Leases.Fail(s.consumer);
      System(c, Synced(c, s.deliveries[l := d]))
    else s.(deliveries := s.deliveries[l := d])
  }

  ghost function Step(s: System, e: Event): System
    requires Enabled(s, e) && |s.deliveries| == |s.consumer.leases|
  {
    match e
    case Consumer(event, logs) =>
      var c := Leases.Step(s.consumer, event);
      System(c, Synced(c, s.deliveries + Opened(logs)))
    case Delivery(l, step) => Delivered(s, l, Delivery.Step(s.deliveries[l], step))
  }

  // ---- What every step keeps ----

  /** A delivery takes its lease for current exactly while the lease is in force. */
  ghost predicate Agrees(c: Leases.Consumer, d: Delivery.Partition, l: nat)
    requires l < |c.leases|
  {
    Delivery.Inv(d) && (d.current <==> InForce(c, l))
  }

  ghost predicate Inv(s: System) {
    && Leases.Inv(s.consumer) && |s.deliveries| == |s.consumer.leases|
    && forall l :: 0 <= l < |s.deliveries| ==> Agrees(s.consumer, s.deliveries[l], l)
  }

  lemma RevokedInv(d: Delivery.Partition)
    requires Delivery.Inv(d)
    ensures Delivery.Inv(Revoked(d))
  {
    Delivery.RevokeInv(d);
  }

  lemma OpenedInv(log: Log)
    requires Delivery.Ascending(log.records)
    ensures Delivery.Inv(Delivery.Initial(log.records, log.start))
  {}

  /** A lease in force after a step was in force before it, or is new. */
  lemma InForceBefore(c: Leases.Consumer, e: Leases.Event, l: nat)
    requires Leases.Inv(c) && Leases.Enabled(c, e) && l < |c.leases|
    ensures l < |Leases.Step(c, e).leases| && (InForce(Leases.Step(c, e), l) ==> InForce(c, l))
  {
    LeaseTheorems.StepEvolves(c, e);
    var t := Leases.Step(c, e);
    hide Leases.Step, Leases.RestorationOk;
    if InForce(t, l) {
      var p := t.leases[l].partition;
      assert p in c.assignments && c.assignments[p] == l && Leases.LeaseOk(c, p);
    }
  }

  lemma ConsumerKeeps(s: System, e: Leases.Event, logs: seq<Log>)
    requires Inv(s) && Enabled(s, Consumer(e, logs))
    ensures Inv(Step(s, Consumer(e, logs)))
  {
    hide Leases.Step, Leases.Inv, Delivery.Inv, InForce, Revoked;
    var t := Step(s, Consumer(e, logs));
    Leases.StepKeeps(s.consumer, e);
    var all := s.deliveries + Opened(logs);
    forall l | 0 <= l < |t.deliveries| ensures Agrees(t.consumer, t.deliveries[l], l) {
      if l < |s.deliveries| {
        assert Agrees(s.consumer, s.deliveries[l], l) && all[l] == s.deliveries[l];
        InForceBefore(s.consumer, e, l);
      } else {
        OpenedInv(logs[l - |s.deliveries|]);
      }
      RevokedNot(all[l]);
    }
  }

  lemma RevokedNot(d: Delivery.Partition)
    ensures !Revoked(d).current && (Delivery.Inv(d) ==> Delivery.Inv(Revoked(d)))
  {
    if Delivery.Inv(d) { RevokedInv(d); }
    hide Delivery.Inv;
  }

  lemma FailedNone(c: Leases.Consumer, l: nat)
    requires l < |c.leases|
    ensures |Leases.Fail(c).leases| == |c.leases| && !InForce(Leases.Fail(c), l)
  {}

  /** No step of a delivery makes a lease current. */
  lemma StaysRevoked(d: Delivery.Partition, e: Delivery.Event)
    requires Delivery.Shape(d) && Delivery.Enabled(d, e)
    ensures Delivery.Step(d, e).current ==> d.current
  {
    hide Delivery.FirstAt;
  }

  lemma DeliveryKeeps(s: System, l: nat, e: Delivery.Event)
    requires Inv(s) && Enabled(s, Delivery(l, e))
    ensures Inv(Step(s, Delivery(l, e)))
  {
    hide Delivery.Step, Delivery.Enabled, Leases.Inv, Delivery.Inv, InForce, Revoked, Leases.Fail;
    var d := s.deliveries[l];
    assert Agrees(s.consumer, d, l);
    Delivery.StepKeeps(d, e);
    StaysRevoked(d, e);
    var after := Delivery.Step(d, e);
    var t := Step(s, Delivery(l, e));
    if d.current && !after.current { FailKeeps(s.consumer); }
    FailedNone(s.consumer, l);
    forall m | 0 <= m < |t.deliveries| ensures Agrees(t.consumer, t.deliveries[m], m) {
      assert Agrees(s.consumer, s.deliveries[m], m);
      FailedNone(s.consumer, m);
      RevokedNot(s.deliveries[l := after][m]);
    }
  }

  lemma FailKeeps(c: Leases.Consumer)
    requires Leases.Inv(c)
    ensures Leases.Inv(Leases.Fail(c))
  {
    Leases.StepKeeps(c, Leases.Failure);
  }

  lemma StepKeeps(s: System, e: Event)
    requires Inv(s) && Enabled(s, e)
    ensures Inv(Step(s, e))
  {
    match e
    case Consumer(event, logs) => ConsumerKeeps(s, event, logs);
    case Delivery(l, step) => DeliveryKeeps(s, l, step);
    hide Inv, Step, Enabled;
  }

  // ---- Over whole runs ----

  ghost predicate Leads(s: System, e: Event, t: System) {
    Enabled(s, e) && |s.deliveries| == |s.consumer.leases| && t == Step(s, e)
  }

  ghost predicate Run(states: seq<System>, events: seq<Event>) {
    && |states| == |events| + 1 && (exists restoring :: states[0] == Initial(restoring))
    && (forall i :: 0 <= i < |events| ==> Leads(states[i], events[i], states[i + 1]))
  }

  lemma {:induction false} RunsKeepInv(states: seq<System>, events: seq<Event>, i: nat)
    requires Run(states, events) && i < |states|
    ensures Inv(states[i])
  {
    hide Step, Enabled;
    if i > 0 {
      RunsKeepInv(states, events, i - 1);
      assert Leads(states[i - 1], events[i - 1], states[i]);
      StepKeeps(states[i - 1], events[i - 1]);
      hide Inv;
    }
  }

  /** What a delivery has handed out, stored and committed. */
  ghost predicate SameWork(d: Delivery.Partition, u: Delivery.Partition) {
    u.delivered == d.delivered && u.stored == d.stored && u.start == d.start
  }

  lemma RevokedIdles(d: Delivery.Partition, e: Delivery.Event)
    requires Delivery.Shape(d) && Delivery.Enabled(d, e)
    ensures Delivery.Step(d, e).start == d.start
    ensures !d.current ==> SameWork(d, Delivery.Step(d, e))
  {
    hide Delivery.FirstAt;
  }

  /** A step works at most for one lease, which is in force. */
  lemma StepWorks(s: System, e: Event, l: nat)
    requires Inv(s) && Enabled(s, e) && l < |s.deliveries|
    ensures var t := Step(s, e);
      && l < |t.deliveries| && t.deliveries[l].start == s.deliveries[l].start
      && (SameWork(s.deliveries[l], t.deliveries[l]) || (e.Delivery? && e.lease == l && InForce(s.consumer, l)))
  {
    hide Delivery.Step, Delivery.Enabled, Delivery.Inv, InForce, Leases.Step, Leases.Enabled, Leases.Fail;
    assert Agrees(s.consumer, s.deliveries[l], l);
    match e
    case Consumer(event, logs) => InForceCount(s.consumer, event);
    case Delivery(m, step) =>
      RevokedIdles(s.deliveries[m], step);
      FailedNone(s.consumer, m);
  }

  lemma InForceCount(c: Leases.Consumer, e: Leases.Event)
    requires Leases.Enabled(c, e)
    ensures |c.leases| <= |Leases.Step(c, e).leases|
  {
    hide Leases.Step;
    LeaseTheorems.StepEvolves(c, e);
  }

  /** In every run a record is handed out, and an offset is stored or handed to a commit, only by a step of the
      delivery of a lease that is in force: of the newest generation, installed, not aborted, in a consumer that has
      not failed and is not cancelled; and no other lease is in force on its partition. */
  lemma WorksInForce(states: seq<System>, events: seq<Event>, i: nat, l: nat)
    requires Run(states, events) && i < |events| && l < |states[i].deliveries|
    ensures |states[i].deliveries| == |states[i].consumer.leases| && l < |states[i + 1].deliveries|
    ensures !SameWork(states[i].deliveries[l], states[i + 1].deliveries[l]) ==>
      var c := states[i].consumer;
      && events[i].Delivery? && events[i].lease == l && InForce(c, l) && !c.failed && !c.cancelled
      && c.leases[l].generation == c.generation && !c.leases[l].aborted
      && forall m :: 0 <= m < |c.leases| && c.leases[m].partition == c.leases[l].partition && InForce(c, m) ==> m == l
  {
    RunsKeepInv(states, events, i);
    assert Leads(states[i], events[i], states[i + 1]);
    StepWorks(states[i], events[i], l);
    if InForce(states[i].consumer, l) { InForceNewest(states[i].consumer, l); }
    hide Inv, Step, Enabled, SameWork;
  }

  lemma InForceNewest(c: Leases.Consumer, l: nat)
    requires Leases.Inv(c) && l < |c.leases| && InForce(c, l)
    ensures c.leases[l].generation == c.generation
  {
    assert Leases.LeaseOk(c, c.leases[l].partition);
  }

  /** A mark or a commit under a lease that is not in force is refused: it changes nothing. */
  lemma RefusedOutOfForce(states: seq<System>, events: seq<Event>, i: nat, l: nat)
    requires Run(states, events) && i < |events| && l < |states[i].consumer.leases|
    requires events[i].Delivery? && events[i].lease == l && !InForce(states[i].consumer, l)
    requires events[i].step.Mark? || events[i].step.Commit? || events[i].step.LateCommit?
    ensures states[i + 1] == states[i]
  {
    RunsKeepInv(states, events, i);
    assert Leads(states[i], events[i], states[i + 1]);
    assert Agrees(states[i].consumer, states[i].deliveries[l], l);
    RefusedStep(states[i].deliveries[l], events[i].step);
    hide Inv, InForce, Delivery.Step, Delivery.Enabled;
  }

  lemma RefusedStep(d: Delivery.Partition, e: Delivery.Event)
    requires Delivery.Shape(d) && Delivery.Enabled(d, e) && !d.current
    requires e.Mark? || e.Commit? || e.LateCommit?
    ensures Delivery.Step(d, e) == d
  {}

  /** In every run, once a lease is not in force it never is again, and nothing more is handed out, stored or
      handed to a commit under it. */
  lemma {:induction false} OutForGood(states: seq<System>, events: seq<Event>, i: nat, j: nat, l: nat)
    requires Run(states, events) && i <= j < |states| && l < |states[i].consumer.leases|
    requires !InForce(states[i].consumer, l)
    ensures l < |states[i].deliveries| && l < |states[j].deliveries| == |states[j].consumer.leases|
    ensures !InForce(states[j].consumer, l) && SameWork(states[i].deliveries[l], states[j].deliveries[l])
  {
    hide Step, Enabled, InForce, Agrees;
    RunsKeepInv(states, events, j);
    RunsKeepInv(states, events, i);
    if i < j {
      OutForGood(states, events, i, j - 1, l);
      assert Leads(states[j - 1], events[j - 1], states[j]);
      RunsKeepInv(states, events, j - 1);
      StepWorks(states[j - 1], events[j - 1], l);
      StaysOut(states[j - 1], events[j - 1], l);
    }
    hide Inv;
  }

  lemma StaysOut(s: System, e: Event, l: nat)
    requires Inv(s) && Enabled(s, e) && l < |s.consumer.leases| && !InForce(s.consumer, l)
    ensures var c := Step(s, e).consumer; l < |c.leases| && !InForce(c, l)
  {
    hide Delivery.Step, Delivery.Enabled, Delivery.Inv, InForce, Leases.Step, Leases.Enabled, Leases.Fail, Agrees;
    FailedNone(s.consumer, l);
    if e.Consumer? { InForceBefore(s.consumer, e.event, l); }
  }

  /** So the failure of one delivery, or of the consumer, ends the work of all, for good. */
  lemma FailureEndsAll(states: seq<System>, events: seq<Event>, i: nat, j: nat, l: nat)
    requires Run(states, events) && i <= j < |states| && states[i].consumer.failed
    requires l < |states[i].consumer.leases|
    ensures l < |states[i].deliveries| && l < |states[j].deliveries| == |states[j].consumer.leases|
    ensures !InForce(states[j].consumer, l) && SameWork(states[i].deliveries[l], states[j].deliveries[l])
  {
    hide Run, SameWork;
    OutForGood(states, events, i, j, l);
  }

  lemma {:induction false} StartStays(states: seq<System>, events: seq<Event>, i: nat, j: nat, l: nat)
    requires Run(states, events) && i <= j < |states| && l < |states[i].deliveries|
    ensures l < |states[j].deliveries| && states[j].deliveries[l].start == states[i].deliveries[l].start
  {
    hide Step, Enabled, Inv;
    if i < j {
      StartStays(states, events, i, j - 1, l);
      RunsKeepInv(states, events, j - 1);
      assert Leads(states[j - 1], events[j - 1], states[j]);
      StepWorks(states[j - 1], events[j - 1], l);
    }
  }

  /** In every run a lease installed at a checkpoint is read from its offset: nothing before it is handed out, and
      the acknowledged records are a prefix of those from it on. */
  lemma FromCheckpoint(states: seq<System>, events: seq<Event>, i: nat, j: nat, r: nat, logs: seq<Log>, n: nat)
    requires Run(states, events) && i < j < |states| && events[i] == Consumer(Leases.SettleCommits(r, true), logs)
    requires r < |states[i].consumer.restorations| && n < |logs| && n < |states[i].consumer.restorations[r].positions|
    requires states[i].consumer.restorations[r].positions[n].At?
    ensures var l, offset := |states[i].deliveries| + n, states[i].consumer.restorations[r].positions[n].offset;
      && l < |states[j].deliveries| && states[j].deliveries[l].start == offset
      && (forall record <- states[j].deliveries[l].delivered :: record >= offset)
      && forall k :: 0 <= k < |states[j].deliveries[l].records| && states[j].deliveries[l].records[k] >= offset ==>
           Delivery.PrefixAcked(states[j].deliveries[l], k)
  {
    hide Inv, Leases.Step, Leases.Enabled, Revoked, InForce, Delivery.PrefixAcked, Delivery.Inv;
    var l := |states[i].deliveries| + n;
    assert Leads(states[i], events[i], states[i + 1]);
    assert (states[i].deliveries + Opened(logs))[l] == Delivery.Initial(logs[n].records, logs[n].start);
    assert StartsAt(states[i].consumer.restorations[r].positions[n], logs[n]);
    RevokedStart((states[i].deliveries + Opened(logs))[l]);
    StartStays(states, events, i + 1, j, l);
    RunsKeepInv(states, events, j);
    InvDelivery(states[j], l);
  }

  lemma RevokedStart(d: Delivery.Partition)
    ensures Revoked(d).start == d.start
  {}

  lemma InvDelivery(s: System, l: nat)
    requires Inv(s) && l < |s.deliveries|
    ensures var d := s.deliveries[l];
      && (forall record <- d.delivered :: record >= d.start)
      && forall k :: 0 <= k < |d.records| && d.records[k] >= d.start ==> Delivery.PrefixAcked(d, k)
  {
    var d := s.deliveries[l];
    assert Agrees(s.consumer, d, l);
    forall k | 0 <= k < |d.records| && d.records[k] >= d.start ensures Delivery.PrefixAcked(d, k) {
      Delivery.InvPrefix(d, k);
    }
    hide Inv;
  }

  // ---- The parts of the system run as they do on their own ----

  /** What a step of the system is for delivery `l`, before its lease is looked at: a step of its own, or none. */
  ghost predicate OwnStep(s: System, e: Event, l: nat, own: Delivery.Partition)
    requires l < |s.deliveries|
  {
    var d := s.deliveries[l];
    if e.Delivery? && e.lease == l then Delivery.Leads(d, e.step, own) else own == d
  }

  /** It is revoked if its lease is not in force afterwards. */
  ghost predicate RevokedUnless(inForce: bool, own: Delivery.Partition, t: Delivery.Partition) {
    if inForce then t == own else Delivery.Leads(own, Delivery.Revoke, t)
  }

  /** What a step of the system is for the consumer: one of its own, the failure a delivery ends with that throws
      under a current lease, or none. */
  ghost predicate ConsumerStep(s: System, e: Event, c: Leases.Consumer) {
    match e
    case Consumer(event, _) => LeaseTheorems.Leads(s.consumer, event, c)
    case Delivery(l, step) =>
      && l < |s.deliveries| && Delivery.Shape(s.deliveries[l]) && Delivery.Enabled(s.deliveries[l], step)
      && if s.deliveries[l].current && !Delivery.Step(s.deliveries[l], step).current then
           LeaseTheorems.Leads(s.consumer, Leases.Failure, c)
         else c == s.consumer
  }

  lemma RevokedIsRevoke(d: Delivery.Partition)
    requires Delivery.Inv(d)
    ensures Delivery.Leads(d, Delivery.Revoke, Revoked(d)) && (!d.current ==> Revoked(d) == d)
  {
    hide Delivery.Below;
  }

  /** In every run of the system each delivery makes steps of its own, and is revoked as soon as its lease is not in
      force; the consumer makes steps of its own and fails with a delivery that throws; a new lease begins with a
      delivery of its own. */
  lemma PartsRun(states: seq<System>, events: seq<Event>, i: nat, l: nat)
    returns (own: Delivery.Partition)
    requires Run(states, events) && i < |events| && l < |states[i].deliveries|
    ensures l < |states[i + 1].deliveries| == |states[i + 1].consumer.leases|
    ensures ConsumerStep(states[i], events[i], states[i + 1].consumer)
    ensures OwnStep(states[i], events[i], l, own)
    ensures RevokedUnless(InForce(states[i + 1].consumer, l), own, states[i + 1].deliveries[l])
  {
    hide Delivery.Step, Delivery.Enabled, Delivery.Inv, InForce, Leases.Step, Leases.Enabled, Leases.Fail, Agrees,
         Revoked;
    RunsKeepInv(states, events, i);
    RunsKeepInv(states, events, i + 1);
    var s, e := states[i], events[i];
    assert Leads(s, e, states[i + 1]);
    own := s.deliveries[l];
    if e.Delivery? && e.lease == l { own := Delivery.Step(own, e.step); }
    OwnInv(s, e, l, own);
    RevokedIsRevoke(own);
    FailIsFailure(s.consumer);
    match e
    case Consumer(event, _) => InForceCount(s.consumer, event);
    case Delivery(m, _) => FailedNone(s.consumer, m);
    InForceAgrees(states[i + 1], l);
  }

  lemma OwnInv(s: System, e: Event, l: nat, own: Delivery.Partition)
    requires Inv(s) && Enabled(s, e) && l < |s.deliveries| && OwnStep(s, e, l, own)
    ensures Delivery.Inv(own)
  {
    hide Delivery.Step, Delivery.Enabled, Delivery.Inv, InForce, Leases.Inv;
    assert Agrees(s.consumer, s.deliveries[l], l);
    if e.Delivery? && e.lease == l { Delivery.StepKeeps(s.deliveries[l], e.step); }
  }

  lemma InForceAgrees(s: System, l: nat)
    requires Inv(s) && l < |s.deliveries|
    ensures s.deliveries[l].current <==> InForce(s.consumer, l)
  {
    assert Agrees(s.consumer, s.deliveries[l], l);
    hide Leases.Inv, Delivery.Inv;
  }

  lemma FailIsFailure(c: Leases.Consumer)
    ensures Leases.Enabled(c, Leases.Failure) && Leases.Step(c, Leases.Failure) == Leases.Fail(c)
  {}
}
