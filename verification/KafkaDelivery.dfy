/** Delivery of one partition's records under one lease. The handler, the broker's answers and revocation
    are chosen by the event. A paused partition returns no records, and a fetch returns the records that
    follow the position. */
module KafkaDelivery {
  import opened Base

  /** The most records one fetch returns. */
  const FETCH_BATCH := 32

  /** What the handler has done about the record in its hands: marked it, with or without metadata; asked
      for a commit; seen that commit succeed. */
  datatype Control = Control(marked: bool, metadata: bool, requested: bool, committed: bool)

  datatype Stage = Handling(control: Control) | Committing | Seeking

  /** A delivery works on `count` records from the `first`-th on. */
  datatype Phase = Idle | Delivering(first: nat, count: nat, index: nat, stage: Stage) | Over

  /** The log as far as the partition's records are known, by offset. `stored`, `delivered` and `acked` are history:
      the offsets ever handed to `offsetsStore` or `commit`, whether or not the commit came through; the records
      the handler was given; and the records it is done with, by a mark it returned with or by a commit that
      succeeded. */
  datatype Partition = Partition(records: seq<int>, start: int, position: int, current: bool, phase: Phase,
                                 delivered: set<int>, acked: set<int>, stored: set<int>)

  function Initial(records: seq<int>, start: int): Partition {
    Partition(records, start, start, true, Idle, {}, {}, {})
  }

  ghost predicate Ascending(records: seq<int>) {
    forall i, j :: 0 <= i < j < |records| ==> records[i] < records[j]
  }

  /** The first record at or after an offset. */
  function FirstAt(records: seq<int>, position: int): (k: nat)
    ensures k <= |records| && (k < |records| ==> records[k] >= position)
    ensures forall i :: 0 <= i < k ==> records[i] < position
  {
    if records == [] then 0
    else
      var k := FirstAt(records[..|records| - 1], position);
      if k < |records| - 1 || records[k] >= position then k else k + 1
  }

  predicate Representable(offset: int) {
    -(MAX_SAFE_INTEGER as int) <= offset < MAX_SAFE_INTEGER
  }

  function Record(s: Partition): int
    requires s.phase.Delivering? && s.phase.first + s.phase.index < |s.records|
  {
    s.records[s.phase.first + s.phase.index]
  }

  /** The loop of `deliver` comes to a record: hand it to the handler, unless the lease is gone. */
  function Hand(s: Partition, first: nat, count: nat, index: nat): Partition
    requires first + index < |s.records|
  {
    var record := s.records[first + index];
    if !s.current || !Representable(record) then s.(phase := Over, current := false)
    else s.(phase := Delivering(first, count, index, Handling(Control(false, false, false, false))),
      delivered := s.delivered + {record})
  }

  /** The loop goes on, or the delivery ends and the partition is resumed. */
  function Next(s: Partition): Partition
    requires s.phase.Delivering? && s.phase.first + s.phase.count <= |s.records|
  {
    if s.phase.index + 1 < s.phase.count then Hand(s, s.phase.first, s.phase.count, s.phase.index + 1)
    else s.(phase := if s.current then Idle else Over)
  }

  function Fetch(s: Partition, n: nat): Partition
    requires 1 <= n && FirstAt(s.records, s.position) + n <= |s.records|
  {
    var first := FirstAt(s.records, s.position);
    Hand(s.(position := s.records[first + n - 1] + 1), first, n, 0)
  }

  /** The offset behind a record is handed to the native client. */
  function Submit(s: Partition, record: int): Partition {
    s.(stored := s.stored + {record + 1})
  }

  function Acknowledge(s: Partition, record: int): Partition {
    s.(acked := s.acked + {record})
  }

  function WithControl(s: Partition, control: Control): Partition
    requires s.phase.Delivering?
  {
    s.(phase := s.phase.(stage := Handling(control)))
  }

  /** The handler returned. */
  function Returns(s: Partition): Partition
    requires s.phase.Delivering? && s.phase.stage.Handling? && s.phase.first + s.phase.count <= |s.records|
      && s.phase.index < s.phase.count
  {
    var control := s.phase.stage.control;
    if !s.current then s.(phase := Over)
    else if control.committed then Next(s)
    else if !control.marked then s.(phase := s.phase.(stage := Seeking))
    else if control.metadata then Submit(s, Record(s)).(phase := s.phase.(stage := Committing))
    else Next(Acknowledge(Submit(s, Record(s)), Record(s)))
  }

  datatype Event =
    | Produce(offset: int) | FetchRecords(n: nat)
    | Mark(metadata: bool) | Commit | CommitSucceeds | HandlerReturns | HandlerThrows
    | CommitSettles(ok: bool) | SeekSettles(ok: bool) | LateCommit(offset: int) | Revoke

  predicate InHandler(s: Partition) {
    s.phase.Delivering? && s.phase.stage.Handling?
  }

  predicate Shape(s: Partition) {
    s.phase.Delivering? ==> s.phase.index < s.phase.count && s.phase.first + s.phase.count <= |s.records|
  }

  predicate Enabled(s: Partition, e: Event) {
    match e
    case Produce(offset) => s.records == [] || s.records[|s.records| - 1] < offset
    case FetchRecords(n) => s.phase.Idle? && s.current && 1 <= n <= FETCH_BATCH
      && FirstAt(s.records, s.position) + n <= |s.records|
    case Mark(_) => InHandler(s)
    case Commit => InHandler(s)
    case CommitSucceeds => InHandler(s) && s.phase.stage.control.requested
    case HandlerReturns => InHandler(s)
    case HandlerThrows => InHandler(s)
    case CommitSettles(_) => s.phase.Delivering? && s.phase.stage.Committing?
    case SeekSettles(_) => s.phase.Delivering? && s.phase.stage.Seeking?
    case LateCommit(offset) => offset in s.delivered
    case Revoke => true
  }

  function Step(s: Partition, e: Event): Partition
    requires Shape(s) && Enabled(s, e)
  {
    match e
    case Produce(offset) => s.(records := s.records + [offset])
    case FetchRecords(n) => Fetch(s, n)
    case Mark(metadata) =>
      if s.current then WithControl(s, s.phase.stage.control.(marked := true, metadata := metadata)) else s
    case Commit =>
      if s.current then WithControl(Submit(s, Record(s)), s.phase.stage.control.(requested := true)) else s
    case CommitSucceeds => WithControl(Acknowledge(s, Record(s)), s.phase.stage.control.(committed := true))
    case HandlerReturns => Returns(s)
    case HandlerThrows => s.(phase := Over, current := false)
    case CommitSettles(ok) =>
      if ok then Next(Acknowledge(s, Record(s))) else s.(phase := Over, current := false)
    case SeekSettles(ok) =>
      if ok then s.(position := Record(s), phase := if s.current then Idle else Over)
      else s.(phase := Over, current := false)
    case LateCommit(offset) => if s.current then Submit(s, offset) else s
    case Revoke => s.(current := false, phase := if s.phase.Idle? then Over else s.phase)
  }

  // ---- What every step keeps ----

  /** Every record of the lease below an offset is acknowledged. */
  ghost predicate AckedBelow(s: Partition, offset: int) {
    Below(s.records, s.start, s.acked, offset)
  }

  ghost predicate Below(records: seq<int>, start: int, acked: set<int>, offset: int) {
    forall i :: 0 <= i < |records| && start <= records[i] < offset ==> records[i] in acked
  }

  /** No record at or after an offset is acknowledged. */
  ghost predicate NotBeyond(acked: set<int>, offset: int) {
    forall a <- acked :: a < offset
  }

  /** The offset is the start, a record's, or the one after a record's. */
  ghost predicate Marks(s: Partition, offset: int) {
    offset == s.start || offset in s.records || offset - 1 in s.records
  }

  ghost predicate DeliveryOk(s: Partition) {
    match s.phase
    case Idle =>
      && s.start <= s.position && AckedBelow(s, s.position) && NotBeyond(s.acked, s.position) && Marks(s, s.position)
      && s.current
    case Over => true
    case Delivering(first, count, index, stage) =>
      && index < count && first + count <= |s.records|
      && NotBeyond(s.acked, s.records[first + index] + if stage.Handling? && stage.control.committed then 1 else 0)
      && AckedBelow(s, s.records[first + index]) && s.records[first + index] in s.delivered
      && s.position == s.records[first + count - 1] + 1
      && Representable(s.records[first + index])
      && (stage.Handling? && stage.control.committed ==> s.records[first + index] in s.acked)
      && (stage.Committing? || (stage.Handling? && stage.control.requested) ==>
            s.records[first + index] + 1 in s.stored)
  }

  ghost predicate Inv(s: Partition) {
    && Ascending(s.records) && Shape(s) && DeliveryOk(s)
    && (forall r <- s.delivered :: r in s.records && s.start <= r && AckedBelow(s, r))
    && s.acked <= s.delivered
    && (forall o <- s.stored :: o - 1 in s.delivered) && (forall a <- s.acked :: a + 1 in s.stored)
  }

  lemma BelowNext(records: seq<int>, start: int, acked: set<int>, k: nat)
    requires Ascending(records) && k < |records| && Below(records, start, acked, records[k]) && records[k] in acked
    ensures Below(records, start, acked, records[k] + 1)
    ensures k + 1 < |records| ==> Below(records, start, acked, records[k + 1])
  {}

  lemma BelowFirst(records: seq<int>, start: int, acked: set<int>, position: int)
    requires Ascending(records) && Below(records, start, acked, position)
    ensures var k := FirstAt(records, position); k < |records| ==> Below(records, start, acked, records[k])
  {
    hide FirstAt;
  }

  lemma BelowMore(records: seq<int>, start: int, acked: set<int>, more: set<int>, offset: int)
    requires Below(records, start, acked, offset) && acked <= more
    ensures Below(records, start, more, offset)
  {}

  lemma BelowProduced(s: Partition, added: int, offset: int)
    requires Ascending(s.records) && (s.records == [] || s.records[|s.records| - 1] < added)
    requires AckedBelow(s, offset) && Marks(s, offset)
    ensures Below(s.records + [added], s.start, s.acked, offset) && Ascending(s.records + [added])
  {
    assert offset in s.records ==> exists i :: 0 <= i < |s.records| && s.records[i] == offset;
  }

  lemma ProducedAfter(s: Partition, added: int)
    requires Ascending(s.records) && (s.records == [] || s.records[|s.records| - 1] < added)
    ensures Ascending(s.records + [added])
    ensures forall offset :: Marks(s, offset) ==> Marks(s.(records := s.records + [added]), offset)
    ensures forall r <- s.records :: Marks(s, r) && r in s.records + [added]
  {}

  lemma ProduceInv(s: Partition, offset: int)
    requires Inv(s) && Enabled(s, Produce(offset))
    ensures Inv(Step(s, Produce(offset)))
  {
    hide Below, NotBeyond, Representable, FirstAt, Ascending, Marks;
    var t := Step(s, Produce(offset));
    ProducedAfter(s, offset);
    forall r <- t.delivered ensures r in t.records && AckedBelow(t, r) { BelowProduced(s, offset, r); }
    if t.phase.Idle? {
      BelowProduced(s, offset, s.position);
    } else if t.phase.Delivering? {
      BelowProduced(s, offset, Record(s));
    }
  }

  /** Handing over the next record of a delivery whose earlier records are acknowledged. */
  lemma HandInv(s: Partition, first: nat, count: nat, index: nat)
    requires Inv(s) && index < count && first + count <= |s.records| && AckedBelow(s, s.records[first + index])
    requires NotBeyond(s.acked, s.records[first + index]) && s.start <= s.records[first + index]
    requires s.position == s.records[first + count - 1] + 1 && !s.phase.Idle?
    ensures Inv(Hand(s, first, count, index))
  {
    hide Below;
  }

  /** The record in hand is acknowledged. */
  ghost function Committed(s: Partition): Partition
    requires s.phase.Delivering? && s.phase.first + s.phase.index < |s.records|
  {
    WithControl(Acknowledge(s, Record(s)), Control(false, false, false, true))
  }

  lemma CommittedInv(s: Partition)
    requires Inv(s) && s.phase.Delivering? && Record(s) + 1 in s.stored
    ensures Inv(Committed(s))
  {
    hide Below;
    var t := Committed(s);
    forall o | AckedBelow(s, o) ensures AckedBelow(t, o) { BelowMore(s.records, s.start, s.acked, t.acked, o); }
  }

  lemma NextInv(s: Partition)
    requires Inv(s) && InHandler(s) && s.phase.stage.control.committed
    ensures Inv(Next(s))
  {
    hide Below, Hand;
    var k := s.phase.first + s.phase.index;
    BelowNext(s.records, s.start, s.acked, k);
    if s.phase.index + 1 < s.phase.count {
      assert s.records[k] < s.records[k + 1];
      HandInv(s, s.phase.first, s.phase.count, s.phase.index + 1);
    } else {
      assert s.position - 1 == s.records[k];
    }
  }

  /** The record in hand is acknowledged and the loop goes on. */
  lemma DoneInv(s: Partition)
    requires Inv(s) && s.phase.Delivering? && Record(s) + 1 in s.stored
    ensures Inv(Next(Acknowledge(s, Record(s))))
  {
    hide Below, NotBeyond, Representable;
    CommittedInv(s);
    NextInv(Committed(s));
    assert Next(Acknowledge(s, Record(s))) == Next(Committed(s));
  }

  lemma FetchInv(s: Partition, n: nat)
    requires Inv(s) && Enabled(s, FetchRecords(n))
    ensures Inv(Fetch(s, n))
  {
    hide Below, FirstAt;
    var first := FirstAt(s.records, s.position);
    BelowFirst(s.records, s.start, s.acked, s.position);
    var t := s.(position := s.records[first + n - 1] + 1, phase := Over);
    HandInv(t, first, n, 0);
    assert Fetch(s, n) == Hand(t, first, n, 0);
  }

  lemma SubmitInv(s: Partition, record: int)
    requires Inv(s) && record in s.delivered
    ensures Inv(Submit(s, record))
  {
    hide Below;
  }

  lemma ReturnsInv(s: Partition)
    requires Inv(s) && InHandler(s)
    ensures Inv(Returns(s))
  {
    hide Below, Next;
    SubmitInv(s, Record(s));
    var control := s.phase.stage.control;
    if s.current && control.committed {
      NextInv(s);
    } else if s.current && control.marked && !control.metadata {
      DoneInv(Submit(s, Record(s)));
    }
  }

  lemma SeekInv(s: Partition)
    requires Inv(s) && s.phase.Delivering? && s.phase.stage.Seeking?
    ensures Inv(s.(position := Record(s), phase := if s.current then Idle else Over))
  {
    hide Below;
    assert Record(s) in s.records;
  }

  /** The handler does something about the record in its hands. */
  lemma ControlInv(s: Partition, control: Control)
    requires Inv(s) && InHandler(s) && control.committed == s.phase.stage.control.committed
    requires control.requested ==> Record(s) + 1 in s.stored
    ensures Inv(WithControl(s, control))
  {
    hide Below;
  }

  lemma OverInv(s: Partition)
    requires Inv(s)
    ensures Inv(s.(phase := Over, current := false))
  {
    hide Below;
  }

  lemma RevokeInv(s: Partition)
    requires Inv(s)
    ensures Inv(Step(s, Revoke))
  {
    hide Below;
  }

  lemma StepKeeps(s: Partition, e: Event)
    requires Inv(s) && Enabled(s, e)
    ensures Inv(Step(s, e))
  {
    hide Below, NotBeyond, Fetch, Returns, Next, FirstAt, Marks, Ascending;
    match e
    case Produce(offset) => ProduceInv(s, offset);
    case FetchRecords(n) => FetchInv(s, n);
    case Mark(_) => ControlInv(s, s.phase.stage.control.(marked := true, metadata := e.metadata));
    case Commit =>
      SubmitInv(s, Record(s));
      ControlInv(Submit(s, Record(s)), s.phase.stage.control.(requested := true));
    case CommitSucceeds =>
      CommittedInv(s);
      ControlInv(Committed(s), s.phase.stage.control.(committed := true));
    case HandlerReturns => ReturnsInv(s);
    case HandlerThrows => OverInv(s);
    case CommitSettles(ok) =>
      if ok { DoneInv(s); } else { OverInv(s); }
    case SeekSettles(ok) => if ok { SeekInv(s); } else { OverInv(s); }
    case LateCommit(offset) => SubmitInv(s, offset);
    case Revoke => RevokeInv(s);
  }

  // ---- Over whole runs ----

  ghost predicate Leads(s: Partition, e: Event, t: Partition) {
    Shape(s) && Enabled(s, e) && t == Step(s, e)
  }

  ghost predicate Run(states: seq<Partition>, events: seq<Event>) {
    && |states| == |events| + 1 && states[0] == Initial(states[0].records, states[0].start)
    && Ascending(states[0].records)
    && (forall i :: 0 <= i < |events| ==> Leads(states[i], events[i], states[i + 1]))
  }

  lemma {:induction false} RunsKeepInv(states: seq<Partition>, events: seq<Event>, i: nat)
    requires Run(states, events) && i < |states|
    ensures Inv(states[i])
  {
    if i > 0 {
      RunsKeepInv(states, events, i - 1);
      assert Leads(states[i - 1], events[i - 1], states[i]);
      StepKeeps(states[i - 1], events[i - 1]);
      hide Inv, Step, Enabled;
    }
  }

  ghost predicate PrefixAcked(s: Partition, k: nat)
    requires k < |s.records|
  {
    && (forall a <- s.acked :: s.records[k] <= a ==> s.records[k] in s.acked)
    && (forall o <- s.stored :: o - 1 in s.delivered && (s.records[k] < o - 1 ==> s.records[k] in s.acked))
  }

  lemma InvPrefix(s: Partition, k: nat)
    requires Inv(s) && k < |s.records| && s.records[k] >= s.start
    ensures PrefixAcked(s, k)
  {
    forall a <- s.acked | s.records[k] <= a ensures s.records[k] in s.acked { assert AckedBelow(s, a); }
    forall o <- s.stored | s.records[k] < o - 1 ensures s.records[k] in s.acked { assert AckedBelow(s, o - 1); }
  }

  /** The acknowledged records of a lease are a prefix of its records. An offset that was stored or handed to a
      commit is that behind a record the handler was given, and every record before that one is acknowledged. */
  lemma NothingSkipped(states: seq<Partition>, events: seq<Event>, i: nat, k: nat)
    requires Run(states, events) && i < |states| && k < |states[i].records| && states[i].records[k] >= states[i].start
    ensures PrefixAcked(states[i], k)
  {
    RunsKeepInv(states, events, i);
    InvPrefix(states[i], k);
  }

  lemma OverStays(s: Partition, e: Event)
    requires Shape(s) && Enabled(s, e) && s.phase.Over?
    ensures var t := Step(s, e); t.phase.Over? && t.delivered == s.delivered && t.acked == s.acked
  {
    hide FirstAt;
  }

  lemma {:induction false} OverForGood(states: seq<Partition>, events: seq<Event>, i: nat, j: nat)
    requires Run(states, events) && i <= j < |states| && states[i].phase.Over?
    ensures var s, t := states[i], states[j]; t.phase.Over? && t.delivered == s.delivered && t.acked == s.acked
  {
    hide Step, Enabled;
    if i < j {
      OverForGood(states, events, i, j - 1);
      assert Leads(states[j - 1], events[j - 1], states[j]);
      OverStays(states[j - 1], events[j - 1]);
    }
  }

  /** Delivery stops at a record whose commit failed: it stays unacknowledged, and no handler is given a record
      from then on. */
  lemma FailedCommitStops(states: seq<Partition>, events: seq<Event>, i: nat, j: nat)
    requires Run(states, events) && i < j < |states| && events[i] == CommitSettles(false)
    ensures Shape(states[i]) && states[i].phase.Delivering? && Record(states[i]) !in states[j].acked
    ensures states[j].delivered == states[i].delivered && states[j].acked == states[i].acked
    ensures !states[j].current && states[j].phase.Over?
  {
    RunsKeepInv(states, events, i);
    assert Leads(states[i], events[i], states[i + 1]);
    OverForGood(states, events, i + 1, j);
    NotCurrentForGood(states, events, i + 1, j);
  }

  lemma {:induction false} NotCurrentForGood(states: seq<Partition>, events: seq<Event>, i: nat, j: nat)
    requires Run(states, events) && i <= j < |states| && !states[i].current
    ensures !states[j].current
  {
    if i < j {
      NotCurrentForGood(states, events, i, j - 1);
      assert Leads(states[j - 1], events[j - 1], states[j]);
    }
  }

  /** Whenever the partition is idle under a current lease the acknowledged records of the lease are exactly those
      below its position, so a fetch passes none that is not, and hands over none that is. */
  lemma IdleMeansAcknowledged(states: seq<Partition>, events: seq<Event>, i: nat, k: nat)
    requires Run(states, events) && i < |states| && states[i].phase.Idle?
    requires k < |states[i].records| && states[i].start <= states[i].records[k]
    ensures states[i].records[k] in states[i].acked <==> states[i].records[k] < states[i].position
  {
    RunsKeepInv(states, events, i);
  }

  /** A fetch hands over the first record at or after the position, which is not acknowledged, and everything of
      the lease before that record is. */
  lemma FetchPassesNothing(states: seq<Partition>, events: seq<Event>, i: nat, k: nat)
    requires Run(states, events) && i < |events| && events[i].FetchRecords? && InHandler(states[i + 1])
    requires k < |states[i].records| && states[i].start <= states[i].records[k]
    ensures Shape(states[i + 1]) && Record(states[i + 1]) >= states[i].position
    ensures Record(states[i + 1]) !in states[i].acked
    ensures states[i].records[k] < Record(states[i + 1]) ==>
      states[i].records[k] < states[i].position && states[i].records[k] in states[i].acked
  {
    RunsKeepInv(states, events, i);
    RunsKeepInv(states, events, i + 1);
    assert Leads(states[i], events[i], states[i + 1]);
  }

  /** The delivery ended on record `r`, which was not acknowledged: the seek back is under way, or done, or the
      lease is over. */
  ghost predicate BackAt(s: Partition, r: int) {
    match s.phase
    case Delivering(first, _, index, stage) => stage.Seeking? && first + index < |s.records|
      && s.records[first + index] == r
    case Idle => s.position == r && r in s.records
    case Over => true
  }

  lemma StepBack(s: Partition, e: Event, r: int)
    requires Inv(s) && Enabled(s, e) && BackAt(s, r) && !e.FetchRecords?
    ensures BackAt(Step(s, e), r)
  {
    hide Below, FirstAt;
  }

  /** In every run: after a handler returned from a record without acknowledging it, under a current lease, the
      position is back at that record when the partition is idle again. */
  lemma {:induction false} UnmarkedSeeksBack(states: seq<Partition>, events: seq<Event>, i: nat, j: nat)
    requires Run(states, events) && i < j < |states| && events[i] == HandlerReturns && LeftAlone(states[i])
    requires forall k :: i < k < j ==> !events[k].FetchRecords?
    ensures Shape(states[i]) && BackAt(states[j], Record(states[i]))
  {
    hide Inv, Step, BackAt, Enabled;
    RunsKeepInv(states, events, i);
    assert Leads(states[i], events[i], states[i + 1]);
    if i + 1 < j {
      UnmarkedSeeksBack(states, events, i, j - 1);
      RunsKeepInv(states, events, j - 1);
      assert Leads(states[j - 1], events[j - 1], states[j]);
      StepBack(states[j - 1], events[j - 1], Record(states[i]));
    } else {
      TurnsBack(states[i]);
    }
  }

  lemma TurnsBack(s: Partition)
    requires Inv(s) && Shape(s) && Enabled(s, HandlerReturns) && LeftAlone(s)
    ensures BackAt(Step(s, HandlerReturns), Record(s))
  {
    hide Below, FirstAt;
  }

  /** The handler of a current lease has neither marked nor committed its record. */
  ghost predicate LeftAlone(s: Partition) {
    InHandler(s) && s.current && !s.phase.stage.control.marked && !s.phase.stage.control.committed
  }

  /** So the next fetch hands the very same record over again. */
  lemma UnmarkedComesAgain(states: seq<Partition>, events: seq<Event>, i: nat, j: nat)
    requires Run(states, events) && i < j < |events| && events[i] == HandlerReturns && LeftAlone(states[i])
    requires events[j].FetchRecords? && forall k :: i < k < j ==> !events[k].FetchRecords?
    ensures Shape(states[i]) && Shape(states[j + 1]) && InHandler(states[j + 1])
      && Record(states[j + 1]) == Record(states[i])
  {
    UnmarkedSeeksBack(states, events, i, j);
    RunsKeepInv(states, events, i);
    RunsKeepInv(states, events, j);
    assert Leads(states[j], events[j], states[j + 1]);
    BackIsFirst(states[j], events[j].n, Record(states[i]));
  }

  lemma BackIsFirst(s: Partition, n: nat, r: int)
    requires Inv(s) && Enabled(s, FetchRecords(n)) && BackAt(s, r) && Representable(r)
    ensures var t := Fetch(s, n); Shape(t) && InHandler(t) && Record(t) == r
  {
    var k :| 0 <= k < |s.records| && s.records[k] == r;
    assert FirstAt(s.records, r) == k;
  }
}
