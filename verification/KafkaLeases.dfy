/** Rebalances, checkpoint restorations and partition leases of the native Kafka consumer, as a state
    machine whose steps are the stretches of code between two awaits. A lease is known by its number. */
module KafkaLeases {
  import opened Base

  /** One `NativeAssignment`. `generation` is history: the one it was installed in. */
  datatype Lease = Lease(partition: int, generation: nat, aborted: bool)

  /** The bounds of a partition's retained log, as the broker reports them. */
  datatype Bounds = Bounds(low: int, high: int)

  /** Where a partition is to be read from: as the group has it, or at a checkpoint's offset, which lay in
      the retained log. */
  datatype Position = Default | At(offset: int, bounds: Bounds)

  datatype Phase = Reading | Checking(next: nat) | Settling | Installed | Dropped

  /** A partition a rebalance assigns; `ours` says whether it belongs to the subscribed topic. */
  datatype TopicPartition = TopicPartition(ours: bool, partition: int)

  /** A call of `restoreAssignment`: the checkpoint it read and the positions it has settled so far. */
  datatype Restoration = Restoration(generation: nat, partitions: seq<TopicPartition>, offsets: Option<map<int, int>>,
                                     positions: seq<Position>, phase: Phase)

  datatype Consumer = Consumer(generation: nat, assignments: map<int, nat>, leases: seq<Lease>,
                               restorations: seq<Restoration>, restoring: bool,
                               failed: bool, stopping: bool, cancelled: bool)

  /** `restoring` says whether the checkpoint provider is in recovery mode. */
  function Initial(restoring: bool): Consumer {
    Consumer(0, map[], [], [], restoring, false, false, false)
  }

  function Aborted(leases: seq<Lease>, gone: set<nat>): (r: seq<Lease>)
    ensures |r| == |leases|
    ensures forall l :: 0 <= l < |leases| ==> r[l] == if l in gone then leases[l].(aborted := true) else leases[l]
  {
    seq(|leases|, l requires 0 <= l < |leases| => if l in gone then leases[l].(aborted := true) else leases[l])
  }

  function Invalidate(s: Consumer): Consumer {
    s.(generation := s.generation + 1, assignments := map[], leases := Aborted(s.leases, s.assignments.Values))
  }

  function Fail(s: Consumer): Consumer {
    Invalidate(s.(failed := true))
  }

  function Revoke(s: Consumer, unassigns: bool): Consumer {
    if unassigns then Invalidate(s) else Fail(Invalidate(s))
  }

  function Assign(s: Consumer, partitions: seq<TopicPartition>): Consumer {
    var t := Invalidate(s);
    t.(restorations := s.restorations + [Restoration(t.generation, partitions, None, [], Reading)])
  }

  /** The check the restoration repeats after every await. */
  predicate Alive(s: Consumer, r: Restoration) {
    r.generation == s.generation && !s.stopping && !s.failed && !s.cancelled
  }

  function Put(s: Consumer, r: nat, restoration: Restoration): Consumer
    requires r < |s.restorations|
  {
    s.(restorations := s.restorations[r := restoration])
  }

  /** The `catch` of a restoration that threw: only the newest one fails the consumer. */
  function Throws(s: Consumer, r: nat, it: Restoration): Consumer
    requires r < |s.restorations|
  {
    var dropped := Put(s, r, it.(phase := Dropped));
    if it.generation != s.generation || s.stopping then dropped else Fail(dropped)
  }

  /** A partition from the k-th on belongs to another topic. */
  predicate Foreign(partitions: seq<TopicPartition>, k: nat) {
    exists i :: k <= i < |partitions| && !partitions[i].ours
  }

  /** The loop over the partitions of restoration `it` goes on from the k-th until it has to wait. */
  function Continue(s: Consumer, r: nat, it: Restoration, k: nat): Consumer
    requires r < |s.restorations| && k <= |it.partitions|
  {
    if !Alive(s, it) then Put(s, r, it.(phase := Dropped))
    else if it.offsets.None? then
      if Foreign(it.partitions, k) then Throws(s, r, it)
      else Put(s, r, it.(phase := Settling, positions := seq(|it.partitions|, _ => Default)))
    else if k == |it.partitions| then Put(s, r, it.(phase := Settling))
    else if !it.partitions[k].ours || it.partitions[k].partition !in it.offsets.value then Throws(s, r, it)
    else Put(s, r, it.(phase := Checking(k)))
  }

  /** The provider answered; `readable` is false if it threw or its answer is malformed. */
  function CheckpointRead(s: Consumer, r: nat, readable: bool, offsets: Option<map<int, int>>): Consumer
    requires r < |s.restorations|
  {
    if !readable || offsets.Some? != s.restoring then Throws(s, r, s.restorations[r])
    else Continue(s, r, s.restorations[r].(offsets := offsets), 0)
  }

  predicate Retained(offset: int, bounds: Bounds) {
    0 <= bounds.low <= offset <= bounds.high
  }

  /** A restoration asked for the bounds of a partition its checkpoint covers. */
  predicate AwaitsBounds(it: Restoration) {
    && it.phase.Checking? && it.phase.next < |it.partitions| && it.offsets.Some?
    && it.partitions[it.phase.next].partition in it.offsets.value
  }

  function BoundsKnown(s: Consumer, r: nat, bounds: Option<Bounds>): Consumer
    requires r < |s.restorations| && AwaitsBounds(s.restorations[r])
  {
    var it := s.restorations[r];
    var offset := it.offsets.value[it.partitions[it.phase.next].partition];
    if bounds.None? || !Retained(offset, bounds.value) then Throws(s, r, it)
    else Continue(s, r, it.(positions := it.positions + [At(offset, bounds.value)]), it.phase.next + 1)
  }

  /** New leases for a list of partitions, one after the other. */
  function Leased(s: Consumer, partitions: seq<TopicPartition>): (t: Consumer)
    ensures t == s.(assignments := t.assignments, leases := t.leases) && |t.leases| == |s.leases| + |partitions|
    ensures forall l :: 0 <= l < |s.leases| ==> t.leases[l] == s.leases[l]
    ensures forall p <- t.assignments ::
      |s.leases| <= t.assignments[p] || (p in s.assignments && s.assignments[p] == t.assignments[p])
    decreases |partitions|
  {
    if partitions == [] then s
    else
      var p := partitions[0].partition;
      Leased(s.(assignments := s.assignments[p := |s.leases|], leases := s.leases + [Lease(p, s.generation, false)]),
             partitions[1..])
  }

  /** The pending commits settled; `assigns` says whether the native `assign` succeeds. */
  function CommitsSettled(s: Consumer, r: nat, assigns: bool): Consumer
    requires r < |s.restorations|
  {
    var it := s.restorations[r];
    if !Alive(s, it) then Put(s, r, it.(phase := Dropped))
    else if !assigns then Throws(s, r, it)
    else Leased(Put(s, r, it.(phase := Installed)), it.partitions)
  }

  predicate Current(s: Consumer, partition: int, lease: nat) {
    && !s.failed && !s.cancelled && lease < |s.leases| && !s.leases[lease].aborted
    && partition in s.assignments && s.assignments[partition] == lease
  }

  datatype Event =
    | RevokePartitions(unassigns: bool) | RebalanceError | AssignPartitions(partitions: seq<TopicPartition>)
    | ReadCheckpoint(restoration: nat, readable: bool, offsets: Option<map<int, int>>)
    | KnowBounds(restoration: nat, bounds: Option<Bounds>)
    | SettleCommits(restoration: nat, assigns: bool)
    | Failure | CancelContext | Stop | Disconnect | ConsumeEnds

  predicate Enabled(s: Consumer, e: Event) {
    match e
    case ReadCheckpoint(r, _, _) => r < |s.restorations| && s.restorations[r].phase.Reading?
    case KnowBounds(r, _) => r < |s.restorations| && AwaitsBounds(s.restorations[r])
    case SettleCommits(r, _) => r < |s.restorations| && s.restorations[r].phase.Settling?
    case ConsumeEnds => s.failed || s.cancelled
    case _ => true
  }

  function Step(s: Consumer, e: Event): Consumer
    requires Enabled(s, e)
  {
    match e
    case RevokePartitions(unassigns) => Revoke(s, unassigns)
    case RebalanceError => Fail(Invalidate(s))
    case AssignPartitions(partitions) => Assign(s, partitions)
    case ReadCheckpoint(r, readable, offsets) => CheckpointRead(s, r, readable, offsets)
    case KnowBounds(r, bounds) => BoundsKnown(s, r, bounds)
    case SettleCommits(r, assigns) => CommitsSettled(s, r, assigns)
    case Failure => Fail(s)
    case CancelContext => s.(cancelled := true)
    case Stop => s.(stopping := true)
    case Disconnect => Invalidate(s.(stopping := true))
    case ConsumeEnds => Invalidate(s)
  }

  // ---- What every step keeps ----

  ghost predicate LeaseOk(s: Consumer, p: int) {
    p in s.assignments ==>
      && s.assignments[p] < |s.leases| && !s.leases[s.assignments[p]].aborted
      && s.leases[s.assignments[p]].partition == p && s.leases[s.assignments[p]].generation == s.generation
  }

  predicate Under(r: Restoration) {
    !r.phase.Installed? && !r.phase.Dropped?
  }

  ghost predicate PositionOk(r: Restoration, i: nat)
    requires i < |r.positions| && i < |r.partitions|
  {
    r.partitions[i].ours &&
    match r.offsets
    case None => r.positions[i] == Default
    case Some(offsets) =>
      && r.partitions[i].partition in offsets && r.positions[i].At?
      && r.positions[i].offset == offsets[r.partitions[i].partition]
      && Retained(r.positions[i].offset, r.positions[i].bounds)
  }

  /** The positions settled so far are those of the checkpoint. */
  ghost predicate Settled(r: Restoration) {
    |r.positions| <= |r.partitions| && forall i :: 0 <= i < |r.positions| ==> PositionOk(r, i)
  }

  ghost predicate PositionsOk(r: Restoration) {
    && Settled(r)
    && (r.phase.Reading? ==> r.positions == [])
    && (r.phase.Checking? ==> AwaitsBounds(r) && r.phase.next == |r.positions| && r.partitions[r.phase.next].ours)
    && (r.phase.Settling? || r.phase.Installed? ==> |r.positions| == |r.partitions|)
  }

  ghost predicate RestorationOk(s: Consumer, r: Restoration) {
    && r.generation <= s.generation && PositionsOk(r)
    && (Under(r) && r.generation == s.generation ==> s.assignments == map[])
    && (r.phase.Checking? || r.phase.Settling? || r.phase.Installed? ==> r.offsets.Some? == s.restoring)
  }

  ghost predicate Inv(s: Consumer) {
    && (forall p <- s.assignments :: LeaseOk(s, p))
    && (forall l :: 0 <= l < |s.leases| ==> s.leases[l].generation <= s.generation)
    && (forall r :: 0 <= r < |s.restorations| ==> RestorationOk(s, s.restorations[r]))
    && (forall r, q :: 0 <= r < q < |s.restorations| ==> s.restorations[r].generation != s.restorations[q].generation)
    && (s.failed ==> s.assignments == map[])
  }

  lemma InvalidateInv(s: Consumer)
    requires Inv(s)
    ensures Inv(Invalidate(s)) && Inv(Fail(s))
  {
    forall r | 0 <= r < |s.restorations|
      ensures RestorationOk(Invalidate(s), s.restorations[r]) && RestorationOk(Fail(s), s.restorations[r])
    {
      assert RestorationOk(s, s.restorations[r]);
    }
    hide PositionsOk;
  }

  lemma AssignInv(s: Consumer, partitions: seq<TopicPartition>)
    requires Inv(s)
    ensures Inv(Assign(s, partitions))
  {
    var t := Assign(s, partitions);
    forall r | 0 <= r < |t.restorations|
      ensures RestorationOk(t, t.restorations[r])
        && (r < |s.restorations| ==> t.restorations[r].generation < t.generation)
    {
      if r < |s.restorations| { assert RestorationOk(s, s.restorations[r]); }
    }
    hide RestorationOk;
  }

  lemma PutInv(s: Consumer, r: nat, it: Restoration)
    requires Inv(s) && r < |s.restorations| && it.generation == s.restorations[r].generation && RestorationOk(s, it)
    ensures Inv(Put(s, r, it))
  {
    var t := Put(s, r, it);
    forall q | 0 <= q < |t.restorations| ensures RestorationOk(t, t.restorations[q]) {
      assert RestorationOk(s, s.restorations[q]);
    }
    hide PositionsOk;
  }

  /** A restoration that `it` may become. */
  ghost predicate Becomes(s: Consumer, r: nat, it: Restoration) {
    && r < |s.restorations| && it.generation == s.restorations[r].generation && Settled(it)
    && Under(s.restorations[r])
  }

  lemma DroppedInv(s: Consumer, r: nat, it: Restoration)
    requires Inv(s) && Becomes(s, r, it)
    ensures Inv(Put(s, r, it.(phase := Dropped))) && Inv(Throws(s, r, it))
  {
    assert RestorationOk(s, s.restorations[r]);
    assert Settled(it.(phase := Dropped)) by { SettledPhase(it, Dropped); }
    hide Settled;
    PutInv(s, r, it.(phase := Dropped));
    InvalidateInv(Put(s, r, it.(phase := Dropped)));
    hide Inv, Invalidate, Put;
  }

  lemma SettledPhase(it: Restoration, phase: Phase)
    requires Settled(it)
    ensures Settled(it.(phase := phase))
  {
    forall i | 0 <= i < |it.positions| ensures PositionOk(it.(phase := phase), i) { assert PositionOk(it, i); }
  }

  lemma MovesOnInv(s: Consumer, r: nat, it: Restoration, phase: Phase)
    requires Inv(s) && Becomes(s, r, it) && PositionsOk(it.(phase := phase)) && it.offsets.Some? == s.restoring
    ensures Inv(Put(s, r, it.(phase := phase)))
  {
    assert RestorationOk(s, s.restorations[r]);
    hide PositionsOk;
    PutInv(s, r, it.(phase := phase));
  }

  lemma DefaultsOk(it: Restoration)
    requires it.offsets.None? && !Foreign(it.partitions, 0)
    ensures Settled(it.(positions := seq(|it.partitions|, _ => Default)))
  {
    var all := it.(positions := seq(|it.partitions|, _ => Default));
    forall i | 0 <= i < |all.positions| ensures PositionOk(all, i) { assert it.partitions[i].ours; }
  }

  lemma ContinueInv(s: Consumer, r: nat, it: Restoration, k: nat)
    requires Inv(s) && Becomes(s, r, it) && k <= |it.partitions| && it.offsets.Some? == s.restoring
    requires if it.offsets.Some? then |it.positions| == k else k == 0
    ensures Inv(Continue(s, r, it, k))
  {
    hide Inv, Throws, Put, Settled, Foreign;
    DroppedInv(s, r, it);
    if Alive(s, it) {
      if it.offsets.None? {
        if !Foreign(it.partitions, 0) {
          DefaultsOk(it);
          var all := it.(positions := seq(|it.partitions|, _ => Default));
          SettledPhase(all, Settling);
          MovesOnInv(s, r, all, Settling);
        }
      } else if k == |it.partitions| {
        SettledPhase(it, Settling);
        MovesOnInv(s, r, it, Settling);
      } else if it.partitions[k].ours && it.partitions[k].partition in it.offsets.value {
        SettledPhase(it, Checking(k));
        MovesOnInv(s, r, it, Checking(k));
      }
    }
  }

  lemma CheckpointReadInv(s: Consumer, r: nat, readable: bool, offsets: Option<map<int, int>>)
    requires Inv(s) && r < |s.restorations| && s.restorations[r].phase.Reading?
    ensures Inv(CheckpointRead(s, r, readable, offsets))
  {
    var it := s.restorations[r];
    assert RestorationOk(s, it);
    hide Inv, Throws, Continue;
    DroppedInv(s, r, it);
    if offsets.Some? == s.restoring { ContinueInv(s, r, it.(offsets := offsets), 0); }
  }

  lemma OneMore(it: Restoration, position: Position)
    requires Settled(it) && AwaitsBounds(it) && |it.positions| == it.phase.next && it.partitions[it.phase.next].ours
    requires position.At? && position.offset == it.offsets.value[it.partitions[it.phase.next].partition]
    requires Retained(position.offset, position.bounds)
    ensures Settled(it.(positions := it.positions + [position]))
  {
    var more := it.(positions := it.positions + [position]);
    forall i | 0 <= i < |more.positions| ensures PositionOk(more, i) {
      if i < |it.positions| { assert PositionOk(it, i); }
    }
  }

  lemma BoundsKnownInv(s: Consumer, r: nat, bounds: Option<Bounds>)
    requires Inv(s) && r < |s.restorations| && AwaitsBounds(s.restorations[r])
    ensures Inv(BoundsKnown(s, r, bounds))
  {
    var it := s.restorations[r];
    assert RestorationOk(s, it);
    hide Inv, Throws, Continue, Settled;
    DroppedInv(s, r, it);
    var offset := it.offsets.value[it.partitions[it.phase.next].partition];
    if bounds.Some? && Retained(offset, bounds.value) {
      OneMore(it, At(offset, bounds.value));
      ContinueInv(s, r, it.(positions := it.positions + [At(offset, bounds.value)]), it.phase.next + 1);
    }
  }

  lemma {:induction false} LeasedInv(s: Consumer, partitions: seq<TopicPartition>)
    requires Inv(s) && !s.failed && forall r ::
      0 <= r < |s.restorations| && Under(s.restorations[r]) ==> s.restorations[r].generation != s.generation
    ensures Inv(Leased(s, partitions))
    decreases |partitions|
  {
    if partitions != [] {
      var p := partitions[0].partition;
      var t := s.(assignments := s.assignments[p := |s.leases|], leases := s.leases + [Lease(p, s.generation, false)]);
      forall r | 0 <= r < |t.restorations|
        ensures RestorationOk(t, t.restorations[r])
      {
        assert RestorationOk(s, s.restorations[r]);
      }
      forall q <- t.assignments ensures LeaseOk(t, q) { if q != p { assert LeaseOk(s, q); } }
      LeasedInv(t, partitions[1..]);
    }
  }

  lemma CommitsSettledInv(s: Consumer, r: nat, assigns: bool)
    requires Inv(s) && r < |s.restorations| && s.restorations[r].phase.Settling?
    ensures Inv(CommitsSettled(s, r, assigns))
  {
    var it := s.restorations[r];
    assert RestorationOk(s, it);
    DroppedInv(s, r, it);
    if Alive(s, it) && assigns {
      SettledPhase(it, Installed);
      MovesOnInv(s, r, it, Installed);
      var t := Put(s, r, it.(phase := Installed));
      assert forall q ::
        0 <= q < |t.restorations| && Under(t.restorations[q]) ==> t.restorations[q].generation != t.generation;
      LeasedInv(t, it.partitions);
    }
    hide RestorationOk, Throws, Leased;
  }

  lemma EnvironmentInv(s: Consumer, t: Consumer)
    requires Inv(s) && t == s.(cancelled := t.cancelled, stopping := t.stopping)
    ensures Inv(t)
  {
    forall r | 0 <= r < |t.restorations|
      ensures RestorationOk(t, t.restorations[r])
    {
      assert RestorationOk(s, s.restorations[r]);
    }
    forall p <- t.assignments ensures LeaseOk(t, p) { assert LeaseOk(s, p); }
    hide PositionsOk;
  }

  lemma StepKeeps(s: Consumer, e: Event)
    requires Inv(s) && Enabled(s, e)
    ensures Inv(Step(s, e))
  {
    hide Inv;
    match e
    case RevokePartitions(_) =>
      InvalidateInv(s);
      InvalidateInv(Invalidate(s));
    case RebalanceError =>
      InvalidateInv(s);
      InvalidateInv(Invalidate(s));
    case AssignPartitions(partitions) => AssignInv(s, partitions);
    case ReadCheckpoint(r, readable, offsets) => CheckpointReadInv(s, r, readable, offsets);
    case KnowBounds(r, bounds) => BoundsKnownInv(s, r, bounds);
    case SettleCommits(r, assigns) => CommitsSettledInv(s, r, assigns);
    case Failure => InvalidateInv(s);
    case CancelContext => EnvironmentInv(s, Step(s, e));
    case Stop => EnvironmentInv(s, Step(s, e));
    case Disconnect =>
      EnvironmentInv(s, s.(stopping := true));
      InvalidateInv(s.(stopping := true));
    case ConsumeEnds => InvalidateInv(s);
  }
}
