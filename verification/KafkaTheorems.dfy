/** What holds over every interleaving of rebalances, failures and restorations. */
module KafkaTheorems {
  import opened Base
  import opened KafkaLeases

  ghost predicate Leads(s: Consumer, e: Event, t: Consumer) {
    Enabled(s, e) && t == Step(s, e)
  }

  ghost predicate Run(states: seq<Consumer>, events: seq<Event>) {
    && |states| == |events| + 1 && (exists restoring :: states[0] == Initial(restoring))
    && (forall i :: 0 <= i < |events| ==> Leads(states[i], events[i], states[i + 1]))
  }

  lemma {:induction false} RunsKeepInv(states: seq<Consumer>, events: seq<Event>, i: nat)
    requires Run(states, events) && i < |states|
    ensures Inv(states[i])
  {
    if i > 0 {
      RunsKeepInv(states, events, i - 1);
      assert Leads(states[i - 1], events[i - 1], states[i]);
      StepKeeps(states[i - 1], events[i - 1]);
      hide Inv, Step, Enabled;
    }
  }

  /** Every installed lease is of the newest generation and not aborted. */
  lemma InstalledIsNewest(states: seq<Consumer>, events: seq<Event>, i: nat, p: int)
    requires Run(states, events) && i < |states| && p in states[i].assignments
    ensures var s := states[i]; var l := s.assignments[p];
      l < |s.leases| && s.leases[l] == Lease(p, s.generation, false) && !s.failed
  {
    RunsKeepInv(states, events, i);
    assert LeaseOk(states[i], p);
  }

  /** A restoration that was installed read every one of its partitions from the checkpoint, inside the log
      the broker retained, or, with no checkpoint to restore, from where the group stands. */
  lemma InstalledAtCheckpoint(states: seq<Consumer>, events: seq<Event>, i: nat, r: nat, k: nat)
    requires Run(states, events) && i < |states| && r < |states[i].restorations|
    requires states[i].restorations[r].phase.Installed? && k < |states[i].restorations[r].partitions|
    ensures var it := states[i].restorations[r];
      && k < |it.positions| && it.offsets.Some? == states[i].restoring && it.partitions[k].ours
      && (if states[i].restoring then
            && it.partitions[k].partition in it.offsets.value && it.positions[k].At?
            && it.positions[k].offset == it.offsets.value[it.partitions[k].partition]
            && it.positions[k].bounds.low <= it.positions[k].offset <= it.positions[k].bounds.high
          else it.positions[k] == Default)
  {
    RunsKeepInv(states, events, i);
    assert RestorationOk(states[i], states[i].restorations[r]);
    assert PositionOk(states[i].restorations[r], k);
  }

  /** The restoration an event concerns. */
  function Concerns(e: Event): Option<nat> {
    match e
    case ReadCheckpoint(r, _, _) => Some(r)
    case KnowBounds(r, _) => Some(r)
    case SettleCommits(r, _) => Some(r)
    case _ => None
  }

  /** A superseded restoration installs nothing and breaks nothing: it leaves all but itself alone. */
  lemma SupersededDoesNothing(s: Consumer, e: Event)
    requires Enabled(s, e) && Concerns(e).Some? && s.restorations[Concerns(e).value].generation != s.generation
    ensures Step(s, e) == s.(restorations := Step(s, e).restorations)
  {
    hide Invalidate, Leased;
  }

  /** The restoration with the position of one more partition. */
  function Known(it: Restoration, bounds: Bounds): Restoration
    requires AwaitsBounds(it)
  {
    it.(positions := it.positions + [At(it.offsets.value[it.partitions[it.phase.next].partition], bounds)])
  }

  /** A restoration of an older generation that was not installed. */
  ghost predicate Superseded(s: Consumer, r: nat) {
    r < |s.restorations| && s.restorations[r].generation < s.generation && !s.restorations[r].phase.Installed?
  }

  lemma InvalidateSuperseded(s: Consumer, q: nat)
    requires Superseded(s, q)
    ensures Superseded(Invalidate(s), q) && Superseded(Fail(s), q) && Superseded(Fail(Invalidate(s)), q)
  {}

  lemma AssignSuperseded(s: Consumer, partitions: seq<TopicPartition>, q: nat)
    requires Superseded(s, q)
    ensures Superseded(Assign(s, partitions), q)
  {}

  lemma ThrowsSuperseded(s: Consumer, r: nat, it: Restoration, q: nat)
    requires r < |s.restorations| && it.generation == s.restorations[r].generation && Superseded(s, q)
    ensures Superseded(Put(s, r, it.(phase := Dropped)), q) && Superseded(Throws(s, r, it), q)
  {
    hide Invalidate;
    InvalidateSuperseded(Put(s, r, it.(phase := Dropped)), q);
  }

  lemma ContinueSuperseded(s: Consumer, r: nat, it: Restoration, k: nat, q: nat)
    requires r < |s.restorations| && it.generation == s.restorations[r].generation && k <= |it.partitions|
    requires Superseded(s, q)
    ensures Superseded(Continue(s, r, it, k), q)
  {
    hide Throws, Foreign;
    ThrowsSuperseded(s, r, it, q);
  }

  lemma StepSuperseded(s: Consumer, e: Event, q: nat)
    requires Enabled(s, e) && Superseded(s, q)
    ensures Superseded(Step(s, e), q)
  {
    hide Invalidate, Throws, Continue, Leased;
    InvalidateSuperseded(s, q);
    match e
    case ReadCheckpoint(r, _, offsets) =>
      ThrowsSuperseded(s, r, s.restorations[r], q);
      ContinueSuperseded(s, r, s.restorations[r].(offsets := offsets), 0, q);
    case KnowBounds(r, bounds) =>
      ThrowsSuperseded(s, r, s.restorations[r], q);
      if bounds.Some? {
        ContinueSuperseded(s, r, Known(s.restorations[r], bounds.value), s.restorations[r].phase.next + 1, q);
      }
    case SettleCommits(r, _) => ThrowsSuperseded(s, r, s.restorations[r], q);
    case AssignPartitions(partitions) => AssignSuperseded(s, partitions, q);
    case Disconnect => InvalidateSuperseded(s.(stopping := true), q);
    case _ =>
  }

  lemma NoneNewer(s: Consumer, r: nat)
    requires Inv(s) && r < |s.restorations|
    ensures s.restorations[r].generation <= s.generation
  {
    assert RestorationOk(s, s.restorations[r]);
  }

  /** Once superseded, a restoration is never installed. */
  lemma {:induction false} SupersededForGood(states: seq<Consumer>, events: seq<Event>, i: nat, j: nat, r: nat)
    requires Run(states, events) && i <= j < |states| && r < |states[i].restorations|
    requires states[i].restorations[r].generation != states[i].generation && !states[i].restorations[r].phase.Installed?
    ensures r < |states[j].restorations| && !states[j].restorations[r].phase.Installed?
    ensures Superseded(states[j], r)
  {
    hide Step, Enabled, Inv;
    if i == j {
      RunsKeepInv(states, events, i);
      NoneNewer(states[i], r);
    } else {
      SupersededForGood(states, events, i, j - 1, r);
      assert Leads(states[j - 1], events[j - 1], states[j]);
      StepSuperseded(states[j - 1], events[j - 1], r);
    }
  }

  lemma InvalidateCount(s: Consumer)
    ensures |Invalidate(s).leases| == |Fail(s).leases| == |Fail(Invalidate(s)).leases| == |s.leases|
  {}

  lemma ContinueCount(s: Consumer, r: nat, it: Restoration, k: nat)
    requires r < |s.restorations| && k <= |it.partitions|
    ensures |Throws(s, r, it).leases| == |Continue(s, r, it, k).leases| == |s.leases|
  {
    InvalidateCount(Put(s, r, it.(phase := Dropped)));
    hide Invalidate;
  }

  /** New leases are installed by the last step of a restoration that is alive, and by nothing else. */
  lemma InstallsIff(s: Consumer, e: Event)
    requires Enabled(s, e)
    ensures |Step(s, e).leases| > |s.leases| <==>
      && e.SettleCommits? && e.assigns && Alive(s, s.restorations[e.restoration])
      && s.restorations[e.restoration].partitions != []
  {
    hide Leased, Invalidate, Throws, Continue;
    InvalidateCount(s);
    match e
    case ReadCheckpoint(r, _, offsets) =>
      ContinueCount(s, r, s.restorations[r], 0);
      ContinueCount(s, r, s.restorations[r].(offsets := offsets), 0);
    case KnowBounds(r, bounds) =>
      ContinueCount(s, r, s.restorations[r], 0);
      if bounds.Some? { ContinueCount(s, r, Known(s.restorations[r], bounds.value), s.restorations[r].phase.next + 1); }
    case SettleCommits(r, _) => ContinueCount(s, r, s.restorations[r], 0);
    case Disconnect => InvalidateCount(s.(stopping := true));
    case _ =>
  }

  /** How leases evolve: they are never forgotten, never unaborted and never installed a second time. */
  ghost predicate Evolves(s: Consumer, t: Consumer) {
    && |s.leases| <= |t.leases| && (s.failed ==> t.failed) && (s.cancelled ==> t.cancelled)
    && (forall l :: 0 <= l < |s.leases| && s.leases[l].aborted ==> t.leases[l].aborted)
    && (forall p <- t.assignments ::
        t.assignments[p] >= |s.leases| || (p in s.assignments && s.assignments[p] == t.assignments[p]))
  }

  lemma InvalidateEvolves(s: Consumer)
    ensures Evolves(s, Invalidate(s)) && Evolves(s, Fail(s)) && Evolves(s, Fail(Invalidate(s)))
  {}

  lemma ContinueEvolves(s: Consumer, r: nat, it: Restoration, k: nat)
    requires r < |s.restorations| && k <= |it.partitions|
    ensures Evolves(s, Throws(s, r, it)) && Evolves(s, Continue(s, r, it, k))
  {
    hide Invalidate, Foreign;
    InvalidateEvolves(Put(s, r, it.(phase := Dropped)));
    var failed := Fail(Put(s, r, it.(phase := Dropped)));
    assert Evolves(s, failed);
    assert Continue(s, r, it, k) == failed || Evolves(s, Continue(s, r, it, k));
  }

  lemma StepEvolves(s: Consumer, e: Event)
    requires Enabled(s, e)
    ensures Evolves(s, Step(s, e))
  {
    hide Invalidate, Throws, Continue, Leased;
    InvalidateEvolves(s);
    match e
    case ReadCheckpoint(r, _, offsets) =>
      ContinueEvolves(s, r, s.restorations[r], 0);
      ContinueEvolves(s, r, s.restorations[r].(offsets := offsets), 0);
    case KnowBounds(r, bounds) =>
      ContinueEvolves(s, r, s.restorations[r], 0);
      if bounds.Some? {
        ContinueEvolves(s, r, Known(s.restorations[r], bounds.value), s.restorations[r].phase.next + 1);
      }
    case SettleCommits(r, _) => ContinueEvolves(s, r, s.restorations[r], 0);
    case Disconnect => InvalidateEvolves(s.(stopping := true));
    case _ =>
  }

  ghost predicate Gone(s: Consumer, lease: nat) {
    lease < |s.leases| && forall p :: !Current(s, p, lease)
  }

  lemma GoneStays(s: Consumer, t: Consumer, lease: nat)
    requires Evolves(s, t) && Gone(s, lease)
    ensures Gone(t, lease)
  {
    forall p ensures !Current(t, p, lease) {
      assert !Current(s, p, lease);
    }
  }

  /** A lease that has stopped being current never becomes current again. */
  lemma {:induction false} NeverCurrentAgain(states: seq<Consumer>, events: seq<Event>, i: nat, j: nat, lease: nat)
    requires Run(states, events) && i <= j < |states| && Gone(states[i], lease)
    ensures Gone(states[j], lease)
  {
    hide Step, Enabled, Gone;
    if i < j {
      NeverCurrentAgain(states, events, i, j - 1, lease);
      assert Leads(states[j - 1], events[j - 1], states[j]);
      StepEvolves(states[j - 1], events[j - 1]);
      GoneStays(states[j - 1], states[j], lease);
    }
  }
}
