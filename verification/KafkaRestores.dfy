/** How a restoration of the consumer's assignment ends, and what moves its leases and flags: told over the runs. */
module KafkaRestores {
  import opened Base
  import opened KafkaLeases
  import opened KafkaTheorems

  /** The restoration cannot go on with its partitions from the k-th: one belongs to another topic or is not covered by
      the checkpoint. Without a checkpoint all of them are looked at in one go. */
  ghost predicate Stuck(it: Restoration, offsets: Option<map<int, int>>, k: nat) {
    match offsets
    case None => exists i :: k <= i < |it.partitions| && !it.partitions[i].ours
    case Some(covered) =>
      k < |it.partitions| && !(it.partitions[k].ours && it.partitions[k].partition in covered)
  }

  /** The offset the checkpoint has for the partition whose bounds were asked for. */
  function Asked(it: Restoration): int
    requires AwaitsBounds(it)
  {
    it.offsets.value[it.partitions[it.phase.next].partition]
  }

  /** The step makes the restoration throw: its checkpoint is unreadable or of another mode, a partition is foreign, not
      covered, or no longer retained from its offset, or the assignment fails. */
  ghost predicate Fails(s: Consumer, e: Event)
    requires Enabled(s, e)
  {
    match e
    case ReadCheckpoint(r, readable, offsets) =>
      var it := s.restorations[r];
      !readable || offsets.Some? != s.restoring || (Alive(s, it) && Stuck(it, offsets, 0))
    case KnowBounds(r, bounds) =>
      var it := s.restorations[r];
      bounds.None? || !(0 <= bounds.value.low <= Asked(it) <= bounds.value.high)
      || (Alive(s, it) && Stuck(it, it.offsets, it.phase.next + 1))
    case SettleCommits(r, assigns) => Alive(s, s.restorations[r]) && !assigns
    case _ => false
  }

  /** Whether its failure is the consumer's: nothing has superseded it, and nobody is stopping. */
  ghost predicate FailsAll(s: Consumer, e: Event)
    requires Enabled(s, e)
  {
    Fails(s, e) && s.restorations[Concerns(e).value].generation == s.generation && !s.stopping
  }

  /** The phase a restoration is in behind a step of its own. */
  ghost function NextPhase(s: Consumer, e: Event): Phase
    requires Enabled(s, e) && Concerns(e).Some?
  {
    var it := s.restorations[Concerns(e).value];
    if Fails(s, e) || !Alive(s, it) then Dropped
    else
      match e
      case ReadCheckpoint(_, _, offsets) => if offsets.None? || it.partitions == [] then Settling else Checking(0)
      case KnowBounds(_, _) => if it.phase.next + 1 == |it.partitions| then Settling else Checking(it.phase.next + 1)
      case _ => Installed
  }

  /** The step ends all leases. */
  ghost predicate Invalidates(s: Consumer, e: Event)
    requires Enabled(s, e)
  {
    || e.RevokePartitions? || e == RebalanceError || e.AssignPartitions? || e == Failure || e == Disconnect
    || e == ConsumeEnds || FailsAll(s, e)
  }

  /** Of a consumer: its leases ended, or not, and its flags. */
  ghost predicate Ends(s: Consumer, t: Consumer, invalid: bool) {
    && |t.leases| >= |s.leases|
    && (t.generation > s.generation <==> invalid) && t.generation >= s.generation
    && (forall l :: 0 <= l < |s.leases| ==>
          t.leases[l] == s.leases[l].(aborted := s.leases[l].aborted || (invalid && l in s.assignments.Values)))
    && (invalid ==> t.assignments == map[])
  }

  lemma InvalidateEnds(s: Consumer)
    ensures Ends(s, Invalidate(s), true) && Ends(s, Fail(s), true) && Ends(s, Fail(Invalidate(s)), true)
    ensures |Invalidate(s).leases| == |Fail(s).leases| == |Fail(Invalidate(s)).leases| == |s.leases|
  {}

  /** What a restoration knows behind a step: the checkpoint it has read, and where its partitions are read from. */
  ghost predicate Learns(it: Restoration, e: Event, next: Restoration) {
    match e
    case ReadCheckpoint(_, _, offsets) =>
      && next.offsets == offsets
      && if offsets.Some? then next.positions == it.positions
         else
           && |next.positions| == |it.partitions|
           && forall i :: 0 <= i < |next.positions| ==> next.positions[i] == Default
    case KnowBounds(_, bounds) =>
      && next.offsets == it.offsets && AwaitsBounds(it) && bounds.Some?
      && next.positions == it.positions + [At(Asked(it), bounds.value)]
    case _ => next.offsets == it.offsets && next.positions == it.positions
  }

  /** What a step of a restoration leads to, short of its leases. */
  ghost predicate Restores(s: Consumer, e: Event, t: Consumer)
    requires Enabled(s, e) && Concerns(e).Some?
  {
    var r := Concerns(e).value;
    && r < |t.restorations| == |s.restorations|
    && (forall q :: 0 <= q < |s.restorations| && q != r ==> t.restorations[q] == s.restorations[q])
    && t.restorations[r].phase == NextPhase(s, e) && t.restorations[r].generation == s.restorations[r].generation
    && t.restorations[r].partitions == s.restorations[r].partitions
    && (NextPhase(s, e) != Dropped ==> Learns(s.restorations[r], e, t.restorations[r]))
    && t.stopping == s.stopping && t.cancelled == s.cancelled && (t.failed <==> s.failed || FailsAll(s, e))
    && Ends(s, t, FailsAll(s, e))
  }

  lemma ThrowsRestores(s: Consumer, r: nat, it: Restoration)
    requires r < |s.restorations| && it.generation == s.restorations[r].generation
    requires it.partitions == s.restorations[r].partitions
    ensures var t, all := Throws(s, r, it), it.generation == s.generation && !s.stopping;
      && r < |t.restorations| == |s.restorations| && t.restorations[r] == it.(phase := Dropped)
      && (forall q :: 0 <= q < |s.restorations| && q != r ==> t.restorations[q] == s.restorations[q])
      && t.stopping == s.stopping && t.cancelled == s.cancelled && (t.failed <==> s.failed || all)
      && Ends(s, t, all) && |t.leases| == |s.leases| && (!all ==> t.assignments == s.assignments)
  {
    InvalidateEnds(Put(s, r, it.(phase := Dropped)));
    hide Invalidate;
  }

  /** What the loop over the partitions leads to. */
  ghost predicate Continues(s: Consumer, r: nat, it: Restoration, k: nat, t: Consumer)
    requires r < |s.restorations|
  {
    var stuck := Alive(s, it) && Stuck(it, it.offsets, k); var all := stuck && !s.stopping;
    && r < |t.restorations| == |s.restorations|
    && t.restorations[r].generation == it.generation && t.restorations[r].partitions == it.partitions
    && t.restorations[r].phase ==
         (if stuck || !Alive(s, it) then Dropped
          else if it.offsets.None? || k == |it.partitions| then Settling else Checking(k))
    && t.restorations[r].offsets == it.offsets
    && (if it.offsets.None? && !stuck && Alive(s, it) then
          && |t.restorations[r].positions| == |it.partitions|
          && forall i :: 0 <= i < |it.partitions| ==> t.restorations[r].positions[i] == Default
        else t.restorations[r].positions == it.positions)
    && (forall q :: 0 <= q < |s.restorations| && q != r ==> t.restorations[q] == s.restorations[q])
    && t.stopping == s.stopping && t.cancelled == s.cancelled && (t.failed <==> s.failed || all)
    && Ends(s, t, all) && |t.leases| == |s.leases| && (!all ==> t.assignments == s.assignments)
  }

  lemma ContinueContinues(s: Consumer, r: nat, it: Restoration, k: nat)
    requires r < |s.restorations| && k <= |it.partitions| && it.generation == s.restorations[r].generation
    requires it.partitions == s.restorations[r].partitions
    ensures Continues(s, r, it, k, Continue(s, r, it, k))
  {
    hide Throws;
    ThrowsRestores(s, r, it);
  }

  /** What a step of a restoration leads to, with its leases. */
  ghost predicate RestoreLeads(s: Consumer, e: Event, t: Consumer)
    requires Enabled(s, e) && Concerns(e).Some?
  {
    && Restores(s, e, t)
    && (NextPhase(s, e) != Installed && !FailsAll(s, e) ==> t.assignments == s.assignments)
    && (NextPhase(s, e) != Installed ==> |t.leases| == |s.leases|)
  }

  lemma ReadCheckpointLeads(s: Consumer, e: Event)
    requires Enabled(s, e) && e.ReadCheckpoint?
    ensures RestoreLeads(s, e, Step(s, e))
  {
    hide Throws, Continue, Leased, Stuck, Ends;
    var it := s.restorations[e.restoration];
    ThrowsRestores(s, e.restoration, it);
    ContinueContinues(s, e.restoration, it.(offsets := e.offsets), 0);
    StuckSame(it, it.(offsets := e.offsets), e.offsets, 0);
  }

  lemma KnowBoundsLeads(s: Consumer, e: Event)
    requires Enabled(s, e) && e.KnowBounds?
    ensures RestoreLeads(s, e, Step(s, e))
  {
    hide Throws, Continue, Leased, Stuck, Ends;
    var it := s.restorations[e.restoration];
    ThrowsRestores(s, e.restoration, it);
    if e.bounds.Some? {
      ContinueContinues(s, e.restoration, Known(it, e.bounds.value), it.phase.next + 1);
      StuckSame(it, Known(it, e.bounds.value), it.offsets, it.phase.next + 1);
    }
  }

  lemma SettleCommitsLeads(s: Consumer, e: Event)
    requires Enabled(s, e) && e.SettleCommits?
    ensures RestoreLeads(s, e, Step(s, e))
  {
    hide Throws, Continue, Leased, Stuck;
    ThrowsRestores(s, e.restoration, s.restorations[e.restoration]);
  }

  lemma RestoreStep(s: Consumer, e: Event)
    requires Enabled(s, e) && Concerns(e).Some?
    ensures RestoreLeads(s, e, Step(s, e))
  {
    hide Step, RestoreLeads;
    match e
    case ReadCheckpoint(_, _, _) => ReadCheckpointLeads(s, e);
    case KnowBounds(_, _) => KnowBoundsLeads(s, e);
    case SettleCommits(_, _) => SettleCommitsLeads(s, e);
  }

  lemma StuckSame(it: Restoration, other: Restoration, offsets: Option<map<int, int>>, k: nat)
    requires other.partitions == it.partitions
    ensures Stuck(other, offsets, k) == Stuck(it, offsets, k)
  {}

  /** In every run, how a restoration goes on: it is dropped when it throws or is no longer alive, and goes to its next
      partition, to its last wait or to its installation otherwise; and no other restoration is touched. It fails the
      consumer exactly when it throws, is the newest, and nobody is stopping. */
  lemma RestorationGoesOn(states: seq<Consumer>, events: seq<Event>, i: nat)
    requires Run(states, events) && i < |events| && Concerns(events[i]).Some?
    ensures Enabled(states[i], events[i]) && Restores(states[i], events[i], states[i + 1])
  {
    hide Step, Enabled, Restores;
    assert Leads(states[i], events[i], states[i + 1]);
    RestoreStep(states[i], events[i]);
  }

  lemma OtherStep(s: Consumer, e: Event)
    requires Enabled(s, e) && Concerns(e).None?
    ensures var t := Step(s, e);
      && Ends(s, t, Invalidates(s, e)) && |t.leases| == |s.leases|
      && (!Invalidates(s, e) ==> t.assignments == s.assignments)
      && (t.failed <==> s.failed || e == RevokePartitions(false) || e == RebalanceError || e == Failure)
      && (t.stopping <==> s.stopping || e == Stop || e == Disconnect)
      && (t.cancelled <==> s.cancelled || e == CancelContext)
      && t.restorations == s.restorations
           + if e.AssignPartitions? then [Restoration(t.generation, e.partitions, None, [], Reading)] else []
  {
    hide Invalidate;
    InvalidateEnds(s);
    InvalidateEnds(s.(stopping := true));
    InvalidateRest(s);
    InvalidateRest(s.(stopping := true));
  }

  lemma InvalidateRest(s: Consumer)
    ensures var t := Invalidate(s);
      t.restorations == s.restorations && t.failed == s.failed && t.stopping == s.stopping && t.cancelled == s.cancelled
    ensures var t := Fail(s);
      t.restorations == s.restorations && t.failed && t.stopping == s.stopping && t.cancelled == s.cancelled
    ensures var t := Fail(Invalidate(s));
      t.restorations == s.restorations && t.failed && t.stopping == s.stopping && t.cancelled == s.cancelled
  {}

  /** In every run: all leases end, aborted if they were in force, at a revocation, an assignment, an error, a
      disconnect, the end of the loop and the failure of the newest restoration, and not otherwise. The consumer has
      failed since an error, a revocation or a newest restoration that failed; it is stopping since it was told to. */
  lemma LeasesEnd(states: seq<Consumer>, events: seq<Event>, i: nat)
    requires Run(states, events) && i < |events|
    ensures var s, e, t := states[i], events[i], states[i + 1];
      && Enabled(s, e) && Ends(s, t, Invalidates(s, e))
      && (t.failed <==>
            s.failed || e == RevokePartitions(false) || e == RebalanceError || e == Failure || FailsAll(s, e))
      && (t.stopping <==> s.stopping || e == Stop || e == Disconnect)
      && (t.cancelled <==> s.cancelled || e == CancelContext)
  {
    hide Step, Enabled, Ends, FailsAll;
    var s, e := states[i], events[i];
    assert Leads(s, e, states[i + 1]);
    if Concerns(e).Some? { RestoreStep(s, e); } else { OtherStep(s, e); NoRestoration(s, e); }
  }

  lemma NoRestoration(s: Consumer, e: Event)
    requires Enabled(s, e) && Concerns(e).None?
    ensures !FailsAll(s, e)
  {}

  /** In every run a restoration begins with an assignment, for its partitions, in the generation the assignment
      makes, and in no other way. */
  lemma RestorationBegins(states: seq<Consumer>, events: seq<Event>, i: nat)
    requires Run(states, events) && i < |events|
    ensures var s, e, t := states[i], events[i], states[i + 1];
      if e.AssignPartitions? then
        t.restorations == s.restorations + [Restoration(t.generation, e.partitions, None, [], Reading)]
      else |t.restorations| == |s.restorations| && (Concerns(e).None? ==> t.restorations == s.restorations)
  {
    hide Step, Enabled, Ends, FailsAll;
    var s, e := states[i], events[i];
    assert Leads(s, e, states[i + 1]);
    if Concerns(e).Some? { RestoreStep(s, e); } else { OtherStep(s, e); }
  }

  // ---- The leases of an installation ----

  /** The partitions get a lease each, one after the other; of two for one partition the later is in force. */
  ghost predicate LeasedAs(s: Consumer, t: Consumer, partitions: seq<TopicPartition>) {
    && |t.leases| == |s.leases| + |partitions|
    && (forall i :: 0 <= i < |partitions| ==>
          t.leases[|s.leases| + i] == Lease(partitions[i].partition, s.generation, false))
    && (forall l :: 0 <= l < |s.leases| ==> t.leases[l] == s.leases[l])
    && (forall i :: 0 <= i < |partitions| ==>
          && partitions[i].partition in t.assignments && t.assignments[partitions[i].partition] >= |s.leases| + i
          && t.assignments[partitions[i].partition] < |t.leases|
          && t.leases[t.assignments[partitions[i].partition]].partition == partitions[i].partition)
    && (forall p :: (forall i :: 0 <= i < |partitions| ==> partitions[i].partition != p) ==>
          (p in t.assignments <==> p in s.assignments)
          && (p in s.assignments ==> t.assignments[p] == s.assignments[p]))
  }

  lemma {:induction false} LeasedIs(s: Consumer, partitions: seq<TopicPartition>)
    ensures LeasedAs(s, Leased(s, partitions), partitions)
    decreases |partitions|
  {
    if partitions != [] {
      var p, rest := partitions[0].partition, partitions[1..];
      var u := s.(assignments := s.assignments[p := |s.leases|], leases := s.leases + [Lease(p, s.generation, false)]);
      LeasedIs(u, rest);
      LeasedMore(s, u, Leased(u, rest), partitions);
    }
  }

  lemma LeasedMore(s: Consumer, u: Consumer, t: Consumer, partitions: seq<TopicPartition>)
    requires partitions != [] && LeasedAs(u, t, partitions[1..])
    requires var p := partitions[0].partition;
      u == s.(assignments := s.assignments[p := |s.leases|], leases := s.leases + [Lease(p, s.generation, false)])
    ensures LeasedAs(s, t, partitions)
  {
    var rest := partitions[1..];
    assert forall i :: 1 <= i < |partitions| ==> partitions[i] == rest[i - 1];
    assert u.leases[|s.leases|] == Lease(partitions[0].partition, s.generation, false);
  }

  /** In every run leases are made by the last step of a restoration that is alive and whose assignment succeeds: one
      for each of its partitions, of the generation in force; and nothing else makes one or puts one in force. */
  lemma LeasesBegin(states: seq<Consumer>, events: seq<Event>, i: nat)
    requires Run(states, events) && i < |events|
    ensures var s, e, t := states[i], events[i], states[i + 1];
      && Enabled(s, e)
      && if e.SettleCommits? && e.assigns && Alive(s, s.restorations[e.restoration]) then
           LeasedAs(s, t, s.restorations[e.restoration].partitions)
         else |t.leases| == |s.leases| && t.assignments == if Invalidates(s, e) then map[] else s.assignments
  {
    hide Enabled, Ends, FailsAll, LeasedAs, Leased, Throws, Continue, NextPhase;
    var s, e := states[i], events[i];
    assert Leads(s, e, states[i + 1]);
    if Concerns(e).None? {
      OtherStep(s, e);
      EndsNone(s, states[i + 1], Invalidates(s, e));
    } else {
      RestoreStep(s, e);
      EndsNone(s, states[i + 1], FailsAll(s, e));
      InstallsLast(s, e);
      if e.SettleCommits? {
        var u := Put(s, e.restoration, s.restorations[e.restoration].(phase := Installed));
        LeasedIs(u, s.restorations[e.restoration].partitions);
        LeasedSame(s, u, states[i + 1], s.restorations[e.restoration].partitions);
      }
    }
  }

  lemma EndsNone(s: Consumer, t: Consumer, invalid: bool)
    requires Ends(s, t, invalid)
    ensures invalid ==> t.assignments == map[]
  {}

  lemma InstallsLast(s: Consumer, e: Event)
    requires Enabled(s, e) && Concerns(e).Some?
    ensures NextPhase(s, e) == Installed
      <==> e.SettleCommits? && e.assigns && Alive(s, s.restorations[e.restoration])
  {}

  lemma LeasedSame(s: Consumer, u: Consumer, t: Consumer, partitions: seq<TopicPartition>)
    requires u == s.(restorations := u.restorations)
    ensures LeasedAs(u, t, partitions) == LeasedAs(s, t, partitions)
  {}
}
