/** The native Kafka consumer as the object it is: its fields updated in place, one method per stretch of
    code between two awaits, each proved to make the step of `KafkaLeases` or of `KafkaDelivery`. */
module KafkaConsumer {
  import opened Base
  import Leases = KafkaLeases
  import Delivery = KafkaDelivery

  datatype Code = RevokePartitions | AssignPartitions | Other

  datatype Message = Message(ours: bool, partition: int, offset: int)

  /** The records of one partition, in the order of a fetched list. */
  function OfPartition(messages: seq<Message>, p: int): (r: seq<Message>)
    ensures forall m :: m in r <==> m in messages && m.ours && m.partition == p
  {
    if messages == [] then []
    else
      var last := messages[|messages| - 1];
      assert messages == messages[..|messages| - 1] + [last];
      OfPartition(messages[..|messages| - 1], p) + if last.ours && last.partition == p then [last] else []
  }

  lemma OfPartitionStep(messages: seq<Message>, n: nat, p: int)
    requires n < |messages|
    ensures OfPartition(messages[..n + 1], p)
      == OfPartition(messages[..n], p) + if messages[n].ours && messages[n].partition == p then [messages[n]] else []
  {
    assert messages[..n + 1][..n] == messages[..n];
  }

  lemma OfPartitionOne(m: Message, p: int)
    ensures OfPartition([m], p) == if m.ours && m.partition == p then [m] else []
  {
    OfPartitionStep([m], 0, p);
    assert [m][..1] == [m] && [m][..0] == [];
  }

  lemma OfPartitionLast(rest: seq<Message>, m: Message, p: int)
    ensures OfPartition(rest + [m], p) == OfPartition(rest, p) + OfPartition([m], p)
  {
    OfPartitionOne(m, p);
    OfPartitionStep(rest + [m], |rest|, p);
    assert (rest + [m])[..|rest| + 1] == rest + [m] && (rest + [m])[..|rest|] == rest;
    hide OfPartition;
  }

  lemma Regrouped<T>(a: seq<T>, b: seq<T>, c: seq<T>)
    ensures a + (b + c) == a + b + c
  {}

  lemma OfPartitionNone(a: seq<Message>, p: int)
    ensures OfPartition(a + [], p) == OfPartition(a, p) + OfPartition([], p)
  {
    assert a + [] == a;
  }

  /** They keep their order: the records of a list come before those of what follows it. */
  lemma {:induction false} OfPartitionInOrder(a: seq<Message>, b: seq<Message>, p: int)
    ensures OfPartition(a + b, p) == OfPartition(a, p) + OfPartition(b, p)
  {
    hide *;
    if b == [] {
      OfPartitionNone(a, p);
    } else {
      var rest, m := b[..|b| - 1], b[|b| - 1];
      assert b == rest + [m];
      OfPartitionInOrder(a, rest, p);
      OfPartitionLast(a + rest, m, p);
      OfPartitionLast(rest, m, p);
      Regrouped(a, rest, [m]);
      Regrouped(OfPartition(a, p), OfPartition(rest, p), OfPartition([m], p));
    }
  }

  /** Exactly the assigned partitions that have records, each with all of its records. */
  ghost predicate Grouped(batches: map<int, seq<Message>>, messages: seq<Message>, held: set<int>) {
    forall p :: (p in batches <==> p in held && OfPartition(messages, p) != [])
      && (p in batches ==> batches[p] == OfPartition(messages, p))
  }

  lemma GroupedStep(batches: map<int, seq<Message>>, messages: seq<Message>, n: nat, held: set<int>,
      after: map<int, seq<Message>>)
    requires n < |messages| && Grouped(batches, messages[..n], held)
    requires var m := messages[n];
      after == if m.ours && m.partition in held
        then batches[m.partition := (if m.partition in batches then batches[m.partition] else []) + [m]] else batches
    ensures Grouped(after, messages[..n + 1], held)
  {
    hide OfPartition;
    forall p ensures (p in after <==> p in held && OfPartition(messages[..n + 1], p) != [])
      && (p in after ==> after[p] == OfPartition(messages[..n + 1], p))
    {
      OfPartitionStep(messages, n, p);
      assert p in batches <==> p in held && OfPartition(messages[..n], p) != [];
    }
  }

  class ConfluentConsumer {
    const restoring: bool
    var generation: nat
    var assignments: map<int, nat>
    var leases: seq<Leases.Lease>
    var restorations: seq<Leases.Restoration>
    var failed: bool
    var stopping: bool
    var cancelled: bool

    function View(): (s: Leases.Consumer)
      reads this
    {
      Leases.Consumer(generation, assignments, leases, restorations, restoring, failed, stopping, cancelled)
    }

    constructor (restoring: bool)
      ensures View() == Leases.Initial(restoring) && Leases.Inv(View())
    {
      this.restoring := restoring;
      generation, assignments, leases, restorations := 0, map[], [], [];
      failed, stopping, cancelled := false, false, false;
    }

    method Invalidate()
      modifies this`generation, this`assignments, this`leases
      ensures View() == Leases.Invalidate(old(View()))
    {
      generation := generation + 1;
      var gone := assignments.Values;
      assignments := map[];
      var l := 0;
      while l < |leases|
        invariant l <= |leases| == |old(leases)| && generation == old(generation) + 1 && assignments == map[]
        invariant forall k ::
          0 <= k < l ==> leases[k] == if k in gone then old(leases)[k].(aborted := true) else old(leases)[k]
        invariant forall k :: l <= k < |leases| ==> leases[k] == old(leases)[k]
      {
        if l in gone { leases := leases[l := leases[l].(aborted := true)]; }
        l := l + 1;
      }
      assert leases == Leases.Aborted(old(leases), gone);
    }

    method Fail()
      modifies this`generation, this`assignments, this`leases, this`failed
      ensures View() == Leases.Fail(old(View()))
    {
      failed := true;
      Invalidate();
    }

    /** The native rebalance callback; `unassigns` says whether giving the partitions up succeeds. */
    method Rebalance(code: Code, partitions: seq<Leases.TopicPartition>, unassigns: bool)
      requires Leases.Inv(View())
      modifies this
      ensures Leases.Inv(View())
      ensures code == RevokePartitions ==> View() == Leases.Step(old(View()), Leases.RevokePartitions(unassigns))
      ensures code == AssignPartitions ==> View() == Leases.Step(old(View()), Leases.AssignPartitions(partitions))
      ensures code == Other ==> View() == Leases.Step(old(View()), Leases.RebalanceError)
    {
      hide Leases.Inv, Leases.Invalidate;
      Leases.StepKeeps(View(), Leases.RevokePartitions(unassigns));
      Leases.StepKeeps(View(), Leases.AssignPartitions(partitions));
      Leases.StepKeeps(View(), Leases.RebalanceError);
      Invalidate();
      match code
      case RevokePartitions => if !unassigns { Fail(); }
      case AssignPartitions =>
        restorations := restorations + [Leases.Restoration(generation, partitions, None, [], Leases.Reading)];
      case Other => Fail();
    }

    /** An error of the native client. */
    method OnError()
      requires Leases.Inv(View())
      modifies this
      ensures View() == Leases.Step(old(View()), Leases.Failure) && Leases.Inv(View())
    {
      hide Leases.Inv, Leases.Invalidate;
      Leases.StepKeeps(View(), Leases.Failure);
      Fail();
    }

    method Throws(r: nat, it: Leases.Restoration)
      requires r < |restorations|
      modifies this
      ensures View() == Leases.Throws(old(View()), r, it)
    {
      restorations := restorations[r := it.(phase := Leases.Dropped)];
      if it.generation != generation || stopping { return; }
      Fail();
    }

    method IsForeign(partitions: seq<Leases.TopicPartition>) returns (foreign: bool)
      ensures foreign == Leases.Foreign(partitions, 0)
    {
      var i := 0;
      while i < |partitions|
        invariant i <= |partitions| && forall j :: 0 <= j < i ==> partitions[j].ours
      {
        if !partitions[i].ours { return true; }
        i := i + 1;
      }
      return false;
    }

    /** The loop over the partitions, until it has to wait for the broker. */
    method Continue(r: nat, it: Leases.Restoration, k: nat)
      requires r < |restorations| && k <= |it.partitions| && (it.offsets.None? ==> k == 0)
      modifies this
      ensures View() == Leases.Continue(old(View()), r, it, k)
    {
      hide Leases.Throws, Leases.Foreign;
      if it.generation != generation || stopping || failed || cancelled {
        restorations := restorations[r := it.(phase := Leases.Dropped)];
        return;
      }
      if it.offsets.None? {
        var foreign := IsForeign(it.partitions);
        if foreign {
          Throws(r, it);
          return;
        }
        var positions: seq<Leases.Position> := [];
        var i := 0;
        while i < |it.partitions|
          invariant i <= |it.partitions| && |positions| == i && forall j ::
            0 <= j < i ==> positions[j] == Leases.Default
        {
          positions := positions + [Leases.Default];
          i := i + 1;
        }
        assert positions == seq(|it.partitions|, _ => Leases.Default);
        restorations := restorations[r := it.(phase := Leases.Settling, positions := positions)];
      } else if k == |it.partitions| {
        restorations := restorations[r := it.(phase := Leases.Settling)];
      } else if !it.partitions[k].ours || it.partitions[k].partition !in it.offsets.value {
        Throws(r, it);
      } else {
        restorations := restorations[r := it.(phase := Leases.Checking(k))];
      }
    }

    /** `restoreAssignment` once the provider has answered. */
    method CheckpointRead(r: nat, readable: bool, offsets: Option<map<int, int>>)
      requires Leases.Inv(View()) && Leases.Enabled(View(), Leases.ReadCheckpoint(r, readable, offsets))
      modifies this
      ensures View() == Leases.Step(old(View()), Leases.ReadCheckpoint(r, readable, offsets)) && Leases.Inv(View())
    {
      hide Leases.Inv, Leases.Throws, Leases.Continue;
      Leases.StepKeeps(View(), Leases.ReadCheckpoint(r, readable, offsets));
      if !readable || offsets.Some? != restoring {
        Throws(r, restorations[r]);
      } else {
        Continue(r, restorations[r].(offsets := offsets), 0);
      }
    }

    /** `restoreAssignment` once the broker has answered. */
    method BoundsKnown(r: nat, bounds: Option<Leases.Bounds>)
      requires Leases.Inv(View()) && Leases.Enabled(View(), Leases.KnowBounds(r, bounds))
      modifies this
      ensures View() == Leases.Step(old(View()), Leases.KnowBounds(r, bounds)) && Leases.Inv(View())
    {
      hide Leases.Inv, Leases.Throws, Leases.Continue;
      Leases.StepKeeps(View(), Leases.KnowBounds(r, bounds));
      var it := restorations[r];
      var offset := it.offsets.value[it.partitions[it.phase.next].partition];
      if bounds.None? || bounds.value.low < 0 || offset < bounds.value.low || offset > bounds.value.high {
        Throws(r, it);
      } else {
        Continue(r, it.(positions := it.positions + [Leases.At(offset, bounds.value)]), it.phase.next + 1);
      }
    }

    /** The end of `restoreAssignment`: the assignment is installed unless it was superseded. */
    method CommitsSettled(r: nat, assigns: bool)
      requires Leases.Inv(View()) && Leases.Enabled(View(), Leases.SettleCommits(r, assigns))
      modifies this
      ensures View() == Leases.Step(old(View()), Leases.SettleCommits(r, assigns)) && Leases.Inv(View())
    {
      hide Leases.Inv, Leases.Throws;
      Leases.StepKeeps(View(), Leases.SettleCommits(r, assigns));
      var it := restorations[r];
      if it.generation != generation || stopping || failed || cancelled {
        restorations := restorations[r := it.(phase := Leases.Dropped)];
      } else if !assigns {
        Throws(r, it);
      } else {
        restorations := restorations[r := it.(phase := Leases.Installed)];
        Install(it.partitions);
      }
    }

    method Install(partitions: seq<Leases.TopicPartition>)
      modifies this`assignments, this`leases
      ensures View() == Leases.Leased(old(View()), partitions)
    {
      var i := 0;
      assert partitions[0..] == partitions;
      while i < |partitions|
        invariant i <= |partitions| && Leases.Leased(View(), partitions[i..]) == Leases.Leased(old(View()), partitions)
      {
        assert partitions[i..][1..] == partitions[i + 1..];
        assignments := assignments[partitions[i].partition := |leases|];
        leases := leases + [Leases.Lease(partitions[i].partition, generation, false)];
        i := i + 1;
      }
    }

    method Stop()
      requires Leases.Inv(View())
      modifies this`stopping
      ensures View() == Leases.Step(old(View()), Leases.Stop) && Leases.Inv(View())
    {
      hide Leases.Inv;
      Leases.StepKeeps(View(), Leases.Stop);
      stopping := true;
    }

    method DisconnectOnce()
      requires Leases.Inv(View())
      modifies this
      ensures View() == Leases.Step(old(View()), Leases.Disconnect) && Leases.Inv(View())
    {
      hide Leases.Inv, Leases.Invalidate;
      Leases.StepKeeps(View(), Leases.Disconnect);
      stopping := true;
      Invalidate();
    }

    /** `consume` behind its loop. */
    method ConsumeEnds()
      requires Leases.Inv(View())
      modifies this
      ensures Leases.Inv(View())
      ensures View() ==
        if old(failed) || old(cancelled) then Leases.Step(old(View()), Leases.ConsumeEnds) else old(View())
    {
      hide Leases.Inv, Leases.Invalidate;
      if failed || cancelled {
        Leases.StepKeeps(View(), Leases.ConsumeEnds);
        Invalidate();
      }
    }

    /** The checkpoint's context is cancelled. */
    method CancelContext()
      requires Leases.Inv(View())
      modifies this`cancelled
      ensures View() == Leases.Step(old(View()), Leases.CancelContext) && Leases.Inv(View())
    {
      hide Leases.Inv;
      Leases.StepKeeps(View(), Leases.CancelContext);
      cancelled := true;
    }

    method Current(partition: int, lease: nat) returns (b: bool)
      requires lease < |leases|
      ensures b == Leases.Current(View(), partition, lease)
    {
      b := !failed && !leases[lease].aborted && !cancelled && partition in assignments
        && assignments[partition] == lease;
    }

    /** How `consume` sorts what a poll returned. */
    method Group(messages: seq<Message>) returns (batches: map<int, seq<Message>>)
      ensures Grouped(batches, messages, assignments.Keys)
    {
      batches := map[];
      var n := 0;
      while n < |messages|
        invariant n <= |messages| && Grouped(batches, messages[..n], assignments.Keys)
      {
        var m := messages[n];
        ghost var before := batches;
        if m.ours && m.partition in assignments {
          batches := batches[m.partition := (if m.partition in batches then batches[m.partition] else []) + [m]];
        }
        GroupedStep(before, messages, n, assignments.Keys, batches);
        n := n + 1;
      }
      assert messages[..n] == messages;
    }
  }

  lemma ShapeOf(s: Delivery.Partition)
    requires Delivery.Inv(s)
    ensures Delivery.Shape(s)
  {}

  /** `deliver` on one partition, between its awaits. */
  class PartitionDelivery {
    var records: seq<int>
    const start: int
    var position: int
    var current: bool
    var phase: Delivery.Phase
    ghost var delivered: set<int>
    ghost var acked: set<int>
    ghost var stored: set<int>

    ghost function View(): (s: Delivery.Partition)
      reads this
    {
      Delivery.Partition(records, start, position, current, phase, delivered, acked, stored)
    }

    constructor (records: seq<int>, start: int)
      requires Delivery.Ascending(records)
      ensures View() == Delivery.Initial(records, start) && Delivery.Inv(View())
    {
      this.records, this.start, position, current, phase := records, start, start, true, Delivery.Idle;
      delivered, acked, stored := {}, {}, {};
    }

    method Hand(first: nat, count: nat, index: nat)
      requires first + index < |records|
      modifies this
      ensures View() == Delivery.Hand(old(View()), first, count, index)
    {
      if !current || !Delivery.Representable(records[first + index]) {
        phase := Delivery.Over;
        current := false;
        return;
      }
      phase := Delivery.Delivering(first, count, index,
        Delivery.Handling(Delivery.Control(false, false, false, false)));
      delivered := delivered + {records[first + index]};
    }

    method Next()
      requires phase.Delivering? && phase.first + phase.count <= |records|
      modifies this
      ensures View() == Delivery.Next(old(View()))
    {
      if phase.index + 1 < phase.count {
        Hand(phase.first, phase.count, phase.index + 1);
      } else {
        phase := if current then Delivery.Idle else Delivery.Over;
      }
    }

    ghost method Submit(record: int)
      modifies this`stored
      ensures View() == Delivery.Submit(old(View()), record)
    {
      stored := stored + {record + 1};
    }

    ghost method Acknowledge(record: int)
      modifies this`acked
      ensures View() == Delivery.Acknowledge(old(View()), record)
    {
      acked := acked + {record};
    }

    // ---- One method per event ----

    /** A record is appended to the log. */
    method Produce(offset: int)
      requires Delivery.Inv(View()) && Delivery.Enabled(View(), Delivery.Produce(offset))
      modifies this
      ensures View() == Delivery.Step(old(View()), Delivery.Produce(offset)) && Delivery.Inv(View())
    {
      hide Delivery.Inv;
      Delivery.StepKeeps(View(), Delivery.Produce(offset));
      ShapeOf(View());
      records := records + [offset];
    }

    /** A poll returned records of the partition: it is paused and their delivery begins. */
    method Fetch(n: nat)
      requires Delivery.Inv(View()) && Delivery.Enabled(View(), Delivery.FetchRecords(n))
      modifies this
      ensures View() == Delivery.Step(old(View()), Delivery.FetchRecords(n)) && Delivery.Inv(View())
    {
      hide Delivery.Inv, Delivery.FirstAt, Delivery.Hand;
      Delivery.StepKeeps(View(), Delivery.FetchRecords(n));
      ShapeOf(View());
      var first := Delivery.FirstAt(records, position);
      position := records[first + n - 1] + 1;
      Hand(first, n, 0);
    }

    /** The handler marks its record, which a revoked lease refuses. */
    method Mark(metadata: bool) returns (ok: bool)
      requires Delivery.Inv(View()) && Delivery.Enabled(View(), Delivery.Mark(metadata))
      modifies this
      ensures View() == Delivery.Step(old(View()), Delivery.Mark(metadata)) && Delivery.Inv(View())
      ensures ok == old(current) && (!ok ==> View() == old(View()))
    {
      hide Delivery.Inv;
      Delivery.StepKeeps(View(), Delivery.Mark(metadata));
      ShapeOf(View());
      if !current { return false; }
      phase := phase.(stage := Delivery.Handling(phase.stage.control.(marked := true, metadata := metadata)));
      return true;
    }

    /** The handler asks for a commit of its record, which a revoked lease refuses. */
    method Commit() returns (ok: bool)
      requires Delivery.Inv(View()) && Delivery.Enabled(View(), Delivery.Commit)
      modifies this
      ensures View() == Delivery.Step(old(View()), Delivery.Commit) && Delivery.Inv(View())
      ensures ok == old(current) && (!ok ==> View() == old(View()))
    {
      hide Delivery.Inv;
      Delivery.StepKeeps(View(), Delivery.Commit);
      ShapeOf(View());
      if !current { return false; }
      Submit(records[phase.first + phase.index]);
      phase := phase.(stage := Delivery.Handling(phase.stage.control.(requested := true)));
      return true;
    }

    method CommitSucceeded()
      requires Delivery.Inv(View()) && Delivery.Enabled(View(), Delivery.CommitSucceeds)
      modifies this
      ensures View() == Delivery.Step(old(View()), Delivery.CommitSucceeds) && Delivery.Inv(View())
    {
      hide Delivery.Inv;
      Delivery.StepKeeps(View(), Delivery.CommitSucceeds);
      ShapeOf(View());
      Acknowledge(records[phase.first + phase.index]);
      phase := phase.(stage := Delivery.Handling(phase.stage.control.(committed := true)));
    }

    /** What follows a handler that returned. */
    method Returned()
      requires Delivery.Inv(View()) && Delivery.Enabled(View(), Delivery.HandlerReturns)
      modifies this
      ensures View() == Delivery.Step(old(View()), Delivery.HandlerReturns) && Delivery.Inv(View())
    {
      hide Delivery.Inv, Delivery.Next;
      Delivery.StepKeeps(View(), Delivery.HandlerReturns);
      ShapeOf(View());
      var control := phase.stage.control;
      if !current {
        phase := Delivery.Over;
      } else if control.committed {
        Next();
      } else if !control.marked {
        phase := phase.(stage := Delivery.Seeking);
      } else {
        Submit(records[phase.first + phase.index]);
        if control.metadata {
          phase := phase.(stage := Delivery.Committing);
        } else {
          Acknowledge(records[phase.first + phase.index]);
          Next();
        }
      }
    }

    /** A handler that throws fails the consumer, and with it the lease. */
    method Threw()
      requires Delivery.Inv(View()) && Delivery.Enabled(View(), Delivery.HandlerThrows)
      modifies this
      ensures View() == Delivery.Step(old(View()), Delivery.HandlerThrows) && Delivery.Inv(View())
    {
      hide Delivery.Inv;
      Delivery.StepKeeps(View(), Delivery.HandlerThrows);
      ShapeOf(View());
      phase := Delivery.Over;
      current := false;
    }

    method CommitSettled(ok: bool)
      requires Delivery.Inv(View()) && Delivery.Enabled(View(), Delivery.CommitSettles(ok))
      modifies this
      ensures View() == Delivery.Step(old(View()), Delivery.CommitSettles(ok)) && Delivery.Inv(View())
    {
      hide Delivery.Inv, Delivery.Next;
      Delivery.StepKeeps(View(), Delivery.CommitSettles(ok));
      ShapeOf(View());
      if ok {
        Acknowledge(records[phase.first + phase.index]);
        Next();
      } else {
        phase := Delivery.Over;
        current := false;
      }
    }

    method Sought(ok: bool)
      requires Delivery.Inv(View()) && Delivery.Enabled(View(), Delivery.SeekSettles(ok))
      modifies this
      ensures View() == Delivery.Step(old(View()), Delivery.SeekSettles(ok)) && Delivery.Inv(View())
    {
      hide Delivery.Inv;
      Delivery.StepKeeps(View(), Delivery.SeekSettles(ok));
      ShapeOf(View());
      if ok {
        position := records[phase.first + phase.index];
        phase := if current then Delivery.Idle else Delivery.Over;
      } else {
        phase := Delivery.Over;
        current := false;
      }
    }

    /** A handler uses its control after it returned, which a revoked lease refuses. */
    method LateCommit(offset: int) returns (ok: bool)
      requires Delivery.Inv(View()) && Delivery.Enabled(View(), Delivery.LateCommit(offset))
      modifies this
      ensures View() == Delivery.Step(old(View()), Delivery.LateCommit(offset)) && Delivery.Inv(View())
      ensures ok == old(current) && (!ok ==> View() == old(View()))
    {
      hide Delivery.Inv;
      Delivery.StepKeeps(View(), Delivery.LateCommit(offset));
      ShapeOf(View());
      if current { Submit(offset); }
      return current;
    }

    method Revoke()
      requires Delivery.Inv(View()) && Delivery.Enabled(View(), Delivery.Revoke)
      modifies this
      ensures View() == Delivery.Step(old(View()), Delivery.Revoke) && Delivery.Inv(View())
    {
      hide Delivery.Inv;
      Delivery.StepKeeps(View(), Delivery.Revoke);
      ShapeOf(View());
      current := false;
      if phase.Idle? { phase := Delivery.Over; }
    }
  }
}
