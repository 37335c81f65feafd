/** What the answers of handlers and broker lead to in the delivery of a partition, told field by field: when a record
    is acknowledged, when an offset is stored, which record is handed out next, and what ends the lease. */
module KafkaOutcomes {
  import opened Base
  import opened KafkaDelivery

  /** In every run an acknowledged record has its offset stored or handed to a commit. */
  lemma AcknowledgedMeansStored(states: seq<Partition>, events: seq<Event>, i: nat, a: int)
    requires Run(states, events) && i < |states| && a in states[i].acked
    ensures a + 1 in states[i].stored && a in states[i].delivered
  {
    RunsKeepInv(states, events, i);
  }

  /** The handler returned, under a current lease, from a record it has marked and not committed. */
  predicate ReturnsMarked(s: Partition, e: Event) {
    e == HandlerReturns && InHandler(s) && s.current && s.phase.stage.control.marked && !s.phase.stage.control.committed
  }

  /** The step is done with the record in hand: the handler returned from it, committed or marked without metadata,
      under a current lease, or the commit of its mark succeeded. */
  predicate DoneWith(s: Partition, e: Event) {
    || (ReturnsMarked(s, e) && !s.phase.stage.control.metadata)
    || (e == HandlerReturns && InHandler(s) && s.current && s.phase.stage.control.committed)
    || e == CommitSettles(true)
  }

  /** In every run: a record is acknowledged when a handler returns from it with a plain mark, under a current lease,
      or when a commit of it succeeds, and by nothing else. */
  lemma AckedChanges(states: seq<Partition>, events: seq<Event>, i: nat)
    requires Run(states, events) && i < |events|
    ensures var s, e := states[i], events[i];
      var acknowledges := (ReturnsMarked(s, e) && !s.phase.stage.control.metadata)
                          || e == CommitSucceeds || e == CommitSettles(true);
      && (acknowledges ==> Shape(s) && s.phase.Delivering?)
      && states[i + 1].acked == s.acked + if acknowledges then {Record(s)} else {}
  {
    assert Leads(states[i], events[i], states[i + 1]);
    hide FirstAt;
  }

  /** In every run: the offset behind a record is stored or handed to a commit when a handler returns from it marked,
      or asks for a commit of it while it has it or later, under a current lease, and by nothing else. */
  lemma StoredChanges(states: seq<Partition>, events: seq<Event>, i: nat)
    requires Run(states, events) && i < |events|
    ensures var s, e := states[i], events[i];
      && (ReturnsMarked(s, e) || e == Commit ==> Shape(s) && s.phase.Delivering?)
      && states[i + 1].stored == s.stored +
           if ReturnsMarked(s, e) || (e == Commit && s.current) then {Record(s) + 1}
           else if e.LateCommit? && s.current then {e.offset + 1}
           else {}
  {
    assert Leads(states[i], events[i], states[i + 1]);
    hide FirstAt;
  }

  /** So after a handler returned from a marked record its offset is stored. */
  lemma MarkedIsStored(states: seq<Partition>, events: seq<Event>, i: nat, j: nat)
    requires Run(states, events) && i < j < |states| && ReturnsMarked(states[i], events[i])
    ensures Shape(states[i]) && Record(states[i]) + 1 in states[j].stored
  {
    StoredChanges(states, events, i);
    StoredGrows(states, events, i + 1, j);
  }

  lemma {:induction false} StoredGrows(states: seq<Partition>, events: seq<Event>, i: nat, j: nat)
    requires Run(states, events) && i <= j < |states|
    ensures states[i].stored <= states[j].stored
  {
    if i < j {
      StoredGrows(states, events, i, j - 1);
      StoredChanges(states, events, j - 1);
    }
  }

  /** The record is in the hands of the handler, which has done nothing about it. */
  predicate Fresh(t: Partition, first: nat, count: nat, index: nat) {
    t.phase == Delivering(first, count, index, Handling(Control(false, false, false, false)))
  }

  /** A record is handed out, or, where its offset or the one behind it is no safe integer, the lease ends. */
  ghost predicate HandsOut(s: Partition, t: Partition, first: nat, count: nat, index: nat)
    requires first + index < |s.records|
  {
    var record := s.records[first + index];
    if -(MAX_SAFE_INTEGER as int) <= record && record + 1 <= MAX_SAFE_INTEGER then
      Fresh(t, first, count, index) && t.delivered == s.delivered + {record} && t.current == s.current
    else t.phase == Over && t.delivered == s.delivered && !t.current
  }

  /** The delivery goes on: to the next record of what was fetched, or, behind the last one, to an idle partition. */
  ghost predicate GoesOn(s: Partition, t: Partition)
    requires Shape(s) && s.phase.Delivering?
  {
    if !s.current then t.phase == Over && t.delivered == s.delivered && !t.current
    else if s.phase.index + 1 < s.phase.count then HandsOut(s, t, s.phase.first, s.phase.count, s.phase.index + 1)
    else t.phase == Idle && t.delivered == s.delivered && t.current
  }

  /** In every run, what a step is done with a record leads to. */
  lemma DoneGoesOn(states: seq<Partition>, events: seq<Event>, i: nat)
    requires Run(states, events) && i < |events| && DoneWith(states[i], events[i])
    ensures Shape(states[i]) && states[i].phase.Delivering? && GoesOn(states[i], states[i + 1])
  {
    assert Leads(states[i], events[i], states[i + 1]);
    hide FirstAt;
  }

  /** In every run, which record a fetch hands out: the first one at or after the position. */
  lemma FetchHandsOut(states: seq<Partition>, events: seq<Event>, i: nat)
    requires Run(states, events) && i < |events| && events[i].FetchRecords?
    ensures var s, first := states[i], FirstAt(states[i].records, states[i].position);
      && first < |s.records| && HandsOut(s, states[i + 1], first, events[i].n, 0)
  {
    assert Leads(states[i], events[i], states[i + 1]);
    hide FirstAt;
  }

  /** What the step makes of the record in the handler's hands. */
  function Handled(control: Control, e: Event): Control {
    match e
    case Mark(metadata) => control.(marked := true, metadata := metadata)
    case Commit => control.(requested := true)
    case CommitSucceeds => control.(committed := true)
    case _ => control
  }

  /** In every run, what every other step leads to: a refused or an accepted mark or commit, the commit of a mark, the
      seek back, the end of the lease, or nothing. */
  lemma OtherwiseGoes(states: seq<Partition>, events: seq<Event>, i: nat)
    requires Run(states, events) && i < |events| && !DoneWith(states[i], events[i]) && !events[i].FetchRecords?
    ensures var s, e, t := states[i], events[i], states[i + 1];
      && t.delivered == s.delivered
      && (t.current <==> s.current && e != HandlerThrows && e != CommitSettles(false) && e != SeekSettles(false)
                         && e != Revoke)
      && t.phase ==
           if e == HandlerReturns && s.current && InHandler(s) then
             s.phase.(stage := if s.phase.stage.control.marked then Committing else Seeking)
           else if e == SeekSettles(true) && s.current then Idle
           else if e == HandlerReturns || e == HandlerThrows || e.CommitSettles? || e.SeekSettles? then Over
           else if e == Revoke && s.phase.Idle? then Over
           else if InHandler(s) && (s.current || e == CommitSucceeds) then
             s.phase.(stage := Handling(Handled(s.phase.stage.control, e)))
           else s.phase
  {
    assert Leads(states[i], events[i], states[i + 1]);
    hide FirstAt;
  }

  /** In every run the position moves behind what a fetch returned, or back to a record by a seek, and not otherwise;
      and the log only grows. */
  lemma PositionChanges(states: seq<Partition>, events: seq<Event>, i: nat)
    requires Run(states, events) && i < |events|
    ensures var s, e, t := states[i], events[i], states[i + 1];
      && (e.FetchRecords? ==> var last := FirstAt(s.records, s.position) + e.n - 1;
            0 <= last < |s.records| && t.position == s.records[last] + 1)
      && (e == SeekSettles(true) ==> Shape(s) && s.phase.Delivering? && t.position == Record(s))
      && (!e.FetchRecords? && e != SeekSettles(true) ==> t.position == s.position)
      && t.records == s.records + (if e.Produce? then [e.offset] else []) && t.start == s.start
  {
    assert Leads(states[i], events[i], states[i + 1]);
    hide FirstAt;
  }
}
