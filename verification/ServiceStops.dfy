/** `stopComponent` and the two maps of pending stops. */
module ServiceStops {
  import opened Base

  datatype Outcome = InFlight | Succeeded | Failed(cancellation: bool)

  /** One physical call of `stop` or `stopAdmission` on a component, under a caller's context.
      `during` is history: what was started when the call was made. */
  datatype Op = Op(part: nat, admission: bool, ctx: nat, outcome: Outcome, during: seq<nat>)

  /** What a caller of `stopComponent` holds: a promise of an operation, its own or, when `joined`, one
      that another context started, or the settled result. */
  datatype Wait = OnOp(op: nat, joined: bool) | Fulfilled | Rejected

  datatype Stops = Stops(started: seq<nat>, admissionStops: map<nat, nat>, componentStops: map<nat, nat>, ops: seq<Op>)
  {
    function Pending(admission: bool): map<nat, nat> {
      if admission then admissionStops else componentStops
    }

    function WithPending(admission: bool, pending: map<nat, nat>): Stops {
      if admission then this.(admissionStops := pending) else this.(componentStops := pending)
    }
  }

  /** `splice` at the place `indexOf` finds. */
  function Without(s: seq<nat>, c: nat): (r: seq<nat>)
    ensures forall x :: x in r ==> x in s
    ensures forall x :: x in s && x != c ==> x in r
    ensures c !in s ==> r == s
  {
    if s == [] then []
    else if s[0] == c then s[1..]
    else
      assert s == [s[0]] + s[1..];
      [s[0]] + Without(s[1..], c)
  }

  lemma {:induction false} WithoutDistinct(s: seq<nat>, c: nat)
    requires Distinct(s)
    ensures Distinct(Without(s, c)) && c !in Without(s, c)
  {
    if s != [] && s[0] != c {
      WithoutDistinct(s[1..], c);
      assert s[0] !in s[1..];
    }
  }

  lemma {:induction false} WithoutLast(s: seq<nat>)
    requires s != [] && Distinct(s)
    ensures Without(s, s[|s| - 1]) == s[..|s| - 1]
  {
    if |s| > 1 {
      WithoutLast(s[1..]);
      assert s[0] != s[|s| - 1] && s[1..][|s| - 2] == s[|s| - 1];
      assert s[..|s| - 1] == [s[0]] + s[1..][..|s| - 2];
    }
  }

  ghost predicate PendingOk(pending: map<nat, nat>, ops: seq<Op>, admission: bool) {
    forall c <- pending ::
      pending[c] < |ops| && ops[pending[c]].part == c && ops[pending[c]].admission == admission
        && !ops[pending[c]].outcome.Failed?
  }

  ghost predicate PendingsOk(s: Stops) {
    PendingOk(s.admissionStops, s.ops, true) && PendingOk(s.componentStops, s.ops, false)
  }

  function StopComponent(s: Stops, c: nat, ctx: nat, admission: bool): (r: (Stops, Wait))
    requires PendingsOk(s)
    ensures PendingsOk(r.0) && r.0.started == s.started
  {
    var pending := s.Pending(admission);
    if c in pending then (s, OnOp(pending[c], s.ops[pending[c]].ctx != ctx))
    else
      var op := Op(c, admission, ctx, InFlight, s.started);
      (s.(ops := s.ops + [op]).WithPending(admission, pending[c := |s.ops|]), OnOp(|s.ops|, false))
  }

  function Settle(s: Stops, o: nat, outcome: Outcome): Stops
    requires o < |s.ops|
  {
    var op := s.ops[o];
    var settled := s.(ops := s.ops[o := op.(outcome := outcome)]);
    match outcome
    case InFlight => s
    case Succeeded =>
      if op.admission then settled
      else settled.(started := Without(s.started, op.part), admissionStops := s.admissionStops - {op.part})
    case Failed(_) =>
      var pending := s.Pending(op.admission);
      if op.part in pending && pending[op.part] == o then settled.WithPending(op.admission, pending - {op.part})
      else settled
  }

  predicate Settled(w: Wait) {
    w.Fulfilled? || w.Rejected?
  }

  /** Only the wait of the context that started the operation failed: the component may still be stopping,
      and a caller whose own context is live asks again. */
  predicate Rejoins(s: Stops, w: Wait, ctx: nat, expired: set<nat>)
    requires w.OnOp? && w.op < |s.ops|
  {
    var op := s.ops[w.op];
    w.joined && op.outcome.Failed? && op.outcome.cancellation && op.ctx in expired && ctx !in expired
  }

  function Resume(s: Stops, w: Wait, ctx: nat, expired: set<nat>): (r: (Stops, Wait))
    requires w.OnOp? && w.op < |s.ops| && PendingsOk(s)
    ensures r.0.started == s.started
  {
    var op := s.ops[w.op];
    if op.outcome.InFlight? then (s, w)
    else if op.outcome.Succeeded? then (s, Fulfilled)
    else if Rejoins(s, w, ctx, expired) then StopComponent(s, op.part, ctx, op.admission)
    else (s, Rejected)
  }

  // ---- The invariant ----

  /** The full stop of a component whose admission stop is pending must wait until that has succeeded. */
  ghost predicate Sealed(s: Stops, c: nat) {
    c in s.admissionStops ==> s.admissionStops[c] < |s.ops| && s.ops[s.admissionStops[c]].outcome.Succeeded?
  }

  ghost predicate OpOk(s: Stops, op: Op, o: nat) {
    && (!op.outcome.Failed? ==>
          if op.admission then
            (op.part in s.admissionStops && s.admissionStops[op.part] == o)
            || (op.outcome.Succeeded? && op.part !in s.started)
          else op.part in s.componentStops && s.componentStops[op.part] == o)
    && (!op.admission && op.outcome.Succeeded? ==> op.part !in s.started)
    && (op.admission && op.outcome.InFlight? ==> op.part !in s.componentStops)
  }

  /** Of the calls of one kind on one component all but the latest have failed. */
  ghost predicate Serial(ops: seq<Op>) {
    forall o, p :: 0 <= o < p < |ops| && ops[o].part == ops[p].part && ops[o].admission == ops[p].admission ==>
      ops[o].outcome.Failed?
  }

  ghost predicate StopsOk(s: Stops) {
    && Distinct(s.started) && Serial(s.ops) && PendingsOk(s)
    && (forall o :: 0 <= o < |s.ops| ==> OpOk(s, s.ops[o], o))
  }

  /** Whether a call of `stopComponent` is in its turn. */
  ghost predicate Free(s: Stops, c: nat, admission: bool) {
    if admission then c in s.started && (c in s.componentStops ==> c in s.admissionStops && Sealed(s, c))
    else Sealed(s, c)
  }

  ghost predicate WaitOk(s: Stops, c: nat, admission: bool, w: Wait) {
    match w
    case OnOp(o, _) =>
      && o < |s.ops| && s.ops[o].part == c && s.ops[o].admission == admission
      && (!s.ops[o].outcome.Succeeded? ==> if admission then c in s.started && c !in s.componentStops else Sealed(s, c))
      && (s.ops[o].outcome.Failed? ==> c !in s.Pending(admission))
    case Fulfilled => if admission then c in s.started ==> c in s.admissionStops && Sealed(s, c) else c !in s.started
    case Rejected => true
  }

  /** Nothing about components other than `c` changed, and what is started did not. */
  ghost predicate Apart(s: Stops, t: Stops, c: nat) {
    && t.started == s.started && |s.ops| <= |t.ops| && t.ops[..|s.ops|] == s.ops
    && (forall d ::
        d != c
        ==> (d in t.admissionStops <==> d in s.admissionStops) && (d in t.componentStops <==> d in s.componentStops))
    && (forall d <- s.admissionStops :: d != c ==> t.admissionStops[d] == s.admissionStops[d])
    && (forall d <- s.componentStops :: d != c ==> t.componentStops[d] == s.componentStops[d])
  }

  lemma ApartWait(s: Stops, t: Stops, c: nat, d: nat, admission: bool, w: Wait)
    requires Apart(s, t, c) && c != d && WaitOk(s, d, admission, w)
    ensures WaitOk(t, d, admission, w)
  {
    assert forall o :: 0 <= o < |s.ops| ==> t.ops[o] == s.ops[o];
  }

  lemma EarlierFailed(s: Stops, c: nat, admission: bool, o: nat)
    requires StopsOk(s) && Free(s, c, admission) && c !in s.Pending(admission) && o < |s.ops|
    ensures s.ops[o].part == c && s.ops[o].admission == admission ==> s.ops[o].outcome.Failed?
  {
    assert OpOk(s, s.ops[o], o);
  }

  lemma NewOpKeeps(s: Stops, c: nat, ctx: nat, admission: bool, o: nat)
    requires StopsOk(s) && Free(s, c, admission) && c !in s.Pending(admission) && o < |s.ops|
    ensures OpOk(StopComponent(s, c, ctx, admission).0, s.ops[o], o)
  {
    EarlierFailed(s, c, admission, o);
    assert OpOk(s, s.ops[o], o);
    hide Serial;
  }

  lemma NewOpOk(s: Stops, c: nat, ctx: nat, admission: bool)
    requires StopsOk(s) && Free(s, c, admission) && c !in s.Pending(admission)
    ensures StopsOk(StopComponent(s, c, ctx, admission).0)
  {
    var t := StopComponent(s, c, ctx, admission).0;
    forall o | 0 <= o < |t.ops| ensures OpOk(t, t.ops[o], o) {
      if o < |s.ops| { NewOpKeeps(s, c, ctx, admission, o); }
    }
    forall o | 0 <= o < |s.ops| && s.ops[o].part == c && s.ops[o].admission == admission
      ensures s.ops[o].outcome.Failed?
    {
      EarlierFailed(s, c, admission, o);
    }
    hide OpOk;
  }

  lemma StopComponentApart(s: Stops, c: nat, ctx: nat, admission: bool)
    requires PendingsOk(s)
    ensures Apart(s, StopComponent(s, c, ctx, admission).0, c)
  {}

  lemma NewOpWait(s: Stops, c: nat, ctx: nat, admission: bool)
    requires PendingsOk(s) && Free(s, c, admission) && c !in s.Pending(admission)
    ensures WaitOk(StopComponent(s, c, ctx, admission).0, c, admission, StopComponent(s, c, ctx, admission).1)
  {}

  lemma StopComponentOk(s: Stops, c: nat, ctx: nat, admission: bool)
    requires StopsOk(s) && Free(s, c, admission)
    ensures StopsOk(StopComponent(s, c, ctx, admission).0)
    ensures WaitOk(StopComponent(s, c, ctx, admission).0, c, admission, StopComponent(s, c, ctx, admission).1)
    ensures Apart(s, StopComponent(s, c, ctx, admission).0, c)
  {
    hide Serial, Distinct, Apart;
    StopComponentApart(s, c, ctx, admission);
    if c in s.Pending(admission) {
      assert OpOk(s, s.ops[s.Pending(admission)[c]], s.Pending(admission)[c]);
      assert StopComponent(s, c, ctx, admission).0 == s;
    } else {
      NewOpOk(s, c, ctx, admission);
      NewOpWait(s, c, ctx, admission);
      hide *;
    }
  }

  lemma ResumeOk(s: Stops, c: nat, admission: bool, w: Wait, ctx: nat, expired: set<nat>)
    requires StopsOk(s) && w.OnOp? && WaitOk(s, c, admission, w)
    ensures StopsOk(Resume(s, w, ctx, expired).0)
    ensures WaitOk(Resume(s, w, ctx, expired).0, c, admission, Resume(s, w, ctx, expired).1)
    ensures Apart(s, Resume(s, w, ctx, expired).0, c)
  {
    assert OpOk(s, s.ops[w.op], w.op);
    if Rejoins(s, w, ctx, expired) {
      StopComponentOk(s, c, ctx, admission);
    }
    hide StopComponent;
  }

  lemma SettleKeeps(s: Stops, o: nat, outcome: Outcome, p: nat)
    requires StopsOk(s) && o < |s.ops| && s.ops[o].outcome.InFlight? && p < |s.ops|
    ensures OpOk(Settle(s, o, outcome), Settle(s, o, outcome).ops[p], p)
  {
    WithoutDistinct(s.started, s.ops[o].part);
    assert OpOk(s, s.ops[o], o) && OpOk(s, s.ops[p], p);
    hide Without, Serial, PendingOk;
  }

  lemma SettleSerial(s: Stops, o: nat, outcome: Outcome)
    requires Serial(s.ops) && o < |s.ops| && s.ops[o].outcome.InFlight?
    ensures Serial(Settle(s, o, outcome).ops)
  {
    hide Without;
    assert Settle(s, o, outcome).ops == s.ops[o := s.ops[o].(outcome := outcome)];
  }

  lemma SettlePending(s: Stops, o: nat, outcome: Outcome)
    requires StopsOk(s) && o < |s.ops| && s.ops[o].outcome.InFlight?
    ensures PendingOk(Settle(s, o, outcome).admissionStops, Settle(s, o, outcome).ops, true)
    ensures PendingOk(Settle(s, o, outcome).componentStops, Settle(s, o, outcome).ops, false)
  {
    hide Without, Distinct, Serial;
    assert OpOk(s, s.ops[o], o);
    var t := Settle(s, o, outcome);
    forall c <- t.admissionStops ensures t.admissionStops[c] == s.admissionStops[c] {}
    forall c <- t.componentStops ensures t.componentStops[c] == s.componentStops[c] {}
  }

  lemma SettleOk(s: Stops, o: nat, outcome: Outcome)
    requires StopsOk(s) && o < |s.ops| && s.ops[o].outcome.InFlight?
    ensures StopsOk(Settle(s, o, outcome))
  {
    WithoutDistinct(s.started, s.ops[o].part);
    SettlePending(s, o, outcome);
    SettleSerial(s, o, outcome);
    var t := Settle(s, o, outcome);
    forall p | 0 <= p < |t.ops| ensures OpOk(t, t.ops[p], p) { SettleKeeps(s, o, outcome, p); }
    hide Without, OpOk, Serial, PendingOk;
  }

  lemma SettleWait(s: Stops, o: nat, outcome: Outcome, c: nat, admission: bool, w: Wait)
    requires StopsOk(s) && o < |s.ops| && s.ops[o].outcome.InFlight? && WaitOk(s, c, admission, w)
    ensures WaitOk(Settle(s, o, outcome), c, admission, w)
  {
    WithoutDistinct(s.started, s.ops[o].part);
    assert OpOk(s, s.ops[o], o);
    if w.OnOp? { assert OpOk(s, s.ops[w.op], w.op); }
    hide Without;
  }
}
