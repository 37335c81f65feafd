/** The two-generation join store as a state machine whose steps are the stretches of code between two
    awaits. Groups, deadline arms and `joinValue` calls are numbered in order of creation; a number plays
    the part of object identity. Callbacks, abort signals, timers and the clock are chosen by the event. */
module JoinStorage {
  import opened Base

  type Key(==, !new)
  type Value(==, !new)

  /** One link of a group's promise chain. */
  datatype Op = JoinOp(call: nat) | ExpireOp(arm: nat)

  /** One activation of `armDeadline`: a timer, or an abort listener when the context has a deadline. */
  datatype Arm = Arm(item: nat, byContext: bool, retired: bool)

  /** A value appended to a group, and the call that appended it. */
  datatype Entry = Entry(call: nat, index: nat, value: Value)

  /** A group. `ops` is the promise chain behind `tail`: its head is the operation that runs next, or, when
      `busy`, the one suspended in a user callback. `log`, `deadlineRuns` and `joined` are history. */
  datatype Item = Item(key: Key, values: seq<seq<Value>>, deadline: Option<real>, processed: bool,
                       cancel: Option<nat>, ops: seq<Op>, busy: bool,
                       log: seq<Entry>, deadlineRuns: nat, joined: bool)

  datatype Phase = Refused | Admitting | Seeking | Queued(item: nat) | InCallback(item: nat) | Leaving | Done

  /** A `joinValue` call. `group` and `turnedAway` are history. */
  datatype Call = Call(key: Key, index: nat, value: Value, ttl: real, renew: bool, byContext: bool,
                       phase: Phase, group: Option<nat>, turnedAway: set<nat>)

  datatype Barrier = Open | Pending | Released

  datatype Location = Current | Previous | Nowhere

  datatype Store = Store(now: real, metrics: bool, current: map<Key, nat>, previous: map<Key, nat>,
                         items: seq<Item>, arms: seq<Arm>, calls: seq<Call>,
                         count: int, evictions: nat, highWaterMark: nat,
                         activeTTLJoins: int, barrier: Barrier)
  {
    function Size(): nat { |current| + |previous| }
  }

  function Initial(now: real, metrics: bool): Store {
    Store(now, metrics, map[], map[], [], [], [], 0, 0, 0, 0, Open)
  }

  // ---- The private helpers of the class ----

  predicate Expired(item: Item, now: real) {
    item.deadline.Some? && item.deadline.value <= now
  }

  function Locate(s: Store, key: Key, x: nat): Location {
    if key in s.current && s.current[key] == x then Current
    else if key in s.previous && s.previous[key] == x then Previous
    else Nowhere
  }

  predicate Located(s: Store, key: Key, x: nat) {
    Locate(s, key, x) != Nowhere
  }

  ghost predicate MapOk(generation: map<Key, nat>, items: seq<Item>) {
    forall k <- generation :: generation[k] < |items| && items[generation[k]].key == k
  }

  ghost predicate MapsOk(s: Store) {
    s.current.Keys !! s.previous.Keys && MapOk(s.current, s.items) && MapOk(s.previous, s.items)
  }

  ghost predicate CancelOk(item: Item, x: nat, arms: seq<Arm>) {
    item.cancel.Some? ==> item.cancel.value < |arms| && arms[item.cancel.value].item == x
  }

  ghost predicate CancelsOk(s: Store) {
    forall x :: 0 <= x < |s.items| ==> CancelOk(s.items[x], x, s.arms)
  }

  function FindLive(s: Store, key: Key): Option<nat>
    requires MapsOk(s)
  {
    if key in s.current then (if Expired(s.items[s.current[key]], s.now) then None else Some(s.current[key]))
    else if key in s.previous && !Expired(s.items[s.previous[key]], s.now) then Some(s.previous[key])
    else None
  }

  function CancelDeadline(s: Store, x: nat): (t: Store)
    requires x < |s.items| && CancelOk(s.items[x], x, s.arms)
    ensures t == s.(items := t.items, arms := t.arms)
  {
    match s.items[x].cancel
    case None => s
    case Some(a) => s.(arms := s.arms[a := s.arms[a].(retired := true)])
  }

  function Enqueue(s: Store, x: nat, op: Op): Store
    requires x < |s.items|
  {
    s.(items := s.items[x := s.items[x].(ops := s.items[x].ops + [op])])
  }

  function Expire(s: Store, a: nat): (t: Store)
    requires a < |s.arms| && s.arms[a].item < |s.items|
    requires CancelOk(s.items[s.arms[a].item], s.arms[a].item, s.arms)
    ensures t == s.(items := t.items, arms := t.arms)
  {
    if s.arms[a].retired then s
    else Enqueue(CancelDeadline(s, s.arms[a].item), s.arms[a].item, ExpireOp(a))
  }

  /** `aborted` says whether the context's signal has already fired. */
  function ArmDeadline(s: Store, x: nat, byContext: bool, aborted: bool): (t: Store)
    requires x < |s.items|
    ensures t == s.(items := t.items, arms := t.arms)
  {
    var a := |s.arms|;
    var armed := s.(arms := s.arms + [Arm(x, byContext, false)],
                    items := s.items[x := s.items[x].(cancel := Some(a))]);
    if byContext && aborted then Expire(armed, a) else armed
  }

  function RemoveAt(s: Store, key: Key, location: Location, evicting: bool): Store {
    if location == Nowhere then s
    else
      var removed :=
        if location == Current then s.(current := s.current - {key}) else s.(previous := s.previous - {key});
      if !s.metrics then removed
      else removed.(count := s.count - 1, evictions := s.evictions + if evicting then 1 else 0)
  }

  function EmptyColumns(n: nat): seq<seq<Value>> {
    seq(n, _ => [])
  }

  function NewItem(s: Store, c: nat): Store
    requires c < |s.calls|
  {
    var call := s.calls[c];
    var key := call.key;
    var item := Item(key, EmptyColumns(call.index + 1), if call.ttl > 0.0 then Some(s.now + call.ttl) else None,
                     false, None, [], false, [], 0, false);
    var dropped := if key in s.previous && s.metrics then s.count - 1 else s.count;
    var counted := if key !in s.current && s.metrics then dropped + 1 else dropped;
    s.(previous := s.previous - {key}, current := s.current[key := |s.items|],
       items := s.items + [item], count := counted)
  }

  function CreateItem(s: Store, c: nat, aborted: bool): Store
    requires c < |s.calls|
  {
    if s.calls[c].ttl > 0.0 then ArmDeadline(NewItem(s, c), |s.items|, s.calls[c].byContext, aborted)
    else NewItem(s, c)
  }

  function AppendAt(values: seq<seq<Value>>, index: nat, value: Value): seq<seq<Value>> {
    var padded := if |values| <= index then values + EmptyColumns(index + 1 - |values|) else values;
    padded[index := padded[index] + [value]]
  }

  // ---- The atomic steps ----

  datatype Outcome = Returned(done: bool) | Threw

  datatype Event =
    | Tick(now: real)
    | Begin(key: Key, index: int, value: Value, ttl: real, renew: bool, byContext: bool)
    | Admit(call: nat)
    | Seek(call: nat, aborted: bool)
    | StartOp(item: nat)
    | FinishJoin(item: nat, outcome: Outcome, aborted: bool)
    | FinishExpire(item: nat)
    | Fire(arm: nat)
    | Leave(call: nat)
    | Rotate
    | Stop

  function WithPhase(s: Store, c: nat, phase: Phase): Store
    requires c < |s.calls|
  {
    s.(calls := s.calls[c := s.calls[c].(phase := phase)])
  }

  function DoBegin(s: Store, key: Key, index: int, value: Value, ttl: real, renew: bool, byContext: bool): Store {
    if index < 0 || index > MAX_SAFE_INTEGER then
      s.(calls := s.calls + [Call(key, 0, value, ttl, renew, byContext, Refused, None, {})])
    else if ttl > 0.0 && s.barrier != Open then
      s.(calls := s.calls + [Call(key, index, value, ttl, renew, byContext, Admitting, None, {})])
    else
      s.(calls := s.calls + [Call(key, index, value, ttl, renew, byContext, Seeking, None, {})],
         activeTTLJoins := s.activeTTLJoins + if ttl > 0.0 then 1 else 0)
  }

  function DoSeek(s: Store, c: nat, aborted: bool): Store
    requires c < |s.calls| && MapsOk(s)
  {
    match FindLive(s, s.calls[c].key)
    case Some(x) => WithPhase(Enqueue(s, x, JoinOp(c)), c, Queued(x))
    case None =>
      var x := |s.items|;
      WithPhase(Enqueue(CreateItem(s, c, aborted), x, JoinOp(c)), c, Queued(x))
  }

  function PopOp(s: Store, x: nat): Store
    requires x < |s.items| && s.items[x].ops != []
  {
    s.(items := s.items[x := s.items[x].(ops := s.items[x].ops[1..], busy := false)])
  }

  predicate TurnsAway(s: Store, x: nat)
    requires x < |s.items|
  {
    s.items[x].processed || Expired(s.items[x], s.now) || !Located(s, s.items[x].key, x)
  }

  function StartJoin(s: Store, x: nat, c: nat): Store
    requires x < |s.items| && c < |s.calls| && s.items[x].ops != []
  {
    var call := s.calls[c];
    if TurnsAway(s, x) then
      PopOp(s, x).(calls := s.calls[c := call.(phase := Seeking, turnedAway := call.turnedAway + {x})])
    else
      var item := s.items[x];
      s.(items := s.items[x := item.(values := AppendAt(item.values, call.index, call.value), busy := true,
                                     log := item.log + [Entry(c, call.index, call.value)])],
         calls := s.calls[c := call.(phase := InCallback(x), group := Some(x))])
  }

  function StartExpire(s: Store, x: nat, a: nat): Store
    requires x < |s.items| && a < |s.arms| && s.items[x].ops != [] && CancelOk(s.items[x], x, s.arms)
  {
    var item := s.items[x];
    if item.processed then PopOp(s, x)
    else if !s.arms[a].byContext && item.deadline.Some? && item.deadline.value - s.now > 0.0 then
      ArmDeadline(CancelDeadline(PopOp(s, x), x), x, false, false)
    else
      s.(items := s.items[x := item.(processed := true, busy := true, deadlineRuns := item.deadlineRuns + 1)])
  }

  /** The group before its new deadline is armed. */
  function Renewed(u: Store, x: nat, ttl: real): Store
    requires x < |u.items|
  {
    var key := u.items[x].key;
    u.(previous := if Locate(u, key, x) == Previous then u.previous - {key} else u.previous,
       current := u.current[key := x],
       items := u.items[x := u.items[x].(deadline := Some(u.now + ttl))])
  }

  function RenewDeadline(s: Store, x: nat, ttl: real, byContext: bool, aborted: bool): Store
    requires x < |s.items| && CancelOk(s.items[x], x, s.arms)
  {
    ArmDeadline(CancelDeadline(Renewed(s, x, ttl), x), x, byContext, aborted)
  }

  function Mark(s: Store, x: nat, done: bool): Store
    requires x < |s.items|
  {
    s.(items := s.items[x := s.items[x].(processed := done, joined := s.items[x].joined || done)])
  }

  function DoFinishJoin(s: Store, x: nat, c: nat, outcome: Outcome, aborted: bool): Store
    requires x < |s.items| && c < |s.calls| && s.items[x].ops != [] && CancelOk(s.items[x], x, s.arms)
  {
    var popped := WithPhase(PopOp(s, x), c, Leaving);
    match outcome
    case Threw => popped
    case Returned(done) =>
      var marked := Mark(popped, x, done);
      var key := s.items[x].key;
      var location := Locate(s, key, x);
      if location == Nowhere then marked
      else if done then RemoveAt(CancelDeadline(marked, x), key, location, false)
      else if s.calls[c].renew && s.calls[c].ttl > 0.0 then
        RenewDeadline(marked, x, s.calls[c].ttl, s.calls[c].byContext, aborted)
      else marked
  }

  function DoFinishExpire(s: Store, x: nat): Store
    requires x < |s.items| && s.items[x].ops != []
  {
    var key := s.items[x].key;
    PopOp(RemoveAt(s, key, Locate(s, key, x), true), x)
  }

  function DoLeave(s: Store, c: nat): Store
    requires c < |s.calls|
  {
    var left := WithPhase(s, c, Done);
    if s.calls[c].ttl > 0.0 then
      left.(activeTTLJoins := s.activeTTLJoins - 1,
            barrier := if s.activeTTLJoins - 1 == 0 && s.barrier == Pending then Released else s.barrier)
    else left
  }

  /** Groups of the old generation whose key the young one lacks. */
  function Rescued(current: map<Key, nat>, previous: map<Key, nat>): map<Key, nat> {
    map k | k in previous && k !in current :: previous[k]
  }

  /** The store has shrunk enough since its high-water mark. */
  predicate Shrunk(total: nat, highWaterMark: nat) {
    highWaterMark == 0 || total * SHRINK_FACTOR < highWaterMark
  }

  /** Both generations move into the old one. */
  function Merged(s: Store): Store {
    var evicted := |s.previous| - |Rescued(s.current, s.previous)|;
    var merged := s.(previous := s.current + Rescued(s.current, s.previous), current := map[]);
    if s.metrics && evicted > 0 then merged.(count := s.count - evicted, evictions := s.evictions + evicted)
    else merged
  }

  function DoRotate(s: Store): Store {
    var total := s.Size();
    if Shrunk(total, s.highWaterMark) then Merged(s.(highWaterMark := total))
    else s.(highWaterMark := if total > s.highWaterMark then total else s.highWaterMark)
  }

  function DoStop(s: Store): Store {
    if s.barrier != Open then s
    else s.(barrier := if s.activeTTLJoins == 0 then Released else Pending)
  }

  // ---- The invariant ----

  ghost predicate ArmOk(arm: Arm, a: nat, items: seq<Item>) {
    arm.item < |items| && (!arm.retired ==> items[arm.item].cancel == Some(a))
  }

  /** At most one arm of a group is live, and it is the one `cancelDeadline` would retire. */
  ghost predicate ArmsOk(s: Store) {
    CancelsOk(s) && forall a :: 0 <= a < |s.arms| ==> ArmOk(s.arms[a], a, s.items)
  }

  ghost predicate OpOk(op: Op, x: nat, key: Key, running: bool, calls: seq<Call>, arms: seq<Arm>) {
    match op
    case JoinOp(c) =>
      c < |calls| && calls[c].key == key && calls[c].phase == (if running then InCallback(x) else Queued(x))
    case ExpireOp(a) => a < |arms| && arms[a].item == x
  }

  ghost predicate ChainOk(item: Item, x: nat, calls: seq<Call>, arms: seq<Arm>) {
    && (forall i :: 0 <= i < |item.ops| ==> OpOk(item.ops[i], x, item.key, i == 0 && item.busy, calls, arms))
    && (forall i, j :: 0 <= i < j < |item.ops| && item.ops[i].JoinOp? ==> item.ops[i] != item.ops[j])
    && (item.busy ==> item.ops != [])
  }

  /** The links of every promise chain and the calls that wait for them match one to one. */
  ghost predicate ChainsOk(s: Store) {
    forall x :: 0 <= x < |s.items| ==> ChainOk(s.items[x], x, s.calls, s.arms)
  }

  ghost predicate WaitOk(call: Call, c: nat, items: seq<Item>) {
    (call.phase.Queued? || call.phase.InCallback?) ==>
      call.phase.item < |items| && JoinOp(c) in items[call.phase.item].ops
  }

  ghost predicate WaitsOk(s: Store) {
    forall c :: 0 <= c < |s.calls| ==> WaitOk(s.calls[c], c, s.items)
  }

  ghost predicate Live(item: Item, arms: seq<Arm>) {
    item.cancel.Some? && item.cancel.value < |arms| && !arms[item.cancel.value].retired
  }

  ghost predicate Expiring(item: Item) {
    exists i :: 0 <= i < |item.ops| && item.ops[i].ExpireOp?
  }

  ghost predicate ExpiryOk(item: Item, arms: seq<Arm>) {
    !item.processed && item.deadline.Some? ==> Live(item, arms) || Expiring(item)
  }

  /** No unfinished group with a deadline is orphaned. */
  ghost predicate ExpiriesOk(s: Store) {
    forall x :: 0 <= x < |s.items| ==> ExpiryOk(s.items[x], s.arms)
  }

  ghost predicate InDeadlineCallback(item: Item) {
    item.busy && item.ops != [] && item.ops[0].ExpireOp?
  }

  ghost predicate InJoinCallback(item: Item) {
    item.busy && item.ops != [] && item.ops[0].JoinOp?
  }

  ghost predicate CompletionOk(item: Item) {
    && item.deadlineRuns <= 1
    && (item.processed <==> item.joined || item.deadlineRuns == 1)
    && !(item.joined && item.deadlineRuns == 1)
    && (InJoinCallback(item) ==> !item.processed)
    && (InDeadlineCallback(item) ==> item.deadlineRuns == 1)
  }

  /** A group is finished once, by a join callback or by the deadline callback, and then leaves the maps. */
  ghost predicate CompletionsOk(s: Store) {
    forall x :: 0 <= x < |s.items| ==>
      CompletionOk(s.items[x]) &&
      (s.items[x].processed && Located(s, s.items[x].key, x) ==> InDeadlineCallback(s.items[x]))
  }

  /** The values appended at `index`, in order. */
  function Column(log: seq<Entry>, index: nat): seq<Value> {
    if log == [] then []
    else
      var last := log[|log| - 1];
      Column(log[..|log| - 1], index) + if last.index == index then [last.value] else []
  }

  ghost predicate TableOf(values: seq<seq<Value>>, log: seq<Entry>) {
    && (forall i :: 0 <= i < |values| ==> values[i] == Column(log, i))
    && (forall j :: 0 <= j < |log| ==> log[j].index < |values|)
  }

  ghost predicate EntryOk(e: Entry, x: nat, calls: seq<Call>) {
    && e.call < |calls| && calls[e.call].group == Some(x)
    && calls[e.call].index == e.index && calls[e.call].value == e.value
  }

  ghost predicate LogOk(item: Item, x: nat, calls: seq<Call>) {
    && TableOf(item.values, item.log)
    && (forall j :: 0 <= j < |item.log| ==> EntryOk(item.log[j], x, calls))
    && (forall i, j :: 0 <= i < j < |item.log| ==> item.log[i].call != item.log[j].call)
  }

  ghost predicate LoggedIn(c: nat, log: seq<Entry>) {
    exists j :: 0 <= j < |log| && log[j].call == c
  }

  ghost predicate LoggedOk(call: Call, c: nat, items: seq<Item>) {
    call.group.Some? ==> call.group.value < |items| && LoggedIn(c, items[call.group.value].log)
  }

  /** A group holds exactly the values of the calls that were admitted to it, each once. */
  ghost predicate LogsOk(s: Store) {
    && (forall x :: 0 <= x < |s.items| ==> LogOk(s.items[x], x, s.calls))
    && (forall c :: 0 <= c < |s.calls| ==> LoggedOk(s.calls[c], c, s.items))
  }

  ghost predicate PhaseOk(call: Call) {
    match call.phase
    case InCallback(x) => call.group == Some(x)
    case Leaving => call.group.Some?
    case Done => call.group.Some?
    case Admitting => call.group == None && call.ttl > 0.0
    case _ => call.group == None
  }

  ghost predicate PhasesOk(s: Store) {
    forall c :: 0 <= c < |s.calls| ==> PhaseOk(s.calls[c])
  }

  /** A group that turns every further call away, whatever happens next. */
  ghost predicate Dead(s: Store, x: nat)
    requires x < |s.items|
  {
    !Located(s, s.items[x].key, x) || (Expired(s.items[x], s.now) && !InJoinCallback(s.items[x]))
  }

  ghost predicate AwayOk(s: Store, call: Call) {
    && (forall x <- call.turnedAway :: x < |s.items| && Dead(s, x))
    && (call.phase.Queued? || call.phase.InCallback? ==> call.phase.item !in call.turnedAway)
  }

  ghost predicate AwaysOk(s: Store) {
    forall c :: 0 <= c < |s.calls| ==> AwayOk(s, s.calls[c])
  }

  ghost predicate GaugeOk(s: Store) {
    s.metrics ==> s.count == s.Size()
  }

  predicate Inside(call: Call) {
    call.ttl > 0.0 && !call.phase.Refused? && !call.phase.Admitting? && !call.phase.Done?
  }

  ghost function TTLJoins(calls: seq<Call>): set<nat> {
    set c | 0 <= c < |calls| && Inside(calls[c])
  }

  /** `stop` is held back exactly while a call with a TTL is inside. */
  ghost predicate BarrierOk(s: Store) {
    && s.activeTTLJoins == |TTLJoins(s.calls)|
    && (s.barrier == Pending ==> s.activeTTLJoins > 0)
  }

  ghost predicate Shape(s: Store) {
    MapsOk(s) && ArmsOk(s) && ChainsOk(s) && WaitsOk(s) && ExpiriesOk(s)
  }

  ghost predicate History(s: Store) {
    CompletionsOk(s) && LogsOk(s) && PhasesOk(s) && AwaysOk(s)
  }

  ghost predicate Inv(s: Store) {
    Shape(s) && History(s) && GaugeOk(s) && BarrierOk(s)
  }
}
