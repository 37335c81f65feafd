/** In what order the runtime starts its components, and in which step of an ordinary shutdown each stops.
    A component is known by its place in the order of registration. */
module ServicePlan {
  datatype Category =
    | Telemetry | Connector | Storage | DelayPool | TaskPool | PriorityTaskPool
    | Component | DataSink | DataSource | HttpServer

  /** `hasAdmission` says whether the lifecycle has a `stopAdmission`. */
  datatype Part = Part(category: Category, hasAdmission: bool)

  const START_ORDER: seq<Category> :=
    [Telemetry, Connector, Storage, DelayPool, TaskPool, PriorityTaskPool, Component, DataSink, DataSource, HttpServer]

  /** The place of a category in START_ORDER. */
  function Rank(category: Category): (r: nat)
    ensures r < |START_ORDER| && START_ORDER[r] == category
  {
    match category
    case Telemetry => 0
    case Connector => 1
    case Storage => 2
    case DelayPool => 3
    case TaskPool => 4
    case PriorityTaskPool => 5
    case Component => 6
    case DataSink => 7
    case DataSource => 8
    case HttpServer => 9
  }

  /** One awaited call of the startup: a component's `start`, or a connector's `startAdmission`. */
  datatype Launch = Start(part: nat) | Open(part: nat)

  /** The components of one category from the n-th on, as registered. */
  function OfCategory(parts: seq<Part>, category: Category, n: nat): (r: seq<nat>)
    requires n <= |parts|
    ensures forall i :: 0 <= i < |r| ==> n <= r[i] < |parts| && parts[r[i]].category == category
    ensures forall i, j :: 0 <= i < j < |r| ==> r[i] < r[j]
    ensures forall c :: n <= c < |parts| && parts[c].category == category ==> c in r
    decreases |parts| - n
  {
    if n == |parts| then []
    else if parts[n].category == category then [n] + OfCategory(parts, category, n + 1)
    else OfCategory(parts, category, n + 1)
  }

  function Calls(list: seq<nat>, opening: bool): (r: seq<Launch>)
    ensures |r| == |list|
    ensures forall i :: 0 <= i < |list| ==> r[i] == if opening then Open(list[i]) else Start(list[i])
  {
    seq(|list|, i requires 0 <= i < |list| => if opening then Open(list[i]) else Start(list[i]))
  }

  predicate Skipped(category: Category, admission: bool) {
    !admission && (category == DataSource || category == HttpServer)
  }

  /** The calls of one turn of the startup loop. Every connector has started when the sources' turn comes. */
  function Turn(parts: seq<Part>, category: Category, admission: bool): seq<Launch> {
    if Skipped(category, admission) then []
    else (if category == DataSource then Calls(OfCategory(parts, Connector, 0), true) else [])
         + Calls(OfCategory(parts, category, 0), false)
  }

  function PlanFrom(parts: seq<Part>, admission: bool, r: nat): seq<Launch>
    requires r <= |START_ORDER|
    decreases |START_ORDER| - r
  {
    if r == |START_ORDER| then [] else Turn(parts, START_ORDER[r], admission) + PlanFrom(parts, admission, r + 1)
  }

  function Plan(parts: seq<Part>, admission: bool): seq<Launch> {
    PlanFrom(parts, admission, 0)
  }

  /** The components a stretch of the plan starts. */
  function Starts(plan: seq<Launch>): seq<nat> {
    if plan == [] then []
    else Starts(plan[..|plan| - 1]) + if plan[|plan| - 1].Start? then [plan[|plan| - 1].part] else []
  }

  /** `a` starts before `b`. */
  predicate Before(parts: seq<Part>, a: nat, b: nat)
    requires a < |parts| && b < |parts|
  {
    var x, y := Rank(parts[a].category), Rank(parts[b].category);
    x < y || (x == y && a < b)
  }

  ghost predicate Known(parts: seq<Part>, list: seq<nat>) {
    forall i :: 0 <= i < |list| ==> list[i] < |parts|
  }

  ghost predicate InStartOrder(parts: seq<Part>, list: seq<nat>) {
    Known(parts, list) && forall i, j :: 0 <= i < j < |list| ==> Before(parts, list[i], list[j])
  }

  lemma {:induction false} StartsSum(a: seq<Launch>, b: seq<Launch>)
    ensures Starts(a + b) == Starts(a) + Starts(b)
  {
    if b == [] {
      assert a + b == a;
    } else {
      StartsSum(a, b[..|b| - 1]);
      assert (a + b)[..|a + b| - 1] == a + b[..|b| - 1];
    }
  }

  lemma {:induction false} StartsCalls(list: seq<nat>, opening: bool)
    ensures Starts(Calls(list, opening)) == if opening then [] else list
  {
    if list != [] {
      StartsCalls(list[..|list| - 1], opening);
      assert Calls(list, opening)[..|list| - 1] == Calls(list[..|list| - 1], opening);
    }
  }

  lemma StartsTurn(parts: seq<Part>, category: Category, admission: bool)
    ensures Starts(Turn(parts, category, admission)) ==
      if Skipped(category, admission) then [] else OfCategory(parts, category, 0)
  {
    StartsCalls(OfCategory(parts, Connector, 0), true);
    StartsCalls(OfCategory(parts, category, 0), false);
    StartsSum(Calls(OfCategory(parts, Connector, 0), true), Calls(OfCategory(parts, category, 0), false));
    assert [] + Calls(OfCategory(parts, category, 0), false) == Calls(OfCategory(parts, category, 0), false);
  }

  /** `list` holds, in start order, the components of every category from the r-th on that is not skipped. */
  ghost predicate Covers(parts: seq<Part>, admission: bool, r: nat, list: seq<nat>) {
    && InStartOrder(parts, list)
    && (forall i ::
        0 <= i < |list| ==> Rank(parts[list[i]].category) >= r && !Skipped(parts[list[i]].category, admission))
    && (forall c ::
        0 <= c < |parts| && Rank(parts[c].category) >= r && !Skipped(parts[c].category, admission) ==> c in list)
  }

  lemma StartOrderKnown(parts: seq<Part>, list: seq<nat>, i: nat)
    requires InStartOrder(parts, list) && i < |list|
    ensures list[i] < |parts|
  {}

  /** The components of the r-th category, then those of later ones, are in start order. */
  lemma OrderedMore(parts: seq<Part>, r: nat, first: seq<nat>, rest: seq<nat>)
    requires InStartOrder(parts, rest) && forall i :: 0 <= i < |rest| ==> Rank(parts[rest[i]].category) > r
    requires Known(parts, first) && forall i :: 0 <= i < |first| ==> Rank(parts[first[i]].category) == r
    requires forall i, j :: 0 <= i < j < |first| ==> first[i] < first[j]
    ensures InStartOrder(parts, first + rest)
  {
    hide Rank;
  }

  lemma CoversMore(parts: seq<Part>, admission: bool, r: nat, first: seq<nat>, rest: seq<nat>)
    requires r < |START_ORDER| && Covers(parts, admission, r + 1, rest)
    requires first == if Skipped(START_ORDER[r], admission) then [] else OfCategory(parts, START_ORDER[r], 0)
    ensures Covers(parts, admission, r, first + rest)
  {
    hide OfCategory, InStartOrder, Before;
    var list := first + rest;
    forall i | 0 <= i < |first| ensures first[i] < |parts| && Rank(parts[first[i]].category) == r {}
    forall i | 0 <= i < |rest| ensures rest[i] < |parts| { StartOrderKnown(parts, rest, i); }
    OrderedMore(parts, r, first, rest);
    forall c | 0 <= c < |parts| && Rank(parts[c].category) >= r && !Skipped(parts[c].category, admission)
      ensures c in list
    {
      if Rank(parts[c].category) == r { assert c in first; } else { assert c in rest; }
    }
  }

  lemma {:induction false} PlanFromStarts(parts: seq<Part>, admission: bool, r: nat)
    requires r <= |START_ORDER|
    ensures Covers(parts, admission, r, Starts(PlanFrom(parts, admission, r)))
    decreases |START_ORDER| - r
  {
    hide OfCategory, Turn;
    if r < |START_ORDER| {
      var turn, rest := Turn(parts, START_ORDER[r], admission), PlanFrom(parts, admission, r + 1);
      PlanFromStarts(parts, admission, r + 1);
      StartsSum(turn, rest);
      StartsTurn(parts, START_ORDER[r], admission);
      CoversMore(parts, admission, r, Starts(turn), Starts(rest));
      hide Covers;
    }
  }

  /** The plan starts every component, or every one but sources and servers, once, by category and then
      as registered. */
  lemma PlanStarts(parts: seq<Part>, admission: bool)
    ensures InStartOrder(parts, Starts(Plan(parts, admission)))
    ensures forall c ::
      0 <= c < |parts| ==> (c in Starts(Plan(parts, admission)) <==> !Skipped(parts[c].category, admission))
  {
    PlanFromStarts(parts, admission, 0);
  }

  /** The calls are starts of components of these ranks. */
  ghost predicate StartsOf(parts: seq<Part>, calls: seq<Launch>, low: nat, high: nat) {
    forall i :: 0 <= i < |calls| ==>
      calls[i].Start? && calls[i].part < |parts| && low <= Rank(parts[calls[i].part].category) < high
  }

  lemma RankAt(r: nat)
    requires r < |START_ORDER|
    ensures Rank(START_ORDER[r]) == r
  {}

  lemma ListStarts(parts: seq<Part>, r: nat)
    requires r < |START_ORDER|
    ensures StartsOf(parts, Calls(OfCategory(parts, START_ORDER[r], 0), false), r, r + 1)
  {
    RankAt(r);
    hide Rank, OfCategory, Calls;
  }

  /** One turn of the startup loop: the sources' begins with the opening of the connectors. */
  lemma TurnIs(parts: seq<Part>, category: Category, admission: bool)
    ensures Turn(parts, category, admission) ==
      if Skipped(category, admission) then []
      else if category == DataSource then
        Calls(OfCategory(parts, Connector, 0), true) + Calls(OfCategory(parts, category, 0), false)
      else Calls(OfCategory(parts, category, 0), false)
  {
    assert [] + Calls(OfCategory(parts, category, 0), false) == Calls(OfCategory(parts, category, 0), false);
  }

  lemma StartsJoin(parts: seq<Part>, a: seq<Launch>, b: seq<Launch>, low: nat, mid: nat, high: nat)
    requires StartsOf(parts, a, low, mid) && StartsOf(parts, b, mid, high) && low <= mid <= high
    ensures StartsOf(parts, a + b, low, high)
  {}

  lemma Assoc<T>(a: seq<T>, b: seq<T>, c: seq<T>)
    ensures a + (b + c) == a + b + c && a + [] == a
  {}

  lemma PlanNext(parts: seq<Part>, admission: bool, r: nat)
    requires r <= |START_ORDER|
    ensures r == |START_ORDER| ==> PlanFrom(parts, admission, r) == []
    ensures r < |START_ORDER| ==>
      PlanFrom(parts, admission, r) == Turn(parts, START_ORDER[r], admission) + PlanFrom(parts, admission, r + 1)
  {
    hide Turn, START_ORDER;
  }

  lemma Places(r: nat)
    ensures |START_ORDER| == SOURCES + 2
    ensures START_ORDER[SOURCES] == DataSource && START_ORDER[SOURCES + 1] == HttpServer
    ensures r < SOURCES ==> START_ORDER[r] != DataSource && START_ORDER[r] != HttpServer
  {}

  /** What the plan does from the r-th category up to the sources. */
  lemma {:induction false} BeforeSources(parts: seq<Part>, admission: bool, r: nat) returns (before: seq<Launch>)
    requires r <= SOURCES
    ensures PlanFrom(parts, admission, r) == before + PlanFrom(parts, admission, SOURCES)
    ensures StartsOf(parts, before, r, SOURCES)
    decreases SOURCES - r
  {
    hide *;
    Places(r);
    if r == SOURCES {
      before := [];
      NoneBefore(parts, PlanFrom(parts, admission, SOURCES));
    } else {
      var rest := BeforeSources(parts, admission, r + 1);
      var turn := Turn(parts, START_ORDER[r], admission);
      PlanNext(parts, admission, r);
      OneTurn(parts, r, admission);
      Assoc(turn, rest, PlanFrom(parts, admission, SOURCES));
      StartsJoin(parts, turn, rest, r, r + 1, SOURCES);
      before := turn + rest;
    }
  }

  lemma NoneBefore(parts: seq<Part>, plan: seq<Launch>)
    ensures plan == [] + plan && StartsOf(parts, [], SOURCES, SOURCES)
  {}

  lemma OneTurn(parts: seq<Part>, r: nat, admission: bool)
    requires r < |START_ORDER| && START_ORDER[r] != DataSource && START_ORDER[r] != HttpServer
    ensures StartsOf(parts, Turn(parts, START_ORDER[r], admission), r, r + 1)
  {
    hide Turn, START_ORDER, StartsOf, Rank, Calls, OfCategory;
    TurnIs(parts, START_ORDER[r], admission);
    ListStarts(parts, r);
  }

  /** The place of the sources in the start order. */
  const SOURCES: nat := 8

  /** With admission, every connector is opened once, as registered, after everything that starts before the sources and
      before the first of them; without, none is. */
  lemma PlanOpens(parts: seq<Part>, admission: bool) returns (before: seq<Launch>, after: seq<Launch>)
    ensures Plan(parts, admission)
      == before + (if admission then Calls(OfCategory(parts, Connector, 0), true) else []) + after
    ensures StartsOf(parts, before, 0, SOURCES) && StartsOf(parts, after, SOURCES, |START_ORDER|)
  {
    hide Turn, Rank, PlanFrom, StartsOf;
    before := BeforeSources(parts, admission, 0);
    after := FromSources(parts, admission);
  }

  lemma FromSources(parts: seq<Part>, admission: bool) returns (after: seq<Launch>)
    ensures PlanFrom(parts, admission, SOURCES)
      == (if admission then Calls(OfCategory(parts, Connector, 0), true) else []) + after
    ensures StartsOf(parts, after, SOURCES, |START_ORDER|)
  {
    hide Turn, Rank, PlanFrom, StartsOf, OfCategory, Calls, START_ORDER, Skipped;
    Places(SOURCES);
    PlanNext(parts, admission, SOURCES);
    PlanNext(parts, admission, SOURCES + 1);
    PlanNext(parts, admission, SOURCES + 2);
    after := LastTurns(parts, admission);
  }

  lemma LastTurns(parts: seq<Part>, admission: bool) returns (after: seq<Launch>)
    ensures Turn(parts, DataSource, admission) + (Turn(parts, HttpServer, admission) + [])
      == (if admission then Calls(OfCategory(parts, Connector, 0), true) else []) + after
    ensures StartsOf(parts, after, SOURCES, |START_ORDER|)
  {
    hide Turn, Rank, StartsOf, OfCategory, Calls, START_ORDER;
    Places(0);
    TurnIs(parts, DataSource, admission);
    TurnIs(parts, HttpServer, admission);
    if admission {
      var sources := Calls(OfCategory(parts, DataSource, 0), false);
      var servers := Calls(OfCategory(parts, HttpServer, 0), false);
      ListStarts(parts, SOURCES);
      ListStarts(parts, SOURCES + 1);
      StartsJoin(parts, sources, servers, SOURCES, SOURCES + 1, SOURCES + 2);
      after := sources + servers;
      Assoc(Calls(OfCategory(parts, Connector, 0), true), sources, servers);
      Assoc(servers, [], []);
    } else {
      after := [];
      NoStarts(parts);
    }
  }

  lemma NoStarts(parts: seq<Part>)
    ensures StartsOf(parts, [], SOURCES, |START_ORDER|)
  {}

  lemma {:induction false} StartsPrefix(plan: seq<Launch>, p: nat)
    requires p <= |plan|
    ensures Starts(plan[..p]) <= Starts(plan)
  {
    StartsSum(plan[..p], plan[p..]);
    assert plan == plan[..p] + plan[p..];
  }

  // ---- The ordinary shutdown ----

  predicate Admits(category: Category) {
    category == DataSource || category == Component || category == HttpServer
  }

  predicate Stores(category: Category) {
    category == Storage || category == DelayPool || category == TaskPool || category == PriorityTaskPool
  }

  /** The step of the ordinary shutdown in which a component's `stop` is called. */
  function StepOf(part: Part): (k: nat)
    ensures 1 <= k <= 8 && k != 5
  {
    if Admits(part.category) then (if part.hasAdmission then 2 else 1)
    else if part.category == Connector then (if part.hasAdmission then 7 else 3)
    else if Stores(part.category) then 4
    else if part.category == DataSink then 6
    else 8
  }

  /** Whether the k-th step concerns a component. */
  predicate InStep(part: Part, k: nat) {
    match k
    case 1 => Admits(part.category)
    case 2 => Admits(part.category) && part.hasAdmission
    case 3 => part.category == Connector
    case 4 => Stores(part.category)
    case 6 => part.category == DataSink
    case 7 => part.category == Connector
    case 8 => part.category == Telemetry
    case _ => false
  }

  /** Whether the k-th step calls `stopAdmission` on a component it concerns. */
  predicate AdmissionOnly(part: Part, k: nat) {
    (k == 1 || k == 3) && part.hasAdmission
  }
}
