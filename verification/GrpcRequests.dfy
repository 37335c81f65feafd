/** Unary gRPC requests from admission to the end of `endRequest`, and the result callbacks that run for
    them, as a state machine whose steps are the stretches of code between two awaits. Requests, callbacks
    and callback runs are numbered; what handlers and callbacks do is chosen by the event. */
module GrpcRequests {
  import opened Base

  type StreamId(==, !new)
  type MessageId(==, !new)

  /** A `RequestResult`. `running` is history: the callback runs `activeCallbacks` counts. */
  datatype Result = Result(callbacks: map<MessageId, nat>, completed: bool, retiring: bool, activeCallbacks: int,
                           running: set<nat>)
  {
    function SetResultCallback(m: MessageId, callback: nat): Result {
      if retiring then this else this.(callbacks := callbacks[m := callback])
    }

    predicate Registered(m: MessageId, callback: nat) {
      m in callbacks && callbacks[m] == callback
    }

    function Remove(m: MessageId, callback: nat): Result {
      if Registered(m, callback) then this.(callbacks := callbacks - {m}) else this
    }

    function Begun(run: nat): Result {
      this.(activeCallbacks := activeCallbacks + 1, running := running + {run})
    }

    function Ended(run: nat): Result {
      this.(activeCallbacks := activeCallbacks - 1, running := running - {run})
    }
  }

  const FRESH := Result(map[], false, false, 0, {})

  datatype Phase = Active | Retiring | Ending | Done

  datatype Reply = Failure | NoResponse | Response

  /** A call of `handleCall` past `beginRequest`. `owns` is its flag `pending`. */
  datatype Request = Request(id: StreamId, owns: bool, phase: Phase, result: Result, sent: bool,
                             failed: bool, waitFailed: bool, reply: Option<Reply>)

  /** One run of a result callback. */
  datatype CallbackRun = CallbackRun(request: nat, message: MessageId, callback: nat, over: bool)

  datatype Endpoint = Endpoint(pending: map<StreamId, nat>, requests: seq<Request>, runs: seq<CallbackRun>)

  function Initial(): Endpoint {
    Endpoint(map[], [], [])
  }

  function Put(s: Endpoint, r: nat, request: Request): Endpoint
    requires r < |s.requests|
  {
    s.(requests := s.requests[r := request])
  }

  /** Admission: a stream id that is taken turns the request away, straight to its `endRequest`. */
  function Admit(s: Endpoint, id: StreamId): Endpoint {
    var owns := id !in s.pending;
    var request := Request(id, owns, if owns then Active else Ending, FRESH, false, !owns, false, None);
    s.(pending := if owns then s.pending[id := |s.requests|] else s.pending, requests := s.requests + [request])
  }

  /** The handler, or a callback, sends the response; a second one throws at the sender. */
  function Send(s: Endpoint, r: nat): Endpoint
    requires r < |s.requests|
  {
    var it := s.requests[r];
    if it.sent then s else Put(s, r, it.(sent := true, result := it.result.(completed := true)))
  }

  /** The body of the request is over, well or badly, and `retire` begins. */
  function Retire(s: Endpoint, r: nat, failed: bool, waitFailed: bool): Endpoint
    requires r < |s.requests|
  {
    var it := s.requests[r];
    Put(s, r, it.(phase := Retiring, failed := failed || waitFailed, waitFailed := waitFailed,
                  result := it.result.(retiring := true)))
  }

  /** `retire` returns and `endRequest` is called. A result that completed in the end makes up for a failed wait. */
  function Retired(s: Endpoint, r: nat): Endpoint
    requires r < |s.requests|
  {
    var it := s.requests[r];
    Put(s, r, it.(phase := Ending, failed := it.failed && !(it.waitFailed && it.result.completed),
                  result := it.result.(callbacks := map[])))
  }

  /** `endRequest` settled: the owner gives its stream id back, and the call is answered. */
  function End(s: Endpoint, r: nat, ok: bool): Endpoint
    requires r < |s.requests|
  {
    var it := s.requests[r];
    var reply := if it.failed || !ok then Failure else if it.sent then Response else NoResponse;
    var t := Put(s, r, it.(phase := Done, failed := it.failed || !ok, reply := Some(reply)));
    if it.owns then t.(pending := s.pending - {it.id}) else t
  }

  /** A result arrives: it goes to the owner of its stream id, if that is not retiring and knows the message. */
  function Consume(s: Endpoint, id: StreamId, message: MessageId): Endpoint
    requires forall i <- s.pending :: s.pending[i] < |s.requests|
  {
    if id !in s.pending then s
    else
      var r := s.pending[id];
      var it := s.requests[r];
      if it.result.retiring || message !in it.result.callbacks then s
      else
        var run := CallbackRun(r, message, it.result.callbacks[message], false);
        Put(s, r, it.(result := it.result.Begun(|s.runs|))).(runs := s.runs + [run])
  }

  /** A callback run is over; `remove` is what it answered, unless it threw. */
  function CallbackOver(s: Endpoint, k: nat, remove: bool): Endpoint
    requires k < |s.runs| && s.runs[k].request < |s.requests|
  {
    var run := s.runs[k];
    var it := s.requests[run.request];
    var result := if remove then it.result.Remove(run.message, run.callback) else it.result;
    Put(s, run.request, it.(result := result.Ended(k))).(runs := s.runs[k := run.(over := true)])
  }

  datatype Event =
    | Arrive(id: StreamId)
    | Register(request: nat, message: MessageId, callback: nat)
    | SendResponse(request: nat)
    | BodyEnds(request: nat, failed: bool, waitFailed: bool)
    | RetireEnds(request: nat)
    | EndSettles(request: nat, ok: bool)
    | ResultArrives(id: StreamId, message: MessageId)
    | RunEnds(run: nat, remove: bool)

  predicate Enabled(s: Endpoint, e: Event) {
    match e
    case Arrive(_) => true
    case Register(r, _, _) => r < |s.requests|
    case SendResponse(r) => r < |s.requests|
    case BodyEnds(r, _, _) => r < |s.requests| && s.requests[r].phase == Active
    case RetireEnds(r) => r < |s.requests| && s.requests[r].phase == Retiring
      && s.requests[r].result.activeCallbacks == 0
    case EndSettles(r, _) => r < |s.requests| && s.requests[r].phase == Ending
    case ResultArrives(_, _) => true
    case RunEnds(k, _) => k < |s.runs| && !s.runs[k].over
  }

  // ---- The invariant ----

  ghost predicate OwnerOk(s: Endpoint, r: nat, it: Request) {
    && (it.owns && it.phase != Done ==> it.id in s.pending && s.pending[it.id] == r)
    && (!it.owns ==> it.phase == Ending || it.phase == Done)
  }

  ghost predicate ResultOk(it: Request) {
    && (it.owns ==> (it.phase == Active <==> !it.result.retiring))
    && it.result.activeCallbacks == |it.result.running|
    && (it.phase == Ending || it.phase == Done ==> it.result.running == {})
    && (it.reply.Some? <==> it.phase == Done)
  }

  ghost predicate RunOk(run: CallbackRun, k: nat, requests: seq<Request>) {
    run.request < |requests| && (!run.over <==> k in requests[run.request].result.running)
  }

  ghost predicate RunningOk(it: Request, r: nat, runs: seq<CallbackRun>) {
    forall k <- it.result.running :: k < |runs| && runs[k].request == r
  }

  ghost predicate Shape(s: Endpoint) {
    && (forall i <- s.pending :: s.pending[i] < |s.requests|)
    && (forall k :: 0 <= k < |s.runs| ==> s.runs[k].request < |s.requests|)
  }

  ghost predicate Inv(s: Endpoint) {
    && Shape(s)
    && (forall i <- s.pending :: s.pending[i] < |s.requests| && s.requests[s.pending[i]].id == i
          && s.requests[s.pending[i]].owns && s.requests[s.pending[i]].phase != Done)
    && (forall r :: 0 <= r < |s.requests| ==>
          OwnerOk(s, r, s.requests[r]) && ResultOk(s.requests[r]) && RunningOk(s.requests[r], r, s.runs))
    && (forall k :: 0 <= k < |s.runs| ==> RunOk(s.runs[k], k, s.requests))
  }

  function Step(s: Endpoint, e: Event): Endpoint
    requires Shape(s) && Enabled(s, e)
  {
    match e
    case Arrive(id) => Admit(s, id)
    case Register(r, message, callback) =>
      Put(s, r, s.requests[r].(result := s.requests[r].result.SetResultCallback(message, callback)))
    case SendResponse(r) => Send(s, r)
    case BodyEnds(r, failed, waitFailed) => Retire(s, r, failed, waitFailed)
    case RetireEnds(r) => Retired(s, r)
    case EndSettles(r, ok) => End(s, r, ok)
    case ResultArrives(id, message) => Consume(s, id, message)
    case RunEnds(k, remove) => CallbackOver(s, k, remove)
  }

  lemma AdmitInv(s: Endpoint, id: StreamId)
    requires Inv(s)
    ensures Inv(Admit(s, id))
  {
    var t := Admit(s, id);
    forall r | 0 <= r < |s.requests| ensures OwnerOk(t, r, t.requests[r]) { assert OwnerOk(s, r, s.requests[r]); }
    forall k | 0 <= k < |s.runs| ensures RunOk(t.runs[k], k, t.requests) { assert RunOk(s.runs[k], k, s.requests); }
  }

  /** A step that changes one request only, and neither who it is nor which callbacks run for it. */
  lemma PutInv(s: Endpoint, r: nat, it: Request)
    requires Inv(s) && r < |s.requests| && ResultOk(it) && it.id == s.requests[r].id && it.owns == s.requests[r].owns
    requires it.result.running == s.requests[r].result.running && it.phase != Done && s.requests[r].phase != Done
    requires it.owns || it.phase == Ending
    ensures Inv(Put(s, r, it))
  {
    hide ResultOk;
    var t := Put(s, r, it);
    forall q | 0 <= q < |t.requests|
      ensures OwnerOk(t, q, t.requests[q]) && RunningOk(t.requests[q], q, t.runs) && ResultOk(t.requests[q])
    {
      assert OwnerOk(s, q, s.requests[q]) && RunningOk(s.requests[q], q, s.runs) && ResultOk(s.requests[q]);
    }
    forall k | 0 <= k < |t.runs| ensures RunOk(t.runs[k], k, t.requests) { assert RunOk(s.runs[k], k, s.requests); }
  }

  /** A request that is done may still be handed a callback or a response: they change nothing that matters. */
  lemma LateInv(s: Endpoint, r: nat, it: Request)
    requires Inv(s) && r < |s.requests| && ResultOk(it)
    requires it == s.requests[r].(sent := it.sent, result := it.result)
      && it.result.running == s.requests[r].result.running
    ensures Inv(Put(s, r, it))
  {
    hide ResultOk;
    var t := Put(s, r, it);
    forall q | 0 <= q < |t.requests|
      ensures OwnerOk(t, q, t.requests[q]) && RunningOk(t.requests[q], q, t.runs) && ResultOk(t.requests[q])
    {
      assert OwnerOk(s, q, s.requests[q]) && RunningOk(s.requests[q], q, s.runs) && ResultOk(s.requests[q]);
    }
    forall k | 0 <= k < |t.runs| ensures RunOk(t.runs[k], k, t.requests) { assert RunOk(s.runs[k], k, s.requests); }
  }

  lemma EndInv(s: Endpoint, r: nat, ok: bool)
    requires Inv(s) && r < |s.requests| && s.requests[r].phase == Ending
    ensures Inv(End(s, r, ok))
  {
    var t := End(s, r, ok);
    assert OwnerOk(s, r, s.requests[r]) && ResultOk(s.requests[r]);
    forall q | 0 <= q < |t.requests|
      ensures OwnerOk(t, q, t.requests[q]) && RunningOk(t.requests[q], q, t.runs) && ResultOk(t.requests[q])
    {
      assert OwnerOk(s, q, s.requests[q]) && RunningOk(s.requests[q], q, s.runs) && ResultOk(s.requests[q]);
    }
    forall k | 0 <= k < |t.runs| ensures RunOk(t.runs[k], k, t.requests) { assert RunOk(s.runs[k], k, s.requests); }
  }

  lemma BegunOk(it: Request, k: nat)
    requires ResultOk(it) && it.owns && !it.result.retiring && k !in it.result.running
    ensures ResultOk(it.(result := it.result.Begun(k)))
  {
    assert |it.result.running + {k}| == |it.result.running| + 1;
  }

  lemma ConsumeInv(s: Endpoint, id: StreamId, message: MessageId)
    requires Inv(s)
    ensures Inv(Consume(s, id, message))
  {
    hide ResultOk;
    var t := Consume(s, id, message);
    if t != s {
      var r := s.pending[id];
      assert RunningOk(s.requests[r], r, s.runs);
      BegunOk(s.requests[r], |s.runs|);
      forall q | 0 <= q < |t.requests|
        ensures OwnerOk(t, q, t.requests[q]) && RunningOk(t.requests[q], q, t.runs) && ResultOk(t.requests[q])
      {
        assert OwnerOk(s, q, s.requests[q]) && RunningOk(s.requests[q], q, s.runs) && ResultOk(s.requests[q]);
      }
      forall k | 0 <= k < |t.runs| ensures RunOk(t.runs[k], k, t.requests) {
        if k < |s.runs| { assert RunOk(s.runs[k], k, s.requests); }
      }
    }
  }

  lemma EndedOk(it: Request, k: nat, result: Result)
    requires ResultOk(it) && k in it.result.running && result == it.result.(callbacks := result.callbacks)
    ensures ResultOk(it.(result := result.Ended(k)))
  {
    assert |it.result.running - {k}| == |it.result.running| - 1;
  }

  lemma CallbackOverInv(s: Endpoint, k: nat, remove: bool)
    requires Inv(s) && k < |s.runs| && !s.runs[k].over
    ensures s.runs[k].request < |s.requests| && Inv(CallbackOver(s, k, remove))
  {
    assert RunOk(s.runs[k], k, s.requests);
    var r := s.runs[k].request;
    var it := s.requests[r];
    var t := CallbackOver(s, k, remove);
    assert ResultOk(it);
    EndedOk(it, k, if remove then it.result.Remove(s.runs[k].message, s.runs[k].callback) else it.result);
    hide ResultOk;
    forall q | 0 <= q < |t.requests|
      ensures OwnerOk(t, q, t.requests[q]) && RunningOk(t.requests[q], q, t.runs) && ResultOk(t.requests[q])
    {
      assert OwnerOk(s, q, s.requests[q]) && RunningOk(s.requests[q], q, s.runs) && ResultOk(s.requests[q]);
    }
    forall j | 0 <= j < |t.runs| ensures RunOk(t.runs[j], j, t.requests) { assert RunOk(s.runs[j], j, s.requests); }
  }

  lemma StepKeeps(s: Endpoint, e: Event)
    requires Inv(s) && Enabled(s, e)
    ensures Inv(Step(s, e))
  {
    match e
    case Arrive(id) => AdmitInv(s, id);
    case Register(r, message, callback) =>
      LateInv(s, r, s.requests[r].(result := s.requests[r].result.SetResultCallback(message, callback)));
    case SendResponse(r) =>
      var it := s.requests[r];
      LateInv(s, r, it.(sent := true, result := it.result.(completed := true)));
    case BodyEnds(r, failed, waitFailed) =>
      var it := s.requests[r];
      assert OwnerOk(s, r, it);
      PutInv(s, r, Retire(s, r, failed, waitFailed).requests[r]);
    case RetireEnds(r) =>
      assert OwnerOk(s, r, s.requests[r]) && ResultOk(s.requests[r]);
      PutInv(s, r, Retired(s, r).requests[r]);
    case EndSettles(r, ok) => EndInv(s, r, ok);
    case ResultArrives(id, message) => ConsumeInv(s, id, message);
    case RunEnds(k, remove) => CallbackOverInv(s, k, remove);
  }

  // ---- Over whole runs ----

  ghost predicate Leads(s: Endpoint, e: Event, t: Endpoint) {
    Shape(s) && Enabled(s, e) && t == Step(s, e)
  }

  ghost predicate Run(states: seq<Endpoint>, events: seq<Event>) {
    && |states| == |events| + 1 && states[0] == Initial()
    && (forall i :: 0 <= i < |events| ==> Leads(states[i], events[i], states[i + 1]))
  }

  lemma {:induction false} RunsKeepInv(states: seq<Endpoint>, events: seq<Event>, i: nat)
    requires Run(states, events) && i < |states|
    ensures Inv(states[i])
  {
    if i > 0 {
      RunsKeepInv(states, events, i - 1);
      assert Leads(states[i - 1], events[i - 1], states[i]);
      StepKeeps(states[i - 1], events[i - 1]);
      hide Inv, Step, Enabled;
    }
  }

  /** A stream id has at most one owner from admission until that owner's `endRequest` has settled, the owner
      is the request results are sent to, and an id that is taken has an owner. */
  lemma OneOwner(states: seq<Endpoint>, events: seq<Event>, i: nat, r: nat, q: nat)
    requires Run(states, events) && i < |states| && r < |states[i].requests| && q < |states[i].requests|
    requires var a, b := states[i].requests[r], states[i].requests[q];
      a.owns && a.phase != Done && b.owns && b.phase != Done && a.id == b.id
    ensures r == q && states[i].requests[r].id in states[i].pending && states[i].pending[states[i].requests[r].id] == r
  {
    RunsKeepInv(states, events, i);
    assert OwnerOk(states[i], r, states[i].requests[r]) && OwnerOk(states[i], q, states[i].requests[q]);
  }

  lemma TakenMeansOwned(states: seq<Endpoint>, events: seq<Event>, i: nat, id: StreamId)
    requires Run(states, events) && i < |states|
    ensures id in states[i].pending <==>
      exists r :: 0 <= r < |states[i].requests| && states[i].requests[r].id == id && states[i].requests[r].owns
        && states[i].requests[r].phase != Done
  {
    RunsKeepInv(states, events, i);
    var s := states[i];
    if r :| 0 <= r < |s.requests| && s.requests[r].id == id && s.requests[r].owns && s.requests[r].phase != Done {
      assert OwnerOk(s, r, s.requests[r]);
    }
  }

  /** The request an event belongs to. */
  function Belongs(e: Event): Option<nat> {
    match e
    case Register(r, _, _) => Some(r)
    case SendResponse(r) => Some(r)
    case BodyEnds(r, _, _) => Some(r)
    case RetireEnds(r) => Some(r)
    case EndSettles(r, _) => Some(r)
    case _ => None
  }

  /** Only an owner whose `endRequest` settles gives an id back, and it gives back its own: a request that was
      turned away as a duplicate never touches the owner's entry. */
  lemma ReleasedByOwner(s: Endpoint, e: Event)
    requires Inv(s) && Enabled(s, e)
    ensures Step(s, e).pending == s.pending
      || (e.Arrive? && e.id !in s.pending && Step(s, e).pending == s.pending[e.id := |s.requests|])
      || (e.EndSettles? && s.requests[e.request].owns && s.pending[s.requests[e.request].id] == e.request
          && Step(s, e).pending == s.pending - {s.requests[e.request].id})
  {
    if e.EndSettles? { assert OwnerOk(s, e.request, s.requests[e.request]); }
  }

  lemma DuplicateIsHarmless(s: Endpoint, e: Event)
    requires Inv(s) && Enabled(s, e) && Belongs(e).Some? && !s.requests[Belongs(e).value].owns
    ensures Step(s, e) == s.(requests := Step(s, e).requests) && Step(s, e).pending == s.pending
  {
    assert OwnerOk(s, Belongs(e).value, s.requests[Belongs(e).value]);
  }

  /** While a callback of a request runs its `endRequest` has not been called. */
  lemma NoCallbackDuringEnd(states: seq<Endpoint>, events: seq<Event>, i: nat, k: nat)
    requires Run(states, events) && i < |states| && k < |states[i].runs| && !states[i].runs[k].over
    ensures var run := states[i].runs[k];
      && run.request < |states[i].requests| && states[i].requests[run.request].owns
      && (states[i].requests[run.request].phase == Active || states[i].requests[run.request].phase == Retiring)
  {
    RunsKeepInv(states, events, i);
    var s := states[i];
    assert RunOk(s.runs[k], k, s.requests);
    assert ResultOk(s.requests[s.runs[k].request]) && OwnerOk(s, s.runs[k].request, s.requests[s.runs[k].request]);
  }

  /** A callback starts only for an active request, on the result its own stream id brought. */
  lemma CallbacksStartActive(s: Endpoint, e: Event)
    requires Inv(s) && Enabled(s, e) && |Step(s, e).runs| > |s.runs|
    ensures e.ResultArrives? && |Step(s, e).runs| == |s.runs| + 1
    ensures var run := Step(s, e).runs[|s.runs|];
      && run.request < |s.requests| && s.requests[run.request].id == e.id && s.requests[run.request].phase == Active
      && s.requests[run.request].result.Registered(run.message, run.callback) && run.message == e.message
  {
    assert ResultOk(s.requests[s.pending[e.id]]);
  }

  /** The life of a request runs one way. */
  function Age(phase: Phase): nat {
    match phase
    case Active => 0
    case Retiring => 1
    case Ending => 2
    case Done => 3
  }

  ghost predicate Aged(a: Request, b: Request) {
    Age(a.phase) <= Age(b.phase) && b.id == a.id && b.owns == a.owns && (a.reply.Some? ==> b.reply == a.reply)
  }

  lemma StepAges(s: Endpoint, e: Event, r: nat)
    requires Inv(s) && Enabled(s, e) && r < |s.requests|
    ensures r < |Step(s, e).requests| && Aged(s.requests[r], Step(s, e).requests[r])
  {
    assert ResultOk(s.requests[r]);
  }

  /** A request never goes back to an earlier phase, and is answered once. */
  lemma {:induction false} OnlyForward(states: seq<Endpoint>, events: seq<Event>, i: nat, j: nat, r: nat)
    requires Run(states, events) && i <= j < |states| && r < |states[i].requests|
    ensures r < |states[j].requests| && Aged(states[i].requests[r], states[j].requests[r])
  {
    hide Inv, Step, Enabled;
    if i < j {
      OnlyForward(states, events, i, j - 1, r);
      assert Leads(states[j - 1], events[j - 1], states[j]);
      RunsKeepInv(states, events, j - 1);
      StepAges(states[j - 1], events[j - 1], r);
    }
  }

  /** No result callback of a request runs during or after its `endRequest`. */
  lemma NoCallbackAfterEnd(states: seq<Endpoint>, events: seq<Event>, i: nat, j: nat, r: nat, k: nat)
    requires Run(states, events) && i <= j < |states| && r < |states[i].requests|
    requires states[i].requests[r].phase == Ending || states[i].requests[r].phase == Done
    requires k < |states[j].runs| && states[j].runs[k].request == r
    ensures states[j].runs[k].over
  {
    hide Inv;
    OnlyForward(states, events, i, j, r);
    if !states[j].runs[k].over { NoCallbackDuringEnd(states, events, j, k); }
  }
}

/** The endpoint and the results of its requests as objects updated in place: one method per event, each of which
    keeps the invariant and makes the step of `GrpcRequests`. */
module GrpcEndpoint {
  import opened Base
  import Requests = GrpcRequests

  class RequestResult {
    var callbacks: map<Requests.MessageId, nat>
    var completed: bool
    var retiring: bool
    var activeCallbacks: int
    /** The callback runs that are under way. */
    ghost var running: set<nat>

    ghost predicate Valid()
      reads this
    {
      activeCallbacks == |running|
    }

    ghost function View(): (r: Requests.Result)
      reads this
    {
      Requests.Result(callbacks, completed, retiring, activeCallbacks, running)
    }

    constructor ()
      ensures Valid() && View() == Requests.FRESH
    {
      callbacks, completed, retiring, activeCallbacks, running := map[], false, false, 0, {};
    }

    method SetResultCallback(m: Requests.MessageId, callback: nat)
      modifies this`callbacks
      ensures View() == old(View()).SetResultCallback(m, callback)
    {
      if retiring { return; }
      callbacks := callbacks[m := callback];
    }

    method Remove(m: Requests.MessageId, callback: nat)
      modifies this`callbacks
      ensures View() == old(View()).Remove(m, callback)
    {
      if m !in callbacks || callbacks[m] != callback { return; }
      callbacks := callbacks - {m};
    }

    method Complete()
      modifies this`completed
      ensures View() == old(View()).(completed := true)
    {
      completed := true;
    }

    /** A callback may run exactly as long as its request is not retiring. */
    method BeginCallback(ghost run: nat) returns (ok: bool)
      requires Valid() && run !in running
      modifies this`activeCallbacks, this`running
      ensures Valid() && ok == !retiring && running == old(running) + if ok then {run} else {}
    {
      if retiring { return false; }
      activeCallbacks := activeCallbacks + 1;
      running := running + {run};
      return true;
    }

    /** `resolves` says whether a retirement goes on: it waited, and no callback is left running. */
    method EndCallback(ghost run: nat) returns (resolves: bool)
      requires Valid() && run in running
      modifies this`activeCallbacks, this`running
      ensures Valid() && running == old(running) - {run} && (resolves <==> retiring && running == {})
    {
      activeCallbacks := activeCallbacks - 1;
      running := running - {run};
      return retiring && activeCallbacks == 0;
    }

    /** `retire` up to its await: it waits if and only if a callback is running, and none may begin from now on. */
    method Retire() returns (waits: bool)
      requires Valid()
      modifies this`retiring
      ensures Valid() && retiring && (waits <==> running != {})
    {
      retiring := true;
      return activeCallbacks != 0;
    }

    method FinishRetire() returns (done: bool)
      modifies this`callbacks
      ensures View() == old(View()).(callbacks := map[]) && done == completed
    {
      callbacks := map[];
      return completed;
    }
  }

  /** The variables of one `handleCall`, but for its result. */
  datatype Call = Call(id: Requests.StreamId, owns: bool, phase: Requests.Phase, sent: bool, failed: bool,
                       waitFailed: bool, reply: Option<Requests.Reply>)

  function Joined(call: Call, result: Requests.Result): Requests.Request {
    Requests.Request(call.id, call.owns, call.phase, result, call.sent, call.failed, call.waitFailed, call.reply)
  }

  class GrpcUnaryEndpointConsumer {
    var pending: map<Requests.StreamId, nat>
    var calls: seq<Call>
    var results: seq<RequestResult>
    var runs: seq<Requests.CallbackRun>

    ghost predicate Owned()
      reads this
    {
      |results| == |calls| && Distinct(results)
    }

    ghost function Request(r: nat): (request: Requests.Request)
      requires Owned() && r < |calls|
      reads this, results
    {
      Joined(calls[r], results[r].View())
    }

    ghost function View(): (s: Requests.Endpoint)
      requires Owned()
      reads this, results
      ensures |s.requests| == |calls| && forall r :: 0 <= r < |calls| ==> s.requests[r] == Request(r)
      ensures s.pending == pending && s.runs == runs
    {
      Requests.Endpoint(
        pending, seq(|calls|, r requires 0 <= r < |calls| && Owned() reads this, results => Request(r)), runs)
    }

    ghost predicate Valid()
      reads this, results
    {
      Owned() && Requests.Inv(View())
    }

    lemma ResultValid(r: nat)
      requires Valid() && r < |calls|
      ensures results[r].Valid()
    {
      assert Requests.ResultOk(View().requests[r]);
    }

    constructor ()
      ensures Valid() && View() == Requests.Initial()
    {
      pending, calls, results, runs := map[], [], [], [];
    }

    /** `handleCall` from the end of `beginRequest` to its next await. */
    method Admit(id: Requests.StreamId)
      requires Valid()
      modifies this
      ensures Valid() && View() == Requests.Step(old(View()), Requests.Arrive(id))
      ensures results[..|old(results)|] == old(results) && fresh(results[|old(results)|..])
    {
      hide Requests.Inv;
      ghost var s := View();
      Requests.StepKeeps(s, Requests.Arrive(id));
      var result := new RequestResult();
      var owns := id !in pending;
      if owns { pending := pending[id := |calls|]; }
      calls := calls + [Call(id, owns, if owns then Requests.Active else Requests.Ending, false, !owns, false, None)];
      results := results + [result];
      assert View() == Requests.Admit(s, id);
    }

    /** The handler registers a callback for a message. */
    method Register(r: nat, m: Requests.MessageId, callback: nat)
      requires Valid() && r < |calls|
      modifies results
      ensures Valid() && View() == Requests.Step(old(View()), Requests.Register(r, m, callback))
    {
      hide Requests.Inv;
      ghost var s := View();
      Requests.StepKeeps(s, Requests.Register(r, m, callback));
      results[r].SetResultCallback(m, callback);
      ghost var request := s.requests[r];
      assert View() == Requests.Put(s, r, request.(result := request.result.SetResultCallback(m, callback)));
    }

    /** The handler, or a callback, sends the response. */
    method Send(r: nat)
      requires Valid() && r < |calls|
      modifies this`calls, results
      ensures Valid() && View() == Requests.Step(old(View()), Requests.SendResponse(r))
    {
      hide Requests.Inv;
      ghost var s := View();
      Requests.StepKeeps(s, Requests.SendResponse(r));
      if !calls[r].sent {
        calls := calls[r := calls[r].(sent := true)];
        results[r].Complete();
      }
      assert View() == Requests.Send(s, r);
    }

    /** The body of `handleCall` is over and its `finally` block begins. */
    method BeginRetire(r: nat, failed: bool, waitFailed: bool)
      requires Valid() && Requests.Enabled(View(), Requests.BodyEnds(r, failed, waitFailed))
      modifies this`calls, results
      ensures Valid() && View() == Requests.Step(old(View()), Requests.BodyEnds(r, failed, waitFailed))
    {
      hide Requests.Inv;
      ghost var s := View();
      Requests.StepKeeps(s, Requests.BodyEnds(r, failed, waitFailed));
      ResultValid(r);
      calls := calls[r := calls[r].(phase := Requests.Retiring, failed := failed || waitFailed,
                                    waitFailed := waitFailed)];
      var _ := results[r].Retire();
      assert View() == Requests.Retire(s, r, failed, waitFailed);
    }

    /** `retire` has returned. */
    method Retired(r: nat)
      requires Valid() && Requests.Enabled(View(), Requests.RetireEnds(r))
      modifies this`calls, results
      ensures Valid() && View() == Requests.Step(old(View()), Requests.RetireEnds(r))
    {
      hide Requests.Inv;
      ghost var s := View();
      Requests.StepKeeps(s, Requests.RetireEnds(r));
      var completed := results[r].FinishRetire();
      var failed := calls[r].failed;
      if calls[r].waitFailed && completed { failed := false; }
      calls := calls[r := calls[r].(phase := Requests.Ending, failed := failed)];
      assert View() == Requests.Retired(s, r);
    }

    /** The rest of `handleCall`, after `endRequest`. */
    method End(r: nat, ok: bool)
      requires Valid() && Requests.Enabled(View(), Requests.EndSettles(r, ok))
      modifies this`calls, this`pending
      ensures Valid() && View() == Requests.Step(old(View()), Requests.EndSettles(r, ok))
    {
      hide Requests.Inv;
      ghost var s := View();
      Requests.StepKeeps(s, Requests.EndSettles(r, ok));
      var call := calls[r];
      var failed := call.failed || !ok;
      if call.owns { pending := pending - {call.id}; }
      var reply := Requests.Response;
      if failed { reply := Requests.Failure; } else if !call.sent { reply := Requests.NoResponse; }
      calls := calls[r := call.(phase := Requests.Done, failed := failed, reply := Some(reply))];
      assert View() == Requests.End(s, r, ok);
    }

    /** `beginCallback` and the call of the callback. */
    method RunCallback(r: nat, message: Requests.MessageId)
      requires Owned() && r < |calls| && results[r].Valid() && |runs| !in results[r].running
        && message in results[r].callbacks
      modifies this`runs, results
      ensures Owned() && results == old(results) && calls == old(calls) && pending == old(pending)
      ensures var s := old(View()); var it := s.requests[r];
        View() == if it.result.retiring then s
          else Requests.Put(s, r, it.(result := it.result.Begun(|s.runs|))).(
            runs := s.runs + [Requests.CallbackRun(r, message, it.result.callbacks[message], false)])
    {
      ghost var s := View();
      var ok := results[r].BeginCallback(|runs|);
      if ok {
        runs := runs + [Requests.CallbackRun(r, message, results[r].callbacks[message], false)];
        assert View().requests == s.requests[r := s.requests[r].(result := s.requests[r].result.Begun(|s.runs|))];
      } else {
        assert View().requests == s.requests;
      }
    }

    /** `consumePendingResult` up to the callback. */
    method ConsumeResult(id: Requests.StreamId, message: Requests.MessageId)
      requires Valid()
      modifies this`runs, results
      ensures Valid() && View() == Requests.Step(old(View()), Requests.ResultArrives(id, message))
    {
      hide Requests.Inv;
      ghost var s := View();
      Requests.StepKeeps(s, Requests.ResultArrives(id, message));
      OwnersKnown(s);
      if id in pending {
        var r := pending[id];
        ResultValid(r);
        RunFresh(s, r);
        if message in results[r].callbacks { RunCallback(r, message); }
      }
      assert View() == Requests.Consume(s, id, message);
    }

    /** `consumePendingResult` after the callback. */
    method CallbackOver(k: nat, remove: bool)
      requires Valid() && Requests.Enabled(View(), Requests.RunEnds(k, remove))
      modifies this`runs, results
      ensures Valid() && View() == Requests.Step(old(View()), Requests.RunEnds(k, remove))
    {
      hide Requests.Inv;
      ghost var s := View();
      Requests.StepKeeps(s, Requests.RunEnds(k, remove));
      RunKnown(s, k);
      var run := runs[k];
      ResultValid(run.request);
      if remove { results[run.request].Remove(run.message, run.callback); }
      var _ := results[run.request].EndCallback(k);
      runs := runs[k := run.(over := true)];
      assert View() == Requests.CallbackOver(s, k, remove);
    }
  }

  lemma OwnersKnown(s: Requests.Endpoint)
    requires Requests.Inv(s)
    ensures forall id <- s.pending :: s.pending[id] < |s.requests|
  {}

  lemma RunFresh(s: Requests.Endpoint, r: nat)
    requires Requests.Inv(s) && r < |s.requests|
    ensures |s.runs| !in s.requests[r].result.running
  {
    assert Requests.RunningOk(s.requests[r], r, s.runs);
  }

  lemma RunKnown(s: Requests.Endpoint, k: nat)
    requires Requests.Inv(s) && k < |s.runs| && !s.runs[k].over
    ensures s.runs[k].request < |s.requests| && k in s.requests[s.runs[k].request].result.running
  {
    assert Requests.RunOk(s.runs[k], k, s.requests);
  }
}
