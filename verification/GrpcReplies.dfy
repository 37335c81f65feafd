/** What a unary request is answered, which callbacks are registered and which run, told from the events of a run. */
module GrpcReplies {
  import opened Base
  import opened GrpcRequests

  /** A response of request `r` was sent before event `n`. */
  ghost predicate SentBy(events: seq<Event>, n: nat, r: nat) {
    exists k :: 0 <= k < n && k < |events| && events[k] == SendResponse(r)
  }

  /** The body of the request ended well at event `b`, or only its wait failed and a response had been sent by the
      end of the retirement, event `t`. */
  ghost predicate BodyWell(events: seq<Event>, b: nat, t: nat, r: nat)
    requires b < |events| && events[b].BodyEnds?
  {
    (!events[b].failed && !events[b].waitFailed) || (events[b].waitFailed && SentBy(events, t, r))
  }

  /** Request `r` arrived with event `a` and owned its stream id if that was not taken. */
  ghost predicate Arrived(states: seq<Endpoint>, events: seq<Event>, a: nat, r: nat, it: Request) {
    && a < |events| && a < |states| && events[a].Arrive? && |states[a].requests| == r
    && it.id == events[a].id && (it.owns <==> it.id !in states[a].pending)
  }

  ghost predicate BodyEnded(events: seq<Event>, b: nat, r: nat) {
    b < |events| && events[b].BodyEnds? && events[b].request == r
  }

  /** The owner of a stream id whose body ended with event `b` and whose retirement ended with event `t`. */
  ghost predicate WasRetired(events: seq<Event>, a: nat, b: nat, t: nat, r: nat) {
    a < b < t < |events| && BodyEnded(events, b, r) && events[t] == RetireEnds(r)
  }

  ghost predicate SettledAt(events: seq<Event>, e: nat, r: nat) {
    e < |events| && events[e].EndSettles? && events[e].request == r
  }

  /** The answer to request `r`, told from the events. */
  ghost function Answer(events: seq<Event>, owns: bool, b: nat, t: nat, e: nat, r: nat): Reply
    requires SettledAt(events, e, r) && (owns ==> BodyEnded(events, b, r))
  {
    if !owns || !BodyWell(events, b, t, r) || !events[e].ok then Failure
    else if SentBy(events, e, r) then Response
    else NoResponse
  }

  /** How request `r` came to be what it is in state `n`. */
  ghost predicate Story(states: seq<Endpoint>, events: seq<Event>, n: nat, r: nat, a: nat, b: nat, t: nat, e: nat)
    requires n < |states| && r < |states[n].requests|
  {
    var it := states[n].requests[r];
    && a < n && Arrived(states, events, a, r, it)
    && (it.sent <==> SentBy(events, n, r)) && (it.result.completed <==> it.sent)
    && match it.phase
       case Active => it.owns && !it.failed && !it.waitFailed
       case Retiring =>
         && it.owns && a < b < n && BodyEnded(events, b, r)
         && it.waitFailed == events[b].waitFailed && it.failed == (events[b].failed || events[b].waitFailed)
       case Ending =>
         if it.owns then t < n && WasRetired(events, a, b, t, r) && (it.failed <==> !BodyWell(events, b, t, r))
         else it.failed
       case Done =>
         && a < e < n && SettledAt(events, e, r) && (it.owns ==> WasRetired(events, a, b, t, r) && t < e)
         && it.reply == Some(Answer(events, it.owns, b, t, e, r)) && (it.failed <==> it.reply == Some(Failure))
  }

  lemma SentNow(events: seq<Event>, n: nat, r: nat)
    requires n < |events|
    ensures SentBy(events, n + 1, r) <==> SentBy(events, n, r) || events[n] == SendResponse(r)
  {}

  /** The event tells of request `r`. */
  ghost predicate Tells(e: Event, r: nat) {
    && (e.BodyEnds? || e.EndSettles? || e.RetireEnds? || e.SendResponse?) && Belongs(e) == Some(r)
  }

  lemma OthersLeave(s: Endpoint, e: Event, r: nat)
    requires Inv(s) && Enabled(s, e) && r < |s.requests| && !Tells(e, r)
    ensures var it, after := s.requests[r], Step(s, e).requests;
      r < |after| && after[r] == it.(result := after[r].result) && after[r].result.completed == it.result.completed
  {
    hide RunOk, RunningOk, OwnerOk, ResultOk;
  }

  lemma QuietChapter(states: seq<Endpoint>, events: seq<Event>, n: nat, r: nat, a: nat, b: nat, t: nat, e: nat)
    requires n < |events| && n + 1 < |states| && Leads(states[n], events[n], states[n + 1]) && Inv(states[n])
    requires r < |states[n].requests| && Story(states, events, n, r, a, b, t, e) && !Tells(events[n], r)
    ensures r < |states[n + 1].requests| && Story(states, events, n + 1, r, a, b, t, e)
  {
    hide SentBy, Inv, Step, Enabled, Answer, BodyWell;
    OthersLeave(states[n], events[n], r);
    SentNow(events, n, r);
  }

  /** One more event of the story. */
  lemma NextChapter(states: seq<Endpoint>, events: seq<Event>, n: nat, r: nat, a: nat, b: nat, t: nat, e: nat)
    requires n < |events| && n + 1 < |states| && Leads(states[n], events[n], states[n + 1]) && Inv(states[n])
    requires r < |states[n].requests| && Story(states, events, n, r, a, b, t, e) && Tells(events[n], r)
    ensures r < |states[n + 1].requests|
    ensures var ends, done := events[n] == RetireEnds(r), SettledAt(events, n, r);
      Story(states, events, n + 1, r, a, if BodyEnded(events, n, r) then n else b, if ends then n else t,
            if done then n else e)
  {
    hide SentBy, RunOk, RunningOk, Admit, Consume, CallbackOver;
    SentNow(events, n, r);
    assert OwnerOk(states[n], r, states[n].requests[r]) && ResultOk(states[n].requests[r]);
  }

  /** In every run, of every request. */
  lemma {:induction false} Storied(states: seq<Endpoint>, events: seq<Event>, n: nat, r: nat)
    returns (a: nat, b: nat, t: nat, e: nat)
    requires Run(states, events) && n < |states| && r < |states[n].requests|
    ensures Story(states, events, n, r, a, b, t, e)
  {
    hide Inv, Step, Enabled, Story;
    assert n > 0;
    var s, event := states[n - 1], events[n - 1];
    assert Leads(s, event, states[n]);
    RunsKeepInv(states, events, n - 1);
    if r < |s.requests| {
      a, b, t, e := Storied(states, events, n - 1, r);
      if !Tells(event, r) {
        QuietChapter(states, events, n - 1, r, a, b, t, e);
      } else {
        NextChapter(states, events, n - 1, r, a, b, t, e);
      }
      if BodyEnded(events, n - 1, r) { b := n - 1; }
      if event == RetireEnds(r) { t := n - 1; }
      if SettledAt(events, n - 1, r) { e := n - 1; }
    } else {
      a, b, t, e := n - 1, 0, 0, 0;
      FirstChapter(states, events, n - 1, r);
    }
  }

  lemma FirstChapter(states: seq<Endpoint>, events: seq<Event>, n: nat, r: nat)
    requires Run(states, events) && n < |events| && |states[n].requests| <= r < |states[n + 1].requests|
    ensures Story(states, events, n + 1, r, n, 0, 0, 0)
  {
    assert Leads(states[n], events[n], states[n + 1]);
    NeverBefore(states, events, n + 1, r);
  }

  /** Nothing is sent for a request that has not arrived. */
  lemma {:induction false} NeverBefore(states: seq<Endpoint>, events: seq<Event>, n: nat, r: nat)
    requires Run(states, events) && 0 < n < |states| && r >= |states[n - 1].requests|
    ensures !SentBy(events, n, r)
  {
    hide Step;
    forall k | 0 <= k < n ensures events[k] != SendResponse(r) {
      assert Leads(states[k], events[k], states[k + 1]);
      Count(states, events, k, n - 1);
    }
  }

  lemma {:induction false} Count(states: seq<Endpoint>, events: seq<Event>, i: nat, j: nat)
    requires Run(states, events) && i <= j < |states|
    ensures |states[i].requests| <= |states[j].requests|
  {
    if i < j {
      Count(states, events, i, j - 1);
      assert Leads(states[j - 1], events[j - 1], states[j]);
    }
  }

  /** In every run: a request that is done was answered with its response if and only if one was sent before its
      `endRequest` settled, it was no duplicate, its body ended well, or only its wait failed and a response was
      there at the end of the retirement, and `endRequest` succeeded; with the lack of a response if all that but the
      sending holds; and with a failure otherwise. */
  lemma Answered(states: seq<Endpoint>, events: seq<Event>, n: nat, r: nat) returns (a: nat, b: nat, t: nat, e: nat)
    requires Run(states, events) && n < |states| && r < |states[n].requests| && states[n].requests[r].phase == Done
    ensures var it := states[n].requests[r];
      && a < e < n && Arrived(states, events, a, r, it) && SettledAt(events, e, r)
      && (it.owns ==> WasRetired(events, a, b, t, r) && t < e)
      && it.reply == Some(
           if it.id in states[a].pending || !BodyWell(events, b, t, r) || !events[e].ok then Failure
           else if SentBy(events, e, r) then Response
           else NoResponse)
  {
    a, b, t, e := Storied(states, events, n, r);
    hide Run;
  }

  // ---- Phases, registrations and callback runs ----

  /** What ends the phase of a request, and nothing else does. */
  lemma PhaseChanges(states: seq<Endpoint>, events: seq<Event>, i: nat, r: nat)
    requires Run(states, events) && i < |events| && r < |states[i].requests|
    ensures r < |states[i + 1].requests|
    ensures states[i + 1].requests[r].phase ==
      if BodyEnded(events, i, r) then Retiring
      else if events[i] == RetireEnds(r) then Ending
      else if SettledAt(events, i, r) then Done
      else states[i].requests[r].phase
  {
    assert Leads(states[i], events[i], states[i + 1]);
  }

  predicate Registers(s: Endpoint, r: nat, m: MessageId, callback: nat) {
    r < |s.requests| && s.requests[r].result.Registered(m, callback)
  }

  /** A callback is registered from its registration, unless the request retires, until another one takes its place,
      one of its own runs asks for its removal, or the retirement ends. */
  lemma RegistrationChanges(states: seq<Endpoint>, events: seq<Event>, i: nat, r: nat, m: MessageId, callback: nat)
    requires Run(states, events) && i < |events| && r < |states[i].requests|
    ensures Registers(states[i + 1], r, m, callback) <==>
      if events[i].Register? && events[i].request == r && events[i].message == m
         && !states[i].requests[r].result.retiring
      then events[i].callback == callback
      else
        && Registers(states[i], r, m, callback) && events[i] != RetireEnds(r)
        && !(events[i].RunEnds? && events[i].remove
             && states[i].runs[events[i].run] == CallbackRun(r, m, callback, false))
  {
    RunsKeepInv(states, events, i);
    assert Leads(states[i], events[i], states[i + 1]);
    if events[i].RunEnds? { assert RunOk(states[i].runs[events[i].run], events[i].run, states[i].requests); }
    hide Inv, OwnerOk, ResultOk, RunningOk;
  }

  /** The active owner of the stream id and the callback it has registered for the message. */
  predicate Receives(s: Endpoint, id: StreamId, m: MessageId, r: nat, callback: nat) {
    && Registers(s, r, m, callback) && s.requests[r].id == id && s.requests[r].owns && s.requests[r].phase == Active
  }

  /** A result starts a run of the callback that the active owner of its stream id has registered for its message, if
      there is one; a run ends when it says so; and nothing else changes the runs. */
  lemma RunsChange(states: seq<Endpoint>, events: seq<Event>, i: nat)
    requires Run(states, events) && i < |events|
    ensures var s, runs := states[i], states[i + 1].runs;
      match events[i]
      case ResultArrives(id, m) =>
        && (forall r: nat, callback: nat :: Receives(s, id, m, r, callback) ==>
              runs == s.runs + [CallbackRun(r, m, callback, false)])
        && ((forall r: nat, callback: nat :: !Receives(s, id, m, r, callback)) ==> runs == s.runs)
      case RunEnds(k, _) => k < |s.runs| && runs == s.runs[k := s.runs[k].(over := true)]
      case _ => runs == s.runs
  {
    RunsKeepInv(states, events, i);
    var s, e := states[i], events[i];
    assert Leads(s, e, states[i + 1]);
    if e.ResultArrives? {
      forall r: nat, callback: nat | Receives(s, e.id, e.message, r, callback)
        ensures e.id in s.pending && s.pending[e.id] == r && !s.requests[r].result.retiring
      {
        assert OwnerOk(s, r, s.requests[r]) && ResultOk(s.requests[r]);
      }
      if e.id in s.pending && e.message in s.requests[s.pending[e.id]].result.callbacks {
        var r := s.pending[e.id];
        assert ResultOk(s.requests[r]);
        assert !s.requests[r].result.retiring ==>
          Receives(s, e.id, e.message, r, s.requests[r].result.callbacks[e.message]);
      }
    }
    hide RunOk, RunningOk;
  }
}
