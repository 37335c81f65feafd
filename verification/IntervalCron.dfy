/** The interval scheduler of a cron endpoint: a grid of points `start + k * interval`, in milliseconds, and
    wake-ups that come early, on time or late. */
module IntervalCron {
  import opened Base

  /** `dispatched` and `skipped` are history: the points dispatched, and how many went by without. */
  datatype Schedule = Schedule(next: int, dispatched: seq<int>, skipped: nat)

  function Started(start: int, interval: int): Schedule {
    Schedule(start + interval, [], 0)
  }

  /** How many points are due: `floor((now - next) / interval) + 1`. */
  function Count(s: Schedule, interval: int, now: int): int
    requires interval > 0
  {
    (now - s.next) / interval + 1
  }

  function Wake(s: Schedule, interval: int, now: int, fireOnce: bool): Schedule
    requires interval > 0
  {
    var count := Count(s, interval, now);
    if count < 1 then s
    else
      var scheduledAt := s.next + (count - 1) * interval;
      if count == 1 || fireOnce then
        Schedule(s.next + count * interval, s.dispatched + [scheduledAt], s.skipped + (count - 1))
      else Schedule(s.next + count * interval, s.dispatched, s.skipped + count)
  }

  // ---- Every run of wake-ups ----

  /** A wake-up that found neither `stopped` nor a cancelled context. */
  datatype WakeUp = WakeUp(now: int, fireOnce: bool)

  function After(start: int, interval: int, wakes: seq<WakeUp>): Schedule
    requires interval > 0
  {
    if wakes == [] then Started(start, interval)
    else
      var last := wakes[|wakes| - 1];
      Wake(After(start, interval, wakes[..|wakes| - 1]), interval, last.now, last.fireOnce)
  }

  /** The clock does not run backwards. */
  ghost predicate Forward(start: int, wakes: seq<WakeUp>) {
    && (forall i :: 0 <= i < |wakes| ==> start <= wakes[i].now)
    && (forall i, j :: 0 <= i < j < |wakes| ==> wakes[i].now <= wakes[j].now)
  }

  function Latest(start: int, wakes: seq<WakeUp>): int {
    if wakes == [] then start else wakes[|wakes| - 1].now
  }

  ghost predicate OnGrid(start: int, interval: int, point: int)
    requires interval > 0
  {
    exists k: nat :: k >= 1 && Point(start, interval, k) == point
  }

  /** The k-th point of the grid. */
  function Point(start: int, interval: int, k: nat): int {
    start + k * interval
  }

  ghost predicate Regular(start: int, interval: int, s: Schedule, now: int)
    requires interval > 0
  {
    && s.next == Point(start, interval, |s.dispatched| + s.skipped + 1) && now < s.next <= now + interval
    && (forall i ::
        0 <= i < |s.dispatched|
        ==> OnGrid(start, interval, s.dispatched[i]) && s.dispatched[i] <= now && s.dispatched[i] <= s.next - interval)
    && (forall i, j :: 0 <= i < j < |s.dispatched| ==> s.dispatched[i] < s.dispatched[j])
  }

  /** The arithmetic of one due wake-up. */
  lemma DuePoints(next: int, interval: int, now: int)
    requires interval > 0
    ensures var count := (now - next) / interval + 1;
      && (count >= 1 <==> next <= now)
      && next + (count - 1) * interval <= now < next + count * interval
  {
    var q := (now - next) / interval;
    assert now - next == q * interval + (now - next) % interval;
    assert (q + 1) * interval == q * interval + interval;
    if next <= now { assert q >= 0; }
  }

  lemma PointPlus(start: int, interval: int, k: nat, count: nat)
    ensures Point(start, interval, k) + count * interval == Point(start, interval, k + count)
  {
    assert (k + count) * interval == k * interval + count * interval;
  }

  lemma WakeRegular(start: int, interval: int, s: Schedule, was: int, wake: WakeUp)
    requires interval > 0 && Regular(start, interval, s, was) && was <= wake.now
    ensures var t := Wake(s, interval, wake.now, wake.fireOnce); var count := Count(s, interval, wake.now);
      && (count < 1 <==> wake.now < s.next) && (count < 1 ==> t == s)
      && Regular(start, interval, t, wake.now)
      && (count >= 1 ==> wake.now < t.next <= wake.now + interval)
      && (count >= 1 ==> |t.dispatched| + t.skipped == |s.dispatched| + s.skipped + count)
  {
    DuePoints(s.next, interval, wake.now);
    var count := Count(s, interval, wake.now);
    if count >= 1 {
      var k := |s.dispatched| + s.skipped + 1;
      PointPlus(start, interval, k, count);
      PointPlus(start, interval, k, count - 1);
      var t := Wake(s, interval, wake.now, wake.fireOnce);
      assert OnGrid(start, interval, s.next + (count - 1) * interval);
      assert count * interval == (count - 1) * interval + interval;
      assert s.next <= s.next + (count - 1) * interval by { assert (count - 1) * interval >= 0; }
      hide Point, OnGrid;
    }
  }

  /** Over any wake-ups: the next point is the first of the grid that lies ahead; what was dispatched are points of
      the grid, in strictly increasing order, none after the moment of its dispatch; and every point that has gone
      by was dispatched or skipped. */
  lemma {:induction false} AlwaysRegular(start: int, interval: int, wakes: seq<WakeUp>)
    requires interval > 0 && Forward(start, wakes)
    ensures Regular(start, interval, After(start, interval, wakes), Latest(start, wakes))
  {
    if wakes == [] {
      assert Point(start, interval, 1) == start + interval;
    } else {
      var n := |wakes| - 1;
      AlwaysRegular(start, interval, wakes[..n]);
      WakeRegular(start, interval, After(start, interval, wakes[..n]), Latest(start, wakes[..n]), wakes[n]);
      hide Regular, Wake;
    }
  }

  /** After a due wake-up the next point lies in the interval that follows. */
  lemma NextIsAhead(start: int, interval: int, wakes: seq<WakeUp>, wake: WakeUp)
    requires interval > 0 && Forward(start, wakes + [wake])
    ensures var s, t := After(start, interval, wakes), After(start, interval, wakes + [wake]);
      if wake.now < s.next then t == s else wake.now < t.next <= wake.now + interval
  {
    var more := wakes + [wake];
    assert more[..|wakes|] == wakes && more[|wakes|] == wake;
    assert Forward(start, wakes) by {
      forall i | 0 <= i < |wakes| ensures wakes[i] == more[i] {}
    }
    AlwaysRegular(start, interval, wakes);
    assert Latest(start, wakes) <= wake.now by {
      if wakes != [] { assert more[|wakes| - 1].now <= more[|wakes|].now; }
    }
    WakeRegular(start, interval, After(start, interval, wakes), Latest(start, wakes), wake);
    hide Regular, Wake;
  }

  // ---- Which points are dispatched ----

  /** What a wake-up at `now` does about the points from `next` on. A single one that is due is dispatched; of
      several the last one is, if the policy is to fire once, and none otherwise; an early wake-up dispatches none. */
  ghost predicate Chosen(next: int, interval: int, now: int, fireOnce: bool, point: Option<int>)
    requires interval > 0
  {
    match point
    case None => now < next || (next + interval <= now && !fireOnce)
    case Some(p) => OnGrid(next - interval, interval, p) && p <= now < p + interval && (p == next || fireOnce)
  }

  /** The point the arithmetic of a wake-up comes to. */
  function PointAt(next: int, interval: int, now: int, fireOnce: bool): (point: Option<int>)
    requires interval > 0
  {
    var count := (now - next) / interval + 1;
    if count == 1 || (count > 1 && fireOnce) then Some(next + (count - 1) * interval) else None
  }

  lemma PointAtChosen(next: int, interval: int, now: int, fireOnce: bool)
    requires interval > 0
    ensures Chosen(next, interval, now, fireOnce, PointAt(next, interval, now, fireOnce))
  {
    var count := (now - next) / interval + 1;
    var last := next + (count - 1) * interval;
    DuePoints(next, interval, now);
    assert last + interval == next + count * interval;
    if count > 1 { assert (count - 1) * interval >= interval; }
    if count >= 1 { assert Point(next - interval, interval, count) == last; }
  }

  /** A wake-up dispatches the point chosen, at most, and behind all others. */
  lemma WakeChooses(s: Schedule, interval: int, wake: WakeUp) returns (point: Option<int>)
    requires interval > 0
    ensures Chosen(s.next, interval, wake.now, wake.fireOnce, point)
    ensures Wake(s, interval, wake.now, wake.fireOnce).dispatched ==
      s.dispatched + if point.Some? then [point.value] else []
  {
    point := PointAt(s.next, interval, wake.now, wake.fireOnce);
    PointAtChosen(s.next, interval, wake.now, wake.fireOnce);
  }

  /** Two points of a grid that are less than an interval apart are one. */
  lemma SamePoint(start: int, interval: int, p: int, q: int)
    requires interval > 0 && OnGrid(start, interval, p) && OnGrid(start, interval, q) && p <= q < p + interval
    ensures p == q
  {
    var j: nat, k: nat :| j >= 1 && k >= 1 && Point(start, interval, j) == p && Point(start, interval, k) == q;
    FarApart(start, interval, j, k);
    FarApart(start, interval, k, j);
  }

  lemma FarApart(start: int, interval: int, j: nat, k: nat)
    requires interval > 0
    ensures j < k ==> Point(start, interval, k) >= Point(start, interval, j) + interval
  {
    if j < k {
      PointPlus(start, interval, j, k - j);
      assert (k - j) * interval >= interval;
    }
  }

  lemma FirstPoint(next: int, interval: int, p: int)
    requires interval > 0 && OnGrid(next - interval, interval, p)
    ensures p >= next && (p < next + interval ==> p == next) && OnGrid(next - interval, interval, next)
  {
    assert Point(next - interval, interval, 1) == next;
    var k: nat :| k >= 1 && Point(next - interval, interval, k) == p;
    PointPlus(next - interval, interval, 1, k - 1);
    assert (k - 1) * interval >= 0;
    if p < next + interval { SamePoint(next - interval, interval, next, p); }
  }

  /** Only one answer meets these terms. */
  lemma ChosenOnce(next: int, interval: int, now: int, fireOnce: bool, a: Option<int>, b: Option<int>)
    requires interval > 0 && Chosen(next, interval, now, fireOnce, a) && Chosen(next, interval, now, fireOnce, b)
    ensures a == b
  {
    hide OnGrid;
    if a.Some? { FirstPoint(next, interval, a.value); }
    if b.Some? { FirstPoint(next, interval, b.value); }
    if a.Some? && b.Some? {
      if a.value <= b.value {
        SamePoint(next - interval, interval, a.value, b.value);
      } else {
        SamePoint(next - interval, interval, b.value, a.value);
      }
    }
  }

  /** The grid from one of its points on. */
  lemma GridFrom(start: int, interval: int, n: nat, p: int)
    requires interval > 0 && n >= 1
    ensures var next := Point(start, interval, n);
      OnGrid(next - interval, interval, p) <==> OnGrid(start, interval, p) && p >= next
  {
    var next := Point(start, interval, n);
    if OnGrid(next - interval, interval, p) {
      var k: nat :| k >= 1 && Point(next - interval, interval, k) == p;
      assert Point(next - interval, interval, k) == Point(start, interval, n - 1 + k) by {
        PointPlus(start, interval, n - 1, 1);
        PointPlus(start, interval, n - 1, k);
      }
      FirstPoint(next, interval, p);
    }
    if OnGrid(start, interval, p) && p >= next {
      var k: nat :| k >= 1 && Point(start, interval, k) == p;
      FarApart(start, interval, k, n);
      assert k >= n;
      PointPlus(start, interval, n - 1, 1);
      PointPlus(start, interval, n - 1, k - (n - 1));
      assert Point(next - interval, interval, k - (n - 1)) == p;
    }
  }

  /** Wake-up `i` is the one that dispatches point `p`: the last point that had come by then, not gone by at the
      wake-up before, and either the policy is to fire once or it was the only one to come since. */
  ghost predicate Takes(start: int, interval: int, wakes: seq<WakeUp>, i: nat, p: int)
    requires interval > 0 && i < |wakes|
  {
    var before := Latest(start, wakes[..i]);
    && OnGrid(start, interval, p) && before < p <= wakes[i].now < p + interval
    && (wakes[i].fireOnce || p - interval <= before)
  }

  lemma LastTakes(start: int, interval: int, wakes: seq<WakeUp>, p: int)
    requires interval > 0 && Forward(start, wakes) && wakes != []
    ensures var n := |wakes| - 1;
      p in After(start, interval, wakes).dispatched
      <==> p in After(start, interval, wakes[..n]).dispatched || Takes(start, interval, wakes, n, p)
  {
    hide OnGrid, Wake;
    var n := |wakes| - 1;
    var s, before := After(start, interval, wakes[..n]), Latest(start, wakes[..n]);
    AlwaysRegular(start, interval, wakes[..n]);
    var k := |s.dispatched| + s.skipped + 1;
    var point := WakeChooses(s, interval, wakes[n]);
    GridFrom(start, interval, k, p);
    if point.Some? {
      GridFrom(start, interval, k, point.value);
      FirstPoint(s.next, interval, point.value);
    }
    if OnGrid(s.next - interval, interval, p) { FirstPoint(s.next, interval, p); }
    if Takes(start, interval, wakes, n, p) {
      if p < s.next { BeforeNext(start, interval, k, p, before); }
      assert Chosen(s.next, interval, wakes[n].now, wakes[n].fireOnce, Some(p));
      ChosenOnce(s.next, interval, wakes[n].now, wakes[n].fireOnce, Some(p), point);
    }
  }

  /** No point of the grid lies between the moment a schedule stands at and its next point. */
  lemma BeforeNext(start: int, interval: int, n: nat, p: int, now: int)
    requires interval > 0 && n >= 1 && OnGrid(start, interval, p)
    requires Point(start, interval, n) <= now + interval && p > now
    ensures p >= Point(start, interval, n)
  {
    var k: nat :| k >= 1 && Point(start, interval, k) == p;
    FarApart(start, interval, k, n);
  }

  /** Over any wake-ups: a point is dispatched if and only if one of them takes it. */
  lemma {:induction false} DispatchedIff(start: int, interval: int, wakes: seq<WakeUp>, p: int)
    requires interval > 0 && Forward(start, wakes)
    ensures p in After(start, interval, wakes).dispatched
      <==> exists i :: 0 <= i < |wakes| && Takes(start, interval, wakes, i, p)
  {
    hide After, OnGrid, Point;
    if wakes == [] {
      NothingYet(start, interval);
    } else {
      var n := |wakes| - 1;
      DispatchedIff(start, interval, wakes[..n], p);
      LastTakes(start, interval, wakes, p);
      forall i | 0 <= i < n
        ensures Takes(start, interval, wakes[..n], i, p) <==> Takes(start, interval, wakes, i, p)
      {
        assert wakes[..n][..i] == wakes[..i] && wakes[..n][i] == wakes[i];
      }
    }
  }

  lemma NothingYet(start: int, interval: int)
    requires interval > 0
    ensures After(start, interval, []).dispatched == []
  {}

  function Least(a: real, b: real): real {
    if a < b then a else b
  }

  class Interval {
    const interval: int
    var next: int
    /** The delay of the armed timer. */
    var timer: Option<real>
    var stopped: bool
    ghost var dispatched: seq<int>
    ghost var skipped: nat

    ghost function View(): (s: Schedule)
      reads this
    {
      Schedule(next, dispatched, skipped)
    }

    /** `remaining` is the time left to the owner's deadline, if it has one. */
    constructor (interval: int, now: int, cancelled: bool, remaining: Option<real>)
      requires interval > 0
      ensures this.interval == interval && View() == Started(now, interval) && stopped == cancelled
        && timer.Some? == !cancelled
    {
      this.interval, next, timer, stopped, dispatched, skipped := interval, now + interval, None, false, [], 0;
      new;
      if cancelled { Stop(); } else { Arm(now, remaining); }
    }

    method Stop()
      modifies this`stopped, this`timer
      ensures stopped && timer == None
    {
      stopped := true;
      timer := None;
    }

    /** The timer waits for the first of the next point, the deadline and what a timer can hold, and not at all if
        that is over. */
    method Arm(now: int, remaining: Option<real>)
      modifies this`timer
      ensures timer.Some? && 0.0 <= timer.value <= MAX_TIMEOUT as real
      ensures timer.value > 0.0
        ==> timer.value <= (next - now) as real && (remaining.Some? ==> timer.value <= remaining.value)
      ensures timer.value == 0.0 ==> next <= now || (remaining.Some? && remaining.value <= 0.0)
      ensures timer.value == 0.0 || timer.value == (next - now) as real || timer.value == MAX_TIMEOUT as real
        || (remaining.Some? && timer.value == remaining.value)
    {
      var delay := Least((next - now) as real, MAX_TIMEOUT as real);
      if remaining.Some? { delay := Least(delay, remaining.value); }
      timer := Some(if delay < 0.0 then 0.0 else delay);
    }

    /** The timer callback. `later` is the clock when the timer is armed again. */
    method Fire(now: int, later: int, cancelled: bool, fireOnce: bool, remaining: Option<real>)
      returns (scheduledAt: Option<int>)
      requires interval > 0
      modifies this
      ensures stopped == (old(stopped) || cancelled) && timer.Some? == !stopped
      ensures View() == if stopped then old(View()) else Wake(old(View()), interval, now, fireOnce)
      ensures dispatched == if scheduledAt.Some? then old(dispatched) + [scheduledAt.value] else old(dispatched)
      ensures if stopped then scheduledAt.None? else Chosen(old(next), interval, now, fireOnce, scheduledAt)
    {
      hide Chosen;
      PointAtChosen(next, interval, now, fireOnce);
      timer := None;
      if stopped || cancelled {
        Stop();
        return None;
      }
      var count := (now - next) / interval + 1;
      if count < 1 {
        Arm(later, remaining);
        return None;
      }
      var due := next + (count - 1) * interval;
      next := next + count * interval;
      Arm(later, remaining);
      if count == 1 || fireOnce {
        dispatched := dispatched + [due];
        skipped := skipped + (count - 1);
        return Some(due);
      }
      skipped := skipped + count;
      return None;
    }
  }
}
