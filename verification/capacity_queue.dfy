// The single-server finite queue of the capacity analyser, in exact units of 1 / clock_hz nanoseconds.
module CapacityQueue {
  import opened Bits

  /** `None` is the analyser's unbounded queue. */
  datatype Depth = Unbounded | Bounded(limit: nat)

  /** What one run has computed: when the server frees, refused arrivals, and one occupancy per arrival. */
  datatype Queue = Queue(available: nat, overflow: nat, occupancies: seq<nat>)

  const Empty := Queue(0, 0, [])

  function CeilDiv(x: nat, s: nat): nat
    requires s > 0
  {
    (x + s - 1) / s
  }

  function Outstanding(available: nat, arrival: nat, s: nat): nat
    requires s > 0
  {
    if available <= arrival then 0 else CeilDiv(available - arrival, s)
  }

  predicate Refuses(depth: Depth, outstanding: nat) {
    depth.Bounded? && outstanding >= depth.limit
  }

  function Max(a: nat, b: nat): nat {
    if a >= b then a else b
  }

  /** One arrival, as the streaming state and the batch loop both treat it. */
  function Arrive(q: Queue, depth: Depth, s: nat, arrival: nat): Queue
    requires s > 0
  {
    var outstanding := Outstanding(q.available, arrival, s);
    if Refuses(depth, outstanding) then
      q.(overflow := q.overflow + 1, occupancies := q.occupancies + [outstanding])
    else
      var available := Max(q.available, arrival) + s;
      Queue(available, q.overflow, q.occupancies + [CeilDiv(available - arrival, s)])
  }

  function Simulate(timestamps: seq<nat>, depth: Depth, s: nat, hz: nat): Queue
    requires s > 0
  {
    if timestamps == [] then Empty
    else
      var last := |timestamps| - 1;
      Arrive(Simulate(timestamps[..last], depth, s, hz), depth, s, timestamps[last] * hz)
  }

  datatype Moment = Never | At(time: nat)

  /** The busy interval being tracked, and the longest one closed so far, in whole nanoseconds. */
  datatype Busy = Busy(start: Moment, end: Moment, longest: int)

  const NeverBusy := Busy(Never, Never, 0)

  function Larger(a: int, b: int): int {
    if a >= b then a else b
  }

  /** An interval's length as reported: the difference of its ends in whole nanoseconds. */
  function Span(start: nat, end: nat, hz: nat): int
    requires hz > 0
  {
    end / hz - start / hz
  }

  /** The longest busy interval once the tracked one counts too. */
  function Closed(b: Busy, hz: nat): int
    requires hz > 0
  {
    if b.start.At? && b.end.At? then Larger(b.longest, Span(b.start.time, b.end.time, hz)) else b.longest
  }

  function BusyAfter(b: Busy, available: nat, depth: Depth, s: nat, hz: nat, arrival: nat): Busy
    requires s > 0 && hz > 0
  {
    var tracked := if available <= arrival then Busy(At(arrival), b.end, Closed(b, hz)) else b;
    if Refuses(depth, Outstanding(available, arrival, s)) then tracked
    else tracked.(end := At(Max(available, arrival) + s))
  }

  function SimulateBusy(timestamps: seq<nat>, depth: Depth, s: nat, hz: nat): Busy
    requires s > 0 && hz > 0
  {
    if timestamps == [] then NeverBusy
    else
      var last := |timestamps| - 1;
      var before := timestamps[..last];
      BusyAfter(SimulateBusy(before, depth, s, hz), Simulate(before, depth, s, hz).available, depth, s, hz,
        timestamps[last] * hz)
  }

  /** The streaming form: one object per depth, fed one timestamp at a time. */
  class CapacityState {
    const depth: Depth
    const serviceNum: nat
    const clockHz: nat
    var serverAvailable: nat
    var occupancies: seq<nat>
    var overflow: nat
    var busyStart: Moment
    var currentBusyEnd: Moment
    var longestBusy: int
    var lastTimestamp: Moment

    ghost function View(): Queue
      reads this
    {
      Queue(serverAvailable, overflow, occupancies)
    }

    ghost function BusyView(): Busy
      reads this
    {
      Busy(busyStart, currentBusyEnd, longestBusy)
    }

    constructor (depth: Depth, serviceNum: nat, clockHz: nat)
      ensures this.depth == depth && this.serviceNum == serviceNum && this.clockHz == clockHz
      ensures View() == Empty && BusyView() == NeverBusy && lastTimestamp == Never
    {
      this.depth, this.serviceNum, this.clockHz := depth, serviceNum, clockHz;
      serverAvailable, occupancies, overflow := 0, [], 0;
      busyStart, currentBusyEnd, longestBusy, lastTimestamp := Never, Never, 0, Never;
    }

    method Observe(timestamp: nat)
      requires serviceNum > 0 && clockHz > 0
      modifies this
      ensures View() == Arrive(old(View()), depth, serviceNum, timestamp * clockHz)
      ensures BusyView() ==
        BusyAfter(old(BusyView()), old(serverAvailable), depth, serviceNum, clockHz, timestamp * clockHz)
      ensures lastTimestamp == At(timestamp)
    {
      var arrival := timestamp * clockHz;
      if serverAvailable <= arrival {
        if busyStart != Never && currentBusyEnd != Never {
          longestBusy := Larger(longestBusy, Span(busyStart.time, currentBusyEnd.time, clockHz));
        }
        busyStart := At(arrival);
      }
      lastTimestamp := At(timestamp);
      var outstanding := 0;
      if serverAvailable > arrival {
        outstanding := (serverAvailable - arrival + serviceNum - 1) / serviceNum;
      }
      if depth.Bounded? && outstanding >= depth.limit {
        overflow := overflow + 1;
        occupancies := occupancies + [outstanding];
        return;
      }
      var start := if serverAvailable >= arrival then serverAvailable else arrival;
      serverAvailable := start + serviceNum;
      currentBusyEnd := At(serverAvailable);
      occupancies := occupancies + [(serverAvailable - arrival + serviceNum - 1) / serviceNum];
    }
  }

  lemma {:induction false} NothingYet(depth: Depth, s: nat, hz: nat)
    requires s > 0 && hz > 0
    ensures Simulate([], depth, s, hz) == Empty && SimulateBusy([], depth, s, hz) == NeverBusy
  {
  }

  lemma {:induction false} OneMore(timestamps: seq<nat>, i: nat, depth: Depth, s: nat, hz: nat)
    requires s > 0 && hz > 0 && i < |timestamps|
    ensures
      var q, b, arrival :=
        Simulate(timestamps[..i], depth, s, hz), SimulateBusy(timestamps[..i], depth, s, hz), timestamps[i] * hz;
      && Simulate(timestamps[..i + 1], depth, s, hz) == Arrive(q, depth, s, arrival)
      && SimulateBusy(timestamps[..i + 1], depth, s, hz) == BusyAfter(b, q.available, depth, s, hz, arrival)
  {
    hide Arrive, BusyAfter;
    assert timestamps[..i + 1][..i] == timestamps[..i];
  }

  /** The batch form over a whole trace; the busy interval still open at the end is closed there. */
  method SimulateDepth(timestamps: seq<nat>, depth: Depth, s: nat, hz: nat)
    returns (available: nat, overflow: nat, occupancies: seq<nat>, longestBusy: int)
    requires s > 0 && hz > 0
    ensures Queue(available, overflow, occupancies) == Simulate(timestamps, depth, s, hz)
    ensures longestBusy == Closed(SimulateBusy(timestamps, depth, s, hz), hz)
  {
    hide CeilDiv, Span, Outstanding, Larger, Simulate, SimulateBusy;
    NothingYet(depth, s, hz);
    available, overflow, occupancies, longestBusy := 0, 0, [], 0;
    var busyStart, busyEnd := Never, Never;
    for i := 0 to |timestamps|
      invariant Queue(available, overflow, occupancies) == Simulate(timestamps[..i], depth, s, hz)
      invariant Busy(busyStart, busyEnd, longestBusy) == SimulateBusy(timestamps[..i], depth, s, hz)
    {
      OneMore(timestamps, i, depth, s, hz);
      var arrival := timestamps[i] * hz;
      if available <= arrival {
        if busyStart != Never && busyEnd != Never {
          longestBusy := Larger(longestBusy, Span(busyStart.time, busyEnd.time, hz));
        }
        busyStart := At(arrival);
      }
      var outstanding := Outstanding(available, arrival, s);
      if depth.Bounded? && outstanding >= depth.limit {
        overflow := overflow + 1;
        occupancies := occupancies + [outstanding];
        continue;
      }
      var start := if available >= arrival then available else arrival;
      available := start + s;
      busyEnd := At(available);
      occupancies := occupancies + [CeilDiv(available - arrival, s)];
    }
    assert timestamps[..|timestamps|] == timestamps;
    if busyStart != Never && busyEnd != Never {
      longestBusy := Larger(longestBusy, Span(busyStart.time, busyEnd.time, hz));
    }
  }

  // ---- What the arithmetic means: an explicit first-come first-served schedule ----

  /** Finish time of every job of a server that takes jobs in order, each for `s`. */
  function Finishes(arrivals: seq<nat>, s: nat): (f: seq<nat>)
    ensures |f| == |arrivals|
  {
    if arrivals == [] then []
    else
      var last := |arrivals| - 1;
      var f := Finishes(arrivals[..last], s);
      f + [Max(Last(f), arrivals[last]) + s]
  }

  function Last(f: seq<nat>): nat {
    if f == [] then 0 else f[|f| - 1]
  }

  /** How many of the finish times are still in the future at `now`. */
  function Unfinished(f: seq<nat>, now: nat): nat {
    if f == [] then 0
    else Unfinished(f[..|f| - 1], now) + if f[|f| - 1] > now then 1 else 0
  }

  /** The arrivals the queue lets in, in order. */
  function Accepted(timestamps: seq<nat>, depth: Depth, s: nat, hz: nat): seq<nat>
    requires s > 0
  {
    if timestamps == [] then []
    else
      var last := |timestamps| - 1;
      var before := timestamps[..last];
      var arrival := timestamps[last] * hz;
      Accepted(before, depth, s, hz) +
        if Refuses(depth, Outstanding(Simulate(before, depth, s, hz).available, arrival, s)) then [] else [arrival]
  }

  predicate Nondecreasing(xs: seq<nat>) {
    forall i, j :: 0 <= i <= j < |xs| ==> xs[i] <= xs[j]
  }

  lemma {:induction false} CeilStep(x: nat, s: nat)
    requires s > 0
    ensures CeilDiv(x + s, s) == CeilDiv(x, s) + 1
    ensures CeilDiv(0, s) == 0
  {
    var y := x + s - 1;
    DivMod(y, s);
    Distribute(y / s, 1, s);
    ModUnique(y + s, y / s + 1, y % s, s);
    ModSmall(s - 1, s);
  }

  lemma {:induction false} CeilOfOne(x: nat, s: nat)
    requires 0 < x <= s
    ensures CeilDiv(x, s) == 1
  {
    ModUnique(x + s - 1, 1, x - 1, s);
  }

  /** `CeilDiv` is the least number of service times that covers `x`. */
  lemma {:induction false} CeilBounds(x: nat, s: nat, n: nat)
    requires s > 0
    ensures CeilDiv(x, s) <= n <==> x <= n * s
  {
    var y := x + s - 1;
    var c := y / s;
    assert y == c * s + y % s;
    if c <= n {
      MulAtLeast(n, c, s);
    } else {
      MulAtLeast(c, n + 1, s);
      Distribute(n, 1, s);
    }
  }

  // The ceiling formula counts the unfinished jobs of the explicit schedule.
  lemma {:induction false} CeilingCountsUnfinished(arrivals: seq<nat>, s: nat, now: nat)
    requires s > 0 && forall i :: 0 <= i < |arrivals| ==> arrivals[i] <= now
    ensures Outstanding(Last(Finishes(arrivals, s)), now, s) == Unfinished(Finishes(arrivals, s), now)
    ensures Last(Finishes(arrivals, s)) <= now ==> Unfinished(Finishes(arrivals, s), now) == 0
  {
    if arrivals != [] {
      var last := |arrivals| - 1;
      var f, g := Finishes(arrivals[..last], s), Finishes(arrivals, s);
      CeilingCountsUnfinished(arrivals[..last], s, now);
      assert g[..|g| - 1] == f;
      if Last(f) > now {
        CeilStep(Last(f) - now, s);
      } else if Last(g) > now {
        CeilOfOne(Last(g) - now, s);
      }
    }
  }

  lemma {:induction false} ServerFreesWithLastJob(timestamps: seq<nat>, depth: Depth, s: nat, hz: nat)
    requires s > 0
    ensures Simulate(timestamps, depth, s, hz).available == Last(Finishes(Accepted(timestamps, depth, s, hz), s))
    ensures |Accepted(timestamps, depth, s, hz)| + Simulate(timestamps, depth, s, hz).overflow == |timestamps|
    ensures |Simulate(timestamps, depth, s, hz).occupancies| == |timestamps|
  {
    hide CeilDiv, Outstanding;
    if timestamps != [] {
      var last := |timestamps| - 1;
      var before := timestamps[..last];
      ServerFreesWithLastJob(before, depth, s, hz);
      var a, b := Accepted(before, depth, s, hz), Accepted(timestamps, depth, s, hz);
      var arrival := timestamps[last] * hz;
      if Refuses(depth, Outstanding(Simulate(before, depth, s, hz).available, arrival, s)) {
        assert b == a;
      } else {
        assert b == a + [arrival] && b[..|b| - 1] == a;
      }
    }
  }

  lemma {:induction false} AcceptedArriveInOrder(timestamps: seq<nat>, depth: Depth, s: nat, hz: nat, now: nat)
    requires s > 0 && forall i :: 0 <= i < |timestamps| ==> timestamps[i] <= now
    ensures forall i :: 0 <= i < |Accepted(timestamps, depth, s, hz)| ==>
      Accepted(timestamps, depth, s, hz)[i] <= now * hz
  {
    if timestamps != [] {
      var last := |timestamps| - 1;
      AcceptedArriveInOrder(timestamps[..last], depth, s, hz, now);
      MulAtLeast(now, timestamps[last], hz);
    }
  }

  /**
    For every nondecreasing arrival sequence, at each arrival the number the queue compares with its depth
    is the number of accepted jobs not yet finished; an accepted arrival records one more than that, which
    stays within the depth; and accepted plus refused arrivals are all arrivals.
   */
  lemma {:induction false} OccupancyIsExact(timestamps: seq<nat>, depth: Depth, s: nat, hz: nat)
    requires s > 0 && Nondecreasing(timestamps) && timestamps != []
    ensures
      var last := |timestamps| - 1;
      var before, arrival := timestamps[..last], timestamps[last] * hz;
      var waiting := Unfinished(Finishes(Accepted(before, depth, s, hz), s), arrival);
      var q := Simulate(timestamps, depth, s, hz);
      var taken := !(depth.Bounded? && waiting >= depth.limit);
      && Accepted(timestamps, depth, s, hz) == Accepted(before, depth, s, hz) + (if taken then [arrival] else [])
      && q.occupancies == Simulate(before, depth, s, hz).occupancies + [if taken then waiting + 1 else waiting]
      && Unfinished(Finishes(Accepted(timestamps, depth, s, hz), s), arrival) ==
           (if taken then waiting + 1 else waiting)
      && (taken && depth.Bounded? ==> waiting + 1 <= depth.limit)
      && |Accepted(timestamps, depth, s, hz)| + q.overflow == |timestamps|
  {
    hide CeilDiv, Finishes, Unfinished, Outstanding;
    var last := |timestamps| - 1;
    var before, arrival := timestamps[..last], timestamps[last] * hz;
    WaitingIsOutstanding(before, depth, s, hz, timestamps[last], arrival);
    WaitingIsOutstanding(timestamps, depth, s, hz, timestamps[last], arrival);
    ServerFreesWithLastJob(timestamps, depth, s, hz);
    OutstandingAfterArrival(Simulate(before, depth, s, hz).available, arrival, s);
  }

  lemma {:induction false} WaitingIsOutstanding(timestamps: seq<nat>, depth: Depth, s: nat, hz: nat, t: nat, now: nat)
    requires s > 0 && now == t * hz && forall i :: 0 <= i < |timestamps| ==> timestamps[i] <= t
    ensures Unfinished(Finishes(Accepted(timestamps, depth, s, hz), s), now)
         == Outstanding(Simulate(timestamps, depth, s, hz).available, now, s)
  {
    hide CeilDiv, Finishes, Unfinished, Outstanding, Simulate, Accepted;
    AcceptedArriveInOrder(timestamps, depth, s, hz, t);
    ServerFreesWithLastJob(timestamps, depth, s, hz);
    CeilingCountsUnfinished(Accepted(timestamps, depth, s, hz), s, now);
  }

  lemma {:induction false} OutstandingAfterArrival(available: nat, arrival: nat, s: nat)
    requires s > 0
    ensures
      var next := Max(available, arrival) + s;
      && Outstanding(next, arrival, s) == Outstanding(available, arrival, s) + 1
      && CeilDiv(next - arrival, s) == Outstanding(available, arrival, s) + 1
  {
    hide CeilDiv;
    CeilStep(if available > arrival then available - arrival else 0, s);
    CeilOfOne(s, s);
  }

  /** A bounded queue never holds more than its depth. */
  lemma {:induction false} OccupancyWithinDepth(timestamps: seq<nat>, limit: nat, s: nat, hz: nat, i: nat)
    requires s > 0 && Nondecreasing(timestamps) && i < |timestamps|
    ensures i < |Simulate(timestamps, Bounded(limit), s, hz).occupancies|
    ensures Simulate(timestamps, Bounded(limit), s, hz).occupancies[i] <= limit
    decreases |timestamps|
  {
    hide CeilDiv, Outstanding, Unfinished, Finishes, Accepted, Simulate;
    var last := |timestamps| - 1;
    var before := timestamps[..last];
    ServerFreesWithLastJob(timestamps, Bounded(limit), s, hz);
    ServerFreesWithLastJob(before, Bounded(limit), s, hz);
    OccupancyIsExact(timestamps, Bounded(limit), s, hz);
    if i < last {
      OccupancyWithinDepth(before, limit, s, hz, i);
    } else {
      UnfinishedWithinDepth(before, limit, s, hz, timestamps[last] * hz, timestamps[last]);
    }
  }

  // Jobs only finish as time passes, so the depth bounds the unfinished jobs at every later moment too.
  lemma {:induction false} UnfinishedWithinDepth(
      timestamps: seq<nat>, limit: nat, s: nat, hz: nat, now: nat, t: nat)
    requires s > 0 && Nondecreasing(timestamps) && now == t * hz
    requires forall i :: 0 <= i < |timestamps| ==> timestamps[i] <= t
    ensures Unfinished(Finishes(Accepted(timestamps, Bounded(limit), s, hz), s), now) <= limit
  {
    if timestamps != [] {
      var last := |timestamps| - 1;
      var before, arrival := timestamps[..last], timestamps[last] * hz;
      MulAtLeast(t, timestamps[last], hz);
      UnfinishedWithinDepth(before, limit, s, hz, arrival, timestamps[last]);
      OccupancyIsExact(timestamps, Bounded(limit), s, hz);
      UnfinishedFalls(Finishes(Accepted(timestamps, Bounded(limit), s, hz), s), arrival, now);
    }
  }

  lemma {:induction false} UnfinishedFalls(f: seq<nat>, now: nat, later: nat)
    requires now <= later
    ensures Unfinished(f, later) <= Unfinished(f, now)
  {
    if f != [] { UnfinishedFalls(f[..|f| - 1], now, later); }
  }

  // ---- Busy intervals ----

  datatype Period = Period(start: nat, end: nat)

  /**
    The busy intervals of a server that takes jobs in order: a job that finds it free opens one, any other
    extends the last.
   */
  function Periods(arrivals: seq<nat>, s: nat): (ps: seq<Period>)
    ensures arrivals != [] ==> ps != [] && ps[|ps| - 1].end == Last(Finishes(arrivals, s))
  {
    if arrivals == [] then []
    else
      var last := |arrivals| - 1;
      var before, free := Periods(arrivals[..last], s), Last(Finishes(arrivals[..last], s));
      if free <= arrivals[last] then before + [Period(arrivals[last], arrivals[last] + s)]
      else before[..|before| - 1] + [Period(before[|before| - 1].start, free + s)]
  }

  function Longest(ps: seq<Period>, hz: nat): int
    requires hz > 0
  {
    if ps == [] then 0
    else Larger(Longest(ps[..|ps| - 1], hz), Span(ps[|ps| - 1].start, ps[|ps| - 1].end, hz))
  }

  function TotalLength(ps: seq<Period>): int {
    if ps == [] then 0 else TotalLength(ps[..|ps| - 1]) + ps[|ps| - 1].end - ps[|ps| - 1].start
  }

  lemma {:induction false} LengthExtends(a: seq<nat>, arrival: nat, s: nat)
    ensures TotalLength(Periods(a + [arrival], s)) == TotalLength(Periods(a, s)) + s
  {
    PeriodsExtend(a, arrival, s);
    hide Finishes, Periods;
  }

  /** Together the intervals are as long as all the work done: the server never idles inside one. */
  lemma {:induction false} PeriodsAreTheWork(arrivals: seq<nat>, s: nat)
    ensures TotalLength(Periods(arrivals, s)) == |arrivals| * s
  {
    hide *;
    if arrivals == [] {
      NoPeriods(s);
    } else {
      var last := |arrivals| - 1;
      PeriodsAreTheWork(arrivals[..last], s);
      LengthExtends(arrivals[..last], arrivals[last], s);
      assert arrivals == arrivals[..last] + [arrivals[last]];
      Distribute(last, 1, s);
    }
  }

  /** And they follow one another. */
  lemma {:induction false} PeriodsInOrder(arrivals: seq<nat>, s: nat, i: nat)
    requires i + 1 < |Periods(arrivals, s)|
    ensures Periods(arrivals, s)[i].end <= Periods(arrivals, s)[i + 1].start
  {
    if arrivals != [] {
      var last := |arrivals| - 1;
      var front := arrivals[..last];
      assert arrivals == front + [arrivals[last]];
      PeriodsExtend(front, arrivals[last], s);
      hide Finishes, Periods;
      if i + 1 < |Periods(front, s)| { PeriodsInOrder(front, s, i); }
    }
  }

  /** What the loop tracks: the last interval, and the longest of the others. */
  ghost predicate TracksPeriods(b: Busy, ps: seq<Period>, hz: nat)
    requires hz > 0
  {
    if ps == [] then !b.end.At? && b.longest == 0
    else
      var last := |ps| - 1;
      b == Busy(At(ps[last].start), At(ps[last].end), Longest(ps[..last], hz))
  }

  lemma {:induction false} AcceptTracks(b: Busy, a: seq<nat>, depth: Depth, s: nat, hz: nat, arrival: nat)
    requires s > 0 && hz > 0 && TracksPeriods(b, Periods(a, s), hz)
    requires !Refuses(depth, Outstanding(Last(Finishes(a, s)), arrival, s))
    ensures TracksPeriods(BusyAfter(b, Last(Finishes(a, s)), depth, s, hz, arrival), Periods(a + [arrival], s), hz)
  {
    PeriodsExtend(a, arrival, s);
    hide CeilDiv, Finishes, Span, Periods, Outstanding, Last;
  }

  lemma {:induction false} RefusalTracks(b: Busy, ps: seq<Period>, available: nat, depth: Depth, s: nat, hz: nat,
      arrival: nat)
    requires s > 0 && hz > 0 && TracksPeriods(b, ps, hz)
    requires Refuses(depth, Outstanding(available, arrival, s)) && (ps == [] || available > arrival)
    ensures TracksPeriods(BusyAfter(b, available, depth, s, hz, arrival), ps, hz)
  {
    hide CeilDiv, Span, Outstanding;
  }

  lemma {:induction false} LoopTracksPeriods(timestamps: seq<nat>, depth: Depth, s: nat, hz: nat)
    requires s > 0 && hz > 0
    ensures TracksPeriods(SimulateBusy(timestamps, depth, s, hz), Periods(Accepted(timestamps, depth, s, hz), s), hz)
  {
    hide CeilDiv, Finishes, Last, Span, Periods, Outstanding, BusyAfter, Simulate, TracksPeriods;
    if timestamps == [] {
      NothingTracked(s, hz);
    } else {
      var last := |timestamps| - 1;
      var before, arrival := timestamps[..last], timestamps[last] * hz;
      LoopTracksPeriods(before, depth, s, hz);
      ServerFreesWithLastJob(before, depth, s, hz);
      var a, b, available :=
        Accepted(before, depth, s, hz), SimulateBusy(before, depth, s, hz), Simulate(before, depth, s, hz).available;
      if Refuses(depth, Outstanding(available, arrival, s)) {
        assert Accepted(timestamps, depth, s, hz) == a;
        RefusedWhileBusy(before, depth, s, hz, arrival);
        RefusalTracks(b, Periods(a, s), available, depth, s, hz, arrival);
      } else {
        AcceptTracks(b, a, depth, s, hz, arrival);
      }
    }
  }

  lemma {:induction false} NothingTracked(s: nat, hz: nat)
    requires hz > 0
    ensures TracksPeriods(NeverBusy, Periods([], s), hz)
  {
  }

  lemma {:induction false} NoPeriods(s: nat)
    ensures Periods([], s) == [] && TotalLength([]) == 0
  {
  }

  // A queue that has accepted a job has room for one, so it refuses only while it is busy; one without room has no
  // intervals.
  lemma {:induction false} RefusedWhileBusy(timestamps: seq<nat>, depth: Depth, s: nat, hz: nat, arrival: nat)
    requires s > 0 && Refuses(depth, Outstanding(Simulate(timestamps, depth, s, hz).available, arrival, s))
    ensures Periods(Accepted(timestamps, depth, s, hz), s) == []
      || Simulate(timestamps, depth, s, hz).available > arrival
  {
    hide CeilDiv, Simulate, Accepted;
    if depth == Bounded(0) { NoRoomAtAll(timestamps, s, hz); }
  }

  lemma {:induction false} NoRoomAtAll(timestamps: seq<nat>, s: nat, hz: nat)
    requires s > 0
    ensures Accepted(timestamps, Bounded(0), s, hz) == []
  {
    if timestamps != [] { NoRoomAtAll(timestamps[..|timestamps| - 1], s, hz); }
  }

  lemma {:induction false} NoFinishes(s: nat)
    ensures Last(Finishes([], s)) == 0
  {
  }

  lemma {:induction false} PeriodsUnfold(a: seq<nat>, arrival: nat, s: nat)
    ensures
      var before, free := Periods(a, s), Last(Finishes(a, s));
      if free <= arrival then Periods(a + [arrival], s) == before + [Period(arrival, arrival + s)]
      else
        && before != []
        && Periods(a + [arrival], s) == before[..|before| - 1] + [Period(before[|before| - 1].start, free + s)]
  {
    hide *;
    NoFinishes(s);
    var all := a + [arrival];
    assert all[..|all| - 1] == a && all[|all| - 1] == arrival;
    PeriodsOf(all, s);
  }

  lemma {:induction false} PeriodsOf(arrivals: seq<nat>, s: nat)
    requires arrivals != []
    ensures
      var last := |arrivals| - 1;
      var front := arrivals[..last];
      var before, free := Periods(front, s), Last(Finishes(front, s));
      if free <= arrivals[last] then Periods(arrivals, s) == before + [Period(arrivals[last], arrivals[last] + s)]
      else
        && before != []
        && Periods(arrivals, s) == before[..|before| - 1] + [Period(before[|before| - 1].start, free + s)]
  {
    NoFinishes(s);
    hide Finishes, Last;
  }

  lemma {:induction false} PeriodsExtend(a: seq<nat>, arrival: nat, s: nat)
    ensures
      var before, ps, free := Periods(a, s), Periods(a + [arrival], s), Last(Finishes(a, s));
      if free <= arrival then ps == before + [Period(arrival, arrival + s)] && ps[..|ps| - 1] == before
      else before != [] && ps == before[..|before| - 1] + [Period(before[|before| - 1].start, free + s)]
           && ps[..|ps| - 1] == before[..|before| - 1]
  {
    hide *;
    NoFinishes(s);
    PeriodsUnfold(a, arrival, s);
    var before := Periods(a, s);
    assert (before + [Period(arrival, arrival + s)])[..|before|] == before;
  }

  /** Some period is that long in whole nanoseconds, from the one its start falls in to the one its end does. */
  ghost predicate HasLength(ps: seq<Period>, hz: nat, length: int)
    requires hz > 0
  {
    exists k :: 0 <= k < |ps| && ps[k].end / hz - ps[k].start / hz == length
  }

  /** That is the greatest such length, or zero when there is no period. */
  ghost predicate IsLongest(ps: seq<Period>, hz: nat, length: int)
    requires hz > 0
  {
    && (forall k :: 0 <= k < |ps| ==> ps[k].end / hz - ps[k].start / hz <= length)
    && if ps == [] then length == 0 else HasLength(ps, hz, length)
  }

  lemma {:induction false} LongestIsGreatest(ps: seq<Period>, hz: nat)
    requires hz > 0 && forall k :: 0 <= k < |ps| ==> ps[k].start <= ps[k].end
    ensures IsLongest(ps, hz, Longest(ps, hz))
  {
    if ps != [] {
      var last := |ps| - 1;
      var front, span := ps[..last], Span(ps[last].start, ps[last].end, hz);
      LongestIsGreatest(front, hz);
      SpanNotNegative(ps[last].start, ps[last].end, hz);
      assert ps[last].end / hz - ps[last].start / hz == span;
      hide Span;
      if Longest(ps, hz) == span {
        assert HasLength(ps, hz, span);
      } else {
        var k :| 0 <= k < last && front[k].end / hz - front[k].start / hz == Longest(front, hz);
        assert ps[k] == front[k];
      }
      forall k | 0 <= k < |ps| ensures ps[k].end / hz - ps[k].start / hz <= Longest(ps, hz) {
        if k < last { assert ps[k] == front[k]; }
      }
    }
  }

  lemma {:induction false} SpanNotNegative(start: nat, end: nat, hz: nat)
    requires hz > 0 && start <= end
    ensures Span(start, end, hz) >= 0
  {
    DivMod(start, hz);
    DivMod(end, hz);
    if end / hz < start / hz {
      MulAtLeast(start / hz, end / hz + 1, hz);
      Distribute(end / hz, 1, hz);
    }
  }

  lemma {:induction false} PeriodsRun(arrivals: seq<nat>, s: nat)
    ensures forall k :: 0 <= k < |Periods(arrivals, s)| ==> Periods(arrivals, s)[k].start <= Periods(arrivals, s)[k].end
  {
    if arrivals == [] {
      NoPeriods(s);
    } else {
      var last := |arrivals| - 1;
      PeriodsRun(arrivals[..last], s);
      PeriodsOf(arrivals, s);
      hide Periods, Finishes;
    }
  }

  /**
    The longest busy interval reported is the longest, in whole nanoseconds, of the explicit schedule's intervals,
    for every trace and depth.
   */
  lemma {:induction false} LongestBusyIsExact(timestamps: seq<nat>, depth: Depth, s: nat, hz: nat)
    requires s > 0 && hz > 0
    ensures
      var ps := Periods(Accepted(timestamps, depth, s, hz), s);
      IsLongest(ps, hz, Closed(SimulateBusy(timestamps, depth, s, hz), hz))
  {
    hide Periods, SimulateBusy, Accepted, IsLongest;
    LoopTracksPeriods(timestamps, depth, s, hz);
    PeriodsRun(Accepted(timestamps, depth, s, hz), s);
    LongestIsGreatest(Periods(Accepted(timestamps, depth, s, hz), s), hz);
  }

  // ---- A deeper queue never refuses more ----

  predicate Deeper(shallow: Depth, deep: Depth) {
    deep.Unbounded? || (shallow.Bounded? && shallow.limit <= deep.limit)
  }

  /**
    The coupling of two runs over the same arrivals: the deeper queue has at least as much work, and its
    extra work is paid for by extra accepted jobs (equivalently, by fewer refusals).
   */
  predicate Coupled(shallow: Queue, deep: Queue, s: nat, now: nat) {
    && shallow.available <= deep.available
    && Max(deep.available, now) - Max(shallow.available, now) <= s * (shallow.overflow - deep.overflow)
  }

  lemma {:induction false} ArriveKeepsCoupling(p: Queue, q: Queue, shallow: Depth, deep: Depth, s: nat, earlier: nat,
      now: nat)
    requires s > 0 && earlier <= now
    requires Deeper(shallow, deep) && shallow != deep
    requires Coupled(p, q, s, earlier)
    ensures Coupled(Arrive(p, shallow, s, now), Arrive(q, deep, s, now), s, now)
  {
    hide CeilDiv;
    var gap := p.overflow - q.overflow;
    var x, y := Outstanding(q.available, now, s), Outstanding(p.available, now, s);
    assert s * (gap + 1) == s * gap + s && s * (gap - 1) == s * gap - s;
    if Refuses(deep, x) && !Refuses(shallow, y) {
      AloneInRefusing(p.available, q.available, shallow.limit, deep.limit, s, now);
    }
  }

  // The deeper queue is the only one to refuse just when it is more than one job ahead.
  lemma {:induction false} AloneInRefusing(shallowFree: nat, deepFree: nat, shallow: nat, deep: nat, s: nat, now: nat)
    requires s > 0 && shallow < deep
    requires Outstanding(deepFree, now, s) >= deep && Outstanding(shallowFree, now, s) < shallow
    ensures deepFree > Max(shallowFree, now) + s
  {
    hide CeilDiv;
    CeilBounds(deepFree - now, s, deep - 1);
    if shallowFree > now { CeilBounds(shallowFree - now, s, shallow - 1); }
    MulAtLeast(deep - 1, shallow, s);
    Distribute(shallow, 1, s);
    MulAtLeast(shallow - 1, 0, s);
  }

  lemma {:induction false} RunsStayCoupled(timestamps: seq<nat>, shallow: Depth, deep: Depth, s: nat, hz: nat)
    requires s > 0 && Nondecreasing(timestamps) && Deeper(shallow, deep) && shallow != deep
    ensures Coupled(Simulate(timestamps, shallow, s, hz), Simulate(timestamps, deep, s, hz), s,
                    if timestamps == [] then 0 else timestamps[|timestamps| - 1] * hz)
  {
    if timestamps != [] {
      var last := |timestamps| - 1;
      var before := timestamps[..last];
      RunsStayCoupled(before, shallow, deep, s, hz);
      hide Arrive, Coupled;
      if before != [] { MulAtLeast(timestamps[last], timestamps[last - 1], hz); }
      ArriveKeepsCoupling(Simulate(before, shallow, s, hz), Simulate(before, deep, s, hz), shallow, deep, s,
                          if before == [] then 0 else before[|before| - 1] * hz, timestamps[last] * hz);
    }
  }

  /** Overflow is non-increasing in queue depth, for every nondecreasing arrival sequence. */
  lemma {:induction false} DeeperNeverRefusesMore(timestamps: seq<nat>, shallow: Depth, deep: Depth, s: nat, hz: nat)
    requires s > 0 && Nondecreasing(timestamps) && Deeper(shallow, deep)
    ensures Simulate(timestamps, deep, s, hz).overflow <= Simulate(timestamps, shallow, s, hz).overflow
    ensures Simulate(timestamps, shallow, s, hz).available <= Simulate(timestamps, deep, s, hz).available
  {
    hide Simulate;
    if shallow != deep {
      RunsStayCoupled(timestamps, shallow, deep, s, hz);
      var gap := Simulate(timestamps, shallow, s, hz).overflow - Simulate(timestamps, deep, s, hz).overflow;
      NonNegativeFactor(s, gap);
    }
  }
}
