// When the fills of a replay happen, told of its events: at the first quote that can make them.
module BacktestTiming {
  import opened MarketTypes
  import opened Execution
  import opened Portfolio
  import opened BacktestReplay
  import opened BacktestFills

  // ---- The promise ----

  /** The orders an event's risk exits and candidate place. */
  function Issued(c: PortfolioConfig, ec: ExecutionConfig, items: seq<Item>, i: nat): seq<Op>
    requires ec.Valid() && i < |items|
  {
    var s := RunItems(c, ec, items[..i]);
    var t := Entered(c, ec, s, items[i]);
    if t.Running? && items[i].accepted then TradeOps(c, ec, t, items[i]) else []
  }

  predicate IssuedAt(c: PortfolioConfig, ec: ExecutionConfig, items: seq<Item>, i: nat, o: Order)
    requires ec.Valid() && i < |items|
  {
    exists m :: 0 <= m < |Issued(c, ec, items, i)| && Issued(c, ec, items, i)[m].Place?
      && o == Queued(ec, Issued(c, ec, items, i)[m].order, false)
  }

  /** Both sides of the order's symbol are quoted, uncrossed, with a price and shares on the side the order takes. */
  predicate Tradable(o: Order, f: Feature) {
    && f.symbol == o.symbol && f.raw.spreadValid
    && if o.side == Buy then f.book.askPrice > 0 && f.book.askQuantity > 0
       else f.book.bidPrice > 0 && f.book.bidQuantity > 0
  }

  /** The event is an accepted quote, at or past the order's due time, on which it can trade. */
  predicate FilledBy(o: Order, i: Item) {
    i.accepted && i.isQuote && o.eligible <= i.timestamp && Tradable(o, i.feature)
  }

  lemma {:induction false} TradableIsUsable(o: Order, f: Feature)
    ensures Tradable(o, f) == Usable(o, f)
    ensures forall t: nat :: FillsNow(o, t, f) == (o.eligible <= t && Tradable(o, f))
  {
  }

  /**
    Issued by event `i`, due its latency later, and since then passed over by every quote before event `n`, all
    in one session.
   */
  ghost predicate Passed(c: PortfolioConfig, ec: ExecutionConfig, items: seq<Item>, i: nat, n: nat, o: Order)
    requires ec.Valid() && i < |items| && n <= |items|
  {
    && IssuedAt(c, ec, items, i, o) && o.orderTime == items[i].timestamp
    && o.eligible == items[i].timestamp + ec.latency
    && (forall m :: i <= m < n ==> !FilledBy(o, items[m]))
    && (forall m :: i <= m < n ==> items[m].session == items[i].session)
  }

  /** The fill is made by event `n`, the first accepted quote from the issuing event on that fills the order. */
  ghost predicate AtFirstUsableQuote(c: PortfolioConfig, ec: ExecutionConfig, items: seq<Item>, i: nat, n: nat, x: Fill)
    requires ec.Valid() && i <= n < |items|
  {
    && Passed(c, ec, items, i, n, x.order) && items[n].session == items[i].session
    && FilledBy(x.order, items[n]) && x == MakeFill(ec, x.order, items[n].timestamp, items[n].feature)
  }

  /** The fill is forced when the session of state `s` ends, on the session's latest feature of its symbol. */
  ghost predicate AtClose(ec: ExecutionConfig, s: State, x: Fill)
    requires ec.Valid()
  {
    && s.Running? && x.order.purpose == Exit && x.order.reason == EndOfDay && x.order.symbol in s.last
    && x.timestamp == s.lastTime && Tradable(x.order, s.last[x.order.symbol])
    && x == MakeFill(ec, x.order, s.lastTime, s.last[x.order.symbol])
  }

  ghost predicate Promised(c: PortfolioConfig, ec: ExecutionConfig, items: seq<Item>, x: Fill)
    requires ec.Valid()
  {
    || (exists i: nat, n: nat :: i <= n < |items| && AtFirstUsableQuote(c, ec, items, i, n, x))
    || exists k: nat ::
         k < |items| && Bounds(RunItems(c, ec, items[..k]), items[k]) && AtClose(ec, RunItems(c, ec, items[..k]), x)
  }

  ghost predicate Waits(c: PortfolioConfig, ec: ExecutionConfig, items: seq<Item>, o: Order)
    requires ec.Valid()
  {
    exists i: nat :: i < |items| && Passed(c, ec, items, i, |items|, o)
  }

  // ---- One event's operations ----

  /**
    A placement by an event: unforced, on its own feature and time, and immediate exactly when its quote fills
    the order.
   */
  predicate PlacedBy(ec: ExecutionConfig, op: Op, i: Item) {
    && op.Place? && !op.forced && op.timestamp == i.timestamp && op.feature == i.feature
    && op.order.orderTime == i.timestamp
    && Immediate(ec, op.order, op.timestamp, op.feature, op.isQuote, false)
         == (i.isQuote && FillsNow(Queued(ec, op.order, false), i.timestamp, i.feature))
  }

  lemma {:induction false} OwnQuoteIsImmediate(ec: ExecutionConfig, o: Order, i: Item, own: bool)
    requires o.orderTime == i.timestamp && own == (i.isQuote && i.feature.symbol == o.symbol)
    ensures PlacedBy(ec, Place(o, i.timestamp, i.feature, own, false), i)
    ensures i.feature.symbol == o.symbol ==> PlacedBy(ec, Place(o, i.timestamp, i.feature, i.isQuote, false), i)
  {
    hide ReferencePrice;
  }

  predicate AllPlacedBy(ec: ExecutionConfig, ops: seq<Op>, i: Item) {
    forall m :: 0 <= m < |ops| ==> PlacedBy(ec, ops[m], i)
  }

  lemma {:induction false} RiskPlaces(c: PortfolioConfig, ec: ExecutionConfig, d: Desk, ps: seq<Position>, i: Item)
    requires ec.Valid()
    ensures AllPlacedBy(ec, RiskOps(c, ec, d, ps, i.timestamp, i.feature, i.isQuote), i)
    decreases |ps|
  {
    hide PlacedBy, RiskSwept, RiskReason;
    if ps != [] {
      RiskPlaces(c, ec, d, ps[..|ps| - 1], i);
      var m, p := RiskSwept(c, ec, d, ps[..|ps| - 1], i.timestamp, i.feature, i.isQuote), ps[|ps| - 1];
      var reason := RiskReason(c, i.timestamp, i.feature, p, i.isQuote);
      OwnQuoteIsImmediate(ec, ExitOrder(ec, m.desk, p, i.timestamp, reason, p.candidateTime), i,
        i.isQuote && i.feature.symbol == p.symbol);
    }
  }

  lemma {:induction false} EntryPlaces(c: PortfolioConfig, ec: ExecutionConfig, d: Desk, i: Item, direction: Direction)
    ensures
      var cand := Candidate(i.timestamp, i.feature.symbol, i.action, i.feature);
      AllPlacedBy(ec, EntryOps(c, ec, d, cand, direction, i.isQuote), i)
  {
    hide PlacedBy, Affordable, Size;
    var cand := Candidate(i.timestamp, i.feature.symbol, i.action, i.feature);
    match EntryOrder(c, ec, d, cand, direction)
    case None =>
    case Some(o) => OwnQuoteIsImmediate(ec, o, i, i.isQuote);
  }

  lemma {:induction false} CandidatePlaces(c: PortfolioConfig, ec: ExecutionConfig, d: Desk, i: Item)
    requires ec.Valid()
    ensures
      var cand := Candidate(i.timestamp, i.feature.symbol, i.action, i.feature);
      AllPlacedBy(ec, CandidateOps(c, ec, d, cand, i.isQuote), i)
  {
    hide PlacedBy, EntryOps, PlacedAndApplied, Find;
    var cand := Candidate(i.timestamp, i.feature.symbol, i.action, i.feature);
    var desired := if cand.action == LongCandidate then LongPosition else ShortPosition;
    EntryPlaces(c, ec, d, i, desired);
    match Find(d.account.positions, cand.symbol)
    case None =>
    case Some(p) =>
      HeldSymbol(d.account.positions, cand.symbol, p);
      var o := ExitOrder(ec, d, p, i.timestamp, OppositeCandidate, i.timestamp);
      OwnQuoteIsImmediate(ec, o, i, i.isQuote);
      EntryPlaces(c, ec, PlacedAndApplied(ec, d, o, i.timestamp, i.feature, i.isQuote).desk, i, desired);
  }

  lemma {:induction false} HeldSymbol(ps: seq<Position>, symbol: nat, p: Position)
    requires Find(ps, symbol) == Some(p)
    ensures p.symbol == symbol
  {
    FoundIsHeld(ps, symbol);
  }

  lemma {:induction false} TradePlaces(c: PortfolioConfig, ec: ExecutionConfig, s: State, i: Item)
    requires ec.Valid() && s.Running?
    ensures AllPlacedBy(ec, TradeOps(c, ec, s, i), i)
  {
    hide PlacedBy, RiskOps, CandidateOps, RiskSwept, QuoteSeen;
    var d := if i.isQuote then QuoteSeen(ec, s.desk, i.timestamp, i.feature).desk else s.desk;
    RiskPlaces(c, ec, d, d.account.positions, i);
    CandidatePlaces(c, ec, RiskSwept(c, ec, d, d.account.positions, i.timestamp, i.feature, i.isQuote).desk, i);
  }

  // What a series of one event's placements fills at once, and what it leaves pending.
  lemma {:induction false} PlacesBooked(ec: ExecutionConfig, pending: seq<Order>, ops: seq<Op>, i: Item, x: Fill,
      o: Order)
    requires ec.Valid() && AllPlacedBy(ec, ops, i)
    ensures x in Booked(ec, pending, ops).fills ==> MadeAtOnce(ec, ops, i, x)
    ensures o in Booked(ec, pending, ops).pending ==> o in pending || LeftBy(ec, ops, i, o)
    decreases |ops|
  {
    hide MakeFill, PlacedBy, FillsNow, Immediate, Queued;
    if ops != [] {
      var front, op := ops[..|ops| - 1], ops[|ops| - 1];
      PlacesBooked(ec, pending, front, i, x, o);
      assert PlacedBy(ec, op, i);
      PlaceBooked(ec, Booked(ec, pending, front).pending, op, i, x, o);
      assert forall m :: 0 <= m < |front| ==> front[m] == ops[m];
      hide Booked;
    }
  }

  ghost predicate MadeAtOnce(ec: ExecutionConfig, ops: seq<Op>, i: Item, x: Fill)
    requires ec.Valid()
  {
    exists m :: 0 <= m < |ops| && MadeByPlacing(ec, ops[m], i, x)
  }

  ghost predicate MadeByPlacing(ec: ExecutionConfig, op: Op, i: Item, x: Fill)
    requires ec.Valid()
  {
    && op.Place? && x.order == Queued(ec, op.order, false) && i.isQuote && FillsNow(x.order, i.timestamp, i.feature)
    && x == MakeFill(ec, x.order, i.timestamp, i.feature) && x.order.orderTime == i.timestamp
    && x.order.eligible == i.timestamp + ec.latency
  }

  ghost predicate LeftBy(ec: ExecutionConfig, ops: seq<Op>, i: Item, o: Order) {
    exists m :: 0 <= m < |ops| && LeftByPlacing(ec, ops[m], i, o)
  }

  ghost predicate LeftByPlacing(ec: ExecutionConfig, op: Op, i: Item, o: Order) {
    && op.Place? && o == Queued(ec, op.order, false) && !(i.isQuote && FillsNow(o, i.timestamp, i.feature))
    && o.orderTime == i.timestamp && o.eligible == i.timestamp + ec.latency
  }

  lemma {:induction false} PlaceBooked(ec: ExecutionConfig, pending: seq<Order>, op: Op, i: Item, x: Fill, o: Order)
    requires ec.Valid() && PlacedBy(ec, op, i)
    ensures
      var r := Applied(ec, OrderBook(0, pending, []), op);
      && (x in r.fills ==> MadeByPlacing(ec, op, i, x))
      && (o in r.book.pending ==> o in pending || LeftByPlacing(ec, op, i, o))
  {
    var q := Queued(ec, op.order, false);
    if Immediate(ec, op.order, op.timestamp, op.feature, op.isQuote, false) {
      QueuedUsable(ec, op.order, op.feature, false);
      FillKeepsOrder(ec, q, op.timestamp, op.feature);
      hide MakeFill, Usable;
    } else {
      hide MakeFill, Usable, FillsNow;
    }
  }

  lemma {:induction false} RemainingPassed(orders: seq<Order>, t: nat, f: Feature, o: Order)
    requires o in Remaining(orders, t, f)
    ensures o in orders && !FillsNow(o, t, f)
  {
    hide FillsNow;
    var front, last := orders[..|orders| - 1], orders[|orders| - 1];
    if o in Remaining(front, t, f) { RemainingPassed(front, t, f, o); } else { assert o == last; }
  }

  // ---- The end of a session ----

  predicate ClosingOp(op: Op, t: nat, features: map<nat, Feature>) {
    && op.Place? && op.forced && op.timestamp == t && op.order.purpose == Exit
    && op.order.reason == EndOfDay
    && op.order.symbol in features && op.feature == features[op.order.symbol]
  }

  predicate AllClosing(ops: seq<Op>, t: nat, features: map<nat, Feature>) {
    forall m :: 0 <= m < |ops| ==> ClosingOp(ops[m], t, features)
  }

  lemma {:induction false} FlattenCloses(ec: ExecutionConfig, d: Desk, ps: seq<Position>, t: nat,
      features: map<nat, Feature>)
    requires ec.Valid()
    ensures AllClosing(FlattenOps(ec, d, ps, t, features), t, features)
    decreases |ps|
  {
    hide FlattenSwept;
    if ps != [] { FlattenCloses(ec, d, ps[..|ps| - 1], t, features); }
  }

  ghost predicate ClosingFill(ec: ExecutionConfig, t: nat, features: map<nat, Feature>, x: Fill)
    requires ec.Valid()
  {
    && x.order.purpose == Exit && x.order.reason == EndOfDay && x.order.symbol in features && x.timestamp == t
    && Usable(x.order, features[x.order.symbol]) && x == MakeFill(ec, x.order, t, features[x.order.symbol])
  }

  lemma {:induction false} ClosingBooked(ec: ExecutionConfig, pending: seq<Order>, ops: seq<Op>, t: nat,
      features: map<nat, Feature>, x: Fill)
    requires ec.Valid() && AllClosing(ops, t, features) && x in Booked(ec, pending, ops).fills
    ensures ClosingFill(ec, t, features, x)
    decreases |ops|
  {
    hide MakeFill, Usable, ClosingFill;
    var front, op := ops[..|ops| - 1], ops[|ops| - 1];
    if x in Booked(ec, pending, front).fills {
      ClosingBooked(ec, pending, front, t, features, x);
    } else {
      ForcedFill(ec, Booked(ec, pending, front).pending, op, t, features, x);
    }
  }

  lemma {:induction false} ForcedFill(ec: ExecutionConfig, pending: seq<Order>, op: Op, t: nat,
      features: map<nat, Feature>, x: Fill)
    requires ec.Valid() && ClosingOp(op, t, features) && x in Applied(ec, OrderBook(0, pending, []), op).fills
    ensures ClosingFill(ec, t, features, x)
  {
    FillKeepsOrder(ec, op.order, t, op.feature);
    FillTime(ec, op.order, t, op.feature);
    hide MakeFill, Usable;
  }

  lemma {:induction false} EndBooked(c: PortfolioConfig, ec: ExecutionConfig, s: State, x: Fill)
    requires ec.Valid() && s.Running?
    ensures
      var l := Booked(ec, s.desk.book.pending, EndOps(c, ec, s));
      l.pending == [] && (x in l.fills ==> AtClose(ec, s, x))
  {
    hide FlattenOps, MakeFill, Usable, Booked, Applied;
    var ps := s.desk.account.positions;
    var places := if s.last == map[] || !c.endOfDayFlatten then [] else FlattenOps(ec, s.desk, ps, s.lastTime, s.last);
    if places != [] { FlattenCloses(ec, s.desk, ps, s.lastTime, s.last); }
    var l := Booked(ec, s.desk.book.pending, places);
    BookedConcat(ec, s.desk.book.pending, places, [Drop]);
    BookedOne(ec, OrderBook(0, l.pending, []), Drop);
    DropsAll(ec, l.pending);
    if x in l.fills {
      NoOpsNoFills(ec, s.desk.book.pending);
      ClosingBooked(ec, s.desk.book.pending, places, s.lastTime, s.last, x);
      TradableIsUsable(x.order, s.last[x.order.symbol]);
    }
  }

  lemma {:induction false} NoOpsNoFills(ec: ExecutionConfig, pending: seq<Order>)
    requires ec.Valid()
    ensures Booked(ec, pending, []) == Ledger(pending, [])
  {
  }

  lemma {:induction false} DropsAll(ec: ExecutionConfig, pending: seq<Order>)
    requires ec.Valid()
    ensures Applied(ec, OrderBook(0, pending, []), Drop).book.pending == []
      && Applied(ec, OrderBook(0, pending, []), Drop).fills == []
  {
  }

  // ---- One event ----

  lemma {:induction false} SessionIsLast(c: PortfolioConfig, ec: ExecutionConfig, items: seq<Item>)
    requires ec.Valid() && RunItems(c, ec, items).Running?
    ensures RunItems(c, ec, items).session == if items == [] then None else Some(items[|items| - 1].session)
  {
    hide EndSession, QuoteSeen, RiskSwept, ConsiderCandidate;
  }

  // What has been said of the events so far stays true when one more follows.
  lemma {:induction false} OneMoreEvent(c: PortfolioConfig, ec: ExecutionConfig, items: seq<Item>, next: Item)
    requires ec.Valid()
    ensures forall x: Fill :: Promised(c, ec, items, x) ==> Promised(c, ec, items + [next], x)
    ensures forall i: nat, n: nat, o: Order :: i < |items| && n <= |items| && Passed(c, ec, items, i, n, o) ==>
      Passed(c, ec, items + [next], i, n, o)
  {
    var all := items + [next];
    forall i: nat, n: nat, o: Order | i < |items| && n <= |items| && Passed(c, ec, items, i, n, o)
      ensures Passed(c, ec, all, i, n, o) {
      PassedAfter(c, ec, items, next, i, n, o);
    }
    forall x: Fill | Promised(c, ec, items, x) ensures Promised(c, ec, all, x) {
      PromisedAfter(c, ec, items, next, x);
    }
  }

  lemma {:induction false} PassedAfter(c: PortfolioConfig, ec: ExecutionConfig, items: seq<Item>, next: Item, i: nat,
      n: nat, o: Order)
    requires ec.Valid() && i < |items| && n <= |items| && Passed(c, ec, items, i, n, o)
    ensures Passed(c, ec, items + [next], i, n, o)
  {
    hide TradeOps, Entered, Queued, FilledBy, RunItems;
    var all := items + [next];
    assert all[..i] == items[..i] && Issued(c, ec, all, i) == Issued(c, ec, items, i);
    assert forall m :: i <= m < n ==> all[m] == items[m];
  }

  lemma {:induction false} PromisedAfter(c: PortfolioConfig, ec: ExecutionConfig, items: seq<Item>, next: Item, x: Fill)
    requires ec.Valid() && Promised(c, ec, items, x)
    ensures Promised(c, ec, items + [next], x)
  {
    hide Passed, FilledBy, MakeFill, AtClose, Bounds, RunItems;
    var all := items + [next];
    if i: nat, n: nat :| i <= n < |items| && AtFirstUsableQuote(c, ec, items, i, n, x) {
      PassedAfter(c, ec, items, next, i, n, x.order);
      assert all[n] == items[n] && all[i] == items[i];
      assert AtFirstUsableQuote(c, ec, all, i, n, x);
    } else {
      var k: nat :| k < |items| && Bounds(RunItems(c, ec, items[..k]), items[k])
        && AtClose(ec, RunItems(c, ec, items[..k]), x);
      assert all[..k] == items[..k] && all[k] == items[k];
    }
  }

  /** The three parts of an event's operations, one after another. */
  lemma {:induction false} StepBooked(c: PortfolioConfig, ec: ExecutionConfig, s: State, i: Item)
    requires ec.Valid() && s.Running?
    ensures
      var t := Entered(c, ec, s, i);
      var l1 := Booked(ec, s.desk.book.pending, if Bounds(s, i) then EndOps(c, ec, s) else []);
      var l2 := Booked(ec, l1.pending, if t.Running? && IsQuote(i) then [See(i.timestamp, i.feature)] else []);
      var l3 := Booked(ec, l2.pending, if t.Running? && i.accepted then TradeOps(c, ec, t, i) else []);
      Booked(ec, s.desk.book.pending, StepOps(c, ec, s, i)) == Ledger(l3.pending, l1.fills + l2.fills + l3.fills)
  {
    hide Booked, EndOps, TradeOps, Entered, Bounds;
    var t, p := Entered(c, ec, s, i), s.desk.book.pending;
    var a := if Bounds(s, i) then EndOps(c, ec, s) else [];
    var b := if t.Running? && IsQuote(i) then [See(i.timestamp, i.feature)] else [];
    var d := if t.Running? && i.accepted then TradeOps(c, ec, t, i) else [];
    BookedConcat(ec, p, a, b);
    BookedConcat(ec, p, a + b, d);
  }

  lemma {:induction false} SeeBooked(ec: ExecutionConfig, pending: seq<Order>, t: nat, f: Feature)
    requires ec.Valid()
    ensures Booked(ec, pending, [See(t, f)]) == Ledger(Remaining(pending, t, f), FillsOf(ec, pending, t, f))
  {
    BookedOne(ec, OrderBook(0, pending, []), See(t, f));
    hide Booked, Remaining, FillsOf;
  }

  ghost predicate AllWait(c: PortfolioConfig, ec: ExecutionConfig, items: seq<Item>, pending: seq<Order>)
    requires ec.Valid()
  {
    forall k :: 0 <= k < |pending| ==> Waits(c, ec, items, pending[k])
  }

  ghost predicate AllPromised(c: PortfolioConfig, ec: ExecutionConfig, items: seq<Item>, fills: seq<Fill>)
    requires ec.Valid()
  {
    forall k :: 0 <= k < |fills| ==> Promised(c, ec, items, fills[k])
  }

  // An order that has waited so far, in a session that goes on, either fills on this event's quote or waits on.
  lemma {:induction false} WaitsOrFills(c: PortfolioConfig, ec: ExecutionConfig, items: seq<Item>, next: Item, o: Order)
    requires ec.Valid() && Waits(c, ec, items, o) && RunItems(c, ec, items).Running?
      && !Bounds(RunItems(c, ec, items), next)
    ensures !FilledBy(o, next) ==> Waits(c, ec, items + [next], o)
    ensures forall x: Fill ::
      FilledBy(o, next) && x.order == o && x == MakeFill(ec, o, next.timestamp, next.feature) ==>
        Promised(c, ec, items + [next], x)
  {
    var i: nat :| i < |items| && Passed(c, ec, items, i, |items|, o);
    var all := items + [next];
    SessionIsLast(c, ec, items);
    PassedAfter(c, ec, items, next, i, |items|, o);
    hide IssuedAt, FilledBy, MakeFill, RunItems, Promised, Waits;
    assert all[|items|] == next && next.session == items[|items| - 1].session == items[i].session == all[i].session;
    hide Passed;
    if FilledBy(o, next) {
      forall x: Fill | x.order == o && x == MakeFill(ec, o, next.timestamp, next.feature)
        ensures Promised(c, ec, all, x)
      {
        FirstQuoteFills(c, ec, all, i, |items|, x);
      }
    } else {
      LastQuotePasses(c, ec, all, i, o);
    }
  }

  lemma {:induction false} FirstQuoteFills(c: PortfolioConfig, ec: ExecutionConfig, items: seq<Item>, i: nat, n: nat,
      x: Fill)
    requires ec.Valid() && i <= n < |items| && Passed(c, ec, items, i, n, x.order) && FilledBy(x.order, items[n])
    requires items[n].session == items[i].session && x == MakeFill(ec, x.order, items[n].timestamp, items[n].feature)
    ensures Promised(c, ec, items, x)
  {
    hide Passed, FilledBy, MakeFill, RunItems, AtClose;
    assert AtFirstUsableQuote(c, ec, items, i, n, x);
  }

  lemma {:induction false} LastQuotePasses(c: PortfolioConfig, ec: ExecutionConfig, items: seq<Item>, i: nat, o: Order)
    requires ec.Valid() && i < |items| - 1 && Passed(c, ec, items, i, |items| - 1, o)
    requires !FilledBy(o, items[|items| - 1]) && items[|items| - 1].session == items[i].session
    ensures Waits(c, ec, items, o)
  {
    hide IssuedAt, FilledBy;
    assert Passed(c, ec, items, i, |items|, o);
  }

  lemma {:induction false} IssuedNow(c: PortfolioConfig, ec: ExecutionConfig, items: seq<Item>, next: Item, o: Order,
      m: nat)
    requires ec.Valid() && RunItems(c, ec, items).Running? && next.accepted
      && Entered(c, ec, RunItems(c, ec, items), next).Running?
    requires m < |TradeOps(c, ec, Entered(c, ec, RunItems(c, ec, items), next), next)|
    requires
      var op := TradeOps(c, ec, Entered(c, ec, RunItems(c, ec, items), next), next)[m];
      op.Place? && o == Queued(ec, op.order, false) && o.orderTime == next.timestamp
        && o.eligible == next.timestamp + ec.latency
    ensures Passed(c, ec, items + [next], |items|, |items|, o)
  {
    hide TradeOps, Entered, Queued, RunItems;
    var all := items + [next];
    assert all[..|items|] == items && all[|items|] == next;
    assert Issued(c, ec, all, |items|)[m].Place?;
  }

  lemma {:induction false} TradePromised(c: PortfolioConfig, ec: ExecutionConfig, items: seq<Item>, next: Item,
      pending: seq<Order>)
    requires ec.Valid() && RunItems(c, ec, items).Running? && next.accepted
      && Entered(c, ec, RunItems(c, ec, items), next).Running?
    requires AllWait(c, ec, items + [next], pending)
    ensures
      var l := Booked(ec, pending, TradeOps(c, ec, Entered(c, ec, RunItems(c, ec, items), next), next));
      AllPromised(c, ec, items + [next], l.fills) && AllWait(c, ec, items + [next], l.pending)
  {
    hide TradeOps, Entered, Queued, RunItems, Booked, MakeFill, FillsNow, Usable, Tradable, Issued, IssuedAt;
    var t, all := Entered(c, ec, RunItems(c, ec, items), next), items + [next];
    var ops := TradeOps(c, ec, t, next);
    var l := Booked(ec, pending, ops);
    TradePlaces(c, ec, t, next);
    var anyFill, anyOrder :=
      Fill(Order(0, 0, Buy, Entry, LongPosition, 0, 0, 0, 0, NoReason), 0, 0, 0, 0.0),
      Order(0, 0, Buy, Entry, LongPosition, 0, 0, 0, 0, NoReason);
    assert all[|items|] == next;
    forall k | 0 <= k < |l.fills| ensures Promised(c, ec, all, l.fills[k]) {
      var x := l.fills[k];
      PlacesBooked(ec, pending, ops, next, x, anyOrder);
      var m :| 0 <= m < |ops| && MadeByPlacing(ec, ops[m], next, x);
      IssuedNow(c, ec, items, next, x.order, m);
      TradableIsUsable(x.order, next.feature);
      assert AtFirstUsableQuote(c, ec, all, |items|, |items|, x);
    }
    forall k | 0 <= k < |l.pending| ensures Waits(c, ec, all, l.pending[k]) {
      var o := l.pending[k];
      PlacesBooked(ec, pending, ops, next, anyFill, o);
      if o !in pending {
        var m :| 0 <= m < |ops| && LeftByPlacing(ec, ops[m], next, o);
        IssuedNow(c, ec, items, next, o, m);
        TradableIsUsable(o, next.feature);
        assert Passed(c, ec, all, |items|, |all|, o);
      }
    }
  }

  lemma {:induction false} SeePromised(c: PortfolioConfig, ec: ExecutionConfig, items: seq<Item>, next: Item,
      pending: seq<Order>)
    requires ec.Valid() && RunItems(c, ec, items).Running?
    requires pending == [] || (!Bounds(RunItems(c, ec, items), next) && AllWait(c, ec, items, pending))
    ensures
      var l := Booked(ec, pending, if IsQuote(next) then [See(next.timestamp, next.feature)] else []);
      AllPromised(c, ec, items + [next], l.fills) && AllWait(c, ec, items + [next], l.pending)
  {
    hide Waits, Promised, Booked, MakeFill, FillsNow, Usable, Tradable, RunItems, Bounds, Remaining, FillsOf;
    var all, t, f := items + [next], next.timestamp, next.feature;
    NoOpsNoFills(ec, pending);
    SeeBooked(ec, pending, t, f);
    forall o | o in pending && !FilledBy(o, next) ensures Waits(c, ec, all, o) {
      var k :| 0 <= k < |pending| && pending[k] == o;
      WaitsOrFills(c, ec, items, next, o);
    }
    var l := Booked(ec, pending, if IsQuote(next) then [See(t, f)] else []);
    forall k | 0 <= k < |l.fills| ensures Promised(c, ec, all, l.fills[k]) {
      var x := l.fills[k];
      FillsComeFrom(ec, pending, t, f, x);
      var j :| 0 <= j < |pending| && pending[j] == x.order;
      WaitsOrFills(c, ec, items, next, x.order);
      TradableIsUsable(x.order, f);
    }
    forall k | 0 <= k < |l.pending| ensures Waits(c, ec, all, l.pending[k]) {
      TradableIsUsable(l.pending[k], f);
      if IsQuote(next) { RemainingPassed(pending, t, f, l.pending[k]); }
      assert l.pending[k] in pending && !FilledBy(l.pending[k], next);
    }
  }

  /**
    The invariant of a replay: every fill is as promised, and every pending order still waits for its first
    usable quote.
   */
  ghost predicate Kept(c: PortfolioConfig, ec: ExecutionConfig, items: seq<Item>, l: Ledger)
    requires ec.Valid()
  {
    AllPromised(c, ec, items, l.fills) && AllWait(c, ec, items, l.pending)
  }

  lemma {:induction false} StepKept(c: PortfolioConfig, ec: ExecutionConfig, items: seq<Item>, next: Item)
    requires ec.Valid() && RunItems(c, ec, items).Running?
    requires AllWait(c, ec, items, RunItems(c, ec, items).desk.book.pending)
    requires Entered(c, ec, RunItems(c, ec, items), next).Running?
    ensures
      var s := RunItems(c, ec, items);
      Kept(c, ec, items + [next], Booked(ec, s.desk.book.pending, StepOps(c, ec, s, next)))
  {
    hide Waits, Promised, Booked, RunItems, EndOps, TradeOps, Entered, StepOps;
    var s, all := RunItems(c, ec, items), items + [next];
    var t := Entered(c, ec, s, next);
    StepBooked(c, ec, s, next);
    NoOpsNoFills(ec, s.desk.book.pending);
    var l1 := Booked(ec, s.desk.book.pending, if Bounds(s, next) then EndOps(c, ec, s) else []);
    if Bounds(s, next) {
      EndPending(c, ec, s);
      forall k | 0 <= k < |l1.fills|
        ensures Promised(c, ec, all, l1.fills[k]) { ClosePromised(c, ec, items, next, l1.fills[k]); }
    }
    SeePromised(c, ec, items, next, l1.pending);
    var l2 := Booked(ec, l1.pending, if IsQuote(next) then [See(next.timestamp, next.feature)] else []);
    NoOpsNoFills(ec, l2.pending);
    if next.accepted { TradePromised(c, ec, items, next, l2.pending); }
  }

  lemma {:induction false} EndPending(c: PortfolioConfig, ec: ExecutionConfig, s: State)
    requires ec.Valid() && s.Running?
    ensures Booked(ec, s.desk.book.pending, EndOps(c, ec, s)).pending == []
  {
    EndBooked(c, ec, s, Fill(Order(0, 0, Buy, Entry, LongPosition, 0, 0, 0, 0, NoReason), 0, 0, 0, 0.0));
  }

  lemma {:induction false} ClosePromised(c: PortfolioConfig, ec: ExecutionConfig, items: seq<Item>, next: Item, x: Fill)
    requires ec.Valid() && Bounds(RunItems(c, ec, items), next)
    requires x in Booked(ec, RunItems(c, ec, items).desk.book.pending, EndOps(c, ec, RunItems(c, ec, items))).fills
    ensures Promised(c, ec, items + [next], x)
  {
    hide Booked, EndOps, RunItems, AtClose, AtFirstUsableQuote;
    EndBooked(c, ec, RunItems(c, ec, items), x);
    var all := items + [next];
    assert all[..|items|] == items && all[|items|] == next;
  }

  /**
    Over every replay: each fill is made either by the first accepted quote, from the event that issued its order on,
    that is of its symbol, at or past that event's time plus latency, and usable on the executed side; or at a
    session's end, forced, on the session's latest feature. Each pending order has been passed over by every quote
    since its issue. And the pending orders stand in the order they were submitted.
   */
  lemma {:induction false} FillsAtFirstUsableQuotes(c: PortfolioConfig, ec: ExecutionConfig, items: seq<Item>)
    requires ec.Valid()
    ensures
      var s := RunItems(c, ec, items);
      s.Running? ==>
        && AllPromised(c, ec, items, s.filled)
        && AllWait(c, ec, items, s.desk.book.pending)
        && s.desk.book.pending == WaitingOrders(ec, OpsOf(c, ec, items), |OpsOf(c, ec, items)|)
    decreases |items|
  {
    hide Promised, Waits, StepOps, Step, Booked, WaitingOrders, Entered;
    ReplayPerformsItsOps(c, ec, items);
    BookedIsReplay(ec, OpsOf(c, ec, items));
    PendingAreWaiting(ec, OpsOf(c, ec, items));
    if items != [] && RunItems(c, ec, items).Running? {
      var front, last := items[..|items| - 1], items[|items| - 1];
      var s := RunItems(c, ec, front);
      if s.Raised? { StillRaised(c, ec, s, last); }
      StepNeedsEntry(c, ec, s, last);
      FillsAtFirstUsableQuotes(c, ec, front);
      ReplayPerformsItsOps(c, ec, front);
      StepKept(c, ec, front, last);
      BookedConcat(ec, [], OpsOf(c, ec, front), StepOps(c, ec, s, last));
      assert front + [last] == items;
      OneMoreEvent(c, ec, front, last);
    }
  }

  lemma {:induction false} StepNeedsEntry(c: PortfolioConfig, ec: ExecutionConfig, s: State, i: Item)
    requires ec.Valid() && Step(c, ec, s, i).Running?
    ensures s.Running? && Entered(c, ec, s, i).Running?
  {
    hide EndSession, Accepted;
  }

  lemma {:induction false} BookedIsReplay(ec: ExecutionConfig, ops: seq<Op>)
    requires ec.Valid()
    ensures Booked(ec, [], ops).pending == Replay(ec, ops).book.pending
    decreases |ops|
  {
    hide Applied;
    if ops != [] {
      var front := ops[..|ops| - 1];
      BookedIsReplay(ec, front);
      AppliedDependsOnPending(ec, OrderBook(0, Booked(ec, [], front).pending, []), Replay(ec, front).book,
        ops[|ops| - 1]);
    }
  }

  /** The fills of a finished replay: those of its events, and those its last session's end forces. */
  lemma {:induction false} LastCloseFills(c: PortfolioConfig, ec: ExecutionConfig, items: seq<Item>)
    requires ec.Valid() && Run(c, ec, items).Running?
    ensures
      var s, t := RunItems(c, ec, items), Run(c, ec, items);
      && s.Running? && t.filled[..|s.filled|] == s.filled && t.desk.book.pending == []
      && forall k :: |s.filled| <= k < |t.filled| ==> AtClose(ec, s, t.filled[k])
  {
    hide RunItems, EndSession, EndOps, Booked, AtClose, OpsOf;
    var s := RunItems(c, ec, items);
    ReplayPerformsItsOps(c, ec, items);
    EndAccounts(c, ec, OpsOf(c, ec, items), s);
    BookedConcat(ec, [], OpsOf(c, ec, items), EndOps(c, ec, s));
    EndPending(c, ec, s);
    var l, t := Booked(ec, s.desk.book.pending, EndOps(c, ec, s)), Run(c, ec, items);
    assert t.filled == s.filled + l.fills;
    forall k | |s.filled| <= k < |t.filled| ensures AtClose(ec, s, t.filled[k]) { EndBooked(c, ec, s, t.filled[k]); }
  }
}
