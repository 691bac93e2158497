// Quote-aware paper execution: pending orders fill on the first usable quote once they are eligible.
module Execution {
  import opened MarketTypes

  datatype Option<T> = None | Some(value: T)

  datatype Side = Buy | Sell
  datatype Purpose = Entry | Exit
  datatype Direction = LongPosition | ShortPosition
  datatype Reason = NoReason | OppositeCandidate | StopLoss | TakeProfit | MaxHolding | EndOfDay

  datatype ExecutionConfig = ExecutionConfig(
    latency: nat, fixedSlippage: nat, slippageBps: real, commissionPerTrade: real, commissionPerShare: real,
    minimumCommission: real)
  {
    predicate Valid() {
      slippageBps >= 0.0 && commissionPerTrade >= 0.0 && commissionPerShare >= 0.0 && minimumCommission >= 0.0
    }
  }

  datatype Order = Order(
    id: nat, symbol: nat, side: Side, purpose: Purpose, direction: Direction, quantity: nat,
    orderTime: nat, eligible: nat, candidateTime: nat, reason: Reason)

  /** A fill of an order: where the source copies the order's fields, the order itself is kept. */
  datatype Fill = Fill(order: Order, timestamp: nat, reference: nat, price: nat, commission: real)

  /** The visible price on the side an order consumes, if there is one. */
  function ReferencePrice(side: Side, f: Feature): Option<nat> {
    var b := f.book;
    match side
    case Buy => if b.askPrice > 0 && b.askQuantity > 0 then Some(b.askPrice) else None
    case Sell => if b.bidPrice > 0 && b.bidQuantity > 0 then Some(b.bidPrice) else None
  }

  function SlippageBps(c: ExecutionConfig, reference: nat): nat
    requires c.Valid()
  {
    var x := reference as real * c.slippageBps / 10000.0;
    assert x >= 0.0;
    x.Floor
  }

  function Slipped(c: ExecutionConfig, reference: nat, side: Side): nat
    requires c.Valid()
  {
    var adverse := c.fixedSlippage + SlippageBps(c, reference);
    if side == Buy then reference + adverse else if reference - adverse > 1 then reference - adverse else 1
  }

  function Commission(c: ExecutionConfig, quantity: nat): real {
    var raw := c.commissionPerTrade + c.commissionPerShare * quantity as real;
    if raw == 0.0 then 0.0 else if raw > c.minimumCommission then raw else c.minimumCommission
  }

  /** The quote of the order's own symbol has a valid spread and a usable executable side. */
  predicate Usable(o: Order, f: Feature) {
    f.symbol == o.symbol && f.raw.spreadValid && ReferencePrice(o.side, f).Some?
  }

  predicate FillsNow(o: Order, timestamp: nat, f: Feature) {
    o.eligible <= timestamp && Usable(o, f)
  }

  function MakeFill(c: ExecutionConfig, o: Order, timestamp: nat, f: Feature): Fill
    requires c.Valid() && Usable(o, f)
  {
    var reference := ReferencePrice(o.side, f).value;
    Fill(o, timestamp, reference, Slipped(c, reference, o.side), Commission(c, o.quantity))
  }

  datatype OrderBook = OrderBook(nextId: nat, pending: seq<Order>, unfilled: seq<Order>)

  const NoOrders := OrderBook(1, [], [])

  /** The order as it is queued: its eligibility is recomputed unless the fill is forced. */
  function Queued(c: ExecutionConfig, o: Order, forced: bool): Order {
    if forced then o else o.(eligible := o.orderTime + c.latency)
  }

  /** Whether submission itself fills the order, on the event's own quote. */
  predicate Immediate(c: ExecutionConfig, o: Order, timestamp: nat, f: Feature, isQuote: bool, forced: bool) {
    isQuote && (forced || o.orderTime + c.latency <= timestamp) && Usable(o, f)
  }

  datatype Result = Result(book: OrderBook, fills: seq<Fill>)

  function Submit(c: ExecutionConfig, b: OrderBook, o: Order, timestamp: nat, f: Feature, isQuote: bool,
      forced: bool): Result
    requires c.Valid()
  {
    var q := Queued(c, o, forced);
    if Immediate(c, o, timestamp, f, isQuote, forced) then Result(b, [MakeFill(c, q, timestamp, f)])
    else Result(b.(pending := b.pending + [q]), [])
  }

  function FillsOf(c: ExecutionConfig, orders: seq<Order>, timestamp: nat, f: Feature): seq<Fill>
    requires c.Valid()
  {
    if orders == [] then []
    else
      var o := orders[|orders| - 1];
      FillsOf(c, orders[..|orders| - 1], timestamp, f) + if FillsNow(o, timestamp, f)
        then [MakeFill(c, o, timestamp, f)] else []
  }

  function Remaining(orders: seq<Order>, timestamp: nat, f: Feature): seq<Order> {
    if orders == [] then []
    else
      var o := orders[|orders| - 1];
      Remaining(orders[..|orders| - 1], timestamp, f) + if FillsNow(o, timestamp, f) then [] else [o]
  }

  function OnQuote(c: ExecutionConfig, b: OrderBook, timestamp: nat, f: Feature): Result
    requires c.Valid()
  {
    Result(b.(pending := Remaining(b.pending, timestamp, f)), FillsOf(c, b.pending, timestamp, f))
  }

  function Flush(b: OrderBook): OrderBook {
    b.(pending := [], unfilled := b.unfilled + b.pending)
  }

  class ExecutionSimulator {
    const config: ExecutionConfig
    var nextOrderId: nat
    var pending: seq<Order>
    var unfilledOrders: seq<Order>

    ghost function View(): OrderBook
      reads this
    {
      OrderBook(nextOrderId, pending, unfilledOrders)
    }

    constructor (config: ExecutionConfig)
      ensures this.config == config && View() == NoOrders
    {
      this.config := config;
      nextOrderId, pending, unfilledOrders := 1, [], [];
    }

    method NewOrderId() returns (id: nat)
      modifies this`nextOrderId
      ensures id == old(nextOrderId) && nextOrderId == id + 1
    {
      id := nextOrderId;
      nextOrderId := nextOrderId + 1;
    }

    method SubmitOrder(o: Order, timestamp: nat, f: Feature, isQuote: bool, forced: bool) returns (fills: seq<Fill>)
      requires config.Valid() && o.quantity >= 1
      modifies this`pending
      ensures Result(View(), fills) == Submit(config, old(View()), o, timestamp, f, isQuote, forced)
    {
      var eligible := if forced then timestamp else o.orderTime + config.latency;
      var queued := if eligible != o.eligible && !forced then o.(eligible := eligible) else o;
      if isQuote && eligible <= timestamp && Usable(queued, f) { return [MakeFill(config, queued, timestamp, f)]; }
      pending := pending + [queued];
      fills := [];
    }

    method Quote(timestamp: nat, f: Feature) returns (fills: seq<Fill>)
      requires config.Valid()
      modifies this`pending
      ensures Result(View(), fills) == OnQuote(config, old(View()), timestamp, f)
    {
      fills := [];
      var remaining: seq<Order> := [];
      for k := 0 to |pending|
        invariant pending == old(pending)
        invariant fills == FillsOf(config, pending[..k], timestamp, f)
          && remaining == Remaining(pending[..k], timestamp, f)
      {
        var o := pending[k];
        assert pending[..k + 1][..k] == pending[..k];
        if o.symbol != f.symbol || o.eligible > timestamp || !Usable(o, f) {
          remaining := remaining + [o];
        } else {
          fills := fills + [MakeFill(config, o, timestamp, f)];
        }
      }
      assert pending[..|pending|] == pending;
      pending := remaining;
    }

    method FlushOrders() returns (flushed: seq<Order>)
      modifies this`pending, this`unfilledOrders
      ensures View() == Flush(old(View())) && flushed == old(pending)
    {
      unfilledOrders := unfilledOrders + pending;
      flushed := pending;
      pending := [];
    }
  }

  // ---- When and at what price an order fills ----

  /** Buys fill at the ask or worse, sells at the bid or worse, and never at zero. */
  lemma {:induction false} FillPriceIsAdverse(c: ExecutionConfig, o: Order, timestamp: nat, f: Feature)
    requires c.Valid() && Usable(o, f)
    ensures
      var x := MakeFill(c, o, timestamp, f);
      && x.reference == (if o.side == Buy then f.book.askPrice else f.book.bidPrice)
      && (o.side == Buy ==> x.price >= f.book.askPrice > 0)
      && (o.side == Sell ==> 1 <= x.price <= f.book.bidPrice)
  {
  }

  datatype Op =
    | Place(order: Order, timestamp: nat, feature: Feature, isQuote: bool, forced: bool)
    | See(timestamp: nat, feature: Feature)
    | Drop

  function Applied(c: ExecutionConfig, b: OrderBook, op: Op): Result
    requires c.Valid()
  {
    match op
    case Place(o, t, f, isQuote, forced) => Submit(c, b, o, t, f, isQuote, forced)
    case See(t, f) => OnQuote(c, b, t, f)
    case Drop => Result(Flush(b), [])
  }

  function Replay(c: ExecutionConfig, ops: seq<Op>): Result
    requires c.Valid()
  {
    if ops == [] then Result(NoOrders, [])
    else Applied(c, Replay(c, ops[..|ops| - 1]).book, ops[|ops| - 1])
  }

  /** This operation takes a waiting order off the book: a quote that fills it, or the end of a session. */
  predicate Closes(op: Op, o: Order) {
    match op
    case Place(_, _, _, _, _) => false
    case See(t, f) => FillsNow(o, t, f)
    case Drop => true
  }

  /** The order placed by operation `j` did not fill on submission, and nothing since has closed it. */
  predicate Waiting(c: ExecutionConfig, ops: seq<Op>, j: nat)
    requires j < |ops|
  {
    && ops[j].Place?
    && !Immediate(c, ops[j].order, ops[j].timestamp, ops[j].feature, ops[j].isQuote, ops[j].forced)
    && forall m :: j < m < |ops| ==> !Closes(ops[m], Queued(c, ops[j].order, ops[j].forced))
  }

  /** The orders among the first `n` operations still waiting after all of `ops`, in the order they were submitted. */
  function WaitingOrders(c: ExecutionConfig, ops: seq<Op>, n: nat): seq<Order>
    requires n <= |ops|
  {
    if n == 0 then []
    else WaitingOrders(c, ops, n - 1) + if Waiting(c, ops, n - 1) then [Queued(c, ops[n - 1].order, ops[n - 1].forced)]
      else []
  }

  /** The members of a list that an operation leaves alone, in order. */
  function Unclosed(op: Op, orders: seq<Order>): seq<Order> {
    if orders == [] then []
    else
      var o := orders[|orders| - 1];
      Unclosed(op, orders[..|orders| - 1]) + if Closes(op, o) then [] else [o]
  }

  lemma {:induction false} UnclosedSnoc(op: Op, orders: seq<Order>, o: Order)
    ensures Unclosed(op, orders + [o]) == Unclosed(op, orders) + if Closes(op, o) then [] else [o]
  {
    assert (orders + [o])[..|orders|] == orders;
  }

  // One more operation filters the waiting orders.
  lemma {:induction false} OneMoreOperation(c: ExecutionConfig, ops: seq<Op>, op: Op, n: nat)
    requires n <= |ops|
    ensures WaitingOrders(c, ops + [op], n) == Unclosed(op, WaitingOrders(c, ops, n))
    decreases n
  {
    hide Closes, Immediate, Queued;
    if n > 0 {
      OneMoreOperation(c, ops, op, n - 1);
      var all := ops + [op];
      assert all[n - 1] == ops[n - 1] && all[|ops|] == op;
      forall m | n - 1 < m < |ops| ensures all[m] == ops[m] {}
      assert ops[n - 1].Place? ==>
        (Waiting(c, all, n - 1) <==>
           Waiting(c, ops, n - 1) && !Closes(all[|ops|], Queued(c, ops[n - 1].order, ops[n - 1].forced)));
      if Waiting(c, ops, n - 1) {
        UnclosedSnoc(op, WaitingOrders(c, ops, n - 1), Queued(c, ops[n - 1].order, ops[n - 1].forced));
      } else {
        assert WaitingOrders(c, ops, n) == WaitingOrders(c, ops, n - 1);
      }
    }
  }

  lemma {:induction false} UnclosedBySee(t: nat, f: Feature, orders: seq<Order>)
    ensures Unclosed(See(t, f), orders) == Remaining(orders, t, f)
  {
    hide FillsNow;
    if orders != [] { UnclosedBySee(t, f, orders[..|orders| - 1]); }
  }

  lemma {:induction false} UnclosedOthers(op: Op, orders: seq<Order>)
    ensures op.Place? ==> Unclosed(op, orders) == orders
    ensures op.Drop? ==> Unclosed(op, orders) == []
  {
    if orders != [] { UnclosedOthers(op, orders[..|orders| - 1]); }
  }

  /**
    After any series of submissions, quotes and session ends, the pending orders are exactly those placed, not
    filled at once, and not closed since, in submission order.
   */
  lemma {:induction false} PendingAreWaiting(c: ExecutionConfig, ops: seq<Op>)
    requires c.Valid()
    ensures Replay(c, ops).book.pending == WaitingOrders(c, ops, |ops|)
  {
    hide FillsNow, Immediate, Queued, MakeFill, Remaining, Unclosed;
    if ops != [] {
      var last := |ops| - 1;
      var before, op := ops[..last], ops[last];
      PendingAreWaiting(c, before);
      assert before + [op] == ops;
      OneMoreOperation(c, before, op, last);
      var orders := WaitingOrders(c, before, last);
      match op
      case Place(_, _, _, _, _) => UnclosedOthers(op, orders);
      case See(t, f) => UnclosedBySee(t, f, orders);
      case Drop => UnclosedOthers(op, orders);
    }
  }

  lemma {:induction false} FillsComeFrom(c: ExecutionConfig, orders: seq<Order>, t: nat, f: Feature, x: Fill)
    requires c.Valid() && x in FillsOf(c, orders, t, f)
    ensures x.order in orders && FillsNow(x.order, t, f) && x == MakeFill(c, x.order, t, f)
  {
    hide MakeFill, Usable;
    var last := |orders| - 1;
    if x in FillsOf(c, orders[..last], t, f) {
      FillsComeFrom(c, orders[..last], t, f, x);
    } else {
      assert x == MakeFill(c, orders[last], t, f);
      FillKeepsOrder(c, orders[last], t, f);
    }
  }

  lemma {:induction false} FillKeepsOrder(c: ExecutionConfig, o: Order, t: nat, f: Feature)
    requires c.Valid() && Usable(o, f)
    ensures MakeFill(c, o, t, f).order == o
  {
  }

  lemma {:induction false} WaitingHasPlace(c: ExecutionConfig, ops: seq<Op>, n: nat, o: Order) returns (j: nat)
    requires n <= |ops| && o in WaitingOrders(c, ops, n)
    ensures j < n && Waiting(c, ops, j) && o == Queued(c, ops[j].order, ops[j].forced)
  {
    hide Closes, Immediate, Queued;
    if Waiting(c, ops, n - 1) && o == Queued(c, ops[n - 1].order, ops[n - 1].forced) {
      j := n - 1;
    } else {
      j := WaitingHasPlace(c, ops, n - 1, o);
    }
  }

  /**
    Every fill that a quote makes is of an order placed earlier, at the first quote after its submission that is
    of its symbol, at or past order time plus latency, and usable: no quote in between would have filled it, nor
    did its own. Fills made on submission are made on that event's quote under the same conditions.
   */
  lemma {:induction false} FillsAtFirstUsableQuote(c: ExecutionConfig, ops: seq<Op>, x: Fill) returns (j: nat)
    requires c.Valid() && ops != [] && x in Replay(c, ops).fills
    ensures j < |ops| && ops[j].Place?
    ensures
      var last, placed := |ops| - 1, ops[j];
      && x.order == Queued(c, placed.order, placed.forced)
      && !ops[last].Drop? && ops[last].timestamp == x.timestamp && Usable(x.order, ops[last].feature)
      && x == MakeFill(c, x.order, x.timestamp, ops[last].feature)
      && (!placed.forced ==> x.timestamp >= placed.order.orderTime + c.latency)
      && if ops[last].Place? then j == last && placed.isQuote
         else
           && ops[last].See? && j < last && FillsNow(x.order, x.timestamp, ops[last].feature)
           && !Immediate(c, placed.order, placed.timestamp, placed.feature, placed.isQuote, placed.forced)
           && forall m :: j < m < last ==> !Closes(ops[m], x.order)
  {
    hide MakeFill, Usable;
    var last := |ops| - 1;
    var before, op := ops[..last], ops[last];
    match op
    case Place(o, t, f, _, forced) =>
      j := last;
      QueuedUsable(c, o, f, forced);
      FillKeepsOrder(c, Queued(c, o, forced), t, f);
      FillTime(c, Queued(c, o, forced), t, f);
    case See(t, f) =>
      PendingAreWaiting(c, before);
      FillsComeFrom(c, Replay(c, before).book.pending, t, f, x);
      FillTime(c, x.order, t, f);
      j := WaitingHasPlace(c, before, last, x.order);
      assert ops[j] == before[j];
      forall m | j < m < last ensures !Closes(ops[m], x.order) { assert ops[m] == before[m]; }
  }

  lemma {:induction false} QueuedUsable(c: ExecutionConfig, o: Order, f: Feature, forced: bool)
    ensures Usable(Queued(c, o, forced), f) == Usable(o, f)
  {
  }

  lemma {:induction false} FillTime(c: ExecutionConfig, o: Order, t: nat, f: Feature)
    requires c.Valid() && Usable(o, f)
    ensures MakeFill(c, o, t, f).timestamp == t
  {
  }
}
