// What fills, trades, marks, sizes and limits amount to, in prices, shares and dollars.
module TradeMeaning {
  import opened MarketTypes
  import opened Execution
  import opened Portfolio
  import opened PortfolioAccounting
  import opened PortfolioRules

  /** Micro-dollars a share, times shares, in dollars. */
  function Money(perShare: int, shares: nat): real {
    perShare as real * shares as real / 1000000.0
  }

  lemma {:induction false} DollarsAreMoney(price: int, quantity: nat)
    ensures Dollars(price, quantity) == Money(price, quantity)
  {
    DollarsLinear(price, quantity);
  }

  // ---- What a fill costs ----

  /** The shift of a buy's price up, or of a sale's down. */
  function Adverse(x: Fill): int {
    if x.order.side == Buy then x.price - x.reference else x.reference - x.price
  }

  /** `n` is the greatest whole amount within some basis points of the reference. */
  predicate GreatestWithin(n: int, bps: real, reference: nat) {
    n as real * 10000.0 <= reference as real * bps < (n + 1) as real * 10000.0
  }

  /**
    A fill is made at the visible price of the side it consumes, worse by the fixed slippage and the greatest whole
    amount within the basis points of that price, though a sale never goes below one; and its commission is the least
    amount covering both the charges and the minimum, or nothing when there are no charges.
   */
  lemma {:induction false} FillCosts(c: ExecutionConfig, o: Order, t: nat, f: Feature)
    requires c.Valid() && Usable(o, f)
    ensures
      var x := MakeFill(c, o, t, f);
      var charges := c.commissionPerTrade + c.commissionPerShare * o.quantity as real;
      && x.order == o && x.timestamp == t
      && x.reference == (if o.side == Buy then f.book.askPrice else f.book.bidPrice) && x.reference > 0
      && (o.side == Buy || x.price > 1 ==> GreatestWithin(Adverse(x) - c.fixedSlippage, c.slippageBps, x.reference))
      && (o.side == Sell && x.price <= 1 ==>
            x.price == 1
            && exists n :: GreatestWithin(n, c.slippageBps, x.reference) && x.reference - c.fixedSlippage - n <= 1)
      && (charges == 0.0 ==> x.commission == 0.0)
      && (charges != 0.0 ==>
            && x.commission >= charges && x.commission >= c.minimumCommission
            && (x.commission == charges || x.commission == c.minimumCommission))
  {
    var reference := ReferencePrice(o.side, f).value;
    var n := SlippageBps(c, reference);
    FloorWithin(reference as real * c.slippageBps, n);
    assert GreatestWithin(n, c.slippageBps, reference);
    hide GreatestWithin, SlippageBps;
  }

  lemma {:induction false} FloorWithin(amount: real, n: int)
    requires n == (amount / 10000.0).Floor
    ensures n as real * 10000.0 <= amount < (n + 1) as real * 10000.0
  {
    var x := amount / 10000.0;
    assert n as real <= x < (n + 1) as real && amount == x * 10000.0;
  }

  // ---- A round trip ----

  /** The profit of a share. */
  function PerShare(direction: Direction, entryPrice: nat, exitPrice: nat): int {
    if direction == LongPosition then exitPrice - entryPrice else entryPrice - exitPrice
  }

  /**
    An entry filled into a flat symbol and an exit filled out of it: the positions are as before, one trade pairs the
    two fills, and cash moves by its net profit.
   */
  lemma {:induction false} RoundTrip(a: Account, x: Fill, y: Fill)
    requires Find(a.positions, x.order.symbol).None?
    requires x.order.purpose == Entry && y.order.purpose == Exit && y.order.symbol == x.order.symbol
      && y.order.quantity == x.order.quantity
    ensures
      var o := x.order;
      var b, gross := ApplyFill(ApplyFill(a, x), y), Money(PerShare(o.direction, x.price, y.price), o.quantity);
      var net := gross - (x.commission + y.commission);
      && b.positions == a.positions && b.cash == a.cash + net && b.realized == a.realized + net
      && b.trades == a.trades + [Trade(o.symbol, o.direction, o.quantity, x.price, y.price, gross,
           x.commission + y.commission, net, y.order.reason)]
      && b.pending == a.pending - {o.symbol} && b.pendingIds == a.pendingIds - {o.symbol}
  {
    var o := x.order;
    var p := Opened(x);
    FindAfterOpen(a.positions, p, o.symbol);
    WithoutOpened(a.positions, p);
    OpenFill(a, x);
    CloseFill(ApplyFill(a, x), p, y);
    DollarsDifference(y.price, x.price, o.quantity);
    assert a.pending - {o.symbol} - {o.symbol} == a.pending - {o.symbol};
    hide Dollars, Money, Find, ApplyFill, Without;
  }

  lemma {:induction false} WithoutOpened(ps: seq<Position>, p: Position)
    requires Find(ps, p.symbol).None?
    ensures Without(ps + [p], p.symbol) == ps
  {
    WithoutAbsent(ps, p.symbol);
    assert (ps + [p])[..|ps|] == ps;
  }

  lemma {:induction false} OpenFill(a: Account, x: Fill)
    requires x.order.purpose == Entry && Find(a.positions, x.order.symbol).None?
    ensures
      var o := x.order;
      ApplyFill(a, x) == Account(
        a.cash - x.commission - if o.direction == LongPosition then Dollars(x.price, o.quantity) else 0.0,
        a.positions + [Position(o.symbol, o.direction, o.quantity, x.price, x.commission, x.timestamp,
          o.candidateTime)],
        a.pending - {o.symbol}, a.pendingIds - {o.symbol}, a.trades, a.realized)
  {
    hide Dollars;
  }

  lemma {:induction false} CloseFill(a: Account, p: Position, y: Fill)
    requires y.order.purpose == Exit && Find(a.positions, y.order.symbol) == Some(p)
    ensures
      var o, gross := y.order, Money(PerShare(p.direction, p.entryPrice, y.price), p.quantity);
      ApplyFill(a, y) == Account(
        a.cash - y.commission + (if p.direction == LongPosition then Dollars(y.price, o.quantity) else gross),
        Without(a.positions, o.symbol), a.pending - {o.symbol}, a.pendingIds - {o.symbol},
        a.trades + [Trade(p.symbol, p.direction, p.quantity, p.entryPrice, y.price, gross,
          p.entryCosts + y.commission, gross - (p.entryCosts + y.commission), o.reason)],
        a.realized + (gross - (p.entryCosts + y.commission)))
  {
    DollarsAreMoney(PerShare(p.direction, p.entryPrice, y.price), p.quantity);
    hide Dollars, Money;
  }

  // ---- Marking ----

  /** The profit of closing at a feature's exit side; nothing away from its symbol or without a price there. */
  function OpenProfit(p: Position, f: Feature): real {
    var exit := if p.direction == LongPosition then f.book.bidPrice else f.book.askPrice;
    if f.symbol == p.symbol && exit > 0 then Money(PerShare(p.direction, p.entryPrice, exit), p.quantity) else 0.0
  }

  lemma {:induction false} MarkedProfit(p: Position, f: Feature)
    ensures Gross(p, Mark(p, f)) == OpenProfit(p, f)
    ensures Dollars(Mark(p, f), p.quantity) ==
      Notional(p) + if p.direction == LongPosition then OpenProfit(p, f) else -OpenProfit(p, f)
  {
    var m := Mark(p, f);
    DollarsAreMoney(m - p.entryPrice, p.quantity);
    DollarsAreMoney(p.entryPrice - m, p.quantity);
    DollarsDifference(m, p.entryPrice, p.quantity);
    DollarsDifference(p.entryPrice, m, p.quantity);
    hide Dollars;
  }

  lemma {:induction false} MarksExtend(ps: seq<Position>, f: Feature)
    requires ps != []
    ensures
      var p, front := ps[|ps| - 1], ps[..|ps| - 1];
      var long := p.direction == LongPosition;
      && Unrealized(ps, f) == Unrealized(front, f) + OpenProfit(p, f)
      && LongNotional(ps) == LongNotional(front) + (if long then Notional(p) else 0.0)
      && GrossExposure(ps) == GrossExposure(front) + Notional(p)
      && GrossMarked(ps, f) == GrossMarked(front, f) + Notional(p) + (if long then OpenProfit(p, f)
           else -OpenProfit(p, f))
      && NetMarked(ps, f) == NetMarked(front, f) + OpenProfit(p, f) + (if long then Notional(p) else -Notional(p))
  {
    MarkedProfit(ps[|ps| - 1], f);
    PositionsExtend(ps, f);
    hide Mark, Dollars, Gross, Notional, OpenProfit;
  }

  /** Only the position of the feature's own symbol has unrealised profit: what closing it there would make. */
  lemma {:induction false} UnrealizedIsOpenProfit(ps: seq<Position>, f: Feature)
    requires OnePerSymbol(ps)
    ensures Unrealized(ps, f) == match Find(ps, f.symbol) case None => 0.0 case Some(p) => OpenProfit(p, f)
  {
    if ps != [] {
      var p, front := ps[|ps| - 1], ps[..|ps| - 1];
      UnrealizedIsOpenProfit(front, f);
      MarksExtend(ps, f);
      AbsentBefore(ps);
      ElsewhereNothing(p, f);
      hide Unrealized, OpenProfit;
    }
  }

  lemma {:induction false} ElsewhereNothing(p: Position, f: Feature)
    ensures f.symbol != p.symbol ==> OpenProfit(p, f) == 0.0
  {
  }

  /**
    Net exposure is what longs cost less what shorts brought, moved by the unrealised profit; gross exposure is what
    all cost, moved up by the profit of longs and down by that of shorts.
   */
  lemma {:induction false} ExposureMeans(ps: seq<Position>, f: Feature)
    ensures NetMarked(ps, f) == LongNotional(ps) - (GrossExposure(ps) - LongNotional(ps)) + Unrealized(ps, f)
    ensures LongOnly(ps) ==> GrossMarked(ps, f) == GrossExposure(ps) + Unrealized(ps, f)
    ensures (forall k :: 0 <= k < |ps| ==> ps[k].direction == ShortPosition) ==>
      GrossMarked(ps, f) == GrossExposure(ps) - Unrealized(ps, f)
  {
    if ps != [] {
      ExposureMeans(ps[..|ps| - 1], f);
      MarksExtend(ps, f);
      hide NetMarked, GrossMarked, LongNotional, GrossExposure, Unrealized, OpenProfit, Notional;
    }
  }

  lemma {:induction false} UnrealizedWithout(ps: seq<Position>, symbol: nat, f: Feature)
    requires OnePerSymbol(ps)
    ensures Unrealized(Without(ps, symbol), f) ==
      Unrealized(ps, f) - match Find(ps, symbol) case None => 0.0 case Some(p) => OpenProfit(p, f)
  {
    if ps != [] {
      var front, p := ps[..|ps| - 1], ps[|ps| - 1];
      UnrealizedWithout(front, symbol, f);
      MarksExtend(ps, f);
      if p.symbol == symbol {
        AbsentBefore(ps);
        WithoutAbsent(front, symbol);
        assert Without(ps, symbol) == front;
      } else {
        var rest := Without(front, symbol) + [p];
        assert Without(ps, symbol) == rest && rest[..|rest| - 1] == Without(front, symbol);
        MarksExtend(rest, f);
      }
      hide Unrealized, OpenProfit;
    }
  }

  /** No slippage and no commission. */
  predicate Frictionless(c: ExecutionConfig) {
    c.Valid() && c.fixedSlippage == 0 && c.slippageBps == 0.0 && c.commissionPerTrade == 0.0
      && c.commissionPerShare == 0.0
  }

  /** An order to close a position in full. */
  predicate Closes(o: Order, p: Position) {
    && o.symbol == p.symbol && o.purpose == Exit && o.quantity == p.quantity
    && o.side == if p.direction == LongPosition then Sell else Buy
  }

  /**
    Marking agrees with trading: on a quote that can fill its exit, a position's unrealised profit is the gross of the
    trade that exit would record, and making that trade free of charge leaves the equity reported where it was.
   */
  lemma {:induction false} MarkingIsClosing(c: ExecutionConfig, a: Account, p: Position, o: Order, t: nat, f: Feature)
    requires Frictionless(c) && OnePerSymbol(a.positions) && Find(a.positions, p.symbol) == Some(p)
    requires Closes(o, p) && Usable(o, f)
    ensures
      var b := ApplyFill(a, MakeFill(c, o, t, f));
      && |b.trades| == |a.trades| + 1 && b.trades[..|a.trades|] == a.trades
      && Unrealized([p], f) == b.trades[|a.trades|].gross == Unrealized(a.positions, f)
      && Unrealized(b.positions, f) == 0.0
      && PointOf(b, t, f).equity == PointOf(a, t, f).equity
  {
    hide Dollars, Money, Find, Without, LongNotional, MakeFill, Usable, ApplyFill, Unrealized, OnePerSymbol,
      GrossMarked, NetMarked;
    var x := MakeFill(c, o, t, f);
    var exit := if p.direction == LongPosition then f.book.bidPrice else f.book.askPrice;
    FreeFill(c, o, t, f);
    CloseFill(a, p, x);
    Single(p, f);
    UnrealizedIsOpenProfit(a.positions, f);
    UnrealizedWithout(a.positions, p.symbol, f);
    WithoutSums(a.positions, p.symbol);
    DollarsAreMoney(exit - p.entryPrice, p.quantity);
    DollarsAreMoney(p.entryPrice - exit, p.quantity);
    DollarsDifference(exit, p.entryPrice, p.quantity);
  }

  lemma {:induction false} FreeFill(c: ExecutionConfig, o: Order, t: nat, f: Feature)
    requires Frictionless(c) && Usable(o, f)
    ensures
      var x := MakeFill(c, o, t, f);
      && x.order == o && x.commission == 0.0 && x.price > 0 && f.symbol == o.symbol
      && x.price == if o.side == Buy then f.book.askPrice else f.book.bidPrice
  {
    NoSlippage(c, MakeFill(c, o, t, f).reference, o.side);
    hide Slipped;
  }

  lemma {:induction false} Single(p: Position, f: Feature)
    ensures Unrealized([p], f) == OpenProfit(p, f)
  {
    assert [p][..0] == [];
    MarksExtend([p], f);
    hide OpenProfit;
  }

  // ---- Sizing and limits ----

  /** Cash-fraction sizing buys the most whole shares that stay within its share of cash, or one if none does. */
  lemma {:induction false} CashFractionIsLargestWithin(c: PortfolioConfig, cash: real, price: nat)
    requires c.Valid() && c.sizing.CashFraction? && price > 0
    ensures
      var q, x := Size(c, cash, price), cash * c.sizing.fraction;
      q >= 1 && x < Money(price, q + 1) && (q > 1 ==> Money(price, q) <= x)
  {
    hide *;
    var x := ShareOf(cash, c.sizing.fraction);
    SizeOfShare(c, cash, price);
    var q := SharesFor(x, price);
    ShareIsProduct(cash, c.sizing.fraction);
    SharesAreLargest(x, price);
    DollarsAreMoney(price, q + 1);
    DollarsAreMoney(price, q);
  }

  lemma {:induction false} SizeOfShare(c: PortfolioConfig, cash: real, price: nat)
    requires c.sizing.CashFraction? && price > 0
    ensures Size(c, cash, price) == SharesFor(ShareOf(cash, c.sizing.fraction), price)
  {
    hide SharesFor, ShareOf;
  }

  lemma {:induction false} ShareIsProduct(cash: real, fraction: real)
    ensures ShareOf(cash, fraction) == cash * fraction
  {
  }

  /** The account keeps within cash, the exposure limit and the number of positions. */
  predicate WithinLimits(c: PortfolioConfig, a: Account) {
    && a.cash >= 0.0 && (c.maxPositions.Some? ==> |a.positions| <= c.maxPositions.value)
    && GrossExposure(a.positions) <= if c.maxGrossExposure.Some? then c.maxGrossExposure.value else c.startingCash
  }

  /**
    An entry into a flat symbol is ordered exactly when there is a price to enter at and filling it there would leave
    the account within its limits; and it is an order for the sized quantity, in the asked direction, at that event.
   */
  lemma {:induction false} EntryIffWithinLimits(c: PortfolioConfig, ec: ExecutionConfig, d: Desk, cand: Candidate,
      direction: Direction)
    requires c.Valid() && Find(d.account.positions, cand.symbol).None?
    ensures
      var long, book, r := direction == LongPosition, cand.feature.book, EntryOrder(c, ec, d, cand, direction);
      var price := if long then book.askPrice else book.bidPrice;
      if price == 0 then r.None?
      else
        var q := Size(c, d.account.cash, price);
        var o := Order(d.book.nextId, cand.symbol, if long then Buy else Sell, Entry, direction, q, cand.timestamp,
          cand.timestamp + ec.latency, cand.timestamp, NoReason);
        var a := ApplyFill(d.account, Fill(o, cand.timestamp, price, price, Commission(ec, q)));
        r == if WithinLimits(c, a) then Some(o) else None
  {
    var price := if direction == LongPosition then cand.feature.book.askPrice else cand.feature.book.bidPrice;
    if price > 0 {
      var q := Size(c, d.account.cash, price);
      SizeAtLeastOne(c, d.account.cash, price);
      var o := Order(d.book.nextId, cand.symbol, if direction == LongPosition then Buy else Sell, Entry, direction, q,
        cand.timestamp, cand.timestamp + ec.latency, cand.timestamp, NoReason);
      var x := Fill(o, cand.timestamp, price, price, Commission(ec, q));
      OpenFill(d.account, x);
      ExposureAfterOpen(d.account.positions, Opened(x));
      hide Size, Dollars, GrossExposure, Commission, Find, ApplyFill;
    }
  }

  /** None is ordered into a held symbol unless pyramiding is allowed. */
  lemma {:induction false} NoPyramids(c: PortfolioConfig, ec: ExecutionConfig, d: Desk, cand: Candidate,
      direction: Direction)
    requires c.noPyramiding && Find(d.account.positions, cand.symbol).Some?
    ensures EntryOrder(c, ec, d, cand, direction).None?
  {
  }

  lemma {:induction false} SizeAtLeastOne(c: PortfolioConfig, cash: real, price: nat)
    requires c.Valid() && price > 0
    ensures Size(c, cash, price) >= 1 && (c.sizing.FixedShares? ==> Size(c, cash, price) == c.sizing.shares)
  {
  }

  // ---- Risk exits ----

  predicate HeldFor(c: PortfolioConfig, t: nat, p: Position) {
    c.maxHolding.Some? && t >= p.entryTime + c.maxHolding.value
  }

  /**
    On any other event than a quote of its own symbol only the holding limit can close a position, and does exactly
    when it has been held that long; on a quote of its own without a price to exit at nothing can; and otherwise the
    holding limit does when it is reached and neither the stop's loss nor the target's gain is.
   */
  lemma {:induction false} RiskExitsInOrder(c: PortfolioConfig, t: nat, f: Feature, p: Position, isQuote: bool)
    requires p.quantity >= 1
    ensures
      var exit, r := if p.direction == LongPosition then f.book.bidPrice else f.book.askPrice,
        RiskReason(c, t, f, p, isQuote);
      var stop := c.stopLossBps.Some? && LossAtLeast(p, exit, c.stopLossBps.value);
      var target := c.takeProfitBps.Some? && GainAtLeast(p, exit, c.takeProfitBps.value);
      var late := if HeldFor(c, t, p) then MaxHolding else NoReason;
      r == if !isQuote || f.symbol != p.symbol then late
           else if exit == 0 then NoReason
           else if stop then StopLoss
           else if target then TakeProfit
           else late
  {
    var exit := if p.direction == LongPosition then f.book.bidPrice else f.book.askPrice;
    if isQuote && f.symbol == p.symbol && exit > 0 { RiskExitsMeanMoney(c, t, f, p); }
    hide LossAtLeast, GainAtLeast;
  }
}