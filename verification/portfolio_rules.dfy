// What sizing, entry limits and risk exits mean in money.
module PortfolioRules {
  import opened MarketTypes
  import opened Execution
  import opened Portfolio

  lemma {:induction false} RealProduct(a: int, b: int)
    ensures (a * b) as real == a as real * b as real
  {
  }

  lemma {:induction false} RealMonotone(a: real, b: real, c: real)
    requires c > 0.0
    ensures a <= b <==> a * c <= b * c
  {
    if a > b { assert (a - b) * c > 0.0; }
    if a <= b { assert (b - a) * c >= 0.0; }
  }

  lemma {:induction false} DollarsLinear(price: int, quantity: nat)
    ensures Dollars(price, quantity) == price as real * quantity as real / 1000000.0
  {
    RealProduct(price, quantity);
  }

  lemma {:induction false} SharesAreLargest(x: real, price: nat)
    requires price > 0
    ensures
      var q := SharesFor(x, price);
      q >= 1 && x < Dollars(price, q + 1) && (q > 1 ==> Dollars(price, q) <= x)
  {
    var q, p := SharesFor(x, price), price as real;
    var exact := x * 1000000.0 / p;
    assert exact < (q + 1) as real && (q > 1 ==> q as real <= exact);
    WithinNotional(price, q + 1, x, exact);
    WithinNotional(price, q, x, exact);
  }

  /** Fixed-notional sizing buys the most whole shares that stay within the notional, or one share if none does. */
  lemma {:induction false} SizeIsLargestWithin(c: PortfolioConfig, cash: real, price: nat)
    requires c.Valid() && c.sizing.FixedNotional? && price > 0
    ensures
      var q, x := Size(c, cash, price), c.sizing.notional;
      && q >= 1 && x < Dollars(price, q + 1)
      && (q > 1 ==> Dollars(price, q) <= x)
  {
    SharesAreLargest(c.sizing.notional, price);
    hide SharesFor, Dollars;
  }

  lemma {:induction false} WithinNotional(price: nat, q: nat, x: real, exact: real)
    requires price > 0 && exact == x * 1000000.0 / price as real
    ensures Dollars(price, q) <= x <==> q as real <= exact
  {
    var p := price as real;
    DollarsLinear(price, q);
    hide Dollars;
    assert exact * p == x * 1000000.0;
    RealMonotone(q as real, exact, p);
    assert p * q as real == q as real * p;
  }

  /** Some basis points of an amount. */
  function Part(bps: real, amount: real): real {
    bps / 10000.0 * amount
  }

  /** Closing at the mark would lose, or gain, at least some basis points of the entry notional. */
  predicate LossAtLeast(p: Position, mark: nat, bps: real) {
    Gross(p, mark) <= -Part(bps, Notional(p))
  }

  predicate GainAtLeast(p: Position, mark: nat, bps: real) {
    Gross(p, mark) >= Part(bps, Notional(p))
  }

  /** The move in a position's favour from its entry to a mark. */
  function Move(p: Position, mark: nat): real {
    if p.direction == LongPosition then mark as real - p.entryPrice as real else p.entryPrice as real - mark as real
  }

  function Millionths(quantity: nat): real {
    quantity as real / 1000000.0
  }

  lemma {:induction false} MoneyTerms(p: Position, mark: nat)
    ensures Gross(p, mark) == Move(p, mark) * Millionths(p.quantity)
    ensures Notional(p) == p.entryPrice as real * Millionths(p.quantity)
  {
    var q := p.quantity as real;
    DollarsLinear(mark - p.entryPrice, p.quantity);
    DollarsLinear(p.entryPrice - mark, p.quantity);
    DollarsLinear(p.entryPrice, p.quantity);
    hide Dollars;
    Regroup(Move(p, mark), q);
    Regroup(p.entryPrice as real, q);
  }

  lemma {:induction false} MoveInDollars(p: Position, mark: nat, bps: real)
    requires p.quantity >= 1
    ensures LossAtLeast(p, mark, bps) <==> Move(p, mark) <= -Part(bps, p.entryPrice as real)
    ensures GainAtLeast(p, mark, bps) <==> Move(p, mark) >= Part(bps, p.entryPrice as real)
  {
    MoneyTerms(p, mark);
    var k := Millionths(p.quantity);
    assert k > 0.0;
    hide Gross, Notional, Move, Millionths, Part;
    ScaledComparison(Move(p, mark), p.entryPrice as real, bps, k);
  }

  lemma {:induction false} Regroup(a: real, q: real)
    ensures a * q / 1000000.0 == a * (q / 1000000.0)
  {
  }

  lemma {:induction false} ScaledComparison(move: real, entry: real, bps: real, k: real)
    requires k > 0.0
    ensures move * k <= -Part(bps, entry * k) <==> move <= -Part(bps, entry)
    ensures move * k >= Part(bps, entry * k) <==> move >= Part(bps, entry)
  {
    PartScales(bps, entry, k);
    hide Part;
    RealMonotone(move, -Part(bps, entry), k);
    RealMonotone(Part(bps, entry), move, k);
  }

  lemma {:induction false} PartScales(bps: real, entry: real, k: real)
    ensures Part(bps, entry * k) == Part(bps, entry) * k
  {
  }

  /**
    On a quote of the position's own symbol with a price to exit at, a stop fires exactly when closing there would
    lose at least its basis points of the entry notional; otherwise a target fires exactly when it would gain its own.
   */
  lemma {:induction false} RiskExitsMeanMoney(c: PortfolioConfig, t: nat, f: Feature, p: Position)
    requires p.quantity >= 1 && f.symbol == p.symbol
    requires (if p.direction == LongPosition then f.book.bidPrice else f.book.askPrice) > 0
    ensures
      var mark := if p.direction == LongPosition then f.book.bidPrice else f.book.askPrice;
      var r := RiskReason(c, t, f, p, true);
      && (r == StopLoss <==> c.stopLossBps.Some? && LossAtLeast(p, mark, c.stopLossBps.value))
      && (r == TakeProfit <==> r != StopLoss && c.takeProfitBps.Some? && GainAtLeast(p, mark, c.takeProfitBps.value))
  {
    hide LossAtLeast, GainAtLeast;
    var mark := if p.direction == LongPosition then f.book.bidPrice else f.book.askPrice;
    if c.stopLossBps.Some? { MoveInDollars(p, mark, c.stopLossBps.value); }
    if c.takeProfitBps.Some? { MoveInDollars(p, mark, c.takeProfitBps.value); }
  }

  lemma {:induction false} ExposureAfterOpen(ps: seq<Position>, p: Position)
    ensures GrossExposure(ps + [p]) == GrossExposure(ps) + Notional(p)
  {
    assert (ps + [p])[..|ps|] == ps;
  }

  /**
    The limits are checked at order time: an entry that fills at once without slippage leaves cash, exposure and
    the number of positions within them.
   */
  lemma {:induction false} ImmediateEntryStaysWithinLimits(c: PortfolioConfig, ec: ExecutionConfig, d: Desk,
      cand: Candidate, direction: Direction)
    requires ec.Valid() && ec.fixedSlippage == 0 && ec.slippageBps == 0.0
      && Find(d.account.positions, cand.symbol).None?
    requires EnterIfAllowed(c, ec, d, cand, direction, true).fills != []
    ensures
      var a := EnterIfAllowed(c, ec, d, cand, direction, true).desk.account;
      && a.cash >= 0.0
      && GrossExposure(a.positions) <= (if c.maxGrossExposure.Some? then c.maxGrossExposure.value else c.startingCash)
      && (c.maxPositions.Some? ==> |a.positions| <= c.maxPositions.value)
  {
    hide Size, Dollars, GrossExposure, Commission, Find;
    var o := EntryOrder(c, ec, d, cand, direction).value;
    var m := Placed(ec, d, o, cand.timestamp, cand.feature, true, false);
    var x := m.fills[0];
    assert m.fills == [x];
    assert x.order.quantity == o.quantity && x.order.direction == o.direction && x.order.symbol == o.symbol
      && x.order.purpose == Entry;
    assert x.price == EntryPrice(direction, cand.feature) by { NoSlippage(ec, x.reference, o.side); }
    OneFill(m.desk.account, x);
    ExposureAfterOpen(d.account.positions, Opened(x));
  }

  lemma {:induction false} NoSlippage(ec: ExecutionConfig, reference: nat, side: Side)
    requires ec.Valid() && ec.fixedSlippage == 0 && ec.slippageBps == 0.0
    ensures Slipped(ec, reference, side) == if side == Sell && reference == 0 then 1 else reference
  {
  }

  lemma {:induction false} OneFill(a: Account, x: Fill)
    ensures ApplyFills(a, [x]) == ApplyFill(a, x)
  {
    assert [x][..0] == [];
  }

  // ---- Marks over time ----

  function MarksOf(points: seq<EquityPoint>): Marks {
    if points == [] then NoMarks else Marked(MarksOf(points[..|points| - 1]), points[|points| - 1], true)
  }

  ghost predicate IsHighest(points: seq<EquityPoint>, high: real) {
    && (exists k :: 0 <= k < |points| && points[k].equity == high)
    && forall k :: 0 <= k < |points| ==> points[k].equity <= high
  }

  function Fall(points: seq<EquityPoint>, i: nat, j: nat): real
    requires i < |points| && j < |points|
  {
    points[j].equity - points[i].equity
  }

  ghost predicate IsWorstFall(points: seq<EquityPoint>, fall: real) {
    && (exists i, j :: 0 <= i <= j < |points| && Fall(points, i, j) == fall)
    && forall i, j :: 0 <= i <= j < |points| ==> Fall(points, i, j) >= fall
  }

  /**
    After any marks, the high-water equity is the highest recorded and the drawdown is the worst fall from any
    recorded equity to a later one.
   */
  lemma {:induction false} DrawdownIsWorstFall(points: seq<EquityPoint>)
    ensures MarksOf(points).curve == points
    ensures
      var m := MarksOf(points);
      if points == [] then m == NoMarks
      else m.highWater.Some? && IsHighest(points, m.highWater.value) && IsWorstFall(points, m.drawdown)
  {
    if points != [] {
      var last := |points| - 1;
      DrawdownIsWorstFall(points[..last]);
      hide IsHighest, IsWorstFall;
      if last > 0 { MarkExtends(points, last); } else { FirstMark(points); }
    }
  }

  lemma {:induction false} FirstMark(points: seq<EquityPoint>)
    requires |points| == 1
    ensures
      var m := MarksOf(points);
      m.highWater.Some? && IsHighest(points, m.highWater.value) && IsWorstFall(points, m.drawdown)
  {
    assert points[..0] == [] && MarksOf([]) == NoMarks;
    assert Fall(points, 0, 0) == 0.0;
  }

  lemma {:induction false} MarkExtends(points: seq<EquityPoint>, last: nat)
    requires 0 < last == |points| - 1
    requires
      var m := MarksOf(points[..last]);
      m.highWater.Some? && IsHighest(points[..last], m.highWater.value) && IsWorstFall(points[..last], m.drawdown)
    ensures
      var m := MarksOf(points);
      m.highWater.Some? && IsHighest(points, m.highWater.value) && IsWorstFall(points, m.drawdown)
  {
    var m := MarksOf(points[..last]);
    hide IsHighest, IsWorstFall;
    HighestExtends(points, last, m.highWater.value);
    FallExtends(points, last, m.highWater.value, m.drawdown);
  }

  lemma {:induction false} HighestExtends(points: seq<EquityPoint>, last: nat, high: real)
    requires last == |points| - 1 && IsHighest(points[..last], high)
    ensures IsHighest(points, Higher(high, points[last].equity))
  {
    var front := points[..last];
    var peak :| 0 <= peak < |front| && front[peak].equity == high;
    assert points[peak].equity == high;
    forall k | 0 <= k < last ensures points[k].equity <= high { assert points[k] == front[k]; }
  }

  lemma {:induction false} FallExtends(points: seq<EquityPoint>, last: nat, high: real, fall: real)
    requires last == |points| - 1 && IsHighest(points[..last], high) && IsWorstFall(points[..last], fall)
    ensures
      var drop := points[last].equity - Higher(high, points[last].equity);
      IsWorstFall(points, if drop < fall then drop else fall)
  {
    var front := points[..last];
    var peak :| 0 <= peak < |front| && front[peak].equity == high;
    var i, j :| 0 <= i <= j < |front| && Fall(front, i, j) == fall;
    assert Fall(points, i, j) == fall && Fall(points, peak, last) == points[last].equity - high;
    assert Fall(front, 0, 0) == 0.0 && Fall(points, last, last) == 0.0;
    forall a, b | 0 <= a <= b < last ensures Fall(points, a, b) >= fall { assert Fall(front, a, b) >= fall; }
    forall a | 0 <= a < last ensures points[a].equity <= high { assert points[a] == front[a]; }
  }

  predicate LongOnly(ps: seq<Position>) {
    forall k :: 0 <= k < |ps| ==> ps[k].direction == LongPosition
  }

  /** Net exposure is within gross; with long positions only they agree, and equity is cash plus exposure. */
  lemma {:induction false} ExposureExplainsEquity(a: Account, f: Feature)
    ensures -GrossMarked(a.positions, f) <= NetMarked(a.positions, f) <= GrossMarked(a.positions, f)
    ensures LongOnly(a.positions) ==>
      NetMarked(a.positions, f) == GrossMarked(a.positions, f) && Equity(a, f) == a.cash + GrossMarked(a.positions, f)
    decreases |a.positions|
  {
    if a.positions != [] {
      var last := |a.positions| - 1;
      var p, front := a.positions[last], a.(positions := a.positions[..last]);
      ExposureExplainsEquity(front, f);
      hide Mark, GrossMarked, NetMarked, Unrealized, LongNotional;
      MarkedValue(p, Mark(p, f));
      PositionsExtend(a.positions, f);
    }
  }

  lemma {:induction false} MarkedValue(p: Position, mark: nat)
    ensures Dollars(mark, p.quantity) >= 0.0
    ensures p.direction == LongPosition ==> Gross(p, mark) + Notional(p) == Dollars(mark, p.quantity)
  {
  }

  lemma {:induction false} PositionsExtend(ps: seq<Position>, f: Feature)
    requires ps != []
    ensures
      var p, front := ps[|ps| - 1], ps[..|ps| - 1];
      var value := Dollars(Mark(p, f), p.quantity);
      && GrossMarked(ps, f) == GrossMarked(front, f) + value
      && NetMarked(ps, f) == NetMarked(front, f) + (if p.direction == LongPosition then value else -value)
      && Unrealized(ps, f) == Unrealized(front, f) + Gross(p, Mark(p, f))
      && LongNotional(ps) == LongNotional(front) + if p.direction == LongPosition then Notional(p) else 0.0
  {
    hide Mark, Dollars, Gross, Notional;
  }
}
