// Positions, cash and orders of the paper portfolio. Money is exact: prices are integer micro-dollars, cash is real.
module Portfolio {
  import opened MarketTypes
  import opened Execution

  datatype Sizing = FixedShares(shares: nat) | FixedNotional(notional: real) | CashFraction(fraction: real)

  datatype PortfolioConfig = PortfolioConfig(
    startingCash: real, sizing: Sizing, maxPositions: Option<nat>, enableShort: bool, noPyramiding: bool,
    reverseSameEvent: bool,
    oppositeExit: bool, stopLossBps: Option<real>, takeProfitBps: Option<real>, maxHolding: Option<nat>,
    endOfDayFlatten: bool,
    maxGrossExposure: Option<real>)
  {
    predicate Valid() {
      && startingCash >= 0.0 && (maxPositions.Some? ==> maxPositions.value >= 1)
      && match sizing
         case FixedShares(n) => n >= 1
         case FixedNotional(x) => x >= 0.0
         case CashFraction(x) => 0.0 <= x <= 1.0
    }
  }

  datatype Position = Position(
    symbol: nat, direction: Direction, quantity: nat, entryPrice: nat, entryCosts: real, entryTime: nat,
    candidateTime: nat)

  datatype Trade = Trade(
    symbol: nat, direction: Direction, quantity: nat, entryPrice: nat, exitPrice: nat, gross: real, costs: real,
    net: real, reason: Reason)

  /** Open positions stand in the order they were opened, one per symbol. */
  datatype Account = Account(
    cash: real, positions: seq<Position>, pending: set<nat>, pendingIds: map<nat, nat>, trades: seq<Trade>,
    realized: real)

  function Opening(c: PortfolioConfig): Account {
    Account(c.startingCash, [], {}, map[], [], 0.0)
  }

  datatype Action = NoAction | LongCandidate | ShortCandidate

  datatype Candidate = Candidate(timestamp: nat, symbol: nat, action: Action, feature: Feature)

  /** The account and the orders it has with the execution simulator. */
  datatype Desk = Desk(account: Account, book: OrderBook)

  datatype Moved = Moved(desk: Desk, fills: seq<Fill>)

  function Dollars(price: int, quantity: nat): real {
    (price * quantity) as real / 1000000.0
  }

  function Find(ps: seq<Position>, symbol: nat): Option<Position> {
    if ps == [] then None
    else if ps[|ps| - 1].symbol == symbol then Some(ps[|ps| - 1])
    else Find(ps[..|ps| - 1], symbol)
  }

  function Without(ps: seq<Position>, symbol: nat): seq<Position> {
    if ps == [] then []
    else Without(ps[..|ps| - 1], symbol) + if ps[|ps| - 1].symbol == symbol then [] else [ps[|ps| - 1]]
  }

  // ---- Fills ----

  function Opened(x: Fill): Position {
    Position(x.order.symbol, x.order.direction, x.order.quantity, x.price, x.commission, x.timestamp,
      x.order.candidateTime)
  }

  function Gross(p: Position, exitPrice: nat): real {
    if p.direction == LongPosition then Dollars(exitPrice - p.entryPrice, p.quantity)
      else Dollars(p.entryPrice - exitPrice, p.quantity)
  }

  function Closed(p: Position, x: Fill): Trade {
    var costs := p.entryCosts + x.commission;
    Trade(p.symbol, p.direction, p.quantity, p.entryPrice, x.price, Gross(p, x.price), costs,
      Gross(p, x.price) - costs, x.order.reason)
  }

  function Settled(a: Account, symbol: nat): Account {
    a.(pending := a.pending - {symbol}, pendingIds := a.pendingIds - {symbol})
  }

  /** An entry into a held symbol, or an exit from a flat one, is dropped without a trace but for its pending mark. */
  function ApplyFill(a: Account, x: Fill): Account {
    var o := x.order;
    var s := Settled(a, o.symbol);
    var held := Find(a.positions, o.symbol);
    var dollars := Dollars(x.price, o.quantity);
    match o.purpose
    case Entry =>
      if held.Some? then s
      else s.(cash := if o.direction == LongPosition then a.cash - (dollars + x.commission) else a.cash - x.commission,
              positions := a.positions + [Opened(x)])
    case Exit =>
      if held.None? then s
      else
        var p := held.value;
        var t := Closed(p, x);
        s.(cash := if p.direction == LongPosition then a.cash + (dollars - x.commission)
                   else a.cash + (Dollars(p.entryPrice - x.price, p.quantity) - x.commission),
           positions := Without(a.positions, o.symbol), trades := a.trades + [t], realized := a.realized + t.net)
  }

  function ApplyFills(a: Account, fills: seq<Fill>): Account {
    if fills == [] then a else ApplyFill(ApplyFills(a, fills[..|fills| - 1]), fills[|fills| - 1])
  }

  // ---- Orders ----

  /** Issues the order's number, marks its symbol and hands it over. */
  function Placed(ec: ExecutionConfig, d: Desk, o: Order, timestamp: nat, f: Feature, isQuote: bool,
      forced: bool): Moved
    requires ec.Valid()
  {
    var r := Submit(ec, d.book.(nextId := d.book.nextId + 1), o, timestamp, f, isQuote, forced);
    Moved(Desk(d.account.(pending := d.account.pending + {o.symbol},
      pendingIds := d.account.pendingIds[o.symbol := o.id]), r.book), r.fills)
  }

  function PlacedAndApplied(ec: ExecutionConfig, d: Desk, o: Order, timestamp: nat, f: Feature, isQuote: bool): Moved
    requires ec.Valid()
  {
    var m := Placed(ec, d, o, timestamp, f, isQuote, false);
    Moved(m.desk.(account := ApplyFills(m.desk.account, m.fills)), m.fills)
  }

  function EntryPrice(direction: Direction, f: Feature): nat {
    if direction == LongPosition then f.book.askPrice else f.book.bidPrice
  }

  function AtLeastOne(x: int): nat {
    if x > 1 then x else 1
  }

  function SharesFor(dollars: real, price: nat): nat
    requires price > 0
  {
    AtLeastOne((dollars * 1000000.0 / price as real).Floor)
  }

  function ShareOf(cash: real, fraction: real): real {
    cash * fraction
  }

  function Size(c: PortfolioConfig, cash: real, price: nat): nat
    requires price > 0
  {
    match c.sizing
    case FixedShares(n) => n
    case FixedNotional(x) => SharesFor(x, price)
    case CashFraction(x) => SharesFor(ShareOf(cash, x), price)
  }

  function Notional(p: Position): real {
    Dollars(p.entryPrice, p.quantity)
  }

  function GrossExposure(ps: seq<Position>): real {
    if ps == [] then 0.0 else GrossExposure(ps[..|ps| - 1]) + Notional(ps[|ps| - 1])
  }

  /** The limits a new entry must respect at order time. */
  predicate Affordable(c: PortfolioConfig, ec: ExecutionConfig, a: Account, symbol: nat, direction: Direction,
      price: nat, quantity: nat) {
    var notional, cost := Dollars(price, quantity), Commission(ec, quantity);
    && (direction == LongPosition ==> a.cash >= notional + cost)
    && (direction == ShortPosition ==> a.cash >= cost)
    && (c.maxPositions.Some? ==> |a.positions| < c.maxPositions.value)
    && (c.noPyramiding ==> Find(a.positions, symbol).None?)
    && GrossExposure(a.positions) + notional <=
         (if c.maxGrossExposure.Some? then c.maxGrossExposure.value else c.startingCash)
  }

  function EntryOrder(c: PortfolioConfig, ec: ExecutionConfig, d: Desk, cand: Candidate,
      direction: Direction): Option<Order> {
    var price := EntryPrice(direction, cand.feature);
    if price == 0 then None
    else
      var quantity := Size(c, d.account.cash, price);
      if quantity < 1 || !Affordable(c, ec, d.account, cand.symbol, direction, price, quantity) then None
      else Some(Order(d.book.nextId, cand.symbol, 
                      if direction == LongPosition then Buy else Sell, Entry, direction, quantity,
                      cand.timestamp, cand.timestamp + ec.latency, cand.timestamp, NoReason))
  }

  function ExitOrder(ec: ExecutionConfig, d: Desk, p: Position, timestamp: nat, reason: Reason,
      candidateTime: nat): Order {
    Order(d.book.nextId, p.symbol, if p.direction == LongPosition then Sell else Buy, Exit, p.direction, p.quantity,
          timestamp, timestamp + ec.latency, candidateTime, reason)
  }

  // ---- The portfolio's operations ----

  function EnterIfAllowed(c: PortfolioConfig, ec: ExecutionConfig, d: Desk, cand: Candidate, direction: Direction,
      isQuote: bool): Moved
    requires ec.Valid()
  {
    match EntryOrder(c, ec, d, cand, direction)
    case None => Moved(d, [])
    case Some(o) => PlacedAndApplied(ec, d, o, cand.timestamp, cand.feature, isQuote)
  }

  function ConsiderCandidate(c: PortfolioConfig, ec: ExecutionConfig, d: Desk, cand: Candidate, isQuote: bool): Moved
    requires ec.Valid()
  {
    var desired := if cand.action == LongCandidate then LongPosition else ShortPosition;
    if cand.action == NoAction || cand.symbol in d.account.pending || (desired == ShortPosition && !c.enableShort)
      then Moved(d, [])
    else match Find(d.account.positions, cand.symbol)
      case None => EnterIfAllowed(c, ec, d, cand, desired, isQuote)
      case Some(p) =>
        if p.direction == desired || !c.oppositeExit then Moved(d, [])
        else
          var out := PlacedAndApplied(ec, d, ExitOrder(ec, d, p, cand.timestamp, OppositeCandidate, cand.timestamp),
                                      cand.timestamp, cand.feature, isQuote);
          if c.reverseSameEvent && out.fills != [] && Find(out.desk.account.positions, cand.symbol).None? then
            var back := EnterIfAllowed(c, ec, out.desk, cand, desired, isQuote);
            Moved(back.desk, out.fills + back.fills)
          else out
  }

  function QuoteSeen(ec: ExecutionConfig, d: Desk, timestamp: nat, f: Feature): Moved
    requires ec.Valid()
  {
    var r := OnQuote(ec, d.book, timestamp, f);
    Moved(Desk(ApplyFills(d.account, r.fills), r.book), r.fills)
  }

  function HeldTooLong(c: PortfolioConfig, timestamp: nat, p: Position): Reason {
    if c.maxHolding.Some? && timestamp - p.entryTime >= c.maxHolding.value then MaxHolding else NoReason
  }

  function RiskReason(c: PortfolioConfig, timestamp: nat, f: Feature, p: Position, isQuote: bool): Reason {
    var up := p.direction == LongPosition;
    var mark := if up then f.book.bidPrice else f.book.askPrice;
    var entry, at := p.entryPrice as real, mark as real;
    if !isQuote || f.symbol != p.symbol then HeldTooLong(c, timestamp, p)
    else if mark == 0 then NoReason
    else if c.stopLossBps.Some? && (if up then at <= entry * (1.0 - c.stopLossBps.value / 10000.0)
                                    else at >= entry * (1.0 + c.stopLossBps.value / 10000.0)) then StopLoss
    else if c.takeProfitBps.Some? && (if up then at >= entry * (1.0 + c.takeProfitBps.value / 10000.0)
                                      else at <= entry * (1.0 - c.takeProfitBps.value / 10000.0)) then TakeProfit
    else HeldTooLong(c, timestamp, p)
  }

  /** One position of the risk sweep. */
  function RiskChecked(c: PortfolioConfig, ec: ExecutionConfig, d: Desk, p: Position, timestamp: nat, f: Feature,
      isQuote: bool): Moved
    requires ec.Valid()
  {
    var reason := RiskReason(c, timestamp, f, p, isQuote);
    if p.symbol in d.account.pending || reason == NoReason then Moved(d, [])
    else PlacedAndApplied(ec, d, ExitOrder(ec, d, p, timestamp, reason, p.candidateTime), timestamp, f,
      isQuote && f.symbol == p.symbol)
  }

  /** The sweep over the positions held when it began. */
  function RiskSwept(c: PortfolioConfig, ec: ExecutionConfig, d: Desk, ps: seq<Position>, timestamp: nat, f: Feature,
      isQuote: bool): Moved
    requires ec.Valid()
  {
    if ps == [] then Moved(d, [])
    else
      var m := RiskSwept(c, ec, d, ps[..|ps| - 1], timestamp, f, isQuote);
      var n := RiskChecked(c, ec, m.desk, ps[|ps| - 1], timestamp, f, isQuote);
      Moved(n.desk, m.fills + n.fills)
  }

  /** End of day: a symbol without a feature this session makes the source raise an attribute error. */
  datatype Flattening = Flattening(moved: Moved) | NoFeatureForPosition

  function FlattenSwept(ec: ExecutionConfig, d: Desk, ps: seq<Position>, timestamp: nat,
      features: map<nat, Feature>): Flattening
    requires ec.Valid()
  {
    if ps == [] then Flattening(Moved(d, []))
    else
      var p := ps[|ps| - 1];
      match FlattenSwept(ec, d, ps[..|ps| - 1], timestamp, features)
      case NoFeatureForPosition => NoFeatureForPosition
      case Flattening(m) =>
        if p.symbol in m.desk.account.pending then Flattening(m)
        else if p.symbol !in features then NoFeatureForPosition
        else
          var n :=
            Placed(ec, m.desk, ExitOrder(ec, m.desk, p, timestamp, EndOfDay, timestamp), timestamp, features[p.symbol],
              true, true);
          Flattening(Moved(n.desk, m.fills + n.fills))
  }

  /** `flatten` as the replay calls it: immediate exits on each symbol's latest feature, applied together. */
  function Flattened(ec: ExecutionConfig, d: Desk, timestamp: nat, features: map<nat, Feature>): Flattening
    requires ec.Valid()
  {
    match FlattenSwept(ec, d, d.account.positions, timestamp, features)
    case NoFeatureForPosition => NoFeatureForPosition
    case Flattening(m) => Flattening(Moved(m.desk.(account := ApplyFills(m.desk.account, m.fills)), m.fills))
  }

  // ---- Marking to market ----

  function Mark(p: Position, f: Feature): nat {
    var visible := if p.direction == LongPosition then f.book.bidPrice else f.book.askPrice;
    if f.symbol == p.symbol && visible > 0 then visible else p.entryPrice
  }

  function Unrealized(ps: seq<Position>, f: Feature): real {
    if ps == [] then 0.0
    else Unrealized(ps[..|ps| - 1], f) + Gross(ps[|ps| - 1], Mark(ps[|ps| - 1], f))
  }

  function LongNotional(ps: seq<Position>): real {
    if ps == [] then 0.0
    else LongNotional(ps[..|ps| - 1]) + if ps[|ps| - 1].direction == LongPosition then Notional(ps[|ps| - 1]) else 0.0
  }

  /** `mark_to_market`: the equity it reports. */
  function Equity(a: Account, f: Feature): real {
    a.cash + Unrealized(a.positions, f) + LongNotional(a.positions)
  }

  function GrossMarked(ps: seq<Position>, f: Feature): real {
    if ps == [] then 0.0
    else
      var p := ps[|ps| - 1];
      GrossMarked(ps[..|ps| - 1], f) + Dollars(Mark(p, f), p.quantity)
  }

  /** Long positions count for their marked value, short ones against it. */
  function NetMarked(ps: seq<Position>, f: Feature): real {
    if ps == [] then 0.0
    else
      var p := ps[|ps| - 1];
      var value := Dollars(Mark(p, f), p.quantity);
      NetMarked(ps[..|ps| - 1], f) + if p.direction == LongPosition then value else -value
  }

  datatype EquityPoint = EquityPoint(
    timestamp: nat, cash: real, equity: real, realized: real, unrealized: real, gross: real, net: real, open: nat)

  function PointOf(a: Account, timestamp: nat, f: Feature): EquityPoint {
    EquityPoint(timestamp, a.cash, Equity(a, f), a.realized, Unrealized(a.positions, f),
                GrossMarked(a.positions, f), NetMarked(a.positions, f), |a.positions|)
  }

  /**
    What marking keeps: the latest unrealised profit, the high-water equity, the worst drawdown and the recorded
    curve.
   */
  datatype Marks = Marks(unrealized: real, highWater: Option<real>, drawdown: real, curve: seq<EquityPoint>)

  const NoMarks := Marks(0.0, None, 0.0, [])

  function Higher(a: real, b: real): real {
    if a >= b then a else b
  }

  function Marked(m: Marks, point: EquityPoint, record: bool): Marks {
    var high := if m.highWater.None? then point.equity else Higher(m.highWater.value, point.equity);
    var fall := point.equity - high;
    Marks(point.unrealized, Some(high), if fall < m.drawdown then fall else m.drawdown,
          if record then m.curve + [point] else m.curve)
  }

  class PortfolioSimulator {
    const config: PortfolioConfig
    var cash: real
    var positions: seq<Position>
    var pendingSymbols: set<nat>
    var pendingOrderIds: map<nat, nat>
    var completedTrades: seq<Trade>
    var realizedPnl: real
    var marks: Marks

    ghost function View(): Account
      reads this
    {
      Account(cash, positions, pendingSymbols, pendingOrderIds, completedTrades, realizedPnl)
    }

    ghost function DeskView(e: ExecutionSimulator): Desk
      reads this, e
    {
      Desk(View(), e.View())
    }

    constructor (config: PortfolioConfig)
      ensures this.config == config && View() == Opening(config) && marks == NoMarks
    {
      this.config := config;
      cash, positions, pendingSymbols, pendingOrderIds := config.startingCash, [], {}, map[];
      completedTrades, realizedPnl, marks := [], 0.0, NoMarks;
    }

    method Apply(fills: seq<Fill>)
      modifies this
      ensures marks == old(marks)
      ensures View() == ApplyFills(old(View()), fills)
    {
      hide ApplyFill;
      for k := 0 to |fills|
        invariant marks == old(marks)
        invariant View() == ApplyFills(old(View()), fills[..k])
      {
        assert fills[..k + 1][..k] == fills[..k];
        ApplyOne(fills[k]);
      }
      assert fills[..|fills|] == fills;
    }

    method ApplyOne(x: Fill)
      modifies this
      ensures marks == old(marks)
      ensures View() == ApplyFill(old(View()), x)
    {
      hide Find, Without, Dollars;
      var o := x.order;
      pendingSymbols := pendingSymbols - {o.symbol};
      pendingOrderIds := pendingOrderIds - {o.symbol};
      var dollars, held := Dollars(x.price, o.quantity), Find(positions, o.symbol);
      if o.purpose == Entry {
        if held.Some? { return; }
        cash := if o.direction == LongPosition then cash - (dollars + x.commission) else cash - x.commission;
        positions := positions + [Opened(x)];
        return;
      }
      if held.None? { return; }
      var p := held.value;
      positions := Without(positions, o.symbol);
      if p.direction == LongPosition {
        cash := cash + (dollars - x.commission);
      } else {
        cash := cash + (Dollars(p.entryPrice - x.price, p.quantity) - x.commission);
      }
      var trade := Closed(p, x);
      completedTrades := completedTrades + [trade];
      realizedPnl := realizedPnl + trade.net;
    }

    method Place(e: ExecutionSimulator, o: Order, timestamp: nat, f: Feature, isQuote: bool, forced: bool)
      returns (fills: seq<Fill>)
      requires e.config.Valid() && o.quantity >= 1 && o.id == e.nextOrderId
      modifies this, e
      ensures marks == old(marks)
      ensures Moved(DeskView(e), fills) == Placed(e.config, old(DeskView(e)), o, timestamp, f, isQuote, forced)
    {
      hide Submit;
      var id := e.NewOrderId();
      pendingSymbols := pendingSymbols + {o.symbol};
      pendingOrderIds := pendingOrderIds[o.symbol := id];
      fills := e.SubmitOrder(o, timestamp, f, isQuote, forced);
    }

    method SubmitExit(e: ExecutionSimulator, p: Position, timestamp: nat, f: Feature, reason: Reason,
        candidateTime: nat, isQuote: bool)
      returns (fills: seq<Fill>)
      requires e.config.Valid() && p.quantity >= 1
      modifies this, e
      ensures marks == old(marks)
      ensures
        var d := old(DeskView(e));
        Moved(DeskView(e), fills) ==
          PlacedAndApplied(e.config, d, ExitOrder(e.config, d, p, timestamp, reason, candidateTime), timestamp, f,
            isQuote)
    {
      hide Submit, ApplyFills;
      var o :=
        Order(e.nextOrderId, p.symbol, if p.direction == LongPosition then Sell else Buy, Exit, p.direction, p.quantity,
                     timestamp, timestamp + e.config.latency, candidateTime, reason);
      fills := Place(e, o, timestamp, f, isQuote, false);
      Apply(fills);
    }

    method SubmitEntry(e: ExecutionSimulator, cand: Candidate, direction: Direction, isQuote: bool)
      returns (fills: seq<Fill>)
      requires e.config.Valid()
      modifies this, e
      ensures marks == old(marks)
      ensures Moved(DeskView(e), fills) == EnterIfAllowed(config, e.config, old(DeskView(e)), cand, direction, isQuote)
    {
      hide Submit, ApplyFills, Affordable, Size;
      var price := EntryPrice(direction, cand.feature);
      if price == 0 { return []; }
      var quantity := Size(config, cash, price);
      if quantity < 1
        || !Affordable(config, e.config,
             Account(cash, positions, pendingSymbols, pendingOrderIds, completedTrades, realizedPnl),
                                     cand.symbol, direction, price, quantity) { return []; }
      var o :=
        Order(e.nextOrderId, cand.symbol, if direction == LongPosition then Buy else Sell, Entry, direction, quantity,
                     cand.timestamp, cand.timestamp + e.config.latency, cand.timestamp, NoReason);
      fills := Place(e, o, cand.timestamp, cand.feature, isQuote, false);
      Apply(fills);
    }

    method Consider(cand: Candidate, e: ExecutionSimulator, isQuote: bool) returns (fills: seq<Fill>)
      requires e.config.Valid() && forall k :: 0 <= k < |positions| ==> positions[k].quantity >= 1
      modifies this, e
      ensures marks == old(marks)
      ensures Moved(DeskView(e), fills) == ConsiderCandidate(config, e.config, old(DeskView(e)), cand, isQuote)
    {
      hide PlacedAndApplied, EnterIfAllowed, ExitOrder, Find;
      var desired := if cand.action == LongCandidate then LongPosition else ShortPosition;
      if cand.action == NoAction || cand.symbol in pendingSymbols
        || (desired == ShortPosition && !config.enableShort) { return []; }
      match Find(positions, cand.symbol)
      case None =>
        fills := SubmitEntry(e, cand, desired, isQuote);
      case Some(p) =>
        if p.direction == desired || !config.oppositeExit { return []; }
        FoundIsHeld(positions, cand.symbol);
        fills := SubmitExit(e, p, cand.timestamp, cand.feature, OppositeCandidate, cand.timestamp, isQuote);
        if config.reverseSameEvent && fills != [] && Find(positions, cand.symbol).None? {
          var extra := SubmitEntry(e, cand, desired, isQuote);
          fills := fills + extra;
        }
    }

    method SeeQuote(timestamp: nat, f: Feature, e: ExecutionSimulator) returns (fills: seq<Fill>)
      requires e.config.Valid()
      modifies this, e
      ensures marks == old(marks)
      ensures Moved(DeskView(e), fills) == QuoteSeen(e.config, old(DeskView(e)), timestamp, f)
    {
      hide ApplyFills;
      fills := e.Quote(timestamp, f);
      Apply(fills);
    }

    method EvaluateRisk(timestamp: nat, f: Feature, e: ExecutionSimulator, isQuote: bool) returns (fills: seq<Fill>)
      requires e.config.Valid() && forall k :: 0 <= k < |positions| ==> positions[k].quantity >= 1
      modifies this, e
      ensures marks == old(marks)
      ensures Moved(DeskView(e), fills) ==
        RiskSwept(config, e.config, old(DeskView(e)), old(positions), timestamp, f, isQuote)
    {
      hide PlacedAndApplied, RiskReason, ExitOrder;
      var ps := positions;
      fills := [];
      for k := 0 to |ps|
        invariant marks == old(marks)
        invariant Moved(DeskView(e), fills) ==
          RiskSwept(config, e.config, old(DeskView(e)), ps[..k], timestamp, f, isQuote)
      {
        assert ps[..k + 1][..k] == ps[..k];
        var reason := RiskReason(config, timestamp, f, ps[k], isQuote);
        if ps[k].symbol !in pendingSymbols && reason != NoReason {
          var submitted :=
            SubmitExit(e, ps[k], timestamp, f, reason, ps[k].candidateTime, isQuote && f.symbol == ps[k].symbol);
          fills := fills + submitted;
        }
      }
      assert ps[..|ps|] == ps;
    }

    method Flatten(timestamp: nat, features: map<nat, Feature>, e: ExecutionSimulator)
      returns (raised: bool, fills: seq<Fill>)
      requires e.config.Valid() && forall k :: 0 <= k < |positions| ==> positions[k].quantity >= 1
      modifies this, e
      ensures marks == old(marks)
      ensures
        match Flattened(e.config, old(DeskView(e)), timestamp, features)
        case NoFeatureForPosition => raised
        case Flattening(m) => !raised && Moved(DeskView(e), fills) == m
    {
      hide ApplyFills, Placed, ExitOrder;
      var ps := positions;
      raised, fills := false, [];
      for k := 0 to |ps|
        invariant marks == old(marks)
        invariant FlattenSwept(e.config, old(DeskView(e)), ps[..k], timestamp, features) ==
          Flattening(Moved(DeskView(e), fills))
      {
        assert ps[..k + 1][..k] == ps[..k];
        var p := ps[k];
        if p.symbol !in pendingSymbols {
          if p.symbol !in features {
            StaysRaised(e.config, old(DeskView(e)), ps, timestamp, features, k + 1);
            return true, [];
          }
          ghost var d := DeskView(e);
          var o :=
            Order(e.nextOrderId, p.symbol,
                  if p.direction == LongPosition then Sell else Buy, Exit, p.direction, p.quantity,
                         timestamp, timestamp + e.config.latency, timestamp, EndOfDay);
          assert o == ExitOrder(e.config, d, p, timestamp, EndOfDay, timestamp) by {
            ExitOrderIs(e.config, d, p, timestamp, EndOfDay, timestamp);
          }
          var more := Place(e, o, timestamp, features[p.symbol], true, true);
          fills := fills + more;
        }
      }
      assert ps[..|ps|] == ps;
      Apply(fills);
    }

    /** One pass over the open positions; the account itself is not touched. */
    method MarkToMarket(timestamp: nat, f: Feature, record: bool) returns (point: EquityPoint)
      modifies this`marks
      ensures point == PointOf(View(), timestamp, f) && marks == Marked(old(marks), point, record)
    {
      hide Gross, Mark, Notional, Dollars;
      var unrealized, gross, net, held := 0.0, 0.0, 0.0, 0.0;
      for k := 0 to |positions|
        invariant unrealized == Unrealized(positions[..k], f) && held == LongNotional(positions[..k])
        invariant gross == GrossMarked(positions[..k], f) && net == NetMarked(positions[..k], f)
      {
        var p := positions[k];
        assert positions[..k + 1][..k] == positions[..k];
        var value := Dollars(Mark(p, f), p.quantity);
        unrealized, gross := unrealized + Gross(p, Mark(p, f)), gross + value;
        if p.direction == LongPosition {
          net, held := net + value, held + Notional(p);
        } else {
          net := net - value;
        }
      }
      assert positions[..|positions|] == positions;
      point := EquityPoint(timestamp, cash, cash + unrealized + held, realizedPnl, unrealized, gross, net, |positions|);
      var high := if marks.highWater.None? then point.equity else Higher(marks.highWater.value, point.equity);
      marks := marks.(unrealized := unrealized, highWater := Some(high));
      if point.equity - high < marks.drawdown { marks := marks.(drawdown := point.equity - high); }
      if record { marks := marks.(curve := marks.curve + [point]); }
    }
  }

  lemma {:induction false} ExitOrderIs(ec: ExecutionConfig, d: Desk, p: Position, timestamp: nat, reason: Reason,
      candidateTime: nat)
    ensures ExitOrder(ec, d, p, timestamp, reason, candidateTime) ==
      Order(d.book.nextId, p.symbol, if p.direction == LongPosition then Sell else Buy, Exit, p.direction, p.quantity,
            timestamp, timestamp + ec.latency, candidateTime, reason)
  {
  }

  lemma {:induction false} FoundIsHeld(ps: seq<Position>, symbol: nat)
    ensures
      match Find(ps, symbol)
      case None => forall k :: 0 <= k < |ps| ==> ps[k].symbol != symbol
      case Some(p) => p in ps && p.symbol == symbol
  {
    if ps != [] && ps[|ps| - 1].symbol != symbol { FoundIsHeld(ps[..|ps| - 1], symbol); }
  }

  lemma {:induction false} StaysRaised(ec: ExecutionConfig, d: Desk, ps: seq<Position>, timestamp: nat,
      features: map<nat, Feature>, k: nat)
    requires ec.Valid() && k <= |ps| && FlattenSwept(ec, d, ps[..k], timestamp, features).NoFeatureForPosition?
    ensures FlattenSwept(ec, d, ps, timestamp, features).NoFeatureForPosition?
    decreases |ps|
  {
    if k == |ps| {
      assert ps[..k] == ps;
    } else {
      assert ps[..|ps| - 1][..k] == ps[..k];
      StaysRaised(ec, d, ps[..|ps| - 1], timestamp, features, k);
    }
  }
}
