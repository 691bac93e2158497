// What a feature says, in terms of the events themselves: latest quotes, latest trades and earlier midpoints.
module MarketMeaning {
  import opened ProtocolDefs
  import opened MarketTypes
  import opened MarketModel
  import opened MarketHistory
  import opened MarketEngine
  import opened MarketRefinement
  import opened MarketRun

  // ---- The events that count ----

  /** The event is of a known symbol, type and side, and newer than the last one accepted for its symbol. */
  predicate Acceptable(symbols: nat, es: seq<Event>, e: Event) {
    && e.symbol < symbols && (e.kind == MSG_MARKET_QUOTE || e.kind == MSG_MARKET_TRADE) && e.side <= 1
    && (es == [] || es[|es| - 1].sequence < e.sequence)
  }

  /** The events of a symbol accepted since its last reset. */
  function AcceptedSince(symbols: nat, ops: seq<Op>, s: nat): seq<Event> {
    if ops == [] then []
    else
      var before := AcceptedSince(symbols, ops[..|ops| - 1], s);
      match ops[|ops| - 1]
      case Take(e) => if e.symbol == s && Acceptable(symbols, before, e) then before + [e] else before
      case Clear(i) => if i == s then [] else before
  }

  /** Why an event that does not count is refused. */
  function Refusal(symbols: nat, es: seq<Event>, e: Event): Outcome
    requires !Acceptable(symbols, es, e)
  {
    if e.symbol >= symbols then DispatchError(0xE4, e.symbol, e.sequence)
    else if e.kind != MSG_MARKET_QUOTE && e.kind != MSG_MARKET_TRADE then Rejected(0xE3, e.symbol, e.sequence)
    else if e.side > 1 then Rejected(0xE7, e.symbol, e.sequence)
    else if e.sequence == es[|es| - 1].sequence then Rejected(0xE5, e.symbol, e.sequence)
    else Rejected(0xE6, e.symbol, e.sequence)
  }

  // ---- Quotes, midpoints and trades ----

  datatype Quote = NoQuote | Quoted(price: nat, quantity: nat)

  /** Side 0 is the bid, side 1 the ask. */
  function LatestQuote(es: seq<Event>, side: nat): Quote {
    if es == [] then NoQuote
    else
      var e := es[|es| - 1];
      if e.kind == MSG_MARKET_QUOTE && e.side == side then Quoted(e.price, e.quantity)
      else LatestQuote(es[..|es| - 1], side)
  }

  predicate TwoSided(es: seq<Event>) {
    && LatestQuote(es, 0).Quoted? && LatestQuote(es, 1).Quoted?
    && LatestQuote(es, 1).price >= LatestQuote(es, 0).price
  }

  /** Half of bid plus ask, rounded down. */
  predicate IsMidpoint(es: seq<Event>, m: int) {
    TwoSided(es) && 2 * m <= LatestQuote(es, 0).price + LatestQuote(es, 1).price < 2 * m + 2
  }

  /** After how many events the quotes were two-sided. */
  function Moments(es: seq<Event>): (ns: seq<nat>)
    ensures forall i :: 0 <= i < |ns| ==> ns[i] <= |es|
  {
    if es == [] then [] else Moments(es[..|es| - 1]) + if TwoSided(es) then [|es|] else []
  }

  function TradesOf(es: seq<Event>): seq<Event> {
    if es == [] then []
    else TradesOf(es[..|es| - 1]) + if es[|es| - 1].kind == MSG_MARKET_TRADE then [es[|es| - 1]] else []
  }

  /** Quantity traded in the last `w` trades. */
  function Traded(ts: seq<Event>, w: nat): nat {
    if ts == [] || w == 0 then 0 else Traded(ts[..|ts| - 1], w - 1) + ts[|ts| - 1].quantity
  }

  /** Money traded in the last `w` trades. */
  function Turnover(ts: seq<Event>, w: nat): nat {
    if ts == [] || w == 0 then 0 else Turnover(ts[..|ts| - 1], w - 1) + ts[|ts| - 1].price * ts[|ts| - 1].quantity
  }

  // ---- What the feature says ----

  predicate SideMeans(valid: bool, price: nat, quantity: nat, q: Quote) {
    if q.Quoted? then valid && price == q.price && quantity == q.quantity else !valid && price == 0 && quantity == 0
  }

  /** The quote part, while both sides are quoted and not crossed. */
  ghost predicate QuotesMean(c: Windows, es: seq<Event>, raw: Raw)
    requires c.Valid() && es != []
  {
    var bid, ask, earlier := LatestQuote(es, 0), LatestQuote(es, 1), Moments(es[..|es| - 1]);
    if TwoSided(es) then
      && raw.spreadValid && raw.spread + bid.price == ask.price
      && raw.midpointValid && IsMidpoint(es, raw.midpoint)
      && raw.imbalanceValid && raw.imbalanceNumerator + ask.quantity == bid.quantity
      && raw.imbalanceDenominator == bid.quantity + ask.quantity
      && (raw.momentumValid <==> |earlier| >= c.momentum)
    else
      && !raw.spreadValid && !raw.midpointValid && !raw.imbalanceValid && !raw.momentumValid
      && raw.spread == 0 && raw.midpoint == 0 && raw.momentum == 0
      && raw.imbalanceNumerator == 0 && raw.imbalanceDenominator == 0
  }

  /** The signed move since the midpoint `momentum` two-sided observations earlier, to which it is also scaled. */
  ghost predicate MomentumMeans(c: Windows, es: seq<Event>, raw: Raw, norm: Normalized)
    requires c.Valid() && es != []
  {
    var earlier := Moments(es[..|es| - 1]);
    if raw.momentumValid then
      && |earlier| >= c.momentum
      && exists m: nat ::
           && IsMidpoint(es[..earlier[|earlier| - c.momentum]], m) && raw.momentum + m == raw.midpoint
           && norm == Normalize(c.scales, raw, m)
    else raw.momentum == 0 && norm == Normalize(c.scales, raw, 0)
  }

  ghost predicate FeatureMeans(c: Windows, es: seq<Event>, f: Feature)
    requires c.Valid() && es != []
  {
    var ts := TradesOf(es);
    && f.symbol == es[|es| - 1].symbol && f.sequence == es[|es| - 1].sequence
    && SideMeans(f.book.bidValid, f.book.bidPrice, f.book.bidQuantity, LatestQuote(es, 0))
    && SideMeans(f.book.askValid, f.book.askPrice, f.book.askQuantity, LatestQuote(es, 1))
    && QuotesMean(c, es, f.raw) && MomentumMeans(c, es, f.raw, f.norm)
    && f.rollingVolume == Traded(ts, c.trade)
    && f.raw.sumQuantity == Traded(ts, c.vwap) && f.raw.sumPriceQuantity == Turnover(ts, c.vwap)
    && (f.raw.vwapValid <==> Traded(ts, c.vwap) > 0)
  }

  /** The outcome an event is due after the operations before it. */
  ghost predicate OutcomeMeans(c: Windows, ops: seq<Op>, e: Event, o: Outcome)
    requires c.Valid()
  {
    var es := AcceptedSince(c.symbols, ops, e.symbol);
    if Acceptable(c.symbols, es, e) then o.Produced? && FeatureMeans(c, es + [e], o.feature)
    else o == Refusal(c.symbols, es, e)
  }

  // ---- The model's histories say the same ----

  ghost predicate BookMeans(b: Book, es: seq<Event>) {
    && SideMeans(b.bidValid, b.bidPrice, b.bidQuantity, LatestQuote(es, 0))
    && SideMeans(b.askValid, b.askPrice, b.askQuantity, LatestQuote(es, 1))
    && b.sequenceValid == (es != []) && (es != [] ==> b.sequence == es[|es| - 1].sequence)
  }

  ghost predicate TradesMean(ts: seq<Trade>, es: seq<Event>) {
    SameTrades(ts, TradesOf(es))
  }

  ghost predicate MidsMean(mids: seq<nat>, es: seq<Event>) {
    && |mids| == |Moments(es)|
    && forall i :: 0 <= i < |mids| ==> IsMidpoint(es[..Moments(es)[i]], mids[i])
  }

  ghost predicate HistoryMeans(h: History, es: seq<Event>) {
    BookMeans(h.book, es) && TradesMean(h.trades, es) && MidsMean(h.mids, es)
  }

  lemma {:induction false} BookSnoc(b: Book, es: seq<Event>, e: Event)
    requires BookMeans(b, es) && (e.kind == MSG_MARKET_QUOTE || e.kind == MSG_MARKET_TRADE) && e.side <= 1
    ensures BookMeans(UpdateBook(b, e), es + [e])
  {
    assert (es + [e])[..|es|] == es;
  }

  lemma {:induction false} TradesSnoc(ts: seq<Trade>, es: seq<Event>, e: Event)
    requires TradesMean(ts, es) && (e.kind == MSG_MARKET_QUOTE || e.kind == MSG_MARKET_TRADE)
    ensures TradesMean(if e.kind == MSG_MARKET_QUOTE then ts else ts + [Trade(e.price, e.quantity)], es + [e])
  {
    assert (es + [e])[..|es|] == es;
  }

  lemma {:induction false} BookIsTwoSided(b: Book, es: seq<Event>)
    requires BookMeans(b, es)
    ensures b.QuotesValid() <==> TwoSided(es)
    ensures TwoSided(es) ==> IsMidpoint(es, Midpoint(b))
  {
    hide LatestQuote;
  }

  lemma {:induction false} MidsSnoc(mids: seq<nat>, es: seq<Event>, e: Event, b: Book)
    requires MidsMean(mids, es) && BookMeans(b, es + [e])
    ensures MidsMean(if b.QuotesValid() then mids + [Midpoint(b)] else mids, es + [e])
  {
    var all := es + [e];
    BookIsTwoSided(b, all);
    hide IsMidpoint, TwoSided, BookMeans, Midpoint;
    assert all[..|es|] == es && all[..|all|] == all;
    forall i | 0 <= i < |mids| ensures all[..Moments(es)[i]] == es[..Moments(es)[i]] {
    }
  }

  lemma {:induction false} RecordMeans(h: History, es: seq<Event>, e: Event)
    requires HistoryMeans(h, es) && (e.kind == MSG_MARKET_QUOTE || e.kind == MSG_MARKET_TRADE) && e.side <= 1
    ensures BookMeans(Recorded(h, e).book, es + [e]) && TradesMean(Recorded(h, e).trades, es + [e])
    ensures Recorded(h, e).mids == h.mids && HistoryMeans(Observed(Recorded(h, e)), es + [e])
  {
    hide BookMeans, TradesMean, MidsMean, UpdateBook, Midpoint, Book.QuotesValid;
    BookSnoc(h.book, es, e);
    TradesSnoc(h.trades, es, e);
    MidsSnoc(h.mids, es, e, Recorded(h, e).book);
  }

  // The two admission rules agree.
  lemma {:induction false} AdmissionAgrees(c: Windows, hs: seq<History>, es: seq<Event>, e: Event)
    requires |hs| == c.symbols && (e.symbol < c.symbols ==> BookMeans(hs[e.symbol].book, es))
    ensures
      var r := ProcessHistory(c, hs, e);
      if Acceptable(c.symbols, es, e) then
        var h := Recorded(hs[e.symbol], e);
        r == HistoryStep(hs[e.symbol := Observed(h)], Produced(HistoryFeature(c, h, e)))
      else r == HistoryStep(hs, Refusal(c.symbols, es, e))
  {
    hide HistoryFeature, Recorded, Observed, LatestQuote;
  }

  lemma {:induction false} HistoriesMean(c: Windows, ops: seq<Op>, s: nat)
    requires c.Valid() && s < c.symbols
    ensures HistoryMeans(Histories(c, ops)[s], AcceptedSince(c.symbols, ops, s))
    decreases |ops|
  {
    if ops != [] {
      var front, last := ops[..|ops| - 1], ops[|ops| - 1];
      HistoriesMean(c, front, s);
      hide HistoryMeans, ProcessHistory, Recorded, Observed, Acceptable;
      NothingMeans();
      if last.Take? && last.event.symbol < c.symbols {
        var e := last.event;
        HistoriesMean(c, front, e.symbol);
        var es := AcceptedSince(c.symbols, front, e.symbol);
        HistoryBook(Histories(c, front)[e.symbol], es);
        AdmissionAgrees(c, Histories(c, front), es, e);
        if Acceptable(c.symbols, es, e) {
          AcceptableFields(c.symbols, es, e);
          RecordMeans(Histories(c, front)[e.symbol], es, e);
        }
      } else if last.Take? {
        AdmissionAgrees(c, Histories(c, front), [], last.event);
        UnknownIsRefused(c.symbols, [], last.event);
      }
    } else {
      NothingMeans();
    }
  }

  lemma {:induction false} NothingMeans()
    ensures HistoryMeans(NoHistory, [])
  {
  }

  lemma {:induction false} HistoryBook(h: History, es: seq<Event>)
    requires HistoryMeans(h, es)
    ensures BookMeans(h.book, es)
  {
  }

  lemma {:induction false} AcceptableFields(symbols: nat, es: seq<Event>, e: Event)
    requires Acceptable(symbols, es, e)
    ensures (e.kind == MSG_MARKET_QUOTE || e.kind == MSG_MARKET_TRADE) && e.side <= 1
  {
  }

  lemma {:induction false} UnknownIsRefused(symbols: nat, es: seq<Event>, e: Event)
    requires e.symbol >= symbols
    ensures !Acceptable(symbols, es, e)
  {
  }

  // ---- The features of a history ----

  ghost predicate SameTrades(ts: seq<Trade>, es: seq<Event>) {
    |ts| == |es| && forall i :: 0 <= i < |ts| ==> ts[i].price == es[i].price && ts[i].quantity == es[i].quantity
  }

  lemma {:induction false} SameTradesFront(ts: seq<Trade>, es: seq<Event>)
    requires SameTrades(ts, es) && ts != []
    ensures |es| == |ts| && SameTrades(ts[..|ts| - 1], es[..|es| - 1])
    ensures ts[|ts| - 1].price == es[|es| - 1].price && ts[|ts| - 1].quantity == es[|es| - 1].quantity
  {
  }

  lemma {:induction false} LatestTail(ts: seq<Trade>, w: nat)
    ensures Latest(ts, w) == if ts == [] || w == 0 then [] else Latest(ts[..|ts| - 1], w - 1) + [ts[|ts| - 1]]
  {
  }

  lemma {:induction false} NoSums()
    ensures Sum(Quantities([])) == 0 && Sum(Values([])) == 0
  {
  }

  lemma {:induction false} WindowSums(ts: seq<Trade>, es: seq<Event>, w: nat)
    requires SameTrades(ts, es)
    ensures Sum(Quantities(Latest(ts, w))) == Traded(es, w) && Sum(Values(Latest(ts, w))) == Turnover(es, w)
    decreases |ts|
  {
    hide Sum, Quantities, Values, SameTrades, Latest;
    LatestTail(ts, w);
    if ts == [] { EmptyTrades(ts, es); }
    if ts != [] && w > 0 {
      var last := |ts| - 1;
      var front, t := Latest(ts[..last], w - 1), ts[last];
      SameTradesFront(ts, es);
      WindowSums(ts[..last], es[..last], w - 1);
      ColumnsSnoc(front, t);
      SumSnoc(Quantities(front), t.quantity);
      var value: nat := t.price * t.quantity;
      SumSnoc(Values(front), value);
      assert value == es[|es| - 1].price * es[|es| - 1].quantity;
    } else {
      NoSums();
    }
  }

  lemma {:induction false} EmptyTrades(ts: seq<Trade>, es: seq<Event>)
    requires SameTrades(ts, es) && ts == []
    ensures es == []
  {
  }

  lemma {:induction false} ReferenceUnused(c: Scales, raw: Raw, reference: nat)
    ensures !raw.momentumValid ==> Normalize(c, raw, reference) == Normalize(c, raw, 0)
  {
  }

  lemma {:induction false} RawMeans(c: Windows, b: Book, mids: seq<nat>, es: seq<Event>, sumPriceQuantity: nat,
      sumQuantity: nat)
    requires c.Valid() && es != [] && BookMeans(b, es) && MidsMean(mids, es[..|es| - 1])
    ensures
      var warm := |mids| >= c.momentum;
      var reference := if warm then mids[|mids| - c.momentum] else 0;
      var raw := RawOf(b, warm, reference, sumPriceQuantity, sumQuantity);
      QuotesMean(c, es, raw) && MomentumMeans(c, es, raw, Normalize(c.scales, raw, reference))
  {
    hide LatestQuote, Moments, Normalize;
    var reference := if |mids| >= c.momentum then mids[|mids| - c.momentum] else 0;
    var raw := RawOf(b, |mids| >= c.momentum, reference, sumPriceQuantity, sumQuantity);
    ReferenceUnused(c.scales, raw, reference);
    BookIsTwoSided(b, es);
    var front := es[..|es| - 1];
    if |mids| >= c.momentum {
      var n := Moments(front)[|mids| - c.momentum];
      assert es[..n] == front[..n];
      assert IsMidpoint(es[..n], mids[|mids| - c.momentum]);
    }
  }

  lemma {:induction false} FeatureFields(c: Windows, h: History, e: Event)
    requires c.Valid()
    ensures
      var warm := |h.mids| >= c.momentum;
      var reference := if warm then h.mids[|h.mids| - c.momentum] else 0;
      var f := HistoryFeature(c, h, e);
      && f.symbol == e.symbol && f.sequence == e.sequence && f.book == h.book
      && f.rollingVolume == Sum(Quantities(Latest(h.trades, c.trade)))
      && f.raw == RawOf(h.book, warm, reference, Sum(Values(Latest(h.trades, c.vwap))),
           Sum(Quantities(Latest(h.trades, c.vwap))))
      && f.norm == Normalize(c.scales, f.raw, reference)
  {
    hide Sum, Quantities, Values, Latest, Normalize, RawOf;
  }

  lemma {:induction false} RawSums(b: Book, warm: bool, reference: nat, sumPriceQuantity: nat, sumQuantity: nat)
    ensures
      var raw := RawOf(b, warm, reference, sumPriceQuantity, sumQuantity);
      raw.sumPriceQuantity == sumPriceQuantity && raw.sumQuantity == sumQuantity && raw.vwapValid == (sumQuantity > 0)
  {
  }

  lemma {:induction false} BookSides(b: Book, es: seq<Event>)
    requires BookMeans(b, es)
    ensures SideMeans(b.bidValid, b.bidPrice, b.bidQuantity, LatestQuote(es, 0))
    ensures SideMeans(b.askValid, b.askPrice, b.askQuantity, LatestQuote(es, 1))
  {
  }

  lemma {:induction false} HistoryFeatureMeans(c: Windows, h: History, es: seq<Event>, e: Event)
    requires c.Valid() && BookMeans(h.book, es + [e]) && TradesMean(h.trades, es + [e]) && MidsMean(h.mids, es)
    ensures FeatureMeans(c, es + [e], HistoryFeature(c, h, e))
  {
    hide *;
    MomentumWindow(c);
    var all := es + [e];
    assert all[..|all| - 1] == es;
    TradesAre(h.trades, all);
    WindowSums(h.trades, TradesOf(all), c.trade);
    WindowSums(h.trades, TradesOf(all), c.vwap);
    var value, quantity := Sum(Values(Latest(h.trades, c.vwap))), Sum(Quantities(Latest(h.trades, c.vwap)));
    RawMeans(c, h.book, h.mids, all, value, quantity);
    FeatureFields(c, h, e);
    RawSums(h.book, |h.mids| >= c.momentum, if |h.mids| >= c.momentum then h.mids[|h.mids| - c.momentum] else 0,
      value, quantity);
    BookSides(h.book, all);
    FeatureFrom(c, all, HistoryFeature(c, h, e));
  }

  lemma {:induction false} MomentumWindow(c: Windows)
    requires c.Valid()
    ensures c.momentum >= 1
  {
  }

  lemma {:induction false} TradesAre(ts: seq<Trade>, es: seq<Event>)
    requires TradesMean(ts, es)
    ensures SameTrades(ts, TradesOf(es))
  {
  }

  lemma {:induction false} FeatureFrom(c: Windows, es: seq<Event>, f: Feature)
    requires c.Valid() && es != [] && f.symbol == es[|es| - 1].symbol && f.sequence == es[|es| - 1].sequence
    requires SideMeans(f.book.bidValid, f.book.bidPrice, f.book.bidQuantity, LatestQuote(es, 0))
    requires SideMeans(f.book.askValid, f.book.askPrice, f.book.askQuantity, LatestQuote(es, 1))
    requires QuotesMean(c, es, f.raw) && MomentumMeans(c, es, f.raw, f.norm)
    requires f.rollingVolume == Traded(TradesOf(es), c.trade)
    requires f.raw.sumQuantity == Traded(TradesOf(es), c.vwap)
    requires f.raw.sumPriceQuantity == Turnover(TradesOf(es), c.vwap) && f.raw.vwapValid == (f.raw.sumQuantity > 0)
    ensures FeatureMeans(c, es, f)
  {
    hide SideMeans, LatestQuote, QuotesMean, MomentumMeans, TradesOf, Traded, Turnover;
  }

  /**
    At every event of every run, slot resets included: an event that counts yields a feature that means what its
    symbol's accepted events since the last reset say; any other is refused for its first fault.
   */
  lemma {:induction false} FeaturesMean(c: Windows, ops: seq<Op>, e: Event)
    requires c.Valid()
    ensures
      var before, t := Replay(c, ops), Replay(c, ops + [Take(e)]);
      && |t.outcomes| == |before.outcomes| + 1 && t.outcomes[..|before.outcomes|] == before.outcomes
      && OutcomeMeans(c, ops, e, t.outcomes[|before.outcomes|])
  {
    hide FeatureMeans, Acceptable, ProcessEvent, ProcessHistory, Represents, HistoryFeature, Recorded, FreshSymbol;
    ReplaySnoc(c, ops, Take(e));
    ReplayRepresents(c, ops);
    var hs, es := Histories(c, ops), AcceptedSince(c.symbols, ops, e.symbol);
    ProcessRefines(c, Replay(c, ops).symbols, hs, e);
    if e.symbol < c.symbols {
      HistoriesMean(c, ops, e.symbol);
      HistoryBook(hs[e.symbol], es);
      AdmissionAgrees(c, hs, es, e);
      if Acceptable(c.symbols, es, e) {
        AcceptableFields(c.symbols, es, e);
        RecordMeans(hs[e.symbol], es, e);
        HistoryFeatureMeans(c, Recorded(hs[e.symbol], e), es, e);
      }
    } else {
      UnknownIsRefused(c.symbols, es, e);
      AdmissionAgrees(c, hs, es, e);
    }
  }

  // ---- Whole runs ----

  /** One outcome for each event among the operations, in order, each meaning what it should. */
  ghost predicate OutcomesMean(c: Windows, ops: seq<Op>, os: seq<Outcome>)
    requires c.Valid()
  {
    if ops == [] then os == []
    else
      var front := ops[..|ops| - 1];
      match ops[|ops| - 1]
      case Take(e) =>
        os != [] && OutcomesMean(c, front, os[..|os| - 1]) && OutcomeMeans(c, front, e, os[|os| - 1])
      case Clear(_) => OutcomesMean(c, front, os)
  }

  lemma {:induction false} ReplayMeans(c: Windows, ops: seq<Op>)
    requires c.Valid()
    ensures OutcomesMean(c, ops, Replay(c, ops).outcomes)
    decreases |ops|
  {
    if ops != [] {
      hide FeatureMeans, Acceptable, ProcessEvent, AcceptedSince;
      var front, last := ops[..|ops| - 1], ops[|ops| - 1];
      ReplayMeans(c, front);
      assert ops == front + [last];
      if last.Take? { FeaturesMean(c, front, last.event); }
    }
  }

  /**
    The hardware: for every run from reset, the outcomes emitted, with the feature still held if there is one, are
    those that the events taken are due, short of at most the one in flight.
   */
  lemma {:induction false} EngineOutcomesMean(c: Windows, bank: seq<Slot>, ins: seq<EngineIn>)
    requires Buildable(c) && PoweredUp(c, bank) && WidthsHold(ins)
    ensures c.Valid() && Shaped(c, ResetEngine(bank))
    ensures
      var m := RunEngine(c, PowerUp(bank), ins);
      exists os ::
        && OutcomesMean(c, m.ports.taken, os) && |os| - 1 <= |m.ports.emitted| <= |os|
        && m.ports.emitted == os[..|m.ports.emitted|]
        && (m.engine.featureValid ==> os == m.ports.emitted + [Produced(m.engine.feature)])
        && (m.engine.stage.Idle? ==> os == m.ports.emitted)
  {
    hide OutcomesMean, RunEngine, Replay, Shaped;
    BuildableIsValid(c);
    EngineRefinesModel(c, bank, ins);
    ReplayMeans(c, RunEngine(c, PowerUp(bank), ins).ports.taken);
  }
}
