// A replay that raises, worked out from its market events.
module BacktestStranding {
  import opened ProtocolDefs
  import opened Bits
  import opened MarketTypes
  import opened Execution
  import opened Portfolio
  import opened BacktestReplay
  import opened BacktestPipeline
  import M = MarketModel
  import S = StrategyModel

  // ---- The default configurations, but windows of one observation and the strategy switched on ----

  const Thresholds := S.Config(true, true, true, 100, -100, 100, -100, 1638, -1638, 500, 1, 4, [true, true])
  const Setting := Setup(Windows(2, 1, 1, 1, Scales(1000000, 15)), Thresholds, true)
  const Desked :=
    PortfolioConfig(100000.0, FixedNotional(10000.0), None, false, true, false, true, None, None, None, true, None)
  const Free := ExecutionConfig(0, 0, 0.0, 0.0, 0.0, 0.0)

  // ---- Two mornings in New York ----

  const Tuesday := 20240102
  const Wednesday := 20240103
  const T0 := 1704207600000000000
  const T1 := 1704294000000000000

  const Trade0 := Event(MSG_MARKET_TRADE, 0, 99960000, 1, 0, 1)
  const Bid0 := Event(MSG_MARKET_QUOTE, 0, 99960000, 3, 0, 2)
  const Ask0 := Event(MSG_MARKET_QUOTE, 0, 99970000, 1, 1, 3)
  const Rise0 := Event(MSG_MARKET_QUOTE, 0, 100000000, 1, 1, 4)
  const Empty0 := Event(MSG_MARKET_QUOTE, 0, 99960000, 0, 0, 5)
  const Bid1 := Event(MSG_MARKET_QUOTE, 1, 50000000, 1, 0, 1)

  /** The ask rises and the strategy buys; the bid empties; the next day never mentions the symbol. */
  const Feeds := [
    Feed(Tuesday, T0, Trade0), Feed(Tuesday, T0 + 1, Bid0), Feed(Tuesday, T0 + 2, Ask0),
    Feed(Tuesday, T0 + 3, Rise0), Feed(Tuesday, T0 + 4, Empty0), Feed(Wednesday, T1, Bid1)]

  // ---- What the market model makes of them ----

  const Traded := 99960000

  /** Symbol 0 after its one trade: a book, and the latest valid midpoint if there was one. */
  function Quoted(b: Book, mids: nat, mid: nat): M.Symbol {
    M.Symbol(M.Word(b, 1, 0, 1, 0, mids, Traded, 1, 0, 1), M.Rings([1], [mid], [Traded], [1]))
  }

  lemma {:induction false} QuotedValid(b: Book, mids: nat, mid: nat)
    requires mids <= 1
    ensures Quoted(b, mids, mid).Valid(Setting.windows)
  {
    var s := Quoted(b, mids, mid);
    assert s.rings.trade[..1][..0] == [] && s.rings.priceQuantity[..1][..0] == [] && s.rings.quantity[..1][..0] == [];
  }

  function RawAt(b: Book, mids: nat, mid: nat): Raw {
    RawOf(b, mids == 1, if mids == 1 then mid else 0, Traded, 1)
  }

  function Featured(b: Book, mids: nat, mid: nat, e: Event): Feature {
    var raw := RawAt(b, mids, mid);
    Feature(e.symbol, e.sequence, b, 1, raw, Normalize(Setting.windows.scales, raw, if mids == 1 then mid else 0))
  }

  lemma {:induction false} TradeTaken()
    ensures
      var c, s := Setting.windows, M.FreshSymbol(Setting.windows);
      && s.Valid(c)
      && var t := M.Apply(c, s, Trade0);
        M.Observe(c, t) == Quoted(UpdateBook(EmptyBook, Trade0), 0, 0)
        && M.FeatureOf(c, t, Trade0).raw == RawAt(UpdateBook(EmptyBook, Trade0), 0, 0)
  {
    var c, s := Setting.windows, M.FreshSymbol(Setting.windows);
    FreshIsValid(c);
    assert s.rings == M.Rings([0], [0], [0], [0]);
    assert [0][0 := 1] == [1] && [0][0 := Traded] == [Traded];
  }

  lemma {:induction false} QuoteTaken(b: Book, mids: nat, mid: nat, e: Event)
    requires mids <= 1 && e.kind == MSG_MARKET_QUOTE
    ensures
      var c, s, b' := Setting.windows, Quoted(b, mids, mid), UpdateBook(b, e);
      var ok := b'.QuotesValid();
      && s.Valid(c)
      && var t := M.Apply(c, s, e);
        M.Observe(c, t) == Quoted(b', if ok then 1 else mids, if ok then Midpoint(b') else mid)
        && M.FeatureOf(c, t, e) == Featured(b', mids, mid, e)
  {
    hide RawOf, Normalize;
    QuotedValid(b, mids, mid);
    var c, b' := Setting.windows, UpdateBook(b, e);
    assert M.Apply(c, Quoted(b, mids, mid), e) == Quoted(b', mids, mid);
    assert [mid][0 := Midpoint(b')] == [Midpoint(b')];
  }

  // ---- What the strategy makes of the features ----

  lemma {:induction false} StaysSilent(f: Feature)
    requires f.norm.momentumBpsValid ==> -100 < f.norm.momentumBps < 100
    ensures
      var e := S.EvaluateSymbol(Thresholds, true, S.Disarmed, f);
      e.signal.action == S.NoDirection && e.memory == S.Disarmed
    ensures forall m :: S.EvaluateSymbol(Thresholds, true, m, f).signal.action == S.NoDirection
  {
    hide S.Passes, S.ReasonBits, S.CountTrue, S.FeatureSetValid;
    assert S.LongPass(Thresholds, f)[0] == false && S.ShortPass(Thresholds, f)[0] == false;
    assert S.RawDirection(Thresholds, f) == S.NoDirection;
  }

  lemma {:induction false} Fires(f: Feature)
    requires f.norm == Normalized(Traded, true, 16384, true, 400, true, 150, true, 20000, true, 200, true)
    requires f.rollingVolume == 1
    ensures S.EvaluateSymbol(Thresholds, true, S.Disarmed, f).signal.action == S.Long
  {
    hide S.Passes, S.ReasonBits, S.CountTrue;
    assert S.LongPass(Thresholds, f) == [true, true, true, true, true];
  }

  const BidBook := UpdateBook(UpdateBook(EmptyBook, Trade0), Bid0)
  const AskBook := UpdateBook(BidBook, Ask0)
  const RiseBook := UpdateBook(AskBook, Rise0)
  const EmptyBid := UpdateBook(RiseBook, Empty0)

  lemma {:induction false} InRange(x: int, width: nat)
    requires width == 16 || width == 32
    requires -30000 < x < 30000
    ensures Saturate(x, width) == x
  {
    Pow2Values();
  }

  lemma {:induction false} Ratio(n: nat, d: nat, q: nat, r: nat)
    requires n == q * d + r && r < d
    ensures TruncDiv(n, d) == q && n / d == q && Quotient(n, d) == q
  {
    ModUnique(n, q, r, d);
  }

  lemma {:induction false} RiseIsScaled()
    ensures
      var f := Featured(RiseBook, 1, 99965000, Rise0);
      && f.norm == Normalized(Traded, true, 16384, true, 400, true, 150, true, 20000, true, 200, true)
      && f.rollingVolume == 1
  {
    hide Pow2, Saturate, TruncDiv, Quotient;
    Ratio(Traded, 1, Traded, 0);
    Pow2Values();
    Ratio(2 * Pow2(15), 4, 16384, 0);
    Ratio(40000 * 1000000, 99980000, 400, 8000000);
    Ratio(15000 * 1000000, 99965000, 150, 5250000);
    Ratio(20000 * 1000000, Traded, 200, 8000000);
    InRange(16384, 16);
    InRange(400, 32);
    InRange(150, 32);
    InRange(200, 32);
  }

  // ---- The items of the replay ----

  ghost function Holding(s: M.Symbol, memory: S.Memory): Models {
    Models([s, M.FreshSymbol(Setting.windows)], [memory, S.Disarmed], Some(Tuesday))
  }

  ghost predicate Sees(i: Item, x: Feed, b: Book) {
    && i.session == x.session && i.timestamp == x.timestamp && i.accepted && i.isQuote
    && i.feature.symbol == x.event.symbol && i.feature.book == b && i.feature.raw.spreadValid == b.QuotesValid()
  }

  /** A quote of symbol 0, with both models in known states. */
  lemma {:induction false} QuoteFed(b: Book, mids: nat, mid: nat, memory: S.Memory, x: Feed)
    requires mids <= 1 && x.event.kind == MSG_MARKET_QUOTE && x.event.symbol == 0 && x.event.side <= 1
    requires b.sequenceValid && b.sequence < x.event.sequence && x.session == Tuesday
    ensures
      var b' := UpdateBook(b, x.event);
      var ok, f := b'.QuotesValid(), Featured(b', mids, mid, x.event);
      var m, e := Holding(Quoted(b, mids, mid), memory), S.EvaluateSymbol(Thresholds, true, memory, f);
      && m.Valid(Setting)
      && var (n, i) := Fed(Setting, m, x);
        && n == Holding(Quoted(b', if ok then 1 else mids, if ok then Midpoint(b') else mid), e.memory)
        && Sees(i, x, b') && i.action == ActionOf(e.signal.action)
  {
    hide M.Apply, M.Observe, M.FeatureOf, S.EvaluateSymbol, Normalize;
    QuoteTaken(b, mids, mid, x.event);
    FreshIsValid(Setting.windows);
    var c, s := Setting.windows, Quoted(b, mids, mid);
    var m := Holding(s, memory);
    var t := M.Observe(c, M.Apply(c, s, x.event));
    assert m.symbols[0 := t] == [t, m.symbols[1]];
    var e := S.EvaluateSymbol(Thresholds, true, memory, Featured(UpdateBook(b, x.event), mids, mid, x.event));
    assert m.memories[0 := e.memory] == [e.memory, S.Disarmed];
  }

  lemma {:induction false} TwoFresh(session: Option<int>)
    ensures FreshModels(Setting, session)
         == Models([M.FreshSymbol(Setting.windows), M.FreshSymbol(Setting.windows)], [S.Disarmed, S.Disarmed], session)
  {
    hide M.FreshSymbol;
    var m := FreshModels(Setting, session);
    assert |m.symbols| == 2 && |m.memories| == 2;
    assert m.symbols == [M.FreshSymbol(Setting.windows), M.FreshSymbol(Setting.windows)];
    assert m.memories == [S.Disarmed, S.Disarmed];
  }

  lemma {:induction false} TradeFed()
    ensures
      var (n, i) := Fed(Setting, FreshModels(Setting, None), Feeds[0]);
      && n == Holding(Quoted(UpdateBook(EmptyBook, Trade0), 0, 0), S.Disarmed)
      && i.accepted && !i.isQuote && i.action == NoAction && i.session == Tuesday && i.feature.symbol == 0
  {
    hide M.Apply, M.Observe, M.FeatureOf, S.EvaluateSymbol, Normalize;
    hide FreshModels, M.FreshSymbol;
    TradeTaken();
    TwoFresh(None);
    FreshIsEmpty(Setting.windows);
    var c, m := Setting.windows, FreshModels(Setting, None);
    var t := M.Apply(c, M.FreshSymbol(c), Trade0);
    assert m.symbols[0 := M.Observe(c, t)] == [M.Observe(c, t), m.symbols[1]];
    var f := M.FeatureOf(c, t, Trade0);
    ColdFeature(c, t, Trade0);
    StaysSilent(f);
    assert m.memories[0 := S.Disarmed] == m.memories;
  }

  lemma {:induction false} FreshIsEmpty(c: Windows)
    ensures M.FreshSymbol(c).word == M.EmptyWord
  {
  }

  lemma {:induction false} ColdFeature(c: Windows, s: M.Symbol, e: Event)
    requires s.Valid(c) && !s.word.book.QuotesValid()
    ensures !M.FeatureOf(c, s, e).norm.momentumBpsValid && M.FeatureOf(c, s, e).symbol == e.symbol
  {
  }

  lemma {:induction false} NextDayFed(m: Models)
    requires m.Valid(Setting) && m.session == Some(Tuesday)
    ensures
      var i := Fed(Setting, m, Feeds[5]).1;
      && i.accepted && i.isQuote && i.action == NoAction && i.session == Wednesday && i.timestamp == T1
      && i.feature.symbol == 1
  {
    hide M.Apply, M.Observe, M.FeatureOf, S.EvaluateSymbol, Normalize;
    hide FreshModels, M.FreshSymbol;
    TwoFresh(Some(Wednesday));
    FreshIsValid(Setting.windows);
    var c := Setting.windows;
    FreshIsEmpty(c);
    var t := M.Apply(c, M.FreshSymbol(c), Bid1);
    ColdFeature(c, t, Bid1);
    StaysSilent(M.FeatureOf(c, t, Bid1));
  }

  lemma {:induction false} Books()
    ensures
      var b0 := UpdateBook(EmptyBook, Trade0);
      && b0.sequenceValid && b0.sequence == 1 && BidBook.sequenceValid && BidBook.sequence == 2
      && AskBook.sequenceValid && AskBook.sequence == 3 && RiseBook.sequenceValid && RiseBook.sequence == 4
      && !BidBook.QuotesValid() && AskBook.QuotesValid() && RiseBook.QuotesValid()
      && Midpoint(AskBook) == 99965000 && Midpoint(RiseBook) == 99980000
  {
  }

  lemma {:induction false} FeedsBecome() returns (items: seq<Item>)
    ensures items == ItemsOf(Setting, Feeds) && |items| == 6
    ensures items[0].accepted && !items[0].isQuote && items[0].action == NoAction
    ensures items[0].session == Tuesday && items[0].feature.symbol == 0
    ensures Sees(items[1], Feeds[1], BidBook) && items[1].action == NoAction
    ensures Sees(items[2], Feeds[2], AskBook) && items[2].action == NoAction
    ensures Sees(items[3], Feeds[3], RiseBook) && items[3].action == LongCandidate
    ensures Sees(items[4], Feeds[4], EmptyBid) && items[4].action == NoAction
    ensures items[5].accepted && items[5].isQuote && items[5].action == NoAction
    ensures items[5].session == Wednesday && items[5].timestamp == T1 && items[5].feature.symbol == 1
  {
    hide Fed, S.EvaluateSymbol, UpdateBook, Featured, Quoted, Midpoint, FreshModels, M.FreshSymbol, Normalize;
    Books();
    items := ItemsOf(Setting, Feeds);
    forall k | 0 <= k < 6
      ensures items[k] == Fed(Setting, ModelsAfter(Setting, Feeds[..k]), Feeds[k]).1
      ensures ModelsAfter(Setting, Feeds[..k + 1]) == Fed(Setting, ModelsAfter(Setting, Feeds[..k]), Feeds[k]).0
    {
      ItemsExtend(Setting, Feeds, k);
    }
    assert ModelsAfter(Setting, Feeds[..0]) == FreshModels(Setting, None);
    TradeFed();
    QuoteFed(UpdateBook(EmptyBook, Trade0), 0, 0, S.Disarmed, Feeds[1]);
    ColdWindow(BidBook, Bid0);
    StaysSilent(Featured(BidBook, 0, 0, Bid0));
    QuoteFed(BidBook, 0, 0, S.Disarmed, Feeds[2]);
    ColdWindow(AskBook, Ask0);
    StaysSilent(Featured(AskBook, 0, 0, Ask0));
    QuoteFed(AskBook, 1, 99965000, S.Disarmed, Feeds[3]);
    RiseIsScaled();
    Fires(Featured(RiseBook, 1, 99965000, Rise0));
    QuoteFed(RiseBook, 1, 99980000,
      S.EvaluateSymbol(Thresholds, true, S.Disarmed, Featured(RiseBook, 1, 99965000, Rise0)).memory, Feeds[4]);
    EmptiedIsFlat();
    StaysSilent(Featured(EmptyBid, 1, 99980000, Empty0));
    NextDayFed(ModelsAfter(Setting, Feeds[..5]));
  }

  lemma {:induction false} ColdWindow(b: Book, e: Event)
    ensures !Featured(b, 0, 0, e).norm.momentumBpsValid
  {
  }

  // The bid keeps its price as it empties, so the midpoint does not move.
  lemma {:induction false} EmptiedIsFlat()
    ensures Featured(EmptyBid, 1, 99980000, Empty0).norm.momentumBps == 0
  {
    Ratio(0, 99980000, 0, 0);
    InRange(0, 32);
    hide Saturate, TruncDiv;
  }

  // ---- What the books make of the items ----

  const Shares := Position(0, LongPosition, 100, 100000000, 0.0, T0 + 3, T0 + 3)
  const Bought := Account(90000.0, [Shares], {}, map[], [], 0.0)
  const BuyOrder := Order(1, 0, Buy, Entry, LongPosition, 100, T0 + 3, T0 + 3, T0 + 3, NoReason)
  const BuyFill := Fill(BuyOrder, T0 + 3, 100000000, 100000000, 0.0)

  lemma {:induction false} NoRisk(d: Desk, ps: seq<Position>, t: nat, f: Feature, isQuote: bool)
    ensures RiskSwept(Desked, Free, d, ps, t, f, isQuote) == Moved(d, [])
  {
    if ps != [] {
      NoRisk(d, ps[..|ps| - 1], t, f, isQuote);
      assert RiskReason(Desked, t, f, ps[|ps| - 1], isQuote) == NoReason;
    }
  }

  // With no order pending and no stop configured, an event changes only what the driver remembers and what its
  // candidate does.
  lemma {:induction false} CandidateActs(s: State, i: Item)
    requires s.Running? && s.desk.book.pending == []
    ensures
      var f, t := i.feature, i.timestamp;
      Accepted(Desked, Free, s, i) ==
        Moving(s.(last := s.last[f.symbol := f]),
               ConsiderCandidate(Desked, Free, s.desk, Candidate(t, f.symbol, i.action, f), i.isQuote))
  {
    var d := s.desk;
    assert QuoteSeen(Free, d, i.timestamp, i.feature) == Moved(d, []);
    NoRisk(d, d.account.positions, i.timestamp, i.feature, i.isQuote);
    hide QuoteSeen, RiskSwept, ConsiderCandidate;
    assert s.filled + [] == s.filled;
  }

  lemma {:induction false} NothingHappens(s: State, i: Item)
    requires s.Running? && s.desk.book.pending == [] && i.action == NoAction
    ensures Accepted(Desked, Free, s, i) == s.(last := s.last[i.feature.symbol := i.feature])
  {
    CandidateActs(s, i);
    hide Accepted;
    assert s.filled + [] == s.filled;
  }

  lemma {:induction false} OrdersAHundred(f: Feature)
    requires f.symbol == 0 && f.book == RiseBook
    ensures EntryOrder(Desked, Free, Desk(Opening(Desked), NoOrders), Candidate(T0 + 3, 0, LongCandidate, f),
      LongPosition)
         == Some(BuyOrder)
  {
    assert (10000.0 * 1000000.0 / 100000000.0).Floor == 100;
    assert Dollars(100000000, 100) == 10000.0;
  }

  lemma {:induction false} BuyApplies()
    ensures ApplyFills(Opening(Desked).(pending := {0}, pendingIds := map[0 := 1]), [BuyFill]) == Bought
  {
    assert [BuyFill][..0] == [];
    assert Dollars(100000000, 100) == 10000.0;
    hide Dollars;
  }

  lemma {:induction false} BuySubmits(f: Feature)
    requires f.symbol == 0 && f.book == RiseBook && f.raw.spreadValid
    ensures Submit(Free, OrderBook(2, [], []), BuyOrder, T0 + 3, f, true, false) ==
      Result(OrderBook(2, [], []), [BuyFill])
  {
    assert SlippageBps(Free, 100000000) == 0;
  }

  lemma {:induction false} BuyIsPlaced(f: Feature)
    requires f.symbol == 0 && f.book == RiseBook && f.raw.spreadValid
    ensures Placed(Free, Desk(Opening(Desked), NoOrders), BuyOrder, T0 + 3, f, true, false)
         == Moved(Desk(Opening(Desked).(pending := {0}, pendingIds := map[0 := 1]), OrderBook(2, [], [])), [BuyFill])
  {
    hide Submit, Placed, Opening, UpdateBook;
    var a, d := Opening(Desked), Desk(Opening(Desked), NoOrders);
    OpeningIs();
    assert a.pending + {0} == {0} && a.pendingIds[0 := 1] == map[0 := 1];
    BuySubmits(f);
    PlacedIs(Free, d, BuyOrder, T0 + 3, f, true, false);
    var m := Placed(Free, d, BuyOrder, T0 + 3, f, true, false);
    assert m.fills == [BuyFill];
    assert m.desk.book == OrderBook(2, [], []);
    assert m.desk.account.pending == {0};
    assert m.desk.account.pendingIds == map[0 := 1];
  }

  lemma {:induction false} PlacedIs(ec: ExecutionConfig, d: Desk, o: Order, t: nat, f: Feature, isQuote: bool,
      forced: bool)
    requires ec.Valid()
    ensures
      var r := Submit(ec, d.book.(nextId := d.book.nextId + 1), o, t, f, isQuote, forced);
      Placed(ec, d, o, t, f, isQuote, forced) ==
        Moved(Desk(d.account.(pending := d.account.pending + {o.symbol},
          pendingIds := d.account.pendingIds[o.symbol := o.id]), r.book), r.fills)
  {
  }

  lemma {:induction false} OpeningIs()
    ensures Opening(Desked).pending == {} && Opening(Desked).pendingIds == map[]
    ensures NoOrders.(nextId := NoOrders.nextId + 1) == OrderBook(2, [], []) && BuyOrder.symbol == 0
      && BuyOrder.id == 1 && Free.Valid()
  {
  }

  lemma {:induction false} FillsAtTheAsk(f: Feature)
    requires f.symbol == 0 && f.book == RiseBook && f.raw.spreadValid
    ensures PlacedAndApplied(Free, Desk(Opening(Desked), NoOrders), BuyOrder, T0 + 3, f, true)
         == Moved(Desk(Bought, OrderBook(2, [], [])), [BuyFill])
  {
    hide Placed, ApplyFills, UpdateBook, Opening;
    BuyIsPlaced(f);
    BuyApplies();
  }

  lemma {:induction false} ConsiderBuys(f: Feature)
    requires f.symbol == 0 && f.book == RiseBook && f.raw.spreadValid
    ensures ConsiderCandidate(Desked, Free, Desk(Opening(Desked), NoOrders), Candidate(T0 + 3, 0, LongCandidate, f),
      true)
         == Moved(Desk(Bought, OrderBook(2, [], [])), [BuyFill])
  {
    OrdersAHundred(f);
    FillsAtTheAsk(f);
    hide EntryOrder, PlacedAndApplied, ExitOrder;
  }

  lemma {:induction false} BuysAtOnce(s: State, i: Item)
    requires s.Running? && s.desk == Desk(Opening(Desked), NoOrders) && s.filled == []
    requires Sees(i, Feeds[3], RiseBook) && i.action == LongCandidate
    ensures Accepted(Desked, Free, s, i)
         == s.(last := s.last[0 := i.feature], desk := Desk(Bought, OrderBook(2, [], [])), filled := [BuyFill])
  {
    Books();
    CandidateActs(s, i);
    ConsiderBuys(i.feature);
    hide Accepted, ConsiderCandidate, UpdateBook;
    assert [] + [BuyFill] == [BuyFill];
  }

  /** The forced exit finds no bid, waits, and is dropped with the session. */
  lemma {:induction false} ExitIsDropped(s: State, f: Feature)
    requires s.Running? && s.desk == Desk(Bought, OrderBook(2, [], [])) && s.filled == [BuyFill]
    requires s.last.Keys == {0} && s.last[0] == f && f.book == EmptyBid
    ensures
      var t := EndSession(Desked, Free, s);
      && t.Running? && t.desk.account == Bought && t.desk.book.pending == [] && t.last == map[]
      && t.session == s.session
  {
    var d := s.desk;
    ExitOrderIs(Free, d, Shares, s.lastTime, EndOfDay, s.lastTime);
    var o := ExitOrder(Free, d, Shares, s.lastTime, EndOfDay, s.lastTime);
    var b := OrderBook(3, [o], []);
    assert Submit(Free, OrderBook(3, [], []), o, s.lastTime, f, true, true) == Result(b, []);
    hide Submit, ExitOrder;
    assert [Shares][..0] == [];
    assert FlattenSwept(Free, d, [Shares][..0], s.lastTime, s.last) == Flattening(Moved(d, []));
    assert 0 in s.last;
  }

  lemma {:induction false} NextCloseRaises(s: State)
    requires s.Running? && s.desk.account == Bought && s.last.Keys == {1}
    ensures EndSession(Desked, Free, s).Raised?
  {
    assert [Shares][..0] == [] && 1 in s.last;
    assert FlattenSwept(Free, s.desk, [Shares][..0], s.lastTime, s.last) == Flattening(Moved(s.desk, []));
  }

  /**
    So replays can raise on ordinary input: the default strategy buys on these six events and the second close
    raises.
   */
  lemma {:induction false} StrandingRaises()
    ensures Run(Desked, Free, ItemsOf(Setting, Feeds)).Raised?
  {
    var items := FeedsBecome();
    hide Accepted, EndSession, ItemsOf, Fed;
    assert items[..6] == items;
    forall k | 0 <= k < 6 ensures items[..k + 1][..k] == items[..k] && items[..k + 1][k] == items[k] {
    }
    var s0 := RunItems(Desked, Free, items[..0]);
    NothingHappens(s0.(session := Some(Tuesday), lastTime := items[0].timestamp), items[0]);
    var s1 := RunItems(Desked, Free, items[..1]);
    NothingHappens(s1.(session := Some(Tuesday), lastTime := items[1].timestamp), items[1]);
    var s2 := RunItems(Desked, Free, items[..2]);
    NothingHappens(s2.(session := Some(Tuesday), lastTime := items[2].timestamp), items[2]);
    var s3 := RunItems(Desked, Free, items[..3]);
    BuysAtOnce(s3.(session := Some(Tuesday), lastTime := items[3].timestamp), items[3]);
    var s4 := RunItems(Desked, Free, items[..4]);
    NothingHappens(s4.(session := Some(Tuesday), lastTime := items[4].timestamp), items[4]);
    var s5 := RunItems(Desked, Free, items[..5]);
    assert s3.last.Keys == {0} && s4.last.Keys == {0} && s5.last.Keys == {0};
    ExitIsDropped(s5, items[4].feature);
    var t := EndSession(Desked, Free, s5);
    NothingHappens(t.(session := Some(Wednesday), lastTime := T1), items[5]);
    NextCloseRaises(RunItems(Desked, Free, items[..6]));
  }
}
