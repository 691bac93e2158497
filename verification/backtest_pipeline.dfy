// The replay's inputs: events run through the market and strategy models, session by session.
module BacktestPipeline {
  import opened ProtocolDefs
  import opened MarketTypes
  import opened Execution
  import opened Portfolio
  import opened BacktestReplay
  import M = MarketModel
  import S = StrategyModel

  /** An event with the session date its timestamp falls on. */
  datatype Feed = Feed(session: int, timestamp: nat, event: Event)

  datatype Setup = Setup(windows: Windows, strategy: S.Config, resetEachSession: bool)
  {
    predicate Valid() {
      windows.Valid() && |strategy.symbolEnable| == windows.symbols
    }
  }

  /** What both models hold between events. */
  datatype Models = Models(symbols: seq<M.Symbol>, memories: seq<S.Memory>, session: Option<int>)
  {
    ghost predicate Valid(p: Setup) {
      p.Valid() && M.ValidSymbols(p.windows, symbols) && |memories| == p.windows.symbols
    }
  }

  ghost function FreshModels(p: Setup, session: Option<int>): (m: Models)
    requires p.Valid()
    ensures m.Valid(p)
  {
    FreshIsValid(p.windows);
    Models(seq(p.windows.symbols, _ => M.FreshSymbol(p.windows)), seq(p.windows.symbols, _ => S.Disarmed), session)
  }

  lemma {:induction false} FreshIsValid(c: Windows)
    requires c.Valid()
    ensures M.FreshSymbol(c).Valid(c)
  {
    var s := M.FreshSymbol(c);
    assert s.rings.trade[..0] == [] && s.rings.priceQuantity[..0] == [] && s.rings.quantity[..0] == [];
  }

  function ActionOf(d: S.Direction): Action {
    match d
    case NoDirection => NoAction
    case Long => LongCandidate
    case Short => ShortCandidate
  }

  /** Both models start afresh in a new session. */
  ghost function Renewed(p: Setup, m: Models, session: int): (n: Models)
    requires m.Valid(p)
    ensures n.Valid(p)
  {
    if p.resetEachSession && m.session.Some? && m.session.value != session then FreshModels(p, Some(session))
    else m.(session := Some(session))
  }

  // A refused event has no feature; the driver never looks at one.
  const NoFeature := Feature(0, 0, EmptyBook, 0, RawOf(EmptyBook, false, 0, 0, 0), NoResult)

  /** One event within its session. */
  ghost function Taken(p: Setup, m: Models, x: Feed): (r: (Models, Item))
    requires m.Valid(p)
    ensures r.0.Valid(p)
  {
    var step := M.ProcessEvent(p.windows, m.symbols, x.event);
    match step.outcome
    case Produced(f) =>
      var e := S.EvaluateModel(p.strategy, m.memories, f);
      (Models(step.symbols, e.memories, m.session),
       Item(x.session, x.timestamp, true, f, x.event.kind == MSG_MARKET_QUOTE, ActionOf(e.answer.signal.action)))
    case _ =>
      (m.(symbols := step.symbols), Item(x.session, x.timestamp, false, NoFeature, false, NoAction))
  }

  ghost function Fed(p: Setup, m: Models, x: Feed): (r: (Models, Item))
    requires m.Valid(p)
    ensures r.0.Valid(p) && r.1.session == x.session && r.1.timestamp == x.timestamp
  {
    Taken(p, Renewed(p, m, x.session), x)
  }

  ghost function ModelsAfter(p: Setup, feeds: seq<Feed>): (m: Models)
    requires p.Valid()
    ensures m.Valid(p)
  {
    if feeds == [] then FreshModels(p, None)
    else Fed(p, ModelsAfter(p, feeds[..|feeds| - 1]), feeds[|feeds| - 1]).0
  }

  /** The replay items of a series of events. */
  ghost function ItemsOf(p: Setup, feeds: seq<Feed>): (items: seq<Item>)
    requires p.Valid()
    ensures |items| == |feeds|
  {
    if feeds == [] then []
    else
      var front, x := feeds[..|feeds| - 1], feeds[|feeds| - 1];
      ItemsOf(p, front) + [Fed(p, ModelsAfter(p, front), x).1]
  }

  lemma {:induction false} ItemsExtend(p: Setup, feeds: seq<Feed>, k: nat)
    requires p.Valid() && k < |feeds|
    ensures
      var front, items := ItemsOf(p, feeds[..k]), ItemsOf(p, feeds);
      && front == items[..k] && ItemsOf(p, feeds[..k + 1]) == items[..k + 1]
      && items[..k + 1][..k] == front && items[..k + 1][k] == Fed(p, ModelsAfter(p, feeds[..k]), feeds[k]).1
      && ModelsAfter(p, feeds[..k + 1]) == Fed(p, ModelsAfter(p, feeds[..k]), feeds[k]).0
    decreases |feeds|
  {
    hide Fed;
    var last := |feeds| - 1;
    assert feeds[..k + 1][..k] == feeds[..k] && feeds[..k + 1][k] == feeds[k];
    if k == last {
      assert feeds[..k + 1] == feeds;
    } else {
      ItemsExtend(p, feeds[..last], k);
      assert feeds[..last][..k] == feeds[..k] && feeds[..last][..k + 1] == feeds[..k + 1];
    }
  }
}
