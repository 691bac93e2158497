// The replay loop over the market, strategy, portfolio and execution objects, proved to run the replay specification.
module Backtest {
  import opened ProtocolDefs
  import opened MarketTypes
  import opened Execution
  import opened Portfolio
  import opened BacktestReplay
  import opened BacktestPipeline
  import M = MarketModel
  import S = StrategyModel

  class BacktestEngine {
    const config: PortfolioConfig
    const setup: Setup
    const market: M.Model
    const strategy: S.Strategy
    const portfolio: PortfolioSimulator
    const execution: ExecutionSimulator
    var lastFeatures: map<nat, Feature>
    var previousSession: Option<int>
    var lastTimestamp: nat
    var fills: seq<Fill>

    ghost function View(): State
      reads this, portfolio, execution
    {
      Running(portfolio.DeskView(execution), lastFeatures, previousSession, lastTimestamp, fills)
    }

    ghost function ModelsView(): (m: Models)
      requires Modelled()
      reads this, market, market.symbols, strategy
      ensures m.Valid(setup)
    {
      Models(market.View(), strategy.View(), previousSession)
    }

    ghost predicate Booked()
      reads this, portfolio, execution
    {
      portfolio.config == config && execution.config.Valid() && Good(config.startingCash, View())
    }

    ghost predicate Modelled()
      reads this, market, market.symbols, strategy
    {
      && setup.Valid() && market.config == setup.windows && strategy.config == setup.strategy
      && market.Valid() && strategy.Valid()
    }

    constructor (config: PortfolioConfig, executionConfig: ExecutionConfig, setup: Setup)
      requires executionConfig.Valid() && setup.Valid()
      ensures this.config == config && execution.config == executionConfig && this.setup == setup
      ensures Booked() && Modelled() && View() == Start(config) && ModelsView() == ModelsAfter(setup, [])
      ensures fresh(portfolio) && fresh(execution) && fresh(market) && fresh(market.symbols) && fresh(strategy)
    {
      this.config, this.setup := config, setup;
      market := new M.Model(setup.windows);
      strategy := new S.Strategy(setup.strategy);
      portfolio := new PortfolioSimulator(config);
      execution := new ExecutionSimulator(executionConfig);
      lastFeatures, previousSession, lastTimestamp, fills := map[], None, 0, [];
      new;
      StartGood(config);
    }

    // Open positions are for at least one share, so no exit order is malformed.
    lemma {:induction false} PositionsArePositive()
      requires Booked()
      ensures forall k :: 0 <= k < |portfolio.positions| ==> portfolio.positions[k].quantity >= 1
    {
      InvPositions(config.startingCash, portfolio.DeskView(execution), fills);
    }

    method CloseSession() returns (raised: bool)
      requires Booked()
      modifies this`lastFeatures, this`fills, portfolio, execution
      ensures var t := EndSession(config, execution.config, old(View()));
        if raised then t.Raised? else View() == t && Booked()
    {
      hide Inv, Flattened, Flush;
      PositionsArePositive();
      CloseGood(config, execution.config, View());
      raised := false;
      if lastFeatures != map[] && config.endOfDayFlatten {
        var more;
        raised, more := portfolio.Flatten(lastTimestamp, lastFeatures, execution);
        if raised { return; }
        fills := fills + more;
      }
      lastFeatures := map[];
      var unfilled := execution.FlushOrders();
      portfolio.pendingSymbols, portfolio.pendingOrderIds := {}, map[];
    }

    method Watch(timestamp: nat, f: Feature, isQuote: bool)
      requires Booked()
      modifies this`lastFeatures, this`fills, portfolio, execution
      ensures Booked() && View() == Watched(config, execution.config, old(View()), timestamp, f, isQuote)
    {
      hide Inv, QuoteSeen, RiskSwept;
      var start := config.startingCash;
      lastFeatures := lastFeatures[f.symbol := f];
      if isQuote {
        QuoteKeeps(start, execution.config, portfolio.DeskView(execution), timestamp, f, fills);
        var more := portfolio.SeeQuote(timestamp, f, execution);
        fills := fills + more;
      }
      PositionsArePositive();
      ghost var d, ps := portfolio.DeskView(execution), portfolio.positions;
      InvPositions(start, d, fills);
      RiskKeeps(start, config, execution.config, d, |ps|, timestamp, f, isQuote, fills);
      assert ps[..|ps|] == ps;
      var exits := portfolio.EvaluateRisk(timestamp, f, execution, isQuote);
      fills := fills + exits;
    }

    /** An accepted event: the books see it, the strategy evaluates it, and its candidate is considered. */
    method Accept(timestamp: nat, session: int, f: Feature, isQuote: bool)
      requires Booked() && Modelled() && f.symbol < setup.windows.symbols
      modifies this`lastFeatures, this`fills, portfolio, execution, strategy
      ensures Booked() && Modelled()
      ensures
        var e := S.EvaluateModel(setup.strategy, old(strategy.View()), f);
        && e.answer.Answered? && strategy.View() == e.memories
        && View() == Accepted(config, execution.config, old(View()),
                              Item(session, timestamp, true, f, isQuote, ActionOf(e.answer.signal.action)))
    {
      hide Inv, Watched, ConsiderCandidate, S.EvaluateSymbol;
      Watch(timestamp, f, isQuote);
      PositionsArePositive();
      ghost var d := portfolio.DeskView(execution);
      var answer := strategy.Evaluate(f);
      var candidate := Candidate(timestamp, f.symbol, ActionOf(answer.signal.action), f);
      CandidateKeeps(config.startingCash, config, execution.config, d, candidate, isQuote, fills);
      var traded := portfolio.Consider(candidate, execution, isQuote);
      fills := fills + traded;
    }

    method ResetModels()
      requires Modelled()
      modifies market, strategy
      ensures Modelled() && fresh(market.symbols)
      ensures market.View() == FreshModels(setup, None).symbols && strategy.View() == FreshModels(setup, None).memories
    {
      market.ResetState();
      strategy.ResetState();
    }

    /** A first event of a new session closes the one before it. */
    method Turn(session: int) returns (raised: bool)
      requires Booked() && Modelled()
      modifies this`lastFeatures, this`fills, portfolio, execution, market, strategy
      ensures market.symbols == old(market.symbols) || fresh(market.symbols)
      ensures var t := Turned(config, execution.config, old(View()), session);
        if raised then t.Raised?
        else
          && View() == t && Booked() && Modelled()
          && ModelsView().(session := Some(session)) == Renewed(setup, old(ModelsView()), session)
    {
      hide Inv, EndSession;
      raised := false;
      if previousSession.Some? && previousSession.value != session {
        raised := CloseSession();
        if raised { return; }
        if setup.resetEachSession { ResetModels(); }
      }
    }

    /** One event within its session. */
    method Take(x: Feed)
      requires Booked() && Modelled()
      modifies this`lastFeatures, this`fills, portfolio, execution, market.symbols, strategy
      ensures Booked() && Modelled() && market.symbols == old(market.symbols)
      ensures
        var (models, item) := Taken(setup, old(ModelsView()), x);
        && ModelsView() == models
        && View() == if item.accepted then Accepted(config, execution.config, old(View()), item) else old(View())
    {
      hide Inv, Accepted, M.ProcessEvent, S.EvaluateModel;
      var outcome := market.Process(x.event);
      if outcome.Produced? {
        Accept(x.timestamp, x.session, outcome.feature, x.event.kind == MSG_MARKET_QUOTE);
      }
    }

    method Process(x: Feed) returns (raised: bool)
      requires Booked() && Modelled()
      modifies this, portfolio, execution, market, market.symbols, strategy
      ensures market.symbols == old(market.symbols) || fresh(market.symbols)
      ensures
        var (models, item) := Fed(setup, old(ModelsView()), x);
        var t := Step(config, execution.config, old(View()), item);
        if raised then t.Raised? else View() == t && Booked() && Modelled() && ModelsView() == models
    {
      hide Inv, Turned, Accepted, Renewed, Taken;
      raised := Turn(x.session);
      if raised { return; }
      previousSession, lastTimestamp := Some(x.session), x.timestamp;
      Take(x);
    }

    method RunAll(feeds: seq<Feed>) returns (raised: bool)
      requires Booked() && Modelled() && View() == Start(config) && ModelsView() == ModelsAfter(setup, [])
      modifies this, portfolio, execution, market, market.symbols, strategy
      ensures var t := Run(config, execution.config, ItemsOf(setup, feeds));
        if raised then t.Raised? else View() == t && Booked()
    {
      hide Inv, EndSession, Step, Fed;
      raised := false;
      for k := 0 to |feeds|
        invariant Booked() && Modelled() && (market.symbols == old(market.symbols) || fresh(market.symbols))
        invariant ModelsView() == ModelsAfter(setup, feeds[..k])
        invariant View() == RunItems(config, execution.config, ItemsOf(setup, feeds[..k]))
      {
        ItemsExtend(setup, feeds, k);
        raised := Process(feeds[k]);
        if raised {
          RaisedForGood(config, execution.config, ItemsOf(setup, feeds), k + 1);
          return;
        }
      }
      assert feeds[..|feeds|] == feeds;
      raised := CloseSession();
    }
  }

  lemma {:induction false} RaisedForGood(c: PortfolioConfig, ec: ExecutionConfig, items: seq<Item>, k: nat)
    requires ec.Valid() && k <= |items| && RunItems(c, ec, items[..k]).Raised?
    ensures RunItems(c, ec, items).Raised?
    decreases |items|
  {
    if k == |items| {
      assert items[..k] == items;
    } else {
      assert items[..|items| - 1][..k] == items[..k];
      RaisedForGood(c, ec, items[..|items| - 1], k);
    }
  }
}
