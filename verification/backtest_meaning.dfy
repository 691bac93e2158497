// What a replay trades on: the strategy's answers, session by session.
module BacktestMeaning {
  import opened MarketTypes
  import opened Execution
  import opened Portfolio
  import opened BacktestReplay
  import opened BacktestFills
  import opened BacktestTiming
  import opened BacktestPipeline
  import M = MarketModel
  import S = StrategyModel

  // ---- Entries go the strategy's way ----

  /** An entry is for the event's own symbol, at its time, in the direction of its candidate. */
  predicate Follows(o: Order, i: Item) {
    o.purpose == Entry ==>
      && o.symbol == i.feature.symbol && o.orderTime == i.timestamp && o.candidateTime == i.timestamp
      && match o.direction
         case LongPosition => i.action == LongCandidate && o.side == Buy
         case ShortPosition => i.action == ShortCandidate && o.side == Sell
  }

  predicate AllFollow(ops: seq<Op>, i: Item) {
    forall m :: 0 <= m < |ops| && ops[m].Place? ==> Follows(ops[m].order, i)
  }

  lemma {:induction false} RiskFollows(c: PortfolioConfig, ec: ExecutionConfig, d: Desk, ps: seq<Position>, t: nat,
      f: Feature, isQuote: bool, i: Item)
    requires ec.Valid()
    ensures AllFollow(RiskOps(c, ec, d, ps, t, f, isQuote), i)
    decreases |ps|
  {
    hide RiskSwept, RiskReason;
    if ps != [] { RiskFollows(c, ec, d, ps[..|ps| - 1], t, f, isQuote, i); }
  }

  lemma {:induction false} EntryFollows(c: PortfolioConfig, ec: ExecutionConfig, d: Desk, i: Item, direction: Direction)
    requires i.action == match direction case LongPosition => LongCandidate case ShortPosition => ShortCandidate
    ensures
      var cand := Candidate(i.timestamp, i.feature.symbol, i.action, i.feature);
      AllFollow(EntryOps(c, ec, d, cand, direction, i.isQuote), i)
  {
    hide Affordable, Size;
  }

  lemma {:induction false} CandidateFollows(c: PortfolioConfig, ec: ExecutionConfig, d: Desk, i: Item)
    requires ec.Valid()
    ensures
      var cand := Candidate(i.timestamp, i.feature.symbol, i.action, i.feature);
      AllFollow(CandidateOps(c, ec, d, cand, i.isQuote), i)
  {
    hide EntryOps, PlacedAndApplied, Find;
    if i.action == LongCandidate { EntriesFollow(c, ec, i, LongPosition); }
    if i.action == ShortCandidate { EntriesFollow(c, ec, i, ShortPosition); }
  }

  lemma {:induction false} EntriesFollow(c: PortfolioConfig, ec: ExecutionConfig, i: Item, direction: Direction)
    requires i.action == match direction case LongPosition => LongCandidate case ShortPosition => ShortCandidate
    ensures
      var cand := Candidate(i.timestamp, i.feature.symbol, i.action, i.feature);
      forall d :: AllFollow(EntryOps(c, ec, d, cand, direction, i.isQuote), i)
  {
    var cand := Candidate(i.timestamp, i.feature.symbol, i.action, i.feature);
    forall d ensures AllFollow(EntryOps(c, ec, d, cand, direction, i.isQuote), i) {
      EntryFollows(c, ec, d, i, direction);
    }
  }

  lemma {:induction false} TradeFollows(c: PortfolioConfig, ec: ExecutionConfig, s: State, i: Item)
    requires ec.Valid() && s.Running?
    ensures AllFollow(TradeOps(c, ec, s, i), i)
  {
    hide RiskOps, CandidateOps, RiskSwept, QuoteSeen, Follows;
    var f, t := i.feature, i.timestamp;
    var d := if i.isQuote then QuoteSeen(ec, s.desk, t, f).desk else s.desk;
    RiskFollows(c, ec, d, d.account.positions, t, f, i.isQuote, i);
    CandidateFollows(c, ec, RiskSwept(c, ec, d, d.account.positions, t, f, i.isQuote).desk, i);
  }

  /** The event among those so far that an entry follows. */
  ghost predicate HasCandidate(items: seq<Item>, o: Order) {
    o.purpose == Entry ==> exists i: nat :: i < |items| && items[i].accepted && Follows(o, items[i])
  }

  lemma {:induction false} PromisedFollows(c: PortfolioConfig, ec: ExecutionConfig, items: seq<Item>, x: Fill)
    requires ec.Valid() && Promised(c, ec, items, x)
    ensures HasCandidate(items, x.order)
  {
    hide RunItems, TradeOps, Entered, Bounds, FilledBy, MakeFill, Tradable;
    if x.order.purpose == Entry {
      var i: nat, n: nat :| i <= n < |items| && AtFirstUsableQuote(c, ec, items, i, n, x);
      var ops := BacktestTiming.Issued(c, ec, items, i);
      var m :| 0 <= m < |ops| && ops[m].Place? && x.order == Queued(ec, ops[m].order, false);
      TradeFollows(c, ec, Entered(c, ec, RunItems(c, ec, items[..i]), items[i]), items[i]);
    }
  }

  /** Every entry filled by a replay, finished or not, goes the way of the candidate of an event of its symbol. */
  lemma {:induction false} EntriesFollowCandidates(c: PortfolioConfig, ec: ExecutionConfig, items: seq<Item>)
    requires ec.Valid()
    ensures
      forall s, k :: (s == RunItems(c, ec, items) || s == Run(c, ec, items)) && s.Running? && 0 <= k < |s.filled| ==>
        HasCandidate(items, s.filled[k].order)
  {
    hide RunItems, Run, HasCandidate, Promised, AtClose;
    forall s, k | (s == RunItems(c, ec, items) || s == Run(c, ec, items)) && s.Running? && 0 <= k < |s.filled|
      ensures HasCandidate(items, s.filled[k].order)
    {
      FillsAtFirstUsableQuotes(c, ec, items);
      var r := RunItems(c, ec, items);
      if s != r { LastCloseFills(c, ec, items); }
      if k < |r.filled| {
        assert s.filled[k] == r.filled[k];
        PromisedFollows(c, ec, items, s.filled[k]);
      } else {
        ClosingIsExit(ec, r, s.filled[k], items);
      }
    }
  }

  lemma {:induction false} ClosingIsExit(ec: ExecutionConfig, s: State, x: Fill, items: seq<Item>)
    requires ec.Valid() && AtClose(ec, s, x)
    ensures HasCandidate(items, x.order)
  {
  }

  /** The models' answer to event `i` of a stream, given those before it. */
  ghost function AnswerTo(p: Setup, feeds: seq<Feed>, i: nat): (r: (M.Step, S.Answer))
    requires p.Valid() && i < |feeds|
  {
    var m := Renewed(p, ModelsAfter(p, feeds[..i]), feeds[i].session);
    var step := M.ProcessEvent(p.windows, m.symbols, feeds[i].event);
    (step, match step.outcome
           case Produced(f) => S.EvaluateModel(p.strategy, m.memories, f).answer
           case _ => S.OutsideModel)
  }

  /** The entry answers event `i`: the strategy called its direction on a feature of its symbol at its time. */
  ghost predicate AnsweredBy(p: Setup, feeds: seq<Feed>, i: nat, o: Order)
    requires p.Valid() && i < |feeds|
  {
    var r := AnswerTo(p, feeds, i);
    && r.0.outcome.Produced? && r.0.outcome.feature.symbol == o.symbol && feeds[i].timestamp == o.orderTime
    && r.1.Answered? && r.1.signal.action == match o.direction case LongPosition => S.Long case ShortPosition => S.Short
  }

  lemma {:induction false} ItemIs(p: Setup, feeds: seq<Feed>, i: nat)
    requires p.Valid() && i < |feeds|
    ensures ItemsOf(p, feeds)[i] == Fed(p, ModelsAfter(p, feeds[..i]), feeds[i]).1
  {
    hide Fed, ItemsOf, ModelsAfter;
    ItemsExtend(p, feeds, i);
    assert ItemsOf(p, feeds)[..i + 1][i] == ItemsOf(p, feeds)[i];
  }

  lemma {:induction false} ItemAnswers(p: Setup, feeds: seq<Feed>, i: nat, o: Order)
    requires p.Valid() && i < |feeds| && o.purpose == Entry
    requires ItemsOf(p, feeds)[i].accepted && Follows(o, ItemsOf(p, feeds)[i])
    ensures AnsweredBy(p, feeds, i, o)
  {
    hide ItemsOf, ModelsAfter, Renewed;
    ItemIs(p, feeds, i);
  }

  /**
    Over every replay of a stream of market events, every entry filled was called for by the strategy: in that
    direction, on that symbol, at the event the order was issued at.
   */
  lemma {:induction false} EntriesFollowStrategy(c: PortfolioConfig, ec: ExecutionConfig, p: Setup, feeds: seq<Feed>,
      x: Fill)
    requires ec.Valid() && p.Valid() && x.order.purpose == Entry
    requires
      var s, t := RunItems(c, ec, ItemsOf(p, feeds)), Run(c, ec, ItemsOf(p, feeds));
      (s.Running? && x in s.filled) || (t.Running? && x in t.filled)
    ensures exists i: nat :: i < |feeds| && AnsweredBy(p, feeds, i, x.order)
  {
    hide RunItems, Run, ItemsOf, Follows, AnsweredBy;
    var items := ItemsOf(p, feeds);
    EntriesFollowCandidates(c, ec, items);
    assert HasCandidate(items, x.order);
    var i: nat :| i < |items| && items[i].accepted && Follows(x.order, items[i]);
    ItemAnswers(p, feeds, i, x.order);
  }

  // ---- Sessions ----

  lemma {:induction false} SessionOf(p: Setup, feeds: seq<Feed>)
    requires p.Valid() && feeds != []
    ensures ModelsAfter(p, feeds).session == Some(feeds[|feeds| - 1].session)
  {
    hide M.ProcessEvent, S.EvaluateModel;
  }

  /**
    With the reset on, what a new session makes of its events does not depend on the sessions before it.
   */
  lemma {:induction false} SessionsStartAfresh(p: Setup, before: seq<Feed>, day: seq<Feed>)
    requires p.Valid() && p.resetEachSession && day != []
    requires before == [] || before[|before| - 1].session != day[0].session
    ensures ItemsOf(p, before + day)[|before|..] == ItemsOf(p, day)
    ensures ModelsAfter(p, before + day) == ModelsAfter(p, day)
    decreases |day|
  {
    hide Fed, ItemsOf, ModelsAfter, FreshModels;
    var all, last := before + day, |day| - 1;
    var front := before + day[..last];
    LastFed(p, all);
    LastFed(p, day);
    assert all[..|all| - 1] == front;
    if last == 0 {
      NothingBefore(p);
      assert day[..0] == [] && front == before;
      FreshStart(p, before, day[0]);
      assert ItemsOf(p, all)[|before|..] == ItemsOf(p, all)[|before|..|before| + 1];
    } else {
      SessionsStartAfresh(p, before, day[..last]);
      assert ItemsOf(p, all)[|before|..] == ItemsOf(p, front)[|before|..] + [ItemsOf(p, all)[|all| - 1]];
    }
  }

  lemma {:induction false} NothingBefore(p: Setup)
    requires p.Valid()
    ensures ItemsOf(p, []) == []
  {
  }

  lemma {:induction false} FreshStart(p: Setup, before: seq<Feed>, x: Feed)
    requires p.Valid() && p.resetEachSession && (before == [] || before[|before| - 1].session != x.session)
    ensures Fed(p, ModelsAfter(p, before), x) == Fed(p, ModelsAfter(p, []), x)
  {
    hide Taken;
    if before != [] { SessionOf(p, before); }
  }

  predicate SameButSession(a: seq<Feed>, b: seq<Feed>) {
    |a| == |b| && forall k :: 0 <= k < |a| ==> a[k].timestamp == b[k].timestamp && a[k].event == b[k].event
  }

  /** With the reset off, the sessions make no difference to either model. */
  lemma {:induction false} SessionsIgnored(p: Setup, a: seq<Feed>, b: seq<Feed>)
    requires p.Valid() && !p.resetEachSession && SameButSession(a, b)
    ensures
      var m, n := ModelsAfter(p, a), ModelsAfter(p, b);
      m.symbols == n.symbols && m.memories == n.memories
    ensures forall k :: 0 <= k < |a| ==> ItemsOf(p, a)[k] == ItemsOf(p, b)[k].(session := a[k].session)
    decreases |a|
  {
    hide Fed, ItemsOf, ModelsAfter;
    if a == [] {
      NothingFed(p, a, b);
    } else {
      var last := |a| - 1;
      SessionsIgnored(p, a[..last], b[..last]);
      TakenIgnores(p, ModelsAfter(p, a[..last]), ModelsAfter(p, b[..last]), a[last], b[last]);
      LastFed(p, a);
      LastFed(p, b);
    }
  }

  lemma {:induction false} NothingFed(p: Setup, a: seq<Feed>, b: seq<Feed>)
    requires p.Valid() && a == b == []
    ensures ModelsAfter(p, a) == ModelsAfter(p, b)
  {
  }

  lemma {:induction false} LastFed(p: Setup, feeds: seq<Feed>)
    requires p.Valid() && feeds != []
    ensures
      var front, x := feeds[..|feeds| - 1], feeds[|feeds| - 1];
      var r := Fed(p, ModelsAfter(p, front), x);
      ItemsOf(p, feeds) == ItemsOf(p, front) + [r.1] && ModelsAfter(p, feeds) == r.0
  {
    hide Fed;
  }

  lemma {:induction false} TakenIgnores(p: Setup, m: Models, n: Models, x: Feed, y: Feed)
    requires m.Valid(p) && n.Valid(p) && !p.resetEachSession && m.symbols == n.symbols && m.memories == n.memories
    requires x.timestamp == y.timestamp && x.event == y.event
    ensures
      var r, s := Fed(p, m, x), Fed(p, n, y);
      r.0.symbols == s.0.symbols && r.0.memories == s.0.memories && r.1 == s.1.(session := x.session)
  {
    hide M.ProcessEvent, S.EvaluateModel;
  }
}
