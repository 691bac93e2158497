// The replay driver: what every event, session boundary and whole run keeps.
module BacktestReplay {
  import opened MarketTypes
  import opened Execution
  import opened Portfolio
  import opened PortfolioAccounting

  // ---- The driver ----

  /**
    One replay event with what the market and strategy models made of it: a rejected event has no feature to act on.
   */
  datatype Item = Item(session: int, timestamp: nat, accepted: bool, feature: Feature, isQuote: bool, action: Action)

  datatype State =
    | Running(desk: Desk, last: map<nat, Feature>, session: Option<int>, lastTime: nat, filled: seq<Fill>)
    | Raised

  function Start(c: PortfolioConfig): State {
    Running(Desk(Opening(c), NoOrders), map[], None, 0, [])
  }

  function Moving(s: State, m: Moved): State
    requires s.Running?
  {
    s.(desk := m.desk, filled := s.filled + m.fills)
  }

  function CloseSession(c: PortfolioConfig, ec: ExecutionConfig, s: State): State
    requires ec.Valid() && s.Running?
  {
    if s.last == map[] || !c.endOfDayFlatten then s
    else match Flattened(ec, s.desk, s.lastTime, s.last)
      case NoFeatureForPosition => Raised
      case Flattening(m) => Moving(s, m)
  }

  /** Whatever is pending goes unfilled, and its marks are cleared. */
  function Dropped(s: State): State
    requires s.Running?
  {
    s.(last := map[], desk := Desk(s.desk.account.(pending := {}, pendingIds := map[]), Flush(s.desk.book)))
  }

  function EndSession(c: PortfolioConfig, ec: ExecutionConfig, s: State): State
    requires ec.Valid() && s.Running?
  {
    var t := CloseSession(c, ec, s);
    if t.Raised? then Raised else Dropped(t)
  }

  /** An accepted event before its candidate: it becomes the latest feature, pending orders see the quote, then risk. */
  function Watched(c: PortfolioConfig, ec: ExecutionConfig, s: State, t: nat, f: Feature, isQuote: bool): (w: State)
    requires ec.Valid() && s.Running?
    ensures w.Running?
  {
    var s1 := s.(last := s.last[f.symbol := f]);
    var s2 := if isQuote then Moving(s1, QuoteSeen(ec, s1.desk, t, f)) else s1;
    Moving(s2, RiskSwept(c, ec, s2.desk, s2.desk.account.positions, t, f, isQuote))
  }

  function Accepted(c: PortfolioConfig, ec: ExecutionConfig, s: State, i: Item): State
    requires ec.Valid() && s.Running?
  {
    var f, t := i.feature, i.timestamp;
    var w := Watched(c, ec, s, t, f, i.isQuote);
    Moving(w, ConsiderCandidate(c, ec, w.desk, Candidate(t, f.symbol, i.action, f), i.isQuote))
  }

  /** An event of another session ends the one before it. */
  function Turned(c: PortfolioConfig, ec: ExecutionConfig, s: State, session: int): State
    requires ec.Valid() && s.Running?
  {
    if s.session.Some? && s.session.value != session then EndSession(c, ec, s) else s
  }

  function Step(c: PortfolioConfig, ec: ExecutionConfig, s: State, i: Item): State
    requires ec.Valid()
  {
    if s.Raised? then Raised
    else
      var t := Turned(c, ec, s, i.session);
      if t.Raised? then Raised
      else
        var u := t.(session := Some(i.session), lastTime := i.timestamp);
        if i.accepted then Accepted(c, ec, u, i) else u
  }

  function RunItems(c: PortfolioConfig, ec: ExecutionConfig, items: seq<Item>): State
    requires ec.Valid()
  {
    if items == [] then Start(c) else Step(c, ec, RunItems(c, ec, items[..|items| - 1]), items[|items| - 1])
  }

  /** A whole replay. */
  function Run(c: PortfolioConfig, ec: ExecutionConfig, items: seq<Item>): State
    requires ec.Valid()
  {
    var s := RunItems(c, ec, items);
    if s.Raised? then Raised else EndSession(c, ec, s)
  }

  // ---- What every operation keeps ----

  /** The invariant while the fills `fly` have been made but not yet applied. */
  ghost predicate Between(start: real, d: Desk, fly: seq<Fill>, filled: seq<Fill>) {
    && Tracks(d.account, multiset(d.book.pending) + OrdersOf(fly))
    && Sound(start, d.account, filled)
    && Conserved(d.book, filled + fly)
  }

  ghost predicate Inv(start: real, d: Desk, filled: seq<Fill>) {
    Between(start, d, [], filled)
  }

  lemma {:induction false} TrackNew(a: Account, owed: multiset<Order>, o: Order)
    requires Tracks(a, owed) && o.symbol !in a.pending && Matches(a.positions, o)
    ensures Tracks(a.(pending := a.pending + {o.symbol}, pendingIds := a.pendingIds[o.symbol := o.id]),
      owed + multiset{o})
  {
    hide Matches;
    var b, all :=
      a.(pending := a.pending + {o.symbol}, pendingIds := a.pendingIds[o.symbol := o.id]), owed + multiset{o};
    forall s | s in b.pending ensures s in b.pendingIds && exists p :: p in all && p.symbol == s {
      if s in a.pending {
        var p :| p in owed && p.symbol == s;
        assert p in all;
      } else {
        assert o in all;
      }
    }
  }

  lemma {:induction false} QueuedMatches(ec: ExecutionConfig, ps: seq<Position>, o: Order, forced: bool)
    requires Matches(ps, o)
    ensures
      var q := Queued(ec, o, forced);
      Matches(ps, q) && q.symbol == o.symbol && q.id == o.id && q.purpose == o.purpose
  {
    hide Find;
  }

  lemma {:induction false} NewIdConserved(b: OrderBook, filled: seq<Fill>, q: Order, x: Fill)
    requires Conserved(b, filled) && q.id == b.nextId && x.order == q
    ensures Conserved(OrderBook(b.nextId + 1, b.pending + [q], b.unfilled), filled)
    ensures Conserved(OrderBook(b.nextId + 1, b.pending, b.unfilled), filled + [x])
  {
    hide Ids, FillIds;
    IdsConcat(b.pending, [q]);
    SingleId(q);
    FillsConcat(filled, [x]);
    SingleFill(x);
  }

  /** Placing a matching order for an unmarked symbol; the fills it makes are still to be applied. */
  lemma {:induction false} PlacedKeeps(start: real, ec: ExecutionConfig, d: Desk, o: Order, t: nat, f: Feature,
      isQuote: bool, forced: bool,
                    fly: seq<Fill>, filled: seq<Fill>)
    requires ec.Valid() && Between(start, d, fly, filled)
    requires o.id == d.book.nextId && o.symbol !in d.account.pending && Matches(d.account.positions, o)
    ensures
      var m := Placed(ec, d, o, t, f, isQuote, forced);
      && Between(start, m.desk, fly + m.fills, filled)
      && m.desk.account.positions == d.account.positions && m.desk.account.pending == d.account.pending + {o.symbol}
      && (forall k :: 0 <= k < |m.fills| ==> m.fills[k].order.symbol == o.symbol)
  {
    hide Matches, Tracks, OrdersOf, Sound, Conserved, MakeFill, Immediate, Queued, Usable;
    var a, q, owed := d.account, Queued(ec, o, forced), multiset(d.book.pending) + OrdersOf(fly);
    QueuedMatches(ec, a.positions, o, forced);
    TrackNew(a, owed, q);
    SoundIgnoresMarks(start, a, a.pending + {o.symbol}, a.pendingIds[o.symbol := o.id], filled);
    if Immediate(ec, o, t, f, isQuote, forced) {
      ImmediateUsable(ec, o, t, f, isQuote, forced);
      FillKeepsOrder(ec, q, t, f);
      var x := MakeFill(ec, q, t, f);
      PlacedFilled(d.book, fly, filled, q, x);
    } else {
      PlacedQueued(d.book, fly, filled, q);
      assert fly + [] == fly;
    }
  }

  lemma {:induction false} PlacedFilled(b: OrderBook, fly: seq<Fill>, filled: seq<Fill>, q: Order, x: Fill)
    requires Conserved(b, filled + fly) && q.id == b.nextId && x.order == q
    ensures Conserved(b.(nextId := b.nextId + 1), filled + (fly + [x]))
    ensures multiset(b.pending) + OrdersOf(fly + [x]) == multiset(b.pending) + OrdersOf(fly) + multiset{q}
  {
    hide Conserved, OrdersOf;
    NewIdConserved(b, filled + fly, q, x);
    OrdersOfLast(fly, x);
    BagAssoc(multiset(b.pending), OrdersOf(fly), multiset{q});
    assert filled + (fly + [x]) == filled + fly + [x];
  }

  lemma {:induction false} BagAssoc<T>(a: multiset<T>, b: multiset<T>, c: multiset<T>)
    ensures a + (b + c) == a + b + c
  {
  }

  lemma {:induction false} PlacedQueued(b: OrderBook, fly: seq<Fill>, filled: seq<Fill>, q: Order)
    requires Conserved(b, filled + fly) && q.id == b.nextId
    ensures Conserved(b.(nextId := b.nextId + 1, pending := b.pending + [q]), filled + fly)
    ensures multiset(b.pending + [q]) + OrdersOf(fly) == multiset(b.pending) + OrdersOf(fly) + multiset{q}
  {
    hide Conserved, OrdersOf;
    NewIdConserved(b, filled + fly, q, Fill(q, 0, 0, 0, 0.0));
  }

  lemma {:induction false} SoundIgnoresMarks(start: real, a: Account, pending: set<nat>, ids: map<nat, nat>,
      filled: seq<Fill>)
    requires Sound(start, a, filled)
    ensures Sound(start, a.(pending := pending, pendingIds := ids), filled)
  {
    hide LongNotional, EntryCosts, NetOf, FillsFor;
  }

  lemma {:induction false} ImmediateUsable(ec: ExecutionConfig, o: Order, t: nat, f: Feature, isQuote: bool,
      forced: bool)
    requires Immediate(ec, o, t, f, isQuote, forced)
    ensures Usable(Queued(ec, o, forced), f)
  {
  }

  lemma {:induction false} AppliedKeeps(start: real, d: Desk, fly: seq<Fill>, filled: seq<Fill>)
    requires Between(start, d, fly, filled)
    ensures Inv(start, d.(account := ApplyFills(d.account, fly)), filled + fly)
  {
    hide Tracks, Sound, Conserved;
    FillsKeep(start, d.account, multiset(d.book.pending), filled, fly);
    assert multiset(d.book.pending) + OrdersOf([]) == multiset(d.book.pending);
    assert filled + fly + [] == filled + fly;
  }

  lemma {:induction false} PlacedAndAppliedKeeps(start: real, ec: ExecutionConfig, d: Desk, o: Order, t: nat,
      f: Feature, isQuote: bool, filled: seq<Fill>)
    requires ec.Valid() && Inv(start, d, filled)
    requires o.id == d.book.nextId && o.symbol !in d.account.pending && Matches(d.account.positions, o)
    ensures
      var m := PlacedAndApplied(ec, d, o, t, f, isQuote);
      && Inv(start, m.desk, filled + m.fills)
      && (forall s :: s != o.symbol ==> Find(m.desk.account.positions, s) == Find(d.account.positions, s))
      && (m.fills != [] ==> o.symbol !in m.desk.account.pending)
  {
    hide Between, Find, Matches, ApplyFills, Placed;
    PlacedKeeps(start, ec, d, o, t, f, isQuote, false, [], filled);
    var m := Placed(ec, d, o, t, f, isQuote, false);
    assert [] + m.fills == m.fills;
    AppliedKeeps(start, m.desk, m.fills, filled);
    forall s | s != o.symbol
      ensures Find(ApplyFills(m.desk.account, m.fills).positions, s) == Find(d.account.positions, s) {
      FillsFrame(m.desk.account, m.fills, s);
    }
    if m.fills != [] { LastFillSettles(m.desk.account, m.fills); }
  }

  lemma {:induction false} LastFillSettles(a: Account, fills: seq<Fill>)
    requires fills != []
    ensures fills[|fills| - 1].order.symbol !in ApplyFills(a, fills).pending
  {
    PendingAfterFill(ApplyFills(a, fills[..|fills| - 1]), fills[|fills| - 1]);
  }

  lemma {:induction false} QuoteKeeps(start: real, ec: ExecutionConfig, d: Desk, t: nat, f: Feature, filled: seq<Fill>)
    requires ec.Valid() && Inv(start, d, filled)
    ensures var m := QuoteSeen(ec, d, t, f); Inv(start, m.desk, filled + m.fills)
  {
    hide Tracks, Sound, Ids, FillIds, OrdersOf, Remaining, FillsOf;
    var r := OnQuote(ec, d.book, t, f);
    QuoteSplits(ec, d.book.pending, t, f);
    FillsConcat(filled, r.fills);
    NothingSplits();
    assert filled + [] == filled;
    assert multiset(r.book.pending) + OrdersOf(r.fills) == multiset(d.book.pending) + OrdersOf([]);
    assert Between(start, Desk(d.account, r.book), r.fills, filled);
    AppliedKeeps(start, Desk(d.account, r.book), r.fills, filled);
  }

  // An exit order for a held, unmarked position matches it.
  lemma {:induction false} ExitMatches(start: real, ec: ExecutionConfig, d: Desk, p: Position, t: nat, reason: Reason,
      candidateTime: nat, fly: seq<Fill>, filled: seq<Fill>)
    requires Between(start, d, fly, filled) && Find(d.account.positions, p.symbol) == Some(p)
    ensures Matches(d.account.positions, ExitOrder(ec, d, p, t, reason, candidateTime))
  {
    hide Tracks, CashBalanced, Conserved, NoneIgnored;
    FoundIsHeld(d.account.positions, p.symbol);
  }

  lemma {:induction false} ExitKeeps(start: real, ec: ExecutionConfig, d: Desk, p: Position, t: nat, f: Feature,
      reason: Reason, candidateTime: nat, isQuote: bool, filled: seq<Fill>)
    requires ec.Valid() && Inv(start, d, filled) && Find(d.account.positions, p.symbol) == Some(p)
      && p.symbol !in d.account.pending
    ensures
      var m := PlacedAndApplied(ec, d, ExitOrder(ec, d, p, t, reason, candidateTime), t, f, isQuote);
      && Inv(start, m.desk, filled + m.fills)
      && (forall s :: s != p.symbol ==> Find(m.desk.account.positions, s) == Find(d.account.positions, s))
      && (m.fills != [] ==> p.symbol !in m.desk.account.pending)
  {
    hide Between, Find, Matches, PlacedAndApplied;
    ExitMatches(start, ec, d, p, t, reason, candidateTime, [], filled);
    PlacedAndAppliedKeeps(start, ec, d, ExitOrder(ec, d, p, t, reason, candidateTime), t, f, isQuote, filled);
  }

  lemma {:induction false} EntryKeeps(start: real, c: PortfolioConfig, ec: ExecutionConfig, d: Desk, cand: Candidate,
      direction: Direction, isQuote: bool, filled: seq<Fill>)
    requires ec.Valid() && Inv(start, d, filled) && Find(d.account.positions, cand.symbol).None?
      && cand.symbol !in d.account.pending
    ensures var m := EnterIfAllowed(c, ec, d, cand, direction, isQuote); Inv(start, m.desk, filled + m.fills)
  {
    hide Between, Find, PlacedAndApplied, Affordable, Size;
    match EntryOrder(c, ec, d, cand, direction)
    case None => assert filled + [] == filled;
    case Some(o) => PlacedAndAppliedKeeps(start, ec, d, o, cand.timestamp, cand.feature, isQuote, filled);
  }

  lemma {:induction false} CandidateKeeps(start: real, c: PortfolioConfig, ec: ExecutionConfig, d: Desk,
      cand: Candidate, isQuote: bool, filled: seq<Fill>)
    requires ec.Valid() && Inv(start, d, filled)
    ensures var m := ConsiderCandidate(c, ec, d, cand, isQuote); Inv(start, m.desk, filled + m.fills)
  {
    hide Inv, Find, PlacedAndApplied, EnterIfAllowed, ExitOrder;
    assert filled + [] == filled;
    var desired := if cand.action == LongCandidate then LongPosition else ShortPosition;
    if cand.action != NoAction && cand.symbol !in d.account.pending {
      match Find(d.account.positions, cand.symbol)
      case None => EntryKeeps(start, c, ec, d, cand, desired, isQuote, filled);
      case Some(p) =>
        FoundIsHeld(d.account.positions, cand.symbol);
        var t := cand.timestamp;
        ExitKeeps(start, ec, d, p, t, cand.feature, OppositeCandidate, t, isQuote, filled);
        var out := PlacedAndApplied(ec, d, ExitOrder(ec, d, p, t, OppositeCandidate, t), t, cand.feature, isQuote);
        if out.fills != [] && Find(out.desk.account.positions, cand.symbol).None? {
          EntryKeeps(start, c, ec, out.desk, cand, desired, isQuote, filled + out.fills);
          assert filled + out.fills + EnterIfAllowed(c, ec, out.desk, cand, desired, isQuote).fills
              == filled + (out.fills + EnterIfAllowed(c, ec, out.desk, cand, desired, isQuote).fills);
        }
    }
  }

  lemma {:induction false} RiskKeeps(start: real, c: PortfolioConfig, ec: ExecutionConfig, d: Desk, n: nat, t: nat,
      f: Feature, isQuote: bool, filled: seq<Fill>)
    requires ec.Valid() && Inv(start, d, filled) && n <= |d.account.positions| && OnePerSymbol(d.account.positions)
    ensures
      var ps := d.account.positions;
      var m := RiskSwept(c, ec, d, ps[..n], t, f, isQuote);
      && Inv(start, m.desk, filled + m.fills)
      && forall k :: n <= k < |ps| ==> Find(m.desk.account.positions, ps[k].symbol) == Some(ps[k])
    decreases n
  {
    hide Inv, Find, PlacedAndApplied, ExitOrder, RiskReason;
    var ps := d.account.positions;
    if n == 0 {
      assert filled + [] == filled;
      forall k | 0 <= k < |ps| ensures Find(ps, ps[k].symbol) == Some(ps[k]) { FindHeld(ps, k); }
    } else {
      assert ps[..n][..n - 1] == ps[..n - 1];
      RiskKeeps(start, c, ec, d, n - 1, t, f, isQuote, filled);
      var m, p := RiskSwept(c, ec, d, ps[..n - 1], t, f, isQuote), ps[n - 1];
      var x := RiskChecked(c, ec, m.desk, p, t, f, isQuote);
      assert filled + m.fills + x.fills == filled + (m.fills + x.fills);
      assert filled + m.fills + [] == filled + m.fills;
      if p.symbol !in m.desk.account.pending {
        ExitKeeps(start, ec, m.desk, p, t, f, RiskReason(c, t, f, p, isQuote), p.candidateTime,
          isQuote && f.symbol == p.symbol, filled + m.fills);
      }
    }
  }

  lemma {:induction false} InvPositions(start: real, d: Desk, filled: seq<Fill>)
    requires Inv(start, d, filled)
    ensures OnePerSymbol(d.account.positions)
  {
    hide Tracks, CashBalanced, Conserved, NoneIgnored;
  }

  // ---- End of day ----

  /** This position cannot be flattened: it has no feature to flatten on, and no order of its own pending. */
  predicate Stranded(d: Desk, features: map<nat, Feature>, p: Position) {
    p.symbol !in d.account.pending && p.symbol !in features
  }

  lemma {:induction false} FlattenKeeps(start: real, ec: ExecutionConfig, d: Desk, n: nat, t: nat,
      features: map<nat, Feature>, filled: seq<Fill>)
    requires ec.Valid() && Inv(start, d, filled) && n <= |d.account.positions| && OnePerSymbol(d.account.positions)
    ensures
      var ps := d.account.positions;
      match FlattenSwept(ec, d, ps[..n], t, features)
      case NoFeatureForPosition => exists k :: 0 <= k < n && Stranded(d, features, ps[k])
      case Flattening(m) =>
        && Between(start, m.desk, m.fills, filled)
        && m.desk.account.positions == ps
        && (forall k :: 0 <= k < n ==> !Stranded(d, features, ps[k]))
        && (forall k ::
             n <= k < |ps| ==> (ps[k].symbol in m.desk.account.pending <==> ps[k].symbol in d.account.pending))
    decreases n
  {
    hide Between, Find, Placed, ExitOrder;
    var ps := d.account.positions;
    if n > 0 {
      assert ps[..n][..n - 1] == ps[..n - 1];
      FlattenKeeps(start, ec, d, n - 1, t, features, filled);
      var p := ps[n - 1];
      match FlattenSwept(ec, d, ps[..n - 1], t, features)
      case NoFeatureForPosition =>
      case Flattening(m) =>
        if p.symbol in m.desk.account.pending {
        } else if p.symbol !in features {
          assert Stranded(d, features, ps[n - 1]);
        } else {
          FindHeld(ps, n - 1);
          ExitMatches(start, ec, m.desk, p, t, EndOfDay, t, m.fills, filled);
          ExitOrderIs(ec, m.desk, p, t, EndOfDay, t);
          PlacedKeeps(start, ec, m.desk, ExitOrder(ec, m.desk, p, t, EndOfDay, t), t, features[p.symbol], true, true,
            m.fills, filled);
        }
    }
  }

  /** Flattening raises exactly when an open position is stranded; otherwise it keeps every invariant. */
  lemma {:induction false} FlattenRaisesIffStranded(start: real, ec: ExecutionConfig, d: Desk, t: nat,
      features: map<nat, Feature>, filled: seq<Fill>)
    requires ec.Valid() && Inv(start, d, filled)
    ensures Flattened(ec, d, t, features).NoFeatureForPosition? <==> exists k ::
      0 <= k < |d.account.positions| && Stranded(d, features, d.account.positions[k])
    ensures
      match Flattened(ec, d, t, features)
      case NoFeatureForPosition => true
      case Flattening(m) => Inv(start, m.desk, filled + m.fills)
  {
    hide Between, FlattenSwept, ApplyFills;
    InvPositions(start, d, filled);
    var ps := d.account.positions;
    FlattenKeeps(start, ec, d, |ps|, t, features, filled);
    assert ps[..|ps|] == ps;
    match FlattenSwept(ec, d, ps, t, features)
    case NoFeatureForPosition =>
    case Flattening(m) => AppliedKeeps(start, m.desk, m.fills, filled);
  }

  lemma {:induction false} DroppedKeeps(start: real, s: State)
    requires s.Running? && Inv(start, s.desk, s.filled)
    ensures Inv(start, Dropped(s).desk, s.filled) && Dropped(s).desk.book.pending == []
  {
    hide Ids, FillIds, Sound, Issued, OrdersOf;
    IdsConcat(s.desk.book.unfilled, s.desk.book.pending);
    SoundIgnoresMarks(start, s.desk.account, {}, map[], s.filled);
    NothingSplits();
    assert Tracks(Dropped(s).desk.account, multiset{});
  }

  // ---- Whole replays ----

  ghost predicate Good(start: real, s: State) {
    s.Running? ==> Inv(start, s.desk, s.filled)
  }

  lemma {:induction false} StartGood(c: PortfolioConfig)
    ensures Good(c.startingCash, Start(c))
  {
    NothingSplits();
    assert multiset(NoOrders.pending) + OrdersOf([]) == multiset{};
    var none: seq<Fill> := [];
    assert none + none == none;
  }

  lemma {:induction false} CloseGood(c: PortfolioConfig, ec: ExecutionConfig, s: State)
    requires ec.Valid() && s.Running? && Good(c.startingCash, s)
    ensures Good(c.startingCash, CloseSession(c, ec, s)) && Good(c.startingCash, EndSession(c, ec, s))
    ensures EndSession(c, ec, s).Running? ==> EndSession(c, ec, s).desk.book.pending == []
    ensures EndSession(c, ec, s).Raised? <==>
      c.endOfDayFlatten && s.last != map[] &&
      exists k :: 0 <= k < |s.desk.account.positions| && Stranded(s.desk, s.last, s.desk.account.positions[k])
  {
    hide Inv, Flattened, Stranded, Flush;
    FlattenRaisesIffStranded(c.startingCash, ec, s.desk, s.lastTime, s.last, s.filled);
    var t := CloseSession(c, ec, s);
    if t.Running? { DroppedKeeps(c.startingCash, t); }
  }

  lemma {:induction false} AcceptedGood(c: PortfolioConfig, ec: ExecutionConfig, s: State, i: Item)
    requires ec.Valid() && s.Running? && Good(c.startingCash, s)
    ensures Good(c.startingCash, Accepted(c, ec, s, i)) && Accepted(c, ec, s, i).Running?
  {
    hide Inv, QuoteSeen, RiskSwept, ConsiderCandidate;
    var f, t, start := i.feature, i.timestamp, c.startingCash;
    QuoteKeeps(start, ec, s.desk, t, f, s.filled);
    var s1 := s.(last := s.last[f.symbol := f]);
    var s2 := if i.isQuote then Moving(s1, QuoteSeen(ec, s1.desk, t, f)) else s1;
    var ps := s2.desk.account.positions;
    InvPositions(start, s2.desk, s2.filled);
    RiskKeeps(start, c, ec, s2.desk, |ps|, t, f, i.isQuote, s2.filled);
    assert ps[..|ps|] == ps;
    var s3 := Moving(s2, RiskSwept(c, ec, s2.desk, ps, t, f, i.isQuote));
    CandidateKeeps(start, c, ec, s3.desk, Candidate(t, f.symbol, i.action, f), i.isQuote, s3.filled);
  }

  lemma {:induction false} ItemsGood(c: PortfolioConfig, ec: ExecutionConfig, items: seq<Item>)
    requires ec.Valid()
    ensures Good(c.startingCash, RunItems(c, ec, items))
  {
    hide Inv, EndSession, Accepted;
    if items == [] {
      StartGood(c);
    } else {
      var s, i := RunItems(c, ec, items[..|items| - 1]), items[|items| - 1];
      ItemsGood(c, ec, items[..|items| - 1]);
      if s.Running? {
        CloseGood(c, ec, s);
        var t := if s.session.Some? && s.session.value != i.session then EndSession(c, ec, s) else s;
        if t.Running? { AcceptedGood(c, ec, t.(session := Some(i.session), lastTime := i.timestamp), i); }
      }
    }
  }

  /**
    At every point of every replay that has not raised: the cash identity holds, every order number issued is on
    exactly one filled, pending or unfilled order, the pending marks are the symbols of the pending orders, one
    each, every pending order matches its position (or has none, for an entry), and no fill was ever ignored.
   */
  lemma {:induction false} ReplayKeepsBooks(c: PortfolioConfig, ec: ExecutionConfig, items: seq<Item>)
    requires ec.Valid()
    ensures
      var s := RunItems(c, ec, items);
      s.Running? ==>
        && CashBalanced(c.startingCash, s.desk.account)
        && Conserved(s.desk.book, s.filled)
        && NoneIgnored(s.desk.account, s.filled)
        && OnePerSymbol(s.desk.account.positions)
        && Tracks(s.desk.account, multiset(s.desk.book.pending))
  {
    hide RunItems, CashBalanced, OnePerSymbol, NoneIgnored, Tracks, Ids, FillIds;
    ItemsGood(c, ec, items);
    var s := RunItems(c, ec, items);
    if s.Running? {
      NothingSplits();
      assert multiset(s.desk.book.pending) + OrdersOf([]) == multiset(s.desk.book.pending);
      assert s.filled + [] == s.filled;
    }
  }

  /**
    A finished replay has nothing pending: every order number issued was filled or went unfilled, once. And when
    it ends flat its equity, on any quote, is the starting cash plus the net profit of every completed trade.
   */
  lemma {:induction false} FinishedReplay(c: PortfolioConfig, ec: ExecutionConfig, items: seq<Item>, id: nat,
      f: Feature)
    requires ec.Valid()
    ensures
      var s := Run(c, ec, items);
      s.Running? ==>
        && s.desk.book.pending == []
        && FillIds(s.filled)[id] + Ids(s.desk.book.unfilled)[id] == (if 1 <= id < s.desk.book.nextId then 1 else 0)
        && Equity(s.desk.account, f) ==
             c.startingCash + NetOf(s.desk.account.trades) + Unrealized(s.desk.account.positions, f)
             - EntryCosts(s.desk.account.positions)
        && (s.desk.account.positions == [] ==>
             Equity(s.desk.account, f) == c.startingCash + NetOf(s.desk.account.trades))
  {
    hide RunItems, EndSession, OnePerSymbol, FillsFor, Tracks, Ids, FillIds, Issued, Equity, NetOf, Unrealized,
      EntryCosts, LongNotional;
    ItemsGood(c, ec, items);
    var r := RunItems(c, ec, items);
    if r.Running? {
      CloseGood(c, ec, r);
      var s := EndSession(c, ec, r);
      if s.Running? {
        assert s.filled + [] == s.filled;
        ExactlyOneFate(s.desk.book, s.filled, id);
        NothingSplits();
        EquityIdentity(c.startingCash, s.desk.account, f);
        if s.desk.account.positions == [] { FlatEquity(c.startingCash, s.desk.account, f); }
      }
    }
  }

  /** A session end raises exactly when it flattens and some open position is stranded; nothing else raises. */
  lemma {:induction false} ReplayRaisesIffStranded(c: PortfolioConfig, ec: ExecutionConfig, items: seq<Item>,
      next: Item)
    requires ec.Valid() && RunItems(c, ec, items).Running?
    ensures
      var s := RunItems(c, ec, items);
      var stranded := c.endOfDayFlatten && s.last != map[] &&
        exists k :: 0 <= k < |s.desk.account.positions| && Stranded(s.desk, s.last, s.desk.account.positions[k]);
      && (Run(c, ec, items).Raised? <==> stranded)
      && (RunItems(c, ec, items + [next]).Raised? <==> s.session.Some? && s.session.value != next.session && stranded)
  {
    hide Inv, EndSession, Accepted, Stranded;
    ItemsGood(c, ec, items);
    var s := RunItems(c, ec, items);
    CloseGood(c, ec, s);
    assert (items + [next])[..|items|] == items;
    var t := if s.session.Some? && s.session.value != next.session then EndSession(c, ec, s) else s;
    if t.Running? { AcceptedGood(c, ec, t.(session := Some(next.session), lastTime := next.timestamp), next); }
  }

  // ---- What flattening closes ----

  predicate Exits(fills: seq<Fill>) {
    forall k :: 0 <= k < |fills| ==> fills[k].order.purpose == Exit
  }

  predicate FilledFor(fills: seq<Fill>, symbol: nat) {
    exists k :: 0 <= k < |fills| && fills[k].order.symbol == symbol
  }

  lemma {:induction false} ExitsClose(a: Account, fills: seq<Fill>, symbol: nat)
    requires Exits(fills)
    ensures Find(ApplyFills(a, fills).positions, symbol) == if FilledFor(fills, symbol) then None
      else Find(a.positions, symbol)
    decreases |fills|
  {
    hide Find, Without, Dollars;
    if fills != [] {
      var front, x := fills[..|fills| - 1], fills[|fills| - 1];
      ExitsClose(a, front, symbol);
      FindAfterWithout(ApplyFills(a, front).positions, x.order.symbol, symbol);
      assert FilledFor(fills, symbol) <==> FilledFor(front, symbol) || x.order.symbol == symbol;
    }
  }

  /** The exit side of the position's latest quote is usable. */
  predicate Closable(d: Desk, features: map<nat, Feature>, p: Position) {
    && p.symbol !in d.account.pending && p.symbol in features
    && var f := features[p.symbol];
      f.symbol == p.symbol && f.raw.spreadValid
        && ReferencePrice(if p.direction == LongPosition then Sell else Buy, f).Some?
  }

  lemma {:induction false} SweepFills(ec: ExecutionConfig, d: Desk, n: nat, t: nat, features: map<nat, Feature>)
    requires ec.Valid() && OnePerSymbol(d.account.positions) && n <= |d.account.positions|
    ensures
      var ps := d.account.positions;
      match FlattenSwept(ec, d, ps[..n], t, features)
      case NoFeatureForPosition => true
      case Flattening(m) =>
        && Exits(m.fills) && m.desk.account.positions == ps
        && (forall k :: 0 <= k < n ==> (FilledFor(m.fills, ps[k].symbol) <==> Closable(d, features, ps[k])))
        && (forall k ::
             n <= k < |ps| ==>
               && !FilledFor(m.fills, ps[k].symbol)
               && (ps[k].symbol in m.desk.account.pending <==> ps[k].symbol in d.account.pending))
    decreases n
  {
    var ps := d.account.positions;
    if n > 0 {
      assert ps[..n][..n - 1] == ps[..n - 1];
      SweepFills(ec, d, n - 1, t, features);
      var p := ps[n - 1];
      match FlattenSwept(ec, d, ps[..n - 1], t, features)
      case NoFeatureForPosition =>
      case Flattening(m) =>
        hide Find, FlattenSwept;
        if p.symbol !in m.desk.account.pending && p.symbol in features {
          var x := Placed(ec, m.desk, ExitOrder(ec, m.desk, p, t, EndOfDay, t), t, features[p.symbol], true, true);
          ForcedExit(ec, m.desk, p, t, features[p.symbol]);
          forall s ensures FilledFor(m.fills + x.fills, s) <==> FilledFor(m.fills, s) || FilledFor(x.fills, s) {
            FilledForConcat(m.fills, x.fills, s);
          }
        }
    }
  }

  lemma {:induction false} FilledForConcat(a: seq<Fill>, b: seq<Fill>, symbol: nat)
    ensures FilledFor(a + b, symbol) <==> FilledFor(a, symbol) || FilledFor(b, symbol)
  {
    if FilledFor(a, symbol) {
      var k :| 0 <= k < |a| && a[k].order.symbol == symbol;
      assert (a + b)[k] == a[k];
    }
    if FilledFor(b, symbol) {
      var k :| 0 <= k < |b| && b[k].order.symbol == symbol;
      assert (a + b)[|a| + k] == b[k];
    }
  }

  lemma {:induction false} ForcedExit(ec: ExecutionConfig, d: Desk, p: Position, t: nat, f: Feature)
    requires ec.Valid()
    ensures
      var m := Placed(ec, d, ExitOrder(ec, d, p, t, EndOfDay, t), t, f, true, true);
      && Exits(m.fills) && m.desk.account.positions == d.account.positions
      && m.desk.account.pending == d.account.pending + {p.symbol}
      && forall s :: FilledFor(m.fills, s) <==>
           (s == p.symbol && f.symbol == p.symbol && f.raw.spreadValid
            && ReferencePrice(if p.direction == LongPosition then Sell else Buy, f).Some?)
  {
    hide ReferencePrice;
    var m := Placed(ec, d, ExitOrder(ec, d, p, t, EndOfDay, t), t, f, true, true);
    if m.fills != [] { assert m.fills[0].order.symbol == p.symbol; }
  }

  /**
    Flattening closes a position exactly when no order of its own is pending and the exit side of its symbol's
    latest quote is usable; so the book is flat after the end of a day exactly when that holds of every position.
   */
  lemma {:induction false} FlatAfterFlattenIff(start: real, ec: ExecutionConfig, d: Desk, t: nat,
      features: map<nat, Feature>, filled: seq<Fill>)
    requires ec.Valid() && Inv(start, d, filled) && Flattened(ec, d, t, features).Flattening?
    ensures
      var ps, after := d.account.positions, Flattened(ec, d, t, features).moved.desk.account.positions;
      && (forall k :: 0 <= k < |ps| ==> (Find(after, ps[k].symbol).None? <==> Closable(d, features, ps[k])))
      && (after == [] <==> forall k :: 0 <= k < |ps| ==> Closable(d, features, ps[k]))
  {
    hide Inv, Find, FlattenSwept, ApplyFills, Closable, Exits, FilledFor;
    InvPositions(start, d, filled);
    var ps := d.account.positions;
    SweepFills(ec, d, |ps|, t, features);
    assert ps[..|ps|] == ps;
    var m := FlattenSwept(ec, d, ps, t, features).moved;
    var after := ApplyFills(m.desk.account, m.fills).positions;
    forall k | 0 <= k < |ps| ensures Find(after, ps[k].symbol).None? <==> Closable(d, features, ps[k]) {
      FindHeld(ps, k);
      ExitsClose(m.desk.account, m.fills, ps[k].symbol);
    }
    forall symbol | Find(ps, symbol).None?
      ensures Find(after, symbol).None? { ExitsClose(m.desk.account, m.fills, symbol); }
    EmptyIffNoneFound(after);
    if forall k :: 0 <= k < |ps| ==> Closable(d, features, ps[k]) {
      forall symbol ensures Find(after, symbol).None? {
        FoundIsHeld(ps, symbol);
        if Find(ps, symbol).Some? {
          var k :| 0 <= k < |ps| && ps[k] == Find(ps, symbol).value;
          assert Closable(d, features, ps[k]);
        }
      }
    }
  }

  lemma {:induction false} EmptyIffNoneFound(ps: seq<Position>)
    ensures ps == [] <==> forall symbol: nat :: Find(ps, symbol).None?
  {
    if ps != [] { assert Find(ps, ps[|ps| - 1].symbol).Some?; }
  }
}
