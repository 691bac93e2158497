// Every fill of a whole replay is made at the first quote that can make it.
module BacktestFills {
  import opened MarketTypes
  import opened Execution
  import opened Portfolio
  import opened BacktestReplay

  // ---- The order-book operations of a replay, event by event ----

  function EntryOps(c: PortfolioConfig, ec: ExecutionConfig, d: Desk, cand: Candidate, direction: Direction,
      isQuote: bool): seq<Op> {
    match EntryOrder(c, ec, d, cand, direction)
    case None => []
    case Some(o) => [Place(o, cand.timestamp, cand.feature, isQuote, false)]
  }

  function CandidateOps(c: PortfolioConfig, ec: ExecutionConfig, d: Desk, cand: Candidate, isQuote: bool): seq<Op>
    requires ec.Valid()
  {
    var desired := if cand.action == LongCandidate then LongPosition else ShortPosition;
    var t := cand.timestamp;
    if cand.action == NoAction || cand.symbol in d.account.pending || (desired == ShortPosition && !c.enableShort)
      then []
    else match Find(d.account.positions, cand.symbol)
      case None => EntryOps(c, ec, d, cand, desired, isQuote)
      case Some(p) =>
        if p.direction == desired || !c.oppositeExit then []
        else
          var o := ExitOrder(ec, d, p, t, OppositeCandidate, t);
          var out := PlacedAndApplied(ec, d, o, t, cand.feature, isQuote);
          var flat := Find(out.desk.account.positions, cand.symbol).None?;
          [Place(o, t, cand.feature, isQuote, false)] +
            if c.reverseSameEvent && out.fills != [] && flat
            then EntryOps(c, ec, out.desk, cand, desired, isQuote) else []
  }

  function RiskOps(c: PortfolioConfig, ec: ExecutionConfig, d: Desk, ps: seq<Position>, t: nat, f: Feature,
      isQuote: bool): seq<Op>
    requires ec.Valid()
  {
    if ps == [] then []
    else
      var m, p := RiskSwept(c, ec, d, ps[..|ps| - 1], t, f, isQuote), ps[|ps| - 1];
      var reason := RiskReason(c, t, f, p, isQuote);
      RiskOps(c, ec, d, ps[..|ps| - 1], t, f, isQuote) +
        if p.symbol in m.desk.account.pending || reason == NoReason then []
        else [Place(ExitOrder(ec, m.desk, p, t, reason, p.candidateTime), t, f, isQuote && f.symbol == p.symbol, false)]
  }

  function FlattenOps(ec: ExecutionConfig, d: Desk, ps: seq<Position>, t: nat, features: map<nat, Feature>): seq<Op>
    requires ec.Valid()
  {
    if ps == [] then []
    else
      var p := ps[|ps| - 1];
      var before := FlattenSwept(ec, d, ps[..|ps| - 1], t, features);
      FlattenOps(ec, d, ps[..|ps| - 1], t, features) +
        if before.NoFeatureForPosition? || p.symbol in before.moved.desk.account.pending || p.symbol !in features
          then []
        else [Place(ExitOrder(ec, before.moved.desk, p, t, EndOfDay, t), t, features[p.symbol], true, true)]
  }

  /** The end of a session: forced exits on the session's latest features, then everything pending is dropped. */
  function EndOps(c: PortfolioConfig, ec: ExecutionConfig, s: State): seq<Op>
    requires ec.Valid() && s.Running?
  {
    var places :=
      if s.last == map[] || !c.endOfDayFlatten then []
      else FlattenOps(ec, s.desk, s.desk.account.positions, s.lastTime, s.last);
    places + [Drop]
  }

  /** An accepted event after pending orders have seen its quote: risk exits, then the candidate. */
  function TradeOps(c: PortfolioConfig, ec: ExecutionConfig, s: State, i: Item): seq<Op>
    requires ec.Valid() && s.Running?
  {
    var f, t := i.feature, i.timestamp;
    var d := if i.isQuote then QuoteSeen(ec, s.desk, t, f).desk else s.desk;
    var swept := RiskSwept(c, ec, d, d.account.positions, t, f, i.isQuote).desk;
    RiskOps(c, ec, d, d.account.positions, t, f, i.isQuote)
      + CandidateOps(c, ec, swept, Candidate(t, f.symbol, i.action, f), i.isQuote)
  }

  predicate Bounds(s: State, i: Item) {
    s.Running? && s.session.Some? && s.session.value != i.session
  }

  predicate IsQuote(i: Item) {
    i.accepted && i.isQuote
  }

  /** The state in which an event is looked at, past any session boundary before it. */
  function Entered(c: PortfolioConfig, ec: ExecutionConfig, s: State, i: Item): State
    requires ec.Valid()
  {
    if Bounds(s, i) then EndSession(c, ec, s) else s
  }

  function StepOps(c: PortfolioConfig, ec: ExecutionConfig, s: State, i: Item): seq<Op>
    requires ec.Valid() && s.Running?
  {
    var t := Entered(c, ec, s, i);
    (if Bounds(s, i) then EndOps(c, ec, s) else [])
      + (if t.Running? && IsQuote(i) then [See(i.timestamp, i.feature)] else [])
      + (if t.Running? && i.accepted then TradeOps(c, ec, t, i) else [])
  }

  /** Every operation the replay of these events performs on the order book, in order. */
  function OpsOf(c: PortfolioConfig, ec: ExecutionConfig, items: seq<Item>): seq<Op>
    requires ec.Valid()
  {
    if items == [] then []
    else
      var s := RunItems(c, ec, items[..|items| - 1]);
      OpsOf(c, ec, items[..|items| - 1]) + if s.Running? then StepOps(c, ec, s, items[|items| - 1]) else []
  }

  // ---- Those operations are what the replay's book and fills come from ----

  /** Pending orders and fills of a series of operations. */
  datatype Ledger = Ledger(pending: seq<Order>, fills: seq<Fill>)

  function Booked(ec: ExecutionConfig, pending: seq<Order>, ops: seq<Op>): Ledger
    requires ec.Valid()
  {
    if ops == [] then Ledger(pending, [])
    else
      var before := Booked(ec, pending, ops[..|ops| - 1]);
      var r := Applied(ec, OrderBook(0, before.pending, []), ops[|ops| - 1]);
      Ledger(r.book.pending, before.fills + r.fills)
  }

  lemma {:induction false} BookedConcat(ec: ExecutionConfig, pending: seq<Order>, a: seq<Op>, b: seq<Op>)
    requires ec.Valid()
    ensures
      var l := Booked(ec, pending, a);
      var m := Booked(ec, l.pending, b);
      Booked(ec, pending, a + b) == Ledger(m.pending, l.fills + m.fills)
    decreases |b|
  {
    hide Applied;
    if b == [] {
      assert a + b == a && Booked(ec, pending, a).fills + [] == Booked(ec, pending, a).fills;
    } else {
      assert (a + b)[..|a + b| - 1] == a + b[..|b| - 1];
      BookedConcat(ec, pending, a, b[..|b| - 1]);
    }
  }

  // Fills and pending orders depend on the pending orders only.
  lemma {:induction false} AppliedDependsOnPending(ec: ExecutionConfig, a: OrderBook, b: OrderBook, op: Op)
    requires ec.Valid() && a.pending == b.pending
    ensures Applied(ec, a, op).fills == Applied(ec, b, op).fills
      && Applied(ec, a, op).book.pending == Applied(ec, b, op).book.pending
  {
    hide MakeFill, Immediate, Queued, Remaining, FillsOf;
  }

  lemma {:induction false} BookedOne(ec: ExecutionConfig, b: OrderBook, op: Op)
    requires ec.Valid()
    ensures Booked(ec, b.pending, [op]) == Ledger(Applied(ec, b, op).book.pending, Applied(ec, b, op).fills)
  {
    AppliedDependsOnPending(ec, OrderBook(0, b.pending, []), b, op);
    hide Applied;
    assert [op][..0] == [];
    assert Booked(ec, b.pending, [op][..0]) == Ledger(b.pending, []);
  }

  /** The operations explain a movement of the desk. */
  predicate Explains(ec: ExecutionConfig, d: Desk, ops: seq<Op>, m: Moved)
    requires ec.Valid()
  {
    Booked(ec, d.book.pending, ops) == Ledger(m.desk.book.pending, m.fills)
  }

  lemma {:induction false} PlacedExplained(ec: ExecutionConfig, d: Desk, o: Order, t: nat, f: Feature, isQuote: bool,
      forced: bool)
    requires ec.Valid()
    ensures Explains(ec, d, [Place(o, t, f, isQuote, forced)], Placed(ec, d, o, t, f, isQuote, forced))
  {
    BookedOne(ec, d.book.(nextId := d.book.nextId + 1), Place(o, t, f, isQuote, forced));
    hide Submit, Booked;
  }

  lemma {:induction false} QuoteExplained(ec: ExecutionConfig, d: Desk, t: nat, f: Feature)
    requires ec.Valid()
    ensures Explains(ec, d, [See(t, f)], QuoteSeen(ec, d, t, f))
  {
    BookedOne(ec, d.book, See(t, f));
    hide OnQuote, Booked, ApplyFills;
  }

  lemma {:induction false} ThenExplained(ec: ExecutionConfig, d: Desk, a: seq<Op>, m: Moved, b: seq<Op>, n: Moved)
    requires ec.Valid() && Explains(ec, d, a, m) && Explains(ec, m.desk, b, n)
    ensures Explains(ec, d, a + b, Moved(n.desk, m.fills + n.fills))
  {
    hide Booked;
    BookedConcat(ec, d.book.pending, a, b);
  }

  lemma {:induction false} NothingExplained(ec: ExecutionConfig, d: Desk)
    requires ec.Valid()
    ensures Explains(ec, d, [], Moved(d, []))
  {
  }

  lemma {:induction false} EntryExplained(c: PortfolioConfig, ec: ExecutionConfig, d: Desk, cand: Candidate,
      direction: Direction, isQuote: bool)
    requires ec.Valid()
    ensures Explains(ec, d, EntryOps(c, ec, d, cand, direction, isQuote),
      EnterIfAllowed(c, ec, d, cand, direction, isQuote))
  {
    hide Placed, EntryOrder, Booked, ApplyFills;
    match EntryOrder(c, ec, d, cand, direction)
    case None => NothingExplained(ec, d);
    case Some(o) => PlacedExplained(ec, d, o, cand.timestamp, cand.feature, isQuote, false);
  }

  lemma {:induction false} CandidateExplained(c: PortfolioConfig, ec: ExecutionConfig, d: Desk, cand: Candidate,
      isQuote: bool)
    requires ec.Valid()
    ensures Explains(ec, d, CandidateOps(c, ec, d, cand, isQuote), ConsiderCandidate(c, ec, d, cand, isQuote))
  {
    hide Explains, Placed, EntryOps, EnterIfAllowed, Find, ApplyFills;
    var desired := if cand.action == LongCandidate then LongPosition else ShortPosition;
    NothingExplained(ec, d);
    match Find(d.account.positions, cand.symbol)
    case None => EntryExplained(c, ec, d, cand, desired, isQuote);
    case Some(p) =>
      var o := ExitOrder(ec, d, p, cand.timestamp, OppositeCandidate, cand.timestamp);
      var out := PlacedAndApplied(ec, d, o, cand.timestamp, cand.feature, isQuote);
      var first := [Place(o, cand.timestamp, cand.feature, isQuote, false)];
      PlacedExplained(ec, d, o, cand.timestamp, cand.feature, isQuote, false);
      SameBook(ec, d, first, Placed(ec, d, o, cand.timestamp, cand.feature, isQuote, false), out);
      EntryExplained(c, ec, out.desk, cand, desired, isQuote);
      ThenExplained(ec, d, first, out, EntryOps(c, ec, out.desk, cand, desired, isQuote),
        EnterIfAllowed(c, ec, out.desk, cand, desired, isQuote));
      assert first + [] == first;
  }

  // The account does not matter.
  lemma {:induction false} SameBook(ec: ExecutionConfig, d: Desk, ops: seq<Op>, m: Moved, n: Moved)
    requires ec.Valid() && Explains(ec, d, ops, m) && m.desk.book == n.desk.book && m.fills == n.fills
    ensures Explains(ec, d, ops, n)
  {
  }

  lemma {:induction false} RiskExplained(c: PortfolioConfig, ec: ExecutionConfig, d: Desk, ps: seq<Position>, t: nat,
      f: Feature, isQuote: bool)
    requires ec.Valid()
    ensures Explains(ec, d, RiskOps(c, ec, d, ps, t, f, isQuote), RiskSwept(c, ec, d, ps, t, f, isQuote))
    decreases |ps|
  {
    hide Explains, Placed, ApplyFills, RiskReason, ExitOrder;
    if ps == [] {
      NothingExplained(ec, d);
    } else {
      var m, p := RiskSwept(c, ec, d, ps[..|ps| - 1], t, f, isQuote), ps[|ps| - 1];
      var ops := RiskOps(c, ec, d, ps[..|ps| - 1], t, f, isQuote);
      RiskExplained(c, ec, d, ps[..|ps| - 1], t, f, isQuote);
      var reason := RiskReason(c, t, f, p, isQuote);
      var o, own := ExitOrder(ec, m.desk, p, t, reason, p.candidateTime), isQuote && f.symbol == p.symbol;
      var n := RiskChecked(c, ec, m.desk, p, t, f, isQuote);
      if p.symbol in m.desk.account.pending || reason == NoReason {
        NothingExplained(ec, m.desk);
        ThenExplained(ec, d, ops, m, [], n);
      } else {
        PlacedExplained(ec, m.desk, o, t, f, own, false);
        SameBook(ec, m.desk, [Place(o, t, f, own, false)], Placed(ec, m.desk, o, t, f, own, false), n);
        ThenExplained(ec, d, ops, m, [Place(o, t, f, own, false)], n);
      }
    }
  }

  lemma {:induction false} FlattenExplained(ec: ExecutionConfig, d: Desk, ps: seq<Position>, t: nat,
      features: map<nat, Feature>)
    requires ec.Valid() && FlattenSwept(ec, d, ps, t, features).Flattening?
    ensures Explains(ec, d, FlattenOps(ec, d, ps, t, features), FlattenSwept(ec, d, ps, t, features).moved)
    decreases |ps|
  {
    hide Explains, Placed, ExitOrder;
    if ps == [] {
      NothingExplained(ec, d);
    } else {
      var p := ps[|ps| - 1];
      FlattenExplained(ec, d, ps[..|ps| - 1], t, features);
      var m := FlattenSwept(ec, d, ps[..|ps| - 1], t, features).moved;
      var ops := FlattenOps(ec, d, ps[..|ps| - 1], t, features);
      if p.symbol in m.desk.account.pending {
        assert ops + [] == ops;
      } else {
        var o := ExitOrder(ec, m.desk, p, t, EndOfDay, t);
        PlacedExplained(ec, m.desk, o, t, features[p.symbol], true, true);
        ThenExplained(ec, d, ops, m, [Place(o, t, features[p.symbol], true, true)],
          Placed(ec, m.desk, o, t, features[p.symbol], true, true));
      }
    }
  }

  lemma {:induction false} DropExplained(ec: ExecutionConfig, d: Desk, a: Account)
    requires ec.Valid()
    ensures Explains(ec, d, [Drop], Moved(Desk(a, Flush(d.book)), []))
  {
    BookedOne(ec, d.book, Drop);
  }

  /** A running state is accounted for by operations when its pending orders and all its fills are theirs. */
  predicate Accounts(ec: ExecutionConfig, ops: seq<Op>, s: State)
    requires ec.Valid()
  {
    s.Running? ==> Booked(ec, [], ops) == Ledger(s.desk.book.pending, s.filled)
  }

  lemma {:induction false} MovedAccounts(ec: ExecutionConfig, ops: seq<Op>, s: State, more: seq<Op>, m: Moved)
    requires ec.Valid() && s.Running? && Accounts(ec, ops, s) && Explains(ec, s.desk, more, m)
    ensures Accounts(ec, ops + more, Moving(s, m))
  {
    hide Booked;
    BookedConcat(ec, [], ops, more);
  }

  lemma {:induction false} EndAccounts(c: PortfolioConfig, ec: ExecutionConfig, ops: seq<Op>, s: State)
    requires ec.Valid() && s.Running? && Accounts(ec, ops, s)
    ensures Accounts(ec, ops + EndOps(c, ec, s), EndSession(c, ec, s))
  {
    hide Accounts, Explains, FlattenSwept, FlattenOps, ApplyFills, Flush;
    var closed := CloseSession(c, ec, s);
    if closed.Running? {
      var ps := s.desk.account.positions;
      var places :=
        if s.last == map[] || !c.endOfDayFlatten then [] else FlattenOps(ec, s.desk, ps, s.lastTime, s.last);
      if s.last == map[] || !c.endOfDayFlatten {
        assert ops + places == ops;
      } else {
        FlattenExplained(ec, s.desk, ps, s.lastTime, s.last);
        var m := FlattenSwept(ec, s.desk, ps, s.lastTime, s.last).moved;
        var n := Moved(m.desk.(account := ApplyFills(m.desk.account, m.fills)), m.fills);
        SameBook(ec, s.desk, places, m, n);
        MovedAccounts(ec, ops, s, places, n);
      }
      assert Accounts(ec, ops + places, closed);
      var gone := closed.desk.account.(pending := {}, pendingIds := map[]);
      DropExplained(ec, closed.desk, gone);
      var n := Moved(Desk(gone, Flush(closed.desk.book)), []);
      MovedAccounts(ec, ops + places, closed, [Drop], n);
      SameAccounts(ec, ops + places + [Drop], Moving(closed, n), EndSession(c, ec, s));
      assert ops + places + [Drop] == ops + EndOps(c, ec, s);
    } else {
      RaisedAccounts(ec, ops + EndOps(c, ec, s));
    }
  }

  lemma {:induction false} RaisedAccounts(ec: ExecutionConfig, ops: seq<Op>)
    requires ec.Valid()
    ensures Accounts(ec, ops, Raised)
  {
  }

  lemma {:induction false} SameAccounts(ec: ExecutionConfig, ops: seq<Op>, s: State, t: State)
    requires ec.Valid() && s.Running? && t.Running? && s.desk.book.pending == t.desk.book.pending
      && s.filled == t.filled
    ensures Accounts(ec, ops, s) == Accounts(ec, ops, t)
  {
  }

  lemma {:induction false} AcceptedAccounts(c: PortfolioConfig, ec: ExecutionConfig, ops: seq<Op>, s: State, i: Item)
    requires ec.Valid() && s.Running? && i.accepted && Accounts(ec, ops, s)
    ensures
      var seen := if i.isQuote then [See(i.timestamp, i.feature)] else [];
      Accounts(ec, ops + seen + TradeOps(c, ec, s, i), Accepted(c, ec, s, i))
  {
    hide Accounts, Explains, QuoteSeen, RiskSwept, ConsiderCandidate, RiskOps, CandidateOps;
    var f, t := i.feature, i.timestamp;
    var s1 := s.(last := s.last[f.symbol := f]);
    SameAccounts(ec, ops, s, s1);
    var seen := if i.isQuote then [See(t, f)] else [];
    var s2 := if i.isQuote then Moving(s1, QuoteSeen(ec, s1.desk, t, f)) else s1;
    if i.isQuote {
      QuoteExplained(ec, s1.desk, t, f);
      MovedAccounts(ec, ops, s1, seen, QuoteSeen(ec, s1.desk, t, f));
    } else {
      assert ops + seen == ops;
    }
    var ps := s2.desk.account.positions;
    var risk := RiskOps(c, ec, s2.desk, ps, t, f, i.isQuote);
    RiskExplained(c, ec, s2.desk, ps, t, f, i.isQuote);
    MovedAccounts(ec, ops + seen, s2, risk, RiskSwept(c, ec, s2.desk, ps, t, f, i.isQuote));
    var s3 := Moving(s2, RiskSwept(c, ec, s2.desk, ps, t, f, i.isQuote));
    var cand := Candidate(t, f.symbol, i.action, f);
    CandidateExplained(c, ec, s3.desk, cand, i.isQuote);
    MovedAccounts(ec, ops + seen + risk, s3, CandidateOps(c, ec, s3.desk, cand, i.isQuote),
      ConsiderCandidate(c, ec, s3.desk, cand, i.isQuote));
    assert ops + seen + risk + CandidateOps(c, ec, s3.desk, cand, i.isQuote) == ops + seen + TradeOps(c, ec, s, i);
  }

  lemma {:induction false} StepAccounts(c: PortfolioConfig, ec: ExecutionConfig, ops: seq<Op>, s: State, i: Item)
    requires ec.Valid() && s.Running? && Accounts(ec, ops, s)
    ensures Accounts(ec, ops + StepOps(c, ec, s, i), Step(c, ec, s, i))
  {
    hide Accounts, EndSession, Accepted, EndOps, TradeOps;
    var t := Entered(c, ec, s, i);
    var ends := if Bounds(s, i) then EndOps(c, ec, s) else [];
    if Bounds(s, i) { EndAccounts(c, ec, ops, s); } else { assert ops + ends == ops; }
    if t.Running? {
      var u := t.(session := Some(i.session), lastTime := i.timestamp);
      SameAccounts(ec, ops + ends, t, u);
      if i.accepted {
        AcceptedAccounts(c, ec, ops + ends, u, i);
        assert TradeOps(c, ec, u, i) == TradeOps(c, ec, t, i) by {
          TradeIgnoresClock(c, ec, t, i, Some(i.session), i.timestamp);
        }
        var seen := if i.isQuote then [See(i.timestamp, i.feature)] else [];
        assert ops + ends + seen + TradeOps(c, ec, t, i) == ops + StepOps(c, ec, s, i);
      } else {
        assert ops + ends == ops + StepOps(c, ec, s, i);
      }
    } else {
      RaisedAccounts(ec, ops + StepOps(c, ec, s, i));
    }
  }

  lemma {:induction false} TradeIgnoresClock(c: PortfolioConfig, ec: ExecutionConfig, s: State, i: Item,
      session: Option<int>, time: nat)
    requires ec.Valid() && s.Running?
    ensures TradeOps(c, ec, s.(session := session, lastTime := time), i) == TradeOps(c, ec, s, i)
  {
    hide QuoteSeen, RiskSwept, RiskOps, CandidateOps;
  }

  /** At every point of every replay the pending orders and the fills, in order, are those of its operations. */
  lemma {:induction false} ReplayPerformsItsOps(c: PortfolioConfig, ec: ExecutionConfig, items: seq<Item>)
    requires ec.Valid()
    ensures Accounts(ec, OpsOf(c, ec, items), RunItems(c, ec, items))
  {
    hide Accounts, StepOps, Step;
    if items == [] {
      StartAccounts(c, ec);
    } else {
      var front, last := items[..|items| - 1], items[|items| - 1];
      ReplayPerformsItsOps(c, ec, front);
      var s := RunItems(c, ec, front);
      if s.Running? {
        StepAccounts(c, ec, OpsOf(c, ec, front), s, last);
      } else {
        StillRaised(c, ec, s, last);
        RaisedAccounts(ec, OpsOf(c, ec, items));
      }
    }
  }

  lemma {:induction false} StillRaised(c: PortfolioConfig, ec: ExecutionConfig, s: State, i: Item)
    requires ec.Valid() && s.Raised?
    ensures Step(c, ec, s, i).Raised?
  {
  }

  lemma {:induction false} StartAccounts(c: PortfolioConfig, ec: ExecutionConfig)
    requires ec.Valid()
    ensures Accounts(ec, [], Start(c))
  {
  }
}
