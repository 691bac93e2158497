// What every portfolio operation keeps: the cash identity, the order lifecycle and the match of orders with positions.
module PortfolioAccounting {
  import opened MarketTypes
  import opened Execution
  import opened Portfolio

  // ---- Cash ----

  function EntryCosts(ps: seq<Position>): real {
    if ps == [] then 0.0 else EntryCosts(ps[..|ps| - 1]) + ps[|ps| - 1].entryCosts
  }

  function NetOf(ts: seq<Trade>): real {
    if ts == [] then 0.0 else NetOf(ts[..|ts| - 1]) + ts[|ts| - 1].net
  }

  /** Cash plus what is tied up in open longs and open entry costs is the starting cash plus realised profit. */
  predicate CashBalanced(start: real, a: Account) {
    && a.cash + LongNotional(a.positions) + EntryCosts(a.positions) == start + a.realized
    && a.realized == NetOf(a.trades)
  }

  function FillsFor(fills: seq<Fill>, purpose: Purpose): nat {
    if fills == [] then 0
    else FillsFor(fills[..|fills| - 1], purpose) + if fills[|fills| - 1].order.purpose == purpose then 1 else 0
  }

  ghost predicate OnePerSymbol(ps: seq<Position>) {
    && (forall k :: 0 <= k < |ps| ==> ps[k].quantity >= 1)
    && forall i, j :: 0 <= i < j < |ps| ==> ps[i].symbol != ps[j].symbol
  }

  /** Every entry fill opened a position and every exit fill closed one: none was ignored. */
  predicate NoneIgnored(a: Account, applied: seq<Fill>) {
    FillsFor(applied, Exit) == |a.trades| && FillsFor(applied, Entry) == |a.positions| + |a.trades|
  }

  ghost predicate Sound(start: real, a: Account, applied: seq<Fill>) {
    CashBalanced(start, a) && OnePerSymbol(a.positions) && NoneIgnored(a, applied)
  }

  // ---- Orders ----

  /** An outstanding exit is for the whole open position; an outstanding entry has none to collide with. */
  predicate Matches(ps: seq<Position>, o: Order) {
    var held := Find(ps, o.symbol);
    && o.quantity >= 1
    && (o.side == if (o.purpose == Entry) == (o.direction == LongPosition) then Buy else Sell)
    && match o.purpose
       case Entry => held.None?
       case Exit => held.Some? && held.value.direction == o.direction && held.value.quantity == o.quantity
  }

  /** The pending marks are exactly those of the outstanding orders, one order a symbol. */
  ghost predicate Tracks(a: Account, owed: multiset<Order>) {
    && (forall o :: o in owed ==> owed[o] == 1 && o.symbol in a.pending && Matches(a.positions, o))
    && (forall o, p :: o in owed && p in owed && o.symbol == p.symbol ==> o == p)
    && (forall s :: s in a.pending ==> s in a.pendingIds && exists o :: o in owed && o.symbol == s)
    && (forall s :: s in a.pendingIds ==> s in a.pending)
    && (forall o :: o in owed && o.symbol in a.pendingIds ==> a.pendingIds[o.symbol] == o.id)
  }

  function OrdersOf(fills: seq<Fill>): multiset<Order> {
    if fills == [] then multiset{} else OrdersOf(fills[..|fills| - 1]) + multiset{fills[|fills| - 1].order}
  }

  function Ids(orders: seq<Order>): multiset<nat> {
    if orders == [] then multiset{} else Ids(orders[..|orders| - 1]) + multiset{orders[|orders| - 1].id}
  }

  function FillIds(fills: seq<Fill>): multiset<nat> {
    if fills == [] then multiset{} else FillIds(fills[..|fills| - 1]) + multiset{fills[|fills| - 1].order.id}
  }

  function Issued(nextId: nat): multiset<nat> {
    if nextId <= 1 then multiset{} else Issued(nextId - 1) + multiset{nextId - 1}
  }

  /** Every number issued so far is on exactly one filled, pending or unfilled order, once. */
  predicate Conserved(b: OrderBook, filled: seq<Fill>) {
    b.nextId >= 1 && FillIds(filled) + Ids(b.pending) + Ids(b.unfilled) == Issued(b.nextId)
  }

  lemma {:induction false} IssuedOnce(nextId: nat, id: nat)
    ensures Issued(nextId)[id] == if 1 <= id < nextId then 1 else 0
  {
    if nextId > 1 { IssuedOnce(nextId - 1, id); }
  }

  /** Order `id` was filled, is pending, or went unfilled: exactly one of the three, and only issued numbers occur. */
  lemma {:induction false} ExactlyOneFate(b: OrderBook, filled: seq<Fill>, id: nat)
    requires Conserved(b, filled)
    ensures FillIds(filled)[id] + Ids(b.pending)[id] + Ids(b.unfilled)[id] == if 1 <= id < b.nextId then 1 else 0
  {
    hide FillIds, Ids;
    IssuedOnce(b.nextId, id);
    assert (FillIds(filled) + Ids(b.pending) + Ids(b.unfilled))[id] == Issued(b.nextId)[id];
  }

  // ---- Sequences and multisets ----

  lemma {:induction false} IdsConcat(a: seq<Order>, b: seq<Order>)
    ensures Ids(a + b) == Ids(a) + Ids(b)
  {
    if b == [] {
      assert a + b == a;
    } else {
      assert (a + b)[..|a + b| - 1] == a + b[..|b| - 1];
      IdsConcat(a, b[..|b| - 1]);
    }
  }

  lemma {:induction false} FillsConcat(a: seq<Fill>, b: seq<Fill>)
    ensures FillIds(a + b) == FillIds(a) + FillIds(b) && OrdersOf(a + b) == OrdersOf(a) + OrdersOf(b)
  {
    if b == [] {
      assert a + b == a;
    } else {
      assert (a + b)[..|a + b| - 1] == a + b[..|b| - 1];
      FillsConcat(a, b[..|b| - 1]);
    }
  }

  lemma {:induction false} CountsConcat(a: seq<Fill>, b: seq<Fill>, purpose: Purpose)
    ensures FillsFor(a + b, purpose) == FillsFor(a, purpose) + FillsFor(b, purpose)
  {
    if b == [] {
      assert a + b == a;
    } else {
      assert (a + b)[..|a + b| - 1] == a + b[..|b| - 1];
      CountsConcat(a, b[..|b| - 1], purpose);
    }
  }

  // One more order at the end of a list goes to the fills or stays.
  lemma {:induction false} QuoteSplitsLast(c: ExecutionConfig, orders: seq<Order>, t: nat, f: Feature)
    requires c.Valid() && orders != []
    ensures
      var front, o := orders[..|orders| - 1], orders[|orders| - 1];
      if FillsNow(o, t, f) then
        Remaining(orders, t, f) == Remaining(front, t, f)
        && exists x: Fill :: x.order == o && FillsOf(c, orders, t, f) == FillsOf(c, front, t, f) + [x]
      else
        Remaining(orders, t, f) == Remaining(front, t, f) + [o]
        && FillsOf(c, orders, t, f) == FillsOf(c, front, t, f)
  {
    var front, o := orders[..|orders| - 1], orders[|orders| - 1];
    if FillsNow(o, t, f) {
      FillsUsable(o, t, f);
      FillKeepsOrder(c, o, t, f);
      hide FillsNow, MakeFill, Usable;
      assert FillsOf(c, orders, t, f) == FillsOf(c, front, t, f) + [MakeFill(c, o, t, f)];
    }
  }

  // A quote moves orders from pending to filled and loses none.
  lemma {:induction false} QuoteSplits(c: ExecutionConfig, orders: seq<Order>, t: nat, f: Feature)
    requires c.Valid()
    ensures multiset(Remaining(orders, t, f)) + OrdersOf(FillsOf(c, orders, t, f)) == multiset(orders)
    ensures Ids(Remaining(orders, t, f)) + FillIds(FillsOf(c, orders, t, f)) == Ids(orders)
  {
    OrdersSplit(c, orders, t, f);
    IdsSplit(c, orders, t, f);
  }

  lemma {:induction false} BagGrows<T>(r: multiset<T>, f: multiset<T>, m: multiset<T>, x: T)
    requires r + f == m
    ensures r + (f + multiset{x}) == m + multiset{x} == (r + multiset{x}) + f
  {
  }

  lemma {:induction false} BagOfLast<T>(xs: seq<T>)
    requires xs != []
    ensures multiset(xs) == multiset(xs[..|xs| - 1]) + multiset{xs[|xs| - 1]}
  {
    assert xs == xs[..|xs| - 1] + [xs[|xs| - 1]];
  }

  lemma {:induction false} OrdersOfLast(fills: seq<Fill>, x: Fill)
    ensures OrdersOf(fills + [x]) == OrdersOf(fills) + multiset{x.order}
      && FillIds(fills + [x]) == FillIds(fills) + multiset{x.order.id}
  {
    assert (fills + [x])[..|fills|] == fills;
  }

  lemma {:induction false} OrdersSplit(c: ExecutionConfig, orders: seq<Order>, t: nat, f: Feature)
    requires c.Valid()
    ensures multiset(Remaining(orders, t, f)) + OrdersOf(FillsOf(c, orders, t, f)) == multiset(orders)
  {
    if orders == [] {
      NothingSplits();
    } else {
      var front, o := orders[..|orders| - 1], orders[|orders| - 1];
      OrdersSplit(c, front, t, f);
      QuoteSplitsLast(c, orders, t, f);
      hide *;
      var r, x := Remaining(front, t, f), FillsOf(c, front, t, f);
      BagGrows(multiset(r), OrdersOf(x), multiset(front), o);
      BagOfLast(orders);
      if FillsNow(o, t, f) {
        var last: Fill :| last.order == o && FillsOf(c, orders, t, f) == x + [last];
        OrdersOfLast(x, last);
      } else {
        assert multiset(r + [o]) == multiset(r) + multiset{o};
      }
    }
  }

  lemma {:induction false} IdsSplit(c: ExecutionConfig, orders: seq<Order>, t: nat, f: Feature)
    requires c.Valid()
    ensures Ids(Remaining(orders, t, f)) + FillIds(FillsOf(c, orders, t, f)) == Ids(orders)
  {
    if orders == [] {
      NothingSplits();
    } else {
      var front, o := orders[..|orders| - 1], orders[|orders| - 1];
      IdsSplit(c, front, t, f);
      QuoteSplitsLast(c, orders, t, f);
      IdsLast(orders);
      hide *;
      var r, x := Remaining(front, t, f), FillsOf(c, front, t, f);
      BagGrows(Ids(r), FillIds(x), Ids(front), o.id);
      if FillsNow(o, t, f) {
        var last: Fill :| last.order == o && FillsOf(c, orders, t, f) == x + [last];
        OrdersOfLast(x, last);
      } else {
        IdsConcat(r, [o]);
        SingleId(o);
      }
    }
  }

  lemma {:induction false} IdsLast(orders: seq<Order>)
    requires orders != []
    ensures Ids(orders) == Ids(orders[..|orders| - 1]) + multiset{orders[|orders| - 1].id}
  {
  }

  lemma {:induction false} FillsUsable(o: Order, t: nat, f: Feature)
    requires FillsNow(o, t, f)
    ensures Usable(o, f)
  {
  }

  lemma {:induction false} NothingSplits()
    ensures OrdersOf([]) == multiset{} && Ids([]) == multiset{} && FillIds([]) == multiset{}
  {
  }

  lemma {:induction false} SingleId(o: Order)
    ensures Ids([o]) == multiset{o.id}
  {
    assert [o][..0] == [];
  }

  lemma {:induction false} SingleFill(x: Fill)
    ensures OrdersOf([x]) == multiset{x.order} && FillIds([x]) == multiset{x.order.id}
    ensures forall purpose :: FillsFor([x], purpose) == if x.order.purpose == purpose then 1 else 0
  {
    assert [x][..0] == [];
  }

  // ---- Positions ----

  lemma {:induction false} FindHeld(ps: seq<Position>, k: nat)
    requires OnePerSymbol(ps) && k < |ps|
    ensures Find(ps, ps[k].symbol) == Some(ps[k])
  {
    if k < |ps| - 1 { FindHeld(ps[..|ps| - 1], k); }
  }

  lemma {:induction false} WithoutAbsent(ps: seq<Position>, symbol: nat)
    requires Find(ps, symbol).None?
    ensures Without(ps, symbol) == ps
  {
    if ps != [] {
      WithoutAbsent(ps[..|ps| - 1], symbol);
      assert ps == ps[..|ps| - 1] + [ps[|ps| - 1]];
    }
  }

  lemma {:induction false} FindAfterWithout(ps: seq<Position>, gone: nat, symbol: nat)
    ensures Find(Without(ps, gone), symbol) == if symbol == gone then None else Find(ps, symbol)
  {
    if ps != [] {
      var front, p := ps[..|ps| - 1], ps[|ps| - 1];
      FindAfterWithout(front, gone, symbol);
      assert p.symbol != gone ==> Without(ps, gone) == Without(front, gone) + [p];
      assert p.symbol == gone ==> Without(ps, gone) == Without(front, gone);
    }
  }

  lemma {:induction false} FindAfterOpen(ps: seq<Position>, p: Position, symbol: nat)
    ensures Find(ps + [p], symbol) == if symbol == p.symbol then Some(p) else Find(ps, symbol)
  {
    assert (ps + [p])[..|ps|] == ps;
  }

  // Closing a position takes its terms out of every sum.
  lemma {:induction false} WithoutSums(ps: seq<Position>, symbol: nat)
    requires OnePerSymbol(ps)
    ensures
      var held := Find(ps, symbol);
      var rest := Without(ps, symbol);
      && OnePerSymbol(rest)
      && (forall k :: 0 <= k < |rest| ==> rest[k] in ps)
      && (held.Some? ==>
            && |rest| == |ps| - 1 && held.value.symbol == symbol
            && EntryCosts(rest) == EntryCosts(ps) - held.value.entryCosts
            && LongNotional(rest) == LongNotional(ps) - if held.value.direction == LongPosition
              then Notional(held.value) else 0.0)
  {
    hide Notional;
    if ps != [] {
      var front, p := ps[..|ps| - 1], ps[|ps| - 1];
      WithoutSums(front, symbol);
      if p.symbol == symbol {
        AbsentBefore(ps);
        WithoutAbsent(front, symbol);
        assert Without(ps, symbol) == front;
      } else {
        assert Without(ps, symbol) == Without(front, symbol) + [p];
        assert Without(ps, symbol)[..|Without(front, symbol)|] == Without(front, symbol);
      }
    }
  }

  lemma {:induction false} AbsentBefore(ps: seq<Position>)
    requires OnePerSymbol(ps) && ps != []
    ensures Find(ps[..|ps| - 1], ps[|ps| - 1].symbol).None?
  {
    FoundIsHeld(ps[..|ps| - 1], ps[|ps| - 1].symbol);
  }

  lemma {:induction false} OpenSums(ps: seq<Position>, p: Position)
    ensures EntryCosts(ps + [p]) == EntryCosts(ps) + p.entryCosts
    ensures LongNotional(ps + [p]) == LongNotional(ps) + if p.direction == LongPosition then Notional(p) else 0.0
  {
    assert (ps + [p])[..|ps|] == ps;
  }

  lemma {:induction false} DollarsDifference(a: int, b: int, quantity: nat)
    ensures Dollars(a - b, quantity) == Dollars(a, quantity) - Dollars(b, quantity)
  {
    assert (a - b) * quantity == a * quantity - b * quantity;
  }

  // ---- One fill ----

  /** A fill of a matching order takes a branch that counts, and keeps cash balanced. */
  lemma {:induction false} FillKeepsSound(start: real, a: Account, applied: seq<Fill>, x: Fill)
    requires Sound(start, a, applied) && Matches(a.positions, x.order)
    ensures Sound(start, ApplyFill(a, x), applied + [x])
  {
    hide Find, Without, Dollars, LongNotional, EntryCosts;
    CountsConcat(applied, [x], Entry);
    CountsConcat(applied, [x], Exit);
    SingleFill(x);
    var o := x.order;
    match o.purpose
    case Entry => OpeningKeepsCash(start, a, x);
    case Exit => ClosingKeepsCash(start, a, x);
  }

  lemma {:induction false} OpeningKeepsCash(start: real, a: Account, x: Fill)
    requires CashBalanced(start, a) && OnePerSymbol(a.positions) && Matches(a.positions, x.order)
      && x.order.purpose == Entry
    ensures CashBalanced(start, ApplyFill(a, x)) && OnePerSymbol(ApplyFill(a, x).positions)
    ensures ApplyFill(a, x).positions == a.positions + [Opened(x)] && ApplyFill(a, x).trades == a.trades
  {
    hide Find, Dollars, LongNotional, EntryCosts, NetOf;
    OpenSums(a.positions, Opened(x));
    FoundIsHeld(a.positions, x.order.symbol);
  }

  lemma {:induction false} ClosingKeepsCash(start: real, a: Account, x: Fill)
    requires CashBalanced(start, a) && OnePerSymbol(a.positions) && Matches(a.positions, x.order)
      && x.order.purpose == Exit
    ensures CashBalanced(start, ApplyFill(a, x)) && OnePerSymbol(ApplyFill(a, x).positions)
    ensures |ApplyFill(a, x).positions| == |a.positions| - 1 && |ApplyFill(a, x).trades| == |a.trades| + 1
  {
    hide Find, Without, Dollars, LongNotional, EntryCosts;
    WithoutSums(a.positions, x.order.symbol);
    var p := Find(a.positions, x.order.symbol).value;
    DollarsDifference(x.price, p.entryPrice, p.quantity);
    DollarsDifference(p.entryPrice, x.price, p.quantity);
    var t := Closed(p, x);
    assert (a.trades + [t])[..|a.trades|] == a.trades;
  }

  // Filling an order leaves every other symbol as it was.
  lemma {:induction false} FillFrame(a: Account, x: Fill, symbol: nat)
    requires symbol != x.order.symbol
    ensures Find(ApplyFill(a, x).positions, symbol) == Find(a.positions, symbol)
  {
    hide Find, Without, Dollars;
    FindAfterOpen(a.positions, Opened(x), symbol);
    FindAfterWithout(a.positions, x.order.symbol, symbol);
  }

  lemma {:induction false} FillTracks(a: Account, owed: multiset<Order>, x: Fill)
    requires Tracks(a, owed + multiset{x.order})
    ensures Tracks(ApplyFill(a, x), owed)
    ensures Matches(a.positions, x.order)
  {
    hide Matches;
    var all, t := owed + multiset{x.order}, ApplyFill(a, x);
    assert x.order in all && all[x.order] == 1;
    PendingAfterFill(a, x);
    forall o | o in owed ensures owed[o] == 1 && o.symbol != x.order.symbol && Matches(t.positions, o) {
      assert o in all && all[o] == 1;
      MatchesFrame(a, x, o);
    }
    forall s | s in t.pending ensures s in t.pendingIds && exists o :: o in owed && o.symbol == s {
      var o :| o in all && o.symbol == s;
      assert o in owed;
    }
  }

  lemma {:induction false} PendingAfterFill(a: Account, x: Fill)
    ensures
      var t, s := ApplyFill(a, x), x.order.symbol;
      t.pending == a.pending - {s} && t.pendingIds == a.pendingIds - {s}
  {
  }

  lemma {:induction false} MatchesFrame(a: Account, x: Fill, o: Order)
    requires o.symbol != x.order.symbol
    ensures Matches(ApplyFill(a, x).positions, o) == Matches(a.positions, o)
  {
    hide ApplyFill;
    FillFrame(a, x, o.symbol);
  }

  lemma {:induction false} FillsKeep(start: real, a: Account, owed: multiset<Order>, applied: seq<Fill>,
      fills: seq<Fill>)
    requires Sound(start, a, applied) && Tracks(a, owed + OrdersOf(fills))
    ensures Sound(start, ApplyFills(a, fills), applied + fills) && Tracks(ApplyFills(a, fills), owed)
    decreases |fills|
  {
    hide Sound, Tracks, ApplyFill, Matches;
    if fills == [] {
      assert applied + fills == applied && owed + OrdersOf(fills) == owed;
    } else {
      var front, x := fills[..|fills| - 1], fills[|fills| - 1];
      assert owed + OrdersOf(fills) == (owed + multiset{x.order}) + OrdersOf(front);
      FillsKeep(start, a, owed + multiset{x.order}, applied, front);
      var mid := ApplyFills(a, front);
      FillTracks(mid, owed, x);
      FillKeepsSound(start, mid, applied + front, x);
      assert applied + fills == applied + front + [x];
    }
  }

  // Fills touch no position of a symbol they are not for.
  lemma {:induction false} FillsFrame(a: Account, fills: seq<Fill>, symbol: nat)
    requires forall k :: 0 <= k < |fills| ==> fills[k].order.symbol != symbol
    ensures Find(ApplyFills(a, fills).positions, symbol) == Find(a.positions, symbol)
  {
    hide Find, ApplyFill;
    if fills != [] {
      FillsFrame(a, fills[..|fills| - 1], symbol);
      FillFrame(ApplyFills(a, fills[..|fills| - 1]), fills[|fills| - 1], symbol);
    }
  }

  // ---- Equity ----

  /** Equity is starting cash plus realised and unrealised profit, less the entry costs of what is still open. */
  lemma {:induction false} EquityIdentity(start: real, a: Account, f: Feature)
    requires CashBalanced(start, a)
    ensures Equity(a, f) == start + NetOf(a.trades) + Unrealized(a.positions, f) - EntryCosts(a.positions)
  {
    hide LongNotional, NetOf, Unrealized, EntryCosts;
  }

  /** When flat, equity is starting cash plus the net profit of every completed trade. */
  lemma {:induction false} FlatEquity(start: real, a: Account, f: Feature)
    requires CashBalanced(start, a) && a.positions == []
    ensures Equity(a, f) == a.cash == start + NetOf(a.trades)
  {
    hide NetOf;
  }
}
