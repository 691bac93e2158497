// What the rolling features mean: a model that remembers every trade and midpoint since reset.
module MarketHistory {
  import opened ProtocolDefs
  import opened Bits
  import opened MarketTypes
  import opened MarketModel

  datatype Trade = Trade(price: nat, quantity: nat)

  /** Everything accepted for one symbol since its reset. */
  datatype History = History(book: Book, trades: seq<Trade>, mids: seq<nat>)

  const NoHistory := History(EmptyBook, [], [])

  function Quantities(ts: seq<Trade>): (q: seq<nat>)
    ensures |q| == |ts| && forall i :: 0 <= i < |ts| ==> q[i] == ts[i].quantity
  {
    seq(|ts|, i requires 0 <= i < |ts| => ts[i].quantity)
  }

  function Values(ts: seq<Trade>): (v: seq<nat>)
    ensures |v| == |ts| && forall i :: 0 <= i < |ts| ==> v[i] == ts[i].price * ts[i].quantity
  {
    seq(|ts|, i requires 0 <= i < |ts| => ts[i].price * ts[i].quantity)
  }

  /** The latest `w` entries, or all of them while there are fewer. */
  function Latest<T>(xs: seq<T>, w: nat): seq<T> {
    if |xs| <= w then xs else xs[|xs| - w..]
  }

  /** The features of a history, straight from its latest windows. */
  function HistoryFeature(c: Windows, h: History, e: Event): Feature {
    var warm := |h.mids| >= c.momentum;
    var reference := if warm && c.momentum > 0 then h.mids[|h.mids| - c.momentum] else 0;
    var raw :=
      RawOf(h.book, warm, reference, Sum(Values(Latest(h.trades, c.vwap))), Sum(Quantities(Latest(h.trades, c.vwap))));
    Feature(e.symbol, e.sequence, h.book, Sum(Quantities(Latest(h.trades, c.trade))), raw,
      Normalize(c.scales, raw, reference))
  }

  function Recorded(h: History, e: Event): History {
    h.(book := UpdateBook(h.book, e),
       trades := if e.kind == MSG_MARKET_QUOTE then h.trades else h.trades + [Trade(e.price, e.quantity)])
  }

  function Observed(h: History): History {
    if h.book.QuotesValid() then h.(mids := h.mids + [Midpoint(h.book)]) else h
  }

  datatype HistoryStep = HistoryStep(histories: seq<History>, outcome: Outcome)

  function ProcessHistory(c: Windows, hs: seq<History>, e: Event): (r: HistoryStep)
    requires |hs| == c.symbols
    ensures |r.histories| == c.symbols
  {
    match Screen(c.symbols, e)
    case Refuse(o) => HistoryStep(hs, o)
    case Pass =>
      match CheckSequence(hs[e.symbol].book, e)
      case Refuse(o) => HistoryStep(hs, o)
      case Pass =>
        var h := Recorded(hs[e.symbol], e);
        HistoryStep(hs[e.symbol := Observed(h)], Produced(HistoryFeature(c, h, e)))
  }

  // ---- Ring buffers hold the latest window ----

  function Least(a: nat, b: nat): nat {
    if a <= b then a else b
  }

  /** The ring holds the latest entries of `xs`, entry `i` at `i` modulo the ring's size. */
  ghost predicate Holds(ring: seq<nat>, ptr: nat, count: nat, xs: seq<nat>) {
    && |ring| > 0 && ptr == |xs| % |ring| && count == Least(|xs|, |ring|)
    && forall i {:trigger xs[i]} :: |xs| - count <= i < |xs| ==> ring[i % |ring|] == xs[i]
  }

  lemma {:induction false} HoldsPush(ring: seq<nat>, ptr: nat, count: nat, xs: seq<nat>, x: nat)
    requires Holds(ring, ptr, count, xs)
    ensures ptr < |ring| && Holds(ring[ptr := x], (ptr + 1) % |ring|, Counted(|ring|, count), xs + [x])
  {
    var size, n := |ring|, |xs|;
    ModAdd(n, 1, size);
    forall i {:trigger (xs + [x])[i]} | n + 1 - Counted(size, count) <= i < n + 1
      ensures ring[ptr := x][i % size] == (xs + [x])[i]
    {
      if i < n && i % size == ptr { ModDistinct(i, n, size); }
    }
  }

  /** Once full, the entry at the pointer is the one leaving the window. */
  lemma {:induction false} HoldsOldest(ring: seq<nat>, ptr: nat, count: nat, xs: seq<nat>)
    requires Holds(ring, ptr, count, xs) && count >= |ring|
    ensures ptr < |ring| && |xs| >= |ring| && ring[ptr] == xs[|xs| - |ring|]
  {
    var i := |xs| - |ring|;
    ModAdd(i, |ring|, |ring|);
    DivMod(i, |ring|);
    ModUnique(i % |ring| + |ring|, 1, i % |ring|, |ring|);
    assert ring[i % |ring|] == xs[i];
  }

  lemma {:induction false} SumFront(x: nat, xs: seq<nat>)
    ensures Sum([x] + xs) == x + Sum(xs)
  {
    if xs == [] {
      assert ([x] + xs)[..0] == [];
    } else {
      var last := |xs| - 1;
      SumFront(x, xs[..last]);
      assert ([x] + xs)[..last + 1] == [x] + xs[..last];
    }
  }

  lemma {:induction false} SumSnoc(xs: seq<nat>, x: nat)
    ensures Sum(xs + [x]) == Sum(xs) + x
  {
    assert (xs + [x])[..|xs|] == xs;
  }

  // A full window slides: the oldest entry leaves, the new one enters.
  lemma {:induction false} LatestSlides(xs: seq<nat>, x: nat, w: nat)
    requires 0 < w <= |xs|
    ensures Latest(xs, w) == [xs[|xs| - w]] + xs[|xs| - w + 1..]
    ensures Latest(xs + [x], w) == xs[|xs| - w + 1..] + [x]
  {
  }

  lemma {:induction false} LatestSnoc(xs: seq<nat>, x: nat, w: nat)
    requires w > 0
    ensures Sum(Latest(xs + [x], w)) ==
      Sum(Latest(xs, w)) + x - if |xs| >= w then xs[|xs| - w] else 0
  {
    hide Sum;
    if |xs| >= w {
      LatestSlides(xs, x, w);
      hide Latest;
      SumFront(xs[|xs| - w], xs[|xs| - w + 1..]);
      SumSnoc(xs[|xs| - w + 1..], x);
    } else {
      SumSnoc(xs, x);
    }
  }

  /** The running sum stays the sum of the latest window. */
  lemma {:induction false} RolledIsLatestSum(ring: seq<nat>, ptr: nat, count: nat, sum: nat, xs: seq<nat>, x: nat)
    requires Holds(ring, ptr, count, xs) && Pointer(|ring|, ptr, count)
    requires sum == Sum(ring[..count]) && sum == Sum(Latest(xs, |ring|))
    ensures Rolled(ring, ptr, count, sum, x) == Sum(Latest(xs + [x], |ring|))
  {
    hide Sum, Latest;
    LatestSnoc(xs, x, |ring|);
    if count >= |ring| { HoldsOldest(ring, ptr, count, xs); }
  }

  // ---- The ring-buffer model refines the history model ----

  ghost predicate Represents(c: Windows, s: Symbol, h: History) {
    && s.Valid(c) && s.word.book == h.book
    && Holds(s.rings.trade, s.word.tradePtr, s.word.tradeCount, Quantities(h.trades))
    && Holds(s.rings.mid, s.word.midPtr, s.word.midCount, h.mids)
    && Holds(s.rings.priceQuantity, s.word.vwapPtr, s.word.vwapCount, Values(h.trades))
    && Holds(s.rings.quantity, s.word.vwapPtr, s.word.vwapCount, Quantities(h.trades))
    && s.word.volume == Sum(Latest(Quantities(h.trades), c.trade))
    && s.word.sumPriceQuantity == Sum(Latest(Values(h.trades), c.vwap))
    && s.word.sumQuantity == Sum(Latest(Quantities(h.trades), c.vwap))
  }

  lemma {:induction false} FreshRepresents(c: Windows)
    requires c.Valid()
    ensures Represents(c, FreshSymbol(c), NoHistory)
  {
    ModSmall(0, c.trade);
    ModSmall(0, c.momentum);
    ModSmall(0, c.vwap);
  }

  lemma {:induction false} ColumnsSnoc(ts: seq<Trade>, t: Trade)
    ensures Quantities(ts + [t]) == Quantities(ts) + [t.quantity]
    ensures Values(ts + [t]) == Values(ts) + [t.price * t.quantity]
  {
  }

  lemma {:induction false} LatestColumns(ts: seq<Trade>, w: nat)
    ensures Quantities(Latest(ts, w)) == Latest(Quantities(ts), w)
    ensures Values(Latest(ts, w)) == Latest(Values(ts), w)
  {
  }

  lemma {:induction false} TradeRepresents(c: Windows, s: Symbol, h: History, t: Trade)
    requires Represents(c, s, h)
    ensures Represents(c, TradeApplied(c, s, t.price, t.quantity), h.(trades := h.trades + [t]))
  {
    hide Sum, Latest, Rolled, Holds, Values, Quantities;
    var w, r := s.word, s.rings;
    var q, v := Quantities(h.trades), Values(h.trades);
    ColumnsSnoc(h.trades, t);
    HoldsPush(r.trade, w.tradePtr, w.tradeCount, q, t.quantity);
    HoldsPush(r.priceQuantity, w.vwapPtr, w.vwapCount, v, t.price * t.quantity);
    HoldsPush(r.quantity, w.vwapPtr, w.vwapCount, q, t.quantity);
    RolledIsLatestSum(r.trade, w.tradePtr, w.tradeCount, w.volume, q, t.quantity);
    RolledIsLatestSum(r.priceQuantity, w.vwapPtr, w.vwapCount, w.sumPriceQuantity, v, t.price * t.quantity);
    RolledIsLatestSum(r.quantity, w.vwapPtr, w.vwapCount, w.sumQuantity, q, t.quantity);
  }

  lemma {:induction false} ApplyRepresents(c: Windows, s: Symbol, h: History, e: Event)
    requires Represents(c, s, h)
    ensures Represents(c, Apply(c, s, e), Recorded(h, e))
  {
    hide Sum, Latest, Rolled, Holds, Values, Quantities, TradeApplied;
    var t, g := s.(word := s.word.(book := UpdateBook(s.word.book, e))), h.(book := UpdateBook(h.book, e));
    if e.kind != MSG_MARKET_QUOTE { TradeRepresents(c, t, g, Trade(e.price, e.quantity)); }
  }

  lemma {:induction false} ObserveRepresents(c: Windows, s: Symbol, h: History)
    requires Represents(c, s, h)
    ensures Represents(c, Observe(c, s), Observed(h))
  {
    hide Sum, Latest, Rolled, Holds, Values, Quantities;
    HoldsPush(s.rings.mid, s.word.midPtr, s.word.midCount, h.mids, Midpoint(h.book));
  }

  /** The ring-buffer feature record is the one computed from the whole history. */
  lemma {:induction false} FeatureRepresents(c: Windows, s: Symbol, h: History, e: Event)
    requires Represents(c, s, h)
    ensures FeatureOf(c, s, e) == HistoryFeature(c, h, e)
  {
    hide Sum, Latest, Values, Quantities, Normalize, RawOf;
    LatestColumns(h.trades, c.trade);
    LatestColumns(h.trades, c.vwap);
    if s.word.midCount >= c.momentum { HoldsOldest(s.rings.mid, s.word.midPtr, s.word.midCount, h.mids); }
  }

  ghost predicate RepresentsAll(c: Windows, symbols: seq<Symbol>, hs: seq<History>) {
    |symbols| == |hs| == c.symbols && forall i :: 0 <= i < c.symbols ==> Represents(c, symbols[i], hs[i])
  }

  lemma {:induction false} ProcessRefines(c: Windows, symbols: seq<Symbol>, hs: seq<History>, e: Event)
    requires RepresentsAll(c, symbols, hs)
    ensures ValidSymbols(c, symbols)
    ensures
      var r, g := ProcessEvent(c, symbols, e), ProcessHistory(c, hs, e);
      r.outcome == g.outcome && RepresentsAll(c, r.symbols, g.histories)
  {
    hide Apply, Observe, FeatureOf, HistoryFeature, Recorded, Observed;
    if Screen(c.symbols, e).Pass? {
      var s, h := symbols[e.symbol], hs[e.symbol];
      ApplyRepresents(c, s, h, e);
      assert Recorded(h, e) == Recorded(h, e);
      ObserveRepresents(c, Apply(c, s, e), Recorded(h, e));
      FeatureRepresents(c, Apply(c, s, e), Recorded(h, e), e);
    }
  }

  ghost function Outcomes(c: Windows, symbols: seq<Symbol>, events: seq<Event>): seq<Outcome>
    requires ValidSymbols(c, symbols)
    decreases |events|
  {
    if events == [] then []
    else
      var r := ProcessEvent(c, symbols, events[0]);
      [r.outcome] + Outcomes(c, r.symbols, events[1..])
  }

  function HistoryOutcomes(c: Windows, hs: seq<History>, events: seq<Event>): seq<Outcome>
    requires |hs| == c.symbols
    decreases |events|
  {
    if events == [] then []
    else
      var r := ProcessHistory(c, hs, events[0]);
      [r.outcome] + HistoryOutcomes(c, r.histories, events[1..])
  }

  lemma {:induction false} RunRefines(c: Windows, symbols: seq<Symbol>, hs: seq<History>, events: seq<Event>)
    requires RepresentsAll(c, symbols, hs)
    ensures ValidSymbols(c, symbols)
    ensures Outcomes(c, symbols, events) == HistoryOutcomes(c, hs, events)
    decreases |events|
  {
    hide Represents;
    ValidFromRepresents(c, symbols, hs);
    if events != [] {
      ProcessRefines(c, symbols, hs, events[0]);
      RunRefines(c, ProcessEvent(c, symbols, events[0]).symbols, ProcessHistory(c, hs, events[0]).histories,
        events[1..]);
    }
  }

  lemma {:induction false} ValidFromRepresents(c: Windows, symbols: seq<Symbol>, hs: seq<History>)
    requires RepresentsAll(c, symbols, hs)
    ensures ValidSymbols(c, symbols)
  {
  }

  /**
    Over any run since reset, every outcome of the ring-buffer model is the one computed from full
    histories: rolling sums over the last min(n, window) accepted trades, and momentum against the midpoint
    exactly `momentum` valid observations earlier.
   */
  lemma {:induction false} ModelMeansHistory(c: Windows, events: seq<Event>)
    requires c.Valid()
    ensures
      var symbols := seq(c.symbols, _ => FreshSymbol(c));
      && ValidSymbols(c, symbols)
      && Outcomes(c, symbols, events) == HistoryOutcomes(c, seq(c.symbols, _ => NoHistory), events)
  {
    FreshRepresents(c);
    hide Represents;
    RunRefines(c, seq(c.symbols, _ => FreshSymbol(c)), seq(c.symbols, _ => NoHistory), events);
  }

  // ---- Widths and the VWAP bound ----

  lemma {:induction false} SumBound(xs: seq<nat>, bound: nat)
    requires forall i :: 0 <= i < |xs| ==> xs[i] <= bound
    ensures Sum(xs) <= |xs| * bound
  {
    if xs != [] {
      SumBound(xs[..|xs| - 1], bound);
      Distribute(|xs| - 1, 1, bound);
    }
  }

  ghost predicate TradesFit(h: History) {
    forall i :: 0 <= i < |h.trades| ==> h.trades[i].price < Pow2(64) && h.trades[i].quantity < Pow2(32)
  }

  /** The accumulator widths the hardware derives from its windows. */
  function AccumulatorWidth(term: nat, window: nat): nat {
    term + if window <= 1 then 1 else Clog2(window)
  }

  // `window` terms below 2^term fit the accumulator.
  lemma {:induction false} SumFits(xs: seq<nat>, term: nat, window: nat)
    requires |xs| <= window && forall i :: 0 <= i < |xs| ==> xs[i] < Pow2(term)
    ensures Sum(xs) < Pow2(AccumulatorWidth(term, window))
  {
    SumBound(xs, Pow2(term) - 1);
    var n := if window <= 1 then 1 else Clog2(window);
    assert window <= Pow2(n) by { assert Pow2(1) == 2; }
    MulAtLeast(Pow2(n), |xs|, Pow2(term) - 1);
    Pow2Add(term, n);
    Distribute(Pow2(term), 1, Pow2(n));
    assert Pow2(n) * (Pow2(term) - 1) == (Pow2(term) - 1) * Pow2(n);
  }

  lemma {:induction false} ProductFits(price: nat, quantity: nat)
    requires price < Pow2(64) && quantity < Pow2(32)
    ensures price * quantity < Pow2(96)
  {
    Pow2Add(64, 32);
    hide Pow2;
    MulLess(price, quantity, Pow2(64), Pow2(32));
    assert 64 + 32 == 96;
  }

  /** Every rolling sum of in-range trades fits the accumulator the hardware gives it. */
  lemma {:induction false} SumsFit(c: Windows, h: History)
    requires TradesFit(h)
    ensures Sum(Latest(Quantities(h.trades), c.trade)) < Pow2(AccumulatorWidth(32, c.trade))
    ensures Sum(Latest(Values(h.trades), c.vwap)) < Pow2(AccumulatorWidth(96, c.vwap))
    ensures Sum(Latest(Quantities(h.trades), c.vwap)) < Pow2(AccumulatorWidth(32, c.vwap))
  {
    hide Sum, Pow2, AccumulatorWidth;
    var v := Values(h.trades);
    forall i | 0 <= i < |v| ensures v[i] < Pow2(96) {
      ProductFits(h.trades[i].price, h.trades[i].quantity);
    }
    SumFits(Latest(Quantities(h.trades), c.trade), 32, c.trade);
    SumFits(Latest(v, c.vwap), 96, c.vwap);
    SumFits(Latest(Quantities(h.trades), c.vwap), 32, c.vwap);
  }

  lemma {:induction false} WeightedBounds(ts: seq<Trade>, lo: nat, hi: nat)
    requires forall i :: 0 <= i < |ts| ==> lo <= ts[i].price <= hi
    ensures lo * Sum(Quantities(ts)) <= Sum(Values(ts)) <= hi * Sum(Quantities(ts))
  {
    if ts == [] {
    } else {
      hide Sum, Quantities, Values;
      var last := |ts| - 1;
      var front, t := ts[..last], ts[last];
      WeightedBounds(front, lo, hi);
      assert front + [t] == ts;
      ColumnsSnoc(front, t);
      SumSnoc(Quantities(front), t.quantity);
      SumSnoc(Values(front), t.price * t.quantity);
      WeightedStep(lo, hi, Sum(Quantities(front)), t.price, t.quantity);
    }
  }

  lemma {:induction false} WeightedStep(lo: nat, hi: nat, q: nat, price: nat, quantity: nat)
    requires lo <= price <= hi
    ensures lo * (q + quantity) <= lo * q + price * quantity
    ensures hi * q + price * quantity <= hi * (q + quantity)
  {
    MulAtLeast(price, lo, quantity);
    MulAtLeast(hi, price, quantity);
    assert lo * (q + quantity) == lo * q + lo * quantity && hi * (q + quantity) == hi * q + hi * quantity;
  }

  /** The VWAP lies between the smallest and the largest price traded in the window. */
  lemma {:induction false} VwapBetweenPrices(ts: seq<Trade>, lo: nat, hi: nat)
    requires forall i :: 0 <= i < |ts| ==> lo <= ts[i].price <= hi
    requires Sum(Quantities(ts)) > 0
    ensures lo <= Quotient(Sum(Values(ts)), Sum(Quantities(ts))) <= hi
  {
    WeightedBounds(ts, lo, hi);
    var v, q := Sum(Values(ts)), Sum(Quantities(ts));
    DivMod(v, q);
    if v / q < lo {
      MulAtLeast(lo, v / q + 1, q);
      Distribute(v / q, 1, q);
    }
    if v / q > hi {
      MulAtLeast(v / q, hi + 1, q);
      Distribute(hi, 1, q);
    }
  }

  /** So the quotient of in-range trades always fits 64 bits, and keeping 64 quotient bits loses nothing. */
  lemma {:induction false} VwapFits64(c: Windows, h: History)
    requires TradesFit(h)
    ensures
      var v, q := Sum(Latest(Values(h.trades), c.vwap)), Sum(Latest(Quantities(h.trades), c.vwap));
      q > 0 ==> Quotient(v, q) < Pow2(64)
  {
    LatestColumns(h.trades, c.vwap);
    hide Sum;
    if Sum(Quantities(Latest(h.trades, c.vwap))) > 0 {
      VwapBetweenPrices(Latest(h.trades, c.vwap), 0, Pow2(64) - 1);
    }
  }
}
