// The clocked engine refines the reference model, for every input stream and with exact latency.
module MarketRefinement {
  import opened ProtocolDefs
  import opened Bits
  import opened MarketTypes
  import opened MarketModel
  import opened MarketHistory
  import opened NormalizerCorrect
  import opened MarketEngine

  /** Parameters for which the normaliser's scaled magnitudes fit its divider. */
  ghost predicate Buildable(c: Windows) {
    c.Valid() && Params(c).Valid()
  }

  /** What the engine's input ports have accepted: an event, or the reset of one symbol's slot. */
  datatype Op = Take(event: Event) | Clear(symbol: nat)

  /** The reference model after a series of operations since reset, and the outcomes of the events among them. */
  datatype Trace = Trace(symbols: seq<Symbol>, outcomes: seq<Outcome>)

  ghost function Replay(c: Windows, ops: seq<Op>): (r: Trace)
    requires c.Valid()
    ensures ValidSymbols(c, r.symbols)
    decreases |ops|
  {
    if ops == [] then
      FreshRepresents(c);
      Trace(seq(c.symbols, _ => FreshSymbol(c)), [])
    else
      After(c, Replay(c, ops[..|ops| - 1]), ops[|ops| - 1])
  }

  ghost function After(c: Windows, t: Trace, op: Op): (r: Trace)
    requires c.Valid() && ValidSymbols(c, t.symbols)
    ensures ValidSymbols(c, r.symbols)
  {
    match op
    case Take(e) =>
      var p := ProcessEvent(c, t.symbols, e);
      Trace(p.symbols, t.outcomes + [p.outcome])
    case Clear(i) =>
      FreshRepresents(c);
      if i < c.symbols then t.(symbols := t.symbols[i := FreshSymbol(c)]) else t
  }

  /** The full histories behind the same operations. */
  function Histories(c: Windows, ops: seq<Op>): (hs: seq<History>)
    ensures |hs| == c.symbols
    decreases |ops|
  {
    if ops == [] then seq(c.symbols, _ => NoHistory)
    else
      var before := Histories(c, ops[..|ops| - 1]);
      match ops[|ops| - 1]
      case Take(e) => ProcessHistory(c, before, e).histories
      case Clear(i) => if i < c.symbols then before[i := NoHistory] else before
  }

  /** The model's symbols stand for those histories, slot resets included. */
  lemma {:induction false} ReplayRepresents(c: Windows, ops: seq<Op>)
    requires c.Valid()
    ensures RepresentsAll(c, Replay(c, ops).symbols, Histories(c, ops))
    decreases |ops|
  {
    hide Represents, ProcessEvent, ProcessHistory, FreshSymbol;
    FreshRepresents(c);
    if ops != [] {
      var front, last := ops[..|ops| - 1], ops[|ops| - 1];
      ReplayRepresents(c, front);
      if last.Take? { ProcessRefines(c, Replay(c, front).symbols, Histories(c, front), last.event); }
    }
  }

  lemma {:induction false} ReplaySnoc(c: Windows, ops: seq<Op>, op: Op)
    requires c.Valid()
    ensures Replay(c, ops + [op]) == After(c, Replay(c, ops), op)
  {
    assert (ops + [op])[..|ops|] == ops;
  }

  // ---- Everything the histories hold fits its register ----

  ghost predicate HistoryFits(h: History) {
    h.book.Widths() && TradesFit(h) && forall i :: 0 <= i < |h.mids| ==> h.mids[i] < Pow2(64)
  }

  ghost predicate OpsFit(ops: seq<Op>) {
    forall i :: 0 <= i < |ops| && ops[i].Take? ==> ops[i].event.Widths()
  }

  lemma {:induction false} EventKeepsFit(h: History, e: Event)
    requires HistoryFits(h) && e.Widths()
    ensures HistoryFits(Recorded(h, e)) && HistoryFits(Observed(Recorded(h, e)))
  {
    hide Pow2;
    assert Midpoint(Recorded(h, e).book) < Pow2(64);
  }

  lemma {:induction false} EmptyFits()
    ensures HistoryFits(NoHistory)
  {
  }

  lemma {:induction false} HistoriesFit(c: Windows, ops: seq<Op>, i: nat)
    requires c.Valid() && OpsFit(ops) && i < c.symbols
    ensures HistoryFits(Histories(c, ops)[i])
    decreases |ops|
  {
    hide HistoryFits, Represents, Recorded, Observed, Event.Widths;
    EmptyFits();
    if ops != [] {
      var last := ops[|ops| - 1];
      HistoriesFit(c, ops[..|ops| - 1], i);
      if last.Take? { EventKeepsFit(Histories(c, ops[..|ops| - 1])[i], last.event); }
    }
  }

  // ---- How the engine's memories stand for the model's symbols ----

  /** Only the live entries of a ring mean anything; the rest may be left from before a reset. */
  ghost predicate LiveRing(bank: seq<nat>, ring: seq<nat>, count: nat) {
    |bank| == |ring| && count <= |ring| && bank[..count] == ring[..count]
  }

  ghost predicate LiveRings(bank: Rings, s: Symbol) {
    && LiveRing(bank.trade, s.rings.trade, s.word.tradeCount)
    && LiveRing(bank.mid, s.rings.mid, s.word.midCount)
    && LiveRing(bank.priceQuantity, s.rings.priceQuantity, s.word.vwapCount)
    && LiveRing(bank.quantity, s.rings.quantity, s.word.vwapCount)
  }

  function SlotWord(slot: Slot): Word {
    if slot.initialized then slot.word else EmptyWord
  }

  ghost predicate Live(slot: Slot, s: Symbol) {
    SlotWord(slot) == s.word && LiveRings(slot.rings, s)
  }

  ghost predicate AllLive(bank: seq<Slot>, symbols: seq<Symbol>) {
    |bank| == |symbols| && forall i :: 0 <= i < |bank| ==> Live(bank[i], symbols[i])
  }

  lemma {:induction false} LivePush(bank: seq<nat>, ring: seq<nat>, ptr: nat, count: nat, x: nat)
    requires LiveRing(bank, ring, count) && Pointer(|ring|, ptr, count)
    ensures LiveRing(bank[ptr := x], ring[ptr := x], Counted(|ring|, count))
  {
    if count < |ring| {
      assert bank[ptr := x][..count + 1] == bank[..count] + [x];
      assert ring[ptr := x][..count + 1] == ring[..count] + [x];
    } else {
      assert bank == bank[..count] && ring == ring[..count];
      assert bank[ptr := x][..count] == bank[ptr := x] && ring[ptr := x][..count] == ring[ptr := x];
    }
  }

  lemma {:induction false} LiveRead(bank: seq<nat>, ring: seq<nat>, ptr: nat, count: nat)
    requires LiveRing(bank, ring, count) && ptr < |ring| && count >= |ring|
    ensures bank[ptr] == ring[ptr]
  {
    assert bank[ptr] == bank[..count][ptr] && ring[ptr] == ring[..count][ptr];
  }

  /** A cleared slot stands for a fresh symbol whatever its memories still hold. */
  lemma {:induction false} ClearedIsFresh(c: Windows, slot: Slot)
    requires c.Valid() && ShapedRings(c, slot.rings) && !slot.initialized
    ensures Live(slot, FreshSymbol(c))
  {
  }

  // ---- One event through the datapath ----

  /** The captured old terms are the outgoing ones wherever the window is full. */
  ghost predicate OldOk(c: Windows, s: Symbol, o: OldTerms)
    requires s.Valid(c)
  {
    && (s.word.tradeCount >= c.trade ==> o.trade == s.rings.trade[s.word.tradePtr])
    && (s.word.midCount >= c.momentum ==> o.mid == s.rings.mid[s.word.midPtr])
    && (s.word.vwapCount >= c.vwap ==>
          o.priceQuantity == s.rings.priceQuantity[s.word.vwapPtr] && o.quantity == s.rings.quantity[s.word.vwapPtr])
  }

  lemma {:induction false} CaptureIsOld(c: Windows, slot: Slot, s: Symbol)
    requires s.Valid(c) && LiveRings(slot.rings, s)
    ensures
      var w, r := s.word, slot.rings;
      && w.tradePtr < |r.trade| && w.midPtr < |r.mid| && w.vwapPtr < |r.priceQuantity| && w.vwapPtr < |r.quantity|
      && OldOk(c, s, OldTerms(r.trade[w.tradePtr], r.mid[w.midPtr], r.priceQuantity[w.vwapPtr], r.quantity[w.vwapPtr]))
  {
    hide Sum;
    var w, r := s.word, slot.rings;
    if w.tradeCount >= c.trade { LiveRead(r.trade, s.rings.trade, w.tradePtr, w.tradeCount); }
    if w.midCount >= c.momentum { LiveRead(r.mid, s.rings.mid, w.midPtr, w.midCount); }
    if w.vwapCount >= c.vwap {
      LiveRead(r.priceQuantity, s.rings.priceQuantity, w.vwapPtr, w.vwapCount);
      LiveRead(r.quantity, s.rings.quantity, w.vwapPtr, w.vwapCount);
    }
  }

  // The truncating adder computes the model's running sum when the result fits.
  lemma {:induction false} RollIsRolled(ring: seq<nat>, ptr: nat, count: nat, sum: nat, oldTerm: nat, x: nat,
      width: nat)
    requires Pointer(|ring|, ptr, count) && sum == Sum(ring[..count])
    requires count >= |ring| ==> oldTerm == ring[ptr]
    requires Rolled(ring, ptr, count, sum, x) < Pow2(width)
    ensures Roll(sum, count, |ring|, oldTerm, x, width) == Rolled(ring, ptr, count, sum, x)
  {
    hide Sum;
  }

  lemma {:induction false} TradePushedWord(c: Windows, s: Symbol, quantity: nat)
    requires s.Valid(c)
    ensures
      var w, t := s.word, TradePushed(c, s, quantity);
      && t.word == w.(volume := Rolled(s.rings.trade, w.tradePtr, w.tradeCount, w.volume, quantity),
                      tradePtr := (w.tradePtr + 1) % c.trade, tradeCount := Counted(c.trade, w.tradeCount))
      && t.rings == s.rings.(trade := s.rings.trade[w.tradePtr := quantity])
  {
    hide Sum, Rolled;
  }

  lemma {:induction false} VwapPushedWord(c: Windows, s: Symbol, value: nat, quantity: nat)
    requires s.Valid(c)
    ensures
      var w, r, t := s.word, s.rings, VwapPushed(c, s, value, quantity);
      && t.word == w.(sumPriceQuantity := Rolled(r.priceQuantity, w.vwapPtr, w.vwapCount, w.sumPriceQuantity, value),
                      sumQuantity := Rolled(r.quantity, w.vwapPtr, w.vwapCount, w.sumQuantity, quantity),
                      vwapPtr := (w.vwapPtr + 1) % c.vwap, vwapCount := Counted(c.vwap, w.vwapCount))
      && t.rings ==
           r.(priceQuantity := r.priceQuantity[w.vwapPtr := value], quantity := r.quantity[w.vwapPtr := quantity])
  {
    hide Sum, Rolled;
  }

  lemma {:induction false} AppliedFits(c: Windows, s: Symbol, h: History, e: Event)
    requires Represents(c, s, h) && HistoryFits(h) && e.Widths()
    ensures
      var w := Apply(c, s, e).word;
      && w.volume < Pow2(AccumulatorWidth(32, c.trade))
      && w.sumPriceQuantity < Pow2(AccumulatorWidth(96, c.vwap))
      && w.sumQuantity < Pow2(AccumulatorWidth(32, c.vwap))
      && w.book.Widths()
      && (w.sumQuantity != 0 ==> Quotient(w.sumPriceQuantity, w.sumQuantity) < Pow2(64))
  {
    hide Sum, Latest, Values, Quantities, Apply, Recorded, Quotient, Pow2, AccumulatorWidth, Event.Widths, Holds;
    ApplyRepresents(c, s, h, e);
    EventKeepsFit(h, e);
    SumsFit(c, Recorded(h, e));
    VwapFits64(c, Recorded(h, e));
  }

  /** APPLY_EVENT leaves the work registers exactly as the model updates the symbol. */
  lemma {:induction false} WorkIsApplied(c: Windows, s: Engine, sym: Symbol, h: History)
    requires Represents(c, sym, h) && HistoryFits(h) && s.event.Widths()
    requires s.work == sym.word && OldOk(c, sym, s.oldTerms)
    requires s.event.kind == MSG_MARKET_QUOTE || s.product == s.event.price * s.event.quantity
    ensures ApplyToWork(c, s) == Apply(c, sym, s.event).word
  {
    hide Sum, Roll, Rolled, Represents, HistoryFits, Pow2, AccumulatorWidth, UpdateBook, TradePushed, VwapPushed;
    SymbolIsValid(c, sym, h);
    if s.event.kind != MSG_MARKET_QUOTE {
      AppliedFits(c, sym, h, s.event);
      AddersAgree(c, s, sym.(word := sym.word.(book := UpdateBook(sym.word.book, s.event))));
    }
  }

  lemma {:induction false} AddersAgree(c: Windows, s: Engine, t: Symbol)
    requires t.Valid(c) && t.word == s.work.(book := UpdateBook(s.work.book, s.event)) && OldOk(c, t, s.oldTerms)
    requires s.event.kind != MSG_MARKET_QUOTE && s.product == s.event.price * s.event.quantity
    requires
      var w := TradeApplied(c, t, s.event.price, s.event.quantity).word;
      && w.volume < Pow2(AccumulatorWidth(32, c.trade))
      && w.sumPriceQuantity < Pow2(AccumulatorWidth(96, c.vwap))
      && w.sumQuantity < Pow2(AccumulatorWidth(32, c.vwap))
    ensures ApplyToWork(c, s) == TradeApplied(c, t, s.event.price, s.event.quantity).word
  {
    hide Sum, Roll, Rolled, Pow2, AccumulatorWidth, UpdateBook, TradePushed, VwapPushed, Counted;
    var w, r, q := t.word, t.rings, s.event.quantity;
    TradePushedWord(c, t, q);
    VwapPushedWord(c, TradePushed(c, t, q), s.product, q);
    RollIsRolled(r.trade, w.tradePtr, w.tradeCount, w.volume, s.oldTerms.trade, q, AccumulatorWidth(32, c.trade));
    RollIsRolled(r.priceQuantity, w.vwapPtr, w.vwapCount, w.sumPriceQuantity, s.oldTerms.priceQuantity, s.product,
      AccumulatorWidth(96, c.vwap));
    RollIsRolled(r.quantity, w.vwapPtr, w.vwapCount, w.sumQuantity, s.oldTerms.quantity, q,
      AccumulatorWidth(32, c.vwap));
    WrapPointerInRange(w.tradePtr, c.trade);
    WrapPointerInRange(w.vwapPtr, c.vwap);
  }

  lemma {:induction false} SymbolIsValid(c: Windows, sym: Symbol, h: History)
    requires Represents(c, sym, h)
    ensures sym.Valid(c)
  {
  }

  // A trade or quote leaves the midpoint window alone.
  lemma {:induction false} ApplyKeepsMidpoints(c: Windows, s: Symbol, e: Event)
    requires s.Valid(c)
    ensures
      var t := Apply(c, s, e);
      t.rings.mid == s.rings.mid && t.word.midPtr == s.word.midPtr && t.word.midCount == s.word.midCount
  {
    hide Sum, Rolled, UpdateBook;
  }

  // Until the window is warm the reference is not looked at, so stale memory cannot reach the output.
  lemma {:induction false} ColdReferenceIgnored(c: Scales, raw: Raw, a: nat, b: nat)
    requires raw.momentumValid ==> a == b
    ensures Normalize(c, raw, a) == Normalize(c, raw, b)
  {
    hide TruncDiv, Saturate, Quotient;
  }

  /** FEATURE_CALC computes the model's raw feature, and the normaliser is handed inputs that fit it. */
  lemma {:induction false} FeatureIsModelled(c: Windows, s: Engine, sym: Symbol, h: History)
    requires Buildable(c) && Represents(c, sym, h) && HistoryFits(h) && s.event.Widths()
    requires OldOk(c, sym, s.oldTerms) && s.work == Apply(c, sym, s.event).word
    ensures
      var f := FeatureOf(c, Apply(c, sym, s.event), s.event);
      && RawFeature(c, s).(norm := f.norm) == f
      && Normalize(c.scales, f.raw, s.oldTerms.mid) == f.norm
      && InputWidths(Params(c), f.raw, s.oldTerms.mid) && VwapOf(f.raw) < Pow2(64)
      && MidpointCounted(c, s.work) == Observe(c, Apply(c, sym, s.event)).word
  {
    hide Sum, Rolled, Represents, HistoryFits, Normalize, Apply, Quotient, Pow2, AccumulatorWidth, UpdateBook,
      InputWidths, RawOf;
    SymbolIsValid(c, sym, h);
    var applied := Apply(c, sym, s.event);
    var f := FeatureOf(c, applied, s.event);
    ApplyKeepsMidpoints(c, sym, s.event);
    AppliedFits(c, sym, h, s.event);
    WrapPointerInRange(applied.word.midPtr, c.momentum);
    ReferenceFits(c, sym, h, s.oldTerms);
    RawFits(c, applied.word, s.oldTerms.mid, Reference(c, applied));
    ColdReferenceIgnored(c.scales, f.raw, s.oldTerms.mid, Reference(c, applied));
  }

  lemma {:induction false} ReferenceFits(c: Windows, sym: Symbol, h: History, o: OldTerms)
    requires Represents(c, sym, h) && HistoryFits(h) && OldOk(c, sym, o)
    ensures sym.word.midCount >= c.momentum ==> o.mid < Pow2(64)
  {
    hide Sum, Latest, Values, Quantities, Pow2;
    if sym.word.midCount >= c.momentum { HoldsOldest(sym.rings.mid, sym.word.midPtr, sym.word.midCount, h.mids); }
  }

  lemma {:induction false} RawFits(c: Windows, w: Word, a: nat, b: nat)
    requires w.midCount >= c.momentum ==> a == b && a < Pow2(64)
    requires w.sumPriceQuantity < Pow2(AccumulatorWidth(96, c.vwap))
      && w.sumQuantity < Pow2(AccumulatorWidth(32, c.vwap))
    requires w.book.Widths() && (w.sumQuantity != 0 ==> Quotient(w.sumPriceQuantity, w.sumQuantity) < Pow2(64))
    ensures
      var warm := w.midCount >= c.momentum;
      var raw := RawOf(w.book, warm, b, w.sumPriceQuantity, w.sumQuantity);
      && RawOf(w.book, warm, a, w.sumPriceQuantity, w.sumQuantity) == raw
      && InputWidths(Params(c), raw, a) && VwapOf(raw) < Pow2(64)
      && (raw.momentumValid ==> a == b)
  {
    hide Pow2, Quotient, AccumulatorWidth;
    BookRawFits(w.book, w.midCount >= c.momentum, a, w.sumPriceQuantity, w.sumQuantity);
  }

  lemma {:induction false} BookRawFits(b: Book, warm: bool, reference: nat, v: nat, q: nat)
    requires b.Widths() && (warm ==> reference < Pow2(64))
    ensures
      var raw := RawOf(b, warm, reference, v, q);
      && raw.spread < Pow2(64) && raw.midpoint < Pow2(64) && Abs(raw.momentum) <= Pow2(64)
      && Abs(raw.imbalanceNumerator) <= Pow2(32) && raw.imbalanceDenominator < Pow2(33)
  {
    hide Pow2;
    assert Pow2(33) == 2 * Pow2(32) by { DoublePower(32); }
    MidpointFits(b);
    hide Midpoint;
  }

  lemma {:induction false} DoublePower(n: nat)
    ensures Pow2(n + 1) == 2 * Pow2(n)
  {
  }

  lemma {:induction false} MidpointFits(b: Book)
    requires b.Widths()
    ensures Midpoint(b) < Pow2(64)
  {
    hide Pow2;
  }

  /** WRITE_HISTORY brings the memories to the model's new symbol. */
  lemma {:induction false} WrittenIsLive(c: Windows, s: Engine, rings: Rings, sym: Symbol)
    requires sym.Valid(c) && LiveRings(rings, sym)
    requires Screen(c.symbols, s.event).Pass?
    requires s.addr == Addresses(sym.word.tradePtr, sym.word.midPtr, sym.word.vwapPtr)
    requires s.event.kind == MSG_MARKET_QUOTE || s.product == s.event.price * s.event.quantity
    requires s.work.book == UpdateBook(sym.word.book, s.event) && s.midReg == Midpoint(s.work.book)
    ensures s.addr.trade < |rings.trade| && s.addr.mid < |rings.mid| && s.addr.vwap < |rings.priceQuantity|
      && s.addr.vwap < |rings.quantity|
    ensures LiveRings(WrittenRings(s, rings), Observe(c, Apply(c, sym, s.event)))
  {
    hide Sum, Rolled, UpdateBook, Midpoint, LiveRing;
    var w, r := sym.word, sym.rings;
    LiveLengths(rings, sym);
    LivePush(rings.trade, r.trade, w.tradePtr, w.tradeCount, s.event.quantity);
    LivePush(rings.priceQuantity, r.priceQuantity, w.vwapPtr, w.vwapCount, s.event.price * s.event.quantity);
    LivePush(rings.quantity, r.quantity, w.vwapPtr, w.vwapCount, s.event.quantity);
    LivePush(rings.mid, r.mid, w.midPtr, w.midCount, s.midReg);
  }

  lemma {:induction false} LiveLengths(rings: Rings, sym: Symbol)
    requires LiveRings(rings, sym)
    ensures |rings.trade| == |sym.rings.trade| && |rings.mid| == |sym.rings.mid|
    ensures |rings.priceQuantity| == |sym.rings.priceQuantity| && |rings.quantity| == |sym.rings.quantity|
  {
  }
}
