// The integer reference model: per-symbol ring buffers with incrementally maintained sums.
module MarketModel {
  import opened ProtocolDefs
  import opened Bits
  import opened MarketTypes

  /** The scalar state of one symbol; the hardware packs the same fields into one bank word. */
  datatype Word = Word(
    book: Book, volume: nat, tradePtr: nat, tradeCount: nat, midPtr: nat, midCount: nat,
    sumPriceQuantity: nat, sumQuantity: nat, vwapPtr: nat, vwapCount: nat)

  const EmptyWord := Word(EmptyBook, 0, 0, 0, 0, 0, 0, 0, 0, 0)

  datatype Rings = Rings(trade: seq<nat>, mid: seq<nat>, priceQuantity: seq<nat>, quantity: seq<nat>)

  function Sum(xs: seq<nat>): nat {
    if xs == [] then 0 else Sum(xs[..|xs| - 1]) + xs[|xs| - 1]
  }

  /** A write pointer: it equals the count until the ring fills, then roams. */
  predicate Pointer(size: nat, ptr: nat, count: nat) {
    ptr < size && count <= size && (count < size ==> ptr == count)
  }

  datatype Symbol = Symbol(word: Word, rings: Rings)
  {
    predicate Valid(c: Windows) {
      && c.Valid()
      && |rings.trade| == c.trade && |rings.mid| == c.momentum && |rings.priceQuantity| == c.vwap
      && |rings.quantity| == c.vwap
      && Pointer(c.trade, word.tradePtr, word.tradeCount)
      && Pointer(c.momentum, word.midPtr, word.midCount)
      && Pointer(c.vwap, word.vwapPtr, word.vwapCount)
      && word.volume == Sum(rings.trade[..word.tradeCount])
      && word.sumPriceQuantity == Sum(rings.priceQuantity[..word.vwapCount])
      && word.sumQuantity == Sum(rings.quantity[..word.vwapCount])
    }
  }

  function FreshSymbol(c: Windows): Symbol {
    Symbol(EmptyWord, Rings(seq(c.trade, _ => 0), seq(c.momentum, _ => 0), seq(c.vwap, _ => 0), seq(c.vwap, _ => 0)))
  }

  /** The running sum once the outgoing term has left and `x` has entered. */
  function Rolled(ring: seq<nat>, ptr: nat, count: nat, sum: nat, x: nat): nat
    requires Pointer(|ring|, ptr, count) && sum == Sum(ring[..count])
  {
    SumBelow(ring, ptr);
    assert ring[..|ring|] == ring;
    (if count >= |ring| then sum - ring[ptr] else sum) + x
  }

  function Counted(size: nat, count: nat): nat {
    if count >= size then count else count + 1
  }

  lemma {:induction false} SumUpdate(xs: seq<nat>, i: nat, x: nat)
    requires i < |xs|
    ensures Sum(xs[i := x]) == Sum(xs) - xs[i] + x
  {
    var last := |xs| - 1;
    if i < last {
      SumUpdate(xs[..last], i, x);
      assert xs[i := x][..last] == xs[..last][i := x];
    } else {
      assert xs[i := x][..last] == xs[..last];
    }
  }

  lemma {:induction false} SumBelow(xs: seq<nat>, i: nat)
    requires i < |xs|
    ensures xs[i] <= Sum(xs)
  {
    SumUpdate(xs, i, 0);
  }

  /** Replacing the entry at the pointer keeps the running sum the sum of the live entries. */
  lemma {:induction false} RollKeepsRing(ring: seq<nat>, ptr: nat, count: nat, sum: nat, x: nat)
    requires Pointer(|ring|, ptr, count) && sum == Sum(ring[..count])
    ensures
      var size := |ring|;
      var ring' := ring[ptr := x];
      && Pointer(size, (ptr + 1) % size, Counted(size, count))
      && Rolled(ring, ptr, count, sum, x) == Sum(ring'[..Counted(size, count)])
  {
    var ring' := ring[ptr := x];
    if count >= |ring| {
      SumUpdate(ring, ptr, x);
      assert ring[..|ring|] == ring && ring'[..|ring|] == ring';
    } else {
      assert ring'[..count + 1][..count] == ring[..count];
    }
    if ptr + 1 < |ring| { ModSmall(ptr + 1, |ring|); } else { ModUnique(ptr + 1, 1, 0, |ring|); }
  }

  function TradePushed(c: Windows, s: Symbol, quantity: nat): (t: Symbol)
    requires s.Valid(c)
    ensures t.Valid(c) && t.word.book == s.word.book
  {
    var w := s.word;
    RollKeepsRing(s.rings.trade, w.tradePtr, w.tradeCount, w.volume, quantity);
    Symbol(w.(volume := Rolled(s.rings.trade, w.tradePtr, w.tradeCount, w.volume, quantity),
              tradeCount := Counted(c.trade, w.tradeCount),
              tradePtr := (w.tradePtr + 1) % c.trade),
           s.rings.(trade := s.rings.trade[w.tradePtr := quantity]))
  }

  function VwapPushed(c: Windows, s: Symbol, priceQuantity: nat, quantity: nat): (t: Symbol)
    requires s.Valid(c)
    ensures t.Valid(c) && t.word.book == s.word.book
  {
    var w := s.word;
    RollKeepsRing(s.rings.priceQuantity, w.vwapPtr, w.vwapCount, w.sumPriceQuantity, priceQuantity);
    RollKeepsRing(s.rings.quantity, w.vwapPtr, w.vwapCount, w.sumQuantity, quantity);
    Symbol(w.(sumPriceQuantity := Rolled(s.rings.priceQuantity, w.vwapPtr, w.vwapCount, w.sumPriceQuantity,
      priceQuantity),
              sumQuantity := Rolled(s.rings.quantity, w.vwapPtr, w.vwapCount, w.sumQuantity, quantity),
              vwapCount := Counted(c.vwap, w.vwapCount),
              vwapPtr := (w.vwapPtr + 1) % c.vwap),
           s.rings.(priceQuantity := s.rings.priceQuantity[w.vwapPtr := priceQuantity],
                    quantity := s.rings.quantity[w.vwapPtr := quantity]))
  }

  function TradeApplied(c: Windows, s: Symbol, price: nat, quantity: nat): (t: Symbol)
    requires s.Valid(c)
    ensures t.Valid(c) && t.word.book == s.word.book
  {
    VwapPushed(c, TradePushed(c, s, quantity), price * quantity, quantity)
  }

  function MidpointPushed(c: Windows, s: Symbol, midpoint: nat): (t: Symbol)
    requires s.Valid(c)
    ensures t.Valid(c) && t.word.book == s.word.book
  {
    var w := s.word;
    RollKeepsRing(s.rings.mid, w.midPtr, w.midCount, Sum(s.rings.mid[..w.midCount]), midpoint);
    Symbol(w.(midPtr := (w.midPtr + 1) % c.momentum, midCount := Counted(c.momentum, w.midCount)),
           s.rings.(mid := s.rings.mid[w.midPtr := midpoint]))
  }

  /** The book and trade windows after an accepted event. */
  function Apply(c: Windows, s: Symbol, e: Event): (t: Symbol)
    requires s.Valid(c)
    ensures t.Valid(c) && t.word.book == UpdateBook(s.word.book, e)
  {
    var t := s.(word := s.word.(book := UpdateBook(s.word.book, e)));
    if e.kind == MSG_MARKET_QUOTE then t
    else TradeApplied(c, t, e.price, e.quantity)
  }

  /** The midpoint `momentum` valid observations ago, once there have been that many. */
  function Reference(c: Windows, s: Symbol): nat
    requires s.Valid(c)
  {
    if s.word.midCount >= c.momentum then s.rings.mid[s.word.midPtr] else 0
  }

  function FeatureOf(c: Windows, s: Symbol, e: Event): Feature
    requires s.Valid(c)
  {
    var w := s.word;
    var raw := RawOf(w.book, w.midCount >= c.momentum, Reference(c, s), w.sumPriceQuantity, w.sumQuantity);
    Feature(e.symbol, e.sequence, w.book, w.volume, raw, Normalize(c.scales, raw, Reference(c, s)))
  }

  /** The midpoint window after the feature has been computed. */
  function Observe(c: Windows, s: Symbol): (t: Symbol)
    requires s.Valid(c)
    ensures t.Valid(c) && t.word.book == s.word.book
  {
    if s.word.book.QuotesValid() then MidpointPushed(c, s, Midpoint(s.word.book)) else s
  }

  datatype Verdict = Pass | Refuse(outcome: Outcome)

  /** Checks that need no symbol state. */
  function Screen(symbols: nat, e: Event): Verdict {
    if e.symbol >= symbols then Refuse(DispatchError(STATUS_BAD_SYMBOL, e.symbol, e.sequence))
    else if e.kind != MSG_MARKET_QUOTE && e.kind != MSG_MARKET_TRADE
      then Refuse(Rejected(STATUS_BAD_TYPE, e.symbol, e.sequence))
    else if e.side != 0 && e.side != 1 then Refuse(Rejected(STATUS_BAD_SIDE, e.symbol, e.sequence))
    else Pass
  }

  /** The sequence check against the symbol's last accepted event. */
  function CheckSequence(b: Book, e: Event): Verdict {
    if b.sequenceValid && e.sequence <= b.sequence then
      var reason := if e.sequence == b.sequence then STATUS_DUPLICATE_SEQ else STATUS_STALE_SEQ;
      Refuse(Rejected(reason, e.symbol, e.sequence))
    else Pass
  }

  ghost predicate ValidSymbols(c: Windows, symbols: seq<Symbol>) {
    |symbols| == c.symbols && forall i :: 0 <= i < |symbols| ==> symbols[i].Valid(c)
  }

  datatype Step = Step(symbols: seq<Symbol>, outcome: Outcome)

  /** `process_event`. */
  ghost function ProcessEvent(c: Windows, symbols: seq<Symbol>, e: Event): (r: Step)
    requires ValidSymbols(c, symbols)
    ensures ValidSymbols(c, r.symbols)
    ensures !r.outcome.Produced? ==> r.symbols == symbols
    ensures r.outcome.Produced? ==> r.outcome.feature.symbol == e.symbol < c.symbols
  {
    match Screen(c.symbols, e)
    case Refuse(o) => Step(symbols, o)
    case Pass =>
      match CheckSequence(symbols[e.symbol].word.book, e)
      case Refuse(o) => Step(symbols, o)
      case Pass =>
        var applied := Apply(c, symbols[e.symbol], e);
        Step(symbols[e.symbol := Observe(c, applied)], Produced(FeatureOf(c, applied, e)))
  }

  /** One symbol's mutable state. */
  class SymbolState {
    var book: Book
    var tradeHistory: seq<nat>
    var tradePtr: nat
    var tradeCount: nat
    var rollingVolume: nat
    var midpointHistory: seq<nat>
    var midpointPtr: nat
    var midpointCount: nat
    var vwapPriceQuantityHistory: seq<nat>
    var vwapQuantityHistory: seq<nat>
    var vwapPtr: nat
    var vwapCount: nat
    var vwapSumPriceQuantity: nat
    var vwapSumQuantity: nat

    ghost function View(): Symbol
      reads this
    {
      Symbol(Word(book, rollingVolume, tradePtr, tradeCount, midpointPtr, midpointCount,
                  vwapSumPriceQuantity, vwapSumQuantity, vwapPtr, vwapCount),
             Rings(tradeHistory, midpointHistory, vwapPriceQuantityHistory, vwapQuantityHistory))
    }

    constructor (c: Windows)
      requires c.Valid()
      ensures View() == FreshSymbol(c) && View().Valid(c)
    {
      book := EmptyBook;
      tradeHistory, midpointHistory := seq(c.trade, _ => 0), seq(c.momentum, _ => 0);
      vwapPriceQuantityHistory, vwapQuantityHistory := seq(c.vwap, _ => 0), seq(c.vwap, _ => 0);
      tradePtr, tradeCount, rollingVolume, midpointPtr, midpointCount := 0, 0, 0, 0, 0;
      vwapPtr, vwapCount, vwapSumPriceQuantity, vwapSumQuantity := 0, 0, 0, 0;
    }

    method PushTrade(c: Windows, quantity: nat)
      requires View().Valid(c)
      modifies this
      ensures View() == TradePushed(c, old(View()), quantity)
    {
      hide Sum;
      SumBelow(tradeHistory, tradePtr);
      assert tradeHistory[..|tradeHistory|] == tradeHistory;
      if tradeCount >= c.trade {
        rollingVolume := rollingVolume - tradeHistory[tradePtr];
      } else {
        tradeCount := tradeCount + 1;
      }
      tradeHistory := tradeHistory[tradePtr := quantity];
      rollingVolume := rollingVolume + quantity;
      tradePtr := (tradePtr + 1) % c.trade;
    }

    method PushVwap(c: Windows, priceQuantity: nat, quantity: nat)
      requires View().Valid(c)
      modifies this
      ensures View() == VwapPushed(c, old(View()), priceQuantity, quantity)
    {
      hide Sum;
      SumBelow(vwapPriceQuantityHistory, vwapPtr);
      SumBelow(vwapQuantityHistory, vwapPtr);
      assert vwapPriceQuantityHistory[..|vwapPriceQuantityHistory|] == vwapPriceQuantityHistory;
      assert vwapQuantityHistory[..|vwapQuantityHistory|] == vwapQuantityHistory;
      if vwapCount >= c.vwap {
        vwapSumPriceQuantity := vwapSumPriceQuantity - vwapPriceQuantityHistory[vwapPtr];
        vwapSumQuantity := vwapSumQuantity - vwapQuantityHistory[vwapPtr];
      } else {
        vwapCount := vwapCount + 1;
      }
      vwapPriceQuantityHistory := vwapPriceQuantityHistory[vwapPtr := priceQuantity];
      vwapQuantityHistory := vwapQuantityHistory[vwapPtr := quantity];
      vwapSumPriceQuantity := vwapSumPriceQuantity + priceQuantity;
      vwapSumQuantity := vwapSumQuantity + quantity;
      vwapPtr := (vwapPtr + 1) % c.vwap;
    }

    method ComputeFeature(c: Windows, e: Event) returns (f: Feature)
      requires View().Valid(c)
      modifies this
      ensures View() == Observe(c, old(View())) && f == FeatureOf(c, old(View()), e)
    {
      hide Normalize, RawOf, Sum;
      var warm := midpointCount >= c.momentum;
      var reference := if warm then midpointHistory[midpointPtr] else 0;
      var raw := RawOf(book, warm, reference, vwapSumPriceQuantity, vwapSumQuantity);
      f := Feature(e.symbol, e.sequence, book, rollingVolume, raw, Normalize(c.scales, raw, reference));
      if book.QuotesValid() {
        midpointHistory := midpointHistory[midpointPtr := Midpoint(book)];
        midpointPtr := (midpointPtr + 1) % c.momentum;
        midpointCount := if midpointCount + 1 < c.momentum then midpointCount + 1 else c.momentum;
      }
    }
  }

  class Model {
    const config: Windows
    var symbols: seq<SymbolState>

    ghost predicate Valid()
      reads this, symbols
    {
      && |symbols| == config.symbols
      && (forall i, j :: 0 <= i < j < |symbols| ==> symbols[i] != symbols[j])
      && (forall i :: 0 <= i < |symbols| ==> symbols[i].View().Valid(config))
    }

    ghost function View(): seq<Symbol>
      reads this, symbols
    {
      seq(|symbols|, i requires 0 <= i < |symbols| reads this, symbols => symbols[i].View())
    }

    constructor (config: Windows)
      requires config.Valid()
      ensures this.config == config && Valid() && fresh(symbols)
      ensures View() == seq(config.symbols, _ => FreshSymbol(config))
    {
      this.config := config;
      symbols := [];
      new;
      ResetState();
    }

    /** Every symbol is replaced by a fresh one; the dimensions stay. */
    method ResetState()
      requires config.Valid()
      modifies this
      ensures Valid() && fresh(symbols)
      ensures View() == seq(config.symbols, _ => FreshSymbol(config))
    {
      symbols := [];
      while |symbols| < config.symbols
        invariant |symbols| <= config.symbols && fresh(symbols)
        invariant forall i, j :: 0 <= i < j < |symbols| ==> symbols[i] != symbols[j]
        invariant forall i :: 0 <= i < |symbols| ==>
          symbols[i].View() == FreshSymbol(config) && symbols[i].View().Valid(config)
      {
        var s := new SymbolState(config);
        symbols := symbols + [s];
      }
    }

    method Process(e: Event) returns (o: Outcome)
      requires Valid()
      modifies symbols
      ensures Valid() && symbols == old(symbols)
      ensures Step(View(), o) == ProcessEvent(config, old(View()), e)
    {
      hide FeatureOf, Observe, TradePushed, VwapPushed, Sum;
      ghost var before := View();
      match Screen(config.symbols, e)
      case Refuse(refusal) => o := refusal;
      case Pass =>
        var state := symbols[e.symbol];
        match CheckSequence(state.book, e) {
          case Refuse(refusal) => o := refusal;
          case Pass =>
            state.book := UpdateBook(state.book, e);
            if e.kind != MSG_MARKET_QUOTE {
              state.PushTrade(config, e.quantity);
              state.PushVwap(config, e.price * e.quantity, e.quantity);
            }
            assert state.View() == Apply(config, before[e.symbol], e);
            var f := state.ComputeFeature(config, e);
            o := Produced(f);
            assert View() == before[e.symbol := state.View()];
        }
    }
  }
}
