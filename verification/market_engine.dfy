// The serialized market-state engine: one event at a time through fourteen states and one normaliser.
module MarketEngine {
  import opened ProtocolDefs
  import opened Bits
  import opened MarketTypes
  import opened MarketModel
  import opened MarketHistory
  import opened Normalizer

  datatype Stage =
    | Idle | ReadState | CheckSeq | SetHistoryAddr | ReadHistory | CaptureHistory | MultiplyTrade | ApplyEvent
    | FeatureCalc | NormalizeStart | NormalizeWait | WriteState | WriteHistory | Output

  /** One symbol's memory: its bank word, the bit that says the word is meaningful, and its history banks. */
  datatype Slot = Slot(word: Word, initialized: bool, rings: Rings)

  datatype OldTerms = OldTerms(trade: nat, mid: nat, priceQuantity: nat, quantity: nat)

  datatype Addresses = Addresses(trade: nat, mid: nat, vwap: nat)

  datatype RejectPort = RejectPort(pulse: bool, reason: nat, symbol: nat, sequence: nat)

  datatype Engine = Engine(
    stage: Stage, bank: seq<Slot>, event: Event, index: nat, product: nat, work: Word,
    oldTerms: OldTerms, addr: Addresses, midReg: nat, feature: Feature, featureValid: bool, norm: Norm,
    reject: RejectPort)

  datatype EngineIn = EngineIn(eventValid: bool, event: Event, resetValid: bool, resetSymbol: nat, featureReady: bool)

  const NoEvent := Event(0, 0, 0, 0, 0, 0)
  const NoFeature := Feature(0, 0, EmptyBook, 0, NoRaw, NoResult)

  function Params(c: Windows): NormParams {
    NormParams(AccumulatorWidth(96, c.vwap), AccumulatorWidth(32, c.vwap), c.scales)
  }

  function ResetEngine(bank: seq<Slot>): Engine {
    Engine(Idle, bank, NoEvent, 0, 0, EmptyWord, OldTerms(0, 0, 0, 0), Addresses(0, 0, 0), 0, NoFeature, false,
      ResetNorm,
           RejectPort(false, 0, 0, 0))
  }

  predicate PointersFit(c: Windows, w: Word) {
    w.tradePtr < c.trade && w.midPtr < c.momentum && w.vwapPtr < c.vwap
  }

  /** A slot's memories have their size; its word means something, and must address inside them, once initialised. */
  predicate SlotFits(c: Windows, slot: Slot) {
    ShapedRings(c, slot.rings) && (slot.initialized ==> PointersFit(c, slot.word))
  }

  /** The memories have one entry per symbol and window position; pointers in use address inside them. */
  ghost predicate Shaped(c: Windows, s: Engine) {
    && c.Valid() && |s.bank| == c.symbols && s.index < c.symbols
    && (forall i :: 0 <= i < |s.bank| ==> SlotFits(c, s.bank[i]))
    && PointersFit(c, s.work)
    && s.addr.trade < c.trade && s.addr.mid < c.momentum && s.addr.vwap < c.vwap
  }

  predicate ShapedRings(c: Windows, r: Rings) {
    |r.trade| == c.trade && |r.mid| == c.momentum && |r.priceQuantity| == c.vwap && |r.quantity| == c.vwap
  }

  function IndexWidth(c: Windows): nat {
    if c.symbols <= 1 then 1 else Clog2(c.symbols)
  }

  /** The slot-reset port is ready only while the engine is idle and holds no feature. */
  predicate ResetReady(s: Engine) {
    s.stage.Idle? && !s.featureValid
  }

  predicate EventReady(s: Engine, i: EngineIn) {
    s.stage.Idle? && !s.featureValid && !i.resetValid
  }

  predicate Resets(c: Windows, s: Engine, i: EngineIn) {
    i.resetValid && ResetReady(s) && i.resetSymbol < c.symbols
  }

  function WrapPointer(ptr: nat, size: nat): nat {
    if ptr == size - 1 then 0 else ptr + 1
  }

  /** The rolling-sum adder: subtract the outgoing term once the window is full, add the new one. */
  function Roll(sum: nat, count: nat, size: nat, oldTerm: nat, newTerm: nat, width: nat): nat {
    Wrap(sum - (if count >= size then oldTerm else 0) + newTerm, width)
  }

  function ApplyToWork(c: Windows, s: Engine): Word {
    var w := s.work.(book := UpdateBook(s.work.book, s.event));
    if s.event.kind == MSG_MARKET_QUOTE then w
    else
      w.(volume := Roll(w.volume, w.tradeCount, c.trade, s.oldTerms.trade, s.event.quantity,
        AccumulatorWidth(32, c.trade)),
         tradePtr := WrapPointer(w.tradePtr, c.trade), tradeCount := Counted(c.trade, w.tradeCount),
         sumPriceQuantity :=
           Roll(w.sumPriceQuantity, w.vwapCount, c.vwap, s.oldTerms.priceQuantity, s.product,
             AccumulatorWidth(96, c.vwap)),
         sumQuantity :=
           Roll(w.sumQuantity, w.vwapCount, c.vwap, s.oldTerms.quantity, s.event.quantity,
             AccumulatorWidth(32, c.vwap)),
         vwapPtr := WrapPointer(w.vwapPtr, c.vwap), vwapCount := Counted(c.vwap, w.vwapCount))
  }

  /** The feature registers after FEATURE_CALC; the normalised part is still the previous record's. */
  function RawFeature(c: Windows, s: Engine): Feature {
    Feature(s.event.symbol, s.event.sequence, s.work.book, s.work.volume,
            RawOf(s.work.book, s.work.midCount >= c.momentum, s.oldTerms.mid, s.work.sumPriceQuantity,
              s.work.sumQuantity),
            s.feature.norm)
  }

  function MidpointCounted(c: Windows, w: Word): Word {
    if w.book.QuotesValid()
    then w.(midPtr := WrapPointer(w.midPtr, c.momentum), midCount := Counted(c.momentum, w.midCount)) else w
  }

  function WrittenRings(s: Engine, r: Rings): Rings
    requires s.addr.trade < |r.trade| && s.addr.mid < |r.mid| && s.addr.vwap < |r.priceQuantity|
      && s.addr.vwap < |r.quantity|
  {
    var t := if s.event.kind != MSG_MARKET_TRADE then r
      else r.(trade := r.trade[s.addr.trade := s.event.quantity],
              priceQuantity := r.priceQuantity[s.addr.vwap := s.product],
              quantity := r.quantity[s.addr.vwap := s.event.quantity]);
    if s.work.book.QuotesValid() then t.(mid := t.mid[s.addr.mid := s.midReg]) else t
  }

  /** IDLE with an event on offer: take it, or turn it away on the same edge. */
  function TakeEvent(c: Windows, t: Engine, e: Event): Engine {
    var r := t.(reject := t.reject.(symbol := e.symbol, sequence := e.sequence));
    if e.symbol >= c.symbols then r.(reject := r.reject.(pulse := true, reason := STATUS_BAD_SYMBOL))
    else if e.kind != MSG_MARKET_QUOTE && e.kind != MSG_MARKET_TRADE
      then r.(reject := r.reject.(pulse := true, reason := STATUS_BAD_TYPE))
    else if e.side > 1 then r.(reject := r.reject.(pulse := true, reason := STATUS_BAD_SIDE))
    else r.(event := e, index := Wrap(e.symbol, IndexWidth(c)), stage := ReadState)
  }

  function CheckWork(t: Engine): Engine {
    if t.work.book.sequenceValid && t.event.sequence <= t.work.book.sequence then
      t.(reject := t.reject.(pulse := true, reason :=
           if t.event.sequence == t.work.book.sequence then STATUS_DUPLICATE_SEQ else STATUS_STALE_SEQ),
         stage := Idle)
    else t.(stage := SetHistoryAddr)
  }

  /** IDLE to CAPTURE_HISTORY: screen the event and fetch the selected symbol. */
  ghost function Fetch(c: Windows, t: Engine, i: EngineIn): Engine
    requires Shaped(c, t)
  {
    match t.stage
    case Idle => if i.eventValid && EventReady(t, i) then TakeEvent(c, t, i.event) else t
    case ReadState =>
      t.(work := if t.bank[t.index].initialized then t.bank[t.index].word else EmptyWord, stage := CheckSeq)
    case CheckSeq => CheckWork(t)
    case SetHistoryAddr => t.(addr := Addresses(t.work.tradePtr, t.work.midPtr, t.work.vwapPtr), stage := ReadHistory)
    case ReadHistory => t.(stage := CaptureHistory)
    case _ =>
      var r := t.bank[t.index].rings;
      t.(oldTerms := OldTerms(r.trade[t.work.tradePtr], r.mid[t.work.midPtr], r.priceQuantity[t.work.vwapPtr],
        r.quantity[t.work.vwapPtr]),
         stage := if t.event.kind == MSG_MARKET_TRADE then MultiplyTrade else ApplyEvent)
  }

  /** MULTIPLY_TRADE to OUTPUT: compute, normalise, commit and hand over. */
  ghost function Commit(c: Windows, t: Engine, i: EngineIn, normDone: bool, normOut: Normalized): Engine
    requires Shaped(c, t)
  {
    match t.stage
    case MultiplyTrade => t.(product := Wrap(t.event.price * t.event.quantity, 96), stage := ApplyEvent)
    case ApplyEvent => t.(work := ApplyToWork(c, t), stage := FeatureCalc)
    case FeatureCalc =>
      t.(feature := RawFeature(c, t), midReg := Midpoint(t.work.book), work := MidpointCounted(c, t.work),
        stage := NormalizeStart)
    case NormalizeStart => t.(stage := NormalizeWait)
    case NormalizeWait => if normDone then t.(feature := t.feature.(norm := normOut), stage := WriteState) else t
    case WriteState => t.(bank := t.bank[t.index := t.bank[t.index].(word := t.work, initialized := true)],
      stage := WriteHistory)
    case WriteHistory =>
      t.(bank := t.bank[t.index := t.bank[t.index].(rings := WrittenRings(t, t.bank[t.index].rings))], stage := Output)
    case _ =>
      if !t.featureValid then t.(featureValid := true)
      else if i.featureReady then t.(featureValid := false, stage := Idle)
      else t
  }

  predicate Fetching(s: Stage) {
    s.Idle? || s.ReadState? || s.CheckSeq? || s.SetHistoryAddr? || s.ReadHistory? || s.CaptureHistory?
  }

  /** One clock edge of the state machine proper, given the normaliser's outputs before the edge. */
  ghost function Advance(c: Windows, t: Engine, i: EngineIn, normDone: bool, normOut: Normalized): Engine
    requires Shaped(c, t)
  {
    if Fetching(t.stage) then Fetch(c, t, i) else Commit(c, t, i, normDone, normOut)
  }

  /** One clock edge of the engine and its normaliser. */
  ghost function EngineTick(c: Windows, s: Engine, i: EngineIn): Engine
    requires Shaped(c, s)
  {
    var norm := NormTick(Params(c), s.norm, NormIn(s.stage.NormalizeStart?, s.feature.raw, s.oldTerms.mid));
    if Resets(c, s, i) then
      s.(bank := s.bank[i.resetSymbol := s.bank[i.resetSymbol].(word := EmptyWord, initialized := false)],
         stage := Idle, featureValid := false, norm := norm)
    else
      Advance(c, s.(reject := s.reject.(pulse := false), norm := norm), i, s.norm.done, s.norm.out)
  }

  lemma {:induction false} WrapPointerInRange(ptr: nat, size: nat)
    requires ptr < size
    ensures WrapPointer(ptr, size) < size && WrapPointer(ptr, size) == (ptr + 1) % size
  {
    if ptr + 1 < size { ModSmall(ptr + 1, size); } else { ModUnique(ptr + 1, 1, 0, size); }
  }

  lemma {:induction false} IndexIsSymbol(c: Windows, symbol: nat)
    requires symbol < c.symbols
    ensures Wrap(symbol, IndexWidth(c)) == symbol
  {
    assert Pow2(1) == 2;
  }

  lemma {:induction false} FetchKeepsShape(c: Windows, t: Engine, i: EngineIn)
    requires Shaped(c, t)
    ensures Shaped(c, Fetch(c, t, i))
  {
    hide Wrap;
    if i.event.symbol < c.symbols { IndexIsSymbol(c, i.event.symbol); }
  }

  lemma {:induction false} SlotKeepsShape(c: Windows, t: Engine, slot: Slot)
    requires Shaped(c, t) && SlotFits(c, slot)
    ensures Shaped(c, t.(bank := t.bank[t.index := slot]))
  {
  }

  lemma {:induction false} WorkKeepsShape(c: Windows, t: Engine)
    requires Shaped(c, t)
    ensures PointersFit(c, ApplyToWork(c, t)) && PointersFit(c, MidpointCounted(c, t.work))
  {
    hide Roll, Wrap, UpdateBook, WrapPointer, Counted, AccumulatorWidth;
    WrapPointerInRange(t.work.tradePtr, c.trade);
    WrapPointerInRange(t.work.midPtr, c.momentum);
    WrapPointerInRange(t.work.vwapPtr, c.vwap);
  }

  // Registers outside the memories, the work word and the addresses do not matter.
  lemma {:induction false} StageKeepsShape(c: Windows, t: Engine, u: Engine)
    requires Shaped(c, t) && u.bank == t.bank && u.work == t.work && u.addr == t.addr && u.index == t.index
    ensures Shaped(c, u)
  {
  }

  lemma {:induction false} WorkStageKeepsShape(c: Windows, t: Engine, i: EngineIn, normDone: bool, normOut: Normalized)
    requires Shaped(c, t) && (t.stage.ApplyEvent? || t.stage.FeatureCalc?)
    ensures Shaped(c, Commit(c, t, i, normDone, normOut))
  {
    WorkKeepsShape(c, t);
    var u := Commit(c, t, i, normDone, normOut);
    hide ApplyToWork, MidpointCounted, RawFeature, PointersFit, SlotFits;
    assert PointersFit(c, u.work)
      && u == t.(work := u.work, stage := u.stage, feature := u.feature, midReg := u.midReg);
  }

  lemma {:induction false} BankStageKeepsShape(c: Windows, t: Engine, i: EngineIn, normDone: bool, normOut: Normalized)
    requires Shaped(c, t) && (t.stage.WriteState? || t.stage.WriteHistory?)
    ensures Shaped(c, Commit(c, t, i, normDone, normOut))
  {
    var slot := t.bank[t.index];
    var next := if t.stage.WriteState? then slot.(word := t.work, initialized := true)
      else slot.(rings := WrittenRings(t, slot.rings));
    SlotKeepsShape(c, t, next);
    hide WrittenRings;
    StageKeepsShape(c, t.(bank := t.bank[t.index := next]), Commit(c, t, i, normDone, normOut));
  }

  lemma {:induction false} CommitKeepsShape(c: Windows, t: Engine, i: EngineIn, normDone: bool, normOut: Normalized)
    requires Shaped(c, t) && !Fetching(t.stage)
    ensures Shaped(c, Commit(c, t, i, normDone, normOut))
  {
    hide Shaped;
    if t.stage.ApplyEvent? || t.stage.FeatureCalc? {
      WorkStageKeepsShape(c, t, i, normDone, normOut);
    } else if t.stage.WriteState? || t.stage.WriteHistory? {
      BankStageKeepsShape(c, t, i, normDone, normOut);
    } else {
      StageKeepsShape(c, t, Commit(c, t, i, normDone, normOut));
    }
  }

  // The shape does not depend on the reject port or the normaliser.
  lemma {:induction false} ShapeFrame(c: Windows, s: Engine, reject: RejectPort, norm: Norm)
    requires Shaped(c, s)
    ensures Shaped(c, s.(reject := reject, norm := norm))
  {
  }

  lemma {:induction false} ResetKeepsShape(c: Windows, s: Engine, i: EngineIn, norm: Norm)
    requires Shaped(c, s) && i.resetSymbol < c.symbols
    ensures Shaped(c, s.(
      bank := s.bank[i.resetSymbol := s.bank[i.resetSymbol].(word := EmptyWord, initialized := false)],
      stage := Idle, featureValid := false, norm := norm))
  {
  }

  /** No edge leaves the memories or their pointers out of shape. */
  lemma {:induction false} TickKeepsShape(c: Windows, s: Engine, i: EngineIn)
    requires Shaped(c, s)
    ensures Shaped(c, EngineTick(c, s, i))
  {
    hide NormTick, Fetch, Commit;
    var norm := NormTick(Params(c), s.norm, NormIn(s.stage.NormalizeStart?, s.feature.raw, s.oldTerms.mid));
    var t := s.(reject := s.reject.(pulse := false), norm := norm);
    if Resets(c, s, i) {
      ResetKeepsShape(c, s, i, norm);
    } else {
      ShapeFrame(c, s, t.reject, norm);
      if Fetching(s.stage) { FetchKeepsShape(c, t, i); } else { CommitKeepsShape(c, t, i, s.norm.done, s.norm.out); }
    }
  }

  class MarketStateEngine {
    const config: Windows
    const normalizer: FeatureNormalizer
    var stage: Stage
    var bank: seq<Slot>
    var event: Event
    var index: nat
    var product: nat
    var work: Word
    var oldTerms: OldTerms
    var addr: Addresses
    var midReg: nat
    var feature: Feature
    var featureValid: bool
    var reject: RejectPort

    ghost function View(): Engine
      reads this, normalizer, normalizer.divider
    {
      Engine(stage, bank, event, index, product, work, oldTerms, addr, midReg, feature, featureValid,
        normalizer.View(), reject)
    }

    ghost predicate Valid()
      reads this, normalizer, normalizer.divider
    {
      normalizer.Valid() && normalizer.params == Params(config) && Shaped(config, View())
    }

    constructor (config: Windows, bank: seq<Slot>)
      requires config.Valid() && |bank| == config.symbols
      requires forall i :: 0 <= i < |bank| ==> ShapedRings(config, bank[i].rings)
      ensures this.config == config && Valid() && fresh(normalizer) && fresh(normalizer.divider)
      ensures View() == ResetEngine(seq(|bank|, i requires 0 <= i < |bank| => bank[i].(initialized := false)))
    {
      this.config := config;
      this.normalizer := new FeatureNormalizer(Params(config));
      stage, event, index, product, work := Idle, NoEvent, 0, 0, EmptyWord;
      // Only the bitmap is cleared; the memories keep whatever they held.
      this.bank := seq(|bank|, i requires 0 <= i < |bank| => bank[i].(initialized := false));
      oldTerms, addr, midReg := OldTerms(0, 0, 0, 0), Addresses(0, 0, 0), 0;
      feature, featureValid, reject := NoFeature, false, RejectPort(false, 0, 0, 0);
    }

    method Tick(i: EngineIn)
      requires Valid()
      modifies this, normalizer, normalizer.divider
      ensures Valid() && View() == EngineTick(config, old(View()), i)
    {
      hide NormTick, Fetch, Commit;
      TickKeepsShape(config, View(), i);
      var normDone, normOut := normalizer.done, normalizer.out;
      normalizer.Tick(stage.NormalizeStart?, feature.raw, oldTerms.mid);
      if i.resetValid && stage.Idle? && !featureValid && i.resetSymbol < config.symbols {
        bank := bank[i.resetSymbol := bank[i.resetSymbol].(word := EmptyWord, initialized := false)];
        stage, featureValid := Idle, false;
        return;
      }
      reject := reject.(pulse := false);
      ShapeFrame(config, old(View()), reject, normalizer.View());
      if Fetching(stage) { FetchStage(i); } else { CommitStage(i, normDone, normOut); }
    }

    method FetchStage(i: EngineIn)
      requires Valid() && Fetching(stage)
      modifies this
      ensures View() == Fetch(config, old(View()), i)
    {
      hide TakeEvent, CheckWork, Params;
      match stage
      case Idle =>
        if i.eventValid && !featureValid && !i.resetValid { ScreenEvent(i.event); }
      case ReadState =>
        work, stage := if bank[index].initialized then bank[index].word else EmptyWord, CheckSeq;
      case CheckSeq =>
        CheckSequenceNumber();
      case SetHistoryAddr =>
        addr, stage := Addresses(work.tradePtr, work.midPtr, work.vwapPtr), ReadHistory;
      case ReadHistory =>
        stage := CaptureHistory;
      case CaptureHistory =>
        var r := bank[index].rings;
        oldTerms :=
          OldTerms(r.trade[work.tradePtr], r.mid[work.midPtr], r.priceQuantity[work.vwapPtr], r.quantity[work.vwapPtr]);
        stage := if event.kind == MSG_MARKET_TRADE then MultiplyTrade else ApplyEvent;
    }

    method ScreenEvent(e: Event)
      modifies this
      ensures View() == TakeEvent(config, old(View()), e)
    {
      hide IndexWidth;
      reject := reject.(symbol := e.symbol, sequence := e.sequence);
      if e.symbol >= config.symbols {
        reject := reject.(pulse := true, reason := STATUS_BAD_SYMBOL);
      } else if e.kind != MSG_MARKET_QUOTE && e.kind != MSG_MARKET_TRADE {
        reject := reject.(pulse := true, reason := STATUS_BAD_TYPE);
      } else if e.side > 1 {
        reject := reject.(pulse := true, reason := STATUS_BAD_SIDE);
      } else {
        event, index, stage := e, Wrap(e.symbol, IndexWidth(config)), ReadState;
      }
    }

    method CheckSequenceNumber()
      modifies this
      ensures View() == CheckWork(old(View()))
    {
      if work.book.sequenceValid && event.sequence <= work.book.sequence {
        var reason := if event.sequence == work.book.sequence then STATUS_DUPLICATE_SEQ else STATUS_STALE_SEQ;
        reject, stage := reject.(pulse := true, reason := reason), Idle;
      } else {
        stage := SetHistoryAddr;
      }
    }

    method CommitStage(i: EngineIn, normDone: bool, normOut: Normalized)
      requires Valid() && !Fetching(stage)
      modifies this
      ensures View() == Commit(config, old(View()), i, normDone, normOut)
    {
      hide RawFeature, Midpoint, ApplyToWork, MidpointCounted, WrittenRings, Params;
      match stage
      case MultiplyTrade =>
        product, stage := Wrap(event.price * event.quantity, 96), ApplyEvent;
      case ApplyEvent =>
        ApplyWork();
        stage := FeatureCalc;
      case FeatureCalc =>
        ComputeFeature();
        stage := NormalizeStart;
      case NormalizeStart =>
        stage := NormalizeWait;
      case NormalizeWait =>
        if normDone { feature, stage := feature.(norm := normOut), WriteState; }
      case WriteState =>
        bank, stage := bank[index := bank[index].(word := work, initialized := true)], WriteHistory;
      case WriteHistory =>
        StoreHistory();
        stage := Output;
      case Output =>
        if !featureValid { featureValid := true; }
        else if i.featureReady { featureValid, stage := false, Idle; }
    }

    method ComputeFeature()
      modifies this`feature, this`midReg, this`work
      ensures
        var s := old(View());
        View() ==
          s.(feature := RawFeature(config, s), midReg := Midpoint(s.work.book), work := MidpointCounted(config, s.work))
    {
      hide RawOf, Midpoint;
      var raw :=
        RawOf(work.book, work.midCount >= config.momentum, oldTerms.mid, work.sumPriceQuantity, work.sumQuantity);
      feature := Feature(event.symbol, event.sequence, work.book, work.volume, raw, feature.norm);
      midReg := Midpoint(work.book);
      if work.book.QuotesValid() {
        work := work.(midPtr := WrapPointer(work.midPtr, config.momentum),
          midCount := Counted(config.momentum, work.midCount));
      }
    }

    method ApplyWork()
      requires Valid()
      modifies this`work
      ensures work == ApplyToWork(config, old(View()))
    {
      hide Roll;
      work := work.(book := UpdateBook(work.book, event));
      if event.kind != MSG_MARKET_QUOTE {
        var volume :=
          Roll(work.volume, work.tradeCount, config.trade, oldTerms.trade, event.quantity,
            AccumulatorWidth(32, config.trade));
        var value :=
          Roll(work.sumPriceQuantity, work.vwapCount, config.vwap, oldTerms.priceQuantity, product,
            AccumulatorWidth(96, config.vwap));
        var quantity :=
          Roll(work.sumQuantity, work.vwapCount, config.vwap, oldTerms.quantity, event.quantity,
            AccumulatorWidth(32, config.vwap));
        work := work.(volume := volume, tradePtr := WrapPointer(work.tradePtr, config.trade),
          tradeCount := Counted(config.trade, work.tradeCount));
        work := work.(sumPriceQuantity := value, sumQuantity := quantity,
                      vwapPtr := WrapPointer(work.vwapPtr, config.vwap),
                      vwapCount := Counted(config.vwap, work.vwapCount));
      }
    }

    method StoreHistory()
      requires Valid()
      modifies this`bank
      ensures bank == old(bank)[index := old(bank)[index].(rings := WrittenRings(old(View()), old(bank)[index].rings))]
    {
      var r := bank[index].rings;
      if event.kind == MSG_MARKET_TRADE {
        r := r.(trade := r.trade[addr.trade := event.quantity]);
        r := r.(priceQuantity := r.priceQuantity[addr.vwap := product],
          quantity := r.quantity[addr.vwap := event.quantity]);
      }
      if work.book.QuotesValid() { r := r.(mid := r.mid[addr.mid := midReg]); }
      bank := bank[index := bank[index].(rings := r)];
    }
  }
}
