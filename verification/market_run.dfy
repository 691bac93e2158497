// Whole runs of the market engine: what it emits, what it stores and exactly how long it takes.
module MarketRun {
  import opened ProtocolDefs
  import opened Bits
  import opened MarketTypes
  import opened MarketModel
  import opened MarketHistory
  import opened Normalizer
  import opened NormalizerCorrect
  import opened MarketEngine
  import opened MarketRefinement

  /** What the ports have carried so far, and the edges the normaliser still needs. */
  datatype Ports = Ports(taken: seq<Op>, emitted: seq<Outcome>, wait: nat)

  const NothingYet := Ports([], [], 0)

  predicate InFlight(st: Stage) {
    !st.Idle? && !st.Output?
  }

  /** The operations whose effect is complete: all taken ones but the event in flight. */
  function Settled(s: Engine, g: Ports): seq<Op> {
    if InFlight(s.stage) && g.taken != [] then g.taken[..|g.taken| - 1] else g.taken
  }

  /** The handshake an edge completes on the input ports. */
  function Takes(c: Windows, s: Engine, i: EngineIn): seq<Op> {
    if Resets(c, s, i) then [Clear(i.resetSymbol)]
    else if i.eventValid && EventReady(s, i) then [Take(i.event)]
    else []
  }

  function PortOutcome(r: RejectPort): Outcome {
    if r.reason == STATUS_BAD_SYMBOL then DispatchError(r.reason, r.symbol, r.sequence)
    else Rejected(r.reason, r.symbol, r.sequence)
  }

  /** What an edge puts out: a rejection it raises, or a feature record the consumer takes. */
  function Emits(c: Windows, s: Engine, i: EngineIn, next: Engine): seq<Outcome> {
    if Resets(c, s, i) then []
    else if next.reject.pulse then [PortOutcome(next.reject)]
    else if s.featureValid && i.featureReady then [Produced(s.feature)]
    else []
  }

  ghost function NextPorts(c: Windows, s: Engine, i: EngineIn, g: Ports): Ports
    requires Shaped(c, s)
  {
    Ports(g.taken + Takes(c, s, i), g.emitted + Emits(c, s, i, EngineTick(c, s, i)),
          if s.stage.NormalizeStart? then TotalEdges(Params(c), Normalize(c.scales, s.feature.raw, s.oldTerms.mid))
          else if g.wait > 0 then g.wait - 1 else 0)
  }

  // ---- The invariant, stage by stage ----

  ghost predicate Quiet(n: Norm) {
    n.phase.NIdle? && !n.div.busy
  }

  ghost predicate Running(c: Windows, n: Norm, wait: nat, result: Normalized) {
    exists t :: Reaches(Params(c), n, wait, t) && Finished(t, result)
  }

  /** The event in flight is one the model accepts as far as its own fields go. */
  ghost predicate Flight(c: Windows, s: Engine) {
    && Screen(c.symbols, s.event).Pass? && s.event.Widths() && s.index == s.event.symbol
    && !s.featureValid && s.reject.symbol == s.event.symbol && s.reject.sequence == s.event.sequence
  }

  ghost predicate Addressed(s: Engine, sym: Symbol) {
    s.addr == Addresses(sym.word.tradePtr, sym.word.midPtr, sym.word.vwapPtr)
  }

  ghost predicate Multiplied(s: Engine) {
    s.event.kind == MSG_MARKET_QUOTE || s.product == s.event.price * s.event.quantity
  }

  ghost function Modelled(c: Windows, sym: Symbol, e: Event): Feature
    requires sym.Valid(c)
  {
    FeatureOf(c, Apply(c, sym, e), e)
  }

  /** Everything computed: what remains is to normalise, commit and hand over. */
  ghost predicate Computed(c: Windows, s: Engine, sym: Symbol)
    requires sym.Valid(c)
  {
    var f := Modelled(c, sym, s.event);
    && Addressed(s, sym) && Multiplied(s)
    && s.work == Observe(c, Apply(c, sym, s.event)).word && s.midReg == Midpoint(s.work.book)
    && s.feature.(norm := f.norm) == f
  }

  ghost predicate StageInv(c: Windows, s: Engine, sym: Symbol, wait: nat)
    requires sym.Valid(c)
  {
    var passed := CheckSequence(sym.word.book, s.event).Pass?;
    match s.stage
    case Idle => true
    case ReadState => Quiet(s.norm)
    case CheckSeq => Quiet(s.norm) && s.work == sym.word
    case SetHistoryAddr => Quiet(s.norm) && s.work == sym.word && passed
    case ReadHistory => Quiet(s.norm) && s.work == sym.word && passed && Addressed(s, sym)
    case CaptureHistory => Quiet(s.norm) && s.work == sym.word && passed && Addressed(s, sym)
    case MultiplyTrade =>
      Quiet(s.norm) && s.work == sym.word && passed && Addressed(s, sym) && OldOk(c, sym, s.oldTerms)
        && s.event.kind == MSG_MARKET_TRADE
    case ApplyEvent =>
      Quiet(s.norm) && s.work == sym.word && passed && Addressed(s, sym) && OldOk(c, sym, s.oldTerms) && Multiplied(s)
    case FeatureCalc =>
      Quiet(s.norm) && s.work == Apply(c, sym, s.event).word && passed && Addressed(s, sym)
        && OldOk(c, sym, s.oldTerms) && Multiplied(s)
    case NormalizeStart =>
      Quiet(s.norm) && passed && Computed(c, s, sym)
      && Normalize(c.scales, s.feature.raw, s.oldTerms.mid) == Modelled(c, sym, s.event).norm
      && InputWidths(Params(c), s.feature.raw, s.oldTerms.mid) && VwapOf(s.feature.raw) < Pow2(64)
    case NormalizeWait => passed && Computed(c, s, sym) && Running(c, s.norm, wait, Modelled(c, sym, s.event).norm)
    case WriteState => Quiet(s.norm) && passed && Computed(c, s, sym) && s.feature == Modelled(c, sym, s.event)
    case WriteHistory => Quiet(s.norm) && passed && Computed(c, s, sym) && s.feature == Modelled(c, sym, s.event)
    case Output => true
  }

  /** Between WRITE_STATE and WRITE_HISTORY the selected slot has its new word and its old rings. */
  ghost predicate BankOk(c: Windows, s: Engine, symbols: seq<Symbol>)
    requires ValidSymbols(c, symbols)
  {
    && |s.bank| == |symbols|
    && forall k :: 0 <= k < |symbols| ==>
      if s.stage.WriteHistory? && k == s.index then
        s.bank[k].initialized && s.bank[k].word == s.work && LiveRings(s.bank[k].rings, symbols[k])
      else Live(s.bank[k], symbols[k])
  }

  ghost predicate Inv(c: Windows, s: Engine, g: Ports) {
    && Buildable(c) && Shaped(c, s) && OpsFit(g.taken)
    && (InFlight(s.stage) ==> g.taken != [] && g.taken[|g.taken| - 1] == Take(s.event) && Flight(c, s))
    && (!InFlight(s.stage) ==> Quiet(s.norm))
    && (s.stage.Idle? ==> !s.featureValid)
    && var r := Replay(c, Settled(s, g));
      && BankOk(c, s, r.symbols)
      && r.outcomes == g.emitted + (if s.stage.Output? then [Produced(s.feature)] else [])
      && (InFlight(s.stage) ==> StageInv(c, s, r.symbols[s.event.symbol], g.wait))
  }

  // ---- One edge in flight ----

  lemma {:induction false} QuietStaysQuiet(c: NormParams, n: Norm, i: NormIn)
    requires Quiet(n) && !i.start
    ensures Quiet(NormTick(c, n, i))
  {
  }

  /** What an edge in flight must establish: the next stage's predicate, with memories and ports untouched. */
  ghost predicate Steps(c: Windows, s: Engine, i: EngineIn, sym: Symbol, wait: nat, next: Stage, wait': nat)
    requires Shaped(c, s) && sym.Valid(c)
  {
    var t := EngineTick(c, s, i);
    && t.stage == next && t.bank == s.bank && t.event == s.event && Flight(c, t) && !t.reject.pulse
    && StageInv(c, t, sym, wait')
  }

  ghost predicate Context(c: Windows, s: Engine, sym: Symbol, h: History, wait: nat) {
    && Buildable(c) && Shaped(c, s) && Represents(c, sym, h) && HistoryFits(h) && sym.Valid(c)
    && Flight(c, s) && InFlight(s.stage) && StageInv(c, s, sym, wait) && s.index < |s.bank|
  }

  // In flight no slot reset can complete, so the edge is the state machine's own.
  lemma {:induction false} TickInFlight(c: Windows, s: Engine, i: EngineIn)
    requires Shaped(c, s) && InFlight(s.stage)
    ensures Shaped(c, Ticked(c, s))
    ensures
      EngineTick(c, s, i) ==
        if Fetching(s.stage) then Fetch(c, Ticked(c, s), i) else Commit(c, Ticked(c, s), i, s.norm.done, s.norm.out)
    ensures !s.stage.NormalizeStart? && Quiet(s.norm) ==> Quiet(Ticked(c, s).norm)
  {
    hide NormTick, Fetch, Commit;
    var in' := NormIn(s.stage.NormalizeStart?, s.feature.raw, s.oldTerms.mid);
    if !s.stage.NormalizeStart? && Quiet(s.norm) { QuietStaysQuiet(Params(c), s.norm, in'); }
    ShapeFrame(c, s, s.reject.(pulse := false), NormTick(Params(c), s.norm, in'));
  }

  /** What every edge does beside the state machine: drop the pulse and clock the normaliser. */
  ghost function Ticked(c: Windows, s: Engine): Engine {
    s.(reject := s.reject.(pulse := false),
       norm := NormTick(Params(c), s.norm, NormIn(s.stage.NormalizeStart?, s.feature.raw, s.oldTerms.mid)))
  }

  lemma {:induction false} TickedFrame(c: Windows, s: Engine)
    ensures
      var t := Ticked(c, s);
      t == s.(reject := t.reject, norm := t.norm) && t.reject == s.reject.(pulse := false)
  {
    hide NormTick;
  }

  lemma {:induction false} EarlyStages(c: Windows, s: Engine, i: EngineIn, sym: Symbol, h: History, wait: nat)
    requires Context(c, s, sym, h, wait) && Live(s.bank[s.index], sym)
    requires s.stage.ReadState? || s.stage.SetHistoryAddr? || s.stage.ReadHistory?
      || (s.stage.CheckSeq? && CheckSequence(sym.word.book, s.event).Pass?)
    ensures Steps(c, s, i, sym, wait,
      if s.stage.ReadState? then CheckSeq else if s.stage.CheckSeq? then SetHistoryAddr
      else if s.stage.SetHistoryAddr? then ReadHistory else CaptureHistory, wait)
  {
    hide Shaped, EngineTick, Ticked, Represents, HistoryFits, Buildable, Symbol.Valid, FeatureOf, Apply, Observe,
      Running, Computed, InputWidths, Screen, Event.Widths, Quiet, LiveRings;
    TickInFlight(c, s, i);
    TickedFrame(c, s);
  }

  lemma {:induction false} CaptureStage(c: Windows, s: Engine, i: EngineIn, sym: Symbol, h: History, wait: nat)
    requires Context(c, s, sym, h, wait) && Live(s.bank[s.index], sym) && s.stage.CaptureHistory?
    ensures Steps(c, s, i, sym, wait, if s.event.kind == MSG_MARKET_TRADE then MultiplyTrade else ApplyEvent, wait)
  {
    hide Shaped, EngineTick, Ticked, Represents, HistoryFits, Buildable, Symbol.Valid, FeatureOf, Apply, Observe,
      Running, Computed, InputWidths, Event.Widths, Quiet, LiveRings, OldOk, CheckSequence;
    TickInFlight(c, s, i);
    TickedFrame(c, s);
    CaptureIsOld(c, s.bank[s.index], sym);
  }

  lemma {:induction false} MultiplyStage(c: Windows, s: Engine, i: EngineIn, sym: Symbol, h: History, wait: nat)
    requires Context(c, s, sym, h, wait) && s.stage.MultiplyTrade?
    ensures Steps(c, s, i, sym, wait, ApplyEvent, wait)
  {
    hide Shaped, EngineTick, Ticked, Represents, HistoryFits, Buildable, Symbol.Valid, FeatureOf, Apply, Observe,
      Running, Computed, InputWidths, Screen, Event.Widths, Quiet, OldOk, CheckSequence, Pow2;
    TickInFlight(c, s, i);
    TickedFrame(c, s);
    EventProductFits(s.event);
  }

  lemma {:induction false} EventProductFits(e: Event)
    requires e.Widths()
    ensures 0 <= e.price * e.quantity < Pow2(96)
  {
    hide Pow2;
    ProductFits(e.price, e.quantity);
  }

  lemma {:induction false} ApplyStage(c: Windows, s: Engine, i: EngineIn, sym: Symbol, h: History, wait: nat)
    requires Context(c, s, sym, h, wait) && s.stage.ApplyEvent?
    ensures Steps(c, s, i, sym, wait, FeatureCalc, wait)
  {
    hide Shaped, EngineTick, Ticked, Represents, HistoryFits, Buildable, Symbol.Valid, FeatureOf, Apply, Observe,
      OldOk, ApplyToWork, Computed, Running, InputWidths, Screen, Event.Widths, CheckSequence, Quiet;
    TickInFlight(c, s, i);
    var t := Ticked(c, s);
    assert t == s.(reject := t.reject, norm := t.norm)
      && t.reject == s.reject.(pulse := false) by { TickedFrame(c, s); }
    WorkIsApplied(c, t, sym, h);
  }

  lemma {:induction false} FeatureStage(c: Windows, s: Engine, i: EngineIn, sym: Symbol, h: History, wait: nat)
    requires Context(c, s, sym, h, wait) && s.stage.FeatureCalc?
    ensures Steps(c, s, i, sym, wait, NormalizeStart, wait)
  {
    hide Shaped, EngineTick, Ticked, Represents, HistoryFits, Buildable, Symbol.Valid, FeatureOf, Apply, Observe,
      OldOk, RawFeature, MidpointCounted, InputWidths, Normalize, Midpoint, Running, Screen, Event.Widths,
      CheckSequence, Quiet;
    TickInFlight(c, s, i);
    TickedFrame(c, s);
    FeatureIsModelled(c, Ticked(c, s), sym, h);
    CountingKeepsBook(c, s.work);
  }

  lemma {:induction false} CountingKeepsBook(c: Windows, w: Word)
    ensures MidpointCounted(c, w).book == w.book
  {
  }

  lemma {:induction false} NormalizeStartStage(c: Windows, s: Engine, i: EngineIn, sym: Symbol, h: History, wait: nat)
    requires Context(c, s, sym, h, wait) && s.stage.NormalizeStart?
    ensures Steps(c, s, i, sym, wait, NormalizeWait,
      TotalEdges(Params(c), Normalize(c.scales, s.feature.raw, s.oldTerms.mid)))
  {
    hide Shaped, EngineTick, Ticked, Represents, HistoryFits, Symbol.Valid, FeatureOf, Apply, Observe, Normalize,
      Midpoint, InputWidths, Running, Screen, Event.Widths, CheckSequence, Quiet, TotalEdges;
    TickInFlight(c, s, i);
    TickedFrame(c, s);
    StartRuns(c, s);
  }

  lemma {:induction false} StartRuns(c: Windows, s: Engine)
    requires Buildable(c) && s.stage.NormalizeStart? && Quiet(s.norm)
    requires InputWidths(Params(c), s.feature.raw, s.oldTerms.mid) && VwapOf(s.feature.raw) < Pow2(64)
    ensures
      var n := Normalize(c.scales, s.feature.raw, s.oldTerms.mid);
      Running(c, Ticked(c, s).norm, TotalEdges(Params(c), n), n)
  {
    hide NormTick, InputWidths, Normalize, Registered, TotalEdges, Reaches, Finished, AtStart;
    RegisterLosesNothing(c.scales, s.feature.raw, s.oldTerms.mid);
    LoadStarts(Params(c), s.norm, s.feature.raw, s.oldTerms.mid);
    var t := ScheduleCompletes(Params(c), Ticked(c, s).norm, s.feature.raw, s.oldTerms.mid);
  }

  lemma {:induction false} NormalizeWaitStage(c: Windows, s: Engine, i: EngineIn, sym: Symbol, h: History, wait: nat)
    requires Context(c, s, sym, h, wait) && s.stage.NormalizeWait?
    ensures Steps(c, s, i, sym, wait,
      if wait == 0 then WriteState else NormalizeWait, if wait == 0 then 0 else wait - 1)
  {
    hide Shaped, EngineTick, Ticked, Represents, HistoryFits, Buildable, Symbol.Valid, FeatureOf, Apply, Observe,
      Normalize, Midpoint, InputWidths, Running, Screen, Event.Widths, CheckSequence, Quiet;
    TickInFlight(c, s, i);
    TickedFrame(c, s);
    WaitingNorm(c, s, wait, Modelled(c, sym, s.event).norm);
  }

  // The normaliser has the result exactly when no edges are left.
  lemma {:induction false} WaitingNorm(c: Windows, s: Engine, wait: nat, result: Normalized)
    requires Running(c, s.norm, wait, result) && s.stage.NormalizeWait?
    ensures s.norm.done <==> wait == 0
    ensures wait > 0 ==> Running(c, Ticked(c, s).norm, wait - 1, result)
    ensures wait == 0 ==> s.norm.out == result && Quiet(Ticked(c, s).norm)
  {
    hide BusyTick;
    var t :| Reaches(Params(c), s.norm, wait, t) && Finished(t, result);
    if wait == 0 { QuietStaysQuiet(Params(c), s.norm, NormIn(false, s.feature.raw, s.oldTerms.mid)); }
  }

  /** WRITE_STATE stores the new word and nothing else. */
  lemma {:induction false} WriteStateStage(c: Windows, s: Engine, i: EngineIn, sym: Symbol, h: History, wait: nat)
    requires Context(c, s, sym, h, wait) && s.stage.WriteState?
    ensures
      var t := EngineTick(c, s, i);
      && t.stage.WriteHistory? && t.event == s.event && Flight(c, t) && !t.reject.pulse && StageInv(c, t, sym, wait)
      && t.bank == s.bank[s.index := s.bank[s.index].(word := t.work, initialized := true)]
  {
    hide Shaped, EngineTick, Ticked, Represents, HistoryFits, Buildable, Symbol.Valid, FeatureOf, Apply, Observe,
      Normalize, Midpoint, InputWidths, Running, Screen, Event.Widths, CheckSequence, Quiet;
    TickInFlight(c, s, i);
    TickedFrame(c, s);
  }

  /** WRITE_HISTORY completes the selected slot: it now stands for the model's new symbol. */
  lemma {:induction false} WriteHistoryStage(c: Windows, s: Engine, i: EngineIn, sym: Symbol, h: History, wait: nat)
    requires Context(c, s, sym, h, wait) && s.stage.WriteHistory?
    requires s.bank[s.index].initialized && s.bank[s.index].word == s.work && LiveRings(s.bank[s.index].rings, sym)
    ensures
      var t := EngineTick(c, s, i);
      && t.stage.Output? && !t.featureValid && !t.reject.pulse && Quiet(t.norm)
      && t.feature == Modelled(c, sym, s.event)
      && |t.bank| == |s.bank| && t.bank == s.bank[s.index := t.bank[s.index]]
      && Live(t.bank[s.index], Observe(c, Apply(c, sym, s.event)))
  {
    hide Shaped, EngineTick, Ticked, Represents, HistoryFits, Buildable, Symbol.Valid, FeatureOf, Apply, Observe,
      Normalize, Midpoint, InputWidths, Running, Screen, Event.Widths, CheckSequence, Quiet, LiveRings, WrittenRings;
    TickInFlight(c, s, i);
    TickedFrame(c, s);
    ObservedBook(c, sym, s.event);
    WrittenIsLive(c, Ticked(c, s), s.bank[s.index].rings, sym);
  }

  lemma {:induction false} ObservedBook(c: Windows, sym: Symbol, e: Event)
    requires sym.Valid(c)
    ensures Observe(c, Apply(c, sym, e)).word.book == UpdateBook(sym.word.book, e)
  {
  }

  // ---- Every edge ----

  ghost function TraceOf(c: Windows, s: Engine, g: Ports): (r: Trace)
    requires c.Valid()
    ensures ValidSymbols(c, r.symbols)
  {
    Replay(c, Settled(s, g))
  }

  /** The selected slot still has its rings from before the event, and its word until WRITE_STATE. */
  ghost predicate SlotBefore(s: Engine, sym: Symbol)
    requires s.index < |s.bank|
  {
    var slot := s.bank[s.index];
    if s.stage.WriteHistory? then slot.initialized && slot.word == s.work && LiveRings(slot.rings, sym)
      else Live(slot, sym)
  }

  // The facts the stage lemmas need, for the event in flight.
  lemma {:induction false} FlightContext(c: Windows, s: Engine, g: Ports) returns (sym: Symbol, h: History)
    requires Inv(c, s, g) && InFlight(s.stage)
    ensures c.Valid() && Shaped(c, s) && ValidSymbols(c, TraceOf(c, s, g).symbols)
    ensures s.event.symbol < c.symbols && s.index == s.event.symbol && s.index < |s.bank|
    ensures sym == TraceOf(c, s, g).symbols[s.event.symbol]
    ensures Context(c, s, sym, h, g.wait)
    ensures g.taken == Settled(s, g) + [Take(s.event)]
    ensures SlotBefore(s, sym)
  {
    hide Replay, StageInv, HistoryFits, Represents, Shaped, Buildable, Symbol.Valid, Event.Widths, LiveRings,
      Represents;
    assert OpsFit(Settled(s, g));
    assert c.Valid() by { BuildableIsValid(c); }
    HistoriesFit(c, Settled(s, g), s.event.symbol);
    ReplayRepresents(c, Settled(s, g));
    assert |s.bank| == c.symbols by { ShapedBank(c, s); }
    sym, h := TraceOf(c, s, g).symbols[s.event.symbol], Histories(c, Settled(s, g))[s.event.symbol];
  }

  lemma {:induction false} BuildableIsValid(c: Windows)
    requires Buildable(c)
    ensures c.Valid()
  {
  }

  lemma {:induction false} ShapedBank(c: Windows, s: Engine)
    requires Shaped(c, s)
    ensures |s.bank| == c.symbols
  {
  }

  /** The part of the invariant that `StageInv` does not already carry, for a step that stays in flight. */
  lemma {:induction false} StaysInFlight(c: Windows, s: Engine, i: EngineIn, g: Ports, next: Stage, wait': nat)
    requires Inv(c, s, g) && InFlight(s.stage) && InFlight(next) && s.stage != WriteHistory && next != WriteHistory
    requires TraceOf(c, s, g).symbols != [] && s.event.symbol < |TraceOf(c, s, g).symbols|
    requires Steps(c, s, i, TraceOf(c, s, g).symbols[s.event.symbol], g.wait, next, wait')
    requires wait' == NextPorts(c, s, i, g).wait || !next.NormalizeWait?
    ensures Shaped(c, EngineTick(c, s, i)) && Inv(c, EngineTick(c, s, i), NextPorts(c, s, i, g))
  {
    hide Replay, HistoryFits, Represents, Shaped, EngineTick, Buildable, Symbol.Valid, Event.Widths, Live, TotalEdges,
      Normalize, Flight, Quiet, Computed, Running, CheckSequence, OldOk, Addressed, Multiplied, InputWidths, Modelled;
    TickKeepsShape(c, s, i);
    assert Flight(c, s);
    FlightPorts(c, s);
    assert NextPorts(c, s, i, g).taken == g.taken;
    assert NextPorts(c, s, i, g).emitted == g.emitted;
  }

  lemma {:induction false} FlightPorts(c: Windows, s: Engine)
    requires Flight(c, s)
    ensures !s.featureValid && Screen(c.symbols, s.event).Pass? && s.index == s.event.symbol < c.symbols
  {
  }

  /** The stage after an edge in flight; `wait` is what the normaliser still needs. */
  function NextStage(s: Engine, wait: nat): Stage {
    match s.stage
    case ReadState => CheckSeq
    case CheckSeq => SetHistoryAddr
    case SetHistoryAddr => ReadHistory
    case ReadHistory => CaptureHistory
    case CaptureHistory => if s.event.kind == MSG_MARKET_TRADE then MultiplyTrade else ApplyEvent
    case MultiplyTrade => ApplyEvent
    case ApplyEvent => FeatureCalc
    case FeatureCalc => NormalizeStart
    case NormalizeStart => NormalizeWait
    case NormalizeWait => if wait == 0 then WriteState else NormalizeWait
    case WriteState => WriteHistory
    case _ => Output
  }

  lemma {:induction false} MiddleSteps(c: Windows, s: Engine, i: EngineIn, g: Ports, sym: Symbol, h: History)
    requires Context(c, s, sym, h, g.wait) && !s.stage.WriteState? && !s.stage.WriteHistory?
    requires s.stage.CheckSeq? ==> CheckSequence(sym.word.book, s.event).Pass?
    requires Fetching(s.stage) ==> Live(s.bank[s.index], sym)
    ensures Steps(c, s, i, sym, g.wait, NextStage(s, g.wait),
      if s.stage.NormalizeStart? || s.stage.NormalizeWait? then NextPorts(c, s, i, g).wait else g.wait)
  {
    hide Shaped, Represents, HistoryFits, EngineTick, Buildable, Symbol.Valid, Event.Widths, TotalEdges, Normalize,
      Quiet, Steps, Computed, Running, OldOk, Addressed, Multiplied, InputWidths, Modelled, LiveRings, StageInv,
      Flight;
    match s.stage
    case CaptureHistory => CaptureStage(c, s, i, sym, h, g.wait);
    case MultiplyTrade => MultiplyStage(c, s, i, sym, h, g.wait);
    case ApplyEvent => ApplyStage(c, s, i, sym, h, g.wait);
    case FeatureCalc => FeatureStage(c, s, i, sym, h, g.wait);
    case NormalizeStart => NormalizeStartStage(c, s, i, sym, h, g.wait);
    case NormalizeWait => NormalizeWaitStage(c, s, i, sym, h, g.wait);
    case _ => EarlyStages(c, s, i, sym, h, g.wait);
  }

  lemma {:induction false} MiddleStep(c: Windows, s: Engine, i: EngineIn, g: Ports)
    requires Inv(c, s, g) && InFlight(s.stage) && !s.stage.WriteState? && !s.stage.WriteHistory?
    requires s.stage.CheckSeq? ==> !SequenceRefused(s)
    ensures Shaped(c, EngineTick(c, s, i)) && Inv(c, EngineTick(c, s, i), NextPorts(c, s, i, g))
  {
    hide Shaped, Replay, HistoryFits, Represents, EngineTick, Buildable, Symbol.Valid, Event.Widths, TotalEdges,
      Normalize, Quiet, Steps, Computed, Running, OldOk, Addressed, Multiplied, InputWidths, Modelled, Settled,
      LiveRings, RepresentsAll, ValidSymbols;
    var sym, h := FlightContext(c, s, g);
    MiddleSteps(c, s, i, g, sym, h);
    StaysInFlight(c, s, i, g, NextStage(s, g.wait),
      if s.stage.NormalizeStart? || s.stage.NormalizeWait? then NextPorts(c, s, i, g).wait else g.wait);
  }

  /** CHECK_SEQUENCE turns the event away. */
  predicate SequenceRefused(s: Engine) {
    s.work.book.sequenceValid && s.event.sequence <= s.work.book.sequence
  }

  // An edge after which the in-flight event is settled.
  lemma {:induction false} SettleStep(c: Windows, s: Engine, i: EngineIn, g: Ports)
    requires Inv(c, s, g) && InFlight(s.stage) && !InFlight(EngineTick(c, s, i).stage)
    ensures
      var g' := NextPorts(c, s, i, g);
      var t := EngineTick(c, s, i);
      && g'.taken == g.taken && Settled(t, g') == g.taken
      && s.event.symbol < |TraceOf(c, s, g).symbols|
      && var p := ProcessEvent(c, TraceOf(c, s, g).symbols, s.event);
        && TraceOf(c, t, g').symbols == p.symbols
        && TraceOf(c, t, g').outcomes == TraceOf(c, s, g).outcomes + [p.outcome]
  {
    hide Replay, StageInv, HistoryFits, Represents, BankOk, Shaped, Symbol.Valid, Event.Widths, EngineTick, Context,
      ProcessEvent, ProcessHistory;
    var _, _ := FlightContext(c, s, g);
    ReplaySnoc(c, Settled(s, g), Take(s.event));
  }

  lemma {:induction false} RefusedStep(c: Windows, s: Engine, i: EngineIn, g: Ports)
    requires Inv(c, s, g) && s.stage.CheckSeq? && SequenceRefused(s)
    ensures Shaped(c, EngineTick(c, s, i)) && Inv(c, EngineTick(c, s, i), NextPorts(c, s, i, g))
  {
    hide Replay, HistoryFits, Represents, Shaped, EngineTick, Buildable, Symbol.Valid, Event.Widths, LiveRings, Apply,
      Observe, FeatureOf, Quiet, Context, RepresentsAll;
    var sym, h := FlightContext(c, s, g);
    TickKeepsShape(c, s, i);
    TickInFlight(c, s, i);
    TickedFrame(c, s);
    SettleStep(c, s, i, g);
    var t, g' := EngineTick(c, s, i), NextPorts(c, s, i, g);
    assert TraceOf(c, s, g).outcomes == g.emitted;
    assert g'.emitted == g.emitted + [PortOutcome(t.reject)];
    assert PortOutcome(t.reject) == ProcessEvent(c, TraceOf(c, s, g).symbols, s.event).outcome;
    assert TraceOf(c, t, g').symbols == TraceOf(c, s, g).symbols;
    assert BankOk(c, t, TraceOf(c, t, g').symbols);
  }

  lemma {:induction false} WriteStateStep(c: Windows, s: Engine, i: EngineIn, g: Ports)
    requires Inv(c, s, g) && s.stage.WriteState?
    ensures Shaped(c, EngineTick(c, s, i)) && Inv(c, EngineTick(c, s, i), NextPorts(c, s, i, g))
  {
    hide Shaped, Replay, HistoryFits, Represents, EngineTick, Buildable, Symbol.Valid, Event.Widths, TotalEdges,
      Normalize, Quiet, Computed, Running, OldOk, Addressed, Multiplied, InputWidths, Modelled, LiveRings,
      RepresentsAll;
    TickKeepsShape(c, s, i);
    var sym, h := FlightContext(c, s, g);
    WriteStateStage(c, s, i, sym, h, g.wait);
    FlightPorts(c, s);
    var t, g' := EngineTick(c, s, i), NextPorts(c, s, i, g);
    FlightPorts(c, t);
    assert g'.taken == g.taken && g'.emitted == g.emitted && Settled(t, g') == Settled(s, g);
    assert BankOk(c, t, TraceOf(c, t, g').symbols);
  }

  lemma {:induction false} WriteHistoryStep(c: Windows, s: Engine, i: EngineIn, g: Ports)
    requires Inv(c, s, g) && s.stage.WriteHistory?
    ensures Shaped(c, EngineTick(c, s, i)) && Inv(c, EngineTick(c, s, i), NextPorts(c, s, i, g))
  {
    hide Shaped, Replay, HistoryFits, Represents, EngineTick, Buildable, Symbol.Valid, Event.Widths, TotalEdges,
      Normalize, Quiet, Computed, Running, OldOk, Addressed, Multiplied, InputWidths, LiveRings, RepresentsAll, Apply,
      Observe, FeatureOf, CheckSequence;
    TickKeepsShape(c, s, i);
    var sym, h := FlightContext(c, s, g);
    WriteHistoryStage(c, s, i, sym, h, g.wait);
    FlightPorts(c, s);
    SettleStep(c, s, i, g);
  }

  // ---- Edges outside a transaction ----

  // With nothing in flight the trace is that of every operation taken; a newly taken one extends it.
  lemma {:induction false} TakeOp(c: Windows, s: Engine, i: EngineIn, g: Ports, op: Op)
    requires Inv(c, s, g) && s.stage.Idle? && Takes(c, s, i) == [op] && (op.Take? ==> op.event.Widths())
    ensures
      var g' := NextPorts(c, s, i, g);
      && g'.taken == g.taken + [op] && OpsFit(g'.taken) && c.Valid()
      && Replay(c, g'.taken) == After(c, TraceOf(c, s, g), op)
  {
    hide Replay, After, StageInv, HistoryFits, Represents, BankOk, Shaped, Symbol.Valid, Event.Widths, EngineTick;
    ReplaySnoc(c, g.taken, op);
  }

  lemma {:induction false} ResetStep(c: Windows, s: Engine, i: EngineIn, g: Ports)
    requires Inv(c, s, g) && Resets(c, s, i)
    ensures Shaped(c, EngineTick(c, s, i)) && Inv(c, EngineTick(c, s, i), NextPorts(c, s, i, g))
  {
    hide Replay, StageInv, HistoryFits, Represents, Symbol.Valid, Event.Widths, FreshSymbol, Live, NormTick,
      RepresentsAll;
    TickKeepsShape(c, s, i);
    TakeOp(c, s, i, g, Clear(i.resetSymbol));
    QuietStaysQuiet(Params(c), s.norm, NormIn(false, s.feature.raw, s.oldTerms.mid));
    var t := EngineTick(c, s, i);
    ClearedIsFresh(c, t.bank[i.resetSymbol]);
    var g' := NextPorts(c, s, i, g);
    assert TraceOf(c, s, g).outcomes == g.emitted;
    assert BankOk(c, t, TraceOf(c, t, g').symbols);
  }

  // Outside a reset, an idle edge is the state machine's own.
  lemma {:induction false} TickInIdle(c: Windows, s: Engine, i: EngineIn)
    requires Shaped(c, s) && !InFlight(s.stage) && !Resets(c, s, i) && Quiet(s.norm)
    ensures Shaped(c, Ticked(c, s)) && Quiet(Ticked(c, s).norm)
    ensures
      EngineTick(c, s, i) ==
        if Fetching(s.stage) then Fetch(c, Ticked(c, s), i) else Commit(c, Ticked(c, s), i, s.norm.done, s.norm.out)
  {
    hide NormTick, Fetch, Commit;
    var in' := NormIn(s.stage.NormalizeStart?, s.feature.raw, s.oldTerms.mid);
    QuietStaysQuiet(Params(c), s.norm, in');
    ShapeFrame(c, s, s.reject.(pulse := false), NormTick(Params(c), s.norm, in'));
  }

  lemma {:induction false} WaitStep(c: Windows, s: Engine, i: EngineIn, g: Ports)
    requires Inv(c, s, g) && s.stage.Idle? && Takes(c, s, i) == []
    ensures Shaped(c, EngineTick(c, s, i)) && Inv(c, EngineTick(c, s, i), NextPorts(c, s, i, g))
  {
    hide Shaped, Replay, StageInv, HistoryFits, Represents, EngineTick, Buildable, Symbol.Valid, Event.Widths, Quiet,
      Live, RepresentsAll, Ticked;
    TickKeepsShape(c, s, i);
    TickInIdle(c, s, i);
    TickedFrame(c, s);
    var g' := NextPorts(c, s, i, g);
    assert g'.taken == g.taken && Settled(EngineTick(c, s, i), g') == g.taken;
    assert g'.emitted == g.emitted;
  }

  lemma {:induction false} OutputStep(c: Windows, s: Engine, i: EngineIn, g: Ports)
    requires Inv(c, s, g) && s.stage.Output?
    ensures Shaped(c, EngineTick(c, s, i)) && Inv(c, EngineTick(c, s, i), NextPorts(c, s, i, g))
  {
    hide Shaped, Replay, StageInv, HistoryFits, Represents, EngineTick, Buildable, Symbol.Valid, Event.Widths, Quiet,
      Live, RepresentsAll, Ticked;
    TickKeepsShape(c, s, i);
    TickInIdle(c, s, i);
    TickedFrame(c, s);
    var g' := NextPorts(c, s, i, g);
    assert g'.taken == g.taken && Settled(EngineTick(c, s, i), g') == g.taken;
    assert g'.emitted == g.emitted + if s.featureValid && i.featureReady then [Produced(s.feature)] else [];
  }

  lemma {:induction false} TakeStep(c: Windows, s: Engine, i: EngineIn, g: Ports)
    requires Inv(c, s, g) && s.stage.Idle? && Takes(c, s, i) == [Take(i.event)] && i.event.Widths()
    ensures Shaped(c, EngineTick(c, s, i)) && Inv(c, EngineTick(c, s, i), NextPorts(c, s, i, g))
  {
    hide Shaped, Replay, HistoryFits, Represents, EngineTick, Buildable, Symbol.Valid, Event.Widths, Quiet, Live,
      RepresentsAll, Ticked, Wrap, Apply, Observe, FeatureOf, CheckSequence, LiveRings;
    TickKeepsShape(c, s, i);
    TickInIdle(c, s, i);
    TickedFrame(c, s);
    TakeOp(c, s, i, g, Take(i.event));
    if i.event.symbol < c.symbols { IndexIsSymbol(c, i.event.symbol); }
    assert TraceOf(c, s, g).outcomes == g.emitted;
    var t, g' := EngineTick(c, s, i), NextPorts(c, s, i, g);
    if InFlight(t.stage) {
      assert Settled(t, g') == g.taken;
    } else {
      assert Settled(t, g') == g'.taken;
      assert TraceOf(c, t, g').symbols == TraceOf(c, s, g).symbols;
    }
  }

  /** Every clock edge keeps the invariant, whatever the (width-respecting) inputs, stalls and slot resets. */
  lemma {:induction false} InvStep(c: Windows, s: Engine, i: EngineIn, g: Ports)
    requires Inv(c, s, g) && i.event.Widths()
    ensures Shaped(c, EngineTick(c, s, i)) && Inv(c, EngineTick(c, s, i), NextPorts(c, s, i, g))
  {
    hide Inv, EngineTick, NextPorts, Event.Widths;
    assert s.stage.Idle? ==> !s.featureValid by { IdleHoldsNothing(c, s, g); }
    match s.stage
    case Idle =>
      if Resets(c, s, i) { ResetStep(c, s, i, g); }
      else if i.eventValid && EventReady(s, i) { TakeStep(c, s, i, g); }
      else { WaitStep(c, s, i, g); }
    case Output => OutputStep(c, s, i, g);
    case WriteState => WriteStateStep(c, s, i, g);
    case WriteHistory => WriteHistoryStep(c, s, i, g);
    case _ =>
      if s.stage.CheckSeq? && SequenceRefused(s) { RefusedStep(c, s, i, g); } else { MiddleStep(c, s, i, g); }
  }

  lemma {:induction false} IdleHoldsNothing(c: Windows, s: Engine, g: Ports)
    requires Inv(c, s, g)
    ensures s.stage.Idle? ==> !s.featureValid
  {
    hide Replay, StageInv, BankOk, Shaped;
  }

  // ---- Whole runs ----

  /** The memories may hold anything at power-up, as long as they have their size. */
  ghost predicate PoweredUp(c: Windows, bank: seq<Slot>) {
    && |bank| == c.symbols
    && forall k :: 0 <= k < |bank| ==> !bank[k].initialized && ShapedRings(c, bank[k].rings)
  }

  lemma {:induction false} ResetInv(c: Windows, bank: seq<Slot>)
    requires Buildable(c) && PoweredUp(c, bank)
    ensures Inv(c, ResetEngine(bank), NothingYet)
  {
    hide Represents, HistoryFits, LiveRings, FreshSymbol, Live;
    forall k | 0 <= k < |bank| ensures Live(bank[k], FreshSymbol(c)) { ClearedIsFresh(c, bank[k]); }
    var r := Replay(c, []);
    assert BankOk(c, ResetEngine(bank), r.symbols);
  }

  datatype Machine = Machine(engine: Engine, ports: Ports)

  ghost predicate WidthsHold(ins: seq<EngineIn>) {
    forall k :: 0 <= k < |ins| ==> ins[k].event.Widths()
  }

  /** One clock edge of the engine together with the record of its ports. */
  ghost function Clocked(c: Windows, m: Machine, i: EngineIn): (r: Machine)
    requires Shaped(c, m.engine)
    ensures Shaped(c, r.engine)
  {
    TickKeepsShape(c, m.engine, i);
    Machine(EngineTick(c, m.engine, i), NextPorts(c, m.engine, i, m.ports))
  }

  /** The engine and the record of its ports after a series of clock edges. */
  ghost function RunEngine(c: Windows, m: Machine, ins: seq<EngineIn>): (r: Machine)
    requires Shaped(c, m.engine)
    ensures Shaped(c, r.engine)
    decreases |ins|
  {
    if ins == [] then m else RunEngine(c, Clocked(c, m, ins[0]), ins[1..])
  }

  ghost predicate Sane(c: Windows, m: Machine) {
    Shaped(c, m.engine) && Inv(c, m.engine, m.ports)
  }

  lemma {:induction false} ClockedStaysSane(c: Windows, m: Machine, i: EngineIn)
    requires Sane(c, m) && i.event.Widths()
    ensures Sane(c, Clocked(c, m, i))
  {
    hide Inv, Shaped, EngineTick, NextPorts, Event.Widths;
    InvStep(c, m.engine, i, m.ports);
  }

  lemma {:induction false} RunStaysSane(c: Windows, m: Machine, ins: seq<EngineIn>)
    requires Sane(c, m) && WidthsHold(ins)
    ensures Sane(c, RunEngine(c, m, ins))
    decreases |ins|
  {
    hide Inv, Shaped, Clocked, Event.Widths;
    if ins != [] {
      ClockedStaysSane(c, m, ins[0]);
      RunStaysSane(c, Clocked(c, m, ins[0]), ins[1..]);
    }
  }

  function PowerUp(bank: seq<Slot>): Machine {
    Machine(ResetEngine(bank), NothingYet)
  }

  lemma {:induction false} PowerUpIsSane(c: Windows, bank: seq<Slot>)
    requires Buildable(c) && PoweredUp(c, bank)
    ensures Sane(c, PowerUp(bank))
  {
    hide Inv;
    ResetInv(c, bank);
    InvShaped(c, ResetEngine(bank), NothingYet);
  }

  /**
    For every run from reset: what has been emitted is the reference model's outcomes for what has been taken,
    in order, short of at most the one still in flight or held; whenever the engine is idle nothing is missing
    and the memories stand for the model's symbols.
   */
  lemma {:induction false} EngineRefinesModel(c: Windows, bank: seq<Slot>, ins: seq<EngineIn>)
    requires Buildable(c) && PoweredUp(c, bank) && WidthsHold(ins)
    ensures Shaped(c, ResetEngine(bank))
    ensures
      var m := RunEngine(c, PowerUp(bank), ins);
      var r := Replay(c, m.ports.taken);
      && |r.outcomes| - 1 <= |m.ports.emitted| <= |r.outcomes| && m.ports.emitted == r.outcomes[..|m.ports.emitted|]
      && (m.engine.featureValid ==> r.outcomes == m.ports.emitted + [Produced(m.engine.feature)])
      && (m.engine.stage.Idle? ==> r.outcomes == m.ports.emitted && AllLive(m.engine.bank, r.symbols))
  {
    hide Inv, Shaped, RunEngine, Replay, AllLive;
    PowerUpIsSane(c, bank);
    RunStaysSane(c, PowerUp(bank), ins);
    var m := RunEngine(c, PowerUp(bank), ins);
    InvMeans(c, m.engine, m.ports);
  }

  lemma {:induction false} InvMeans(c: Windows, s: Engine, g: Ports)
    requires Inv(c, s, g)
    ensures
      var r := Replay(c, g.taken);
      && |r.outcomes| - 1 <= |g.emitted| <= |r.outcomes| && g.emitted == r.outcomes[..|g.emitted|]
      && (s.featureValid ==> r.outcomes == g.emitted + [Produced(s.feature)])
      && (s.stage.Idle? ==> r.outcomes == g.emitted && AllLive(s.bank, r.symbols))
  {
    hide StageInv, Shaped, Live, HistoryFits, Represents, ProcessEvent, ProcessHistory, Replay, RepresentsAll,
      ValidSymbols, Event.Widths;
    var before := Replay(c, Settled(s, g));
    if InFlight(s.stage) {
      ReplaySnoc(c, Settled(s, g), Take(s.event));
      assert g.taken == Settled(s, g) + [Take(s.event)];
      assert before.outcomes == g.emitted;
    }
  }

  // ---- Exact latency ----

  /**
    The edges until the feature of the event in flight is offered, with the normaliser still to spend `total` or
    `wait` edges.
   */
  function EdgesLeft(s: Engine, total: nat, wait: nat): nat {
    var trade := if s.event.kind == MSG_MARKET_TRADE then 1 else 0;
    match s.stage
    case ReadState => 12 + trade + total
    case CheckSeq => 11 + trade + total
    case SetHistoryAddr => 10 + trade + total
    case ReadHistory => 9 + trade + total
    case CaptureHistory => 8 + trade + total
    case MultiplyTrade => 8 + total
    case ApplyEvent => 7 + total
    case FeatureCalc => 6 + total
    case NormalizeStart => 5 + total
    case NormalizeWait => 4 + wait
    case WriteState => 3
    case WriteHistory => 2
    case Output => if s.featureValid then 0 else 1
    case Idle => 0
  }

  /** The event in flight passes its sequence check and is `left` edges from being offered as a feature. */
  ghost predicate Counting(c: Windows, s: Engine, g: Ports, left: nat)
    requires Inv(c, s, g)
  {
    if InFlight(s.stage) then
      InvSymbol(c, s, g);
      var sym := TraceOf(c, s, g).symbols[s.event.symbol];
      CheckSequence(sym.word.book, s.event).Pass? && left == EdgesLeft(s, ModelEdges(c, sym, s.event), g.wait)
    else s.stage.Output? && left == EdgesLeft(s, 0, 0)
  }

  lemma {:induction false} InvSymbol(c: Windows, s: Engine, g: Ports)
    requires Inv(c, s, g) && InFlight(s.stage)
    ensures c.Valid() && s.event.symbol < c.symbols && ValidSymbols(c, TraceOf(c, s, g).symbols)
    ensures TraceOf(c, s, g).symbols[s.event.symbol].Valid(c)
  {
    hide Inv, TraceOf;
    var _, _ := FlightContext(c, s, g);
  }

  /** The edges the normaliser spends on the feature of this event. */
  ghost function ModelEdges(c: Windows, sym: Symbol, e: Event): nat
    requires sym.Valid(c)
  {
    TotalEdges(Params(c), Modelled(c, sym, e).norm)
  }

  lemma {:induction false} MiddleCounts(c: Windows, s: Engine, i: EngineIn, g: Ports, sym: Symbol, h: History)
    requires Context(c, s, sym, h, g.wait) && !s.stage.WriteState? && !s.stage.WriteHistory?
    requires s.stage.CheckSeq? ==> CheckSequence(sym.word.book, s.event).Pass?
    requires Fetching(s.stage) ==> Live(s.bank[s.index], sym)
    ensures
      var t, g' := EngineTick(c, s, i), NextPorts(c, s, i, g);
      && InFlight(t.stage) && t.event == s.event
      && EdgesLeft(t, ModelEdges(c, sym, s.event), g'.wait) + 1 == EdgesLeft(s, ModelEdges(c, sym, s.event), g.wait)
  {
    hide Shaped, Represents, HistoryFits, EngineTick, Buildable, Symbol.Valid, Event.Widths, TotalEdges, Normalize,
      Quiet, Running, OldOk, Addressed, Multiplied, InputWidths, Modelled, LiveRings, Computed, Flight;
    MiddleSteps(c, s, i, g, sym, h);
  }

  /** One edge brings the event in flight exactly one edge nearer. */
  lemma {:induction false} CountStep(c: Windows, m: Machine, i: EngineIn, left: nat)
    requires Sane(c, m) && i.event.Widths() && Counting(c, m.engine, m.ports, left) && left > 0
    ensures Sane(c, Clocked(c, m, i))
    ensures
      var r := Clocked(c, m, i);
      Counting(c, r.engine, r.ports, left - 1) && (r.engine.featureValid <==> left == 1)
  {
    hide Inv, TraceOf, ModelEdges, CheckSequence, Context, EngineTick, NextPorts, Shaped;
    ClockedStaysSane(c, m, i);
    if m.engine.stage.Output? { OutputRises(c, m.engine, i, m.ports); } else { FlightCounts(c, m, i, left); }
  }

  lemma {:induction false} FlightCounts(c: Windows, m: Machine, i: EngineIn, left: nat)
    requires Sane(c, m) && i.event.Widths() && Counting(c, m.engine, m.ports, left) && InFlight(m.engine.stage)
    ensures Sane(c, Clocked(c, m, i))
    ensures
      var r := Clocked(c, m, i);
      left > 1 && Counting(c, r.engine, r.ports, left - 1) && !r.engine.featureValid
  {
    hide Inv, TraceOf, ModelEdges, CheckSequence, Context, EngineTick, NextPorts, Shaped, EdgesLeft;
    ClockedStaysSane(c, m, i);
    var s, g, r := m.engine, m.ports, Clocked(c, m, i);
    var sym, h := FlightContext(c, s, g);
    FlightAdvances(c, s, i, g, sym, h);
    if InFlight(r.engine.stage) { SameTrace(c, s, i, g); } else { OutputLeft(r.engine); }
  }

  lemma {:induction false} OutputLeft(s: Engine)
    ensures s.stage.Output? ==>
      forall a: nat, b: nat {:trigger EdgesLeft(s, a, b)} :: EdgesLeft(s, a, b) == if s.featureValid then 0 else 1
  {
  }

  lemma {:induction false} InvShaped(c: Windows, s: Engine, g: Ports)
    requires Inv(c, s, g)
    ensures Shaped(c, s)
  {
    hide Replay, StageInv, BankOk, Shaped;
  }

  lemma {:induction false} OutputRises(c: Windows, s: Engine, i: EngineIn, g: Ports)
    requires Inv(c, s, g) && s.stage.Output? && !s.featureValid
    ensures Shaped(c, s) && EngineTick(c, s, i).stage.Output? && EngineTick(c, s, i).featureValid
  {
    hide Replay, StageInv, Shaped, BankOk, EngineTick, Quiet, Ticked;
    TickInIdle(c, s, i);
    TickedFrame(c, s);
  }

  // While an event stays in flight the operations settled, and so the model's symbols, stay the same.
  lemma {:induction false} SameTrace(c: Windows, s: Engine, i: EngineIn, g: Ports)
    requires Inv(c, s, g) && Shaped(c, s) && InFlight(s.stage) && InFlight(EngineTick(c, s, i).stage)
    ensures c.Valid() && TraceOf(c, EngineTick(c, s, i), NextPorts(c, s, i, g)) == TraceOf(c, s, g)
  {
    hide Replay, StageInv, Shaped, BankOk, EngineTick, Quiet;
    assert NextPorts(c, s, i, g).taken == g.taken;
  }

  lemma {:induction false} FlightAdvances(c: Windows, s: Engine, i: EngineIn, g: Ports, sym: Symbol, h: History)
    requires Context(c, s, sym, h, g.wait) && Shaped(c, s) && SlotBefore(s, sym)
    requires sym.Valid(c) && CheckSequence(sym.word.book, s.event).Pass?
    ensures
      var t, g' := EngineTick(c, s, i), NextPorts(c, s, i, g);
      var total := ModelEdges(c, sym, s.event);
      && (if InFlight(t.stage) then t.event == s.event else t.stage.Output?) && !t.featureValid
      && 1 < EdgesLeft(s, total, g.wait) == EdgesLeft(t, total, g'.wait) + 1
  {
    hide Represents, HistoryFits, EngineTick, Event.Widths, TotalEdges, ModelEdges, StageInv, Quiet, LiveRings,
      Shaped, Computed, Modelled, Apply, Observe, FeatureOf, CheckSequence, Symbol.Valid, Buildable;
    if s.stage.WriteState? {
      WriteStateStage(c, s, i, sym, h, g.wait);
    } else if s.stage.WriteHistory? {
      WriteHistoryStage(c, s, i, sym, h, g.wait);
    } else {
      MiddleSteps(c, s, i, g, sym, h);
      MiddleCounts(c, s, i, g, sym, h);
    }
  }

  /**
    The edge that takes an event the model accepts starts the count at 12 for a quote and 13 for a trade, plus
    the normaliser's edges.
   */
  lemma {:induction false} AcceptStartsCount(c: Windows, m: Machine, i: EngineIn)
    requires c.Valid() && Sane(c, m) && Accepting(c, m, i) && i.event.Widths()
    ensures Sane(c, Clocked(c, m, i))
    ensures
      var r := Clocked(c, m, i);
      Counting(c, r.engine, r.ports, Latency(c, m, i.event)) && !r.engine.featureValid
  {
    hide Inv, Shaped, EngineTick, Replay, Event.Widths, ModelEdges, Ticked, RepresentsAll, Quiet, CheckSequence, Wrap,
      Symbol.Valid;
    ClockedStaysSane(c, m, i);
    var s, g := m.engine, m.ports;
    assert !s.featureValid && Quiet(s.norm) && Shaped(c, s) by { IdleQuiet(c, s, g); }
    TickInIdle(c, s, i);
    TickedFrame(c, s);
    var t, g' := EngineTick(c, s, i), NextPorts(c, s, i, g);
    assert t.stage.ReadState? && t.event == i.event && !t.featureValid;
    assert g'.taken == g.taken + [Take(i.event)] && Settled(t, g') == g.taken;
    assert Clocked(c, m, i) == Machine(t, g');
    InvSymbol(c, t, g');
  }

  /** The engine takes, on this edge, an event that the model accepts. */
  ghost predicate Accepting(c: Windows, m: Machine, i: EngineIn)
    requires c.Valid()
  {
    && m.engine.stage.Idle? && Takes(c, m.engine, i) == [Take(i.event)] && Screen(c.symbols, i.event).Pass?
    && CheckSequence(Replay(c, m.ports.taken).symbols[i.event.symbol].word.book, i.event).Pass?
  }

  ghost function Latency(c: Windows, m: Machine, e: Event): (n: nat)
    requires c.Valid()
    ensures n >= 12
  {
    (if e.kind == MSG_MARKET_TRADE then 13 else 12) +
      if e.symbol < c.symbols then ModelEdges(c, Replay(c, m.ports.taken).symbols[e.symbol], e) else 0
  }

  lemma {:induction false} IdleQuiet(c: Windows, s: Engine, g: Ports)
    requires Inv(c, s, g) && s.stage.Idle?
    ensures !s.featureValid && Quiet(s.norm) && Shaped(c, s)
  {
    hide Replay, StageInv, BankOk, Shaped, Quiet;
  }

  lemma {:induction false} CountRun(c: Windows, m: Machine, ins: seq<EngineIn>, left: nat)
    requires Sane(c, m) && WidthsHold(ins) && Counting(c, m.engine, m.ports, left) && |ins| <= left
    requires m.engine.featureValid <==> left == 0
    ensures RunEngine(c, m, ins).engine.featureValid <==> |ins| == left
    decreases |ins|
  {
    hide Inv, Clocked, Counting, Event.Widths;
    if ins != [] {
      CountStep(c, m, ins[0], left);
      CountRun(c, Clocked(c, m, ins[0]), ins[1..], left - 1);
    }
  }

  lemma {:induction false} LatencyFrom(c: Windows, m: Machine, ins: seq<EngineIn>)
    requires c.Valid() && Sane(c, m) && WidthsHold(ins) && ins != [] && Accepting(c, m, ins[0])
    requires |ins| - 1 <= Latency(c, m, ins[0].event)
    ensures RunEngine(c, m, ins).engine.featureValid <==> |ins| - 1 == Latency(c, m, ins[0].event)
  {
    hide Inv, Shaped, Clocked, Counting, Event.Widths, Latency, Accepting;
    AcceptedSymbol(c, m, ins[0]);
    AcceptStartsCount(c, m, ins[0]);
    CountRun(c, Clocked(c, m, ins[0]), ins[1..], Latency(c, m, ins[0].event));
  }

  lemma {:induction false} AcceptedSymbol(c: Windows, m: Machine, i: EngineIn)
    requires c.Valid() && Accepting(c, m, i)
    ensures i.event.symbol < c.symbols
  {
    hide Replay, CheckSequence;
  }

  /**
    In every run from reset, an event the model accepts is offered as a feature exactly 12 edges (quote) or 13
    edges (trade) plus the normaliser's edges after the edge that takes it, and not before, whatever the inputs
    do meanwhile.
   */
  lemma {:induction false} LatencyIsExact(c: Windows, bank: seq<Slot>, before: seq<EngineIn>, ins: seq<EngineIn>)
    requires Buildable(c) && PoweredUp(c, bank) && WidthsHold(before) && WidthsHold(ins)
    ensures c.Valid() && Shaped(c, ResetEngine(bank))
    ensures
      var m := RunEngine(c, PowerUp(bank), before);
      ins != [] && Accepting(c, m, ins[0]) && |ins| - 1 <= Latency(c, m, ins[0].event) ==>
        (RunEngine(c, m, ins).engine.featureValid <==> |ins| - 1 == Latency(c, m, ins[0].event))
  {
    hide Inv, Shaped, RunEngine, Event.Widths, Latency, Accepting;
    BuildableIsValid(c);
    PowerUpIsSane(c, bank);
    RunStaysSane(c, PowerUp(bank), before);
    var m := RunEngine(c, PowerUp(bank), before);
    if ins != [] && Accepting(c, m, ins[0]) {
      AcceptedSymbol(c, m, ins[0]);
      if |ins| - 1 <= Latency(c, m, ins[0].event) { LatencyFrom(c, m, ins); }
    }
  }

  /** With the default windows and scales that is at most 536 edges. */
  lemma {:induction false} DefaultLatencyBound(c: Windows, m: Machine, e: Event)
    requires c.Valid() && e.symbol < c.symbols && c.vwap == 32 && c.scales.fracBits == 15
    ensures Latency(c, m, e) <= 536
  {
    hide Modelled, TotalEdges, Replay;
    assert AccumulatorWidth(96, 32) == 101 by { assert Clog2(32) == 5; }
    DefaultLatency(Params(c), Modelled(c, Replay(c, m.ports.taken).symbols[e.symbol], e).norm);
  }

  // ---- The reject pulse ----

  /** This edge turns an event away. */
  predicate TurnsAway(c: Windows, s: Engine, i: EngineIn) {
    && !Resets(c, s, i)
    && if s.stage.Idle? then i.eventValid && EventReady(s, i) && Screen(c.symbols, i.event).Refuse?
       else s.stage.CheckSeq? && SequenceRefused(s)
  }

  /**
    The reject pulse is high for one cycle per event turned away, with one exception: an edge that completes a
    slot reset leaves the register alone, so a pulse already high lasts one cycle longer and counts twice.
   */
  lemma {:induction false} PulsePerRejection(c: Windows, s: Engine, i: EngineIn)
    requires Shaped(c, s)
    ensures EngineTick(c, s, i).reject.pulse <==> TurnsAway(c, s, i) || (Resets(c, s, i) && s.reject.pulse)
  {
    hide Shaped, NormTick, ApplyToWork, RawFeature, WrittenRings, MidpointCounted, Wrap;
  }
}
