// The clocked signal engine: a registered record behind a valid/ready handshake.
module SignalEngine {
  import opened MarketTypes
  import opened StrategyModel
  import opened StrategyRules

  // ---- The decision, as the hardware computes it ----

  datatype Conditions = Conditions(momentum: bool, delta: bool, imbalance: bool, spread: bool, volume: bool)
  {
    predicate All() {
      momentum && delta && imbalance && spread && volume
    }

    function Either(o: Conditions): Conditions {
      Conditions(momentum || o.momentum, delta || o.delta, imbalance || o.imbalance, spread || o.spread,
                 volume || o.volume)
    }

    /** A sum of five flags in a four-bit register. */
    function Score(): nat {
      (One(momentum) + One(delta) + One(imbalance) + One(spread) + One(volume)) % 16
    }

    function Reason(): bv16 {
      var r2 :=
        WithFlag(WithFlag(WithFlag(0, momentum, REASON_MOMENTUM_PASS), delta, REASON_VWAP_DELTA_PASS), imbalance,
          REASON_IMBALANCE_PASS);
      WithFlag(WithFlag(r2, spread, REASON_SPREAD_PASS), volume, REASON_VOLUME_PASS)
    }
  }

  function LongConditions(cfg: Config, f: Feature): Conditions {
    var n := f.norm;
    Conditions(n.momentumBpsValid && n.momentumBps >= cfg.longMinMomentum,
               n.deltaBpsValid && n.deltaBps >= cfg.longMinDelta,
               n.imbalanceValid && n.imbalance >= cfg.longMinImbalance,
               n.spreadBpsValid && n.spreadBps <= cfg.maxSpread,
               f.rollingVolume >= cfg.minVolume)
  }

  function ShortConditions(cfg: Config, f: Feature): Conditions {
    var n := f.norm;
    Conditions(n.momentumBpsValid && n.momentumBps <= cfg.shortMaxMomentum,
               n.deltaBpsValid && n.deltaBps <= cfg.shortMaxDelta,
               n.imbalanceValid && n.imbalance <= cfg.shortMaxImbalance,
               n.spreadBpsValid && n.spreadBps <= cfg.maxSpread,
               f.rollingVolume >= cfg.minVolume)
  }

  datatype Decision = Decision(raw: Direction, eligible: Direction, fire: bool, score: nat, reason: bv16)

  function Decide(cfg: Config, enabled: bool, m: Memory, f: Feature): Decision {
    var long, short := LongConditions(cfg, f), ShortConditions(cfg, f);
    var valid := f.norm.spreadBpsValid && f.norm.momentumBpsValid && f.norm.imbalanceValid && f.norm.vwapValid
      && f.norm.deltaBpsValid;
    var raw := if long.All() then Long else if short.All() then Short else NoDirection;
    var eligible :=
      if valid && enabled && cfg.strategyEnable then
        if raw == Long && cfg.longEnable then Long else if raw == Short && cfg.shortEnable then Short else NoDirection
      else NoDirection;
    var edge := raw != NoDirection && raw != m.previous;
    var repeat := cfg.cooldown != 0 && m.cooldown == 1 && raw == m.lastEmitted;
    var fire := eligible != NoDirection && ((edge && m.cooldown == 0) || (eligible == m.lastEmitted && repeat));
    var chosen := Chosen(raw, long, short);
    Decision(raw, eligible, fire, chosen.Score(), Explained(cfg, enabled, m, valid, raw, fire, chosen.Reason()))
  }

  function Chosen(raw: Direction, long: Conditions, short: Conditions): Conditions {
    if raw == Long then long else if raw == Short then short else long.Either(short)
  }

  /** The flags added to the condition bits, each by one more assignment. */
  function Explained(cfg: Config, enabled: bool, m: Memory, valid: bool, raw: Direction, fire: bool,
      conditions: bv16): bv16 {
    var r0 := if raw == Long then Or(conditions, REASON_LONG_DIRECTION)
      else if raw == Short then Or(conditions, REASON_SHORT_DIRECTION) else conditions;
    var r3 := WithFlag(WithFlag(WithFlag(r0, !valid, REASON_INVALID_FEATURE), !enabled, REASON_SYMBOL_DISABLED),
                       !cfg.strategyEnable, REASON_STRATEGY_DISABLED);
    var r5 := WithFlag(WithFlag(r3, !cfg.longEnable && raw == Long, REASON_LONG_DISABLED),
                       !cfg.shortEnable && raw == Short, REASON_SHORT_DISABLED);
    WithFlag(WithFlag(r5, raw != NoDirection && m.cooldown != 0 && !fire, REASON_COOLDOWN_ACTIVE),
             raw != NoDirection && !fire, REASON_SUPPRESSED)
  }

  /** `if (b) reason = reason | mask`. */
  function WithFlag(r: bv16, b: bool, mask: bv16): bv16 {
    if b then Or(r, mask) else r
  }

  // ---- The registers ----

  datatype Signals = Signals(memories: seq<Memory>, valid: bool, record: Signal)

  datatype SignalIn = SignalIn(featureValid: bool, feature: Feature, cfg: Config, resetValid: bool, resetSymbol: nat,
    ready: bool)
  {
    predicate Configured(n: nat) {
      |cfg.symbolEnable| == n
    }
  }

  const NoSignal := Signal(0, 0, NoDirection, 0, 0)

  function ResetSignals(n: nat): Signals {
    Signals(seq(n, _ => Disarmed), false, NoSignal)
  }

  predicate SlotResetReady(s: Signals, i: SignalIn) {
    !s.valid || i.ready
  }

  predicate FeatureReady(s: Signals, i: SignalIn) {
    !i.resetValid && (!s.valid || i.ready)
  }

  predicate ResetsSlot(s: Signals, i: SignalIn) {
    i.resetValid && SlotResetReady(s, i) && i.resetSymbol < |s.memories|
  }

  function MemoryOf(s: Signals, symbol: nat): Memory {
    if symbol < |s.memories| then s.memories[symbol] else Disarmed
  }

  function EnabledIn(cfg: Config, symbol: nat): bool {
    symbol < |cfg.symbolEnable| && cfg.symbolEnable[symbol]
  }

  function Rearmed(cfg: Config, enabled: bool, m: Memory, d: Decision): Memory {
    Memory(
      if !cfg.strategyEnable || !enabled || (d.raw == Long && !cfg.longEnable) || (d.raw == Short && !cfg.shortEnable)
        then NoDirection else d.raw,
      if d.fire then d.eligible else m.lastEmitted,
      if d.fire then cfg.cooldown else if m.cooldown != 0 then m.cooldown - 1 else m.cooldown)
  }

  function RecordOf(f: Feature, d: Decision): Signal {
    Signal(f.symbol, f.sequence, if d.fire then d.eligible else NoDirection, d.score, d.reason)
  }

  /** One clock edge. */
  function SignalTick(s: Signals, i: SignalIn): Signals {
    if ResetsSlot(s, i) then s.(memories := s.memories[i.resetSymbol := Disarmed], valid := false)
    else if i.featureValid && FeatureReady(s, i) then
      var symbol := i.feature.symbol;
      var m, enabled := MemoryOf(s, symbol), EnabledIn(i.cfg, symbol);
      var d := Decide(i.cfg, enabled, m, i.feature);
      Signals(if symbol < |s.memories| then s.memories[symbol := Rearmed(i.cfg, enabled, m, d)] else s.memories,
              true, RecordOf(i.feature, d))
    else s.(valid := s.valid && !i.ready)
  }

  class SignalRegisters {
    const numSymbols: nat
    var previousCondition: seq<Direction>
    var lastEmittedAction: seq<Direction>
    var cooldownRemaining: seq<nat>
    var signalValid: bool
    var record: Signal

    ghost predicate Valid()
      reads this
    {
      |previousCondition| == |lastEmittedAction| == |cooldownRemaining| == numSymbols
    }

    ghost function View(): Signals
      requires Valid()
      reads this
    {
      Signals(seq(numSymbols, k requires 0 <= k < numSymbols && Valid() reads this =>
                Memory(previousCondition[k], lastEmittedAction[k], cooldownRemaining[k])),
              signalValid, record)
    }

    constructor (numSymbols: nat)
      ensures Valid() && View() == ResetSignals(numSymbols)
    {
      this.numSymbols := numSymbols;
      previousCondition, lastEmittedAction := seq(numSymbols, _ => NoDirection), seq(numSymbols, _ => NoDirection);
      cooldownRemaining := seq(numSymbols, _ => 0);
      signalValid, record := false, NoSignal;
    }

    method Tick(i: SignalIn)
      requires Valid()
      modifies this
      ensures Valid() && View() == SignalTick(old(View()), i)
    {
      hide Decide;
      var ready, symbol := !signalValid || i.ready, i.feature.symbol;
      if i.resetValid && ready && i.resetSymbol < numSymbols {
        previousCondition := previousCondition[i.resetSymbol := NoDirection];
        lastEmittedAction := lastEmittedAction[i.resetSymbol := NoDirection];
        cooldownRemaining := cooldownRemaining[i.resetSymbol := 0];
        signalValid := false;
        return;
      }
      var take := i.featureValid && !i.resetValid && ready;
      if signalValid && i.ready { signalValid := false; }
      if take {
        var m := if symbol < numSymbols
          then Memory(previousCondition[symbol], lastEmittedAction[symbol], cooldownRemaining[symbol]) else Disarmed;
        var enabled := EnabledIn(i.cfg, symbol);
        var d := Decide(i.cfg, enabled, m, i.feature);
        record, signalValid := RecordOf(i.feature, d), true;
        if symbol < numSymbols { StoreMemory(symbol, Rearmed(i.cfg, enabled, m, d)); }
      }
    }

    method StoreMemory(symbol: nat, m: Memory)
      requires Valid() && symbol < numSymbols
      modifies this`previousCondition, this`lastEmittedAction, this`cooldownRemaining
      ensures Valid() && View() == old(View()).(memories := old(View()).memories[symbol := m])
    {
      previousCondition := previousCondition[symbol := m.previous];
      lastEmittedAction := lastEmittedAction[symbol := m.lastEmitted];
      cooldownRemaining := cooldownRemaining[symbol := m.cooldown];
    }
  }

  // ---- The hardware decision is the model's ----

  // Or-ing in a flag that may be zero is a conditional assignment.
  lemma {:induction false} FlagsAreAssignments()
    ensures forall r, b, mask {:trigger WithFlag(r, b, mask)} {:trigger Or(r, Flag(b, mask))} ::
      WithFlag(r, b, mask) == Or(r, Flag(b, mask))
    ensures forall b, mask {:trigger WithFlag(0, b, mask)} :: WithFlag(0, b, mask) == Flag(b, mask)
  {
  }

  lemma {:induction false} ConditionsAreModelPasses(c: Conditions, ps: seq<bool>)
    requires ps == [c.momentum, c.delta, c.imbalance, c.spread, c.volume]
    ensures c.All() == (false !in ps) && c.Score() == CountTrue(ps) && c.Reason() == PassBits(ps)
  {
    ConditionBits(c, ps);
    hide PassBits, Conditions.Reason;
    CountOfFive(ps);
  }

  lemma {:induction false} ConditionBits(c: Conditions, ps: seq<bool>)
    requires ps == [c.momentum, c.delta, c.imbalance, c.spread, c.volume]
    ensures c.Reason() == PassBits(ps)
  {
    FlagsAreAssignments();
    hide Flag, Or, WithFlag;
  }

  lemma {:induction false} FlagsAreModelFlags(cfg: Config, enabled: bool, m: Memory, f: Feature, fire: bool)
    ensures Explained(cfg, enabled, m, FeatureSetValid(f), RawDirection(cfg, f), fire, PassBits(Passes(cfg, f)))
         == ReasonBits(cfg, enabled, m, f, fire)
  {
    hide RawDirection, FeatureSetValid, Passes, PassBits, Flag, Or, WithFlag;
    FlagsAreAssignments();
    var raw, p := RawDirection(cfg, f), PassBits(Passes(cfg, f));
    assert WithFlag(WithFlag(p, raw == Long, REASON_LONG_DIRECTION), raw == Short, REASON_SHORT_DIRECTION) ==
      if raw == Long then Or(p, REASON_LONG_DIRECTION) else if raw == Short then Or(p, REASON_SHORT_DIRECTION)
        else p by {
      OneDirection(p, raw);
    }
  }

  lemma {:induction false} OneDirection(p: bv16, raw: Direction)
    ensures WithFlag(WithFlag(p, raw == Long, REASON_LONG_DIRECTION), raw == Short, REASON_SHORT_DIRECTION) ==
      if raw == Long then Or(p, REASON_LONG_DIRECTION) else if raw == Short then Or(p, REASON_SHORT_DIRECTION) else p
  {
    hide Or;
  }

  lemma {:induction false} DirectionsAreModelled(cfg: Config, enabled: bool, m: Memory, f: Feature)
    ensures
      var d := Decide(cfg, enabled, m, f);
      && d.raw == RawDirection(cfg, f) && d.eligible == Eligible(cfg, enabled, f)
      && d.fire == Fires(cfg.cooldown, m, d.raw, d.eligible)
  {
    hide CountTrue, PassBits, Conditions.Score, Conditions.Reason, Conditions.All, Explained;
    ConditionsAreModelPasses(LongConditions(cfg, f), LongPass(cfg, f));
    ConditionsAreModelPasses(ShortConditions(cfg, f), ShortPass(cfg, f));
    hide LongConditions, ShortConditions, LongPass, ShortPass, EitherPass, Conditions.Either;
  }

  lemma {:induction false} ChosenArePasses(cfg: Config, f: Feature)
    ensures
      var c := Chosen(RawDirection(cfg, f), LongConditions(cfg, f), ShortConditions(cfg, f));
      Passes(cfg, f) == [c.momentum, c.delta, c.imbalance, c.spread, c.volume]
  {
    hide RawDirection;
  }

  lemma {:induction false} ExplanationsAreModelled(cfg: Config, enabled: bool, m: Memory, f: Feature)
    ensures
      var d := Decide(cfg, enabled, m, f);
      && d.score == CountTrue(Passes(cfg, f))
      && d.reason == Explained(cfg, enabled, m, FeatureSetValid(f), d.raw, d.fire, PassBits(Passes(cfg, f)))
  {
    hide CountTrue, PassBits, Conditions.Score, Conditions.Reason, Conditions.All, Explained, Eligible, Fires,
      LongConditions, ShortConditions, Passes, RawDirection, Chosen;
    DirectionsAreModelled(cfg, enabled, m, f);
    ChosenArePasses(cfg, f);
    ConditionsAreModelPasses(Chosen(RawDirection(cfg, f), LongConditions(cfg, f), ShortConditions(cfg, f)),
      Passes(cfg, f));
  }

  /** For every configuration, memory and feature the hardware's record and next memory are the model's. */
  lemma {:induction false} DecisionIsModelled(cfg: Config, enabled: bool, m: Memory, f: Feature)
    ensures
      var d := Decide(cfg, enabled, m, f);
      var e := EvaluateSymbol(cfg, enabled, m, f);
      RecordOf(f, d) == e.signal && Rearmed(cfg, enabled, m, d) == e.memory
  {
    hide CountTrue, PassBits, ReasonBits, Decide, Explained, RawDirection, Eligible, Passes, FeatureSetValid, Fires;
    DirectionsAreModelled(cfg, enabled, m, f);
    ExplanationsAreModelled(cfg, enabled, m, f);
    FlagsAreModelFlags(cfg, enabled, m, f, Decide(cfg, enabled, m, f).fire);
  }

  // ---- Whole runs ----

  datatype Op = Take(cfg: Config, feature: Feature) | Clear(symbol: nat)

  datatype Trace = Trace(memories: seq<Memory>, signals: seq<Signal>)

  /** The model run over the operations taken; a symbol it does not have is evaluated as a disabled one. */
  function Replay(n: nat, ops: seq<Op>): (r: Trace)
    ensures |r.memories| == n
  {
    if ops == [] then Trace(seq(n, _ => Disarmed), [])
    else
      var before := Replay(n, ops[..|ops| - 1]);
      match ops[|ops| - 1]
      case Clear(symbol) => before.(memories := if symbol < n then before.memories[symbol := Disarmed]
        else before.memories)
      case Take(cfg, f) =>
        if |cfg.symbolEnable| != n || f.symbol >= n then
          before.(signals := before.signals + [EvaluateSymbol(cfg, false, Disarmed, f).signal])
        else
          var r := EvaluateModel(cfg, before.memories, f);
          Trace(r.memories, before.signals + [r.answer.signal])
  }

  datatype Ports = Ports(taken: seq<Op>, delivered: seq<Signal>)

  /** The handshakes an edge completes: a slot reset or a feature taken, and a record the consumer accepts. */
  function NextPorts(s: Signals, i: SignalIn, p: Ports): Ports {
    Ports(p.taken + (if ResetsSlot(s, i) then [Clear(i.resetSymbol)]
                     else if i.featureValid && FeatureReady(s, i) then [Take(i.cfg, i.feature)] else []),
          p.delivered + if s.valid && i.ready then [s.record] else [])
  }

  predicate Tracks(n: nat, s: Signals, p: Ports) {
    var r := Replay(n, p.taken);
    s.memories == r.memories && r.signals == p.delivered + if s.valid then [s.record] else []
  }

  lemma {:induction false} TakeTracks(n: nat, s: Signals, i: SignalIn, p: Ports)
    requires Tracks(n, s, p) && i.Configured(n) && !ResetsSlot(s, i) && i.featureValid && FeatureReady(s, i)
    ensures Tracks(n, SignalTick(s, i), NextPorts(s, i, p))
  {
    hide Decide, EvaluateSymbol, Rearmed, RecordOf;
    var symbol := i.feature.symbol;
    DecisionIsModelled(i.cfg, EnabledIn(i.cfg, symbol), MemoryOf(s, symbol), i.feature);
    assert (p.taken + [Take(i.cfg, i.feature)])[..|p.taken|] == p.taken;
  }

  lemma {:induction false} TickTracks(n: nat, s: Signals, i: SignalIn, p: Ports)
    requires Tracks(n, s, p) && i.Configured(n)
    ensures Tracks(n, SignalTick(s, i), NextPorts(s, i, p))
  {
    hide Decide, EvaluateSymbol;
    if ResetsSlot(s, i) {
      assert (p.taken + [Clear(i.resetSymbol)])[..|p.taken|] == p.taken;
    } else if i.featureValid && FeatureReady(s, i) {
      TakeTracks(n, s, i, p);
    } else {
      assert p.taken + [] == p.taken;
    }
  }

  datatype Machine = Machine(signals: Signals, ports: Ports)

  function RunSignals(m: Machine, ins: seq<SignalIn>): Machine
    decreases |ins|
  {
    if ins == [] then m
      else RunSignals(Machine(SignalTick(m.signals, ins[0]), NextPorts(m.signals, ins[0], m.ports)), ins[1..])
  }

  lemma {:induction false} RunTracks(n: nat, m: Machine, ins: seq<SignalIn>)
    requires Tracks(n, m.signals, m.ports) && forall k :: 0 <= k < |ins| ==> ins[k].Configured(n)
    ensures var r := RunSignals(m, ins); Tracks(n, r.signals, r.ports)
    decreases |ins|
  {
    hide Tracks, SignalTick, NextPorts, SignalIn.Configured;
    if ins != [] {
      TickTracks(n, m.signals, ins[0], m.ports);
      RunTracks(n, Machine(SignalTick(m.signals, ins[0]), NextPorts(m.signals, ins[0], m.ports)), ins[1..]);
    }
  }

  /**
    Under any pattern of features, stalls, configuration changes and slot resets, the records delivered and the
    one still held are exactly the model's evaluations of the features accepted, in order and once each.
   */
  lemma {:induction false} DeliveredAreEvaluations(n: nat, ins: seq<SignalIn>)
    requires forall k :: 0 <= k < |ins| ==> ins[k].Configured(n)
    ensures
      var r := RunSignals(Machine(ResetSignals(n), Ports([], [])), ins);
      && Replay(n, r.ports.taken).signals == r.ports.delivered + (if r.signals.valid then [r.signals.record] else [])
      && r.signals.memories == Replay(n, r.ports.taken).memories
  {
    hide SignalIn.Configured;
    RunTracks(n, Machine(ResetSignals(n), Ports([], [])), ins);
  }

  /** The evaluations of one symbol since it was last cleared. */
  function InputsOf(n: nat, ops: seq<Op>, symbol: nat): seq<Input> {
    if ops == [] then []
    else
      var before := InputsOf(n, ops[..|ops| - 1], symbol);
      match ops[|ops| - 1]
      case Clear(x) => if x == symbol then [] else before
      case Take(cfg, f) =>
        if |cfg.symbolEnable| == n && f.symbol == symbol < n then before + [Input(cfg, cfg.symbolEnable[symbol], f)]
          else before
  }

  /**
    Symbols do not disturb one another: a symbol's memory and its latest action are those of its own evaluations
    since it was last cleared, so what holds of one symbol's run holds of it inside every interleaving.
   */
  lemma {:induction false} SymbolsAreIndependent(n: nat, ops: seq<Op>, symbol: nat)
    requires symbol < n
    ensures Replay(n, ops).memories[symbol] == MemoryAfter(Disarmed, InputsOf(n, ops, symbol))
    ensures
      ops != [] && ops[|ops| - 1].Take?
      && ops[|ops| - 1].feature.symbol == symbol && |ops[|ops| - 1].cfg.symbolEnable| == n ==>
        var mine, signals := InputsOf(n, ops, symbol), Replay(n, ops).signals;
        mine != [] && signals != [] && signals[|signals| - 1].action == ActionAt(Disarmed, mine, |mine| - 1)
  {
    hide EvaluateSymbol;
    if ops != [] {
      var before := ops[..|ops| - 1];
      SymbolsAreIndependent(n, before, symbol);
      var mine := InputsOf(n, ops, symbol);
      if mine != [] { assert mine[..|mine| - 1] + [mine[|mine| - 1]] == mine; }
    }
  }
}
