// The integer reference model of the candidate-signal decision.
module StrategyModel {
  import opened MarketTypes

  datatype Direction = NoDirection | Long | Short

  const REASON_MOMENTUM_PASS: bv16 := 0x0001
  const REASON_VWAP_DELTA_PASS: bv16 := 0x0002
  const REASON_IMBALANCE_PASS: bv16 := 0x0004
  const REASON_SPREAD_PASS: bv16 := 0x0008
  const REASON_VOLUME_PASS: bv16 := 0x0010
  const REASON_LONG_DIRECTION: bv16 := 0x0020
  const REASON_SHORT_DIRECTION: bv16 := 0x0040
  const REASON_COOLDOWN_ACTIVE: bv16 := 0x0080
  const REASON_INVALID_FEATURE: bv16 := 0x0100
  const REASON_SYMBOL_DISABLED: bv16 := 0x0200
  const REASON_STRATEGY_DISABLED: bv16 := 0x0400
  const REASON_LONG_DISABLED: bv16 := 0x0800
  const REASON_SHORT_DISABLED: bv16 := 0x1000
  const REASON_SUPPRESSED: bv16 := 0x2000

  datatype Config = Config(
    strategyEnable: bool, longEnable: bool, shortEnable: bool, longMinMomentum: int, shortMaxMomentum: int,
    longMinDelta: int, shortMaxDelta: int, longMinImbalance: int, shortMaxImbalance: int, maxSpread: int,
    minVolume: nat, cooldown: nat, symbolEnable: seq<bool>)

  /** What one symbol remembers between evaluations. */
  datatype Memory = Memory(previous: Direction, lastEmitted: Direction, cooldown: nat)

  const Disarmed := Memory(NoDirection, NoDirection, 0)

  datatype Signal = Signal(symbol: nat, sequence: nat, action: Direction, score: nat, reason: bv16)

  datatype Evaluation = Evaluation(memory: Memory, signal: Signal, valid: bool, raw: Direction, fired: bool)

  datatype Answer = OutsideModel | Answered(signal: Signal)

  datatype Step = Step(memories: seq<Memory>, answer: Answer)

  function FeatureSetValid(f: Feature): bool {
    f.norm.spreadBpsValid && f.norm.momentumBpsValid && f.norm.imbalanceValid && f.norm.vwapValid
      && f.norm.deltaBpsValid
  }

  function LongPass(cfg: Config, f: Feature): seq<bool> {
    [f.norm.momentumBpsValid && f.norm.momentumBps >= cfg.longMinMomentum,
     f.norm.deltaBpsValid && f.norm.deltaBps >= cfg.longMinDelta,
     f.norm.imbalanceValid && f.norm.imbalance >= cfg.longMinImbalance,
     f.norm.spreadBpsValid && f.norm.spreadBps <= cfg.maxSpread,
     f.rollingVolume >= cfg.minVolume]
  }

  function ShortPass(cfg: Config, f: Feature): seq<bool> {
    [f.norm.momentumBpsValid && f.norm.momentumBps <= cfg.shortMaxMomentum,
     f.norm.deltaBpsValid && f.norm.deltaBps <= cfg.shortMaxDelta,
     f.norm.imbalanceValid && f.norm.imbalance <= cfg.shortMaxImbalance,
     f.norm.spreadBpsValid && f.norm.spreadBps <= cfg.maxSpread,
     f.rollingVolume >= cfg.minVolume]
  }

  function EitherPass(a: seq<bool>, b: seq<bool>): seq<bool>
    requires |a| == |b|
  {
    seq(|a|, i requires 0 <= i < |a| => a[i] || b[i])
  }

  function CountTrue(ps: seq<bool>): nat {
    if ps == [] then 0 else CountTrue(ps[..|ps| - 1]) + One(ps[|ps| - 1])
  }

  function One(b: bool): nat {
    if b then 1 else 0
  }

  lemma {:induction false} CountOfFive(ps: seq<bool>)
    requires |ps| == 5
    ensures CountTrue(ps) == One(ps[0]) + One(ps[1]) + One(ps[2]) + One(ps[3]) + One(ps[4])
  {
    assert ps[..5] == ps;
    CountOfNext(ps, 0);
    CountOfNext(ps, 1);
    CountOfNext(ps, 2);
    CountOfNext(ps, 3);
    CountOfNext(ps, 4);
  }

  lemma {:induction false} CountOfNext(ps: seq<bool>, k: nat)
    requires k < |ps|
    ensures CountTrue(ps[..k + 1]) == CountTrue(ps[..k]) + One(ps[k])
  {
    assert ps[..k + 1][..k] == ps[..k];
  }

  function RawDirection(cfg: Config, f: Feature): Direction {
    if false !in LongPass(cfg, f) then Long
    else if false !in ShortPass(cfg, f) then Short
    else NoDirection
  }

  function SideEnabled(cfg: Config, d: Direction): bool {
    (d == Long ==> cfg.longEnable) && (d == Short ==> cfg.shortEnable)
  }

  function Eligible(cfg: Config, enabled: bool, f: Feature): Direction {
    var raw := RawDirection(cfg, f);
    if FeatureSetValid(f) && enabled && cfg.strategyEnable && SideEnabled(cfg, raw) then raw else NoDirection
  }

  /** A candidate fires on a fresh edge outside the cooldown, or repeats as the cooldown runs out. */
  function Fires(cooldown: nat, m: Memory, raw: Direction, eligible: Direction): bool {
    var edge := raw != NoDirection && raw != m.previous;
    var repeat := cooldown != 0 && m.cooldown == 1 && raw == m.lastEmitted;
    eligible != NoDirection && ((edge && m.cooldown == 0) || (eligible == m.lastEmitted && repeat))
  }

  /** The conditions the decision reports: those of the chosen side, or of either when there is none. */
  function Passes(cfg: Config, f: Feature): (ps: seq<bool>)
    ensures |ps| == 5
  {
    match RawDirection(cfg, f)
    case Long => LongPass(cfg, f)
    case Short => ShortPass(cfg, f)
    case NoDirection => EitherPass(LongPass(cfg, f), ShortPass(cfg, f))
  }

  function Flag(b: bool, mask: bv16): bv16 {
    if b then mask else 0
  }

  function Or(a: bv16, b: bv16): bv16 {
    a | b
  }

  function PassBits(ps: seq<bool>): bv16
    requires |ps| == 5
  {
    var p :=
      Or(Or(Flag(ps[0], REASON_MOMENTUM_PASS), Flag(ps[1], REASON_VWAP_DELTA_PASS)),
        Flag(ps[2], REASON_IMBALANCE_PASS));
    Or(Or(p, Flag(ps[3], REASON_SPREAD_PASS)), Flag(ps[4], REASON_VOLUME_PASS))
  }

  function ReasonBits(cfg: Config, enabled: bool, m: Memory, f: Feature, fired: bool): bv16 {
    var raw := RawDirection(cfg, f);
    var direction :=
      Or(Or(PassBits(Passes(cfg, f)), Flag(raw == Long, REASON_LONG_DIRECTION)),
        Flag(raw == Short, REASON_SHORT_DIRECTION));
    var validity :=
      Or(Or(Or(direction, Flag(!FeatureSetValid(f), REASON_INVALID_FEATURE)), Flag(!enabled, REASON_SYMBOL_DISABLED)),
                       Flag(!cfg.strategyEnable, REASON_STRATEGY_DISABLED));
    var sides := Or(Or(validity, Flag(!cfg.longEnable && raw == Long, REASON_LONG_DISABLED)),
                    Flag(!cfg.shortEnable && raw == Short, REASON_SHORT_DISABLED));
    Or(Or(sides, Flag(raw != NoDirection && m.cooldown != 0 && !fired, REASON_COOLDOWN_ACTIVE)),
       Flag(raw != NoDirection && !fired, REASON_SUPPRESSED))
  }

  /** One evaluation of one symbol. */
  function EvaluateSymbol(cfg: Config, enabled: bool, m: Memory, f: Feature): Evaluation {
    var raw, eligible := RawDirection(cfg, f), Eligible(cfg, enabled, f);
    var fired := Fires(cfg.cooldown, m, raw, eligible);
    Evaluation(
      Memory(
        if !cfg.strategyEnable || !enabled || !SideEnabled(cfg, raw) then NoDirection else raw,
        if fired then eligible else m.lastEmitted,
        if fired then cfg.cooldown else if m.cooldown != 0 then m.cooldown - 1 else 0),
      Signal(f.symbol, f.sequence, if fired then eligible else NoDirection, CountTrue(Passes(cfg, f)),
             ReasonBits(cfg, enabled, m, f, fired)),
      FeatureSetValid(f), raw, fired)
  }

  /** `StrategyModel.evaluate`. */
  function EvaluateModel(cfg: Config, memories: seq<Memory>, f: Feature): Step
    requires |cfg.symbolEnable| == |memories|
  {
    if f.symbol >= |memories| then Step(memories, OutsideModel)
    else
      var e := EvaluateSymbol(cfg, cfg.symbolEnable[f.symbol], memories[f.symbol], f);
      Step(memories[f.symbol := e.memory], Answered(e.signal))
  }

  datatype Metrics = Metrics(evaluated: nat, noAction: nat, longs: nat, shorts: nat, invalid: nat, suppressed: nat)

  function Counted(n: Metrics, action: Direction, valid: bool, raw: Direction, fired: bool): Metrics {
    n.(evaluated := n.evaluated + 1,
       noAction := n.noAction + if action == NoDirection then 1 else 0,
       longs := n.longs + if action == Long then 1 else 0,
       shorts := n.shorts + if action == Short then 1 else 0,
       invalid := n.invalid + if !valid then 1 else 0,
       suppressed := n.suppressed + if raw != NoDirection && !fired then 1 else 0)
  }

  function CountedEvaluation(n: Metrics, e: Evaluation): Metrics {
    Counted(n, e.signal.action, e.valid, e.raw, e.fired)
  }

  class Strategy {
    const numSymbols: nat
    var config: Config
    var previousCondition: seq<Direction>
    var lastEmittedAction: seq<Direction>
    var cooldownRemaining: seq<nat>
    var metrics: Metrics

    ghost predicate Valid()
      reads this
    {
      && |config.symbolEnable| == |previousCondition| == |lastEmittedAction| == |cooldownRemaining| == numSymbols
      && metrics.evaluated == metrics.noAction + metrics.longs + metrics.shorts
    }

    ghost function View(): (ms: seq<Memory>)
      requires Valid()
      reads this
    {
      seq(numSymbols, i requires 0 <= i < numSymbols && Valid() reads this =>
        Memory(previousCondition[i], lastEmittedAction[i], cooldownRemaining[i]))
    }

    constructor (config: Config)
      ensures Valid() && this.config == config && View() == seq(|config.symbolEnable|, _ => Disarmed)
    {
      numSymbols := |config.symbolEnable|;
      this.config := config;
      previousCondition := seq(|config.symbolEnable|, _ => NoDirection);
      lastEmittedAction := seq(|config.symbolEnable|, _ => NoDirection);
      cooldownRemaining := seq(|config.symbolEnable|, _ => 0);
      metrics := Metrics(0, 0, 0, 0, 0, 0);
    }

    method Evaluate(f: Feature) returns (r: Answer)
      requires Valid()
      modifies this
      ensures Valid() && config == old(config) && Step(View(), r) == EvaluateModel(config, old(View()), f)
      ensures metrics == if r.OutsideModel? then old(metrics)
        else CountedEvaluation(old(metrics),
          EvaluateSymbol(config, config.symbolEnable[f.symbol], old(View())[f.symbol], f))
    {
      hide CountTrue, ReasonBits, Passes, RawDirection, Eligible, FeatureSetValid, Fires;
      var s := f.symbol;
      if s >= numSymbols { return OutsideModel; }
      var m := Memory(previousCondition[s], lastEmittedAction[s], cooldownRemaining[s]);
      var enabled := config.symbolEnable[s];
      var raw, eligible := RawDirection(config, f), Eligible(config, enabled, f);
      var fired := Fires(config.cooldown, m, raw, eligible);
      var reason, score := ReasonBits(config, enabled, m, f, fired), CountTrue(Passes(config, f));
      var action := if fired then eligible else NoDirection;
      Remember(s, if !config.strategyEnable || !enabled || !SideEnabled(config, raw) then NoDirection else raw,
               fired, eligible);
      Count(action, FeatureSetValid(f), raw, fired);
      r := Answered(Signal(s, f.sequence, action, score, reason));
    }

    method Remember(s: nat, previous: Direction, fired: bool, eligible: Direction)
      requires Valid() && s < numSymbols
      modifies this`previousCondition, this`lastEmittedAction, this`cooldownRemaining
      ensures Valid()
      ensures
        var m := old(View())[s];
        View() == old(View())[s := Memory(previous,
          if fired then eligible else m.lastEmitted,
          if fired then config.cooldown else if m.cooldown != 0 then m.cooldown - 1 else 0)]
    {
      previousCondition := previousCondition[s := previous];
      if fired {
        lastEmittedAction := lastEmittedAction[s := eligible];
        cooldownRemaining := cooldownRemaining[s := config.cooldown];
      } else if cooldownRemaining[s] != 0 {
        cooldownRemaining := cooldownRemaining[s := cooldownRemaining[s] - 1];
      }
    }

    method Count(action: Direction, valid: bool, raw: Direction, fired: bool)
      requires Valid()
      modifies this`metrics
      ensures Valid() && View() == old(View())
      ensures metrics == Counted(old(metrics), action, valid, raw, fired)
    {
      metrics := metrics.(evaluated := metrics.evaluated + 1);
      if action == Long {
        metrics := metrics.(longs := metrics.longs + 1);
      } else if action == Short {
        metrics := metrics.(shorts := metrics.shorts + 1);
      } else {
        metrics := metrics.(noAction := metrics.noAction + 1);
      }
      if !valid { metrics := metrics.(invalid := metrics.invalid + 1); }
      if raw != NoDirection && !fired { metrics := metrics.(suppressed := metrics.suppressed + 1); }
    }

    /** Every symbol is disarmed; the configuration and the counters stay. */
    method ResetState()
      requires Valid()
      modifies this`previousCondition, this`lastEmittedAction, this`cooldownRemaining
      ensures Valid() && View() == seq(numSymbols, _ => Disarmed)
    {
      previousCondition := seq(numSymbols, _ => NoDirection);
      lastEmittedAction := seq(numSymbols, _ => NoDirection);
      cooldownRemaining := seq(numSymbols, _ => 0);
    }

    method ResetSymbol(s: nat) returns (ok: bool)
      requires Valid()
      modifies this
      ensures Valid() && config == old(config) && metrics == old(metrics) && ok == (s < numSymbols)
      ensures View() == if ok then old(View())[s := Disarmed] else old(View())
    {
      ok := s < numSymbols;
      if ok {
        previousCondition := previousCondition[s := NoDirection];
        lastEmittedAction := lastEmittedAction[s := NoDirection];
        cooldownRemaining := cooldownRemaining[s := 0];
      }
    }
  }
}
