// When candidates fire: spacing, repetition and suppression over whole runs of evaluations.
module StrategyRules {
  import opened Bits
  import opened MarketTypes
  import opened StrategyModel

  // ---- The score is the number of condition bits ----

  function SetBits(x: bv16, width: nat): nat {
    if width == 0 then 0 else SetBits(x >> 1, width - 1) + if x & 1 == 1 then 1 else 0
  }

  lemma {:induction false} PassBitsAre(ps: seq<bool>)
    requires |ps| == 5
    ensures
      var x := PassBits(ps);
      && (x & 1 == 1 <==> ps[0]) && ((x >> 1) & 1 == 1 <==> ps[1]) && ((x >> 1 >> 1) & 1 == 1 <==> ps[2])
      && ((x >> 1 >> 1 >> 1) & 1 == 1 <==> ps[3]) && ((x >> 1 >> 1 >> 1 >> 1) & 1 == 1 <==> ps[4])
  {
  }

  lemma {:induction false} PassBitsCount(ps: seq<bool>)
    requires |ps| == 5
    ensures SetBits(PassBits(ps), 5) == CountTrue(ps)
  {
    PassBitsAre(ps);
    hide PassBits;
    var x := PassBits(ps);
    var x1, x2, x3, x4 := x >> 1, x >> 1 >> 1, x >> 1 >> 1 >> 1, x >> 1 >> 1 >> 1 >> 1;
    assert SetBits(x4, 1) == SetBits(x4 >> 1, 0) + if ps[4] then 1 else 0;
    assert SetBits(x3, 2) == SetBits(x4, 1) + if ps[3] then 1 else 0;
    assert SetBits(x2, 3) == SetBits(x3, 2) + if ps[2] then 1 else 0;
    assert SetBits(x1, 4) == SetBits(x2, 3) + if ps[1] then 1 else 0;
    assert SetBits(x, 5) == SetBits(x1, 4) + if ps[0] then 1 else 0;
    CountOfFive(ps);
  }

  lemma {:induction false} LowBitsArePassBits(cfg: Config, enabled: bool, m: Memory, f: Feature, fired: bool)
    ensures ReasonBits(cfg, enabled, m, f, fired) & 0x1F == PassBits(Passes(cfg, f))
  {
    hide RawDirection, FeatureSetValid, Passes;
  }

  /** In every record the score is the number of set bits among the low five reason bits. */
  lemma {:induction false} ScoreCountsReasonBits(cfg: Config, enabled: bool, m: Memory, f: Feature)
    ensures
      var signal := EvaluateSymbol(cfg, enabled, m, f).signal;
      signal.score == SetBits(signal.reason & 0x1F, 5)
  {
    hide RawDirection, FeatureSetValid, ReasonBits, PassBits, SetBits, CountTrue;
    LowBitsArePassBits(cfg, enabled, m, f, EvaluateSymbol(cfg, enabled, m, f).fired);
    PassBitsCount(Passes(cfg, f));
  }

  // ---- What the other reason bits say ----

  predicate Has(x: bv16, mask: bv16) {
    x & mask != 0
  }

  lemma {:induction false} HasOr(x: bv16, b: bool, mask: bv16, bit: bv16)
    ensures Has(Or(x, Flag(b, mask)), bit) <==> Has(x, bit) || (b && Has(mask, bit))
  {
    hide Has, Or;
    OrBits(x, Flag(b, mask), bit);
    NoBits(bit);
  }

  lemma {:induction false} OrBits(x: bv16, mask: bv16, bit: bv16)
    ensures Has(Or(x, mask), bit) <==> Has(x, bit) || Has(mask, bit)
  {
    assert (x | mask) & bit == (x & bit) | (mask & bit);
  }

  lemma {:induction false} NoBits(bit: bv16)
    ensures !Has(0, bit)
  {
  }

  lemma {:induction false} OnlyPassBits(ps: seq<bool>, bit: bv16)
    requires |ps| == 5 && bit & 0x1F == 0
    ensures !Has(PassBits(ps), bit)
  {
    hide Has, PassBits;
    PassBitsLow(ps);
    NothingAbove(PassBits(ps), bit);
  }

  lemma {:induction false} PassBitsLow(ps: seq<bool>)
    requires |ps| == 5
    ensures PassBits(ps) & 0x1F == PassBits(ps)
  {
  }

  lemma {:induction false} NothingAbove(x: bv16, bit: bv16)
    requires x & 0x1F == x && bit & 0x1F == 0
    ensures !Has(x, bit)
  {
  }

  lemma {:induction false} ReasonBit(cfg: Config, enabled: bool, m: Memory, f: Feature, fired: bool, bit: bv16)
    requires bit & 0x1F == 0
    ensures
      var raw := RawDirection(cfg, f);
      Has(ReasonBits(cfg, enabled, m, f, fired), bit) <==>
        || (raw == Long && Has(REASON_LONG_DIRECTION, bit)) || (raw == Short && Has(REASON_SHORT_DIRECTION, bit))
        || (!FeatureSetValid(f) && Has(REASON_INVALID_FEATURE, bit)) || (!enabled && Has(REASON_SYMBOL_DISABLED, bit))
        || (!cfg.strategyEnable && Has(REASON_STRATEGY_DISABLED, bit))
        || (!cfg.longEnable && raw == Long && Has(REASON_LONG_DISABLED, bit))
        || (!cfg.shortEnable && raw == Short && Has(REASON_SHORT_DISABLED, bit))
        || (raw != NoDirection && m.cooldown != 0 && !fired && Has(REASON_COOLDOWN_ACTIVE, bit))
        || (raw != NoDirection && !fired && Has(REASON_SUPPRESSED, bit))
  {
    hide RawDirection, FeatureSetValid, Passes, PassBits, Has, Or, Flag;
    var raw := RawDirection(cfg, f);
    var x1 := PassBits(Passes(cfg, f));
    OnlyPassBits(Passes(cfg, f), bit);
    var x2 := Or(x1, Flag(raw == Long, REASON_LONG_DIRECTION));
    HasOr(x1, raw == Long, REASON_LONG_DIRECTION, bit);
    var x3 := Or(x2, Flag(raw == Short, REASON_SHORT_DIRECTION));
    HasOr(x2, raw == Short, REASON_SHORT_DIRECTION, bit);
    var x4 := Or(x3, Flag(!FeatureSetValid(f), REASON_INVALID_FEATURE));
    HasOr(x3, !FeatureSetValid(f), REASON_INVALID_FEATURE, bit);
    var x5 := Or(x4, Flag(!enabled, REASON_SYMBOL_DISABLED));
    HasOr(x4, !enabled, REASON_SYMBOL_DISABLED, bit);
    var x6 := Or(x5, Flag(!cfg.strategyEnable, REASON_STRATEGY_DISABLED));
    HasOr(x5, !cfg.strategyEnable, REASON_STRATEGY_DISABLED, bit);
    var x7 := Or(x6, Flag(!cfg.longEnable && raw == Long, REASON_LONG_DISABLED));
    HasOr(x6, !cfg.longEnable && raw == Long, REASON_LONG_DISABLED, bit);
    var x8 := Or(x7, Flag(!cfg.shortEnable && raw == Short, REASON_SHORT_DISABLED));
    HasOr(x7, !cfg.shortEnable && raw == Short, REASON_SHORT_DISABLED, bit);
    var x9 := Or(x8, Flag(raw != NoDirection && m.cooldown != 0 && !fired, REASON_COOLDOWN_ACTIVE));
    HasOr(x8, raw != NoDirection && m.cooldown != 0 && !fired, REASON_COOLDOWN_ACTIVE, bit);
    HasOr(x9, raw != NoDirection && !fired, REASON_SUPPRESSED, bit);
  }

  lemma {:induction false} BitsApart(k: nat)
    requires 5 <= k < 14
    ensures
      var bit := (1 as bv16) << k;
      && bit & 0x1F == 0
      && (Has(REASON_LONG_DIRECTION, bit) <==> k == 5) && (Has(REASON_SHORT_DIRECTION, bit) <==> k == 6)
      && (Has(REASON_COOLDOWN_ACTIVE, bit) <==> k == 7) && (Has(REASON_INVALID_FEATURE, bit) <==> k == 8)
      && (Has(REASON_SYMBOL_DISABLED, bit) <==> k == 9) && (Has(REASON_STRATEGY_DISABLED, bit) <==> k == 10)
      && (Has(REASON_LONG_DISABLED, bit) <==> k == 11) && (Has(REASON_SHORT_DISABLED, bit) <==> k == 12)
      && (Has(REASON_SUPPRESSED, bit) <==> k == 13)
  {
  }

  /**
    Bit by bit above the five conditions, what a record's reason says: bits 5 and 6 the side all of whose conditions
    hold, 7 a side held back in the cooldown, 8 a missing input, 9 to 12 what is switched off, 13 a side that did not
    fire.
   */
  lemma {:induction false} ReasonSays(cfg: Config, enabled: bool, m: Memory, f: Feature, k: nat)
    requires 5 <= k < 14
    ensures
      var e := EvaluateSymbol(cfg, enabled, m, f);
      Has(e.signal.reason, (1 as bv16) << k) <==>
        match k
        case 5 => e.raw == Long
        case 6 => e.raw == Short
        case 7 => e.raw != NoDirection && m.cooldown != 0 && !e.fired
        case 8 => !e.valid
        case 9 => !enabled
        case 10 => !cfg.strategyEnable
        case 11 => e.raw == Long && !cfg.longEnable
        case 12 => e.raw == Short && !cfg.shortEnable
        case _ => e.raw != NoDirection && !e.fired
  {
    var bit := (1 as bv16) << k;
    BitsApart(k);
    hide ReasonBits, RawDirection, FeatureSetValid, Has, Passes, CountTrue, Eligible, Fires, SideEnabled;
    ReasonBit(cfg, enabled, m, f, EvaluateSymbol(cfg, enabled, m, f).fired, bit);
  }

  // ---- One symbol's evaluations ----

  datatype Input = Input(cfg: Config, enabled: bool, feature: Feature)
  {
    function Raw(): Direction {
      RawDirection(cfg, feature)
    }

    function Wanted(): Direction {
      Eligible(cfg, enabled, feature)
    }
  }

  function MemoryAfter(m: Memory, ins: seq<Input>): Memory {
    if ins == [] then m
    else
      var i := ins[|ins| - 1];
      EvaluateSymbol(i.cfg, i.enabled, MemoryAfter(m, ins[..|ins| - 1]), i.feature).memory
  }

  /** The action of evaluation `k` of the run. */
  function ActionAt(m: Memory, ins: seq<Input>, k: nat): Direction
    requires k < |ins|
  {
    EvaluateSymbol(ins[k].cfg, ins[k].enabled, MemoryAfter(m, ins[..k]), ins[k].feature).signal.action
  }

  predicate ConstantCooldown(ins: seq<Input>, c: nat) {
    forall k :: 0 <= k < |ins| ==> ins[k].cfg.cooldown == c
  }

  // The decision in terms of the raw and eligible directions only.
  lemma {:induction false} EvaluationStep(i: Input, m: Memory)
    ensures
      var e := EvaluateSymbol(i.cfg, i.enabled, m, i.feature);
      var fired := Fires(i.cfg.cooldown, m, i.Raw(), i.Wanted());
      && (i.Wanted() != NoDirection ==> i.Wanted() == i.Raw())
      && e.signal.action == (if fired then i.Wanted() else NoDirection)
      && (fired ==> i.Wanted() != NoDirection)
      && e.memory.lastEmitted == (if fired then i.Wanted() else m.lastEmitted)
      && e.memory.cooldown == (if fired then i.cfg.cooldown else if m.cooldown > 0 then m.cooldown - 1 else 0)
      && (i.Wanted() != NoDirection ==> e.memory.previous == i.Raw())
  {
    hide RawDirection, FeatureSetValid, ReasonBits, CountTrue;
  }

  lemma {:induction false} StepAt(m: Memory, ins: seq<Input>, k: nat)
    requires k < |ins|
    ensures
      var before := MemoryAfter(m, ins[..k]);
      var after := MemoryAfter(m, ins[..k + 1]);
      after == EvaluateSymbol(ins[k].cfg, ins[k].enabled, before, ins[k].feature).memory
  {
    hide EvaluateSymbol;
    assert ins[..k + 1][..k] == ins[..k];
  }

  // After a candidate at `i` the cooldown has at least c - (k - 1 - i) left; at exactly that, the last action is
  // the one at `i`.
  lemma {:induction false} CooldownRuns(m: Memory, ins: seq<Input>, c: nat, i: nat, k: nat)
    requires c >= 1 && ConstantCooldown(ins, c) && i < k <= |ins| && ActionAt(m, ins, i) != NoDirection
    ensures
      var s := MemoryAfter(m, ins[..k]);
      && s.cooldown >= c - (k - 1 - i)
      && (s.cooldown == c - (k - 1 - i) ==> s.lastEmitted == ActionAt(m, ins, i) || s.cooldown == 0)
    decreases k
  {
    hide EvaluateSymbol, MemoryAfter;
    StepAt(m, ins, k - 1);
    EvaluationStep(ins[k - 1], MemoryAfter(m, ins[..k - 1]));
    if k - 1 > i { CooldownRuns(m, ins, c, i, k - 1); }
  }

  /**
    With a constant cooldown of at least one, two candidates of a symbol are at least that many evaluations
    apart, and opposite ones one more.
   */
  lemma {:induction false} CandidatesAreSpaced(m: Memory, ins: seq<Input>, c: nat, i: nat, j: nat)
    requires c >= 1 && ConstantCooldown(ins, c) && i < j < |ins|
    requires ActionAt(m, ins, i) != NoDirection && ActionAt(m, ins, j) != NoDirection
    ensures j - i >= c
    ensures ActionAt(m, ins, i) != ActionAt(m, ins, j) ==> j - i >= c + 1
  {
    hide MemoryAfter, EvaluateSymbol;
    CooldownRuns(m, ins, c, i, j);
    EvaluationStep(ins[j], MemoryAfter(m, ins[..j]));
  }

  predicate Sustained(ins: seq<Input>, from: nat, d: Direction) {
    forall k :: from <= k < |ins| ==> ins[k].Raw() == d && ins[k].Wanted() == d
  }

  // `r` evaluations into the `q`-th cooldown after the first fire.
  lemma {:induction false} SustainedState(m: Memory, ins: seq<Input>, c: nat, i: nat, d: Direction, q: nat, r: nat)
    requires c >= 1 && ConstantCooldown(ins, c) && i < |ins| && d != NoDirection
    requires ActionAt(m, ins, i) == d && Sustained(ins, i, d)
    requires r < c && i + q * c + r + 1 <= |ins| && q * c >= 0
    ensures
      var s := MemoryAfter(m, ins[..i + q * c + r + 1]);
      s.cooldown == c - r && s.lastEmitted == d && s.previous == d
    decreases q, r
  {
    hide EvaluateSymbol, MemoryAfter, Input.Raw, Input.Wanted;
    var k := i + q * c + r;
    StepAt(m, ins, k);
    EvaluationStep(ins[k], MemoryAfter(m, ins[..k]));
    if r > 0 {
      SustainedState(m, ins, c, i, d, q, r - 1);
    } else if q > 0 {
      Distribute(q - 1, 1, c);
      MulAtLeast(q - 1, 0, c);
      SustainedState(m, ins, c, i, d, q - 1, c - 1);
    }
  }

  /** A condition sustained from a candidate on fires again exactly every `c` evaluations. */
  lemma {:induction false} SustainedFiresEveryCooldown(m: Memory, ins: seq<Input>, c: nat, i: nat, d: Direction, j: nat)
    requires c >= 1 && ConstantCooldown(ins, c) && i < j < |ins| && d != NoDirection
    requires ActionAt(m, ins, i) == d && Sustained(ins, i, d)
    ensures ActionAt(m, ins, j) == if (j - i) % c == 0 then d else NoDirection
  {
    hide EvaluateSymbol, MemoryAfter, Input.Raw, Input.Wanted;
    var n := j - i - 1;
    DivMod(n, c);
    DivNonNegative(n, c);
    var q, r := n / c, n % c;
    MulAtLeast(q, 0, c);
    SustainedState(m, ins, c, i, d, q, r);
    EvaluationStep(ins[j], MemoryAfter(m, ins[..j]));
    if r + 1 < c { ModUnique(j - i, q, r + 1, c); } else { Distribute(q, 1, c); ModUnique(j - i, q + 1, 0, c); }
  }

  /** A reversal whose edge falls inside the cooldown never fires while it is sustained. */
  lemma {:induction false} SuppressedReversalStaysSilent(m: Memory, ins: seq<Input>, e: nat, d: Direction, j: nat)
    requires e <= j < |ins| && d != NoDirection && Sustained(ins, e, d)
    requires MemoryAfter(m, ins[..e]).cooldown > 0 && MemoryAfter(m, ins[..e]).lastEmitted != d
    ensures ActionAt(m, ins, j) == NoDirection
    ensures MemoryAfter(m, ins[..j + 1]).lastEmitted != d && MemoryAfter(m, ins[..j + 1]).previous == d
    decreases j
  {
    hide EvaluateSymbol, MemoryAfter, Input.Raw, Input.Wanted;
    StepAt(m, ins, j);
    EvaluationStep(ins[j], MemoryAfter(m, ins[..j]));
    if j > e { SuppressedReversalStaysSilent(m, ins, e, d, j - 1); }
  }
}
