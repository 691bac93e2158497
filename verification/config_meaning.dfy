// What the settings are: the values carried by the last accepted command of each kind, or the reset defaults.
module ConfigMeaning {
  import opened ProtocolDefs
  import opened Bits
  import opened StrategyModel
  import opened StrategyConfig

  // ---- Which commands count ----

  /** A setting exists for every code up to the cooldown's; the last two are for a known symbol. */
  predicate Known(symbols: nat, c: Command) {
    || CONTROL_SET_GLOBAL_FLAGS <= c.code <= CONTROL_SET_COOLDOWN
    || ((c.code == CONTROL_SET_SYMBOL_ENABLE || c.code == CONTROL_CLEAR_SYMBOL_STATE) && c.symbol < symbols)
  }

  datatype Slot = NoSlot | SlotOf(symbol: nat)

  /** The slot whose reset has been asked for and not yet taken by the engines. */
  function Awaited(symbols: nat, ins: seq<BankIn>): Slot {
    if ins == [] then NoSlot
    else
      var before, i := Awaited(symbols, ins[..|ins| - 1]), ins[|ins| - 1];
      if before.NoSlot? && i.valid && i.command.code == CONTROL_CLEAR_SYMBOL_STATE && i.command.symbol < symbols
        then SlotOf(i.command.symbol)
      else if i.resetReady then NoSlot
      else before
  }

  predicate Counts(symbols: nat, before: seq<BankIn>, i: BankIn) {
    i.valid && Awaited(symbols, before).NoSlot? && Known(symbols, i.command)
  }

  function Accepted(symbols: nat, ins: seq<BankIn>): seq<Command> {
    if ins == [] then []
    else
      var before, i := ins[..|ins| - 1], ins[|ins| - 1];
      Accepted(symbols, before) + if Counts(symbols, before, i) then [i.command] else []
  }

  // ---- What they say ----

  datatype Last = Never | Latest(command: Command)

  function LastOf(cs: seq<Command>, code: nat): Last {
    if cs == [] then Never
    else if cs[|cs| - 1].code == code then Latest(cs[|cs| - 1])
    else LastOf(cs[..|cs| - 1], code)
  }

  function LastFor(cs: seq<Command>, code: nat, symbol: nat): Last {
    if cs == [] then Never
    else if cs[|cs| - 1].code == code && cs[|cs| - 1].symbol == symbol then Latest(cs[|cs| - 1])
    else LastFor(cs[..|cs| - 1], code, symbol)
  }

  /** The 32-bit field read as two's complement, or the default. */
  predicate Threshold32(l: Last, default: int, v: int) {
    match l
    case Never => v == default
    case Latest(c) => -0x8000_0000 <= v < 0x8000_0000 && (v - c.data32) % 0x1_0000_0000 == 0
  }

  predicate Threshold16(l: Last, default: int, v: int) {
    match l
    case Never => v == default
    case Latest(c) => -0x8000 <= v < 0x8000 && (v - c.data32) % 0x1_0000 == 0
  }

  predicate FlagsMean(l: Last, cfg: Config) {
    match l
    case Never => !cfg.strategyEnable && cfg.longEnable && cfg.shortEnable
    case Latest(c) =>
      && (cfg.strategyEnable <==> c.data64 % 2 == 1)
      && (cfg.longEnable <==> c.data64 / 2 % 2 == 1)
      && (cfg.shortEnable <==> c.data64 / 4 % 2 == 1)
  }

  predicate VolumeMeans(l: Last, width: nat, v: nat) {
    match l
    case Never => v == 1
    case Latest(c) => v < Pow2(width) && (c.data64 - v) % Pow2(width) == 0
  }

  predicate CooldownMeans(l: Last, v: nat) {
    match l
    case Never => v == 4
    case Latest(c) => v < 0x1_0000_0000 && (c.data32 - v) % 0x1_0000_0000 == 0
  }

  predicate EnableMeans(l: Last, on: bool) {
    match l
    case Never => on
    case Latest(c) => on <==> c.data64 % 2 == 1
  }

  predicate ThresholdsMean(cs: seq<Command>, cfg: Config) {
    && Threshold32(LastOf(cs, CONTROL_SET_LONG_MOMENTUM), 100, cfg.longMinMomentum)
    && Threshold32(LastOf(cs, CONTROL_SET_SHORT_MOMENTUM), -100, cfg.shortMaxMomentum)
    && Threshold32(LastOf(cs, CONTROL_SET_LONG_VWAP_DELTA), 100, cfg.longMinDelta)
    && Threshold32(LastOf(cs, CONTROL_SET_SHORT_VWAP_DELTA), -100, cfg.shortMaxDelta)
    && Threshold16(LastOf(cs, CONTROL_SET_LONG_IMBALANCE), 1638, cfg.longMinImbalance)
    && Threshold16(LastOf(cs, CONTROL_SET_SHORT_IMBALANCE), -1638, cfg.shortMaxImbalance)
    && Threshold32(LastOf(cs, CONTROL_SET_MAX_SPREAD), 500, cfg.maxSpread)
  }

  predicate EnablesMean(symbols: nat, cs: seq<Command>, on: seq<bool>) {
    |on| == symbols && forall s :: 0 <= s < symbols ==> EnableMeans(LastFor(cs, CONTROL_SET_SYMBOL_ENABLE, s), on[s])
  }

  /** Each setting is what the last accepted command of its own code says, and nothing else has touched it. */
  predicate ConfigMeans(symbols: nat, width: nat, cs: seq<Command>, cfg: Config) {
    && FlagsMean(LastOf(cs, CONTROL_SET_GLOBAL_FLAGS), cfg)
    && ThresholdsMean(cs, cfg)
    && VolumeMeans(LastOf(cs, CONTROL_SET_MIN_VOLUME), width, cfg.minVolume)
    && CooldownMeans(LastOf(cs, CONTROL_SET_COOLDOWN), cfg.cooldown)
    && EnablesMean(symbols, cs, cfg.symbolEnable)
  }

  // ---- Field decoding ----

  lemma {:induction false} MultipleOf(x: int, q: int, m: nat)
    requires m > 0 && x == q * m
    ensures x % m == 0
  {
    ModUnique(x, q, 0, m);
  }

  lemma {:induction false} WrapMeans(x: nat, width: nat)
    ensures (x - Wrap(x, width)) % Pow2(width) == 0
  {
    var m := Pow2(width);
    hide Pow2;
    DivMod(x, m);
    MultipleOf(x - Wrap(x, width), x / m, m);
  }

  lemma {:induction false} SignedMeans(x: nat, width: nat)
    requires width > 0
    ensures
      var v := Signed(x, width);
      -1 * Pow2(width - 1) <= v < Pow2(width - 1) && (v - x) % Pow2(width) == 0
  {
    var m, v, w := Pow2(width), Signed(x, width), Wrap(x, width);
    assert m == 2 * Pow2(width - 1);
    hide Pow2;
    DivMod(x, m);
    var q := x / m;
    if w >= Pow2(width - 1) {
      Distribute(-q, 1, m);
      NegMul(q, m);
      MultipleOf(v - x, -q - 1, m);
    } else {
      NegMul(q, m);
      MultipleOf(v - x, -q, m);
    }
  }

  lemma {:induction false} ThresholdMeans(c: Command)
    ensures forall default :: Threshold32(Latest(c), default, Signed(c.data32, 32))
    ensures forall default :: Threshold16(Latest(c), default, Signed(c.data32, 16))
  {
    SignedMeans(c.data32, 32);
    SignedMeans(c.data32, 16);
    Pow2Values();
    hide Pow2, Signed;
  }

  lemma {:induction false} BitsMean(x: nat)
    ensures Bit(x, 0) == (x % 2 == 1) && Bit(x, 1) == (x / 2 % 2 == 1) && Bit(x, 2) == (x / 4 % 2 == 1)
  {
    assert Pow2(0) == 1 && Pow2(1) == 2 && Pow2(2) == 4;
  }

  // ---- One edge ----

  function Appended(cs: seq<Command>, took: bool, c: Command): seq<Command> {
    if took then cs + [c] else cs
  }

  lemma {:induction false} LastSnoc(cs: seq<Command>, c: Command)
    ensures forall code :: LastOf(cs + [c], code) == if c.code == code then Latest(c) else LastOf(cs, code)
    ensures
      forall code, s :: LastFor(cs + [c], code, s) ==
        if c.code == code && c.symbol == s then Latest(c) else LastFor(cs, code, s)
  {
    assert (cs + [c])[..|cs|] == cs;
  }

  lemma {:induction false} ConfiguredMeans(symbols: nat, width: nat, cs: seq<Command>, cfg: Config, c: Command)
    requires ConfigMeans(symbols, width, cs, cfg) && Known(symbols, c)
    ensures ConfigMeans(symbols, width, cs + [c], Configured(cfg, c, width))
  {
    hide LastOf, LastFor, Signed, Wrap, Bit, Threshold32, Threshold16, Pow2;
    LastSnoc(cs, c);
    ThresholdMeans(c);
    WrapMeans(c.data64, width);
    WrapMeans(c.data32, 32);
    Pow2Values();
    BitsMean(c.data64);
  }

  // ---- Runs ----

  ghost predicate BankMeans(symbols: nat, width: nat, ins: seq<BankIn>, b: Bank) {
    && b.pending == Awaited(symbols, ins).SlotOf? && (b.pending ==> Awaited(symbols, ins) == SlotOf(b.pendingSymbol))
    && ConfigMeans(symbols, width, Accepted(symbols, ins), b.cfg)
  }

  lemma {:induction false} AcceptsCounts(symbols: nat, before: seq<BankIn>, b: Bank, i: BankIn)
    requires |b.cfg.symbolEnable| == symbols && b.pending == Awaited(symbols, before).SlotOf?
    ensures Accepts(b, i) == Counts(symbols, before, i)
    ensures Status(b, i.command) ==
      if Awaited(symbols, before).SlotOf? then 0xE9 else if Known(symbols, i.command) then 0x01 else 0xE8
  {
  }

  /** One edge: an accepted command other than a slot reset writes its own setting. */
  lemma {:induction false} EdgeMeans(symbols: nat, width: nat, cs: seq<Command>, b: Bank, i: BankIn)
    requires ConfigMeans(symbols, width, cs, b.cfg)
    ensures ConfigMeans(symbols, width, Appended(cs, Accepts(b, i), i.command), BankTick(b, i, width).cfg)
  {
    hide ThresholdsMean, FlagsMean, VolumeMeans, CooldownMeans, EnableMeans, Configured, LastOf, LastFor;
    if Accepts(b, i) {
      assert Known(symbols, i.command);
      ConfiguredMeans(symbols, width, cs, b.cfg, i.command);
      if i.command.code == CONTROL_CLEAR_SYMBOL_STATE { ClearWritesNothing(b.cfg, i.command, width); }
    }
  }

  lemma {:induction false} ClearWritesNothing(cfg: Config, c: Command, width: nat)
    requires c.code == CONTROL_CLEAR_SYMBOL_STATE
    ensures Configured(cfg, c, width) == cfg
  {
  }

  lemma {:induction false} BankStep(symbols: nat, width: nat, ins: seq<BankIn>, b: Bank, i: BankIn)
    requires BankMeans(symbols, width, ins, b)
    ensures BankMeans(symbols, width, ins + [i], BankTick(b, i, width))
  {
    hide ConfigMeans, Configured;
    assert (ins + [i])[..|ins|] == ins;
    EnablesKnown(symbols, width, Accepted(symbols, ins), b.cfg);
    AcceptsCounts(symbols, ins, b, i);
    EdgeMeans(symbols, width, Accepted(symbols, ins), b, i);
    assert Accepted(symbols, ins) + [] == Accepted(symbols, ins);
  }

  lemma {:induction false} EnablesKnown(symbols: nat, width: nat, cs: seq<Command>, cfg: Config)
    requires ConfigMeans(symbols, width, cs, cfg)
    ensures |cfg.symbolEnable| == symbols
  {
  }

  lemma {:induction false} DefaultsMean(symbols: nat, width: nat)
    ensures ConfigMeans(symbols, width, [], ResetConfig(symbols))
  {
  }

  function RunBank(symbols: nat, width: nat, ins: seq<BankIn>): Bank {
    if ins == [] then ResetBank(symbols)
    else BankTick(RunBank(symbols, width, ins[..|ins| - 1]), ins[|ins| - 1], width)
  }

  /**
    For every run from reset each setting is the value carried by the last accepted command of its own code (and
    symbol), or its default; the pending slot reset is the one last asked for and not yet taken; and the status shown
    for the next command says whether it would count.
   */
  lemma {:induction false} SettingsMean(symbols: nat, width: nat, ins: seq<BankIn>, next: Command)
    ensures
      var b := RunBank(symbols, width, ins);
      && ConfigMeans(symbols, width, Accepted(symbols, ins), b.cfg)
      && b.pending == Awaited(symbols, ins).SlotOf? && (b.pending ==> Awaited(symbols, ins) == SlotOf(b.pendingSymbol))
      && Status(b, next) ==
           if Awaited(symbols, ins).SlotOf? then 0xE9 else if Known(symbols, next) then 0x01 else 0xE8
    decreases |ins|
  {
    hide ConfigMeans, BankTick, Status, Known;
    if ins == [] {
      DefaultsMean(symbols, width);
    } else {
      var last := |ins| - 1;
      SettingsMean(symbols, width, ins[..last], next);
      BankStep(symbols, width, ins[..last], RunBank(symbols, width, ins[..last]), ins[last]);
      assert ins == ins[..last] + [ins[last]];
    }
    EnablesKnown(symbols, width, Accepted(symbols, ins), RunBank(symbols, width, ins).cfg);
    AcceptsCounts(symbols, ins, RunBank(symbols, width, ins), BankIn(true, next, false));
  }
}
