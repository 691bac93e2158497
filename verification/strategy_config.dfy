// The runtime configuration bank and the slot-reset request it holds.
module StrategyConfig {
  import opened ProtocolDefs
  import opened Bits
  import opened StrategyModel

  datatype Command = Command(code: nat, symbol: nat, data64: nat, data32: nat)

  /** `pending` holds a slot reset until both engines have taken it. */
  datatype Bank = Bank(cfg: Config, pending: bool, pendingSymbol: nat)

  datatype BankIn = BankIn(valid: bool, command: Command, resetReady: bool)

  function ResetConfig(symbols: nat): Config {
    Config(false, true, true, 100, -100, 100, -100, 1638, -1638, 500, 1, 4, seq(symbols, _ => true))
  }

  function ResetBank(symbols: nat): Bank {
    Bank(ResetConfig(symbols), false, 0)
  }

  predicate IsGlobal(code: nat) {
    CONTROL_SET_GLOBAL_FLAGS <= code <= CONTROL_SET_COOLDOWN
  }

  predicate IsSymbol(code: nat) {
    code == CONTROL_SET_SYMBOL_ENABLE || code == CONTROL_CLEAR_SYMBOL_STATE
  }

  /** The combinational status; the dispatcher reads it on the handshake. */
  function Status(b: Bank, c: Command): nat {
    if b.pending then STATUS_CONFIG_BUSY
    else if IsGlobal(c.code) then STATUS_OK
    else if IsSymbol(c.code) && c.symbol < |b.cfg.symbolEnable| then STATUS_OK
    else STATUS_BAD_CONTROL
  }

  function WriteReady(b: Bank): bool {
    !b.pending
  }

  predicate Accepts(b: Bank, i: BankIn) {
    i.valid && WriteReady(b) && Status(b, i.command) == STATUS_OK
  }

  function Bit(x: nat, k: nat): bool {
    x / Pow2(k) % 2 == 1
  }

  function Configured(cfg: Config, c: Command, volumeWidth: nat): Config {
    if c.code == CONTROL_SET_GLOBAL_FLAGS then
      cfg.(strategyEnable := Bit(c.data64, 0), longEnable := Bit(c.data64, 1), shortEnable := Bit(c.data64, 2))
    else if c.code == CONTROL_SET_LONG_MOMENTUM then cfg.(longMinMomentum := Signed(c.data32, 32))
    else if c.code == CONTROL_SET_SHORT_MOMENTUM then cfg.(shortMaxMomentum := Signed(c.data32, 32))
    else if c.code == CONTROL_SET_LONG_VWAP_DELTA then cfg.(longMinDelta := Signed(c.data32, 32))
    else if c.code == CONTROL_SET_SHORT_VWAP_DELTA then cfg.(shortMaxDelta := Signed(c.data32, 32))
    else if c.code == CONTROL_SET_LONG_IMBALANCE then cfg.(longMinImbalance := Signed(c.data32, 16))
    else if c.code == CONTROL_SET_SHORT_IMBALANCE then cfg.(shortMaxImbalance := Signed(c.data32, 16))
    else if c.code == CONTROL_SET_MAX_SPREAD then cfg.(maxSpread := Signed(c.data32, 32))
    else if c.code == CONTROL_SET_MIN_VOLUME then cfg.(minVolume := Wrap(c.data64, volumeWidth))
    else if c.code == CONTROL_SET_COOLDOWN then cfg.(cooldown := Wrap(c.data32, 32))
    else if c.code == CONTROL_SET_SYMBOL_ENABLE && c.symbol < |cfg.symbolEnable| then
      cfg.(symbolEnable := cfg.symbolEnable[c.symbol := Bit(c.data64, 0)])
    else cfg
  }

  /** One clock edge. */
  function BankTick(b: Bank, i: BankIn, volumeWidth: nat): Bank {
    var released := b.pending && !i.resetReady;
    if !Accepts(b, i) then b.(pending := released)
    else if i.command.code == CONTROL_CLEAR_SYMBOL_STATE then b.(pending := true, pendingSymbol := i.command.symbol)
    else Bank(Configured(b.cfg, i.command, volumeWidth), released, b.pendingSymbol)
  }

  /** A busy status is computed but never seen: the port is not ready while a reset is pending. */
  lemma {:induction false} BusyNeverAtHandshake(b: Bank, i: BankIn)
    ensures Status(b, i.command) == STATUS_CONFIG_BUSY <==> !WriteReady(b)
    ensures i.valid && WriteReady(b) ==> Status(b, i.command) in {STATUS_OK, STATUS_BAD_CONTROL}
  {
  }

  /** A command that is refused, or offered while a reset is pending, changes no setting. */
  lemma {:induction false} RefusedChangesNothing(b: Bank, i: BankIn, volumeWidth: nat)
    requires Status(b, i.command) != STATUS_OK
    ensures BankTick(b, i, volumeWidth) == b.(pending := b.pending && !i.resetReady)
  {
  }

  /** The value a threshold command carries as two's complement is the value the bank then compares with. */
  lemma {:induction false} ThresholdRoundTrip(v: int, width: nat)
    requires width > 0 && -SignedHalf(width) <= v < SignedHalf(width)
    ensures v % Pow2(width) >= 0 && Signed(v % Pow2(width), width) == v
  {
    var p := Pow2(width);
    assert p == 2 * Pow2(width - 1);
    hide Pow2;
    if v >= 0 { ModSmall(v, p); } else { ModUnique(v, -1, v + p, p); }
    ModSmall(v % p, p);
  }

  function SignedHalf(width: nat): int
    requires width > 0
  {
    Pow2(width - 1)
  }

  class ConfigBank {
    const volumeWidth: nat
    var cfg: Config
    var slotResetValid: bool
    var slotResetSymbol: nat

    ghost function View(): Bank
      reads this
    {
      Bank(cfg, slotResetValid, slotResetSymbol)
    }

    constructor (symbols: nat, volumeWidth: nat)
      ensures this.volumeWidth == volumeWidth && View() == ResetBank(symbols)
    {
      this.volumeWidth := volumeWidth;
      cfg, slotResetValid, slotResetSymbol := ResetConfig(symbols), false, 0;
    }

    method Tick(i: BankIn) returns (status: nat)
      modifies this
      ensures View() == BankTick(old(View()), i, volumeWidth)
      ensures status == Status(old(View()), i.command)
    {
      hide Signed, Bit, Wrap;
      var before := Bank(cfg, slotResetValid, slotResetSymbol);
      status := Status(before, i.command);
      var accept := i.valid && WriteReady(before) && status == STATUS_OK;
      if slotResetValid && i.resetReady { slotResetValid := false; }
      if accept {
        if i.command.code == CONTROL_CLEAR_SYMBOL_STATE {
          slotResetSymbol, slotResetValid := i.command.symbol, true;
        } else {
          cfg := Configured(cfg, i.command, volumeWidth);
        }
      }
    }
  }
}
