// The configuration bank, the market engine and the signal engine wired together: the slot-reset handshake.
module SlotReset {
  import opened MarketTypes
  import opened MarketModel
  import opened Normalizer
  import opened MarketEngine
  import Bits
  import StrategyModel
  import opened SignalEngine
  import opened StrategyConfig

  datatype System = System(bank: Bank, market: Engine, signals: Signals)

  datatype SystemIn = SystemIn(commandValid: bool, command: Command, eventValid: bool, event: Event, signalReady: bool)

  predicate Sized(c: Windows, s: System) {
    |s.bank.cfg.symbolEnable| == c.symbols && |s.signals.memories| == c.symbols
    && (s.bank.pending ==> s.bank.pendingSymbol < c.symbols)
  }

  ghost predicate WellFormed(c: Windows, s: System) {
    Shaped(c, s.market) && Sized(c, s)
  }

  function SignalPort(s: System, i: SystemIn): SignalIn {
    SignalIn(s.market.featureValid, s.market.feature, s.bank.cfg, s.bank.pending, s.bank.pendingSymbol, i.signalReady)
  }

  function MarketPort(s: System, i: SystemIn): EngineIn {
    EngineIn(i.eventValid, i.event, s.bank.pending, s.bank.pendingSymbol, FeatureReady(s.signals, SignalPort(s, i)))
  }

  /** Ready to the bank only when both engines are. */
  function BankPort(s: System, i: SystemIn): BankIn {
    BankIn(i.commandValid, i.command, ResetReady(s.market) && SlotResetReady(s.signals, SignalPort(s, i)))
  }

  ghost function SystemTick(c: Windows, width: nat, s: System, i: SystemIn): (t: System)
    requires WellFormed(c, s)
    ensures WellFormed(c, t)
  {
    TickKeepsShape(c, s.market, MarketPort(s, i));
    SizesKept(c, width, s, i);
    System(BankTick(s.bank, BankPort(s, i), width), EngineTick(c, s.market, MarketPort(s, i)),
      SignalTick(s.signals, SignalPort(s, i)))
  }

  lemma {:induction false} SizesKept(c: Windows, width: nat, s: System, i: SystemIn)
    requires Sized(c, s)
    ensures
      var b := BankTick(s.bank, BankPort(s, i), width);
      |b.cfg.symbolEnable| == c.symbols && (b.pending ==> b.pendingSymbol < c.symbols)
    ensures |SignalTick(s.signals, SignalPort(s, i)).memories| == c.symbols
  {
    hide Decide, Rearmed, Bits.Signed, Bit;
  }

  // ---- While a reset is pending ----

  /** No event, no feature and no command gets in, whatever is on offer. */
  lemma {:induction false} PendingBlocks(c: Windows, s: System, i: SystemIn)
    requires WellFormed(c, s) && s.bank.pending
    ensures !EventReady(s.market, MarketPort(s, i)) && !FeatureReady(s.signals, SignalPort(s, i)) && !WriteReady(s.bank)
    ensures !MarketPort(s, i).featureReady
  {
  }

  predicate Completes(s: System, i: SystemIn) {
    s.bank.pending && BankPort(s, i).resetReady
  }

  function ClearedSlot(slot: Slot): Slot {
    slot.(word := EmptyWord, initialized := false)
  }

  /**
    The edge that completes a reset clears the requested slot in both engines, leaves every other slot and every
    setting alone, releases the request, and loses no record: one still held is taken by its consumer on that edge.
   */
  lemma {:induction false} CompletionClearsBoth(c: Windows, width: nat, s: System, i: SystemIn)
    requires WellFormed(c, s) && Completes(s, i)
    ensures
      var t, k := SystemTick(c, width, s, i), s.bank.pendingSymbol;
      && !t.bank.pending && t.bank.cfg == s.bank.cfg
      && t.market.bank == s.market.bank[k := ClearedSlot(s.market.bank[k])] && t.market.stage.Idle?
      && !t.market.featureValid
      && t.signals == Signals(s.signals.memories[k := StrategyModel.Disarmed], false, s.signals.record)
      && (s.signals.valid ==> i.signalReady)
  {
    hide Decide, Shaped, NormTick, Advance;
  }

  // ---- When a pending reset completes, and when it never can ----

  /** The market engine keeps its feature register quiet except in OUTPUT. */
  predicate Orderly(e: Engine) {
    e.featureValid ==> e.stage.Output?
  }

  predicate Refused(b: Book, sequence: nat) {
    b.sequenceValid && sequence <= b.sequence
  }

  /**
    The condition: the engine is idle, or holds an event that its sequence check is still going to turn away.
   */
  ghost predicate WillYield(c: Windows, e: Engine)
    requires Shaped(c, e)
  {
    match e.stage
    case Idle => true
    case ReadState =>
      Refused(if e.bank[e.index].initialized then e.bank[e.index].word.book else EmptyBook, e.event.sequence)
    case CheckSeq => Refused(e.work.book, e.event.sequence)
    case _ => false
  }

  function EdgesToYield(e: Engine): nat {
    match e.stage
    case ReadState => 3
    case CheckSeq => 2
    case _ => 1
  }

  // While the reset pends, every edge of an engine that will not yield leaves it so.
  lemma {:induction false} StaysStuck(c: Windows, e: Engine, i: EngineIn)
    requires Shaped(c, e) && Orderly(e) && !WillYield(c, e) && i.resetValid && !i.featureReady
    ensures
      var t := EngineTick(c, e, i);
      Shaped(c, t) && Orderly(t) && !WillYield(c, t) && !t.stage.Idle?
  {
    hide Shaped, NormTick, ApplyToWork, RawFeature, WrittenRings, MidpointCounted;
    TickKeepsShape(c, e, i);
  }

  lemma {:induction false} Yielding(c: Windows, e: Engine, i: EngineIn)
    requires Shaped(c, e) && Orderly(e) && WillYield(c, e) && !e.stage.Idle? && i.resetValid
    ensures
      var t := EngineTick(c, e, i);
      && Shaped(c, t) && Orderly(t) && WillYield(c, t) && EdgesToYield(t) == EdgesToYield(e) - 1
      && t.bank == e.bank
  {
    hide Shaped, NormTick, ApplyToWork, RawFeature, WrittenRings, MidpointCounted;
    TickKeepsShape(c, e, i);
  }

  ghost function RunSystem(c: Windows, width: nat, s: System, ins: seq<SystemIn>): (t: System)
    requires WellFormed(c, s)
    ensures WellFormed(c, t)
    decreases |ins|
  {
    if ins == [] then s else RunSystem(c, width, SystemTick(c, width, s, ins[0]), ins[1..])
  }

  // The bank lets go of a request exactly on a completing edge.
  lemma {:induction false} PendingUntilComplete(c: Windows, width: nat, s: System, i: SystemIn)
    requires WellFormed(c, s) && s.bank.pending
    ensures
      var t := SystemTick(c, width, s, i);
      && t.bank == s.bank.(pending := !Completes(s, i))
      && (!s.market.stage.Idle? ==> t.bank.pending)
      && (s.market.stage.Idle? && !s.market.featureValid && i.signalReady ==> Completes(s, i))
  {
    hide Decide, Shaped, EngineTick;
  }

  lemma {:induction false} StuckForever(c: Windows, width: nat, s: System, ins: seq<SystemIn>)
    requires WellFormed(c, s) && Orderly(s.market) && s.bank.pending && !WillYield(c, s.market)
    ensures
      var t := RunSystem(c, width, s, ins);
      t.bank == s.bank && !t.market.stage.Idle? && !WillYield(c, t.market)
    decreases |ins|
  {
    hide Shaped, BankTick, EngineTick, SignalTick, Orderly;
    if ins != [] {
      StuckStep(c, width, s, ins[0]);
      StuckForever(c, width, SystemTick(c, width, s, ins[0]), ins[1..]);
    }
  }

  lemma {:induction false} StuckStep(c: Windows, width: nat, s: System, i: SystemIn)
    requires WellFormed(c, s) && Orderly(s.market) && s.bank.pending && !WillYield(c, s.market)
    ensures
      var t := SystemTick(c, width, s, i);
      t.bank == s.bank && !WillYield(c, t.market) && Orderly(t.market) && !t.market.stage.Idle?
  {
    hide EngineTick, SignalTick, Orderly, Shaped;
    PendingBlocks(c, s, i);
    StaysStuck(c, s.market, MarketPort(s, i));
    PendingUntilComplete(c, width, s, i);
  }

  // With its consumer ready, the signal engine clears the slot on every pending edge and takes nothing.
  lemma {:induction false} SignalsWhilePending(c: Windows, s: System, i: SystemIn)
    requires WellFormed(c, s) && s.bank.pending && i.signalReady
    ensures
      var t := SignalTick(s.signals, SignalPort(s, i));
      t == Signals(s.signals.memories[s.bank.pendingSymbol := StrategyModel.Disarmed], false, s.signals.record)
  {
    hide Shaped, Decide;
  }

  lemma {:induction false} YieldsInTime(c: Windows, width: nat, s: System, ins: seq<SystemIn>)
    requires WellFormed(c, s) && Orderly(s.market) && s.bank.pending && WillYield(c, s.market)
    requires |ins| <= EdgesToYield(s.market) && forall k :: 0 <= k < |ins| ==> ins[k].signalReady
    ensures
      var t, k := RunSystem(c, width, s, ins), s.bank.pendingSymbol;
      if |ins| < EdgesToYield(s.market) then t.bank == s.bank
      else
        && t.bank == s.bank.(pending := false)
        && t.market.bank == s.market.bank[k := ClearedSlot(s.market.bank[k])]
        && t.signals.memories == s.signals.memories[k := StrategyModel.Disarmed]
    decreases |ins|
  {
    hide Shaped, BankTick, EngineTick, SignalTick, SystemTick;
    if ins != [] {
      var t := SystemTick(c, width, s, ins[0]);
      YieldStep(c, width, s, ins[0]);
      if !s.market.stage.Idle? { YieldsInTime(c, width, t, ins[1..]); }
    }
  }

  lemma {:induction false} YieldStep(c: Windows, width: nat, s: System, i: SystemIn)
    requires WellFormed(c, s) && Orderly(s.market) && s.bank.pending && WillYield(c, s.market) && i.signalReady
    ensures
      var t, k := SystemTick(c, width, s, i), s.bank.pendingSymbol;
      && t.signals.memories == s.signals.memories[k := StrategyModel.Disarmed]
      && if s.market.stage.Idle? then
           t.bank == s.bank.(pending := false) && t.market.bank == s.market.bank[k := ClearedSlot(s.market.bank[k])]
         else
           t.bank == s.bank && t.market.bank == s.market.bank && Orderly(t.market) && WillYield(c, t.market)
           && EdgesToYield(t.market) == EdgesToYield(s.market) - 1
  {
    hide Shaped, EngineTick, SignalTick, BankTick;
    PendingUntilComplete(c, width, s, i);
    SignalsWhilePending(c, s, i);
    if s.market.stage.Idle? { CompletionClearsBoth(c, width, s, i); } else { Yielding(c, s.market, MarketPort(s, i)); }
  }

  /**
    With its record consumer ready, as the top level ties it, a pending slot reset completes exactly when the
    market engine is idle or is about to turn its event away: then after one, two or three edges, having cleared
    that slot and no other in both engines. From every other state it never completes, whatever the inputs do.
   */
  lemma {:induction false} ResetCompletesExactlyWhenYielding(c: Windows, width: nat, s: System, ins: seq<SystemIn>)
    requires WellFormed(c, s) && Orderly(s.market) && s.bank.pending
    requires |ins| >= 3 && forall k :: 0 <= k < |ins| ==> ins[k].signalReady
    ensures WillYield(c, s.market) <==> exists n :: 0 <= n <= |ins| && !RunSystem(c, width, s, ins[..n]).bank.pending
    ensures WillYield(c, s.market) ==>
      var n, k := EdgesToYield(s.market), s.bank.pendingSymbol;
      var t := RunSystem(c, width, s, ins[..n]);
      && !t.bank.pending && (forall m :: 0 <= m < n ==> RunSystem(c, width, s, ins[..m]).bank.pending)
      && t.market.bank == s.market.bank[k := ClearedSlot(s.market.bank[k])]
      && t.signals.memories == s.signals.memories[k := StrategyModel.Disarmed]
  {
    hide Shaped, RunSystem, WillYield, ClearedSlot, Orderly;
    if WillYield(c, s.market) {
      var n := EdgesToYield(s.market);
      YieldsInTime(c, width, s, ins[..n]);
      forall m | 0 <= m < n
        ensures RunSystem(c, width, s, ins[..m]).bank.pending { YieldsInTime(c, width, s, ins[..m]); }
    } else {
      forall n | 0 <= n <= |ins|
        ensures RunSystem(c, width, s, ins[..n]).bank.pending { StuckForever(c, width, s, ins[..n]); }
    }
  }

  /** A held feature and a pending reset wait for each other: neither moves again, on any input. */
  lemma {:induction false} HeldFeatureIsNeverTaken(c: Windows, width: nat, s: System, ins: seq<SystemIn>)
    requires WellFormed(c, s) && s.bank.pending && s.market.stage.Output? && s.market.featureValid
    ensures
      var t := RunSystem(c, width, s, ins);
      && t.bank == s.bank && t.market.stage.Output? && t.market.featureValid && t.market.feature == s.market.feature
      && t.market.bank == s.market.bank
    decreases |ins|
  {
    hide WellFormed, BankTick, EngineTick, SignalTick;
    if ins != [] {
      HeldStep(c, width, s, ins[0]);
      HeldFeatureIsNeverTaken(c, width, SystemTick(c, width, s, ins[0]), ins[1..]);
    }
  }

  lemma {:induction false} HeldStep(c: Windows, width: nat, s: System, i: SystemIn)
    requires WellFormed(c, s) && s.bank.pending && s.market.stage.Output? && s.market.featureValid
    ensures
      var t := SystemTick(c, width, s, i);
      && t.bank == s.bank && t.market.stage.Output? && t.market.featureValid && t.market.feature == s.market.feature
      && t.market.bank == s.market.bank
  {
    hide Shaped, NormTick, SignalTick, BankTick;
    PendingUntilComplete(c, width, s, i);
  }
}
