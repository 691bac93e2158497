// Slot resets in runs from reset: which of them complete, and a deadlock reached from power-up.
module SlotResetReach {
  import opened ProtocolDefs
  import opened MarketTypes
  import opened MarketModel
  import opened MarketHistory
  import opened NormalizerCorrect
  import opened MarketEngine
  import opened MarketRefinement
  import opened MarketRun
  import SignalEngine
  import opened StrategyConfig
  import opened SlotReset
  import opened EndToEnd

  function MachineOf(w: Whole): Machine {
    Machine(w.system.market, w.market)
  }

  lemma {:induction false} SaneIsOrderly(c: Windows, s: Engine, g: Ports)
    requires Inv(c, s, g)
    ensures Orderly(s)
  {
    hide Replay, StageInv, BankOk, Shaped;
  }

  /**
    An event that passes its sequence check is never turned away, so while it is in flight the engine will not
    yield.
   */
  lemma {:induction false} WorkingNeverYields(c: Windows, s: Engine, g: Ports, left: nat)
    requires Inv(c, s, g) && Shaped(c, s) && Counting(c, s, g, left)
    ensures !WillYield(c, s)
  {
    hide Inv, Replay, Shaped, Represents, HistoryFits, Buildable, Event.Widths, LiveRings, ModelEdges, Symbol.Valid,
      Quiet, Addressed, OldOk, Computed, Running;
    if InFlight(s.stage) {
      var sym, h := FlightContext(c, s, g);
    }
  }

  lemma {:induction false} WholeIsClocked(c: Windows, width: nat, w: Whole, i: SystemIn)
    requires WellFormed(c, w.system)
    ensures MachineOf(WholeTick(c, width, w, i)) == Clocked(c, MachineOf(w), MarketPort(w.system, i))
  {
    hide EngineTick, NextPorts, BankTick, SignalEngine.SignalTick, SignalEngine.NextPorts;
  }

  ghost predicate Fits(ins: seq<SystemIn>) {
    forall k :: 0 <= k < |ins| ==> ins[k].event.Widths()
  }

  // The wired system of a whole run is the system run on its own.
  lemma {:induction false} WholeIsSystem(c: Windows, width: nat, w: Whole, ins: seq<SystemIn>)
    requires WellFormed(c, w.system)
    ensures RunWhole(c, width, w, ins).system == RunSystem(c, width, w.system, ins)
    decreases |ins|
  {
    hide WellFormed, SystemTick;
    if ins != [] { WholeIsSystem(c, width, WholeTick(c, width, w, ins[0]), ins[1..]); }
  }

  lemma {:induction false} CountingRun(c: Windows, width: nat, w: Whole, ins: seq<SystemIn>, left: nat)
    requires WellFormed(c, w.system) && Linked(c, w) && Fits(ins) && |ins| <= left
    requires Counting(c, w.system.market, w.market, left)
    ensures
      var v := RunWhole(c, width, w, ins);
      Linked(c, v) && Counting(c, v.system.market, v.market, left - |ins|)
    decreases |ins|
  {
    hide WellFormed, WholeTick, Clocked, Event.Widths, Counting, Inv, Shaped, SignalEngine.Tracks, FeaturesOf,
      FeaturesTaken;
    if ins != [] {
      var v := WholeTick(c, width, w, ins[0]);
      LinkedStep(c, width, w, ins[0]);
      WholeIsClocked(c, width, w, ins[0]);
      CountStep(c, MachineOf(w), MarketPort(w.system, ins[0]), left);
      CountingRun(c, width, v, ins[1..], left - 1);
    }
  }

  ghost predicate CompletesWhenYielding(c: Windows, width: nat, w: Whole, ins: seq<SystemIn>)
    requires WellFormed(c, w.system) && |ins| >= 3
  {
    if WillYield(c, w.system.market)
      then !RunWhole(c, width, w, ins[..EdgesToYield(w.system.market)]).system.bank.pending
    else forall n :: 0 <= n <= |ins| ==> RunWhole(c, width, w, ins[..n]).system.bank.pending
  }

  /**
    In every run from reset, a pending slot reset completes if and only if the market engine is idle or is about to
    turn its event away, and then within three edges, whatever else is on offer.
   */
  lemma {:induction false} EveryPendingReset(c: Windows, width: nat, bank: seq<Slot>, before: seq<SystemIn>,
      ins: seq<SystemIn>)
    requires Buildable(c) && PoweredUp(c, bank) && Fits(before)
    requires |ins| >= 3 && forall k :: 0 <= k < |ins| ==> ins[k].signalReady
    ensures WellFormed(c, PowerUpWhole(c, bank).system)
    ensures
      var w := RunWhole(c, width, PowerUpWhole(c, bank), before);
      w.system.bank.pending ==> CompletesWhenYielding(c, width, w, ins)
  {
    hide Inv, Shaped, RunWhole, RunSystem, WillYield, Event.Widths, SignalEngine.Tracks, FeaturesOf, FeaturesTaken,
      ClearedSlot;
    PowerUpIsLinked(c, bank);
    RunStaysLinked(c, width, PowerUpWhole(c, bank), before);
    var w := RunWhole(c, width, PowerUpWhole(c, bank), before);
    SaneIsOrderly(c, w.system.market, w.market);
    if w.system.bank.pending {
      ResetCompletesExactlyWhenYielding(c, width, w.system, ins);
      forall n | 0 <= n <= |ins|
        ensures RunWhole(c, width, w, ins[..n]).system == RunSystem(c, width, w.system, ins[..n])
      {
        WholeIsSystem(c, width, w, ins[..n]);
      }
    }
  }

  /**
    In every run from reset, a slot reset found pending at any edge between the one that takes an event the model
    accepts and the one that offers its feature never completes, whatever the inputs do from then on.
   */
  lemma {:induction false} PendingInFlightNeverCompletes(
      c: Windows, width: nat, bank: seq<Slot>, before: seq<SystemIn>, i: SystemIn, ins: seq<SystemIn>,
      later: seq<SystemIn>)
    requires Buildable(c) && PoweredUp(c, bank) && Fits(before) && i.event.Widths() && Fits(ins)
    ensures c.Valid() && WellFormed(c, PowerUpWhole(c, bank).system)
    ensures
      var w := RunWhole(c, width, PowerUpWhole(c, bank), before);
      var v := RunWhole(c, width, WholeTick(c, width, w, i), ins);
      Accepting(c, MachineOf(w), MarketPort(w.system, i))
      && |ins| <= Latency(c, MachineOf(w), i.event) && v.system.bank.pending ==>
        RunWhole(c, width, v, later).system.bank == v.system.bank
  {
    hide Inv, Shaped, RunWhole, RunSystem, WholeTick, WillYield, Event.Widths, SignalEngine.Tracks, FeaturesOf,
      FeaturesTaken, Accepting, Latency, Counting, WellFormed, Clocked;
    BuildableIsValid(c);
    PowerUpIsLinked(c, bank);
    RunStaysLinked(c, width, PowerUpWhole(c, bank), before);
    var w := RunWhole(c, width, PowerUpWhole(c, bank), before);
    var u, j := WholeTick(c, width, w, i), MarketPort(w.system, i);
    LinkedStep(c, width, w, i);
    if Accepting(c, MachineOf(w), j) && |ins| <= Latency(c, MachineOf(w), i.event) {
      AcceptStartsCount(c, MachineOf(w), j);
      WholeIsClocked(c, width, w, i);
      CountingRun(c, width, u, ins, Latency(c, MachineOf(w), i.event));
      var v := RunWhole(c, width, u, ins);
      if v.system.bank.pending { NeverAgain(c, width, v, later, Latency(c, MachineOf(w), i.event) - |ins|); }
    }
  }

  lemma {:induction false} NeverAgain(c: Windows, width: nat, v: Whole, later: seq<SystemIn>, left: nat)
    requires WellFormed(c, v.system) && Linked(c, v) && Counting(c, v.system.market, v.market, left)
      && v.system.bank.pending
    ensures RunWhole(c, width, v, later).system.bank == v.system.bank
  {
    hide Inv, RunWhole, RunSystem, WillYield, SignalEngine.Tracks, FeaturesOf, FeaturesTaken, Counting, Orderly;
    SaneIsOrderly(c, v.system.market, v.market);
    WorkingNeverYields(c, v.system.market, v.market, left);
    StuckForever(c, width, v.system, later);
    WholeIsSystem(c, width, v, later);
  }

  // ---- How long a first trade is in flight ----

  lemma {:induction false} FirstTradeIsSlow(c: Windows, m: Machine, e: Event)
    requires c.Valid() && m.ports.taken == [] && e.kind == MSG_MARKET_TRADE && e.symbol < c.symbols && e.quantity > 0
    ensures Latency(c, m, e) >= 85
  {
    hide Normalize, TotalEdges, Observe;
    var sym := FreshSymbol(c);
    assert Replay(c, []).symbols[e.symbol] == sym;
    var f := Modelled(c, sym, e);
    assert Apply(c, sym, e).word.sumQuantity == e.quantity;
    VwapTakesTheDivider(c, f.raw, Reference(c, Apply(c, sym, e)));
  }

  lemma {:induction false} VwapTakesTheDivider(c: Windows, raw: Raw, reference: nat)
    requires raw.vwapValid && raw.sumQuantity != 0
    ensures TotalEdges(Params(c), Normalize(c.scales, raw, reference)) >= 72
  {
    hide Saturate, TruncDiv, Quotient;
  }
}
