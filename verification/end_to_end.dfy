// From market events to candidate signals: the wired hardware against the two reference models in series.
module EndToEnd {
  import opened MarketTypes
  import opened MarketEngine
  import opened MarketRefinement
  import opened MarketRun
  import SignalEngine
  import opened StrategyConfig
  import opened SlotReset

  /** The system and what has crossed the ports of its market and signal engines. */
  datatype Whole = Whole(system: System, market: Ports, signals: SignalEngine.Ports)

  ghost function WholeTick(c: Windows, width: nat, w: Whole, i: SystemIn): (t: Whole)
    requires WellFormed(c, w.system)
    ensures WellFormed(c, t.system)
  {
    Whole(SystemTick(c, width, w.system, i),
          NextPorts(c, w.system.market, MarketPort(w.system, i), w.market),
          SignalEngine.NextPorts(w.system.signals, SignalPort(w.system, i), w.signals))
  }

  ghost function RunWhole(c: Windows, width: nat, w: Whole, ins: seq<SystemIn>): (t: Whole)
    requires WellFormed(c, w.system)
    ensures WellFormed(c, t.system)
    decreases |ins|
  {
    if ins == [] then w else RunWhole(c, width, WholeTick(c, width, w, ins[0]), ins[1..])
  }

  function PowerUpWhole(c: Windows, bank: seq<Slot>): Whole {
    Whole(System(ResetBank(c.symbols), ResetEngine(bank), SignalEngine.ResetSignals(c.symbols)), NothingYet,
      SignalEngine.Ports([], []))
  }

  /** The features among a series of outcomes. */
  function FeaturesOf(os: seq<Outcome>): seq<Feature> {
    if os == [] then []
    else FeaturesOf(os[..|os| - 1]) + if os[|os| - 1].Produced? then [os[|os| - 1].feature] else []
  }

  /** The features among a series of operations of the signal engine. */
  function FeaturesTaken(ops: seq<SignalEngine.Op>): seq<Feature> {
    if ops == [] then []
    else FeaturesTaken(ops[..|ops| - 1]) + if ops[|ops| - 1].Take? then [ops[|ops| - 1].feature] else []
  }

  ghost predicate Linked(c: Windows, w: Whole) {
    && Sane(c, Machine(w.system.market, w.market))
    && SignalEngine.Tracks(c.symbols, w.system.signals, w.signals)
    && FeaturesTaken(w.signals.taken) == FeaturesOf(w.market.emitted)
  }

  lemma {:induction false} FeaturesSnoc(os: seq<Outcome>, o: Outcome, ops: seq<SignalEngine.Op>, op: SignalEngine.Op)
    ensures FeaturesOf(os + [o]) == FeaturesOf(os) + if o.Produced? then [o.feature] else []
    ensures FeaturesTaken(ops + [op]) == FeaturesTaken(ops) + if op.Take? then [op.feature] else []
  {
    assert (os + [o])[..|os|] == os && (ops + [op])[..|ops|] == ops;
  }

  // An engine that turns an event away holds no feature.
  lemma {:induction false} RejectingHoldsNothing(c: Windows, s: Engine, i: EngineIn, g: Ports)
    requires Sane(c, Machine(s, g)) && !Resets(c, s, i) && EngineTick(c, s, i).reject.pulse
    ensures !s.featureValid
  {
    hide Shaped, EngineTick, Replay, StageInv, BankOk;
    PulsePerRejection(c, s, i);
  }

  /** On every edge the signal engine takes a feature exactly when the market engine hands one over. */
  lemma {:induction false} HandoverAgrees(c: Windows, w: Whole, i: SystemIn)
    requires WellFormed(c, w.system) && Sane(c, Machine(w.system.market, w.market))
    ensures
      var s, e, f := w.system, MarketPort(w.system, i), SignalPort(w.system, i);
      var out := Emits(c, s.market, e, EngineTick(c, s.market, e));
      var taken := SignalEngine.NextPorts(s.signals, f, w.signals).taken;
      && |out| <= 1
      && (taken == w.signals.taken
          || (|taken| == |w.signals.taken| + 1 && taken == w.signals.taken + [taken[|w.signals.taken|]]))
      && (out != [] && out[0].Produced? ==> taken == w.signals.taken + [SignalEngine.Take(s.bank.cfg, out[0].feature)])
      && ((out == [] || !out[0].Produced?) && taken != w.signals.taken ==> taken[|w.signals.taken|].Clear?)
  {
    hide Shaped, EngineTick, Inv;
    var s, e := w.system, MarketPort(w.system, i);
    var next := EngineTick(c, s.market, e);
    assert !Resets(c, s.market, e) && next.reject.pulse ==> !s.market.featureValid by {
      if !Resets(c, s.market, e) && next.reject.pulse { RejectingHoldsNothing(c, s.market, e, w.market); }
    }
    assert w.signals.taken + [] == w.signals.taken;
  }

  lemma {:induction false} LinkedStep(c: Windows, width: nat, w: Whole, i: SystemIn)
    requires WellFormed(c, w.system) && Linked(c, w) && i.event.Widths()
    ensures Linked(c, WholeTick(c, width, w, i))
  {
    hide Shaped, EngineTick, Inv, Event.Widths, SignalEngine.SignalTick, SignalEngine.Replay, BankTick, Emits, Takes,
      SignalEngine.NextPorts, FeaturesOf, FeaturesTaken;
    var s, e, f := w.system, MarketPort(w.system, i), SignalPort(w.system, i);
    ClockedStaysSane(c, Machine(s.market, w.market), e);
    SignalEngine.TickTracks(c.symbols, s.signals, f, w.signals);
    HandoverAgrees(c, w, i);
    var out := Emits(c, s.market, e, EngineTick(c, s.market, e));
    var taken := SignalEngine.NextPorts(s.signals, f, w.signals).taken;
    assert w.market.emitted + [] == w.market.emitted;
    if out != [] {
      assert out == [out[0]];
      FeaturesSnoc(w.market.emitted, out[0], w.signals.taken, SignalEngine.Clear(0));
    }
    if taken != w.signals.taken { FeaturesSnoc([], Rejected(0, 0, 0), w.signals.taken, taken[|w.signals.taken|]); }
  }

  lemma {:induction false} RunStaysLinked(c: Windows, width: nat, w: Whole, ins: seq<SystemIn>)
    requires WellFormed(c, w.system) && Linked(c, w) && forall k :: 0 <= k < |ins| ==> ins[k].event.Widths()
    ensures Linked(c, RunWhole(c, width, w, ins))
    decreases |ins|
  {
    hide WellFormed, Linked, WholeTick, Event.Widths;
    if ins != [] {
      LinkedStep(c, width, w, ins[0]);
      RunStaysLinked(c, width, WholeTick(c, width, w, ins[0]), ins[1..]);
    }
  }

  lemma {:induction false} PowerUpIsLinked(c: Windows, bank: seq<Slot>)
    requires Buildable(c) && PoweredUp(c, bank)
    ensures WellFormed(c, PowerUpWhole(c, bank).system) && Linked(c, PowerUpWhole(c, bank))
  {
    hide Inv, Shaped;
    PowerUpIsSane(c, bank);
  }

  /**
    From reset, under every stream of events and commands and every stall of the record consumer: the features the
    signal engine has evaluated are exactly those of the market model's outcomes so far, in order, and the records
    delivered and held are exactly the strategy model's evaluations of them under the settings of the moment.
   */
  lemma {:induction false} SignalsAreModelled(c: Windows, width: nat, bank: seq<Slot>, ins: seq<SystemIn>)
    requires Buildable(c) && PoweredUp(c, bank) && forall k :: 0 <= k < |ins| ==> ins[k].event.Widths()
    ensures c.Valid() && WellFormed(c, PowerUpWhole(c, bank).system)
    ensures
      var w := RunWhole(c, width, PowerUpWhole(c, bank), ins);
      var outcomes := Replay(c, w.market.taken).outcomes;
      && |outcomes| - 1 <= |w.market.emitted| <= |outcomes| && w.market.emitted == outcomes[..|w.market.emitted|]
      && FeaturesTaken(w.signals.taken) == FeaturesOf(w.market.emitted)
      && SignalEngine.Replay(c.symbols, w.signals.taken).signals ==
           w.signals.delivered + if w.system.signals.valid then [w.system.signals.record] else []
  {
    hide Inv, Shaped, RunWhole, Event.Widths, Replay, SignalEngine.Replay, FeaturesOf, FeaturesTaken;
    BuildableIsValid(c);
    PowerUpIsLinked(c, bank);
    RunStaysLinked(c, width, PowerUpWhole(c, bank), ins);
    var w := RunWhole(c, width, PowerUpWhole(c, bank), ins);
    InvMeans(c, w.system.market, w.market);
  }
}
