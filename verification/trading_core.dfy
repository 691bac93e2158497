// The system-clock domain of the top level: packets in, status responses out, candidate records in between.
module TradingCore {
  import opened ProtocolDefs
  import opened MarketTypes
  import opened MarketEngine
  import opened MarketRefinement
  import opened StrategyConfig
  import opened SlotReset
  import opened EndToEnd
  import MarketRun
  import opened Normalizer
  import SignalEngine
  import H = HostProtocol
  import D = Dispatcher
  import Bits
  import C = Crc8
  import L = Loopback
  import P = PacketPath

  /** Dispatcher and loopback engine on one side, configuration bank and both engines on the other. */
  datatype Core = Core(path: P.Path, log: P.Log, whole: Whole)

  /** What the receive FIFO offers and whether the transmit FIFO has room. The record consumer is tied ready. */
  datatype CoreIn = CoreIn(packetValid: bool, packet: P.Frame, responseReady: bool)

  ghost predicate Built(c: Windows, k: Core) {
    k.path.dispatch.Shaped() && k.path.loop.Shaped() && WellFormed(c, k.whole.system)
  }

  /** The market engine ignores an event's timestamp and flags. */
  function EventOf(r: D.MarketRecord): Event {
    Event(r.kind, r.symbol, r.price, r.quantity, r.side, r.sequence)
  }

  function SystemPort(k: Core): SystemIn {
    var d := k.path.dispatch;
    SystemIn(d.controlValid, d.command, d.eventValid, EventOf(d.event), true)
  }

  function PathPort(k: Core, i: CoreIn): P.PathIn {
    var s, j := k.whole.system, SystemPort(k);
    P.PathIn(i.packetValid, i.packet, EventReady(s.market, MarketPort(s, j)), WriteReady(s.bank),
      Status(s.bank, j.command), i.responseReady)
  }

  ghost function CoreTick(c: Windows, width: nat, k: Core, i: CoreIn): (t: Core)
    requires Built(c, k) && |i.packet| == PACKET_BYTES
    ensures Built(c, t)
  {
    P.ShapeKept(c.symbols, k.path, PathPort(k, i));
    Core(P.PathTick(c.symbols, k.path, PathPort(k, i)), P.NextLog(k.path, PathPort(k, i), k.log),
         WholeTick(c, width, k.whole, SystemPort(k)))
  }

  ghost predicate Frames(ins: seq<CoreIn>) {
    forall n :: 0 <= n < |ins| ==> |ins[n].packet| == PACKET_BYTES
  }

  ghost function RunCore(c: Windows, width: nat, k: Core, ins: seq<CoreIn>): (t: Core)
    requires Built(c, k) && Frames(ins)
    ensures Built(c, t)
    decreases |ins|
  {
    hide CoreTick;
    if ins == [] then k else RunCore(c, width, CoreTick(c, width, k, ins[0]), ins[1..])
  }

  function PowerUpCore(c: Windows, bank: seq<Slot>): Core {
    Core(P.ResetPath(), P.NoTraffic, PowerUpWhole(c, bank))
  }

  // ---- What every edge keeps ----

  /** The events among a series of operations of the market engine. */
  function EventsTaken(ops: seq<Op>): seq<Event> {
    if ops == [] then []
    else EventsTaken(ops[..|ops| - 1]) + if ops[|ops| - 1].Take? then [ops[|ops| - 1].event] else []
  }

  function EventsOf(rs: seq<D.MarketRecord>): seq<Event> {
    if rs == [] then [] else EventsOf(rs[..|rs| - 1]) + [EventOf(rs[|rs| - 1])]
  }

  /** The dispatcher is idle, or at most `n` bytes into a packet that arrived since. */
  predicate JustHandedOver(d: D.Dispatch, n: nat) {
    d.stage.Idle? || (d.stage.CrcPacket? && d.index < n)
  }

  /** A serial dispatcher cannot bring a clear command before an event it handed over has been turned away. */
  predicate PulseFirst(k: Core) {
    var d, s := k.path.dispatch, k.whole.system;
    && (s.market.stage.ReadState? ==> !s.bank.pending && d.stage.Idle?)
    && (s.market.stage.CheckSeq? ==> !s.bank.pending && JustHandedOver(d, 1))
    && (s.market.reject.pulse ==> !s.bank.pending && JustHandedOver(d, 2))
  }

  /** A control packet is answered with success or a bad-control status, never with busy. */
  predicate FinalAnswers(statuses: seq<nat>) {
    forall n :: 0 <= n < |statuses| ==> statuses[n] == STATUS_OK || statuses[n] == STATUS_BAD_CONTROL
  }

  ghost predicate Joined(c: Windows, k: Core) {
    && P.PathInv(c.symbols, k.path, k.log) && WellFormed(c, k.whole.system) && Linked(c, k.whole)
    && EventsTaken(k.whole.market.taken) == EventsOf(k.log.events)
    && FinalAnswers(k.log.statuses)
    && EventOf(k.path.dispatch.event).Widths() && PulseFirst(k)
  }

  lemma {:induction false} EventsSnoc(ops: seq<Op>, op: Op, rs: seq<D.MarketRecord>, r: D.MarketRecord)
    ensures EventsTaken(ops + [op]) == EventsTaken(ops) + if op.Take? then [op.event] else []
    ensures EventsOf(rs + [r]) == EventsOf(rs) + [EventOf(r)]
  {
    assert (ops + [op])[..|ops|] == ops && (rs + [r])[..|rs|] == rs;
  }

  lemma {:induction false} ClassifiedEvent(symbols: nat, t: D.Dispatch)
    requires t.Shaped()
    ensures var e := D.Classified(symbols, t).event; e == t.event || e == D.RecordOf(H.Decode(t.packet))
  {
    hide H.Decode, D.RecordOf, D.CommandOf;
  }

  // The event register only ever holds fields of a packet.
  lemma {:induction false} EventRegister(symbols: nat, s: D.Dispatch, i: D.DispatchIn)
    requires s.Shaped() && |i.packet| == PACKET_BYTES && EventOf(s.event).Widths()
    ensures EventOf(D.DispatchTick(symbols, s, i).event).Widths()
  {
    hide C.StreamTick, D.Classified, Event.Widths, D.Filler, D.Feed, D.RecordOf, H.Decode, EventOf;
    PacketEventFits(s.packet);
    ClassifiedEvent(symbols, s.(error := s.error.(pulse := false),
                                crc := C.StreamTick(s.crc,
                                  D.Feed(s.stage == D.CrcPacket, s.crc.done, s.packet, s.index))));
  }

  lemma {:induction false} PacketEventFits(p: P.Frame)
    requires |p| == PACKET_BYTES
    ensures EventOf(D.RecordOf(H.Decode(p))).Widths()
  {
    H.DecodeThenBody(p);
    hide H.Decode, H.Body;
  }

  /**
    Each edge hands the market engine an event exactly when the dispatcher counts one as handed over, and the
    same one.
   */
  lemma {:induction false} SameHandshake(c: Windows, width: nat, k: Core, i: CoreIn)
    requires Built(c, k) && |i.packet| == PACKET_BYTES
    requires EventsTaken(k.whole.market.taken) == EventsOf(k.log.events)
    ensures
      var t := CoreTick(c, width, k, i);
      EventsTaken(t.whole.market.taken) == EventsOf(t.log.events)
  {
    hide P.PathTick, SystemTick, EngineTick, SignalEngine.NextPorts, Shaped, EventsTaken, EventsOf, MarketRun.Emits;
    var s, j := k.whole.system, SystemPort(k);
    var taken, events := k.whole.market.taken, k.log.events;
    var ops := MarketRun.Takes(c, s.market, MarketPort(s, j));
    assert taken + [] == taken && events + [] == events;
    if ops != [] {
      assert ops == [ops[0]];
      EventsSnoc(taken, ops[0], events, k.path.dispatch.event);
    }
  }

  lemma {:induction false} AnswersAreFinal(c: Windows, width: nat, k: Core, i: CoreIn)
    requires Built(c, k) && |i.packet| == PACKET_BYTES
    requires FinalAnswers(k.log.statuses)
    ensures FinalAnswers(CoreTick(c, width, k, i).log.statuses)
  {
    hide P.PathTick, WholeTick, Shaped, Status, EventReady;
    var s, j := k.whole.system, SystemPort(k);
    BusyNeverAtHandshake(s.bank, BankPort(s, j));
  }

  // How far the dispatcher can have come: one edge starts a packet or feeds one byte of it.
  lemma {:induction false} OneByteAtATime(symbols: nat, d: D.Dispatch, i: D.DispatchIn, n: nat)
    requires P.DispatchInv(symbols, d) && |i.packet| == PACKET_BYTES && JustHandedOver(d, n) && n < 30
    ensures JustHandedOver(D.DispatchTick(symbols, d, i), n + 1)
    ensures !d.controlValid
  {
    hide P.RouteOf, P.CrcProgress, D.Filler, D.Classified, P.Owed;
    assert d.stage.CrcPacket? ==> !d.crc.done by { if d.stage.CrcPacket? { NotYetDone(d); } }
  }

  lemma {:induction false} NotYetDone(d: D.Dispatch)
    requires P.CrcProgress(d.packet, d.index, d.crc) && d.index < 30
    ensures !d.crc.done
  {
  }

  // An event handed over leaves the dispatcher idle.
  lemma {:induction false} HandoverEmpties(symbols: nat, d: D.Dispatch, i: D.DispatchIn)
    requires P.DispatchInv(symbols, d) && |i.packet| == PACKET_BYTES && d.eventValid && i.eventReady
    ensures D.DispatchTick(symbols, d, i).stage.Idle? && !d.controlValid
  {
    hide P.RouteOf, P.CrcProgress, D.Filler, D.Classified, P.Owed;
  }

  // Where the market engine can go in one edge.
  lemma {:induction false} MarketMoves(c: Windows, s: Engine, i: EngineIn)
    requires Shaped(c, s)
    ensures
      var t := EngineTick(c, s, i);
      && (t.stage.ReadState? ==> s.stage.Idle? && i.eventValid && EventReady(s, i))
      && (t.stage.CheckSeq? ==> s.stage.ReadState?)
  {
    hide Shaped, NormTick, ApplyToWork, RawFeature, WrittenRings, MidpointCounted, Midpoint, Bits.Wrap;
  }

  lemma {:induction false} PulseStaysFirst(c: Windows, width: nat, k: Core, i: CoreIn)
    requires Built(c, k) && |i.packet| == PACKET_BYTES && P.DispatchInv(c.symbols, k.path.dispatch) && PulseFirst(k)
    ensures PulseFirst(CoreTick(c, width, k, i))
  {
    hide EngineTick, D.DispatchTick, P.DispatchInv, SignalEngine.SignalTick, Shaped, L.LoopTick,
      SignalEngine.NextPorts, MarketRun.NextPorts, JustHandedOver, Status;
    var s, j := k.whole.system, SystemPort(k);
    var d, e := k.path.dispatch, P.DispatchPort(k.path, PathPort(k, i));
    MarketMoves(c, s.market, MarketPort(s, j));
    MarketRun.PulsePerRejection(c, s.market, MarketPort(s, j));
    var t := CoreTick(c, width, k, i);
    if s.market.stage.Idle? && j.eventValid && EventReady(s.market, MarketPort(s, j)) {
      HandoverEmpties(c.symbols, d, e);
      IdleIsEarly(t.path.dispatch);
    }
    if s.market.stage.ReadState? { IdleIsEarly(d); OneByteAtATime(c.symbols, d, e, 0); }
    if s.market.stage.CheckSeq? { OneByteAtATime(c.symbols, d, e, 1); }
  }

  lemma {:induction false} IdleIsEarly(d: D.Dispatch)
    ensures d.stage.Idle? ==> forall n :: JustHandedOver(d, n)
  {
  }

  lemma {:induction false} JoinedStep(c: Windows, width: nat, k: Core, i: CoreIn)
    requires Joined(c, k) && |i.packet| == PACKET_BYTES
    ensures Built(c, k) && Joined(c, CoreTick(c, width, k, i))
  {
    hide Linked, WellFormed, WholeTick, P.PathTick, P.NextLog, P.DispatchInv, P.LoopInv, P.Accounted, PulseFirst,
      Event.Widths, EventsTaken, EventsOf, SystemPort, PathPort;
    PortWidths(k, i);
    P.PathStep(c.symbols, k.path, PathPort(k, i), k.log);
    LinkedStep(c, width, k.whole, SystemPort(k));
    SameHandshake(c, width, k, i);
    AnswersAreFinal(c, width, k, i);
    PulseStaysFirst(c, width, k, i);
    PathEventRegister(c.symbols, k.path, PathPort(k, i));
  }

  lemma {:induction false} PathEventRegister(symbols: nat, s: P.Path, i: P.PathIn)
    requires s.dispatch.Shaped() && s.loop.Shaped() && i.Whole() && EventOf(s.dispatch.event).Widths()
    ensures EventOf(P.PathTick(symbols, s, i).dispatch.event).Widths()
  {
    hide D.DispatchTick, L.LoopTick, Event.Widths;
    EventRegister(symbols, s.dispatch, P.DispatchPort(s, i));
  }

  lemma {:induction false} PortWidths(k: Core, i: CoreIn)
    ensures SystemPort(k).event == EventOf(k.path.dispatch.event) && PathPort(k, i).packet == i.packet
  {
  }

  // ---- Whole runs ----

  lemma {:induction false} RunStaysJoined(c: Windows, width: nat, k: Core, ins: seq<CoreIn>)
    requires Joined(c, k) && Built(c, k) && Frames(ins)
    ensures Joined(c, RunCore(c, width, k, ins))
    decreases |ins|
  {
    hide Joined, Built, CoreTick;
    if ins != [] {
      JoinedStep(c, width, k, ins[0]);
      RunStaysJoined(c, width, CoreTick(c, width, k, ins[0]), ins[1..]);
    }
  }

  lemma {:induction false} PowerUpIsJoined(c: Windows, bank: seq<Slot>)
    requires Buildable(c) && MarketRun.PoweredUp(c, bank)
    ensures Joined(c, PowerUpCore(c, bank)) && Built(c, PowerUpCore(c, bank))
  {
    hide *;
    PowerUpIsLinked(c, bank);
    P.StartInv(c.symbols);
    PowerUpParts(c, bank);
    JoinedFrom(c, PowerUpCore(c, bank));
  }

  lemma {:induction false} JoinedFrom(c: Windows, k: Core)
    requires P.PathInv(c.symbols, k.path, k.log) && WellFormed(c, k.whole.system) && Linked(c, k.whole)
    requires EventsTaken(k.whole.market.taken) == EventsOf(k.log.events) && FinalAnswers(k.log.statuses)
    requires EventOf(k.path.dispatch.event).Widths() && PulseFirst(k)
    ensures Joined(c, k) && Built(c, k)
  {
    hide P.DispatchInv, P.LoopInv, P.Accounted, WellFormed, Linked, EventsTaken, EventsOf, PulseFirst, Event.Widths;
  }

  lemma {:induction false} PowerUpParts(c: Windows, bank: seq<Slot>)
    ensures
      var k := PowerUpCore(c, bank);
      && k.path == P.ResetPath() && k.log == P.NoTraffic && k.whole == PowerUpWhole(c, bank)
      && EventsTaken(k.whole.market.taken) == EventsOf(k.log.events) && FinalAnswers(k.log.statuses)
      && EventOf(k.path.dispatch.event).Widths() && PulseFirst(k)
  {
    ZeroFits();
  }

  lemma {:induction false} ZeroFits()
    ensures NoEvent.Widths() && EventOf(D.ResetDispatch().event) == NoEvent
  {
  }

  /**
    Packets leave the path as they should; the events the market engine has taken are exactly those of the packets
    routed so far, in order; and the candidate records are the strategy model's evaluations of the market model's
    features for those events and the slot resets between them.
   */
  ghost predicate Faithful(c: Windows, k: Core)
    requires c.Valid()
  {
    var w, g := k.whole, k.log;
    var outcomes := Replay(c, w.market.taken).outcomes;
    && P.WholePackets(g.taken) && P.Delivered(c.symbols, k.path, g)
    && EventsTaken(w.market.taken) == EventsOf(P.Expected(c.symbols, P.Routed(k.path, g), g.statuses).events)
    && |outcomes| - 1 <= |w.market.emitted| <= |outcomes| && w.market.emitted == outcomes[..|w.market.emitted|]
    && FeaturesTaken(w.signals.taken) == FeaturesOf(w.market.emitted)
    && SignalEngine.Replay(c.symbols, w.signals.taken).signals ==
         w.signals.delivered + (if w.system.signals.valid then [w.system.signals.record] else [])
  }

  lemma {:induction false} JoinedIsFaithful(c: Windows, k: Core)
    requires c.Valid() && Joined(c, k)
    ensures Faithful(c, k) && FinalAnswers(k.log.statuses)
  {
    hide P.PathInv, P.Expected, MarketRun.Inv, Shaped, Replay, SignalEngine.Replay, FeaturesOf, FeaturesTaken,
      EventsTaken, EventsOf, PulseFirst, Event.Widths, WellFormed;
    P.InvWhole(c.symbols, k.path, k.log);
    P.InvDelivers(c.symbols, k.path, k.log);
    MarketRun.InvMeans(c, k.whole.system.market, k.whole.market);
  }

  /**
    From reset, for every stream of packets and every stall of the response FIFO, the core is faithful to both
    models.
   */
  lemma {:induction false} PacketsBecomeSignals(c: Windows, width: nat, bank: seq<Slot>, ins: seq<CoreIn>)
    requires Buildable(c) && MarketRun.PoweredUp(c, bank) && Frames(ins)
    ensures c.Valid() && Built(c, PowerUpCore(c, bank))
    ensures
      var k := RunCore(c, width, PowerUpCore(c, bank), ins);
      Faithful(c, k) && FinalAnswers(k.log.statuses)
  {
    hide RunCore, Built, Joined, Faithful;
    MarketRun.BuildableIsValid(c);
    PowerUpIsJoined(c, bank);
    RunStaysJoined(c, width, PowerUpCore(c, bank), ins);
    JoinedIsFaithful(c, RunCore(c, width, PowerUpCore(c, bank), ins));
  }

  // ---- The reject counter ----

  function CountRejected(os: seq<Outcome>): nat {
    if os == [] then 0 else CountRejected(os[..|os| - 1]) + if os[|os| - 1].Produced? then 0 else 1
  }

  function Pulse(k: Core): nat {
    if k.whole.system.market.reject.pulse then 1 else 0
  }

  /** The top level's reject counter: it counts the edges that find the pulse high. */
  ghost function PulsesCounted(c: Windows, width: nat, k: Core, ins: seq<CoreIn>): nat
    requires Built(c, k) && Frames(ins)
    decreases |ins|
  {
    hide CoreTick, Pulse;
    if ins == [] then 0 else Pulse(k) + PulsesCounted(c, width, CoreTick(c, width, k, ins[0]), ins[1..])
  }

  /** Wired to the dispatcher and the bank, the pulse is high exactly on the edge after one that turns an event away. */
  lemma {:induction false} PulseIsExact(c: Windows, width: nat, k: Core, i: CoreIn)
    requires Built(c, k) && Joined(c, k) && |i.packet| == PACKET_BYTES
    ensures
      var e, t := MarketPort(k.whole.system, SystemPort(k)), CoreTick(c, width, k, i);
      && (Pulse(t) == 1 <==> MarketRun.TurnsAway(c, k.whole.system.market, e))
      && CountRejected(t.whole.market.emitted) == CountRejected(k.whole.market.emitted) + Pulse(t)
  {
    hide EngineTick, P.PathTick, P.PathInv, Linked, Shaped, SignalEngine.SignalTick, SignalEngine.NextPorts, BankTick,
      EventsTaken, EventsOf, CountRejected;
    var s, e := k.whole.system.market, MarketPort(k.whole.system, SystemPort(k));
    MarketRun.PulsePerRejection(c, s, e);
    var before, out := k.whole.market.emitted, MarketRun.Emits(c, s, e, EngineTick(c, s, e));
    assert before + [] == before;
    if out != [] { assert out == [out[0]]; RejectedSnoc(before, out[0]); }
  }

  lemma {:induction false} RejectedSnoc(os: seq<Outcome>, o: Outcome)
    ensures CountRejected(os + [o]) == CountRejected(os) + if o.Produced? then 0 else 1
  {
    assert (os + [o])[..|os|] == os;
  }

  lemma {:induction false} CounterFollows(c: Windows, width: nat, k: Core, ins: seq<CoreIn>)
    requires Built(c, k) && Joined(c, k) && Frames(ins)
    ensures
      var t := RunCore(c, width, k, ins);
      CountRejected(t.whole.market.emitted) + Pulse(k) ==
        CountRejected(k.whole.market.emitted) + PulsesCounted(c, width, k, ins) + Pulse(t)
    decreases |ins|
  {
    hide Built, Joined, CoreTick, Pulse, CountRejected;
    if ins != [] {
      PulseIsExact(c, width, k, ins[0]);
      JoinedStep(c, width, k, ins[0]);
      CounterFollows(c, width, CoreTick(c, width, k, ins[0]), ins[1..]);
    }
  }

  /**
    From reset, in the wired system, the reject counter is the number of rejections emitted, which are the model's,
    short of one whose pulse is still high: no pulse is lost or counted twice.
   */
  lemma {:induction false} CounterCountsRejections(c: Windows, width: nat, bank: seq<Slot>, ins: seq<CoreIn>)
    requires Buildable(c) && MarketRun.PoweredUp(c, bank) && Frames(ins)
    ensures Built(c, PowerUpCore(c, bank))
    ensures
      var k := RunCore(c, width, PowerUpCore(c, bank), ins);
      PulsesCounted(c, width, PowerUpCore(c, bank), ins) + Pulse(k) == CountRejected(k.whole.market.emitted)
  {
    hide Built, Joined, CoreTick, RunCore, PulsesCounted;
    PowerUpIsJoined(c, bank);
    CounterFollows(c, width, PowerUpCore(c, bank), ins);
  }
}
