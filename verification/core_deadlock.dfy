// Two valid packets that stop the core for good: a first trade, and a clear command right behind it.
module CoreDeadlock {
  import opened ProtocolDefs
  import opened MarketTypes
  import opened MarketEngine
  import opened MarketRefinement
  import opened StrategyConfig
  import opened SlotReset
  import opened EndToEnd
  import opened SlotResetReach
  import opened TradingCore
  import M = MarketModel
  import MarketRun
  import SignalEngine
  import C = Crc8
  import H = HostProtocol
  import D = Dispatcher
  import L = Loopback
  import N = Normalizer
  import P = PacketPath
  import PacketDrain
  import HostView

  predicate FirstTrade(symbols: nat, p: P.Frame) {
    && |p| == PACKET_BYTES && P.RouteOf(symbols, p).ToEvent?
    && var e := P.RouteOf(symbols, p).event;
      e.kind == MSG_MARKET_TRADE && e.symbol < symbols && e.side <= 1 && e.quantity > 0
  }

  predicate ClearCommand(symbols: nat, p: P.Frame) {
    && |p| == PACKET_BYTES && P.RouteOf(symbols, p).ToControl?
    && P.RouteOf(symbols, p).command.code == CONTROL_CLEAR_SYMBOL_STATE
    && P.RouteOf(symbols, p).command.symbol < symbols
  }

  /** Every such packet the host serialises will do. */
  lemma {:induction false} HostPacketsQualify(symbols: nat, p: H.Packet)
    requires p.Widths() && p.sync == SYNC_VERSION && p.symbol < symbols
    ensures p.kind == MSG_MARKET_TRADE && p.side <= 1 && p.quantity > 0 ==> FirstTrade(symbols, H.Serialized(p))
    ensures p.kind == MSG_CONTROL && p.side == CONTROL_CLEAR_SYMBOL_STATE ==> ClearCommand(symbols, H.Serialized(p))
  {
    hide H.Serialized, P.RouteOf, H.Packet.Widths;
    HostView.HostRoute(symbols, p);
  }

  function Offer(p: P.Frame): CoreIn {
    CoreIn(true, p, true)
  }

  function Nothing(): (i: CoreIn)
    ensures |i.packet| == PACKET_BYTES
  {
    CoreIn(false, D.NoPacket, true)
  }

  function Nothings(n: nat): (ins: seq<CoreIn>)
    ensures |ins| == n && forall k :: 0 <= k < n ==> ins[k] == Nothing()
  {
    if n == 0 then [] else [Nothing()] + Nothings(n - 1)
  }

  predicate Checking(d: D.Dispatch, p: P.Frame) {
    (d.stage.CrcPacket? || d.stage.Classify?) && d.packet == p
  }

  // A packet being checked is one edge nearer to where it is routed.
  lemma {:induction false} CheckAdvances(symbols: nat, d: D.Dispatch, i: D.DispatchIn)
    requires P.DispatchInv(symbols, d) && |i.packet| == PACKET_BYTES && (d.stage.CrcPacket? || d.stage.Classify?)
    requires P.RouteOf(symbols, d.packet).ToEvent? || P.RouteOf(symbols, d.packet).ToControl?
    ensures
      var t := D.DispatchTick(symbols, d, i);
      && !d.eventValid && !d.controlValid
      && PacketDrain.DispatchLeft(t) < PacketDrain.DispatchLeft(d) <= 35
      && t.packet == d.packet
      && (Checking(t, d.packet) || Routing(symbols, t, d.packet))
  {
    hide C.StreamTick, P.RouteOf, C.Crc, D.Filler, D.Classified, PacketDrain.CrcLeft;
    P.DispatchStep(symbols, d, i);
    if d.stage.CrcPacket? {
      PacketDrain.CrcSpends(d.packet, d.index, d.crc);
    } else {
      P.CrcRests(d.packet, d.index, d.crc);
      P.ClassifiedIsRouted(symbols, d.(error := d.error.(pulse := false),
                                      crc := C.StreamTick(d.crc, D.Feed(false, d.crc.done, d.packet, d.index))));
    }
    CrcLeftBound(d.index, d.crc.done);
  }

  lemma {:induction false} CrcLeftBound(index: nat, done: bool)
    ensures PacketDrain.CrcLeft(index, done) <= 31
  {
  }

  lemma {:induction false} RunCoreSplit(c: Windows, width: nat, k: Core, a: seq<CoreIn>, b: seq<CoreIn>)
    requires Built(c, k) && Frames(a) && Frames(b)
    ensures RunCore(c, width, k, a + b) == RunCore(c, width, RunCore(c, width, k, a), b)
    decreases |a|
  {
    hide Built, CoreTick;
    if a == [] {
      assert a + b == b;
    } else {
      assert (a + b)[0] == a[0] && (a + b)[1..] == a[1..] + b;
      RunCoreSplit(c, width, CoreTick(c, width, k, a[0]), a[1..], b);
    }
  }

  lemma {:induction false} NothingsStep(c: Windows, width: nat, k: Core, n: nat)
    requires Built(c, k)
    ensures Frames(Nothings(n)) && Frames(Nothings(n + 1))
    ensures RunCore(c, width, k, Nothings(0)) == k
    ensures RunCore(c, width, k, Nothings(n + 1)) == RunCore(c, width, CoreTick(c, width, k, Nothing()), Nothings(n))
  {
    NothingsFit(n);
    hide *;
    RunNone(c, width, k);
    RunOne(c, width, k, Nothing());
    RunCoreSplit(c, width, k, [Nothing()], Nothings(n));
  }

  lemma {:induction false} NothingsFit(n: nat)
    ensures Frames(Nothings(n)) && Frames(Nothings(n + 1)) && Nothings(n + 1) == [Nothing()] + Nothings(n)
    ensures Nothings(0) == []
  {
  }

  lemma {:induction false} RunNone(c: Windows, width: nat, k: Core)
    requires Built(c, k)
    ensures Frames([]) && RunCore(c, width, k, []) == k
  {
    hide Built, CoreTick;
  }

  // With nothing on offer, an edge checks the packet held and takes none.
  lemma {:induction false} CoreChecks(c: Windows, width: nat, k: Core, p: P.Frame)
    requires Built(c, k) && P.DispatchInv(c.symbols, k.path.dispatch) && Checking(k.path.dispatch, p)
    requires P.RouteOf(c.symbols, p).ToEvent? || P.RouteOf(c.symbols, p).ToControl?
    ensures
      var t := CoreTick(c, width, k, Nothing());
      && t.log.taken == k.log.taken && !k.path.dispatch.eventValid && !k.path.dispatch.controlValid
      && PacketDrain.DispatchLeft(t.path.dispatch) < PacketDrain.DispatchLeft(k.path.dispatch) <= 35
      && (Checking(t.path.dispatch, p) || Routing(c.symbols, t.path.dispatch, p))
  {
    hide P.RouteOf, PacketDrain.DispatchLeft, Built, WholeTick, D.DispatchTick, L.LoopTick, P.DispatchInv, EventReady,
      Status, EventOf;
    CheckAdvances(c.symbols, k.path.dispatch, P.DispatchPort(k.path, PathPort(k, Nothing())));
    assert k.log.taken + [] == k.log.taken;
  }

  /** The packet has been checked and is on the port its type calls for. */
  ghost predicate Routing(symbols: nat, d: D.Dispatch, p: P.Frame)
    requires |p| == PACKET_BYTES
  {
    match P.RouteOf(symbols, p)
    case ToEvent(e) => d.eventValid && d.event == e
    case ToControl(command) => d.controlValid && d.command == command
    case _ => false
  }

  /** Nothing has reached the engines or the bank. */
  ghost predicate Untouched(c: Windows, k: Core) {
    && Built(c, k) && Joined(c, k)
    && k.whole.system.market.stage.Idle? && k.whole.market.taken == [] && k.whole.system.bank == ResetBank(c.symbols)
  }

  lemma {:induction false} UntouchedIs(c: Windows, k: Core)
    requires Built(c, k) && Joined(c, k)
    requires k.whole.system.market.stage.Idle? && k.whole.market.taken == []
      && k.whole.system.bank == ResetBank(c.symbols)
    ensures Untouched(c, k)
  {
  }

  lemma {:induction false} StaysUntouched(c: Windows, width: nat, k: Core, i: CoreIn)
    requires Untouched(c, k) && |i.packet| == PACKET_BYTES && !k.path.dispatch.eventValid
      && !k.path.dispatch.controlValid
    ensures Untouched(c, CoreTick(c, width, k, i))
  {
    JoinedStep(c, width, k, i);
    hide Joined, Shaped, P.PathTick, SignalEngine.SignalTick, SignalEngine.NextPorts, Event.Widths;
    assert k.whole.market.taken + [] == k.whole.market.taken;
    StaysIdle(c, k.whole.system.market, MarketPort(k.whole.system, SystemPort(k)));
    hide EngineTick;
  }

  lemma {:induction false} StaysIdle(c: Windows, s: Engine, i: EngineIn)
    requires Shaped(c, s) && s.stage.Idle? && !i.eventValid && !i.resetValid
    ensures EngineTick(c, s, i).stage.Idle?
  {
    hide Shaped, N.NormTick;
  }

  // The first packet is checked while everything behind the dispatcher rests.
  lemma {:induction false} ReachesEvent(c: Windows, width: nat, k: Core, p: P.Frame) returns (n: nat)
    requires Untouched(c, k) && FirstTrade(c.symbols, p) && Checking(k.path.dispatch, p)
    ensures Frames(Nothings(n))
    ensures
      var t := RunCore(c, width, k, Nothings(n));
      && Untouched(c, t) && t.log.taken == k.log.taken
      && Routing(c.symbols, t.path.dispatch, p)
    decreases PacketDrain.DispatchLeft(k.path.dispatch)
  {
    hide *;
    StaysUntouchedHere(c, width, k, p);
    var t := CoreTick(c, width, k, Nothing());
    UntouchedInv(c, t);
    if Checking(t.path.dispatch, p) {
      var m := ReachesEvent(c, width, t, p);
      NothingsStep(c, width, k, m);
      n := m + 1;
    } else {
      NothingsStep(c, width, k, 0);
      NothingsStep(c, width, t, 0);
      n := 1;
    }
  }

  lemma {:induction false} UntouchedInv(c: Windows, k: Core)
    requires Untouched(c, k)
    ensures Built(c, k) && P.DispatchInv(c.symbols, k.path.dispatch)
  {
  }

  lemma {:induction false} StaysUntouchedHere(c: Windows, width: nat, k: Core, p: P.Frame)
    requires Untouched(c, k) && FirstTrade(c.symbols, p) && Checking(k.path.dispatch, p)
    ensures Built(c, k)
    ensures
      var t := CoreTick(c, width, k, Nothing());
      && Untouched(c, t) && t.log.taken == k.log.taken
      && PacketDrain.DispatchLeft(t.path.dispatch) < PacketDrain.DispatchLeft(k.path.dispatch)
      && (Checking(t.path.dispatch, p) || Routing(c.symbols, t.path.dispatch, p))
  {
    hide *;
    UntouchedInv(c, k);
    IsTrade(c.symbols, p);
    CoreChecks(c, width, k, p);
    StaysUntouched(c, width, k, Nothing());
  }

  lemma {:induction false} IsTrade(symbols: nat, p: P.Frame)
    requires FirstTrade(symbols, p)
    ensures |p| == PACKET_BYTES && P.RouteOf(symbols, p).ToEvent? && Offer(p).packet == p
  {
  }

  lemma {:induction false} IsClear(symbols: nat, p: P.Frame)
    requires ClearCommand(symbols, p)
    ensures |p| == PACKET_BYTES && P.RouteOf(symbols, p).ToControl? && Offer(p).packet == p
  {
  }

  // ---- The event is handed over ----

  /** The bank is as it was reset, and an accepted event is `left` edges from being offered as a feature. */
  ghost predicate Working(c: Windows, k: Core, left: nat) {
    && Built(c, k) && Joined(c, k) && k.whole.system.bank == ResetBank(c.symbols)
    && MarketRun.Counting(c, k.whole.system.market, k.whole.market, left)
  }

  lemma {:induction false} FreshAccepts(c: Windows, w: Whole, i: SystemIn)
    requires c.Valid() && WellFormed(c, w.system) && Linked(c, w) && w.market.taken == []
    requires w.system.market.stage.Idle? && !w.system.bank.pending && i.eventValid && !i.commandValid
    requires i.event.kind == MSG_MARKET_TRADE && i.event.symbol < c.symbols && i.event.side <= 1
    ensures MarketRun.Accepting(c, MachineOf(w), MarketPort(w.system, i))
    ensures EventReady(w.system.market, MarketPort(w.system, i))
    ensures forall width: nat :: WholeTick(c, width, w, i).system.bank == w.system.bank
  {
    MarketRun.IdleHoldsNothing(c, w.system.market, w.market);
    assert Replay(c, []).symbols[i.event.symbol] == M.FreshSymbol(c);
    hide EngineTick, SignalEngine.SignalTick, SignalEngine.NextPorts, MarketRun.NextPorts, MarketRun.Inv, Shaped;
  }

  lemma {:induction false} LinkedInv(c: Windows, w: Whole)
    requires Linked(c, w)
    ensures MarketRun.Inv(c, w.system.market, w.market)
  {
    hide MarketRun.Inv;
  }

  lemma {:induction false} WholeWorks(c: Windows, width: nat, w: Whole, i: SystemIn)
    requires c.Valid() && WellFormed(c, w.system) && Linked(c, w) && i.event.Widths()
    requires w.market.taken == [] && i.event.kind == MSG_MARKET_TRADE && i.event.symbol < c.symbols
      && i.event.quantity > 0
    requires MarketRun.Accepting(c, MachineOf(w), MarketPort(w.system, i))
    ensures
      var t := WholeTick(c, width, w, i);
      && Linked(c, t)
      && exists left: nat :: left >= 85 && MarketRun.Counting(c, t.system.market, t.market, left)
  {
    LinkedStep(c, width, w, i);
    WholeIsClocked(c, width, w, i);
    FirstTradeIsSlow(c, MachineOf(w), i.event);
    MarketRun.AcceptStartsCount(c, MachineOf(w), MarketPort(w.system, i));
    hide WholeTick, MarketRun.Accepting, MarketRun.Clocked, MarketRun.Counting, MarketRun.Inv, MarketRun.Latency,
      Shaped;
  }

  ghost predicate EventOffered(c: Windows, k: Core, p: P.Frame) {
    Untouched(c, k) && FirstTrade(c.symbols, p) && Routing(c.symbols, k.path.dispatch, p)
  }

  lemma {:induction false} OfferedFacts(c: Windows, k: Core, p: P.Frame)
    requires EventOffered(c, k, p)
    ensures Built(c, k) && Joined(c, k) && c.Valid() && WellFormed(c, k.whole.system) && Linked(c, k.whole)
      && k.whole.market.taken == []
    ensures P.DispatchInv(c.symbols, k.path.dispatch) && k.path.dispatch.stage.RouteEvent?
      && k.path.dispatch.eventValid && !k.path.dispatch.controlValid
    ensures k.whole.system.market.stage.Idle? && k.whole.system.bank == ResetBank(c.symbols)
      && !k.whole.system.bank.pending
    ensures
      var e := SystemPort(k).event;
      && e.kind == MSG_MARKET_TRADE && e.symbol < c.symbols && e.side <= 1 && e.quantity > 0 && e.Widths()
      && SystemPort(k).eventValid && !SystemPort(k).commandValid
  {
    hide P.RouteOf, Event.Widths, Linked;
  }

  lemma {:induction false} EventHandedOver(c: Windows, width: nat, k: Core, p: P.Frame) returns (left: nat)
    requires EventOffered(c, k, p)
    ensures Built(c, k) && left >= 85
    ensures
      var t := CoreTick(c, width, k, Nothing());
      Working(c, t, left) && t.path.dispatch.stage.Idle? && t.log.taken == k.log.taken
  {
    hide *;
    OfferedFacts(c, k, p);
    JoinedStep(c, width, k, Nothing());
    FreshAccepts(c, k.whole, SystemPort(k));
    WholeWorks(c, width, k.whole, SystemPort(k));
    HandoverTick(c, width, k);
    LinkedInv(c, WholeTick(c, width, k.whole, SystemPort(k)));
    var w := WholeTick(c, width, k.whole, SystemPort(k));
    left :| left >= 85 && MarketRun.Counting(c, w.system.market, w.market, left);
    WorkingIs(c, CoreTick(c, width, k, Nothing()), left);
  }

  lemma {:induction false} WorkingIs(c: Windows, k: Core, left: nat)
    requires Built(c, k) && Joined(c, k) && k.whole.system.bank == ResetBank(c.symbols)
    requires MarketRun.Inv(c, k.whole.system.market, k.whole.market)
    requires MarketRun.Counting(c, k.whole.system.market, k.whole.market, left)
    ensures Working(c, k, left)
  {
  }

  lemma {:induction false} WorkingParts(c: Windows, k: Core, left: nat)
    requires Working(c, k, left)
    ensures Built(c, k) && Joined(c, k) && k.whole.system.bank == ResetBank(c.symbols) && SystemPort(k).event.Widths()
    ensures MarketRun.Sane(c, MachineOf(k.whole)) && WellFormed(c, k.whole.system)
      && P.DispatchInv(c.symbols, k.path.dispatch)
    ensures MarketRun.Counting(c, k.whole.system.market, k.whole.market, left)
  {
    hide MarketRun.Inv, Event.Widths, MarketRun.Counting;
  }

  lemma {:induction false} HandoverTick(c: Windows, width: nat, k: Core)
    requires Built(c, k) && P.DispatchInv(c.symbols, k.path.dispatch) && k.path.dispatch.stage.RouteEvent?
      && k.path.dispatch.eventValid
    requires EventReady(k.whole.system.market, MarketPort(k.whole.system, SystemPort(k)))
    ensures
      var t := CoreTick(c, width, k, Nothing());
      && t.path.dispatch.stage.Idle? && t.log.taken == k.log.taken
      && t.whole == WholeTick(c, width, k.whole, SystemPort(k))
  {
    hide D.DispatchTick, WholeTick, L.LoopTick, WellFormed, P.RouteOf, P.DispatchInv, EventReady, Status, EventOf;
    HandoverEmpties(c.symbols, k.path.dispatch, P.DispatchPort(k.path, PathPort(k, Nothing())));
    assert k.log.taken + [] == k.log.taken;
  }

  lemma {:induction false} CountsDown(c: Windows, width: nat, k: Core, i: CoreIn, left: nat)
    requires Working(c, k, left) && left > 0 && |i.packet| == PACKET_BYTES && !k.path.dispatch.controlValid
    ensures Built(c, k) && Working(c, CoreTick(c, width, k, i), left - 1)
  {
    hide *;
    WorkingParts(c, k, left);
    JoinedStep(c, width, k, i);
    WholeCounts(c, width, k.whole, SystemPort(k), left);
    QuietCommand(c, width, k, i);
    WorkingIs(c, CoreTick(c, width, k, i), left - 1);
  }

  lemma {:induction false} QuietCommand(c: Windows, width: nat, k: Core, i: CoreIn)
    requires Built(c, k) && |i.packet| == PACKET_BYTES && !k.path.dispatch.controlValid
      && k.whole.system.bank == ResetBank(c.symbols)
    ensures CoreTick(c, width, k, i).whole.system.bank == ResetBank(c.symbols)
    ensures CoreTick(c, width, k, i).whole == WholeTick(c, width, k.whole, SystemPort(k))
  {
    hide EngineTick, SignalEngine.SignalTick, P.PathTick, Shaped, SignalEngine.NextPorts, MarketRun.NextPorts;
  }

  // ---- The clear command arrives while the event is in flight ----

  /** The command is one edge nearer to its port. */
  ghost predicate Nearer(c: Windows, k: Core, t: Core, p: P.Frame, left: nat)
    requires |p| == PACKET_BYTES
  {
    hide Working, P.RouteOf;
    && Working(c, t, left) && t.log.taken == k.log.taken
    && PacketDrain.DispatchLeft(t.path.dispatch) < PacketDrain.DispatchLeft(k.path.dispatch) <= 35
    && (Checking(t.path.dispatch, p) || Routing(c.symbols, t.path.dispatch, p))
  }

  lemma {:induction false} NearerMeans(c: Windows, k: Core, t: Core, p: P.Frame, left: nat)
    requires |p| == PACKET_BYTES
    ensures Nearer(c, k, t, p, left) <==>
      && Working(c, t, left) && t.log.taken == k.log.taken
      && PacketDrain.DispatchLeft(t.path.dispatch) < PacketDrain.DispatchLeft(k.path.dispatch) <= 35
      && (Checking(t.path.dispatch, p) || Routing(c.symbols, t.path.dispatch, p))
  {
    hide Working, P.RouteOf, Checking, Routing, PacketDrain.DispatchLeft;
  }

  lemma {:induction false} CheckStep(c: Windows, width: nat, k: Core, p: P.Frame, left: nat)
    requires Working(c, k, left) && left > 0 && ClearCommand(c.symbols, p) && Checking(k.path.dispatch, p)
    ensures Built(c, k)
    ensures Nearer(c, k, CoreTick(c, width, k, Nothing()), p, left - 1)
  {
    hide *;
    WorkingParts(c, k, left);
    IsClear(c.symbols, p);
    CoreChecks(c, width, k, p);
    CountsDown(c, width, k, Nothing(), left);
    NearerMeans(c, k, CoreTick(c, width, k, Nothing()), p, left - 1);
  }

  /** The command is on the control port with the event still in flight. */
  ghost predicate AtPort(c: Windows, k: Core, t: Core, p: P.Frame, left: nat)
    requires |p| == PACKET_BYTES
  {
    hide Working, P.RouteOf;
    Working(c, t, left) && t.log.taken == k.log.taken && Routing(c.symbols, t.path.dispatch, p)
  }

  lemma {:induction false} AtPortMeans(c: Windows, k: Core, t: Core, p: P.Frame, left: nat)
    requires |p| == PACKET_BYTES
    ensures AtPort(c, k, t, p, left) <==>
      Working(c, t, left) && t.log.taken == k.log.taken && Routing(c.symbols, t.path.dispatch, p)
  {
    hide Working, P.RouteOf, Routing;
  }

  lemma {:induction false} ReachesControl(c: Windows, width: nat, k: Core, p: P.Frame, left: nat) returns (n: nat)
    requires Working(c, k, left) && ClearCommand(c.symbols, p) && Checking(k.path.dispatch, p)
    requires left > PacketDrain.DispatchLeft(k.path.dispatch)
    ensures Frames(Nothings(n)) && n < left && Built(c, k)
    ensures AtPort(c, k, RunCore(c, width, k, Nothings(n)), p, left - n)
    decreases PacketDrain.DispatchLeft(k.path.dispatch)
  {
    hide *;
    CheckStep(c, width, k, p, left);
    IsClear(c.symbols, p);
    NearerMeans(c, k, CoreTick(c, width, k, Nothing()), p, left - 1);
    var t := CoreTick(c, width, k, Nothing());
    WorkingParts(c, t, left - 1);
    if Checking(t.path.dispatch, p) {
      var m := ReachesControl(c, width, t, p, left - 1);
      NothingsStep(c, width, k, m);
      AtPortMeans(c, t, RunCore(c, width, t, Nothings(m)), p, left - 1 - m);
      n := m + 1;
    } else {
      NothingsStep(c, width, k, 0);
      NothingsStep(c, width, t, 0);
      n := 1;
    }
    AtPortMeans(c, k, RunCore(c, width, k, Nothings(n)), p, left - n);
  }

  /** A slot reset pends and the market engine will not yield: no event, feature or command moves again. */
  ghost predicate Dead(c: Windows, k: Core) {
    Built(c, k) && k.whole.system.bank.pending && Orderly(k.whole.system.market) && !WillYield(c, k.whole.system.market)
  }

  lemma {:induction false} ClearWritten(c: Windows, width: nat, k: Core, p: P.Frame, left: nat)
    requires Working(c, k, left) && left > 0 && ClearCommand(c.symbols, p) && Routing(c.symbols, k.path.dispatch, p)
    ensures Built(c, k)
    ensures
      var t := CoreTick(c, width, k, Nothing());
      Dead(c, t) && t.log.taken == k.log.taken
  {
    hide *;
    WorkingParts(c, k, left);
    ClearRouted(c.symbols, k.path.dispatch, p);
    CommandPends(c, width, k);
    JoinedStep(c, width, k, Nothing());
    WholeCounts(c, width, k.whole, SystemPort(k), left);
    DeadIs(c, CoreTick(c, width, k, Nothing()), left - 1);
  }

  lemma {:induction false} WholeCounts(c: Windows, width: nat, w: Whole, i: SystemIn, left: nat)
    requires WellFormed(c, w.system) && MarketRun.Sane(c, MachineOf(w)) && i.event.Widths() && left > 0
    requires MarketRun.Counting(c, w.system.market, w.market, left)
    ensures
      var t := WholeTick(c, width, w, i);
      MarketRun.Inv(c, t.system.market, t.market) && MarketRun.Counting(c, t.system.market, t.market, left - 1)
  {
    hide MarketRun.Inv, Shaped, WholeTick, MarketRun.Clocked, MarketRun.Counting, Event.Widths;
    WholeIsClocked(c, width, w, i);
    MarketRun.CountStep(c, MachineOf(w), MarketPort(w.system, i), left);
  }

  lemma {:induction false} ClearRouted(symbols: nat, d: D.Dispatch, p: P.Frame)
    requires ClearCommand(symbols, p) && Routing(symbols, d, p)
    ensures d.controlValid && d.command.code == CONTROL_CLEAR_SYMBOL_STATE && d.command.symbol < symbols
  {
    hide P.RouteOf;
  }

  lemma {:induction false} DeadIs(c: Windows, k: Core, left: nat)
    requires Built(c, k) && MarketRun.Inv(c, k.whole.system.market, k.whole.market) && k.whole.system.bank.pending
    requires MarketRun.Counting(c, k.whole.system.market, k.whole.market, left)
    ensures Dead(c, k)
  {
    SaneIsOrderly(c, k.whole.system.market, k.whole.market);
    WorkingNeverYields(c, k.whole.system.market, k.whole.market, left);
  }

  lemma {:induction false} CommandPends(c: Windows, width: nat, k: Core)
    requires Built(c, k) && k.whole.system.bank == ResetBank(c.symbols) && P.DispatchInv(c.symbols, k.path.dispatch)
    requires k.path.dispatch.controlValid
    requires k.path.dispatch.command.code == CONTROL_CLEAR_SYMBOL_STATE && k.path.dispatch.command.symbol < c.symbols
    ensures
      var t := CoreTick(c, width, k, Nothing());
      && t.whole.system.bank.pending && t.log.taken == k.log.taken
      && t.whole == WholeTick(c, width, k.whole, SystemPort(k))
  {
    hide EngineTick, SignalEngine.SignalTick, P.PathTick, Shaped, SignalEngine.NextPorts, MarketRun.NextPorts,
      P.RouteOf;
    assert k.log.taken + [] == k.log.taken;
  }

  lemma {:induction false} DeadStep(c: Windows, width: nat, k: Core, i: CoreIn)
    requires Dead(c, k) && |i.packet| == PACKET_BYTES
    ensures Built(c, k)
    ensures
      var t := CoreTick(c, width, k, i);
      Dead(c, t) && t.log.events == k.log.events && t.log.controls == k.log.controls
  {
    StuckStep(c, width, k.whole.system, SystemPort(k));
    PendingBlocks(c, k.whole.system, SystemPort(k));
    hide EngineTick, SignalEngine.SignalTick, P.PathTick, Shaped, WillYield, Orderly, MarketRun.NextPorts;
    assert k.log.events + [] == k.log.events && k.log.controls + [] == k.log.controls;
  }

  lemma {:induction false} DeadForever(c: Windows, width: nat, k: Core, later: seq<CoreIn>)
    requires Dead(c, k) && Frames(later)
    ensures Built(c, k)
    ensures
      var t := RunCore(c, width, k, later);
      Dead(c, t) && t.log.events == k.log.events && t.log.controls == k.log.controls
    decreases |later|
  {
    hide Dead, Built, CoreTick;
    if later == [] {
      DeadIsBuilt(c, k);
    } else {
      DeadStep(c, width, k, later[0]);
      DeadForever(c, width, CoreTick(c, width, k, later[0]), later[1..]);
    }
  }

  lemma {:induction false} DeadIsBuilt(c: Windows, k: Core)
    requires Dead(c, k)
    ensures Built(c, k)
  {
  }

  // ---- The whole story ----

  lemma {:induction false} IdleTakes(symbols: nat, d: D.Dispatch, i: D.DispatchIn)
    requires P.DispatchInv(symbols, d) && d.stage.Idle? && |i.packet| == PACKET_BYTES && i.packetValid
    requires P.RouteOf(symbols, i.packet) != P.Drop
    ensures
      var t := D.DispatchTick(symbols, d, i);
      && t.stage.CrcPacket? && t.packet == i.packet && PacketDrain.DispatchLeft(t) <= 35 && !d.eventValid
      && !d.controlValid
  {
    if D.Filler(i.packet) { P.FillerIsDropped(symbols, i.packet); }
    hide P.RouteOf, D.Filler, PacketDrain.CrcLeft, C.StreamTick, P.CrcProgress;
    var t := D.DispatchTick(symbols, d, i);
    CrcLeftBound(t.index, t.crc.done);
  }

  // An idle dispatcher takes the packet on offer.
  lemma {:induction false} TakesOffer(c: Windows, width: nat, k: Core, p: P.Frame)
    requires Built(c, k) && P.DispatchInv(c.symbols, k.path.dispatch) && k.path.dispatch.stage.Idle?
      && |p| == PACKET_BYTES
    requires P.RouteOf(c.symbols, p) != P.Drop
    ensures
      var t := CoreTick(c, width, k, Offer(p));
      && t.path.dispatch.stage.CrcPacket? && t.path.dispatch.packet == p && t.log.taken == k.log.taken + [p]
      && PacketDrain.DispatchLeft(t.path.dispatch) <= 35 && !k.path.dispatch.eventValid && !k.path.dispatch.controlValid
  {
    hide P.RouteOf, Built, WholeTick, D.DispatchTick, L.LoopTick, P.DispatchInv, EventReady, Status, EventOf,
      PacketDrain.DispatchLeft, D.Filler;
    IdleTakes(c.symbols, k.path.dispatch, P.DispatchPort(k.path, PathPort(k, Offer(p))));
  }

  lemma {:induction false} RunOne(c: Windows, width: nat, k: Core, i: CoreIn)
    requires Built(c, k) && |i.packet| == PACKET_BYTES
    ensures Frames([i]) && RunCore(c, width, k, [i]) == CoreTick(c, width, k, i)
  {
    hide Built, CoreTick;
    assert [i][1..] == [];
  }

  lemma {:induction false} TradeHandedOver(c: Windows, width: nat, k: Core, a: P.Frame)
    returns (ins: seq<CoreIn>, left: nat)
    requires Untouched(c, k) && FirstTrade(c.symbols, a) && k.path.dispatch.stage.Idle?
    ensures Built(c, k) && Frames(ins) && left >= 85
    ensures
      var t := RunCore(c, width, k, ins);
      Working(c, t, left) && t.path.dispatch.stage.Idle? && t.log.taken == k.log.taken + [a]
  {
    hide *;
    IsTrade(c.symbols, a);
    UntouchedInv(c, k);
    TakesOffer(c, width, k, a);
    StaysUntouched(c, width, k, Offer(a));
    var k1 := CoreTick(c, width, k, Offer(a));
    IsChecking(k1.path.dispatch, a);
    var n := ReachesEvent(c, width, k1, a);
    var k2 := RunCore(c, width, k1, Nothings(n));
    IsOffered(c, k2, a);
    left := EventHandedOver(c, width, k2, a);
    RunOne(c, width, k, Offer(a));
    RunOne(c, width, k2, Nothing());
    UntouchedInv(c, k1);
    RunCoreSplit(c, width, k1, Nothings(n), [Nothing()]);
    AppendFrames(Nothings(n), [Nothing()]);
    RunCoreSplit(c, width, k, [Offer(a)], Nothings(n) + [Nothing()]);
    AppendFrames([Offer(a)], Nothings(n) + [Nothing()]);
    ins := [Offer(a)] + (Nothings(n) + [Nothing()]);
  }

  lemma {:induction false} ClearStrikes(c: Windows, width: nat, k: Core, b: P.Frame, left: nat)
    returns (ins: seq<CoreIn>)
    requires Working(c, k, left) && left >= 85 && ClearCommand(c.symbols, b) && k.path.dispatch.stage.Idle?
    ensures Built(c, k) && Frames(ins)
    ensures
      var t := RunCore(c, width, k, ins);
      Dead(c, t) && t.log.taken == k.log.taken + [b]
  {
    hide *;
    IsClear(c.symbols, b);
    WorkingParts(c, k, left);
    TakesOffer(c, width, k, b);
    CountsDown(c, width, k, Offer(b), left);
    var k1 := CoreTick(c, width, k, Offer(b));
    IsChecking(k1.path.dispatch, b);
    var n := ReachesControl(c, width, k1, b, left - 1);
    var k2 := RunCore(c, width, k1, Nothings(n));
    AtPortMeans(c, k1, k2, b, left - 1 - n);
    ClearWritten(c, width, k2, b, left - 1 - n);
    RunOne(c, width, k, Offer(b));
    RunOne(c, width, k2, Nothing());
    RunCoreSplit(c, width, k1, Nothings(n), [Nothing()]);
    AppendFrames(Nothings(n), [Nothing()]);
    RunCoreSplit(c, width, k, [Offer(b)], Nothings(n) + [Nothing()]);
    AppendFrames([Offer(b)], Nothings(n) + [Nothing()]);
    ins := [Offer(b)] + (Nothings(n) + [Nothing()]);
  }

  lemma {:induction false} AppendFrames(a: seq<CoreIn>, b: seq<CoreIn>)
    requires Frames(a) && Frames(b)
    ensures Frames(a + b)
  {
  }

  lemma {:induction false} IsChecking(d: D.Dispatch, p: P.Frame)
    requires d.stage.CrcPacket? && d.packet == p
    ensures Checking(d, p)
  {
  }

  lemma {:induction false} IsOffered(c: Windows, k: Core, p: P.Frame)
    requires Untouched(c, k) && FirstTrade(c.symbols, p) && Routing(c.symbols, k.path.dispatch, p)
    ensures EventOffered(c, k, p)
  {
  }

  /**
    From here on no event or command crosses the dispatcher's ports again, and the reset request pends, on any
    input.
   */
  ghost predicate Hung(c: Windows, width: nat, k: Core)
    requires Built(c, k)
  {
    hide RunCore;
    forall later :: Frames(later) ==> HungAfter(c, width, k, later)
  }

  ghost predicate HungAfter(c: Windows, width: nat, k: Core, later: seq<CoreIn>)
    requires Built(c, k) && Frames(later)
  {
    hide CoreTick;
    var t := RunCore(c, width, k, later);
    t.whole.system.bank.pending && t.log.events == k.log.events && t.log.controls == k.log.controls
  }

  /**
    From power-up, any two valid packets of which the first is a trade with a quantity and the second clears a
    symbol: there is a run that takes just these two and hangs the core for good.
   */
  lemma {:induction false} ClearBehindTradeHangs(c: Windows, width: nat, bank: seq<Slot>, a: P.Frame, b: P.Frame)
    returns (ins: seq<CoreIn>)
    requires Buildable(c) && MarketRun.PoweredUp(c, bank) && FirstTrade(c.symbols, a) && ClearCommand(c.symbols, b)
    ensures Built(c, PowerUpCore(c, bank)) && Frames(ins)
    ensures
      var k := RunCore(c, width, PowerUpCore(c, bank), ins);
      k.log.taken == [a, b] && Hung(c, width, k)
  {
    hide *;
    PowerUpIsJoined(c, bank);
    PowerUpIsIdle(c, bank);
    var k0 := PowerUpCore(c, bank);
    UntouchedIs(c, k0);
    var front, left := TradeHandedOver(c, width, k0, a);
    var k1 := RunCore(c, width, k0, front);
    var back := ClearStrikes(c, width, k1, b, left);
    RunCoreSplit(c, width, k0, front, back);
    AppendFrames(front, back);
    ins := front + back;
    assert [] + [a] + [b] == [a, b];
    DeadHangs(c, width, RunCore(c, width, k1, back));
  }

  lemma {:induction false} PowerUpIsIdle(c: Windows, bank: seq<Slot>)
    ensures
      var k := PowerUpCore(c, bank);
      && k.path.dispatch.stage.Idle? && k.log.taken == [] && k.whole.market.taken == []
      && k.whole.system.market.stage.Idle? && k.whole.system.bank == ResetBank(c.symbols)
  {
  }

  lemma {:induction false} DeadHangs(c: Windows, width: nat, k: Core)
    requires Dead(c, k)
    ensures Built(c, k) && Hung(c, width, k)
  {
    DeadIsBuilt(c, k);
    hide RunCore, Dead, Built, CoreTick;
    forall later | Frames(later) ensures HungAfter(c, width, k, later) {
      DeadForever(c, width, k, later);
      DeadPends(c, RunCore(c, width, k, later));
    }
  }

  lemma {:induction false} DeadPends(c: Windows, k: Core)
    requires Dead(c, k)
    ensures k.whole.system.bank.pending
  {
  }
}
