// Dispatcher and loopback engine together: every packet taken leaves exactly once, under any stalls.
module PacketPath {
  import opened ProtocolDefs
  import opened Bits
  import opened Bytes
  import opened Crc8
  import opened HostProtocol
  import opened Dispatcher
  import opened Loopback
  import StrategyConfig

  type Frame = seq<byte>

  // ---- What should happen to a packet ----

  datatype Route =
    | Drop | ToEvent(event: MarketRecord) | ToControl(command: StrategyConfig.Command) | ToStatus(status: nat)

  /** Where a packet belongs, in terms of the host's own parser. */
  function RouteOf(symbols: nat, p: Frame): Route
    requires |p| == PACKET_BYTES
  {
    var r := Parse(p);
    if Filler(p) then Drop
    else match r.error
      case BadSync => ToStatus(STATUS_BAD_SYNC)
      case BadChecksum => ToStatus(STATUS_BAD_CHECKSUM)
      case NoError =>
        if r.packet.kind == MSG_LOOPBACK then ToStatus(STATUS_OK)
        else if r.packet.kind == MSG_MARKET_QUOTE || r.packet.kind == MSG_MARKET_TRADE then
          if r.packet.symbol < symbols then ToEvent(Dispatcher.RecordOf(r.packet)) else ToStatus(STATUS_BAD_SYMBOL)
        else if r.packet.kind == MSG_CONTROL then ToControl(CommandOf(r.packet))
        else ToStatus(STATUS_BAD_TYPE)
  }

  lemma {:induction false} ZeroBytes(n: nat)
    ensures forall k :: 0 <= k < n ==> PutBytes(0, n)[k] == 0
  {
    if n > 0 { ZeroBytes(n - 1); }
  }

  /** Only filler is dropped: 32 zero bytes. */
  lemma {:induction false} DropsOnlyZeros(symbols: nat, p: Frame)
    requires |p| == PACKET_BYTES
    ensures RouteOf(symbols, p).Drop? <==> forall k :: 0 <= k < PACKET_BYTES ==> p[k] == 0
  {
    hide *;
    FillerIsDropped(symbols, p);
    FillerIsZeros(p);
  }

  lemma {:induction false} FillerIsDropped(symbols: nat, p: Frame)
    requires |p| == PACKET_BYTES
    ensures RouteOf(symbols, p).Drop? <==> Filler(p)
    ensures RouteOf(symbols, p).Drop? <==> RouteOf(symbols, p) == Drop
  {
    hide Filler, Parse, Dispatcher.RecordOf, CommandOf;
  }

  lemma {:induction false} FillerIsZeros(p: Frame)
    requires |p| == PACKET_BYTES
    ensures Filler(p) <==> forall k :: 0 <= k < PACKET_BYTES ==> p[k] == 0
  {
    ZeroBytes(PACKET_BYTES);
    hide PutBytes;
    assert (forall k :: 0 <= k < PACKET_BYTES ==> p[k] == 0) ==> p == NoPacket;
  }

  /** The status response to a request: its base with the CRC of its first 31 bytes. */
  function Response(p: Frame, status: nat): (r: Frame)
    requires |p| == PACKET_BYTES
    ensures |r| == PACKET_BYTES
  {
    var base := ResponseBase(p, status, FlagsForStatus(status));
    base[31 := Crc(base[..31])]
  }

  datatype Outputs = Outputs(events: seq<MarketRecord>, controls: seq<StrategyConfig.Command>, responses: seq<Frame>)

  predicate WholePackets(ps: seq<Frame>) {
    forall k :: 0 <= k < |ps| ==> |ps[k]| == PACKET_BYTES
  }

  /**
    What a series of packets should produce when the configuration bank answers its control packets with
    `statuses`.
   */
  function Expected(symbols: nat, ps: seq<Frame>, statuses: seq<nat>): Outputs
    requires WholePackets(ps)
    decreases |ps|
  {
    if ps == [] then Outputs([], [], [])
    else Extended(symbols, Expected(symbols, ps[..|ps| - 1], statuses), ps[|ps| - 1], statuses)
  }

  function Extended(symbols: nat, o: Outputs, p: Frame, statuses: seq<nat>): Outputs
    requires |p| == PACKET_BYTES
  {
    match RouteOf(symbols, p)
    case Drop => o
    case ToEvent(e) => o.(events := o.events + [e])
    case ToControl(c) =>
      var answer := if |o.controls| < |statuses| then statuses[|o.controls|] else 0;
      o.(controls := o.controls + [c], responses := o.responses + [Response(p, answer)])
    case ToStatus(s) => o.(responses := o.responses + [Response(p, s)])
  }

  lemma {:induction false} ExpectedSnoc(symbols: nat, ps: seq<Frame>, p: Frame, statuses: seq<nat>)
    requires WholePackets(ps) && |p| == PACKET_BYTES
    ensures WholePackets(ps + [p])
    ensures Expected(symbols, ps + [p], statuses) == Extended(symbols, Expected(symbols, ps, statuses), p, statuses)
  {
    assert (ps + [p])[..|ps|] == ps;
  }

  // A later answer does not change what earlier packets produce.
  lemma {:induction false} LaterAnswer(symbols: nat, ps: seq<Frame>, statuses: seq<nat>, answer: nat)
    requires WholePackets(ps) && |Expected(symbols, ps, statuses).controls| <= |statuses|
    ensures Expected(symbols, ps, statuses + [answer]) == Expected(symbols, ps, statuses)
    decreases |ps|
  {
    hide RouteOf, Response;
    if ps != [] { LaterAnswer(symbols, ps[..|ps| - 1], statuses, answer); }
  }

  // ---- A CRC in progress ----

  ghost predicate CrcProgress(packet: Frame, index: nat, crc: Stream) {
    && |packet| == PACKET_BYTES && index <= 30
    && if crc.done then index == 30 && crc.result == Crc(packet[..31])
       else index > 0 ==> crc.crc == Crc(packet[..index])
  }

  lemma {:induction false} CrcAdvances(packet: Frame, index: nat, crc: Stream)
    requires CrcProgress(packet, index, crc)
    ensures
      var next := StreamTick(crc, Feed(true, crc.done, packet, index));
      if crc.done then !next.done else CrcProgress(packet, NextIndex(true, false, index), next)
  {
    hide ByteStep;
    if !crc.done {
      CrcSnoc(packet[..index], packet[index]);
      assert packet[..index] + [packet[index]] == packet[..index + 1];
      assert index == 0 ==> packet[..index] == [];
    }
  }

  lemma {:induction false} CrcRests(packet: Frame, index: nat, crc: Stream)
    requires index < |packet|
    ensures StreamTick(crc, Feed(false, crc.done, packet, index)) == Stream(crc.crc, crc.result, false)
  {
    hide ByteStep;
  }

  // ---- Dispatcher ----

  /** The status the loopback engine will give a request. */
  function LoopStatus(p: Frame, overrideValid: bool, override: nat): nat
    requires |p| == PACKET_BYTES
  {
    if overrideValid then override else OwnStatus(p, Crc(p[..31]))
  }

  predicate Holding(d: Dispatch, loopback: bool, event: bool, control: bool) {
    d.loopbackValid == loopback && d.eventValid == event && d.controlValid == control
  }

  /** The response a packet is owed once it is on its way to the loopback engine. */
  ghost predicate Owed(symbols: nat, d: Dispatch)
    requires |d.packet| == PACKET_BYTES
  {
    match RouteOf(symbols, d.packet)
    case ToStatus(s) => LoopStatus(d.packet, d.overrideValid, d.override) == s
    case ToControl(_) => d.overrideValid
    case _ => false
  }

  ghost predicate DispatchInv(symbols: nat, d: Dispatch) {
    && d.Shaped() && (!d.stage.Idle? ==> !Filler(d.packet))
    && (!d.stage.CrcPacket? ==> !d.crc.done)
    && match d.stage
       case Idle => Holding(d, false, false, false)
       case CrcPacket => Holding(d, false, false, false) && CrcProgress(d.packet, d.index, d.crc)
       case Classify => Holding(d, false, false, false) && d.crcResult == Crc(d.packet[..31])
       case RouteEvent => Holding(d, false, true, false) && RouteOf(symbols, d.packet) == ToEvent(d.event)
       case RouteControl => Holding(d, false, false, true) && RouteOf(symbols, d.packet) == ToControl(d.command)
       case RouteLoopback => Holding(d, true, false, false) && Owed(symbols, d)
  }

  // CLASSIFY sends each packet where it belongs.
  lemma {:induction false} ClassifiedIsRouted(symbols: nat, t: Dispatch)
    requires t.Shaped() && !Filler(t.packet) && t.crcResult == Crc(t.packet[..31]) && !t.crc.done
      && Holding(t, false, false, false)
    ensures
      var u := Classified(symbols, t);
      && DispatchInv(symbols, u) && u.packet == t.packet
      && (u.stage.RouteLoopback? ==> RouteOf(symbols, t.packet).ToStatus?)
      && (u.stage.RouteEvent? || u.stage.RouteControl? || u.stage.RouteLoopback?)
  {
    hide Crc, GetBytes, Filler, Value;
    OneByte(t.packet[0]);
    OneByte(t.packet[31]);
    ValueDetermines(t.packet[31], t.crcResult);
    assert t.packet[0..1] == [t.packet[0]] && t.packet[31..32] == [t.packet[31]];
  }

  /** An edge of the dispatcher, and what crosses its ports. */
  lemma {:induction false} DispatchStep(symbols: nat, s: Dispatch, i: DispatchIn)
    requires DispatchInv(symbols, s) && |i.packet| == PACKET_BYTES
    ensures
      var t := DispatchTick(symbols, s, i);
      && DispatchInv(symbols, t)
      && (s.stage.Idle? && i.packetValid && !Filler(i.packet) ==> t.stage.CrcPacket? && t.packet == i.packet)
      && (s.stage.Idle? && !(i.packetValid && !Filler(i.packet)) ==> t.stage.Idle?)
      && (!s.stage.Idle? && !t.stage.Idle? ==> t.packet == s.packet)
      && (!s.stage.Idle? ==>
            (t.stage.Idle? <==> (s.eventValid && i.eventReady) || (s.loopbackValid && i.loopbackReady)))
      && (t.stage.RouteLoopback? && RouteOf(symbols, t.packet).ToControl? ==>
            (s.stage.RouteControl? && i.controlReady && t.override == i.controlStatus)
            || (s.stage.RouteLoopback? && !i.loopbackReady && t.override == s.override))
      && (s.stage.RouteControl? && i.controlReady ==> t.stage.RouteLoopback?)
      && (s.stage.RouteLoopback? && !i.loopbackReady ==> t.stage.RouteLoopback?)
  {
    hide Classified, StreamTick, RouteOf, Crc, Filler;
    if s.stage.CrcPacket? {
      CrcAdvances(s.packet, s.index, s.crc);
    } else {
      CrcRests(s.packet, s.index, s.crc);
      var t :=
        s.(error := s.error.(pulse := false), crc := StreamTick(s.crc, Feed(false, s.crc.done, s.packet, s.index)));
      if s.stage.Classify? { ClassifiedIsRouted(symbols, t); }
    }
  }

  // ---- Loopback engine ----

  ghost predicate LoopInv(l: Loop) {
    && l.Shaped() && (l.responseValid <==> l.stage.OutputResponse?)
    && (!l.stage.CrcRequest? && !l.stage.CrcResponse? ==> !l.crc.done)
    && (match l.stage
        case LIdle => true
        case CrcRequest => CrcProgress(l.request, l.index, l.crc)
        case ValidateRequest => l.requestCrc == Crc(l.request[..31])
        case BuildResponse => Decided(l)
        case CrcResponse => Decided(l) && l.response == ResponseBase(l.request, l.status, l.flags)
          && CrcProgress(l.response, l.index, l.crc)
        case WriteResponse => Decided(l) && l.response == ResponseBase(l.request, l.status, l.flags)
          && l.responseCrc == Crc(l.response[..31])
        case OutputResponse => l.responsePacket == Answer(l))
  }

  predicate Decided(l: Loop)
    requires l.Shaped()
  {
    l.status == LoopStatus(l.request, l.overrideValid, l.override) && l.flags == FlagsForStatus(l.status)
  }

  /** The response the engine is working on. */
  function Answer(l: Loop): Frame
    requires l.Shaped()
  {
    Response(l.request, LoopStatus(l.request, l.overrideValid, l.override))
  }

  function Pending(l: Loop): seq<Frame>
    requires l.Shaped()
  {
    if l.stage.LIdle? then [] else [Answer(l)]
  }

  /** An edge of the loopback engine keeps the response it owes until the consumer takes exactly that. */
  lemma {:induction false} LoopStep(s: Loop, i: LoopIn)
    requires LoopInv(s) && |i.packet| == PACKET_BYTES
    ensures
      var t := LoopTick(s, i);
      && LoopInv(t)
      && Pending(t) ==
           (if s.stage.LIdle? && i.packetValid && !Filler(i.packet)
              then [Response(i.packet, LoopStatus(i.packet, i.overrideValid, i.override))]
            else if s.responseValid && i.responseReady then [] else Pending(s))
      && (s.responseValid ==> Pending(s) == [s.responsePacket])
  {
    hide StreamTick, Crc, Filler, OwnStatus, FlagsForStatus, ResponseBase;
    if s.stage.CrcRequest? {
      CrcAdvances(s.request, s.index, s.crc);
    } else if s.stage.CrcResponse? {
      CrcAdvances(s.response, s.index, s.crc);
    } else {
      CrcRests(s.response, s.index, s.crc);
    }
  }

  // ---- The two wired together ----

  datatype Path = Path(dispatch: Dispatch, loop: Loop)

  /** Arbitrary packets on offer and arbitrary stalls of the three consumers. */
  datatype PathIn = PathIn(packetValid: bool, packet: Frame, eventReady: bool, controlReady: bool, controlStatus: nat,
    responseReady: bool)
  {
    predicate Whole() {
      |packet| == PACKET_BYTES
    }
  }

  function ResetPath(): Path {
    Path(ResetDispatch(), ResetLoop())
  }

  function DispatchPort(s: Path, i: PathIn): DispatchIn {
    DispatchIn(i.packetValid, i.packet, s.loop.stage.LIdle?, i.eventReady, i.controlReady, i.controlStatus)
  }

  function LoopPort(s: Path, i: PathIn): LoopIn {
    LoopIn(s.dispatch.loopbackValid, s.dispatch.packet, s.dispatch.overrideValid, s.dispatch.override, i.responseReady)
  }

  function PathTick(symbols: nat, s: Path, i: PathIn): Path
    requires s.dispatch.Shaped() && s.loop.Shaped() && i.Whole()
  {
    Path(DispatchTick(symbols, s.dispatch, DispatchPort(s, i)), LoopTick(s.loop, LoopPort(s, i)))
  }

  /** What has crossed the ports: packets taken, events, control writes and their answers, and responses. */
  datatype Log = Log(taken: seq<Frame>, events: seq<MarketRecord>, controls: seq<StrategyConfig.Command>,
    statuses: seq<nat>, responses: seq<Frame>)

  const NoTraffic := Log([], [], [], [], [])

  function NextLog(s: Path, i: PathIn, g: Log): Log {
    var d := s.dispatch;
    Log(g.taken + (if d.stage.Idle? && i.packetValid then [i.packet] else []),
        g.events + (if d.eventValid && i.eventReady then [d.event] else []),
        g.controls + (if d.controlValid && i.controlReady then [d.command] else []),
        g.statuses + (if d.controlValid && i.controlReady then [i.controlStatus] else []),
        g.responses + (if s.loop.responseValid && i.responseReady then [s.loop.responsePacket] else []))
  }

  /** The packets the dispatcher is done with: all taken but the one it still holds. */
  function Routed(s: Path, g: Log): seq<Frame> {
    if s.dispatch.stage.Idle? || g.taken == [] then g.taken else g.taken[..|g.taken| - 1]
  }

  /** The packet in the dispatcher is a control packet already written to the configuration bank. */
  predicate Written(symbols: nat, d: Dispatch) {
    d.stage.RouteLoopback? && |d.packet| == PACKET_BYTES && RouteOf(symbols, d.packet).ToControl?
  }

  function CommandIn(symbols: nat, d: Dispatch): seq<StrategyConfig.Command> {
    if Written(symbols, d) then [RouteOf(symbols, d.packet).command] else []
  }

  ghost predicate Accounted(symbols: nat, s: Path, g: Log)
    requires WholePackets(g.taken) && s.loop.Shaped()
  {
    var e := Expected(symbols, Routed(s, g), g.statuses);
    && g.events == e.events
    && g.controls == e.controls + CommandIn(symbols, s.dispatch)
    && |g.statuses| == |g.controls|
    && (Written(symbols, s.dispatch) ==> g.statuses[|g.statuses| - 1] == s.dispatch.override)
    && e.responses == g.responses + Pending(s.loop)
  }

  ghost predicate PathInv(symbols: nat, s: Path, g: Log) {
    && s.dispatch.Shaped() && s.loop.Shaped() && DispatchInv(symbols, s.dispatch) && LoopInv(s.loop)
    && WholePackets(g.taken)
    && (!s.dispatch.stage.Idle? ==> g.taken != [] && g.taken[|g.taken| - 1] == s.dispatch.packet)
    && Accounted(symbols, s, g)
  }

  // ---- Accounting ----

  /** The response a transfer from the dispatcher to the loopback engine adds to what is owed. */
  function Transferred(s: Path): seq<Frame>
    requires s.dispatch.Shaped()
  {
    var d := s.dispatch;
    if s.loop.stage.LIdle? && d.loopbackValid
      then [Response(d.packet, LoopStatus(d.packet, d.overrideValid, d.override))] else []
  }

  // Responses sent and still owed grow by exactly what is transferred.
  lemma {:induction false} ResponsesBalance(symbols: nat, s: Path, i: PathIn, g: Log)
    requires DispatchInv(symbols, s.dispatch) && LoopInv(s.loop) && i.Whole()
    ensures
      var t := PathTick(symbols, s, i);
      && LoopInv(t.loop) && t.loop.Shaped()
      && NextLog(s, i, g).responses + Pending(t.loop) == g.responses + Pending(s.loop) + Transferred(s)
  {
    hide DispatchTick, LoopTick, Response, LoopStatus, Filler, CrcProgress, Crc, RouteOf, Owed;
    LoopStep(s.loop, LoopPort(s, i));
  }

  // A packet leaves the dispatcher: as an event, or into the loopback engine.
  lemma {:induction false} PacketLeaves(symbols: nat, s: Path, i: PathIn, g: Log)
    requires PathInv(symbols, s, g) && i.Whole() && !s.dispatch.stage.Idle?
    requires PathTick(symbols, s, i).dispatch.stage.Idle?
    ensures PathInv(symbols, PathTick(symbols, s, i), NextLog(s, i, g))
  {
    hide DispatchTick, LoopTick, Response, LoopStatus, Filler, CrcProgress, Crc, RouteOf, LoopInv;
    var t, g' := PathTick(symbols, s, i), NextLog(s, i, g);
    DispatchStep(symbols, s.dispatch, DispatchPort(s, i));
    ResponsesBalance(symbols, s, i, g);
    assert g'.taken == g.taken && g'.statuses == g.statuses && g'.controls == g.controls;
    assert Routed(t, g') == Routed(s, g) + [s.dispatch.packet];
    ExpectedSnoc(symbols, Routed(s, g), s.dispatch.packet, g.statuses);
    OverrideIsStatus(s.dispatch);
  }

  lemma {:induction false} OverrideIsStatus(d: Dispatch)
    requires d.Shaped()
    ensures d.overrideValid ==> LoopStatus(d.packet, d.overrideValid, d.override) == d.override
  {
  }

  // The configuration bank answers a control packet.
  lemma {:induction false} PacketAnswered(symbols: nat, s: Path, i: PathIn, g: Log)
    requires PathInv(symbols, s, g) && i.Whole() && s.dispatch.stage.RouteControl? && i.controlReady
    ensures PathInv(symbols, PathTick(symbols, s, i), NextLog(s, i, g))
  {
    hide DispatchTick, LoopTick, Response, LoopStatus, Filler, CrcProgress, Crc, RouteOf, LoopInv;
    var t, g' := PathTick(symbols, s, i), NextLog(s, i, g);
    DispatchStep(symbols, s.dispatch, DispatchPort(s, i));
    ResponsesBalance(symbols, s, i, g);
    LaterAnswer(symbols, Routed(s, g), g.statuses, i.controlStatus);
    assert g'.taken == g.taken && Routed(t, g') == Routed(s, g) && g'.events == g.events;
    assert Transferred(s) == [] && CommandIn(symbols, s.dispatch) == [];
    assert g'.statuses == g.statuses + [i.controlStatus] && CommandIn(symbols, t.dispatch) == [s.dispatch.command];
  }

  // A packet is on offer: filler is dropped on the spot, anything else enters the dispatcher.
  lemma {:induction false} PacketTaken(symbols: nat, s: Path, i: PathIn, g: Log)
    requires PathInv(symbols, s, g) && i.Whole() && s.dispatch.stage.Idle? && i.packetValid
    ensures PathInv(symbols, PathTick(symbols, s, i), NextLog(s, i, g))
  {
    hide DispatchTick, LoopTick, Response, LoopStatus, Filler, CrcProgress, Crc, RouteOf, LoopInv;
    var t, g' := PathTick(symbols, s, i), NextLog(s, i, g);
    DispatchStep(symbols, s.dispatch, DispatchPort(s, i));
    ResponsesBalance(symbols, s, i, g);
    assert Transferred(s) == [] && g'.taken == g.taken + [i.packet];
    assert g'.events == g.events && g'.statuses == g.statuses && g'.controls == g.controls;
    assert !Written(symbols, t.dispatch) && !Written(symbols, s.dispatch);
    if Filler(i.packet) {
      FillerIsDropped(symbols, i.packet);
      ExpectedSnoc(symbols, g.taken, i.packet, g.statuses);
      assert Routed(t, g') == g'.taken;
    } else {
      assert Routed(t, g') == g.taken;
    }
  }

  // No packet enters or leaves the dispatcher.
  lemma {:induction false} PacketStays(symbols: nat, s: Path, i: PathIn, g: Log)
    requires PathInv(symbols, s, g) && i.Whole() && !(s.dispatch.stage.RouteControl? && i.controlReady)
    requires if s.dispatch.stage.Idle? then !i.packetValid else !PathTick(symbols, s, i).dispatch.stage.Idle?
    ensures PathInv(symbols, PathTick(symbols, s, i), NextLog(s, i, g))
  {
    hide DispatchTick, LoopTick, Response, LoopStatus, Filler, CrcProgress, Crc, RouteOf, LoopInv;
    var t, g' := PathTick(symbols, s, i), NextLog(s, i, g);
    DispatchStep(symbols, s.dispatch, DispatchPort(s, i));
    ResponsesBalance(symbols, s, i, g);
    assert g'.taken == g.taken && Routed(t, g') == Routed(s, g);
    assert g'.events == g.events && g'.statuses == g.statuses && g'.controls == g.controls && Transferred(s) == [];
    assert Written(symbols, t.dispatch) == Written(symbols, s.dispatch);
  }

  lemma {:induction false} PathStep(symbols: nat, s: Path, i: PathIn, g: Log)
    requires PathInv(symbols, s, g) && i.Whole()
    ensures PathInv(symbols, PathTick(symbols, s, i), NextLog(s, i, g))
  {
    hide DispatchInv, LoopInv, Accounted, DispatchTick, LoopTick, NextLog;
    if s.dispatch.stage.Idle? && i.packetValid {
      PacketTaken(symbols, s, i, g);
    } else if !s.dispatch.stage.Idle? && PathTick(symbols, s, i).dispatch.stage.Idle? {
      PacketLeaves(symbols, s, i, g);
    } else if s.dispatch.stage.RouteControl? && i.controlReady {
      PacketAnswered(symbols, s, i, g);
    } else {
      PacketStays(symbols, s, i, g);
    }
  }

  // ---- Whole runs ----

  datatype Machine = Machine(path: Path, log: Log)

  function RunPath(symbols: nat, m: Machine, ins: seq<PathIn>): (r: Machine)
    requires m.path.dispatch.Shaped() && m.path.loop.Shaped() && forall k :: 0 <= k < |ins| ==> ins[k].Whole()
    decreases |ins|
  {
    if ins == [] then m
    else
      ShapeKept(symbols, m.path, ins[0]);
      RunPath(symbols, Machine(PathTick(symbols, m.path, ins[0]), NextLog(m.path, ins[0], m.log)), ins[1..])
  }

  lemma {:induction false} ClassifyKeepsShape(symbols: nat, t: Dispatch)
    requires t.Shaped()
    ensures Classified(symbols, t).Shaped()
  {
    hide Decode, Dispatcher.RecordOf, CommandOf;
  }

  lemma {:induction false} DispatchKeepsShape(symbols: nat, s: Dispatch, i: DispatchIn)
    requires s.Shaped() && |i.packet| == PACKET_BYTES
    ensures DispatchTick(symbols, s, i).Shaped()
  {
    hide StreamTick, Classified, Filler;
    ClassifyKeepsShape(symbols, s.(error := s.error.(pulse := false),
                                  crc := StreamTick(s.crc, Feed(s.stage == CrcPacket, s.crc.done, s.packet, s.index))));
  }

  lemma {:induction false} LoopKeepsShape(s: Loop, i: LoopIn)
    requires s.Shaped() && |i.packet| == PACKET_BYTES
    ensures LoopTick(s, i).Shaped()
  {
    hide StreamTick, Decode, OwnStatus, FlagsForStatus, Filler, ResponseBase;
  }

  lemma {:induction false} ShapeKept(symbols: nat, s: Path, i: PathIn)
    requires s.dispatch.Shaped() && s.loop.Shaped() && i.Whole()
    ensures PathTick(symbols, s, i).dispatch.Shaped() && PathTick(symbols, s, i).loop.Shaped()
  {
    hide DispatchTick, LoopTick;
    DispatchKeepsShape(symbols, s.dispatch, DispatchPort(s, i));
    LoopKeepsShape(s.loop, LoopPort(s, i));
  }

  lemma {:induction false} RunKeepsInv(symbols: nat, m: Machine, ins: seq<PathIn>)
    requires PathInv(symbols, m.path, m.log) && forall k :: 0 <= k < |ins| ==> ins[k].Whole()
    ensures var r := RunPath(symbols, m, ins); PathInv(symbols, r.path, r.log)
    decreases |ins|
  {
    hide DispatchInv, LoopInv, Accounted, PathTick, NextLog, PathIn.Whole;
    if ins != [] {
      PathStep(symbols, m.path, ins[0], m.log);
      RunKeepsInv(symbols, Machine(PathTick(symbols, m.path, ins[0]), NextLog(m.path, ins[0], m.log)), ins[1..]);
    }
  }

  lemma {:induction false} StartInv(symbols: nat)
    ensures PathInv(symbols, ResetPath(), NoTraffic)
  {
    hide Crc, RouteOf, Response, PutBytes;
  }

  /** `shorter` lacks at most the last of `all`. */
  predicate ShortByOne(shorter: seq<Frame>, all: seq<Frame>) {
    shorter == all || (all != [] && shorter == all[..|all| - 1])
  }

  /** The outputs so far are those expected of the packets the dispatcher is done with. */
  ghost predicate Delivered(symbols: nat, s: Path, g: Log)
    requires WholePackets(g.taken)
  {
    var e := Expected(symbols, Routed(s, g), g.statuses);
    && ShortByOne(Routed(s, g), g.taken)
    && g.events == e.events
    && g.controls == e.controls + CommandIn(symbols, s.dispatch)
    && ShortByOne(g.responses, e.responses)
    && (s.dispatch.stage.Idle? && s.loop.stage.LIdle? ==>
         Routed(s, g) == g.taken && Outputs(g.events, g.controls, g.responses) == e)
  }

  lemma {:induction false} InvDelivers(symbols: nat, s: Path, g: Log)
    requires PathInv(symbols, s, g)
    ensures Delivered(symbols, s, g)
  {
    hide DispatchInv, LoopInv, Expected, RouteOf, Answer;
  }

  /**
    For every stream of packets and every pattern of stalls: the packets the dispatcher is done with have left
    exactly once each and in order, as the event, or the control write and response, or the response they call
    for; short of the one response the loopback engine still owes and the one control write whose response is
    yet to start. At most the last packet taken is still in the dispatcher, and an idle path owes nothing.
   */
  lemma {:induction false} EveryPacketLeavesOnce(symbols: nat, ins: seq<PathIn>)
    requires forall k :: 0 <= k < |ins| ==> ins[k].Whole()
    ensures
      var r := RunPath(symbols, Machine(ResetPath(), NoTraffic), ins);
      WholePackets(r.log.taken) && Delivered(symbols, r.path, r.log)
  {
    hide RunPath, PathInv, Delivered;
    StartInv(symbols);
    RunKeepsInv(symbols, Machine(ResetPath(), NoTraffic), ins);
    var r := RunPath(symbols, Machine(ResetPath(), NoTraffic), ins);
    assert WholePackets(r.log.taken) by { InvWhole(symbols, r.path, r.log); }
    InvDelivers(symbols, r.path, r.log);
  }

  lemma {:induction false} InvWhole(symbols: nat, s: Path, g: Log)
    requires PathInv(symbols, s, g)
    ensures WholePackets(g.taken)
  {
    hide DispatchInv, LoopInv, Accounted, WholePackets;
  }

  // ---- The responses ----

  lemma {:induction false} HighByte(flags: nat)
    requires flags < 0x1_0000
    ensures [Low(High(flags)), Low(flags)] == PutBytes(flags, 2)
  {
    assert PutBytes(flags, 2) == PutBytes(High(flags), 1) + [Low(flags)];
    assert PutBytes(High(flags), 1) == [] + [Low(High(flags))];
  }

  lemma {:induction false} PutsOne(value: nat)
    ensures PutBytes(value, 1) == [Low(value)]
  {
    assert PutBytes(value, 1) == PutBytes(High(value), 0) + [Low(value)];
  }

  lemma {:induction false} ResponsePieces(p: Frame, status: nat, flags: nat)
    requires |p| == PACKET_BYTES
    ensures ResponseBase(p, status, flags)[..31] ==
      [Low(SYNC_VERSION)] + [Low(MSG_STATUS)] + p[2..4] + p[4..12] + p[12..20] + p[20..24] + [Low(status)] + p[25..29]
      + [Low(High(flags)), Low(flags)]
  {
    hide Low, High;
  }

  // The first 31 bytes of a response are the body of the status packet.
  lemma {:induction false} ResponseBody(p: Frame, status: nat, flags: nat)
    requires |p| == PACKET_BYTES && flags < 0x1_0000
    ensures ResponseBase(p, status, flags)[..31] ==
      Body(Decode(p).(sync := SYNC_VERSION, kind := MSG_STATUS, side := status, flags := flags, checksum := 0))
  {
    hide Low, High, PutBytes, GetBytes, ResponseBase;
    ResponsePieces(p, status, flags);
    PutGet(p[2..4]);
    PutGet(p[4..12]);
    PutGet(p[12..20]);
    PutGet(p[20..24]);
    PutGet(p[25..29]);
    HighByte(flags);
    PutsOne(SYNC_VERSION);
    PutsOne(MSG_STATUS);
    PutsOne(status);
  }

  /** For every status both sides define, the response is the host's own serialised status response to the request. */
  lemma {:induction false} ResponseIsHostResponse(p: Frame, status: nat)
    requires |p| == PACKET_BYTES && HostStatus(status)
    ensures Response(p, status) == Serialized(StatusResponse(Decode(p), status))
  {
    hide Decode, Body, Crc, ResponseBase;
    ResponseBody(p, status, HostFlags(status));
    assert FlagsForStatus(status) == HostFlags(status);
    var r := Response(p, status);
    assert r == r[..31] + [r[31]];
    assert r[..31] == ResponseBase(p, status, FlagsForStatus(status))[..31];
  }

  /** One flag per status: the first for success, flag `k` for error `0xE0 + k`, and the last for anything unknown. */
  lemma {:induction false} FlagsNameStatuses(status: nat)
    ensures FlagsForStatus(status) ==
      if status == 0x01 then Pow2(0) else if 0xE1 <= status <= 0xE9 then Pow2(status - 0xE0) else Pow2(15)
  {
    hide Pow2;
    Pow2Values();
    SmallPowers();
  }

  lemma {:induction false} SmallPowers()
    ensures Pow2(0) == 1 && Pow2(1) == 2 && Pow2(2) == 4 && Pow2(3) == 8 && Pow2(4) == 16 && Pow2(5) == 32
    ensures Pow2(6) == 64 && Pow2(7) == 128 && Pow2(9) == 512
  {
  }

  /**
    Whatever the status, the response is CRC-valid, and echoes the request's symbol, timestamp, data, quantity
    and sequence.
   */
  lemma {:induction false} ResponseParses(p: Frame, status: nat)
    requires |p| == PACKET_BYTES && status < 0x100
    ensures
      var r := Parse(Response(p, status));
      && r.error == NoError
      && r.packet ==
           Decode(p).(sync := SYNC_VERSION, kind := MSG_STATUS, side := status, flags := FlagsForStatus(status),
                                checksum := r.packet.checksum)
  {
    hide Decode, Body, Crc, ResponseBase, Pow2, Parse;
    var q :=
      Decode(p).(sync := SYNC_VERSION, kind := MSG_STATUS, side := status, flags := FlagsForStatus(status),
        checksum := 0);
    ResponseBody(p, status, FlagsForStatus(status));
    var r := Response(p, status);
    assert r[..31] == ResponseBase(p, status, FlagsForStatus(status))[..31];
    assert r == r[..31] + [r[31]];
    assert r == Serialized(q);
    DecodeThenBody(p);
    Pow2Values();
    SerializeThenParse(q);
  }
}
