// With its consumers ready, the packet path empties in bounded time: nothing that was taken stays inside.
module PacketDrain {
  import opened ProtocolDefs
  import opened Crc8
  import opened Dispatcher
  import opened Loopback
  import opened PacketPath

  /** Edges a CRC over the packet still takes. */
  function CrcLeft(index: nat, done: bool): nat {
    if done || index > 30 then 0 else 31 - index
  }

  function DispatchLeft(d: Dispatch): nat {
    match d.stage
    case Idle => 0
    case RouteEvent => 1
    case RouteLoopback => 1
    case RouteControl => 2
    case Classify => 3
    case CrcPacket => 4 + CrcLeft(d.index, d.crc.done)
  }

  function LoopLeft(l: Loop): nat {
    match l.stage
    case LIdle => 0
    case OutputResponse => 1
    case WriteResponse => 2
    case CrcResponse => 3 + CrcLeft(l.index, l.crc.done)
    case BuildResponse => 35
    case ValidateRequest => 36
    case CrcRequest => 37 + CrcLeft(l.index, l.crc.done)
  }

  /** Every edge spends one; handing a request over spends one of the dispatcher's for all of the loopback engine's. */
  function WorkLeft(s: Path): nat {
    DispatchLeft(s.dispatch) * 100 + LoopLeft(s.loop)
  }

  lemma {:induction false} CrcSpends(packet: Frame, index: nat, crc: Stream)
    requires |packet| == PACKET_BYTES && index <= 30 && (crc.done ==> index == 30)
    ensures
      var next := StreamTick(crc, Feed(true, crc.done, packet, index));
      !crc.done ==> CrcLeft(NextIndex(true, false, index), next.done) < CrcLeft(index, crc.done)
  {
    hide ByteStep;
  }

  lemma {:induction false} DispatchSpends(symbols: nat, s: Dispatch, i: DispatchIn)
    requires DispatchInv(symbols, s) && |i.packet| == PACKET_BYTES && !i.packetValid && i.eventReady && i.controlReady
    ensures
      var t := DispatchTick(symbols, s, i);
      && (s.stage.Idle? ==> t.stage.Idle?)
      && (s.stage.RouteLoopback? && !i.loopbackReady ==> DispatchLeft(t) == DispatchLeft(s))
      && (!s.stage.Idle? && !(s.stage.RouteLoopback? && !i.loopbackReady) ==> DispatchLeft(t) < DispatchLeft(s))
  {
    hide StreamTick, RouteOf, Crc, Filler, Classified, CrcLeft, Owed;
    DispatchStep(symbols, s, i);
    if s.stage.CrcPacket? { CrcSpends(s.packet, s.index, s.crc); }
    if s.stage.Classify? {
      var t :=
        s.(error := s.error.(pulse := false), crc := StreamTick(s.crc, Feed(false, s.crc.done, s.packet, s.index)));
      CrcRests(s.packet, s.index, s.crc);
      ClassifiedIsRouted(symbols, t);
    }
  }

  lemma {:induction false} LoopSpends(s: Loop, i: LoopIn)
    requires LoopInv(s) && |i.packet| == PACKET_BYTES && i.responseReady
    ensures
      var t := LoopTick(s, i);
      if s.stage.LIdle? then LoopLeft(t) <= 68 && (!i.packetValid ==> t.stage.LIdle?) else LoopLeft(t) < LoopLeft(s)
  {
    hide StreamTick, Crc, Filler, OwnStatus, FlagsForStatus, ResponseBase, Response, LoopStatus;
    if s.stage.CrcRequest? {
      CrcSpends(s.request, s.index, s.crc);
    } else if s.stage.CrcResponse? {
      CrcSpends(s.response, s.index, s.crc);
    } else {
      CrcRests(s.response, s.index, s.crc);
    }
  }

  /** Nothing offered, every consumer ready. */
  predicate Ready(i: PathIn) {
    !i.packetValid && i.eventReady && i.controlReady && i.responseReady
  }

  predicate AllWhole(ins: seq<PathIn>) {
    forall k :: 0 <= k < |ins| ==> ins[k].Whole()
  }

  predicate AllReady(ins: seq<PathIn>) {
    forall k :: 0 <= k < |ins| ==> Ready(ins[k])
  }

  /**
    Unless the path is idle already, an edge with nothing offered and every consumer ready leaves strictly less
    to do.
   */
  lemma {:induction false} EdgeSpends(symbols: nat, s: Path, i: PathIn)
    requires DispatchInv(symbols, s.dispatch) && LoopInv(s.loop) && i.Whole() && Ready(i)
    ensures s.dispatch.Shaped() && s.loop.Shaped()
    ensures WorkLeft(PathTick(symbols, s, i)) < WorkLeft(s) || WorkLeft(PathTick(symbols, s, i)) == WorkLeft(s) == 0
  {
    hide DispatchTick, LoopTick, CrcProgress, Owed, Decided, Answer, Crc;
    DispatchSpends(symbols, s.dispatch, DispatchPort(s, i));
    LoopSpends(s.loop, LoopPort(s, i));
  }

  lemma {:induction false} NoWorkIsIdle(s: Path)
    ensures WorkLeft(s) == 0 <==> s.dispatch.stage.Idle? && s.loop.stage.LIdle?
  {
  }

  lemma {:induction false} Drains(symbols: nat, m: Machine, ins: seq<PathIn>)
    requires PathInv(symbols, m.path, m.log) && AllWhole(ins) && AllReady(ins) && |ins| >= WorkLeft(m.path)
    ensures WorkLeft(RunPath(symbols, m, ins).path) == 0 && RunPath(symbols, m, ins).log.taken == m.log.taken
    decreases |ins|
  {
    hide DispatchInv, LoopInv, Accounted, PathTick, WorkLeft;
    if ins != [] {
      EdgeSpends(symbols, m.path, ins[0]);
      PathStep(symbols, m.path, ins[0], m.log);
      assert m.log.taken + [] == m.log.taken;
      Drains(symbols, Machine(PathTick(symbols, m.path, ins[0]), NextLog(m.path, ins[0], m.log)), ins[1..]);
    }
  }

  /**
    After any run, once no more packets are offered and every consumer stays ready, the path is idle after as many
    edges as it has work left, at most 3568, and then everything ever taken has left as it should.
   */
  lemma {:induction false} EverythingLeaves(symbols: nat, ins: seq<PathIn>, quiet: seq<PathIn>)
    requires AllWhole(ins) && AllWhole(quiet) && AllReady(quiet) && |quiet| >= 3568
    ensures
      var m := RunPath(symbols, Machine(ResetPath(), NoTraffic), ins);
      && m.path.dispatch.Shaped() && m.path.loop.Shaped()
      && var g := RunPath(symbols, m, quiet).log;
        && g.taken == m.log.taken && WholePackets(g.taken)
        && Outputs(g.events, g.controls, g.responses) == Expected(symbols, g.taken, g.statuses)
  {
    hide RunPath, PathInv, WorkLeft, Expected, Ready;
    StartInv(symbols);
    RunKeepsInv(symbols, Machine(ResetPath(), NoTraffic), ins);
    var m := RunPath(symbols, Machine(ResetPath(), NoTraffic), ins);
    InvShape(symbols, m.path, m.log);
    Drains(symbols, m, quiet);
    RunKeepsInv(symbols, m, quiet);
    var r := RunPath(symbols, m, quiet);
    NoWorkIsIdle(r.path);
    InvWhole(symbols, r.path, r.log);
    InvDelivers(symbols, r.path, r.log);
  }

  lemma {:induction false} InvShape(symbols: nat, s: Path, g: Log)
    requires PathInv(symbols, s, g)
    ensures s.dispatch.Shaped() && s.loop.Shaped() && WorkLeft(s) <= 3568
  {
    hide DispatchInv, LoopInv, Accounted;
  }
}
