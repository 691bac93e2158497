// The packet dispatcher: takes a packet, checks its CRC a byte at a time, and routes it.
module Dispatcher {
  import opened ProtocolDefs
  import opened Bytes
  import opened Crc8
  import opened HostProtocol
  import StrategyConfig

  /** The fields of a normalized market event. */
  datatype MarketRecord = MarketRecord(
    kind: nat, symbol: nat, timestamp: nat, price: nat, quantity: nat, side: nat, sequence: nat, flags: nat)

  function RecordOf(d: Packet): MarketRecord {
    MarketRecord(d.kind, d.symbol, d.timestamp, d.data, d.quantity, d.side, d.sequence, d.flags)
  }

  function CommandOf(d: Packet): StrategyConfig.Command {
    StrategyConfig.Command(d.side, d.symbol, d.data, d.quantity)
  }

  predicate Filler(p: seq<byte>) {
    p == NoPacket
  }

  datatype Stage = Idle | CrcPacket | Classify | RouteEvent | RouteLoopback | RouteControl

  datatype ErrorPort = ErrorPort(pulse: bool, reason: nat, symbol: nat, sequence: nat)

  datatype Dispatch = Dispatch(
    stage: Stage, packet: seq<byte>, index: nat, crcResult: byte, crc: Stream,
    loopbackValid: bool, overrideValid: bool, override: nat,
    eventValid: bool, event: MarketRecord, controlValid: bool, command: StrategyConfig.Command, error: ErrorPort)
  {
    predicate Shaped() {
      |packet| == PACKET_BYTES && index <= 30
    }
  }

  datatype DispatchIn = DispatchIn(
    packetValid: bool, packet: seq<byte>, loopbackReady: bool, eventReady: bool, controlReady: bool, controlStatus: nat)

  const NoPacket: seq<byte> := PutBytes(0, PACKET_BYTES)

  function ResetDispatch(): Dispatch {
    Dispatch(Idle, NoPacket, 0, 0, Stream(0, 0, false), false, false, 0,
             false, MarketRecord(0, 0, 0, 0, 0, 0, 0, 0), false, StrategyConfig.Command(0, 0, 0, 0),
             ErrorPort(false, 0, 0, 0))
  }

  /** What the CRC engine is fed while byte `index` is on its input. */
  function Feed(active: bool, done: bool, packet: seq<byte>, index: nat): StreamIn
    requires index < |packet|
  {
    var valid := active && !done;
    StreamIn(valid && index == 0, valid, index == 30, packet[index])
  }

  function NextIndex(active: bool, done: bool, index: nat): nat {
    if active && !done && index != 30 then index + 1 else index
  }

  /** CLASSIFY: route on sync, CRC, type and symbol. */
  function Classified(symbols: nat, t: Dispatch): Dispatch
    requires t.Shaped()
  {
    var d := Decode(t.packet);
    var base := t.(overrideValid := false, override := 0);
    var toLoopback := base.(loopbackValid := true, stage := RouteLoopback);
    if d.sync != SYNC_VERSION || d.checksum != Value(t.crcResult) then toLoopback
    else if d.kind == MSG_LOOPBACK then toLoopback
    else if d.kind == MSG_MARKET_QUOTE || d.kind == MSG_MARKET_TRADE then
      if d.symbol >= symbols then
        toLoopback.(overrideValid := true, override := STATUS_BAD_SYMBOL,
          error := ErrorPort(true, STATUS_BAD_SYMBOL, d.symbol, d.sequence))
      else base.(event := RecordOf(d), eventValid := true, stage := RouteEvent)
    else if d.kind == MSG_CONTROL then base.(command := CommandOf(d), controlValid := true, stage := RouteControl)
    else toLoopback
  }

  /** The state machine's part of an edge; `done` and `result` are the CRC engine's outputs before it. */
  function Moved(symbols: nat, t: Dispatch, i: DispatchIn, done: bool, result: byte): Dispatch
    requires t.Shaped() && |i.packet| == PACKET_BYTES
  {
    match t.stage
    case Idle =>
      if i.packetValid && !Filler(i.packet) then t.(packet := i.packet, index := 0, stage := CrcPacket) else t
    case CrcPacket =>
      if done then t.(crcResult := result, stage := Classify) else t.(index := NextIndex(true, false, t.index))
    case Classify => Classified(symbols, t)
    case RouteEvent => if t.eventValid && i.eventReady then t.(eventValid := false, stage := Idle) else t
    case RouteControl =>
      if t.controlValid && i.controlReady then
        t.(controlValid := false, overrideValid := true, override := i.controlStatus, loopbackValid := true,
          stage := RouteLoopback)
      else t
    case RouteLoopback =>
      if t.loopbackValid && i.loopbackReady then t.(loopbackValid := false, overrideValid := false, stage := Idle)
        else t
  }

  /** One clock edge. */
  function DispatchTick(symbols: nat, s: Dispatch, i: DispatchIn): Dispatch
    requires s.Shaped() && |i.packet| == PACKET_BYTES
  {
    var t := s.(error := s.error.(pulse := false),
                crc := StreamTick(s.crc, Feed(s.stage == CrcPacket, s.crc.done, s.packet, s.index)));
    Moved(symbols, t, i, s.crc.done, s.crc.result)
  }

  class PacketDispatcher {
    const symbols: nat
    const crc: Crc8Engine
    var stage: Stage
    var packet: seq<byte>
    var index: nat
    var crcResult: byte
    var loopbackValid: bool
    var overrideValid: bool
    var override: nat
    var eventValid: bool
    var event: MarketRecord
    var controlValid: bool
    var command: StrategyConfig.Command
    var error: ErrorPort

    ghost function View(): Dispatch
      reads this, crc
    {
      Dispatch(stage, packet, index, crcResult, crc.View(), loopbackValid, overrideValid, override,
               eventValid, event, controlValid, command, error)
    }

    constructor (symbols: nat)
      ensures this.symbols == symbols && View() == ResetDispatch() && View().Shaped() && fresh(crc)
    {
      hide PutBytes;
      this.symbols := symbols;
      crc := new Crc8Engine();
      stage, packet, index, crcResult := Idle, NoPacket, 0, 0;
      loopbackValid, overrideValid, override := false, false, 0;
      eventValid, event := false, MarketRecord(0, 0, 0, 0, 0, 0, 0, 0);
      controlValid, command := false, StrategyConfig.Command(0, 0, 0, 0);
      error := ErrorPort(false, 0, 0, 0);
    }

    method Tick(i: DispatchIn)
      requires View().Shaped() && |i.packet| == PACKET_BYTES
      modifies this, crc
      ensures View() == DispatchTick(symbols, old(View()), i) && View().Shaped()
    {
      hide Decode, StreamTick, Moved, Feed;
      var done, result := crc.done, crc.result;
      crc.Tick(Feed(stage == CrcPacket, done, packet, index));
      error := error.(pulse := false);
      Move(i, done, result);
    }

    method Move(i: DispatchIn, done: bool, result: byte)
      requires View().Shaped() && |i.packet| == PACKET_BYTES
      modifies this
      ensures View() == Moved(symbols, old(View()), i, done, result) && View().Shaped()
    {
      hide Decode, Filler, Classified, NoPacket;
      match stage
      case Idle =>
        if i.packetValid && !Filler(i.packet) { packet, index, stage := i.packet, 0, CrcPacket; }
      case CrcPacket =>
        if done { crcResult, stage := result, Classify; } else if index != 30 { index := index + 1; }
      case Classify =>
        ClassifyPacket();
      case RouteEvent =>
        if eventValid && i.eventReady { eventValid, stage := false, Idle; }
      case RouteControl =>
        if controlValid && i.controlReady {
          controlValid, overrideValid, override := false, true, i.controlStatus;
          loopbackValid, stage := true, RouteLoopback;
        }
      case RouteLoopback =>
        if loopbackValid && i.loopbackReady { loopbackValid, overrideValid, stage := false, false, Idle; }
    }

    method ClassifyPacket()
      requires View().Shaped()
      modifies this
      ensures View() == Classified(symbols, old(View())) && View().Shaped()
    {
      hide Decode, GetBytes, Value, RecordOf, CommandOf;
      var d := Decode(packet);
      overrideValid, override := false, 0;
      if d.sync != SYNC_VERSION || d.checksum != Value(crcResult) || d.kind == MSG_LOOPBACK {
        loopbackValid, stage := true, RouteLoopback;
      } else if d.kind == MSG_MARKET_QUOTE || d.kind == MSG_MARKET_TRADE {
        if d.symbol >= symbols {
          overrideValid, override, loopbackValid := true, STATUS_BAD_SYMBOL, true;
          error, stage := ErrorPort(true, STATUS_BAD_SYMBOL, d.symbol, d.sequence), RouteLoopback;
        } else {
          event, eventValid, stage := RecordOf(d), true, RouteEvent;
        }
      } else if d.kind == MSG_CONTROL {
        command, controlValid, stage := CommandOf(d), true, RouteControl;
      } else {
        loopbackValid, stage := true, RouteLoopback;
      }
    }
  }
}
