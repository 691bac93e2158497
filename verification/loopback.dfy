// The loopback engine: validates a request, builds a status response and appends its CRC.
module Loopback {
  import opened ProtocolDefs
  import opened Bytes
  import opened Crc8
  import opened HostProtocol
  import opened Dispatcher

  datatype LoopStage =
    | LIdle | CrcRequest | ValidateRequest | BuildResponse | CrcResponse | WriteResponse | OutputResponse

  datatype Loop = Loop(
    stage: LoopStage, request: seq<byte>, overrideValid: bool, override: nat, index: nat, requestCrc: byte,
    status: nat, flags: nat, response: seq<byte>, responseCrc: byte, responsePacket: seq<byte>, responseValid: bool,
    errorPulse: bool, crc: Stream)
  {
    predicate Shaped() {
      |request| == |response| == PACKET_BYTES && index <= 30
    }
  }

  datatype LoopIn = LoopIn(packetValid: bool, packet: seq<byte>, overrideValid: bool, override: nat,
    responseReady: bool)

  function ResetLoop(): Loop {
    Loop(LIdle, NoPacket, false, 0, 0, 0, STATUS_OK, 0x0001, NoPacket, 0, NoPacket, false, false, Stream(0, 0, false))
  }

  function FlagsForStatus(status: nat): nat {
    if status == STATUS_OK then 0x0001
    else if status == STATUS_BAD_SYNC then 0x0002
    else if status == STATUS_BAD_CHECKSUM then 0x0004
    else if status == STATUS_BAD_TYPE then 0x0008
    else if status == STATUS_BAD_SYMBOL then 0x0010
    else if status == STATUS_DUPLICATE_SEQ then 0x0020
    else if status == STATUS_STALE_SEQ then 0x0040
    else if status == STATUS_BAD_SIDE then 0x0080
    else if status == STATUS_BAD_CONTROL then 0x0100
    else if status == STATUS_CONFIG_BUSY then 0x0200
    else 0x8000
  }

  /** The status of a request routed here without an override, given the CRC computed over it. */
  function OwnStatus(p: seq<byte>, crc: byte): nat
    requires |p| == PACKET_BYTES
  {
    var d := Decode(p);
    if d.sync != SYNC_VERSION then STATUS_BAD_SYNC
    else if d.checksum != Value(crc) then STATUS_BAD_CHECKSUM
    else if d.kind != MSG_LOOPBACK then STATUS_BAD_TYPE
    else STATUS_OK
  }

  /** Sync, type, status and flags are overwritten; the checksum is cleared. */
  function ResponseBase(p: seq<byte>, status: nat, flags: nat): (r: seq<byte>)
    requires |p| == PACKET_BYTES
    ensures |r| == PACKET_BYTES
  {
    var headed := p[0 := Low(SYNC_VERSION)][1 := Low(MSG_STATUS)];
    headed[24 := Low(status)][29 := Low(High(flags))][30 := Low(flags)][31 := 0]
  }

  /** One clock edge. */
  function LoopTick(s: Loop, i: LoopIn): Loop
    requires s.Shaped() && |i.packet| == PACKET_BYTES
  {
    var active, sent := s.stage == CrcRequest || s.stage == CrcResponse, s.responseValid && i.responseReady;
    var t := s.(errorPulse := false,
                crc := StreamTick(s.crc,
                  Feed(active, s.crc.done, if s.stage == CrcRequest then s.request else s.response, s.index)));
    var u := if sent then t.(responseValid := false, stage := LIdle) else t;
    if Requesting(s.stage) then HandleRequest(u, s.stage, i, s.crc.done, s.crc.result)
    else HandleResponse(u, s.stage, sent, s.crc.done, s.crc.result)
  }

  predicate Requesting(s: LoopStage) {
    s.LIdle? || s.CrcRequest? || s.ValidateRequest?
  }

  /** IDLE to VALIDATE_REQUEST; `from` is the stage before the edge. */
  function HandleRequest(t: Loop, from: LoopStage, i: LoopIn, done: bool, result: byte): Loop
    requires t.Shaped() && |i.packet| == PACKET_BYTES
  {
    match from
    case LIdle =>
      if i.packetValid && !Filler(i.packet) then
        t.(request := i.packet, overrideValid := i.overrideValid, override := i.override, index := 0,
          stage := CrcRequest)
      else t
    case CrcRequest =>
      if done then t.(requestCrc := result, stage := ValidateRequest) else t.(index := NextIndex(true, false, t.index))
    case _ =>
      var status := if t.overrideValid then t.override else OwnStatus(t.request, t.requestCrc);
      t.(status := status, flags := FlagsForStatus(status), errorPulse := status != STATUS_OK, stage := BuildResponse)
  }

  /** BUILD_RESPONSE to OUTPUT_RESPONSE. */
  function HandleResponse(t: Loop, from: LoopStage, sent: bool, done: bool, result: byte): Loop
    requires t.Shaped()
  {
    match from
    case BuildResponse =>
      t.(response := ResponseBase(t.request, t.status, t.flags), index := 0, stage := CrcResponse)
    case CrcResponse =>
      if done then t.(responseCrc := result, stage := WriteResponse) else t.(index := NextIndex(true, false, t.index))
    case WriteResponse =>
      var r := t.response[31 := t.responseCrc];
      t.(response := r, responsePacket := r, responseValid := true, stage := OutputResponse)
    case _ =>
      if sent then t.(responseValid := false, stage := LIdle) else t
  }

  class LoopbackEngine {
    const crc: Crc8Engine
    var stage: LoopStage
    var request: seq<byte>
    var overrideValid: bool
    var override: nat
    var index: nat
    var requestCrc: byte
    var status: nat
    var flags: nat
    var response: seq<byte>
    var responseCrc: byte
    var responsePacket: seq<byte>
    var responseValid: bool
    var errorPulse: bool

    ghost function View(): Loop
      reads this, crc
    {
      Loop(stage, request, overrideValid, override, index, requestCrc, status, flags, response, responseCrc,
        responsePacket,
           responseValid, errorPulse, crc.View())
    }

    constructor ()
      ensures View() == ResetLoop() && View().Shaped() && fresh(crc)
    {
      hide PutBytes;
      crc := new Crc8Engine();
      stage, request, overrideValid, override, index := LIdle, NoPacket, false, 0, 0;
      requestCrc, status, flags, response, responseCrc := 0, STATUS_OK, 0x0001, NoPacket, 0;
      responsePacket, responseValid, errorPulse := NoPacket, false, false;
    }

    method Tick(i: LoopIn)
      requires View().Shaped() && |i.packet| == PACKET_BYTES
      modifies this, crc
      ensures View() == LoopTick(old(View()), i) && View().Shaped()
    {
      hide Decode, StreamTick, Feed, HandleRequest, HandleResponse, NoPacket;
      var done, result := crc.done, crc.result;
      var active := stage == CrcRequest || stage == CrcResponse;
      crc.Tick(Feed(active, done, if stage == CrcRequest then request else response, index));
      errorPulse := false;
      var from, sent := stage, responseValid && i.responseReady;
      if sent { responseValid, stage := false, LIdle; }
      if Requesting(from) { RequestStage(i, from, done, result); } else { ResponseStage(from, sent, done, result); }
    }

    method RequestStage(i: LoopIn, from: LoopStage, done: bool, result: byte)
      requires View().Shaped() && |i.packet| == PACKET_BYTES && Requesting(from)
      modifies this
      ensures View() == HandleRequest(old(View()), from, i, done, result) && View().Shaped()
    {
      hide Decode, FlagsForStatus, OwnStatus, Filler;
      match from
      case LIdle =>
        if i.packetValid && !Filler(i.packet) {
          request, overrideValid, override, index, stage := i.packet, i.overrideValid, i.override, 0, CrcRequest;
        }
      case CrcRequest =>
        if done { requestCrc, stage := result, ValidateRequest; } else if index != 30 { index := index + 1; }
      case ValidateRequest =>
        status := if overrideValid then override else OwnStatus(request, requestCrc);
        flags, errorPulse, stage := FlagsForStatus(status), status != STATUS_OK, BuildResponse;
    }

    method ResponseStage(from: LoopStage, sent: bool, done: bool, result: byte)
      requires View().Shaped() && !Requesting(from)
      modifies this
      ensures View() == HandleResponse(old(View()), from, sent, done, result) && View().Shaped()
    {
      hide ResponseBase;
      match from
      case BuildResponse =>
        response, index, stage := ResponseBase(request, status, flags), 0, CrcResponse;
      case CrcResponse =>
        if done { responseCrc, stage := result, WriteResponse; } else if index != 30 { index := index + 1; }
      case WriteResponse =>
        response := response[31 := responseCrc];
        responsePacket, responseValid, stage := response, true, OutputResponse;
      case OutputResponse =>
        if sent { responseValid, stage := false, LIdle; }
    }
  }
}
