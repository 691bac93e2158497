// What the engines and the configuration bank are told, in terms of the fields the host put into its packets.
module HostView {
  import opened ProtocolDefs
  import opened Bytes
  import opened MarketTypes
  import opened MarketEngine
  import opened StrategyConfig
  import opened SlotReset
  import opened EndToEnd
  import opened TradingCore
  import ConfigMeaning
  import opened MarketRefinement
  import MarketRun
  import SignalEngine
  import C = Crc8
  import H = HostProtocol
  import D = Dispatcher
  import P = PacketPath

  // ---- One packet ----

  predicate MarketPacket(symbols: nat, p: H.Packet) {
    p.sync == SYNC_VERSION && (p.kind == MSG_MARKET_QUOTE || p.kind == MSG_MARKET_TRADE) && p.symbol < symbols
  }

  predicate ControlPacket(p: H.Packet) {
    p.sync == SYNC_VERSION && p.kind == MSG_CONTROL
  }

  lemma {:induction false} ZerosStart(n: nat)
    requires n > 0
    ensures H.PutBytes(0, n)[0] == Low(0)
  {
    if n > 1 { ZerosStart(n - 1); }
  }

  // Filler decodes to a sync byte of zero.
  lemma {:induction false} FillerHasNoSync()
    ensures H.Decode(D.NoPacket).sync == 0 && Value(D.NoPacket[0]) == 0
  {
    ZerosStart(PACKET_BYTES);
    assert H.PutBytes(0, 1) == H.PutBytes(H.High(0), 0) + [Low(0)];
    assert D.NoPacket[0..1] == H.PutBytes(0, 1);
    H.GetPut(0, 1);
    H.OneByte(Low(0));
    assert H.PutBytes(0, 1) == [Low(0)];
  }

  lemma {:induction false} ValidIsNotFiller(f: P.Frame)
    requires H.Valid(f)
    ensures !D.Filler(f)
  {
    FillerHasNoSync();
    hide H.Decode, D.NoPacket, Value, C.Crc;
  }

  lemma {:induction false} ValidMeans(f: P.Frame)
    requires |f| == PACKET_BYTES
    ensures H.Valid(f) <==> H.Parse(f).error == H.NoError
    ensures H.Valid(f) ==> H.Parse(f).packet.sync == SYNC_VERSION
  {
    H.OneByte(f[0]);
    assert f[0..1] == [f[0]];
    hide H.GetBytes, Value, C.Crc;
  }

  /** A frame the host's parser accepts is routed by the fields it parses to; any other frame reaches neither. */
  lemma {:induction false} ParsedRoute(symbols: nat, f: P.Frame)
    requires |f| == PACKET_BYTES
    ensures
      var p := H.Parse(f).packet;
      match P.RouteOf(symbols, f)
      case ToEvent(e) =>
        && H.Valid(f) && MarketPacket(symbols, p)
        && e.kind == p.kind && e.symbol == p.symbol && e.price == p.data && e.quantity == p.quantity
        && e.side == p.side && e.sequence == p.sequence && e.timestamp == p.timestamp && e.flags == p.flags
      case ToControl(c) =>
        && H.Valid(f) && ControlPacket(p)
        && c.code == p.side && c.symbol == p.symbol && c.data64 == p.data && c.data32 == p.quantity
      case _ => !(H.Valid(f) && (MarketPacket(symbols, p) || ControlPacket(p)))
  {
    hide H.Parse, H.Valid, D.Filler;
    ValidMeans(f);
    if H.Valid(f) { ValidIsNotFiller(f); }
  }

  /** Serialised by the host, with fields that fit their widths: the fields arrive where they belong. */
  lemma {:induction false} HostRoute(symbols: nat, p: H.Packet)
    requires p.Widths()
    ensures
      var r := P.RouteOf(symbols, H.Serialized(p));
      && (MarketPacket(symbols, p) ==>
           && r.ToEvent? && r.event.kind == p.kind && r.event.symbol == p.symbol && r.event.price == p.data
           && r.event.quantity == p.quantity && r.event.side == p.side && r.event.sequence == p.sequence)
      && (ControlPacket(p) ==>
           && r.ToControl? && r.command.code == p.side && r.command.symbol == p.symbol
           && r.command.data64 == p.data && r.command.data32 == p.quantity)
      && (!MarketPacket(symbols, p) && !ControlPacket(p) ==> r.ToStatus? || r.Drop?)
  {
    hide H.Serialized, H.Body, H.Parse, C.Crc, Value, P.RouteOf, H.Packet.Widths;
    H.SerializeThenParse(p);
    ParsedRoute(symbols, H.Serialized(p));
    ValidMeans(H.Serialized(p));
  }

  // ---- A series of packets ----

  /** The market events a series of packets carries. */
  function EventsIn(symbols: nat, ps: seq<H.Packet>): seq<Event> {
    if ps == [] then []
    else
      var p := ps[|ps| - 1];
      EventsIn(symbols, ps[..|ps| - 1]) +
        if MarketPacket(symbols, p) then [Event(p.kind, p.symbol, p.data, p.quantity, p.side, p.sequence)] else []
  }

  /** The commands it carries. */
  function CommandsIn(ps: seq<H.Packet>): seq<Command> {
    if ps == [] then []
    else
      var p := ps[|ps| - 1];
      CommandsIn(ps[..|ps| - 1]) + if ControlPacket(p) then [Command(p.side, p.symbol, p.data, p.quantity)] else []
  }

  /** What the host's parser makes of the frames it accepts. */
  function Received(fs: seq<P.Frame>): seq<H.Packet> {
    if fs == [] then []
    else
      var f := fs[|fs| - 1];
      Received(fs[..|fs| - 1]) + if H.Valid(f) then [H.Parse(f).packet] else []
  }

  function Sent(ps: seq<H.Packet>): (fs: seq<P.Frame>)
    ensures |fs| == |ps| && P.WholePackets(fs)
  {
    seq(|ps|, k requires 0 <= k < |ps| => H.Serialized(ps[k]))
  }

  predicate AllFit(ps: seq<H.Packet>) {
    forall k :: 0 <= k < |ps| ==> ps[k].Widths()
  }

  lemma {:induction false} PacketsSnoc(symbols: nat, ps: seq<H.Packet>, p: H.Packet)
    ensures EventsIn(symbols, ps + [p]) == EventsIn(symbols, ps) +
      if MarketPacket(symbols, p) then [Event(p.kind, p.symbol, p.data, p.quantity, p.side, p.sequence)] else []
    ensures CommandsIn(ps + [p]) ==
      CommandsIn(ps) + if ControlPacket(p) then [Command(p.side, p.symbol, p.data, p.quantity)] else []
  {
    assert (ps + [p])[..|ps|] == ps;
  }

  // Packets that were sent are received, but for a foreign version; either way they carry the same.
  lemma {:induction false} SentIsReceived(symbols: nat, ps: seq<H.Packet>)
    requires AllFit(ps)
    ensures EventsIn(symbols, Received(Sent(ps))) == EventsIn(symbols, ps)
    ensures CommandsIn(Received(Sent(ps))) == CommandsIn(ps)
    decreases |ps|
  {
    hide *;
    NothingSent();
    if ps != [] {
      var front, p := ps[..|ps| - 1], ps[|ps| - 1];
      FrontFits(ps);
      SentIsReceived(symbols, front);
      SentSnoc(front, p);
      SentOne(symbols, Received(Sent(front)), p);
      PacketsSnoc(symbols, front, p);
      assert ps == front + [p];
    }
  }

  lemma {:induction false} NothingSent()
    ensures Received(Sent([])) == []
  {
  }

  lemma {:induction false} FrontFits(ps: seq<H.Packet>)
    requires AllFit(ps) && ps != []
    ensures AllFit(ps[..|ps| - 1]) && ps[|ps| - 1].Widths()
  {
    hide H.Packet.Widths;
  }

  lemma {:induction false} SentSnoc(ps: seq<H.Packet>, p: H.Packet)
    ensures
      var f := H.Serialized(p);
      Received(Sent(ps + [p])) == Received(Sent(ps)) + if H.Valid(f) then [H.Parse(f).packet] else []
  {
    hide H.Serialized, H.Valid, H.Parse;
    assert Sent(ps + [p]) == Sent(ps) + [H.Serialized(p)];
    assert (Sent(ps) + [H.Serialized(p)])[..|ps|] == Sent(ps);
  }

  lemma {:induction false} SentOne(symbols: nat, before: seq<H.Packet>, p: H.Packet)
    requires p.Widths()
    ensures
      var f := H.Serialized(p);
      var after := before + if H.Valid(f) then [H.Parse(f).packet] else [];
      && EventsIn(symbols, after) == EventsIn(symbols, before) +
           (if MarketPacket(symbols, p) then [Event(p.kind, p.symbol, p.data, p.quantity, p.side, p.sequence)] else [])
      && CommandsIn(after) == CommandsIn(before) +
           (if ControlPacket(p) then [Command(p.side, p.symbol, p.data, p.quantity)] else [])
  {
    hide *;
    H.SerializeThenParse(p);
    ValidMeans(H.Serialized(p));
    PacketsSnoc(symbols, before, p.(checksum := Value(C.Crc(H.Body(p)))));
    ChecksumIgnored(symbols, p, Value(C.Crc(H.Body(p))));
    assert before + [] == before && EventsIn(symbols, before) + [] == EventsIn(symbols, before);
    assert CommandsIn(before) + [] == CommandsIn(before);
  }

  lemma {:induction false} ChecksumIgnored(symbols: nat, p: H.Packet, sum: nat)
    ensures MarketPacket(symbols, p.(checksum := sum)) == MarketPacket(symbols, p)
    ensures ControlPacket(p.(checksum := sum)) == ControlPacket(p)
    ensures p.sync != SYNC_VERSION ==> !MarketPacket(symbols, p) && !ControlPacket(p)
  {
  }

  // What the path should put out is what the received packets carry.
  lemma {:induction false} ExpectedCarries(symbols: nat, fs: seq<P.Frame>, statuses: seq<nat>)
    requires P.WholePackets(fs)
    ensures
      var o := P.Expected(symbols, fs, statuses);
      EventsOf(o.events) == EventsIn(symbols, Received(fs)) && o.controls == CommandsIn(Received(fs))
    decreases |fs|
  {
    if fs != [] {
      hide P.RouteOf, H.Parse, H.Valid, P.Response, MarketPacket, ControlPacket;
      var front, f := fs[..|fs| - 1], fs[|fs| - 1];
      ExpectedCarries(symbols, front, statuses);
      CarriesOne(symbols, f, Received(front));
      var o := P.Expected(symbols, front, statuses);
      if P.RouteOf(symbols, f).ToEvent? {
        EventsSnoc([], Clear(0), o.events, P.RouteOf(symbols, f).event);
      }
    }
  }

  lemma {:induction false} CarriesOne(symbols: nat, f: P.Frame, ps: seq<H.Packet>)
    requires |f| == PACKET_BYTES
    ensures
      var more := ps + if H.Valid(f) then [H.Parse(f).packet] else [];
      && EventsIn(symbols, more) == EventsIn(symbols, ps) +
           (match P.RouteOf(symbols, f) case ToEvent(e) => [EventOf(e)] case _ => [])
      && CommandsIn(more) == CommandsIn(ps) + (match P.RouteOf(symbols, f) case ToControl(c) => [c] case _ => [])
  {
    hide P.RouteOf, H.Parse, H.Valid, EventsIn, CommandsIn;
    ParsedRoute(symbols, f);
    PacketsSnoc(symbols, ps, H.Parse(f).packet);
    assert ps + [] == ps && EventsIn(symbols, ps) + [] == EventsIn(symbols, ps);
    assert CommandsIn(ps) + [] == CommandsIn(ps);
  }

  // ---- The configuration bank behind the dispatcher ----

  /** The commands that have an effect. */
  function Effective(symbols: nat, cs: seq<Command>): seq<Command> {
    if cs == [] then []
    else
      var c := cs[|cs| - 1];
      Effective(symbols, cs[..|cs| - 1]) + if ConfigMeaning.Known(symbols, c) then [c] else []
  }

  predicate AnsweredRightly(symbols: nat, cs: seq<Command>, statuses: seq<nat>) {
    && |statuses| == |cs|
    && forall n :: 0 <= n < |cs| ==> statuses[n] == if ConfigMeaning.Known(symbols, cs[n]) then 0x01 else 0xE8
  }

  /** Every command was answered by whether it is a known one, and the settings are what the known ones say. */
  ghost predicate Obeyed(c: Windows, width: nat, k: Core) {
    && AnsweredRightly(c.symbols, k.log.controls, k.log.statuses)
    && ConfigMeaning.ConfigMeans(c.symbols, width, Effective(c.symbols, k.log.controls), k.whole.system.bank.cfg)
  }

  lemma {:induction false} EffectiveSnoc(symbols: nat, cs: seq<Command>, c: Command)
    ensures Effective(symbols, cs + [c]) ==
      Effective(symbols, cs) + if ConfigMeaning.Known(symbols, c) then [c] else []
  {
    assert (cs + [c])[..|cs|] == cs;
  }

  lemma {:induction false} HandshakeStatus(symbols: nat, b: Bank, i: BankIn)
    requires |b.cfg.symbolEnable| == symbols
    ensures Accepts(b, i) == (i.valid && WriteReady(b) && ConfigMeaning.Known(symbols, i.command))
    ensures WriteReady(b) ==> Status(b, i.command) == if ConfigMeaning.Known(symbols, i.command) then 0x01 else 0xE8
  {
  }

  // The bank and the dispatcher count the same handovers.
  lemma {:induction false} ControlPort(c: Windows, width: nat, k: Core, i: CoreIn)
    requires Built(c, k) && |i.packet| == PACKET_BYTES
    ensures
      var t, b, j := CoreTick(c, width, k, i), k.whole.system.bank, BankPort(k.whole.system, SystemPort(k));
      && t.whole.system.bank == BankTick(b, j, width)
      && t.log.controls == k.log.controls + (if j.valid && WriteReady(b) then [j.command] else [])
      && t.log.statuses == k.log.statuses + (if j.valid && WriteReady(b) then [Status(b, j.command)] else [])
  {
    hide P.PathTick, EngineTick, SignalEngine.SignalTick, BankTick, Status, Shaped, MarketRun.NextPorts,
      SignalEngine.NextPorts;
  }

  lemma {:induction false} ObeyedStep(c: Windows, width: nat, k: Core, i: CoreIn)
    requires Built(c, k) && |i.packet| == PACKET_BYTES && Obeyed(c, width, k)
    ensures Obeyed(c, width, CoreTick(c, width, k, i))
  {
    hide CoreTick, BankTick, BankPort, SystemPort, Accepts, Status, ConfigMeaning.ConfigMeans, ConfigMeaning.Known;
    hide Built, Effective;
    var b, j, cs := k.whole.system.bank, BankPort(k.whole.system, SystemPort(k)), k.log.controls;
    ControlPort(c, width, k, i);
    ConfigMeaning.EnablesKnown(c.symbols, width, Effective(c.symbols, cs), b.cfg);
    HandshakeStatus(c.symbols, b, j);
    ConfigMeaning.EdgeMeans(c.symbols, width, Effective(c.symbols, cs), b, j);
    EffectiveSnoc(c.symbols, cs, j.command);
    assert cs + [] == cs && k.log.statuses + [] == k.log.statuses;
    assert Effective(c.symbols, cs) + [] == Effective(c.symbols, cs);
  }

  lemma {:induction false} RunStaysObeyed(c: Windows, width: nat, k: Core, ins: seq<CoreIn>)
    requires Built(c, k) && Frames(ins) && Obeyed(c, width, k)
    ensures Obeyed(c, width, RunCore(c, width, k, ins))
    decreases |ins|
  {
    hide Built, Obeyed, CoreTick;
    if ins != [] {
      ObeyedStep(c, width, k, ins[0]);
      RunStaysObeyed(c, width, CoreTick(c, width, k, ins[0]), ins[1..]);
    }
  }

  lemma {:induction false} PowerUpIsObeyed(c: Windows, width: nat, bank: seq<Slot>)
    ensures Obeyed(c, width, PowerUpCore(c, bank))
  {
    ConfigMeaning.DefaultsMean(c.symbols, width);
    hide ConfigMeaning.ConfigMeans, ResetConfig;
  }

  // ---- Whole runs ----

  /**
    The market engine has taken the market events of the packets routed so far, and the bank the commands; at most
    the last packet taken, a command already written, is ahead of them.
   */
  ghost predicate Told(c: Windows, width: nat, k: Core, routed: seq<H.Packet>) {
    && EventsTaken(k.whole.market.taken) == EventsIn(c.symbols, routed)
    && (k.log.controls == CommandsIn(routed)
        || (!k.path.dispatch.stage.Idle? && k.log.controls == CommandsIn(Received(k.log.taken))))
    && AnsweredRightly(c.symbols, k.log.controls, k.log.statuses)
    && ConfigMeaning.ConfigMeans(c.symbols, width, Effective(c.symbols, k.log.controls), k.whole.system.bank.cfg)
  }

  lemma {:induction false} CommandInHand(c: Windows, k: Core)
    requires P.PathInv(c.symbols, k.path, k.log)
    ensures
      var routed := P.Routed(k.path, k.log);
      && P.WholePackets(routed) && P.WholePackets(k.log.taken)
      && (P.CommandIn(c.symbols, k.path.dispatch) == []
          || (!k.path.dispatch.stage.Idle? && k.log.taken == routed + [k.path.dispatch.packet]
              && |k.path.dispatch.packet| == PACKET_BYTES
              && P.RouteOf(c.symbols, k.path.dispatch.packet).ToControl?
              && P.CommandIn(c.symbols, k.path.dispatch) ==
                   [P.RouteOf(c.symbols, k.path.dispatch.packet).command]))
  {
    hide P.DispatchInv, P.LoopInv, P.Accounted, P.RouteOf;
  }

  lemma {:induction false} ReceivedSnoc(fs: seq<P.Frame>, f: P.Frame)
    ensures Received(fs + [f]) == Received(fs) + if H.Valid(f) then [H.Parse(f).packet] else []
  {
    hide H.Valid, H.Parse;
    assert (fs + [f])[..|fs|] == fs;
  }

  lemma {:induction false} DeliveredParts(symbols: nat, s: P.Path, g: P.Log)
    requires P.WholePackets(g.taken) && P.Delivered(symbols, s, g)
    ensures P.WholePackets(P.Routed(s, g))
    ensures g.events == P.Expected(symbols, P.Routed(s, g), g.statuses).events
    ensures g.controls == P.Expected(symbols, P.Routed(s, g), g.statuses).controls + P.CommandIn(symbols, s.dispatch)
  {
    hide P.Expected, P.CommandIn;
  }

  lemma {:induction false} JoinedParts(c: Windows, k: Core)
    requires Joined(c, k)
    ensures P.PathInv(c.symbols, k.path, k.log) && EventsTaken(k.whole.market.taken) == EventsOf(k.log.events)
  {
    hide P.PathInv, WellFormed, Linked, EventsTaken, EventsOf, PulseFirst, Event.Widths;
  }

  lemma {:induction false} JoinedIsTold(c: Windows, width: nat, k: Core)
    requires Joined(c, k) && Obeyed(c, width, k)
    ensures Told(c, width, k, Received(P.Routed(k.path, k.log)))
  {
    hide P.Delivered, P.PathInv, Joined, P.Expected, P.RouteOf, P.CommandIn, P.Routed, P.WholePackets, EventsTaken,
      EventsOf, EventsIn, CommandsIn, Received, ConfigMeaning.ConfigMeans, AnsweredRightly, Effective, H.Parse, H.Valid;
    JoinedParts(c, k);
    CommandInHand(c, k);
    var routed, f := P.Routed(k.path, k.log), k.path.dispatch.packet;
    P.InvDelivers(c.symbols, k.path, k.log);
    DeliveredParts(c.symbols, k.path, k.log);
    ExpectedCarries(c.symbols, routed, k.log.statuses);
    if P.CommandIn(c.symbols, k.path.dispatch) != [] {
      CarriesOne(c.symbols, f, Received(routed));
      ReceivedSnoc(routed, f);
    } else {
      assert k.log.controls == CommandsIn(Received(routed));
    }
  }

  /**
    From power-up, for every stream of packets and stalls: in terms of the fields the host's parser reads from the
    frames routed so far, the events the market engine has taken, the commands the bank was given, how they were
    answered and what every setting is.
   */
  lemma {:induction false} CoreIsTold(c: Windows, width: nat, bank: seq<Slot>, ins: seq<CoreIn>)
    requires Buildable(c) && MarketRun.PoweredUp(c, bank) && Frames(ins)
    ensures Built(c, PowerUpCore(c, bank))
    ensures
      var k := RunCore(c, width, PowerUpCore(c, bank), ins);
      Told(c, width, k, Received(P.Routed(k.path, k.log)))
  {
    hide RunCore, Built, Joined, Told, Obeyed;
    PowerUpIsJoined(c, bank);
    PowerUpIsObeyed(c, width, bank);
    RunStaysJoined(c, width, PowerUpCore(c, bank), ins);
    RunStaysObeyed(c, width, PowerUpCore(c, bank), ins);
    JoinedIsTold(c, width, RunCore(c, width, PowerUpCore(c, bank), ins));
  }

  /**
    End to end from the host: when what was routed are the serialised packets `ps`, whatever their fields, each quote
    or trade of a known symbol reached the market engine with its own kind, symbol, price, quantity, side and
    sequence, and each control packet the bank with its own code, symbol and data; nothing else did.
   */
  lemma {:induction false} HostIsHeard(c: Windows, width: nat, bank: seq<Slot>, ins: seq<CoreIn>, ps: seq<H.Packet>)
    requires Buildable(c) && MarketRun.PoweredUp(c, bank) && Frames(ins) && AllFit(ps)
    ensures Built(c, PowerUpCore(c, bank))
    ensures
      var k := RunCore(c, width, PowerUpCore(c, bank), ins);
      P.Routed(k.path, k.log) == Sent(ps) ==>
        && EventsTaken(k.whole.market.taken) == EventsIn(c.symbols, ps)
        && (k.path.dispatch.stage.Idle? ==>
              && k.log.controls == CommandsIn(ps)
              && AnsweredRightly(c.symbols, CommandsIn(ps), k.log.statuses)
              && ConfigMeaning.ConfigMeans(c.symbols, width, Effective(c.symbols, CommandsIn(ps)),
                   k.whole.system.bank.cfg))
  {
    hide RunCore, Built, Received, Sent, EventsIn, CommandsIn, AllFit, EventsTaken, ConfigMeaning.ConfigMeans,
      AnsweredRightly, Effective;
    CoreIsTold(c, width, bank, ins);
    SentIsReceived(c.symbols, ps);
  }
}
