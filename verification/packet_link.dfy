// From the SPI side and back: the receive FIFO, the core and the transmit FIFO under every interleaving of the two
// clocks.
module PacketLink {
  import opened ProtocolDefs
  import opened Bits
  import opened AsyncFifo
  import opened AsyncFifoSafety
  import opened TradingCore
  import opened MarketTypes
  import opened MarketEngine
  import E = EndToEnd
  import G = GrayCode
  import P = PacketPath
  import MarketRun
  import MarketRefinement

  datatype Link = Link(rx: Run<P.Frame>, core: Core, tx: Run<P.Frame>)

  /** What the SPI side does on one of its edges: offer a packet, and ask for a response. */
  datatype Spi = Spi(offer: bool, packet: P.Frame, take: bool)

  /** What each synchroniser captures when both clocks have an edge at once. */
  datatype Samples = Samples(rxWrite: nat, rxRead: nat, txWrite: nat, txRead: nat)

  datatype LinkEdge = SpiEdge(spi: Spi) | SystemEdge | CoincidentEdges(spi: Spi, samples: Samples)

  /** Both FIFOs are four packets deep. */
  const K := 2

  predicate AllFrames(ps: seq<P.Frame>) {
    forall n :: 0 <= n < |ps| ==> |ps[n]| == PACKET_BYTES
  }

  ghost predicate Sized(c: Windows, l: Link) {
    && l.rx.f.Widths(K) && l.tx.f.Widths(K) && AllFrames(l.rx.f.storage) && Built(c, l.core)
  }

  function CorePort(l: Link): CoreIn
    requires l.rx.f.Widths(K)
  {
    ModBelow(l.rx.f.rdBin, Pow2(K));
    CoreIn(!l.rx.f.empty, Dout(l.rx.f, K), !l.tx.f.full)
  }

  predicate Reading(l: Link) {
    !l.rx.f.empty && l.core.path.dispatch.stage.Idle?
  }

  predicate Writing(l: Link) {
    l.core.path.loop.responseValid && !l.tx.f.full
  }

  function RxEdge(l: Link, e: LinkEdge): Edge<P.Frame> {
    match e
    case SpiEdge(s) => WriteEdge(s.offer && !l.rx.f.full, s.packet)
    case SystemEdge => ReadEdge(Reading(l))
    case CoincidentEdges(s, x) => BothEdges(s.offer && !l.rx.f.full, s.packet, Reading(l), x.rxWrite, x.rxRead)
  }

  function TxEdge(l: Link, e: LinkEdge): Edge<P.Frame> {
    match e
    case SpiEdge(s) => ReadEdge(s.take)
    case SystemEdge => WriteEdge(Writing(l), l.core.path.loop.responsePacket)
    case CoincidentEdges(s, x) => BothEdges(Writing(l), l.core.path.loop.responsePacket, s.take, x.txWrite, x.txRead)
  }

  lemma {:induction false} PortIsFrame(c: Windows, l: Link)
    requires Sized(c, l)
    ensures |CorePort(l).packet| == PACKET_BYTES
  {
    ModBelow(l.rx.f.rdBin, Pow2(K));
  }

  ghost function CoreAfter(c: Windows, width: nat, l: Link, e: LinkEdge): (k: Core)
    requires Sized(c, l)
    ensures Built(c, k)
  {
    hide CoreTick, CorePort, Built;
    PortIsFrame(c, l);
    if e.SpiEdge? then l.core else CoreTick(c, width, l.core, CorePort(l))
  }

  ghost function LinkTick(c: Windows, width: nat, l: Link, e: LinkEdge): Link
    requires Sized(c, l)
  {
    hide Next, CoreAfter, RxEdge, TxEdge, Built;
    Link(Next(l.rx, K, RxEdge(l, e)), CoreAfter(c, width, l, e), Next(l.tx, K, TxEdge(l, e)))
  }

  /** Packets are 32 bytes, and each synchroniser captures a mixture of the old and new pointer. */
  ghost predicate LegalEdge(l: Link, e: LinkEdge) {
    && (!e.SystemEdge? ==> |e.spi.packet| == PACKET_BYTES)
    && Legal(l.rx, K, RxEdge(l, e)) && Legal(l.tx, K, TxEdge(l, e))
  }

  /**
    The packets the dispatcher has taken are those the receive FIFO delivered; the responses are those the
    transmit FIFO accepted.
   */
  ghost predicate Coupled(c: Windows, l: Link) {
    && Sized(c, l) && Inv(l.rx, K) && Inv(l.tx, K) && Joined(c, l.core)
    && l.rx.delivered == l.core.log.taken && l.tx.accepted == l.core.log.responses
    && l.rx.refused == 0 && l.tx.refused == 0
  }

  lemma {:induction false} StoresFrames(l: Link, e: LinkEdge)
    requires l.rx.f.Widths(K) && AllFrames(l.rx.f.storage) && (!e.SystemEdge? ==> |e.spi.packet| == PACKET_BYTES)
    ensures AllFrames(Next(l.rx, K, RxEdge(l, e)).f.storage)
  {
    hide G.Gray, G.InvertTopTwo, Pow2;
    ModBelow(l.rx.f.wrBin, Pow2(K));
  }

  /**
    What the SPI side sees: a packet it offers is accepted unless the receive FIFO is full, and a response is read
    exactly when it asks and the transmit FIFO is not empty.
   */
  lemma {:induction false} SpiPorts(l: Link, e: LinkEdge)
    requires l.rx.f.Widths(K) && l.tx.f.Widths(K)
    ensures
      var rx, tx := Next(l.rx, K, RxEdge(l, e)), Next(l.tx, K, TxEdge(l, e));
      && rx.accepted == l.rx.accepted + (if !e.SystemEdge? && e.spi.offer && !l.rx.f.full then [e.spi.packet] else [])
      && tx.delivered == l.tx.delivered + (if !e.SystemEdge? && e.spi.take && !l.tx.f.empty then [Dout(l.tx.f, K)]
           else [])
  {
    hide G.Gray, G.InvertTopTwo, Pow2, AsyncFifo.Advance, Wrap, Dout;
    assert l.rx.accepted + [] == l.rx.accepted && l.tx.delivered + [] == l.tx.delivered;
  }

  // What the two FIFOs count on an edge.
  lemma {:induction false} FifosCount(l: Link, e: LinkEdge)
    requires l.rx.f.Widths(K) && l.tx.f.Widths(K)
    ensures
      var rx, tx := Next(l.rx, K, RxEdge(l, e)), Next(l.tx, K, TxEdge(l, e));
      && rx.delivered == l.rx.delivered + (if !e.SpiEdge? && Reading(l) then [CorePort(l).packet] else [])
      && tx.accepted == l.tx.accepted + (if !e.SpiEdge? && Writing(l) then [l.core.path.loop.responsePacket] else [])
      && rx.refused == l.rx.refused && tx.refused == l.tx.refused
  {
    hide G.Gray, G.InvertTopTwo, Pow2, AsyncFifo.Advance, Wrap;
    assert l.rx.delivered + [] == l.rx.delivered && l.tx.accepted + [] == l.tx.accepted;
  }

  // What the core's own log counts on a system edge.
  lemma {:induction false} CoreCounts(c: Windows, width: nat, l: Link)
    requires Sized(c, l) && |CorePort(l).packet| == PACKET_BYTES
    ensures
      var k := CoreTick(c, width, l.core, CorePort(l));
      && k.log.taken == l.core.log.taken + (if Reading(l) then [CorePort(l).packet] else [])
      && k.log.responses == l.core.log.responses + (if Writing(l) then [l.core.path.loop.responsePacket] else [])
  {
    hide Built, E.WholeTick, P.PathTick, Dout;
  }

  lemma {:induction false} LinkStep(c: Windows, width: nat, l: Link, e: LinkEdge)
    requires Coupled(c, l) && LegalEdge(l, e)
    ensures Coupled(c, LinkTick(c, width, l, e))
  {
    hide Built, Inv, Joined, Next, Legal, RxEdge, TxEdge, CorePort, CoreTick, Reading, Writing;
    PortIsFrame(c, l);
    NextKeepsInv(l.rx, K, RxEdge(l, e));
    NextKeepsInv(l.tx, K, TxEdge(l, e));
    InvWidths(Next(l.rx, K, RxEdge(l, e)));
    InvWidths(Next(l.tx, K, TxEdge(l, e)));
    StoresFrames(l, e);
    FifosCount(l, e);
    if e.SpiEdge? {
      assert l.rx.delivered + [] == l.rx.delivered && l.tx.accepted + [] == l.tx.accepted;
    } else {
      JoinedStep(c, width, l.core, CorePort(l));
      CoreCounts(c, width, l);
    }
  }

  lemma {:induction false} InvWidths(r: Run<P.Frame>)
    requires Inv(r, K)
    ensures r.f.Widths(K)
  {
  }

  // ---- Whole runs ----

  ghost predicate LegalLink(c: Windows, width: nat, l: Link, edges: seq<LinkEdge>)
    requires Sized(c, l)
    decreases |edges|
  {
    hide LinkTick;
    edges == [] ||
    var t := LinkTick(c, width, l, edges[0]);
    LegalEdge(l, edges[0]) && (Sized(c, t) ==> LegalLink(c, width, t, edges[1..]))
  }

  // Nothing outgrows its width, so the run never stops short: `LinkStep`.
  ghost function RunLink(c: Windows, width: nat, l: Link, edges: seq<LinkEdge>): Link
    requires Sized(c, l)
    decreases |edges|
  {
    hide LinkTick;
    if edges == [] then l
    else
      var t := LinkTick(c, width, l, edges[0]);
      if Sized(c, t) then RunLink(c, width, t, edges[1..]) else t
  }

  lemma {:induction false} RunStaysCoupled(c: Windows, width: nat, l: Link, edges: seq<LinkEdge>)
    requires Coupled(c, l) && LegalLink(c, width, l, edges)
    ensures Coupled(c, RunLink(c, width, l, edges))
    decreases |edges|
  {
    hide Sized, Joined, Inv, LinkTick, LegalEdge;
    if edges != [] {
      LinkStep(c, width, l, edges[0]);
      RunStaysCoupled(c, width, LinkTick(c, width, l, edges[0]), edges[1..]);
    }
  }

  function PowerUpLink(c: Windows, bank: seq<Slot>, rx: seq<P.Frame>, tx: seq<P.Frame>): Link {
    Link(Start(rx), PowerUpCore(c, bank), Start(tx))
  }

  ghost predicate Stores(rx: seq<P.Frame>, tx: seq<P.Frame>) {
    |rx| == |tx| == Pow2(K) && AllFrames(rx)
  }

  lemma {:induction false} PowerUpIsCoupled(c: Windows, bank: seq<Slot>, rx: seq<P.Frame>, tx: seq<P.Frame>)
    requires MarketRefinement.Buildable(c) && MarketRun.PoweredUp(c, bank) && Stores(rx, tx)
    ensures Coupled(c, PowerUpLink(c, bank, rx, tx))
  {
    hide Joined, Built, Inv;
    PowerUpIsJoined(c, bank);
    StartInv(rx, K);
    StartInv(tx, K);
    InvWidths(Start(rx));
    InvWidths(Start(tx));
  }

  /** Nothing is inside the path or either FIFO. */
  predicate AtRest(l: Link) {
    && l.core.path.dispatch.stage.Idle? && l.core.path.loop.stage.LIdle?
    && l.core.log.taken == l.rx.accepted && l.tx.delivered == l.tx.accepted
  }

  /**
    The SPI side's view: responses read are, in order, a prefix of those the packets it wrote call for, all of them
    once the path is idle and the FIFOs empty; the core is faithful to both models; and no packet or response is
    ever lost to a full FIFO.
   */
  ghost predicate Answers(c: Windows, l: Link)
    requires c.Valid()
  {
    hide Faithful, P.Expected;
    var g := l.core.log;
    && P.WholePackets(g.taken) && Faithful(c, l.core)
    && g.taken <= l.rx.accepted && l.tx.delivered <= l.tx.accepted
    && l.tx.accepted <= P.Expected(c.symbols, P.Routed(l.core.path, g), g.statuses).responses
    && l.rx.refused == 0 && l.tx.refused == 0
    && (AtRest(l) ==> l.tx.delivered == P.Expected(c.symbols, l.rx.accepted, g.statuses).responses)
  }

  lemma {:induction false} CoupledAnswers(c: Windows, l: Link)
    requires c.Valid() && Coupled(c, l)
    ensures Answers(c, l)
  {
    hide Built, P.DispatchInv, P.LoopInv, P.Accounted, P.Expected, MarketRefinement.Replay, PulseFirst, E.Linked,
      E.FeaturesOf, E.FeaturesTaken;
    JoinedIsFaithful(c, l.core);
    FifoPrefix(l.rx);
    FifoPrefix(l.tx);
    P.InvDelivers(c.symbols, l.core.path, l.core.log);
  }

  lemma {:induction false} FifoPrefix(r: Run<P.Frame>)
    requires Inv(r, K)
    ensures r.delivered <= r.accepted
  {
  }

  /**
    From reset, for every interleaving of the SPI and system clocks, coincident edges with torn pointer samples
    included, and whatever the SPI side offers and takes.
   */
  lemma {:induction false} ResponsesAnswerPackets(
      c: Windows, width: nat, bank: seq<Slot>, rx: seq<P.Frame>, tx: seq<P.Frame>, edges: seq<LinkEdge>)
    requires MarketRefinement.Buildable(c) && MarketRun.PoweredUp(c, bank) && Stores(rx, tx)
    ensures c.Valid() && Sized(c, PowerUpLink(c, bank, rx, tx))
    ensures LegalLink(c, width, PowerUpLink(c, bank, rx, tx), edges) ==>
      Answers(c, RunLink(c, width, PowerUpLink(c, bank, rx, tx), edges))
  {
    hide Sized, Joined, Inv, LinkTick, LegalLink, RunLink, Answers;
    MarketRun.BuildableIsValid(c);
    PowerUpIsCoupled(c, bank, rx, tx);
    if LegalLink(c, width, PowerUpLink(c, bank, rx, tx), edges) {
      RunStaysCoupled(c, width, PowerUpLink(c, bank, rx, tx), edges);
      CoupledAnswers(c, RunLink(c, width, PowerUpLink(c, bank, rx, tx), edges));
    }
  }
}
