// The dual-clock packet FIFO: two clocked processes that see each other's Gray pointers two flops late.
module AsyncFifo {
  import opened Bits
  import opened GrayCode

  /** The registers of the FIFO. Both `*Gray*Sync` pairs are two-flop synchronisers. */
  datatype Fifo<T> = Fifo(
    storage: seq<T>,
    wrBin: nat, wrGray: nat, rdBin: nat, rdGray: nat,
    rdGraySync1: nat, rdGraySync2: nat, wrGraySync1: nat, wrGraySync2: nat,
    full: bool, empty: bool, overflow: nat, underflow: nat)
  {
    /** Register widths for a depth of `Pow2(k)`: pointers carry one bit more than an address. */
    ghost predicate Widths(k: nat) {
      && k >= 2
      && |storage| == Pow2(k)
      && wrBin < Pow2(k + 1) && rdBin < Pow2(k + 1)
      && rdGraySync1 < Pow2(k + 1) && rdGraySync2 < Pow2(k + 1)
    }
  }

  function Reset<T>(storage: seq<T>): Fifo<T> {
    Fifo(storage, 0, 0, 0, 0, 0, 0, 0, 0, false, true, 0, 0)
  }

  function Advance(pointer: nat, fire: bool, k: nat): nat {
    (pointer + if fire then 1 else 0) % Pow2(k + 1)
  }

  /** One `wr_clk` edge; `sample` is what the first flop captures of the read pointer. */
  function WriteClock<T>(s: Fifo<T>, k: nat, en: bool, din: T, sample: nat): Fifo<T>
    requires s.Widths(k)
  {
    var fire := en && !s.full;
    var bin := Advance(s.wrBin, fire, k);
    s.(storage := if fire then s.storage[s.wrBin % Pow2(k) := din] else s.storage,
       wrBin := bin,
       wrGray := Gray(bin),
       rdGraySync1 := sample,
       rdGraySync2 := s.rdGraySync1,
       full := Gray(bin) == InvertTopTwo(s.rdGraySync2, k),
       overflow := if en && s.full then Wrap(s.overflow + 1, 32) else s.overflow)
  }

  /** One `rd_clk` edge; `sample` is what the first flop captures of the write pointer. */
  function ReadClock<T>(s: Fifo<T>, k: nat, en: bool, sample: nat): Fifo<T> {
    var bin := Advance(s.rdBin, en && !s.empty, k);
    s.(rdBin := bin,
       rdGray := Gray(bin),
       wrGraySync1 := sample,
       wrGraySync2 := s.wrGraySync1,
       empty := Gray(bin) == s.wrGraySync2,
       underflow := if en && s.empty then Wrap(s.underflow + 1, 32) else s.underflow)
  }

  /** The combinational output: the entry at the read pointer. */
  function Dout<T>(s: Fifo<T>, k: nat): T
    requires s.Widths(k)
  {
    s.storage[s.rdBin % Pow2(k)]
  }

  class AsyncPacketFifo<T(0)> {
    const addrWidth: nat
    var storage: array<T>
    var wrBin: nat
    var wrGray: nat
    var rdBin: nat
    var rdGray: nat
    var rdGraySync1: nat
    var rdGraySync2: nat
    var wrGraySync1: nat
    var wrGraySync2: nat
    var full: bool
    var empty: bool
    var overflow: nat
    var underflow: nat

    ghost function State(): Fifo<T>
      reads this, storage
    {
      Fifo(storage[..], wrBin, wrGray, rdBin, rdGray, rdGraySync1, rdGraySync2, wrGraySync1, wrGraySync2,
           full, empty, overflow, underflow)
    }

    constructor (addrWidth: nat)
      requires addrWidth >= 2
      ensures this.addrWidth == addrWidth && fresh(storage)
      ensures State().Widths(addrWidth) && State() == Reset(storage[..])
    {
      this.addrWidth := addrWidth;
      storage := new T[Pow2(addrWidth)];
      wrBin, wrGray, rdBin, rdGray := 0, 0, 0, 0;
      rdGraySync1, rdGraySync2, wrGraySync1, wrGraySync2 := 0, 0, 0, 0;
      full, empty, overflow, underflow := false, true, 0, 0;
    }

    method WriteEdge(en: bool, din: T, sample: nat)
      requires State().Widths(addrWidth)
      modifies this, storage
      ensures storage == old(storage)
      ensures State() == WriteClock(old(State()), addrWidth, en, din, sample)
    {
      hide Gray, InvertTopTwo, Pow2, Wrap;
      var fire := en && !full;
      var binNext := (wrBin + if fire then 1 else 0) % Pow2(addrWidth + 1);
      var fullNext := Gray(binNext) == InvertTopTwo(rdGraySync2, addrWidth);
      if en && full { overflow := Wrap(overflow + 1, 32); }
      if fire {
        ModBelow(wrBin, Pow2(addrWidth));
        storage[wrBin % Pow2(addrWidth)] := din;
      }
      wrBin, wrGray, full := binNext, Gray(binNext), fullNext;
      rdGraySync1, rdGraySync2 := sample, rdGraySync1;
    }

    method ReadEdge(en: bool, sample: nat)
      modifies this
      ensures storage == old(storage)
      ensures State() == ReadClock(old(State()), addrWidth, en, sample)
    {
      hide Gray, Pow2, Wrap;
      var binNext := (rdBin + if en && !empty then 1 else 0) % Pow2(addrWidth + 1);
      if en && empty { underflow := Wrap(underflow + 1, 32); }
      rdBin, rdGray, empty := binNext, Gray(binNext), Gray(binNext) == wrGraySync2;
      wrGraySync1, wrGraySync2 := sample, wrGraySync1;
    }
  }

  lemma {:induction false} ModBelow(a: int, m: nat)
    requires m > 0
    ensures 0 <= a % m < m
  {
  }
}

// Every interleaving of the two clocks, including coincident edges that sample a torn pointer.
module AsyncFifoSafety {
  import opened Bits
  import opened GrayCode
  import opened AsyncFifo

  /** The clock edges of a run. On coincident edges each side samples the other's pointer mid-transition. */
  datatype Edge<T> =
    | WriteEdge(en: bool, din: T)
    | ReadEdge(en: bool)
    | BothEdges(wrEn: bool, din: T, rdEn: bool, wrSample: nat, rdSample: nat)

  /**
    A run so far: the registers, every packet accepted and every packet delivered, and the unbounded
    counts behind the synchronised pointers. `rd3` and `wr3` are the counts the flags were last computed from.
   */
  datatype Run<T> = Run(f: Fifo<T>, accepted: seq<T>, delivered: seq<T>, refused: nat,
                        rd1: nat, rd2: nat, rd3: nat, wr1: nat, wr2: nat, wr3: nat)

  function Start<T>(storage: seq<T>): Run<T> {
    Run(Reset(storage), [], [], 0, 0, 0, 0, 0, 0, 0)
  }

  /** What the environment may present: a coincident sample mixes old and new bits of a pointer. */
  ghost predicate Legal<T>(r: Run<T>, k: nat, e: Edge<T>) {
    e.BothEdges? ==>
      && Torn(r.f.rdGray, Gray(Advance(r.f.rdBin, e.rdEn && !r.f.empty, k)), e.wrSample)
      && Torn(r.f.wrGray, Gray(Advance(r.f.wrBin, e.wrEn && !r.f.full, k)), e.rdSample)
  }

  function AfterWrite<T>(r: Run<T>, k: nat, en: bool, din: T, sample: nat, sampleCount: nat): Run<T>
    requires r.f.Widths(k)
  {
    r.(f := WriteClock(r.f, k, en, din, sample),
       accepted := if en && !r.f.full then r.accepted + [din] else r.accepted,
       refused := if en && r.f.full then r.refused + 1 else r.refused,
       rd1 := sampleCount, rd2 := r.rd1, rd3 := r.rd2)
  }

  function AfterRead<T>(r: Run<T>, k: nat, en: bool, out: T, sample: nat, sampleCount: nat): Run<T> {
    r.(f := ReadClock(r.f, k, en, sample),
       delivered := if en && !r.f.empty then r.delivered + [out] else r.delivered,
       wr1 := sampleCount, wr2 := r.wr1, wr3 := r.wr2)
  }

  function Next<T>(r: Run<T>, k: nat, e: Edge<T>): Run<T>
    requires r.f.Widths(k)
  {
    match e
    case WriteEdge(en, din) => AfterWrite(r, k, en, din, r.f.rdGray, |r.delivered|)
    case ReadEdge(en) => AfterRead(r, k, en, Dout(r.f, k), r.f.wrGray, |r.accepted|)
    case BothEdges(wrEn, din, rdEn, wrSample, rdSample) =>
      // Both processes read the registers as they were before the edge.
      var rdCount := |r.delivered| + if wrSample != r.f.rdGray then 1 else 0;
      var wrCount := |r.accepted| + if rdSample != r.f.wrGray then 1 else 0;
      AfterRead(AfterWrite(r, k, wrEn, din, wrSample, rdCount), k, rdEn, Dout(r.f, k), rdSample, wrCount)
  }

  /** Every edge of the run is one the environment may present where it falls. */
  ghost predicate LegalRun<T>(r: Run<T>, k: nat, edges: seq<Edge<T>>)
    requires r.f.Widths(k)
    decreases |edges|
  {
    edges == [] ||
    (Legal(r, k, edges[0]) && (Next(r, k, edges[0]).f.Widths(k) ==> LegalRun(Next(r, k, edges[0]), k, edges[1..])))
  }

  // Registers never outgrow their widths, so the run never stops short: `NextKeepsInv`.
  ghost function Exec<T>(r: Run<T>, k: nat, edges: seq<Edge<T>>): Run<T>
    requires r.f.Widths(k)
    decreases |edges|
  {
    if edges == [] then r
    else if Next(r, k, edges[0]).f.Widths(k) then Exec(Next(r, k, edges[0]), k, edges[1..])
    else Next(r, k, edges[0])
  }

  /** A pointer register is its count modulo twice the depth, in Gray code. */
  ghost predicate Codes(gray: nat, count: nat, k: nat) {
    gray == Gray(count % Pow2(k + 1))
  }

  /** The write domain: its own pointer is exact, its view of the reads is stale but on the safe side. */
  ghost predicate WriteSide<T>(r: Run<T>, k: nat) {
    && r.rd3 <= r.rd2 <= r.rd1 && |r.accepted| <= r.rd3 + Pow2(k)
    && r.f.wrBin == |r.accepted| % Pow2(k + 1) && Codes(r.f.wrGray, |r.accepted|, k)
    && Codes(r.f.rdGraySync1, r.rd1, k) && Codes(r.f.rdGraySync2, r.rd2, k)
    && (r.f.full <==> |r.accepted| == r.rd3 + Pow2(k))
    && r.f.overflow == r.refused % Pow2(32)
  }

  /** The read domain, likewise. */
  ghost predicate ReadSide<T>(r: Run<T>, k: nat) {
    && |r.delivered| <= r.wr3 <= r.wr2 <= r.wr1
    && r.f.rdBin == |r.delivered| % Pow2(k + 1) && Codes(r.f.rdGray, |r.delivered|, k)
    && Codes(r.f.wrGraySync1, r.wr1, k) && Codes(r.f.wrGraySync2, r.wr2, k)
    && (r.f.empty <==> |r.delivered| == r.wr3)
  }

  /** Every stale count is at most the true one. */
  ghost predicate Conservative<T>(r: Run<T>) {
    r.rd1 <= |r.delivered| && r.wr1 <= |r.accepted|
  }

  /** Slot `i % depth` holds packet `i` for every packet not yet delivered, and deliveries are a prefix. */
  ghost predicate Contents<T>(r: Run<T>, k: nat)
    requires |r.f.storage| == Pow2(k)
  {
    && |r.delivered| <= |r.accepted|
    && r.delivered == r.accepted[..|r.delivered|]
    && forall i {:trigger r.accepted[i]} :: |r.delivered| <= i < |r.accepted| ==>
         r.f.storage[i % Pow2(k)] == r.accepted[i]
  }

  ghost predicate Inv<T>(r: Run<T>, k: nat) {
    r.f.Widths(k) && WriteSide(r, k) && ReadSide(r, k) && Conservative(r) && Contents(r, k)
  }

  // Pointers advance with their counts.
  lemma {:induction false} AdvanceCounts(count: nat, fire: bool, k: nat)
    ensures Advance(count % Pow2(k + 1), fire, k) == (count + if fire then 1 else 0) % Pow2(k + 1)
  {
    ModAdd(count, if fire then 1 else 0, Pow2(k + 1));
  }

  // Equal codes mean equal counts, for counts closer than twice the depth.
  lemma {:induction false} SameCode(a: nat, b: nat, k: nat)
    requires a <= b < a + Pow2(k + 1)
    ensures Gray(a % Pow2(k + 1)) == Gray(b % Pow2(k + 1)) <==> a == b
  {
    hide Gray;
    if Gray(a % Pow2(k + 1)) == Gray(b % Pow2(k + 1)) {
      GrayInjective(a % Pow2(k + 1), b % Pow2(k + 1));
      ModDistinct(a, b, Pow2(k + 1));
    }
  }

  // The full test: the write pointer equals the read pointer with its top two bits inverted
  // exactly when it is one whole depth ahead.
  lemma {:induction false} FullMeansDepthAhead(wr: nat, rd: nat, k: nat)
    requires k >= 2 && rd <= wr <= rd + Pow2(k)
    ensures Gray(rd % Pow2(k + 1)) < Pow2(k + 1)
    ensures Gray(wr % Pow2(k + 1)) == InvertTopTwo(Gray(rd % Pow2(k + 1)), k) <==> wr == rd + Pow2(k)
  {
    hide Gray;
    InvertedIsHalfRangeAhead(rd % Pow2(k + 1), k);
    ModAdd(rd, Pow2(k), Pow2(k + 1));
    SameCode(wr, rd + Pow2(k), k);
  }

  lemma {:induction false} WriteKeepsSides<T>(r: Run<T>, k: nat, en: bool, din: T, sample: nat, count: nat)
    requires r.f.Widths(k) && WriteSide(r, k) && r.rd2 <= |r.accepted|
    requires sample < Pow2(k + 1) && Codes(sample, count, k) && r.rd1 <= count
    ensures
      var r' := AfterWrite(r, k, en, din, sample, count);
      && r'.f.Widths(k) && WriteSide(r', k) && (ReadSide(r, k) ==> ReadSide(r', k))
  {
    hide Gray, InvertTopTwo;
    var fire := en && !r.f.full;
    AdvanceCounts(|r.accepted|, fire, k);
    FullMeansDepthAhead(|r.accepted| + if fire then 1 else 0, r.rd2, k);
    ModAdd(r.refused, 1, Pow2(32));
  }

  // An accepted packet goes to a slot no undelivered packet occupies.
  lemma {:induction false} WriteKeepsContents<T>(r: Run<T>, k: nat, en: bool, din: T, sample: nat, count: nat)
    requires Inv(r, k)
    ensures Contents(AfterWrite(r, k, en, din, sample, count), k)
  {
    hide Gray, InvertTopTwo;
    var r' := AfterWrite(r, k, en, din, sample, count);
    if en && !r.f.full {
      var slot := r.f.wrBin % Pow2(k);
      ModOfMod(|r.accepted|, k);
      assert r'.delivered == r'.accepted[..|r'.delivered|];
      forall i {:trigger r'.accepted[i]} | |r'.delivered| <= i < |r'.accepted|
        ensures r'.f.storage[i % Pow2(k)] == r'.accepted[i]
      {
        if i < |r.accepted| && i % Pow2(k) == slot {
          ModDistinct(i, |r.accepted|, Pow2(k));
        }
      }
    }
  }

  // The address bits of a pointer are its count modulo the depth.
  lemma {:induction false} ModOfMod(n: nat, k: nat)
    ensures (n % Pow2(k + 1)) % Pow2(k) == n % Pow2(k)
  {
    var m := Pow2(k);
    var q, t := n / (2 * m), n % (2 * m);
    assert n == q * (2 * m) + t;
    var p, u := t / m, t % m;
    assert n == (2 * q + p) * m + u by {
      assert t == p * m + u;
      Distribute(2 * q, p, m);
      MulAssoc(q, 2, m);
    }
    ModUnique(n, 2 * q + p, u, m);
  }

  lemma {:induction false} ReadKeepsSides<T>(r: Run<T>, k: nat, en: bool, out: T, sample: nat, count: nat)
    requires r.f.Widths(k) && ReadSide(r, k) && r.wr2 <= |r.delivered| + Pow2(k)
    requires Codes(sample, count, k) && r.wr1 <= count
    ensures
      var r' := AfterRead(r, k, en, out, sample, count);
      && r'.f.Widths(k) && ReadSide(r', k) && (WriteSide(r, k) ==> WriteSide(r', k))
  {
    hide Gray;
    var fire := en && !r.f.empty;
    AdvanceCounts(|r.delivered|, fire, k);
    SameCode(|r.delivered| + if fire then 1 else 0, r.wr2, k);
  }

  // The entry at the read pointer is the next packet in order whenever the FIFO is not empty.
  lemma {:induction false} DoutIsNext<T>(r: Run<T>, k: nat)
    requires Inv(r, k) && !r.f.empty
    ensures |r.delivered| < |r.accepted| && Dout(r.f, k) == r.accepted[|r.delivered|]
  {
    hide Gray, InvertTopTwo;
    ModOfMod(|r.delivered|, k);
    assert r.accepted[|r.delivered|] == r.f.storage[|r.delivered| % Pow2(k)];
  }

  lemma {:induction false} ReadKeepsContents<T>(r: Run<T>, k: nat, en: bool, out: T, sample: nat, count: nat)
    requires r.f.Widths(k) && Contents(r, k)
    requires en && !r.f.empty ==> |r.delivered| < |r.accepted| && out == r.accepted[|r.delivered|]
    ensures Contents(AfterRead(r, k, en, out, sample, count), k)
  {
    hide Gray, InvertTopTwo;
    var r' := AfterRead(r, k, en, out, sample, count);
    if en && !r.f.empty {
      assert r'.accepted[..|r'.delivered|] == r.accepted[..|r.delivered|] + [r.accepted[|r.delivered|]];
    }
  }

  // A torn sample of a pointer is the code of its old or its new count.
  lemma {:induction false} TornSampleCodes(gray: nat, count: nat, fire: bool, sample: nat, k: nat)
    requires Codes(gray, count, k)
    requires Torn(gray, Gray(Advance(count % Pow2(k + 1), fire, k)), sample)
    ensures sample < Pow2(k + 1)
    ensures sample == gray || (fire && Codes(sample, count + 1, k))
  {
    hide Gray;
    var n := count % Pow2(k + 1);
    AdvanceCounts(count, fire, k);
    if fire {
      CountingFlipsOneBit(n, k + 1);
      TornIsOldOrNew(gray, Gray((n + 1) % Pow2(k + 1)), sample);
    } else {
      ModSmall(n, Pow2(k + 1));
      TornSelf(gray, sample);
    }
    GrayBound(n, k + 1);
    GrayBound((count + 1) % Pow2(k + 1), k + 1);
  }

  lemma {:induction false} NextKeepsInv<T>(r: Run<T>, k: nat, e: Edge<T>)
    requires Inv(r, k) && Legal(r, k, e)
    ensures Inv(Next(r, k, e), k)
  {
    hide Gray, InvertTopTwo, Contents;
    match e
    case WriteEdge(en, din) =>
      GrayBound(r.f.rdBin, k + 1);
      WriteKeepsSides(r, k, en, din, r.f.rdGray, |r.delivered|);
      WriteKeepsContents(r, k, en, din, r.f.rdGray, |r.delivered|);
    case ReadEdge(en) =>
      if !r.f.empty { DoutIsNext(r, k); }
      ReadKeepsSides(r, k, en, Dout(r.f, k), r.f.wrGray, |r.accepted|);
      ReadKeepsContents(r, k, en, Dout(r.f, k), r.f.wrGray, |r.accepted|);
    case BothEdges(wrEn, din, rdEn, wrSample, rdSample) =>
      CoincidentKeepsInv(r, k, e);
  }

  lemma {:induction false} CoincidentKeepsInv<T>(r: Run<T>, k: nat, e: Edge<T>)
    requires Inv(r, k) && Legal(r, k, e) && e.BothEdges?
    ensures Inv(Next(r, k, e), k)
  {
    hide Gray, InvertTopTwo, Contents, WriteClock, ReadClock, Torn, Pow2, Codes;
    var out := Dout(r.f, k);
    if !r.f.empty { DoutIsNext(r, k); }
    var wrCount := |r.accepted| + if e.rdSample != r.f.wrGray then 1 else 0;
    WriteSampleCodes(r, k, e);
    var mid := CoincidentWrite(r, k, e);
    ReadKeepsSides(mid, k, e.rdEn, out, e.rdSample, wrCount);
    ReadKeepsContents(mid, k, e.rdEn, out, e.rdSample, wrCount);
  }

  // What the read process captures of a moving write pointer.
  lemma {:induction false} WriteSampleCodes<T>(r: Run<T>, k: nat, e: Edge<T>)
    requires Inv(r, k) && Legal(r, k, e) && e.BothEdges?
    ensures Codes(e.rdSample, |r.accepted| + if e.rdSample != r.f.wrGray then 1 else 0, k)
    ensures e.rdSample < Pow2(k + 1) && (e.rdSample != r.f.wrGray ==> e.wrEn && !r.f.full)
  {
    hide Gray, InvertTopTwo, Contents, Torn, Pow2;
    TornSampleCodes(r.f.wrGray, |r.accepted|, e.wrEn && !r.f.full, e.rdSample, k);
  }

  // The write half of a coincident edge; it touches none of the read process's registers.
  ghost function CoincidentWrite<T>(r: Run<T>, k: nat, e: Edge<T>): (mid: Run<T>)
    requires Inv(r, k) && Legal(r, k, e) && e.BothEdges?
    ensures mid.f.Widths(k) && WriteSide(mid, k) && ReadSide(mid, k) && Contents(mid, k)
    ensures mid.rd1 <= |r.delivered| + if e.rdEn && !r.f.empty then 1 else 0
    ensures mid.f.empty == r.f.empty && mid.f.rdBin == r.f.rdBin && mid.wr2 == r.wr2 && mid.wr1 == r.wr1
    ensures mid.delivered == r.delivered
    ensures mid.accepted == if e.wrEn && !r.f.full then r.accepted + [e.din] else r.accepted
    ensures mid == AfterWrite(r, k, e.wrEn, e.din, e.wrSample,
                              |r.delivered| + if e.wrSample != r.f.rdGray then 1 else 0)
  {
    var rdCount := |r.delivered| + if e.wrSample != r.f.rdGray then 1 else 0;
    TornSampleCodes(r.f.rdGray, |r.delivered|, e.rdEn && !r.f.empty, e.wrSample, k);
    WriteKeepsSides(r, k, e.wrEn, e.din, e.wrSample, rdCount);
    WriteKeepsContents(r, k, e.wrEn, e.din, e.wrSample, rdCount);
    AfterWrite(r, k, e.wrEn, e.din, e.wrSample, rdCount)
  }

  lemma {:induction false} StartInv<T>(storage: seq<T>, k: nat)
    requires k >= 2 && |storage| == Pow2(k)
    ensures Inv(Start(storage), k)
  {
    assert Gray(0) == 0;
    ModSmall(0, Pow2(k + 1));
    ModSmall(0, Pow2(32));
  }

  lemma {:induction false} ExecKeepsInv<T>(r: Run<T>, k: nat, edges: seq<Edge<T>>)
    requires Inv(r, k) && LegalRun(r, k, edges)
    ensures Inv(Exec(r, k, edges), k)
    decreases |edges|
  {
    hide Next, WriteSide, ReadSide, Contents, Legal;
    if edges != [] {
      NextKeepsInv(r, k, edges[0]);
      ExecKeepsInv(Next(r, k, edges[0]), k, edges[1..]);
    }
  }

  /**
    Every run of either clock from reset, however the edges interleave: the packets read are a prefix of
    the packets accepted, the backlog never exceeds the depth, and every refused write is counted.
   */
  lemma {:induction false} FifoSafety<T>(storage: seq<T>, k: nat, edges: seq<Edge<T>>)
    requires k >= 2 && |storage| == Pow2(k)
    ensures Start(storage).f.Widths(k)
    ensures LegalRun(Start(storage), k, edges) ==>
      var r := Exec(Start(storage), k, edges);
      && |r.delivered| <= |r.accepted| <= |r.delivered| + Pow2(k)
      && r.delivered == r.accepted[..|r.delivered|]
      && r.f.overflow == r.refused % Pow2(32)
      && (r.f.full ==> |r.accepted| > 0) && (!r.f.empty ==> |r.delivered| < |r.accepted|)
  {
    hide Exec, LegalRun;
    StartInv(storage, k);
    if LegalRun(Start(storage), k, edges) { ExecKeepsInv(Start(storage), k, edges); }
  }

  /** A read edge with the consumer always ready, repeated. */
  function Reads<T>(n: nat): (edges: seq<Edge<T>>)
    ensures |edges| == n
  {
    if n == 0 then [] else [ReadEdge(true)] + Reads(n - 1)
  }

  lemma {:induction false} Drains<T>(r: Run<T>, k: nat, n: nat)
    requires Inv(r, k)
    requires n >= |r.accepted| - |r.delivered| +
      (if r.wr3 == |r.accepted| then 0 else if r.wr2 == |r.accepted| then 1 else if r.wr1 == |r.accepted| then 2 else 3)
    ensures Exec(r, k, Reads(n)).delivered == r.accepted
    decreases n
  {
    hide Gray, InvertTopTwo;
    if n > 0 {
      var e: Edge<T> := ReadEdge(true);
      NextKeepsInv(r, k, e);
      var r' := Next(r, k, e);
      assert r'.accepted == r.accepted && r'.wr3 == r.wr2 && r'.wr2 == r.wr1 && r'.wr1 == |r.accepted|;
      Drains(r', k, n - 1);
      assert Reads<T>(n)[1..] == Reads(n - 1);
    }
  }

  /**
    Nothing is stranded: after any run, once the writer falls quiet three read edges bring the write pointer
    across and each further one delivers a packet, until everything accepted has been delivered.
   */
  lemma {:induction false} QuietWriterDrains<T>(storage: seq<T>, k: nat, edges: seq<Edge<T>>, n: nat)
    requires k >= 2 && |storage| == Pow2(k)
    ensures Start(storage).f.Widths(k)
    ensures LegalRun(Start(storage), k, edges) ==>
      var r := Exec(Start(storage), k, edges);
      r.f.Widths(k) && (n >= |r.accepted| - |r.delivered| + 3 ==> Exec(r, k, Reads(n)).delivered == r.accepted)
  {
    hide Exec, LegalRun, Reads;
    StartInv(storage, k);
    if LegalRun(Start(storage), k, edges) {
      ExecKeepsInv(Start(storage), k, edges);
      var r := Exec(Start(storage), k, edges);
      if n >= |r.accepted| - |r.delivered| + 3 { Drains(r, k, n); }
    }
  }

  /** The full flag does not stick: after any run, with the reader quiet, three write edges make it exact. */
  lemma {:induction false} QuietReaderFullIsExact<T>(storage: seq<T>, k: nat, edges: seq<Edge<T>>, a: T, b: T, c: T)
    requires k >= 2 && |storage| == Pow2(k)
    ensures Start(storage).f.Widths(k)
    ensures LegalRun(Start(storage), k, edges) ==>
      var r := Exec(Start(storage), k, edges);
      && r.f.Widths(k)
      && var later := Exec(r, k, [WriteEdge(false, a), WriteEdge(false, b), WriteEdge(false, c)]);
        && later.accepted == r.accepted && later.delivered == r.delivered
        && (later.f.full <==> |r.accepted| == |r.delivered| + Pow2(k))
  {
    hide Exec, LegalRun;
    StartInv(storage, k);
    if LegalRun(Start(storage), k, edges) {
      ExecKeepsInv(Start(storage), k, edges);
      FullSettles(Exec(Start(storage), k, edges), k, a, b, c);
    }
  }

  lemma {:induction false} FullSettles<T>(r: Run<T>, k: nat, a: T, b: T, c: T)
    requires Inv(r, k)
    ensures
      var later := Exec(r, k, [WriteEdge(false, a), WriteEdge(false, b), WriteEdge(false, c)]);
      && later.accepted == r.accepted && later.delivered == r.delivered
      && (later.f.full <==> |r.accepted| == |r.delivered| + Pow2(k))
  {
    hide Gray, InvertTopTwo, Contents;
    var r1, r2 := QuietWrite(r, k, a), QuietWrite(QuietWrite(r, k, a), k, b);
    var r3 := QuietWrite(r2, k, c);
    ExecOne(r2, k, WriteEdge(false, c), []);
    ExecOne(r1, k, WriteEdge(false, b), [WriteEdge(false, c)]);
    ExecOne(r, k, WriteEdge(false, a), [WriteEdge(false, b), WriteEdge(false, c)]);
    assert [WriteEdge(false, c)] + [] == [WriteEdge(false, c)];
    assert [WriteEdge(false, b)] + [WriteEdge(false, c)] == [WriteEdge(false, b), WriteEdge(false, c)];
    assert [WriteEdge(false, a)] + [WriteEdge(false, b), WriteEdge(false, c)]
        == [WriteEdge(false, a), WriteEdge(false, b), WriteEdge(false, c)];
  }

  // A write edge with the producer idle moves the synchroniser along and nothing else.
  ghost function QuietWrite<T>(r: Run<T>, k: nat, din: T): (r': Run<T>)
    requires Inv(r, k)
    ensures Inv(r', k) && r' == Next(r, k, WriteEdge(false, din))
    ensures r'.accepted == r.accepted && r'.delivered == r.delivered
    ensures r'.rd1 == |r.delivered| && r'.rd2 == r.rd1 && r'.rd3 == r.rd2
  {
    NextKeepsInv(r, k, WriteEdge(false, din));
    Next(r, k, WriteEdge(false, din))
  }

  lemma {:induction false} ExecOne<T>(r: Run<T>, k: nat, e: Edge<T>, rest: seq<Edge<T>>)
    requires r.f.Widths(k) && Next(r, k, e).f.Widths(k)
    ensures Exec(r, k, [e] + rest) == Exec(Next(r, k, e), k, rest)
  {
    hide Next;
    assert ([e] + rest)[1..] == rest;
  }
}
