// Forward returns while streaming: a priority queue of open measurements against a scan over the later quotes.
module ForwardReturns {
  import opened Bits

  datatype Option<T> = None | Some(value: T)

  datatype Quote = Quote(timestamp: nat, symbol: nat, bid: nat, ask: nat)

  /** An actionable candidate. */
  datatype Candidate = Candidate(timestamp: nat, symbol: nat, long: bool, score: nat, reason: nat)

  datatype Event = Quoted(quote: Quote) | Signalled(candidate: Candidate)

  /** One measurement: a candidate over one horizon, from its entry price if it had one. */
  datatype Item = Item(candidate: Candidate, horizon: nat, entry: Option<nat>)
  {
    function Target(): nat {
      candidate.timestamp + horizon
    }
  }

  datatype Row = Row(item: Item, bps: Option<real>)

  function ExitPrice(x: Item, q: Quote): nat {
    if x.candidate.long then q.bid else q.ask
  }

  /** The signed move from entry to exit, in basis points of the entry. */
  function Return(x: Item, q: Quote): Option<real> {
    if x.entry.None? || x.entry.value == 0 then None
    else
      var entry, exit := x.entry.value as real, ExitPrice(x, q) as real;
      Some((if x.candidate.long then exit - entry else entry - exit) / entry * 10000.0)
  }

  /** A quote of the symbol at or past the target that has a price to exit at (or nothing to measure). */
  predicate Settles(q: Quote, x: Item) {
    && q.symbol == x.candidate.symbol && x.candidate.timestamp + x.horizon <= q.timestamp
    && (x.entry.None? || ExitPrice(x, q) > 0)
  }

  // ---- The scan over later events ----

  datatype Fate = Open | Done(bps: Option<real>)

  function FateOf(x: Item, later: seq<Event>): Fate {
    if later == [] then Open
    else match FateOf(x, later[..|later| - 1])
      case Done(r) => Done(r)
      case Open =>
        var e := later[|later| - 1];
        if e.Quoted? && Settles(e.quote, x) then Done(Return(x, e.quote)) else Open
  }

  predicate SettledAt(x: Item, later: seq<Event>, k: nat)
    requires k < |later|
  {
    later[k].Quoted? && Settles(later[k].quote, x)
  }

  predicate FirstSettledAt(x: Item, later: seq<Event>, k: nat)
    requires k < |later|
  {
    SettledAt(x, later, k) && forall m :: 0 <= m < k ==> !SettledAt(x, later, m)
  }

  lemma {:induction false} SettledInFront(x: Item, later: seq<Event>, n: nat)
    requires n <= |later|
    ensures forall k :: 0 <= k < n ==> (SettledAt(x, later[..n], k) <==> SettledAt(x, later, k))
    ensures forall k :: 0 <= k < n ==> (FirstSettledAt(x, later[..n], k) <==> FirstSettledAt(x, later, k))
  {
    hide Settles;
  }

  /**
    A measurement is closed by the first later quote that settles it, with the return to that quote, and by no
    other.
   */
  lemma {:induction false} FateIsFirstSettling(x: Item, later: seq<Event>)
    ensures FateOf(x, later) == Open <==> forall k :: 0 <= k < |later| ==> !SettledAt(x, later, k)
    ensures forall k :: 0 <= k < |later| && FirstSettledAt(x, later, k) ==>
      FateOf(x, later) == Done(Return(x, later[k].quote))
  {
    hide Settles, Return;
    if later != [] {
      var last := |later| - 1;
      FateIsFirstSettling(x, later[..last]);
      SettledInFront(x, later, last);
      if FateOf(x, later) == Open {
        assert FateOf(x, later[..last]) == Open;
        forall k | 0 <= k < |later| ensures !SettledAt(x, later, k) {
          if k < last { assert !SettledAt(x, later[..last], k); }
        }
      } else if FateOf(x, later[..last]) == Open {
        assert SettledAt(x, later, last);
      } else {
        var k :| 0 <= k < last && SettledAt(x, later[..last], k);
        assert SettledAt(x, later, k);
      }
      forall k | 0 <= k < |later| && FirstSettledAt(x, later, k)
        ensures FateOf(x, later) == Done(Return(x, later[k].quote)) {
        if k < last { assert FirstSettledAt(x, later[..last], k); }
      }
    }
  }

  /** The latest quote of a symbol observed so far. */
  function LastQuote(evs: seq<Event>, symbol: nat): Option<Quote> {
    if evs == [] then None
    else
      var e := evs[|evs| - 1];
      if e.Quoted? && e.quote.symbol == symbol then Some(e.quote) else LastQuote(evs[..|evs| - 1], symbol)
  }

  function EntryPrice(c: Candidate, q: Option<Quote>): Option<nat> {
    if q.Some? && q.value.timestamp <= c.timestamp then
      var price := if c.long then q.value.ask else q.value.bid;
      if price > 0 then Some(price) else None
    else None
  }

  /** The measurements a candidate opens, one per horizon. */
  function NewItems(c: Candidate, entry: Option<nat>, horizons: seq<nat>): (xs: seq<Item>)
    ensures |xs| == |horizons| && forall k :: 0 <= k < |xs| ==> xs[k] == Item(c, horizons[k], entry)
  {
    seq(|horizons|, k requires 0 <= k < |horizons| => Item(c, horizons[k], entry))
  }

  datatype Born = Born(item: Item, at: nat)

  function BornAt(xs: seq<Item>, at: nat): (r: seq<Born>)
    ensures |r| == |xs| && forall k :: 0 <= k < |r| ==> r[k] == Born(xs[k], at)
  {
    seq(|xs|, k requires 0 <= k < |xs| => Born(xs[k], at))
  }

  /** Every measurement opened by a stream of events, with the number of events seen when it was. */
  function Created(evs: seq<Event>, horizons: seq<nat>): seq<Born> {
    if evs == [] then []
    else
      var before, e := evs[..|evs| - 1], evs[|evs| - 1];
      Created(before, horizons) +
        if e.Quoted? then []
        else BornAt(NewItems(e.candidate, EntryPrice(e.candidate, LastQuote(before, e.candidate.symbol)), horizons),
          |evs|)
  }

  predicate BornWithin(born: seq<Born>, n: nat) {
    forall k :: 0 <= k < |born| ==> born[k].at <= n
  }

  lemma {:induction false} CreatedWithin(evs: seq<Event>, horizons: seq<nat>)
    ensures BornWithin(Created(evs, horizons), |evs|)
  {
    if evs != [] { CreatedWithin(evs[..|evs| - 1], horizons); }
  }

  /** The measurements still open after all of `evs`. */
  function OpenOnes(born: seq<Born>, evs: seq<Event>): multiset<Item>
    requires BornWithin(born, |evs|)
  {
    if born == [] then multiset{}
    else
      var b := born[|born| - 1];
      OpenOnes(born[..|born| - 1], evs) + if FateOf(b.item, evs[b.at..]).Open? then multiset{b.item} else multiset{}
  }

  /** The rows of the measurements closed within `evs`. */
  function DoneOnes(born: seq<Born>, evs: seq<Event>): multiset<Row>
    requires BornWithin(born, |evs|)
  {
    if born == [] then multiset{}
    else
      var b := born[|born| - 1];
      var fate := FateOf(b.item, evs[b.at..]);
      DoneOnes(born[..|born| - 1], evs) + if fate.Done? then multiset{Row(b.item, fate.bps)} else multiset{}
  }

  /** One row per measurement: the return the scan finds, or none. */
  function ScanRows(born: seq<Born>, evs: seq<Event>): multiset<Row>
    requires BornWithin(born, |evs|)
  {
    if born == [] then multiset{}
    else
      var b := born[|born| - 1];
      var fate := FateOf(b.item, evs[b.at..]);
      ScanRows(born[..|born| - 1], evs) + multiset{Row(b.item, if fate.Done? then fate.bps else None)}
  }

  lemma {:induction false} FateSnoc(x: Item, evs: seq<Event>, at: nat, e: Event)
    requires at <= |evs|
    ensures
      var before := FateOf(x, evs[at..]);
      FateOf(x, (evs + [e])[at..]) ==
        if before.Open? && e.Quoted? && Settles(e.quote, x) then Done(Return(x, e.quote)) else before
  {
    hide Settles, Return;
    var later := (evs + [e])[at..];
    assert later[..|later| - 1] == evs[at..] && later[|later| - 1] == e;
  }

  // One more quote closes every open measurement it settles, and leaves the rest.
  lemma {:induction false} QuoteCloses(born: seq<Born>, evs: seq<Event>, e: Event, x: Item)
    requires BornWithin(born, |evs|)
    ensures OpenOnes(born, evs + [e])[x] == if e.Quoted? && Settles(e.quote, x) then 0 else OpenOnes(born, evs)[x]
    decreases |born|
  {
    hide Settles, FateOf;
    if born != [] {
      var b := born[|born| - 1];
      QuoteCloses(born[..|born| - 1], evs, e, x);
      FateSnoc(b.item, evs, b.at, e);
    }
  }

  lemma {:induction false} QuoteRecords(born: seq<Born>, evs: seq<Event>, e: Event, r: Row)
    requires BornWithin(born, |evs|)
    ensures DoneOnes(born, evs + [e])[r] == DoneOnes(born, evs)[r] +
      if e.Quoted? && Settles(e.quote, r.item) && r.bps == Return(r.item, e.quote) then OpenOnes(born, evs)[r.item]
        else 0
    decreases |born|
  {
    hide Settles, FateOf, Return;
    if born != [] {
      var b := born[|born| - 1];
      QuoteRecords(born[..|born| - 1], evs, e, r);
      FateSnoc(b.item, evs, b.at, e);
    }
  }

  // ---- The accumulator ----

  /** A queue entry: least target first, then earliest pushed. */
  datatype Entry = Entry(target: nat, id: nat, item: Item)

  predicate Before(a: Entry, b: Entry) {
    a.target < b.target || (a.target == b.target && a.id <= b.id)
  }

  predicate Sorted(heap: seq<Entry>) {
    forall i, j :: 0 <= i < j < |heap| ==> heap[i].target <= heap[j].target
  }

  function Push(heap: seq<Entry>, e: Entry): seq<Entry>
    decreases |heap|
  {
    if heap == [] then [e]
    else if Before(heap[0], e) then [heap[0]] + Push(heap[1..], e)
    else [e] + heap
  }

  function PushAll(heap: seq<Entry>, items: seq<Item>, id: nat): seq<Entry>
    decreases |items|
  {
    if items == [] then heap
    else PushAll(Push(heap, Entry(items[0].Target(), id + 1, items[0])), items[1..], id + 1)
  }

  datatype Popped = Popped(rows: seq<Row>, retry: seq<Item>, rest: seq<Entry>)

  /** Pops every entry that is due: it becomes a row, or goes back for lack of an exit price. */
  function PopDue(heap: seq<Entry>, q: Quote): Popped {
    if heap == [] || heap[0].target > q.timestamp then Popped([], [], heap)
    else
      var p, x := PopDue(heap[1..], q), heap[0].item;
      if x.entry.None? || ExitPrice(x, q) > 0 then p.(rows := [Row(x, Return(x, q))] + p.rows)
      else p.(retry := [x] + p.retry)
  }

  datatype Accumulator = Accumulator(
    lastQuotes: map<nat, Quote>, pending: map<nat, seq<Entry>>, symbols: seq<nat>, pendingId: nat, rows: seq<Row>)

  const Fresh := Accumulator(map[], map[], [], 0, [])

  function Heap(a: Accumulator, symbol: nat): seq<Entry> {
    if symbol in a.pending then a.pending[symbol] else []
  }

  /** The mapping creates a symbol's queue the first time it is looked up. */
  function WithHeap(a: Accumulator, symbol: nat, heap: seq<Entry>): Accumulator {
    a.(pending := a.pending[symbol := heap], symbols := if symbol in a.pending then a.symbols else a.symbols + [symbol])
  }

  function ObserveQuote(a: Accumulator, q: Quote): Accumulator {
    var p := PopDue(Heap(a, q.symbol), q);
    WithHeap(a.(lastQuotes := a.lastQuotes[q.symbol := q], rows := a.rows + p.rows,
      pendingId := a.pendingId + |p.retry|),
             q.symbol, PushAll(p.rest, p.retry, a.pendingId))
  }

  function ObserveCandidate(a: Accumulator, c: Candidate, horizons: seq<nat>): Accumulator {
    var quote := if c.symbol in a.lastQuotes then Some(a.lastQuotes[c.symbol]) else None;
    var items := NewItems(c, EntryPrice(c, quote), horizons);
    if items == [] then a
    else WithHeap(a.(pendingId := a.pendingId + |items|), c.symbol, PushAll(Heap(a, c.symbol), items, a.pendingId))
  }

  function Unmeasured(heap: seq<Entry>): seq<Row> {
    if heap == [] then [] else [Row(heap[0].item, None)] + Unmeasured(heap[1..])
  }

  function DrainAll(a: Accumulator, symbols: seq<nat>): seq<Row> {
    if symbols == [] then [] else DrainAll(a, symbols[..|symbols| - 1]) + Unmeasured(Heap(a, symbols[|symbols| - 1]))
  }

  function Finish(a: Accumulator): seq<Row> {
    a.rows + DrainAll(a, a.symbols)
  }

  function Observe(a: Accumulator, e: Event, horizons: seq<nat>): Accumulator {
    match e
    case Quoted(q) => ObserveQuote(a, q)
    case Signalled(c) => ObserveCandidate(a, c, horizons)
  }

  function Stream(evs: seq<Event>, horizons: seq<nat>): Accumulator {
    if evs == [] then Fresh else Observe(Stream(evs[..|evs| - 1], horizons), evs[|evs| - 1], horizons)
  }

  class ForwardAccumulator {
    const horizons: seq<nat>
    var lastQuotes: map<nat, Quote>
    var pending: map<nat, seq<Entry>>
    var symbols: seq<nat>
    var pendingId: nat
    var rows: seq<Row>

    ghost function View(): Accumulator
      reads this
    {
      Accumulator(lastQuotes, pending, symbols, pendingId, rows)
    }

    constructor (horizons: seq<nat>)
      ensures this.horizons == horizons && View() == Fresh
    {
      this.horizons := horizons;
      lastQuotes, pending, symbols, pendingId, rows := map[], map[], [], 0, [];
    }

    // Popping the first due entry.
    static lemma {:induction false} PopFirst(rows: seq<Row>, retry: seq<Item>, heap: seq<Entry>, q: Quote)
      ensures
        if heap == [] || heap[0].target > q.timestamp then PopDue(heap, q) == Popped([], [], heap)
        else
          var x, p, rest := heap[0].item, PopDue(heap, q), PopDue(heap[1..], q);
          var settled := x.entry.None? || ExitPrice(x, q) > 0;
          && rows + p.rows == (if settled then rows + [Row(x, Return(x, q))] else rows) + rest.rows
          && retry + p.retry == (if settled then retry else retry + [x]) + rest.retry && p.rest == rest.rest
    {
      hide Return, ExitPrice;
    }

    method SeeQuote(q: Quote)
      modifies this
      ensures View() == ObserveQuote(old(View()), q)
    {
      hide Return, ExitPrice, PopDue, PushAll, Push;
      lastQuotes := lastQuotes[q.symbol := q];
      var heap := if q.symbol in pending then pending[q.symbol] else [];
      var retry: seq<Item> := [];
      ghost var all := PopDue(heap, q);
      while heap != [] && heap[0].target <= q.timestamp
        invariant rows + PopDue(heap, q).rows == old(rows) + all.rows
        invariant retry + PopDue(heap, q).retry == all.retry && PopDue(heap, q).rest == all.rest
        invariant pending == old(pending) && symbols == old(symbols) && pendingId == old(pendingId)
          && lastQuotes == old(lastQuotes)[q.symbol := q]
        decreases |heap|
      {
        PopFirst(rows, retry, heap, q);
        var x := heap[0].item;
        heap := heap[1..];
        if x.entry.None? || ExitPrice(x, q) > 0 {
          rows := rows + [Row(x, Return(x, q))];
        } else {
          retry := retry + [x];
        }
      }
      PopFirst(rows, retry, heap, q);
      assert PopDue(heap, q) == Popped([], [], heap) && rows == old(rows) + all.rows && retry == all.retry;
      heap := Requeue(heap, retry);
      StoreHeap(q.symbol, heap);
    }

    method Requeue(heap: seq<Entry>, items: seq<Item>) returns (r: seq<Entry>)
      modifies this`pendingId
      ensures r == PushAll(heap, items, old(pendingId)) && pendingId == old(pendingId) + |items|
    {
      hide Push;
      r := heap;
      for k := 0 to |items|
        invariant pendingId == old(pendingId) + k
          && PushAll(r, items[k..], pendingId) == PushAll(heap, items, old(pendingId))
      {
        assert items[k..][1..] == items[k + 1..];
        pendingId := pendingId + 1;
        r := Push(r, Entry(items[k].Target(), pendingId, items[k]));
      }
    }

    method StoreHeap(symbol: nat, heap: seq<Entry>)
      modifies this`pending, this`symbols
      ensures View() == WithHeap(old(View()), symbol, heap)
    {
      if symbol !in pending { symbols := symbols + [symbol]; }
      pending := pending[symbol := heap];
    }

    method SeeCandidate(c: Candidate)
      modifies this
      ensures View() == ObserveCandidate(old(View()), c, horizons)
    {
      hide EntryPrice, PushAll;
      var quote := if c.symbol in lastQuotes then Some(lastQuotes[c.symbol]) else None;
      var items := NewItems(c, EntryPrice(c, quote), horizons);
      if items == [] { return; }
      var heap := if c.symbol in pending then pending[c.symbol] else [];
      heap := Requeue(heap, items);
      StoreHeap(c.symbol, heap);
    }
  }

  // ---- Queue lemmas ----

  function ItemsOf(heap: seq<Entry>): multiset<Item> {
    if heap == [] then multiset{} else multiset{heap[0].item} + ItemsOf(heap[1..])
  }

  predicate Proper(heap: seq<Entry>, symbol: nat) {
    Sorted(heap) && forall k :: 0 <= k < |heap| ==>
      heap[k].target == heap[k].item.Target() && heap[k].item.candidate.symbol == symbol
  }

  lemma {:induction false} PushItems(heap: seq<Entry>, e: Entry)
    ensures ItemsOf(Push(heap, e)) == ItemsOf(heap) + multiset{e.item}
    ensures forall t :: t in Push(heap, e) ==> t == e || t in heap
    decreases |heap|
  {
    hide Before;
    if heap != [] && Before(heap[0], e) {
      PushItems(heap[1..], e);
      assert Push(heap, e)[1..] == Push(heap[1..], e);
    } else {
      assert ([e] + heap)[1..] == heap;
    }
  }

  lemma {:induction false} PushKeeps(heap: seq<Entry>, e: Entry, symbol: nat)
    requires Proper(heap, symbol) && e.target == e.item.Target() && e.item.candidate.symbol == symbol
    ensures Proper(Push(heap, e), symbol)
    decreases |heap|
  {
    if heap != [] && Before(heap[0], e) {
      var rest := heap[1..];
      PushKeeps(rest, e, symbol);
      PushItems(rest, e);
      hide Push, ItemsOf, Item.Target;
      forall t | t in Push(rest, e) ensures heap[0].target <= t.target {
        if t != e { assert t in rest; }
      }
    }
  }

  lemma {:induction false} PushAllKeeps(heap: seq<Entry>, items: seq<Item>, id: nat, symbol: nat)
    requires Proper(heap, symbol) && forall k :: 0 <= k < |items| ==> items[k].candidate.symbol == symbol
    ensures Proper(PushAll(heap, items, id), symbol)
    ensures ItemsOf(PushAll(heap, items, id)) == ItemsOf(heap) + multiset(items)
    decreases |items|
  {
    hide Proper, Push, ItemsOf;
    if items != [] {
      var e := Entry(items[0].Target(), id + 1, items[0]);
      PushKeeps(heap, e, symbol);
      PushItems(heap, e);
      PushAllKeeps(Push(heap, e), items[1..], id + 1, symbol);
      assert items == [items[0]] + items[1..];
    }
  }

  lemma {:induction false} HeapSymbol(heap: seq<Entry>, symbol: nat, x: Item)
    requires Proper(heap, symbol) && x.candidate.symbol != symbol
    ensures ItemsOf(heap)[x] == 0
    decreases |heap|
  {
    if heap != [] { HeapSymbol(heap[1..], symbol, x); }
  }

  lemma {:induction false} NothingDue(heap: seq<Entry>, symbol: nat, q: Quote, x: Item)
    requires Proper(heap, symbol) && (heap != [] ==> heap[0].target > q.timestamp)
    ensures Settles(q, x) ==> ItemsOf(heap)[x] == 0
    decreases |heap|
  {
    if heap != [] {
      assert heap[1..] != [] ==> heap[1].target >= heap[0].target;
      NothingDue(heap[1..], symbol, q, x);
    }
  }

  lemma {:induction false} PopKeeps(heap: seq<Entry>, q: Quote)
    requires Proper(heap, q.symbol)
    ensures
      var p := PopDue(heap, q);
      Proper(p.rest, q.symbol) && forall k :: 0 <= k < |p.retry| ==> p.retry[k].candidate.symbol == q.symbol
    decreases |heap|
  {
    hide Return;
    if heap != [] && heap[0].target <= q.timestamp { PopKeeps(heap[1..], q); }
  }

  // A quote takes exactly the entries it settles out of the queue.
  lemma {:induction false} PopTakesSettled(heap: seq<Entry>, q: Quote, x: Item)
    requires Proper(heap, q.symbol)
    ensures ItemsOf(PopDue(heap, q).rest)[x] + multiset(PopDue(heap, q).retry)[x] == if Settles(q, x) then 0
      else ItemsOf(heap)[x]
    decreases |heap|
  {
    if heap == [] || heap[0].target > q.timestamp {
      NothingDue(heap, q.symbol, q, x);
    } else {
      PopTakesSettled(heap[1..], q, x);
      var p := PopDue(heap[1..], q);
      assert heap[0].item.Target() <= q.timestamp && heap[0].item.candidate.symbol == q.symbol;
      hide Proper, Return;
      if PopDue(heap, q).retry != p.retry { HeadCount(heap[0].item, p.retry, x); }
    }
  }

  lemma {:induction false} HeadCount<T>(head: T, xs: seq<T>, x: T)
    ensures multiset([head] + xs)[x] == multiset(xs)[x] + if x == head then 1 else 0
  {
    assert multiset([head] + xs) == multiset{head} + multiset(xs);
  }

  lemma {:induction false} PopRecordsSettled(heap: seq<Entry>, q: Quote, r: Row)
    requires Proper(heap, q.symbol)
    ensures multiset(PopDue(heap, q).rows)[r] == if Settles(q, r.item) && r.bps == Return(r.item, q)
      then ItemsOf(heap)[r.item] else 0
    decreases |heap|
  {
    hide Return;
    if heap == [] || heap[0].target > q.timestamp {
      NothingDue(heap, q.symbol, q, r.item);
    } else {
      PopRecordsSettled(heap[1..], q, r);
      var p, x := PopDue(heap[1..], q), heap[0].item;
      assert multiset([Row(x, Return(x, q))] + p.rows) == multiset{Row(x, Return(x, q))} + multiset(p.rows);
    }
  }

  // ---- The accumulator follows the scan ----

  ghost predicate Follows(a: Accumulator, evs: seq<Event>, horizons: seq<nat>)
    requires BornWithin(Created(evs, horizons), |evs|)
  {
    var born := Created(evs, horizons);
    && (forall s :: Proper(Heap(a, s), s))
    && (forall x: Item :: ItemsOf(Heap(a, x.candidate.symbol))[x] == OpenOnes(born, evs)[x])
    && (forall r: Row :: multiset(a.rows)[r] == DoneOnes(born, evs)[r])
    && (forall s: nat :: LastQuote(evs, s) == if s in a.lastQuotes then Some(a.lastQuotes[s]) else None)
    && (forall s :: s in a.pending <==> s in a.symbols)
    && (forall i, j :: 0 <= i < j < |a.symbols| ==> a.symbols[i] != a.symbols[j])
  }

  lemma {:induction false} CreatedSnoc(evs: seq<Event>, e: Event, horizons: seq<nat>)
    ensures BornWithin(Created(evs, horizons), |evs|) && BornWithin(Created(evs + [e], horizons), |evs| + 1)
    ensures Created(evs + [e], horizons) == Created(evs, horizons) +
      if e.Quoted? then []
      else BornAt(NewItems(e.candidate, EntryPrice(e.candidate, LastQuote(evs, e.candidate.symbol)), horizons),
        |evs| + 1)
    ensures forall s :: LastQuote(evs + [e], s) == if e.Quoted? && e.quote.symbol == s then Some(e.quote)
      else LastQuote(evs, s)
  {
    CreatedWithin(evs, horizons);
    CreatedWithin(evs + [e], horizons);
    assert (evs + [e])[..|evs|] == evs;
  }

  lemma {:induction false} QuoteHeap(a: Accumulator, q: Quote, s: nat)
    ensures Heap(ObserveQuote(a, q), s) ==
      if s == q.symbol then PushAll(PopDue(Heap(a, s), q).rest, PopDue(Heap(a, s), q).retry, a.pendingId)
        else Heap(a, s)
  {
    hide PopDue, PushAll;
  }

  // The queues after a quote hold exactly what it leaves open.
  lemma {:induction false} QuoteQueues(a: Accumulator, evs: seq<Event>, q: Quote, horizons: seq<nat>, x: Item)
    requires BornWithin(Created(evs, horizons), |evs|) && Follows(a, evs, horizons)
    ensures
      var s := x.candidate.symbol;
      && Proper(Heap(ObserveQuote(a, q), s), s)
      && ItemsOf(Heap(ObserveQuote(a, q), s))[x] == if Settles(q, x) then 0 else ItemsOf(Heap(a, s))[x]
  {
    hide PopDue, PushAll, ItemsOf, ObserveQuote, Heap, Proper;
    var s := x.candidate.symbol;
    QuoteHeap(a, q, s);
    if s == q.symbol {
      var heap := Heap(a, s);
      PopKeeps(heap, q);
      PopTakesSettled(heap, q, x);
      PushAllKeeps(PopDue(heap, q).rest, PopDue(heap, q).retry, a.pendingId, s);
    }
  }

  lemma {:induction false} QuoteFollows(a: Accumulator, evs: seq<Event>, q: Quote, horizons: seq<nat>)
    requires BornWithin(Created(evs, horizons), |evs|) && Follows(a, evs, horizons)
    ensures BornWithin(Created(evs + [Quoted(q)], horizons), |evs| + 1)
      && Follows(ObserveQuote(a, q), evs + [Quoted(q)], horizons)
  {
    hide PopDue, PushAll, ItemsOf, Heap, Proper, OpenOnes, DoneOnes, Created, Settles, Return, LastQuote, BornWithin;
    var e, born, t := Quoted(q), Created(evs, horizons), ObserveQuote(a, q);
    CreatedSnoc(evs, e, horizons);
    assert Created(evs + [e], horizons) == born;
    forall x: Item
      ensures ItemsOf(Heap(t, x.candidate.symbol))[x] == OpenOnes(born, evs + [e])[x]
        && Proper(Heap(t, x.candidate.symbol), x.candidate.symbol) {
      QuoteQueues(a, evs, q, horizons, x);
      QuoteCloses(born, evs, e, x);
    }
    forall s ensures Proper(Heap(t, s), s) {
      QuoteQueues(a, evs, q, horizons, Item(Candidate(0, s, true, 0, 0), 0, None));
    }
    forall r: Row ensures multiset(t.rows)[r] == DoneOnes(born, evs + [e])[r] {
      QuoteRecords(born, evs, e, r);
      PopRecordsSettled(Heap(a, q.symbol), q, r);
      SettlesOwnSymbol(q, r.item);
      assert multiset(t.rows) == multiset(a.rows) + multiset(PopDue(Heap(a, q.symbol), q).rows);
    }
  }

  lemma {:induction false} SettlesOwnSymbol(q: Quote, x: Item)
    ensures Settles(q, x) ==> x.candidate.symbol == q.symbol
  {
  }

  lemma {:induction false} OneMoreOpen(born: seq<Born>, x: Item, evs: seq<Event>)
    requires BornWithin(born, |evs|)
    ensures BornWithin(born + [Born(x, |evs|)], |evs|)
    ensures OpenOnes(born + [Born(x, |evs|)], evs) == OpenOnes(born, evs) + multiset{x}
    ensures DoneOnes(born + [Born(x, |evs|)], evs) == DoneOnes(born, evs)
  {
    var b := Born(x, |evs|);
    assert (born + [b])[..|born|] == born && evs[b.at..] == [];
  }

  lemma {:induction false} BornSnoc(born: seq<Born>, xs: seq<Item>, at: nat)
    requires xs != []
    ensures born + BornAt(xs, at) == (born + BornAt(xs[..|xs| - 1], at)) + [Born(xs[|xs| - 1], at)]
    ensures multiset(xs) == multiset(xs[..|xs| - 1]) + multiset{xs[|xs| - 1]}
  {
    assert xs == xs[..|xs| - 1] + [xs[|xs| - 1]];
  }

  // Measurements just opened are open.
  lemma {:induction false} NewOnesAreOpen(born: seq<Born>, xs: seq<Item>, evs: seq<Event>)
    requires BornWithin(born, |evs|)
    ensures
      var all := born + BornAt(xs, |evs|);
      BornWithin(all, |evs|) && OpenOnes(all, evs) == OpenOnes(born, evs) + multiset(xs)
        && DoneOnes(all, evs) == DoneOnes(born, evs)
    decreases |xs|
  {
    hide OpenOnes, DoneOnes, BornWithin;
    if xs == [] {
      assert born + BornAt(xs, |evs|) == born;
    } else {
      var front := xs[..|xs| - 1];
      NewOnesAreOpen(born, front, evs);
      BornSnoc(born, xs, |evs|);
      OneMoreOpen(born + BornAt(front, |evs|), xs[|xs| - 1], evs);
      assert OpenOnes(born, evs) + multiset(front) + multiset{xs[|xs| - 1]} == OpenOnes(born, evs) + multiset(xs);
    }
  }

  lemma {:induction false} CandidateHeap(a: Accumulator, c: Candidate, horizons: seq<nat>, items: seq<Item>, s: nat)
    requires items ==
      NewItems(c, EntryPrice(c, if c.symbol in a.lastQuotes then Some(a.lastQuotes[c.symbol]) else None), horizons)
    ensures Heap(ObserveCandidate(a, c, horizons), s) == if s == c.symbol then PushAll(Heap(a, s), items, a.pendingId)
      else Heap(a, s)
  {
    hide EntryPrice;
  }

  // The queues after a candidate hold its measurements too.
  lemma {:induction false} CandidateQueues(a: Accumulator, c: Candidate, horizons: seq<nat>, items: seq<Item>, x: Item)
    requires items ==
      NewItems(c, EntryPrice(c, if c.symbol in a.lastQuotes then Some(a.lastQuotes[c.symbol]) else None), horizons)
    requires forall s :: Proper(Heap(a, s), s)
    ensures
      var s, t := x.candidate.symbol, ObserveCandidate(a, c, horizons);
      Proper(Heap(t, s), s) && ItemsOf(Heap(t, s))[x] == ItemsOf(Heap(a, s))[x] + multiset(items)[x]
  {
    hide PushAll, ItemsOf, Heap, Proper, EntryPrice, ObserveCandidate;
    var s := x.candidate.symbol;
    CandidateHeap(a, c, horizons, items, s);
    if s == c.symbol { PushAllKeeps(Heap(a, s), items, a.pendingId, s); } else { assert x !in items; }
  }

  lemma {:induction false} ObserveCandidateKeeps(a: Accumulator, c: Candidate, horizons: seq<nat>)
    requires forall s :: s in a.pending <==> s in a.symbols
    requires forall i, j :: 0 <= i < j < |a.symbols| ==> a.symbols[i] != a.symbols[j]
    ensures
      var t := ObserveCandidate(a, c, horizons);
      && t.rows == a.rows && t.lastQuotes == a.lastQuotes
      && (forall s :: s in t.pending <==> s in t.symbols)
      && forall i, j :: 0 <= i < j < |t.symbols| ==> t.symbols[i] != t.symbols[j]
  {
    hide PushAll, Heap, NewItems, EntryPrice;
  }

  lemma {:induction false} CandidateFollows(a: Accumulator, evs: seq<Event>, c: Candidate, horizons: seq<nat>)
    requires BornWithin(Created(evs, horizons), |evs|) && Follows(a, evs, horizons)
    ensures BornWithin(Created(evs + [Signalled(c)], horizons), |evs| + 1)
    ensures Follows(ObserveCandidate(a, c, horizons), evs + [Signalled(c)], horizons)
  {
    hide PushAll, ItemsOf, Heap, Proper, OpenOnes, DoneOnes, Created, LastQuote, BornWithin, EntryPrice;
    var e, born, t := Signalled(c), Created(evs, horizons), ObserveCandidate(a, c, horizons);
    CreatedSnoc(evs, e, horizons);
    var items := NewItems(c, EntryPrice(c, LastQuote(evs, c.symbol)), horizons);
    LaterIsWithin(born, |evs|);
    NewOnesAreOpen(born, items, evs + [e]);
    hide NewItems, BornAt, ObserveCandidate, EntryPrice;
    ObserveCandidateKeeps(a, c, horizons);
    forall s ensures Proper(Heap(t, s), s) {
      CandidateQueues(a, c, horizons, items, Item(Candidate(0, s, true, 0, 0), 0, None));
    }
    forall x: Item
      ensures ItemsOf(Heap(t, x.candidate.symbol))[x] == OpenOnes(Created(evs + [e], horizons), evs + [e])[x] {
      CandidateQueues(a, c, horizons, items, x);
      QuoteCloses(born, evs, e, x);
    }
    forall r: Row
      ensures multiset(t.rows)[r] ==
        DoneOnes(Created(evs + [e], horizons), evs + [e])[r] { QuoteRecords(born, evs, e, r); }
  }

  lemma {:induction false} LaterIsWithin(born: seq<Born>, n: nat)
    requires BornWithin(born, n)
    ensures BornWithin(born, n + 1)
  {
  }

  lemma {:induction false} StreamFollows(evs: seq<Event>, horizons: seq<nat>)
    ensures BornWithin(Created(evs, horizons), |evs|) && Follows(Stream(evs, horizons), evs, horizons)
  {
    hide Follows, Created, BornWithin, Observe;
    CreatedWithin(evs, horizons);
    if evs != [] {
      var before, e := evs[..|evs| - 1], evs[|evs| - 1];
      StreamFollows(before, horizons);
      OneMoreEvent(Stream(before, horizons), before, e, horizons);
      assert before + [e] == evs;
    } else {
      NothingSeen(horizons);
    }
  }

  lemma {:induction false} OneMoreEvent(a: Accumulator, evs: seq<Event>, e: Event, horizons: seq<nat>)
    requires BornWithin(Created(evs, horizons), |evs|) && Follows(a, evs, horizons)
    ensures BornWithin(Created(evs + [e], horizons), |evs| + 1) && Follows(Observe(a, e, horizons), evs + [e], horizons)
  {
    hide Follows, Created, BornWithin, ObserveQuote, ObserveCandidate;
    match e
    case Quoted(q) => QuoteFollows(a, evs, q, horizons);
    case Signalled(c) => CandidateFollows(a, evs, c, horizons);
  }

  lemma {:induction false} NothingSeen(horizons: seq<nat>)
    ensures BornWithin(Created([], horizons), 0) && Follows(Fresh, [], horizons)
  {
  }

  // ---- The finished rows ----

  // Done rows and open measurements make up the scan's rows.
  lemma {:induction false} ScanSplits(born: seq<Born>, evs: seq<Event>, r: Row)
    requires BornWithin(born, |evs|)
    ensures ScanRows(born, evs)[r] == DoneOnes(born, evs)[r] + if r.bps.None? then OpenOnes(born, evs)[r.item] else 0
    decreases |born|
  {
    hide FateOf;
    if born != [] { ScanSplits(born[..|born| - 1], evs, r); }
  }

  lemma {:induction false} UnmeasuredCount(heap: seq<Entry>, r: Row)
    ensures multiset(Unmeasured(heap))[r] == if r.bps.None? then ItemsOf(heap)[r.item] else 0
    decreases |heap|
  {
    if heap != [] {
      UnmeasuredCount(heap[1..], r);
      HeadCount(Row(heap[0].item, None), Unmeasured(heap[1..]), r);
    }
  }

  predicate Distinct(symbols: seq<nat>) {
    forall i, j :: 0 <= i < j < |symbols| ==> symbols[i] != symbols[j]
  }

  // Draining the queues yields each open measurement once.
  lemma {:induction false} DrainCount(a: Accumulator, symbols: seq<nat>, r: Row)
    requires Distinct(symbols) && forall s :: Proper(Heap(a, s), s)
    ensures multiset(DrainAll(a, symbols))[r] ==
      if r.bps.None? && r.item.candidate.symbol in symbols then ItemsOf(Heap(a, r.item.candidate.symbol))[r.item] else 0
    decreases |symbols|
  {
    hide Heap, Proper, ItemsOf, Unmeasured;
    if symbols != [] {
      var front, last := symbols[..|symbols| - 1], symbols[|symbols| - 1];
      DrainCount(a, front, r);
      UnmeasuredCount(Heap(a, last), r);
      assert multiset(DrainAll(a, symbols)) == multiset(DrainAll(a, front)) + multiset(Unmeasured(Heap(a, last)));
      assert last !in front;
      if r.item.candidate.symbol != last {
        HeapSymbol(Heap(a, last), last, r.item);
        assert r.item.candidate.symbol in symbols <==> r.item.candidate.symbol in front;
      }
    }
  }

  /**
    Over any stream of quotes and candidates the finished rows are exactly the scan's: one row per candidate and
    horizon, exiting at the first later quote of its symbol at or past the target with a positive exit price, or
    without a return when there is none or there was no entry price.
   */
  lemma {:induction false} StreamingEqualsScan(evs: seq<Event>, horizons: seq<nat>)
    ensures BornWithin(Created(evs, horizons), |evs|)
    ensures multiset(Finish(Stream(evs, horizons))) == ScanRows(Created(evs, horizons), evs)
  {
    hide Heap, Proper, ItemsOf, OpenOnes, DoneOnes, Created, BornWithin, LastQuote, ScanRows, DrainAll, Stream;
    StreamFollows(evs, horizons);
    var a, born := Stream(evs, horizons), Created(evs, horizons);
    forall r: Row ensures multiset(Finish(a))[r] == ScanRows(born, evs)[r] {
      ScanSplits(born, evs, r);
      DrainCount(a, a.symbols, r);
      var s := r.item.candidate.symbol;
      if s !in a.symbols { NoHeapNoItems(a, s); }
      assert multiset(Finish(a)) == multiset(a.rows) + multiset(DrainAll(a, a.symbols));
    }
  }

  lemma {:induction false} NoHeapNoItems(a: Accumulator, s: nat)
    requires s !in a.pending
    ensures ItemsOf(Heap(a, s)) == multiset{}
  {
  }

  // ---- What a return says ----

  /** Money made by trading `shares` in the candidate's direction at its entry quote and back at the exit quote. */
  function RoundTrip(c: Candidate, entry: Quote, exit: Quote, shares: nat): int {
    if c.long then exit.bid * shares - entry.ask * shares else entry.bid * shares - exit.ask * shares
  }

  function Outlay(c: Candidate, entry: Quote, shares: nat): nat {
    if c.long then entry.ask * shares else entry.bid * shares
  }

  /**
    A measurement's return is, in basis points of the outlay, the money a round trip of any size makes between the
    latest quote before the candidate and the quote that settles it: negative exactly when it loses. There is none
    when that latest quote is missing, is later than the candidate, or has no price on the side entered.
   */
  lemma {:induction false} ReturnIsMoney(c: Candidate, horizon: nat, before: Option<Quote>, exit: Quote, shares: nat)
    requires shares > 0
    ensures
      var r := Return(Item(c, horizon, EntryPrice(c, before)), exit);
      if before.None? || before.value.timestamp > c.timestamp || Outlay(c, before.value, shares) == 0 then r.None?
      else
        var money := RoundTrip(c, before.value, exit, shares);
        && r.Some? && r.value * Outlay(c, before.value, shares) as real == 10000.0 * money as real
        && (r.value > 0.0 <==> money > 0) && (r.value < 0.0 <==> money < 0)
  {
    if before.Some? {
      var entry := if c.long then before.value.ask else before.value.bid;
      var to := if c.long then exit.bid else exit.ask;
      OutlayPositive(entry, shares);
      if before.value.timestamp <= c.timestamp && entry > 0 {
        ReturnTimesOutlay(if c.long then to - entry else entry - to, entry, shares);
        Distribute(to, entry, shares);
        Distribute(entry, to, shares);
      }
    }
  }

  lemma {:induction false} OutlayPositive(entry: nat, shares: nat)
    requires shares > 0
    ensures entry * shares == 0 <==> entry == 0
  {
  }

  lemma {:induction false} ReturnTimesOutlay(move: int, entry: nat, shares: nat)
    requires entry > 0 && shares > 0
    ensures
      var r := move as real / entry as real * 10000.0;
      && r * (entry * shares) as real == 10000.0 * (move * shares) as real
      && (r > 0.0 <==> move * shares > 0) && (r < 0.0 <==> move * shares < 0)
  {
    var q, e, n := move as real / entry as real, entry as real, shares as real;
    assert q * e == move as real;
    assert (entry * shares) as real == e * n && (move * shares) as real == move as real * n;
    assert q * 10000.0 * (e * n) == 10000.0 * (q * e * n);
    assert q > 0.0 <==> move > 0;
    assert q < 0.0 <==> move < 0;
  }

  function Candidates(evs: seq<Event>): nat {
    if evs == [] then 0 else Candidates(evs[..|evs| - 1]) + if evs[|evs| - 1].Signalled? then 1 else 0
  }

  lemma {:induction false} CreatedCount(evs: seq<Event>, horizons: seq<nat>)
    ensures |Created(evs, horizons)| == Candidates(evs) * |horizons|
  {
    if evs != [] {
      var before, e := evs[..|evs| - 1], evs[|evs| - 1];
      CreatedCount(before, horizons);
      Distribute(Candidates(before), 1, |horizons|);
      hide Candidates, Created;
      CreatedSnoc(before, e, horizons);
      CandidatesSnoc(before, e);
      assert before + [e] == evs;
    }
  }

  lemma {:induction false} CandidatesSnoc(evs: seq<Event>, e: Event)
    ensures Candidates(evs + [e]) == Candidates(evs) + if e.Signalled? then 1 else 0
  {
    assert (evs + [e])[..|evs|] == evs;
  }

  lemma {:induction false} ScanCount(born: seq<Born>, evs: seq<Event>)
    requires BornWithin(born, |evs|)
    ensures |ScanRows(born, evs)| == |born|
    decreases |born|
  {
    hide FateOf;
    if born != [] { ScanCount(born[..|born| - 1], evs); }
  }

  /** So there are as many rows as actionable candidates times horizons. */
  lemma {:induction false} OneRowEach(evs: seq<Event>, horizons: seq<nat>)
    ensures |Finish(Stream(evs, horizons))| == Candidates(evs) * |horizons|
  {
    hide Stream, Finish, Created, ScanRows, BornWithin;
    StreamingEqualsScan(evs, horizons);
    ScanCount(Created(evs, horizons), evs);
    CreatedCount(evs, horizons);
    assert |multiset(Finish(Stream(evs, horizons)))| == |Finish(Stream(evs, horizons))|;
  }
}
