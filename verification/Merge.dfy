/** The order in which several event streams and injected strategy events are merged, on values. */
module Merge {
  import opened Types

  const MAX_TS: int := 0x7fff_ffff_ffff_ffff

  datatype Timed = Timed(ts: int, tsx: int, event: Event)

  datatype Origin = FromStream(index: nat) | FromStrategy(index: nat)

  datatype HeapEntry = HeapEntry(ts: int, tsx: int, origin: Origin)

  /** A registered stream; `source` is what it has still to give. */
  datatype Stream = Stream(
    book: string, source: seq<Timed>, exhausted: bool, buffered: Option<Timed>, lastTs: Option<int>, seq_: nat)

  datatype StrategyItem = StrategyItem(book: string, item: Timed, insertion: nat)

  /** An event handed to the book it is for. */
  datatype Delivery = Delivery(origin: Origin, book: string, item: Timed)

  /** Earlier first; at the same time streams before strategies, then by exchange time, then by index. */
  predicate Precedes(a: HeapEntry, b: HeapEntry) {
    if a.ts != b.ts then a.ts < b.ts
    else if a.origin.FromStream? != b.origin.FromStream? then a.origin.FromStream?
    else if a.tsx != b.tsx then a.tsx < b.tsx
    else a.origin.index < b.origin.index
  }

  // ---- the heap -----------------------------------------------------------------------------

  /** The priority queue, first entry first. */
  ghost predicate Sorted(heap: seq<HeapEntry>) {
    forall i, j :: 0 <= i < j < |heap| ==> Precedes(heap[i], heap[j])
  }

  function Push(heap: seq<HeapEntry>, e: HeapEntry): (r: seq<HeapEntry>)
    ensures forall x :: x in r <==> x == e || x in heap
    ensures |r| == |heap| + 1
  {
    if heap == [] || !Precedes(heap[0], e) then [e] + heap else [heap[0]] + Push(heap[1..], e)
  }

  lemma {:induction false} PushSorted(heap: seq<HeapEntry>, e: HeapEntry)
    requires Sorted(heap) && forall x :: x in heap ==> x.origin != e.origin
    ensures Sorted(Push(heap, e))
  {
    if heap != [] && Precedes(heap[0], e) {
      PushSorted(heap[1..], e);
      var tail := Push(heap[1..], e);
      forall j | 0 <= j < |tail| ensures Precedes(heap[0], tail[j]) {
        assert tail[j] in tail;
        if tail[j] != e {
          assert tail[j] in heap[1..];
        }
      }
    } else if heap != [] {
      assert heap[0] in heap;
      forall j | 0 <= j < |heap| ensures Precedes(e, heap[j]) {
        assert heap[j] in heap;
      }
    }
  }

  /** Whether something of this origin waits to be merged. */
  predicate Waiting(streams: seq<Stream>, strategies: seq<StrategyItem>, done: set<nat>, o: Origin) {
    match o
    case FromStream(i) => i < |streams| && streams[i].buffered.Some?
    case FromStrategy(j) => j < |strategies| && j !in done
  }

  function EntryOf(streams: seq<Stream>, strategies: seq<StrategyItem>, done: set<nat>, o: Origin): HeapEntry
    requires Waiting(streams, strategies, done, o)
  {
    var item := match o
      case FromStream(i) => streams[i].buffered.value
      case FromStrategy(j) => strategies[j].item;
    HeapEntry(item.ts, item.tsx, o)
  }

  ghost predicate Backed(streams: seq<Stream>, strategies: seq<StrategyItem>, done: set<nat>, e: HeapEntry) {
    Waiting(streams, strategies, done, e.origin) && e == EntryOf(streams, strategies, done, e.origin)
  }

  ghost predicate Queued(heap: seq<HeapEntry>, streams: seq<Stream>, strategies: seq<StrategyItem>, done: set<nat>,
                         o: Origin) {
    Waiting(streams, strategies, done, o) ==> EntryOf(streams, strategies, done, o) in heap
  }

  /** The heap holds exactly one entry for everything that waits, and no other. */
  ghost predicate HeapOk(heap: seq<HeapEntry>, streams: seq<Stream>, strategies: seq<StrategyItem>, done: set<nat>) {
    && Sorted(heap)
    && (forall e :: e in heap ==> Backed(streams, strategies, done, e))
    && (forall o :: Queued(heap, streams, strategies, done, o))
  }

  /** Something new waits, and has been pushed. */
  lemma {:induction false} PushOk(heap: seq<HeapEntry>, streams: seq<Stream>, strategies: seq<StrategyItem>,
                                  done: set<nat>, streams': seq<Stream>, strategies': seq<StrategyItem>, o: Origin)
    requires HeapOk(heap, streams, strategies, done)
    requires !Waiting(streams, strategies, done, o) && Waiting(streams', strategies', done, o)
    requires forall p :: p != o ==>
               && (Waiting(streams', strategies', done, p) <==> Waiting(streams, strategies, done, p))
               && (Waiting(streams, strategies, done, p) ==>
                   EntryOf(streams', strategies', done, p) == EntryOf(streams, strategies, done, p))
    ensures HeapOk(Push(heap, EntryOf(streams', strategies', done, o)), streams', strategies', done)
  {
    var e := EntryOf(streams', strategies', done, o);
    forall x | x in heap ensures x.origin != o && Backed(streams', strategies', done, x) {
      assert Backed(streams, strategies, done, x);
    }
    PushSorted(heap, e);
    forall p ensures Queued(Push(heap, e), streams', strategies', done, p) {
      assert Queued(heap, streams, strategies, done, p);
    }
  }

  /** The first entry has been taken, and what it stood for no longer waits. */
  lemma PopOk(heap: seq<HeapEntry>, streams: seq<Stream>, strategies: seq<StrategyItem>, done: set<nat>,
              streams': seq<Stream>, done': set<nat>)
    requires HeapOk(heap, streams, strategies, done) && heap != []
    requires var o := heap[0].origin;
             && !Waiting(streams', strategies, done', o)
             && forall p :: p != o ==>
                  && (Waiting(streams', strategies, done', p) <==> Waiting(streams, strategies, done, p))
                  && (Waiting(streams, strategies, done, p) ==>
                      EntryOf(streams', strategies, done', p) == EntryOf(streams, strategies, done, p))
    ensures HeapOk(heap[1..], streams', strategies, done')
  {
    var o := heap[0].origin;
    forall x | x in heap[1..] ensures Backed(streams', strategies, done', x) {
      assert x in heap && Backed(streams, strategies, done, x);
      var k :| 0 <= k < |heap[1..]| && heap[1..][k] == x;
      assert Precedes(heap[0], heap[k + 1]);
      assert Backed(streams, strategies, done, heap[0]);
    }
    forall p ensures Queued(heap[1..], streams', strategies, done', p) {
      assert Queued(heap, streams, strategies, done, p);
    }
  }

  // ---- what a stream gives ------------------------------------------------------------------

  /** The events of a source that are not behind the last one accepted. */
  function Accepted(source: seq<Timed>, last: Option<int>, monotonic: bool): seq<Timed> {
    if source == [] then []
    else if monotonic && last.Some? && source[0].ts < last.value then Accepted(source[1..], last, monotonic)
    else [source[0]] + Accepted(source[1..], Some(source[0].ts), monotonic)
  }

  function Held(s: Stream): seq<Timed> {
    if s.buffered.Some? then [s.buffered.value] else []
  }

  /** What a stream has still to contribute. */
  function Ahead(s: Stream, monotonic: bool): seq<Timed> {
    Held(s) + Accepted(s.source, s.lastTs, monotonic)
  }

  ghost predicate StreamOk(s: Stream) {
    && (s.exhausted ==> s.buffered.None? && s.source == [])
    && (s.buffered.Some? ==> s.lastTs == Some(s.buffered.value.ts))
  }

  ghost predicate Rises(items: seq<Timed>, last: Option<int>) {
    && (last.Some? ==> forall i :: 0 <= i < |items| ==> last.value <= items[i].ts)
    && forall i, j :: 0 <= i < j < |items| ==> items[i].ts <= items[j].ts
  }

  /** Accepted events never go back in time. */
  lemma {:induction false} AcceptedRises(source: seq<Timed>, last: Option<int>, monotonic: bool)
    requires monotonic
    ensures Rises(Accepted(source, last, monotonic), last)
  {
    if source != [] {
      if last.Some? && source[0].ts < last.value {
        AcceptedRises(source[1..], last, monotonic);
      } else {
        var tail := Accepted(source[1..], Some(source[0].ts), monotonic);
        AcceptedRises(source[1..], Some(source[0].ts), monotonic);
        assert Accepted(source, last, monotonic) == [source[0]] + tail;
      }
    }
  }

  /** Whether a stream lets its next event pass: with the check on, only if none before it was later. */
  ghost predicate NotBehind(source: seq<Timed>, last: Option<int>, x: Timed) {
    (last.Some? ==> last.value <= x.ts) && forall k :: 0 <= k < |source| ==> source[k].ts <= x.ts
  }

  /**
   * Event by event: without the check everything is accepted; with it, an event is accepted if and
   * only if no event before it, accepted or not, has a later time.
   */
  lemma {:induction false} AcceptedNext(source: seq<Timed>, x: Timed, last: Option<int>, monotonic: bool)
    ensures Accepted(source + [x], last, monotonic)
         == Accepted(source, last, monotonic) + if !monotonic || NotBehind(source, last, x) then [x] else []
    decreases |source|
  {
    if source == [] {
      assert [x][1..] == [] && source + [x] == [x];
      assert Accepted([x][1..], last, monotonic) == [];
      assert Accepted([x][1..], Some(x.ts), monotonic) == [];
    } else {
      var y := source[0];
      assert (source + [x])[1..] == source[1..] + [x];
      if monotonic && last.Some? && y.ts < last.value {
        AcceptedNext(source[1..], x, last, monotonic);
        BehindNext(source, last, last, x);
      } else {
        AcceptedNext(source[1..], x, Some(y.ts), monotonic);
        if monotonic {
          BehindNext(source, last, Some(y.ts), x);
        }
        assert Accepted(source + [x], last, monotonic) == [y] + Accepted(source[1..] + [x], Some(y.ts), monotonic);
      }
    }
  }

  lemma BehindNext(source: seq<Timed>, last: Option<int>, last': Option<int>, x: Timed)
    requires source != []
    requires if last.Some? && source[0].ts < last.value then last' == last else last' == Some(source[0].ts)
    ensures NotBehind(source, last, x) <==> NotBehind(source[1..], last', x)
  {
    if NotBehind(source[1..], last', x) {
      forall k | 0 <= k < |source| ensures source[k].ts <= x.ts {
        if k > 0 {
          assert source[1..][k - 1] == source[k];
        }
      }
    }
  }

  // ---- histories ----------------------------------------------------------------------------

  function TakenFrom(taken: seq<Delivery>, o: Origin): seq<Timed> {
    if taken == [] then []
    else
      var last := |taken| - 1;
      TakenFrom(taken[..last], o) + if taken[last].origin == o then [taken[last].item] else []
  }

  lemma {:induction false} TakenNext(taken: seq<Delivery>, d: Delivery, o: Origin)
    ensures TakenFrom(taken + [d], o) == TakenFrom(taken, o) + if d.origin == o then [d.item] else []
  {
    assert (taken + [d])[..|taken|] == taken;
  }

  /** Nothing of a stream is lost, doubled or reordered: taken, then buffered, then still accepted. */
  ghost predicate StreamConserved(streams: seq<Stream>, intake: seq<seq<Timed>>, taken: seq<Delivery>, monotonic: bool,
                                  i: nat)
    requires |intake| == |streams|
  {
    if i < |streams| then TakenFrom(taken, FromStream(i)) + Ahead(streams[i], monotonic) == intake[i]
    else TakenFrom(taken, FromStream(i)) == []
  }

  /** A strategy event is taken once, or still waits. */
  ghost predicate StrategyConserved(strategies: seq<StrategyItem>, done: set<nat>, taken: seq<Delivery>, j: nat) {
    TakenFrom(taken, FromStrategy(j)) == if j < |strategies| && j in done then [strategies[j].item] else []
  }

  ghost predicate Conserved(streams: seq<Stream>, strategies: seq<StrategyItem>, done: set<nat>,
                            intake: seq<seq<Timed>>, taken: seq<Delivery>, monotonic: bool) {
    && |intake| == |streams|
    && (forall i :: StreamConserved(streams, intake, taken, monotonic, i))
    && (forall j :: StrategyConserved(strategies, done, taken, j))
    && (forall j :: j in done ==> j < |strategies|)
  }

  /** The buffered event of a stream is taken. */
  lemma TakeStream(streams: seq<Stream>, strategies: seq<StrategyItem>, done: set<nat>, intake: seq<seq<Timed>>,
                   taken: seq<Delivery>, monotonic: bool, i: nat, d: Delivery)
    requires Conserved(streams, strategies, done, intake, taken, monotonic)
    requires i < |streams| && streams[i].buffered == Some(d.item) && d.origin == FromStream(i)
    ensures Conserved(streams[i := streams[i].(buffered := None)], strategies, done, intake, taken + [d], monotonic)
  {
    hide Ahead, TakenFrom;
    var streams' := streams[i := streams[i].(buffered := None)];
    forall k ensures StreamConserved(streams', intake, taken + [d], monotonic, k) {
      assert StreamConserved(streams, intake, taken, monotonic, k);
      TakenNext(taken, d, FromStream(k));
      if k == i {
        AheadTaken(streams[i], monotonic);
        TakenThenAhead(TakenFrom(taken, FromStream(i)), d.item, Ahead(streams'[i], monotonic));
      }
    }
    forall j ensures StrategyConserved(strategies, done, taken + [d], j) {
      assert StrategyConserved(strategies, done, taken, j);
      TakenNext(taken, d, FromStrategy(j));
    }
  }

  lemma AheadTaken(s: Stream, monotonic: bool)
    requires s.buffered.Some?
    ensures Ahead(s, monotonic) == [s.buffered.value] + Ahead(s.(buffered := None), monotonic)
  {
    var more := Accepted(s.source, s.lastTs, monotonic);
    hide Accepted;
    assert [] + more == more;
  }

  lemma TakenThenAhead(a: seq<Timed>, x: Timed, b: seq<Timed>)
    ensures a + ([x] + b) == (a + [x]) + b
  {
  }

  lemma TakeStrategy(streams: seq<Stream>, strategies: seq<StrategyItem>, done: set<nat>, intake: seq<seq<Timed>>,
                     taken: seq<Delivery>, monotonic: bool, j: nat, d: Delivery)
    requires Conserved(streams, strategies, done, intake, taken, monotonic)
    requires j < |strategies| && j !in done && d.item == strategies[j].item && d.origin == FromStrategy(j)
    ensures Conserved(streams, strategies, done + {j}, intake, taken + [d], monotonic)
  {
    forall k ensures StreamConserved(streams, intake, taken + [d], monotonic, k) {
      assert StreamConserved(streams, intake, taken, monotonic, k);
      TakenNext(taken, d, FromStream(k));
    }
    forall k ensures StrategyConserved(strategies, done + {j}, taken + [d], k) {
      assert StrategyConserved(strategies, done, taken, k);
      TakenNext(taken, d, FromStrategy(k));
    }
  }

  /** A stream is refilled: what it has ahead is the same. */
  lemma RefillConserves(streams: seq<Stream>, strategies: seq<StrategyItem>, done: set<nat>, intake: seq<seq<Timed>>,
                        taken: seq<Delivery>, monotonic: bool, i: nat, s: Stream)
    requires Conserved(streams, strategies, done, intake, taken, monotonic)
    requires i < |streams| && Ahead(s, monotonic) == Ahead(streams[i], monotonic)
    ensures Conserved(streams[i := s], strategies, done, intake, taken, monotonic)
  {
    var streams' := streams[i := s];
    forall k ensures StreamConserved(streams', intake, taken, monotonic, k) {
      assert StreamConserved(streams, intake, taken, monotonic, k);
    }
  }

  lemma RegisterConserves(streams: seq<Stream>, strategies: seq<StrategyItem>, done: set<nat>, intake: seq<seq<Timed>>,
                          taken: seq<Delivery>, monotonic: bool, s: Stream)
    requires Conserved(streams, strategies, done, intake, taken, monotonic)
    ensures Conserved(streams + [s], strategies, done, intake + [Ahead(s, monotonic)], taken, monotonic)
  {
    forall k ensures StreamConserved(streams + [s], intake + [Ahead(s, monotonic)], taken, monotonic, k) {
      assert StreamConserved(streams, intake, taken, monotonic, k);
    }
  }

  lemma SubmitConserves(streams: seq<Stream>, strategies: seq<StrategyItem>, done: set<nat>, intake: seq<seq<Timed>>,
                        taken: seq<Delivery>, monotonic: bool, item: StrategyItem)
    requires Conserved(streams, strategies, done, intake, taken, monotonic)
    ensures Conserved(streams, strategies + [item], done, intake, taken, monotonic)
  {
    forall k ensures StrategyConserved(strategies + [item], done, taken, k) {
      assert StrategyConserved(strategies, done, taken, k);
    }
  }

  // ---- order and look-ahead -----------------------------------------------------------------

  ghost predicate AtMost(last: Option<int>, ts: int) {
    last.Some? ==> last.value <= ts
  }

  /** What a stream may still give lies at or after `now`, and after every strategy event that ran. */
  ghost predicate StreamAfter(s: Stream, now: Option<int>, applied: seq<Delivery>) {
    now.Some? && !s.exhausted ==>
      && s.lastTs.Some? && now.value <= s.lastTs.value
      && forall k :: 0 <= k < |applied| && applied[k].origin.FromStrategy? ==> applied[k].item.ts < s.lastTs.value
  }

  /** A strategy event ran only after every stream event up to its time. */
  ghost predicate NoLookAhead(applied: seq<Delivery>) {
    forall k, p :: 0 <= k < p < |applied| && applied[k].origin.FromStrategy? && applied[p].origin.FromStream? ==>
      applied[k].item.ts < applied[p].item.ts
  }

  ghost predicate InOrder(applied: seq<Delivery>) {
    forall k, p :: 0 <= k < p < |applied| ==> applied[k].item.ts <= applied[p].item.ts
  }

  ghost predicate Ordered(streams: seq<Stream>, heap: seq<HeapEntry>, applied: seq<Delivery>, now: Option<int>) {
    && InOrder(applied) && NoLookAhead(applied)
    && (now.None? <==> applied == [])
    && (applied != [] ==> now == Some(applied[|applied| - 1].item.ts))
    && (forall e :: e in heap ==> AtMost(now, e.ts))
    && (forall i :: 0 <= i < |streams| ==> StreamAfter(streams[i], now, applied))
  }

  /** Every stream that can still give something has its next event on the heap. */
  ghost predicate Primed(streams: seq<Stream>) {
    forall i :: 0 <= i < |streams| ==> streams[i].exhausted || streams[i].buffered.Some?
  }

  /** The first entry of the heap is delivered: order and no look-ahead persist. */
  lemma DeliverOrdered(streams: seq<Stream>, strategies: seq<StrategyItem>, done: set<nat>, heap: seq<HeapEntry>,
                       applied: seq<Delivery>, now: Option<int>, d: Delivery, streams': seq<Stream>)
    requires HeapOk(heap, streams, strategies, done) && Ordered(streams, heap, applied, now) && Primed(streams)
    requires forall i :: 0 <= i < |streams| ==> StreamOk(streams[i])
    requires heap != [] && d.origin == heap[0].origin && d.item.ts == heap[0].ts
    requires |streams'| == |streams|
    requires forall i :: 0 <= i < |streams| ==>
             streams'[i].lastTs == streams[i].lastTs && (streams'[i].exhausted <==> streams[i].exhausted)
    ensures AtMost(now, d.item.ts)
    ensures Ordered(streams', heap[1..], applied + [d], Some(d.item.ts))
  {
    assert heap[0] in heap;
    DeliverEntries(heap, d.item.ts);
    DeliverHistory(streams, strategies, done, heap, applied, now, d);
    forall i | 0 <= i < |streams'| ensures StreamAfter(streams'[i], Some(d.item.ts), applied + [d]) {
      assert StreamAfter(streams[i], now, applied);
      if !streams[i].exhausted {
        HeadIsBefore(streams, strategies, done, heap, i);
      }
    }
  }

  lemma DeliverEntries(heap: seq<HeapEntry>, ts: int)
    requires Sorted(heap) && heap != [] && heap[0].ts == ts
    ensures forall e :: e in heap ==> ts <= e.ts
  {
    forall e | e in heap ensures ts <= e.ts {
      var k :| 0 <= k < |heap| && heap[k] == e;
      assert k > 0 ==> Precedes(heap[0], heap[k]);
    }
  }

  /** The first entry comes at or before every buffered event, and strictly before it if it is a strategy event. */
  lemma HeadIsBefore(streams: seq<Stream>, strategies: seq<StrategyItem>, done: set<nat>, heap: seq<HeapEntry>, i: nat)
    requires HeapOk(heap, streams, strategies, done) && heap != []
    requires i < |streams| && streams[i].buffered.Some? && StreamOk(streams[i])
    ensures heap[0].ts <= streams[i].lastTs.value
    ensures heap[0].origin.FromStrategy? ==> heap[0].ts < streams[i].lastTs.value
  {
    var o := FromStream(i);
    assert Queued(heap, streams, strategies, done, o);
    var e := EntryOf(streams, strategies, done, o);
    var k :| 0 <= k < |heap| && heap[k] == e;
    assert k > 0 ==> Precedes(heap[0], heap[k]);
  }

  lemma DeliverHistory(streams: seq<Stream>, strategies: seq<StrategyItem>, done: set<nat>, heap: seq<HeapEntry>,
                       applied: seq<Delivery>, now: Option<int>, d: Delivery)
    requires HeapOk(heap, streams, strategies, done) && Ordered(streams, heap, applied, now)
    requires forall i :: 0 <= i < |streams| ==> StreamOk(streams[i])
    requires heap != [] && d.origin == heap[0].origin && d.item.ts == heap[0].ts
    ensures InOrder(applied + [d]) && NoLookAhead(applied + [d])
  {
    assert heap[0] in heap;
    assert Backed(streams, strategies, done, heap[0]);
    if d.origin.FromStream? && applied != [] {
      assert StreamAfter(streams[d.origin.index], now, applied);
    }
  }

  /**
   * Field by field, a delivery comes no later than something that waits: by its receive time, then
   * streams before strategies, then by exchange time, then by the index of stream or submission.
   */
  ghost predicate GoesFirst(d: Delivery, x: Timed, o: Origin) {
    && d.item.ts <= x.ts
    && (d.item.ts == x.ts && o.FromStream? ==> d.origin.FromStream?)
    && (d.item.ts == x.ts && (o.FromStream? <==> d.origin.FromStream?) ==>
          d.item.tsx <= x.tsx && (d.item.tsx == x.tsx ==> d.origin.index <= o.index))
  }

  /**
   * A delivery is the next event of its stream, or a strategy event that waits; and it goes before
   * the next event of every stream, and before every strategy event that waits.
   */
  ghost predicate NextOf(d: Delivery, streams: seq<Stream>, strategies: seq<StrategyItem>, done: set<nat>,
                         monotonic: bool) {
    var o := d.origin;
    && (o.FromStream? ==>
          && o.index < |streams| && d.book == streams[o.index].book
          && Ahead(streams[o.index], monotonic) != [] && Ahead(streams[o.index], monotonic)[0] == d.item)
    && (o.FromStrategy? ==>
          o.index < |strategies| && o.index !in done
          && d.book == strategies[o.index].book && d.item == strategies[o.index].item)
    && (forall i :: 0 <= i < |streams| && Ahead(streams[i], monotonic) != [] ==>
          GoesFirst(d, Ahead(streams[i], monotonic)[0], FromStream(i)))
    && (forall j :: 0 <= j < |strategies| && j !in done ==> GoesFirst(d, strategies[j].item, FromStrategy(j)))
  }

  /** The first entry of the heap stands for what goes next. */
  lemma HeadIsNext(streams: seq<Stream>, strategies: seq<StrategyItem>, done: set<nat>, heap: seq<HeapEntry>,
                   monotonic: bool, d: Delivery)
    requires HeapOk(heap, streams, strategies, done) && Primed(streams) && heap != []
    requires forall i :: 0 <= i < |streams| ==> StreamOk(streams[i])
    requires d.origin == heap[0].origin
    requires d.origin.FromStream? ==>
               var i := d.origin.index;
               i < |streams| && streams[i].buffered == Some(d.item) && d.book == streams[i].book
    requires d.origin.FromStrategy? ==>
               var j := d.origin.index;
               j < |strategies| && strategies[j].item == d.item && d.book == strategies[j].book
    ensures NextOf(d, streams, strategies, done, monotonic)
  {
    hide Accepted;
    assert Backed(streams, strategies, done, heap[0]);
    forall i | 0 <= i < |streams| && Ahead(streams[i], monotonic) != []
      ensures GoesFirst(d, Ahead(streams[i], monotonic)[0], FromStream(i))
    {
      if streams[i].exhausted {
        NothingExhausted(streams[i], monotonic);
      }
      HeadGoesFirst(streams, strategies, done, heap, d, FromStream(i));
    }
    forall j | 0 <= j < |strategies| && j !in done ensures GoesFirst(d, strategies[j].item, FromStrategy(j)) {
      HeadGoesFirst(streams, strategies, done, heap, d, FromStrategy(j));
    }
  }

  lemma NothingExhausted(s: Stream, monotonic: bool)
    requires StreamOk(s) && s.exhausted
    ensures Ahead(s, monotonic) == []
  {
  }

  lemma HeadGoesFirst(streams: seq<Stream>, strategies: seq<StrategyItem>, done: set<nat>, heap: seq<HeapEntry>,
                      d: Delivery, o: Origin)
    requires HeapOk(heap, streams, strategies, done) && heap != []
    requires d.origin == heap[0].origin && d.item.ts == heap[0].ts && d.item.tsx == heap[0].tsx
    requires Waiting(streams, strategies, done, o)
    ensures var e := EntryOf(streams, strategies, done, o);
            forall x: Timed :: x.ts == e.ts && x.tsx == e.tsx ==> GoesFirst(d, x, o)
  {
    var e := EntryOf(streams, strategies, done, o);
    assert Queued(heap, streams, strategies, done, o);
    var k :| 0 <= k < |heap| && heap[k] == e;
    assert k > 0 ==> Precedes(heap[0], heap[k]);
  }

  lemma {:induction false} SameAccepted(s: Stream, s': Stream, monotonic: bool)
    requires s.buffered == s'.buffered
    requires Accepted(s'.source, s'.lastTs, monotonic) == Accepted(s.source, s.lastTs, monotonic)
    ensures Ahead(s', monotonic) == Ahead(s, monotonic)
  {
  }

  /** The next accepted event of a stream has been put into its buffer. */
  lemma {:induction false} NowBuffered(s: Stream, s': Stream, monotonic: bool)
    requires s.buffered.None? && s'.buffered.Some?
    requires Accepted(s.source, s.lastTs, monotonic)
             == [s'.buffered.value] + Accepted(s'.source, s'.lastTs, monotonic)
    ensures Ahead(s', monotonic) == Ahead(s, monotonic)
  {
  }

  /** Streams that have the same ahead deliver the same next. */
  lemma SameNext(d: Delivery, streams: seq<Stream>, streams': seq<Stream>, strategies: seq<StrategyItem>,
                 done: set<nat>, monotonic: bool)
    requires NextOf(d, streams, strategies, done, monotonic) && SameAhead(streams, streams', monotonic)
    ensures NextOf(d, streams', strategies, done, monotonic)
  {
  }

  ghost predicate SameAhead(streams: seq<Stream>, streams': seq<Stream>, monotonic: bool) {
    |streams| == |streams'| && forall i :: 0 <= i < |streams| ==>
      streams[i].book == streams'[i].book && Ahead(streams[i], monotonic) == Ahead(streams'[i], monotonic)
  }

  /** The next delivery comes no later than the first entry of the heap. */
  lemma NextIsInTime(d: Delivery, streams: seq<Stream>, strategies: seq<StrategyItem>, done: set<nat>,
                     heap: seq<HeapEntry>, monotonic: bool)
    requires NextOf(d, streams, strategies, done, monotonic)
    requires HeapOk(heap, streams, strategies, done) && heap != []
    ensures d.item.ts <= heap[0].ts
  {
    assert Backed(streams, strategies, done, heap[0]);
    var o := heap[0].origin;
    if o.FromStream? {
      assert Ahead(streams[o.index], monotonic)[0] == streams[o.index].buffered.value;
    }
  }

  /** When nothing waits and every stream has run dry, everything accepted has been taken, once and in order. */
  lemma {:induction false} AllTaken(streams: seq<Stream>, strategies: seq<StrategyItem>, done: set<nat>,
                                    heap: seq<HeapEntry>, intake: seq<seq<Timed>>, taken: seq<Delivery>,
                                    monotonic: bool)
    requires HeapOk(heap, streams, strategies, done) && Primed(streams) && heap == []
    requires forall i :: 0 <= i < |streams| ==> StreamOk(streams[i])
    requires Conserved(streams, strategies, done, intake, taken, monotonic)
    ensures forall i :: 0 <= i < |streams| ==> TakenFrom(taken, FromStream(i)) == intake[i]
    ensures forall j :: 0 <= j < |strategies| ==> TakenFrom(taken, FromStrategy(j)) == [strategies[j].item]
  {
    forall i | 0 <= i < |streams| ensures TakenFrom(taken, FromStream(i)) == intake[i] {
      assert Queued(heap, streams, strategies, done, FromStream(i));
      assert StreamConserved(streams, intake, taken, monotonic, i);
      assert Ahead(streams[i], monotonic) == [];
    }
    forall j | 0 <= j < |strategies| ensures TakenFrom(taken, FromStrategy(j)) == [strategies[j].item] {
      assert Queued(heap, streams, strategies, done, FromStrategy(j));
      assert StrategyConserved(strategies, done, taken, j);
    }
  }

  ghost predicate AllAfter(items: seq<Timed>, t: int) {
    forall k :: 0 <= k < |items| ==> items[k].ts > t
  }

  /**
   * When the first entry lies beyond `t`, so does all that the streams have still to give, and every
   * waiting strategy event.
   */
  lemma NothingPending(streams: seq<Stream>, strategies: seq<StrategyItem>, done: set<nat>, heap: seq<HeapEntry>,
                       monotonic: bool, t: int)
    requires HeapOk(heap, streams, strategies, done) && Primed(streams) && monotonic
    requires forall i :: 0 <= i < |streams| ==> StreamOk(streams[i])
    requires heap != [] ==> heap[0].ts > t
    ensures forall i :: 0 <= i < |streams| ==> AllAfter(Ahead(streams[i], monotonic), t)
    ensures forall j :: 0 <= j < |strategies| && j !in done ==> strategies[j].item.ts > t
  {
    if heap != [] {
      DeliverEntries(heap, heap[0].ts);
    }
    forall i | 0 <= i < |streams| ensures AllAfter(Ahead(streams[i], monotonic), t) {
      assert Queued(heap, streams, strategies, done, FromStream(i));
      AcceptedRises(streams[i].source, streams[i].lastTs, monotonic);
    }
    forall j | 0 <= j < |strategies| && j !in done ensures strategies[j].item.ts > t {
      assert Queued(heap, streams, strategies, done, FromStrategy(j));
    }
  }

  // ---- steps of the simulator's methods -----------------------------------------------------

  /** Streams that only changed where nothing is buffered leave the heap right. */
  lemma QuietStream(heap: seq<HeapEntry>, streams: seq<Stream>, strategies: seq<StrategyItem>, done: set<nat>,
                    streams': seq<Stream>)
    requires HeapOk(heap, streams, strategies, done) && |streams| <= |streams'|
    requires forall i :: 0 <= i < |streams'| ==>
             streams'[i].buffered == if i < |streams| then streams[i].buffered else None
    ensures HeapOk(heap, streams', strategies, done)
  {
    forall e | e in heap ensures Backed(streams', strategies, done, e) {
      assert Backed(streams, strategies, done, e);
    }
    forall o ensures Queued(heap, streams', strategies, done, o) {
      assert Queued(heap, streams, strategies, done, o);
    }
  }

  lemma {:induction false} SubmitOk(heap: seq<HeapEntry>, streams: seq<Stream>, strategies: seq<StrategyItem>,
                                    done: set<nat>, item: StrategyItem)
    requires HeapOk(heap, streams, strategies, done) && forall j :: j in done ==> j < |strategies|
    ensures HeapOk(Push(heap, HeapEntry(item.item.ts, item.item.tsx, FromStrategy(|strategies|))), streams,
                   strategies + [item], done)
  {
    PushOk(heap, streams, strategies, done, streams, strategies + [item], FromStrategy(|strategies|));
  }

  /** A stream that still has nothing buffered, and the same ahead. */
  lemma {:induction false} Refilled(heap: seq<HeapEntry>, streams: seq<Stream>, strategies: seq<StrategyItem>,
                                    done: set<nat>, intake: seq<seq<Timed>>, taken: seq<Delivery>, monotonic: bool,
                                    i: nat, s: Stream)
    requires HeapOk(heap, streams, strategies, done) && Conserved(streams, strategies, done, intake, taken, monotonic)
    requires i < |streams| && streams[i].buffered.None? && s.buffered.None?
    requires Accepted(s.source, s.lastTs, monotonic) == Accepted(streams[i].source, streams[i].lastTs, monotonic)
    ensures HeapOk(heap, streams[i := s], strategies, done)
    ensures Conserved(streams[i := s], strategies, done, intake, taken, monotonic)
  {
    QuietStream(heap, streams, strategies, done, streams[i := s]);
    RefillConserves(streams, strategies, done, intake, taken, monotonic, i, s);
  }

  lemma StillOrdered(streams: seq<Stream>, heap: seq<HeapEntry>, applied: seq<Delivery>, now: Option<int>, i: nat,
                     s: Stream)
    requires i < |streams| && s.lastTs == streams[i].lastTs && (streams[i].exhausted ==> s.exhausted)
    ensures Ordered(streams, heap, applied, now) ==> Ordered(streams[i := s], heap, applied, now)
  {
    if Ordered(streams, heap, applied, now) {
      assert StreamAfter(streams[i], now, applied);
    }
  }

  /** A stream has its next event buffered and pushed. */
  lemma {:induction false} Buffered(heap: seq<HeapEntry>, streams: seq<Stream>, strategies: seq<StrategyItem>,
                                    done: set<nat>, intake: seq<seq<Timed>>, taken: seq<Delivery>, monotonic: bool,
                                    i: nat, s: Stream)
    requires HeapOk(heap, streams, strategies, done) && Conserved(streams, strategies, done, intake, taken, monotonic)
    requires i < |streams| && streams[i].buffered.None? && s.buffered.Some?
    requires Ahead(s, monotonic) == Ahead(streams[i], monotonic)
    ensures HeapOk(Push(heap, HeapEntry(s.buffered.value.ts, s.buffered.value.tsx, FromStream(i))), streams[i := s],
                   strategies, done)
    ensures Conserved(streams[i := s], strategies, done, intake, taken, monotonic)
  {
    PushOk(heap, streams, strategies, done, streams[i := s], strategies, FromStream(i));
    RefillConserves(streams, strategies, done, intake, taken, monotonic, i, s);
  }

  lemma {:induction false} BufferedOrdered(streams: seq<Stream>, heap: seq<HeapEntry>, applied: seq<Delivery>,
                                           now: Option<int>, i: nat, s: Stream)
    requires i < |streams| && !streams[i].exhausted && s.buffered.Some? && s.lastTs == Some(s.buffered.value.ts)
    requires streams[i].lastTs.Some? ==> streams[i].lastTs.value <= s.lastTs.value
    ensures Ordered(streams, heap, applied, now) ==>
              Ordered(streams[i := s], Push(heap, HeapEntry(s.buffered.value.ts, s.buffered.value.tsx, FromStream(i))),
                      applied, now)
  {
    if Ordered(streams, heap, applied, now) {
      assert StreamAfter(streams[i], now, applied);
    }
  }

  /** Events that no stream has given yet. */
  function Stock(streams: seq<Stream>): nat {
    if streams == [] then 0 else |streams[0].source| + Stock(streams[1..])
  }

  lemma {:induction false} StockUpdate(streams: seq<Stream>, i: nat, s: Stream)
    requires i < |streams|
    ensures Stock(streams[i := s]) == Stock(streams) - |streams[i].source| + |s.source|
  {
    if i > 0 {
      StockUpdate(streams[1..], i - 1, s);
      assert streams[i := s][1..] == streams[1..][i - 1 := s];
    } else {
      assert streams[0 := s][1..] == streams[1..];
    }
  }
}
