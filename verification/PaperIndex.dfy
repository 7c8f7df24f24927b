/**
 * A paper level as the engine stores it: strategy order ids in FIFO order, and two Fenwick trees
 * that give the historical and the paper lots ahead of any of them.
 */
module PaperIndex {
  import opened Types
  import opened Fenwick
  import opened Level

  /** The engine's record of a resting strategy order. */
  datatype PaperEntry = PaperEntry(status: PaperStatus, remaining: int, placement: nat, paperIndex: nat)

  datatype PaperLevel = PaperLevel(
    orders: seq<int>,
    queuedLots: int,
    marketSeqs: seq<nat>,
    marketQty: seq<int>,
    marketIndex: map<nat, nat>,
    paperQty: seq<int>,
    nextPaperIndex: nat)

  const EMPTY_LEVEL: PaperLevel := PaperLevel([], 0, [], [], map[], [], 0)

  // ---- the historical side of the index -----------------------------------------------------

  /** Live historical lots that occupy the first `k` positions of the index. */
  ghost function IndexedQty(queue: seq<Order>, index: map<nat, nat>, k: nat): int {
    if queue == [] then 0
    else
      (if queue[0].arrival in index && index[queue[0].arrival] < k then queue[0].qty else 0)
      + IndexedQty(queue[1..], index, k)
  }

  ghost predicate Rising(seqs: seq<nat>) {
    forall i, j :: 0 <= i < j < |seqs| ==> seqs[i] < seqs[j]
  }

  ghost predicate Indexes(index: map<nat, nat>, seqs: seq<nat>) {
    && (forall k :: 0 <= k < |seqs| ==> seqs[k] in index && index[seqs[k]] == k)
    && (forall a :: a in index ==> index[a] < |seqs| && seqs[index[a]] == a)
  }

  /**
   * The index agrees with the book: stamps rise, every live historical order at the price is
   * indexed, and position `k` carries its live quantity, or zero once it is gone.
   */
  ghost predicate MarketRep(level: PaperLevel, queue: seq<Order>) {
    && Rising(level.marketSeqs)
    && Indexes(level.marketIndex, level.marketSeqs)
    && (level.marketSeqs == [] || |level.marketSeqs| < |level.marketQty|)
    && (forall i :: 0 <= i < |queue| ==> queue[i].arrival in level.marketIndex)
    && (forall k: nat :: k <= |level.marketSeqs| ==>
          SumOf(level.marketQty, k) == IndexedQty(queue, level.marketIndex, k))
  }

  lemma {:induction false} IndexedQtyConcat(a: seq<Order>, b: seq<Order>, index: map<nat, nat>, k: nat)
    ensures IndexedQty(a + b, index, k) == IndexedQty(a, index, k) + IndexedQty(b, index, k)
  {
    if a == [] {
      assert a + b == b;
    } else {
      assert (a + b)[1..] == a[1..] + b;
      IndexedQtyConcat(a[1..], b, index, k);
    }
  }

  /** Position `k` of the index carries the live quantity of the order it stands for. */
  lemma {:induction false} IndexedQtyAt(queue: seq<Order>, index: map<nat, nat>, k: nat, i: nat)
    requires QueueOk(queue) && i < |queue|
    requires forall a, b :: a in index && b in index && a != b ==> index[a] != index[b]
    requires queue[i].arrival in index && index[queue[i].arrival] == k
    ensures IndexedQty(queue, index, k + 1) - IndexedQty(queue, index, k) == queue[i].qty
  {
    assert queue == queue[..i] + ([queue[i]] + queue[i + 1..]);
    var stamp := queue[i].arrival;
    IndexedQtyConcat(queue[..i], [queue[i]] + queue[i + 1..], index, k);
    IndexedQtyConcat(queue[..i], [queue[i]] + queue[i + 1..], index, k + 1);
    NotIndexedThere(queue[..i], index, k, stamp);
    NotIndexedThere(queue[i + 1..], index, k, stamp);
  }

  lemma {:induction false} NotIndexedThere(queue: seq<Order>, index: map<nat, nat>, k: nat, stamp: nat)
    requires forall a, b :: a in index && b in index && a != b ==> index[a] != index[b]
    requires stamp in index && index[stamp] == k
    requires forall i :: 0 <= i < |queue| ==> queue[i].arrival != stamp
    ensures IndexedQty(queue, index, k + 1) == IndexedQty(queue, index, k)
  {
    if queue != [] {
      NotIndexedThere(queue[1..], index, k, stamp);
    }
  }

  /** `market_qty[k]` is the live quantity of that historical order, or 0 once it is gone. */
  lemma MarketQtyAt(level: PaperLevel, queue: seq<Order>, k: nat)
    requires QueueOk(queue) && MarketRep(level, queue) && k < |level.marketSeqs|
    ensures var qty := SumOf(level.marketQty, k + 1) - SumOf(level.marketQty, k);
            && (forall i :: 0 <= i < |queue| && queue[i].arrival == level.marketSeqs[k] ==> qty == queue[i].qty)
            && ((forall i :: 0 <= i < |queue| ==> queue[i].arrival != level.marketSeqs[k]) ==> qty == 0)
  {
    var stamp := level.marketSeqs[k];
    if i :| 0 <= i < |queue| && queue[i].arrival == stamp {
      IndexedQtyAt(queue, level.marketIndex, k, i);
      assert forall j :: 0 <= j < |queue| && queue[j].arrival == stamp ==> j == i;
    } else {
      NotIndexedThere(queue, level.marketIndex, k, stamp);
    }
  }

  lemma {:induction false} IndexedQtyChanged(queue: seq<Order>, i: nat, delta: int, index: map<nat, nat>, k: nat)
    requires i < |queue| && queue[i].arrival in index
    ensures IndexedQty(Changed(queue, i, delta), index, k)
         == IndexedQty(queue, index, k) + if index[queue[i].arrival] < k then delta else 0
  {
    var o := queue[i];
    var o' := o.(qty := o.qty + delta);
    assert queue == queue[..i] + ([o] + queue[i + 1..]);
    IndexedQtyConcat(queue[..i], [o] + queue[i + 1..], index, k);
    if o.qty + delta == 0 {
      IndexedQtyConcat(queue[..i], queue[i + 1..], index, k);
    } else {
      assert queue[i := o'] == queue[..i] + ([o'] + queue[i + 1..]);
      IndexedQtyConcat(queue[..i], [o'] + queue[i + 1..], index, k);
    }
  }

  /** The engine's reaction to a quantity change of an indexed historical order. */
  function Adjusted(level: PaperLevel, stamp: nat, delta: int): PaperLevel {
    if stamp in level.marketIndex then
      level.(marketQty := Added(level.marketQty, level.marketIndex[stamp], delta))
    else
      level
  }

  lemma AdjustedRep(level: PaperLevel, queue: seq<Order>, i: nat, delta: int)
    requires MarketRep(level, queue) && i < |queue|
    ensures MarketRep(Adjusted(level, queue[i].arrival, delta), Changed(queue, i, delta))
  {
    var stamp := queue[i].arrival;
    var level' := Adjusted(level, stamp, delta);
    var queue' := Changed(queue, i, delta);
    forall k: nat | k <= |level.marketSeqs|
      ensures SumOf(level'.marketQty, k) == IndexedQty(queue', level.marketIndex, k)
    {
      SumOfAdded(level.marketQty, level.marketIndex[stamp], delta, k);
      IndexedQtyChanged(queue, i, delta, level.marketIndex, k);
    }
    assert forall j :: 0 <= j < |queue'| ==> queue'[j].arrival in level.marketIndex;
  }

  /** A historical order joins the queue at a price that already has a paper level. */
  function Joined(level: PaperLevel, stamp: nat, qty: int): PaperLevel {
    var idx := |level.marketSeqs|;
    level.(
      marketSeqs := level.marketSeqs + [stamp],
      marketIndex := level.marketIndex[stamp := idx],
      marketQty := Added(Grown(level.marketQty, idx + 1), idx, qty))
  }

  lemma {:induction false} IndexedQtyNewStamp(queue: seq<Order>, index: map<nat, nat>, stamp: nat, pos: nat, k: nat)
    requires forall i :: 0 <= i < |queue| ==> queue[i].arrival != stamp
    ensures IndexedQty(queue, index[stamp := pos], k) == IndexedQty(queue, index, k)
  {
    if queue != [] {
      IndexedQtyNewStamp(queue[1..], index, stamp, pos, k);
    }
  }

  /** Beyond the last position nothing is indexed, so the count of positions stops mattering. */
  lemma {:induction false} IndexedQtyBeyond(queue: seq<Order>, index: map<nat, nat>, n: nat, k: nat)
    requires forall a :: a in index ==> index[a] < n
    requires n <= k
    ensures IndexedQty(queue, index, k) == IndexedQty(queue, index, n)
  {
    if queue != [] {
      IndexedQtyBeyond(queue[1..], index, n, k);
    }
  }

  /** The tree may be longer than the index only by empty positions. */
  ghost predicate NoSpare(level: PaperLevel) {
    |level.marketQty| <= |level.marketSeqs| + 1
  }

  lemma JoinedRep(level: PaperLevel, queue: seq<Order>, o: Order)
    requires MarketRep(level, queue) && NoSpare(level)
    requires forall i :: 0 <= i < |level.marketSeqs| ==> level.marketSeqs[i] < o.arrival
    ensures MarketRep(Joined(level, o.arrival, o.qty), queue + [o])
    ensures NoSpare(Joined(level, o.arrival, o.qty))
  {
    var level' := Joined(level, o.arrival, o.qty);
    var idx := |level.marketSeqs|;
    var index' := level'.marketIndex;
    assert o.arrival !in level.marketIndex;
    forall k: nat | k <= idx + 1
      ensures SumOf(level'.marketQty, k) == IndexedQty(queue + [o], index', k)
    {
      JoinedSum(level, queue, o, k);
    }
  }

  lemma {:induction false} JoinedSum(level: PaperLevel, queue: seq<Order>, o: Order, k: nat)
    requires MarketRep(level, queue) && NoSpare(level)
    requires o.arrival !in level.marketIndex && k <= |level.marketSeqs| + 1
    ensures SumOf(Joined(level, o.arrival, o.qty).marketQty, k)
         == IndexedQty(queue + [o], level.marketIndex[o.arrival := |level.marketSeqs|], k)
  {
    var idx := |level.marketSeqs|;
    var index' := level.marketIndex[o.arrival := idx];
    SumOfAdded(Grown(level.marketQty, idx + 1), idx, o.qty, k);
    SumOfGrown(level.marketQty, idx + 1, k);
    IndexedQtyConcat(queue, [o], index', k);
    IndexedQtyNewStamp(queue, level.marketIndex, o.arrival, idx, k);
    if k > idx {
      IndexedQtyBeyond(queue, level.marketIndex, idx, k);
      assert SumOf(level.marketQty, idx) == IndexedQty(queue, level.marketIndex, idx);
    }
  }

  // ---- lots ahead of a strategy order -------------------------------------------------------

  /** The first index position whose stamp is not below `stamp`. */
  method LowerBound(seqs: seq<nat>, stamp: nat) returns (pos: nat)
    requires Rising(seqs)
    ensures pos <= |seqs|
    ensures forall k :: 0 <= k < pos ==> seqs[k] < stamp
    ensures forall k :: pos <= k < |seqs| ==> seqs[k] >= stamp
  {
    var count := |seqs|;
    pos := 0;
    while count > 0
      invariant 0 <= count && pos + count <= |seqs|
      invariant forall k :: 0 <= k < pos ==> seqs[k] < stamp
      invariant forall k :: pos + count <= k < |seqs| ==> seqs[k] >= stamp
    {
      var half := count / 2;
      if seqs[pos + half] < stamp {
        pos := pos + half + 1;
        count := count - half - 1;
      } else {
        count := half;
      }
    }
  }

  lemma {:induction false} IndexedIsBefore(queue: seq<Order>, seqs: seq<nat>, index: map<nat, nat>, pos: nat,
                                           stamp: nat)
    requires Indexes(index, seqs)
    requires forall i :: 0 <= i < |queue| ==> queue[i].arrival in index
    requires pos <= |seqs|
    requires forall k :: 0 <= k < pos ==> seqs[k] < stamp
    requires forall k :: pos <= k < |seqs| ==> seqs[k] >= stamp
    ensures IndexedQty(queue, index, pos) == QtyBefore(queue, stamp)
  {
    if queue != [] {
      IndexedIsBefore(queue[1..], seqs, index, pos, stamp);
    }
  }

  /** The historical lots that arrived before a strategy order, by binary search and one tree query. */
  method MarketAhead(level: PaperLevel, placement: nat, ghost queue: seq<Order>) returns (lots: int)
    requires MarketRep(level, queue)
    ensures lots == QtyBefore(queue, placement)
  {
    if level.marketSeqs == [] {
      IndexedIsBefore(queue, [], level.marketIndex, 0, placement);
      return 0;
    }
    var pos := LowerBound(level.marketSeqs, placement);
    lots := Query(level.marketQty, pos);
    IndexedIsBefore(queue, level.marketSeqs, level.marketIndex, pos, placement);
  }

  // ---- the paper side of the index ----------------------------------------------------------

  /** Remaining lots of the strategy orders at the first `k` positions of the paper index. */
  ghost function RemIndexed(orders: seq<PaperOrder>, entries: map<int, PaperEntry>, k: nat): int {
    if orders == [] then 0
    else
      (if orders[0].id in entries && entries[orders[0].id].paperIndex < k then orders[0].remaining else 0)
      + RemIndexed(orders[1..], entries, k)
  }

  /** The engine's record of a strategy order says what the level says. */
  ghost predicate EntryRep(entries: map<int, PaperEntry>, p: PaperOrder) {
    && p.id in entries
    && entries[p.id].remaining == p.remaining
    && entries[p.id].placement == p.placement
    && (entries[p.id].status == Open || entries[p.id].status == PartiallyFilled)
  }

  ghost predicate EntriesRep(level: PaperLevel, orders: seq<PaperOrder>, entries: map<int, PaperEntry>) {
    && |level.orders| == |orders|
    && (forall i :: 0 <= i < |orders| ==>
          && EntryRep(entries, orders[i])
          && level.orders[i] == orders[i].id
          && entries[orders[i].id].paperIndex < level.nextPaperIndex)
    && (forall i, j :: 0 <= i < j < |orders| ==>
          entries[orders[i].id].paperIndex < entries[orders[j].id].paperIndex)
  }

  /** The paper tree from position `k` on: the phantom lots and the live remainders before `k`. */
  ghost predicate PaperSums(level: PaperLevel, pq: PaperQueue, entries: map<int, PaperEntry>) {
    && (level.nextPaperIndex == 0 || level.nextPaperIndex < |level.paperQty|)
    && |level.paperQty| <= level.nextPaperIndex + 1
    && (forall k: nat :: k <= level.nextPaperIndex && PastFirst(level, pq.orders, entries, k) ==>
          SumOf(level.paperQty, k) == pq.phantom + RemIndexed(pq.orders, entries, k))
    && level.queuedLots == pq.phantom + RemainingTotal(pq.orders)
  }

  /** Position `k` is not before the front order (nor, in an emptied level, before the end). */
  ghost predicate PastFirst(level: PaperLevel, orders: seq<PaperOrder>, entries: map<int, PaperEntry>, k: nat) {
    if orders == [] then k == level.nextPaperIndex
    else orders[0].id in entries && entries[orders[0].id].paperIndex <= k
  }

  ghost predicate PaperRep(level: PaperLevel, pq: PaperQueue, entries: map<int, PaperEntry>) {
    EntriesRep(level, pq.orders, entries) && PaperSums(level, pq, entries)
  }

  ghost predicate LevelRep(level: PaperLevel, pq: PaperQueue, queue: seq<Order>, entries: map<int, PaperEntry>) {
    MarketRep(level, queue) && NoSpare(level) && PaperRep(level, pq, entries)
  }

  lemma {:induction false} RemIndexedConcat(a: seq<PaperOrder>, b: seq<PaperOrder>, entries: map<int, PaperEntry>,
                                            k: nat)
    ensures RemIndexed(a + b, entries, k) == RemIndexed(a, entries, k) + RemIndexed(b, entries, k)
  {
    if a == [] {
      assert a + b == b;
    } else {
      assert (a + b)[1..] == a[1..] + b;
      RemIndexedConcat(a[1..], b, entries, k);
    }
  }

  lemma {:induction false} RemainingTotalConcat(a: seq<PaperOrder>, b: seq<PaperOrder>)
    ensures RemainingTotal(a + b) == RemainingTotal(a) + RemainingTotal(b)
  {
    if a == [] {
      assert a + b == b;
    } else {
      assert (a + b)[1..] == a[1..] + b;
      RemainingTotalConcat(a[1..], b);
    }
  }

  /** Only the positions of these orders matter. */
  lemma {:induction false} RemIndexedFrame(orders: seq<PaperOrder>, e: map<int, PaperEntry>, f: map<int, PaperEntry>,
                                           k: nat)
    requires forall i :: 0 <= i < |orders| ==>
               orders[i].id in e && orders[i].id in f && f[orders[i].id].paperIndex == e[orders[i].id].paperIndex
    ensures RemIndexed(orders, e, k) == RemIndexed(orders, f, k)
  {
    if orders != [] {
      RemIndexedFrame(orders[1..], e, f, k);
    }
  }

  lemma {:induction false} RemIndexedNone(orders: seq<PaperOrder>, entries: map<int, PaperEntry>, k: nat)
    requires forall i :: 0 <= i < |orders| ==> orders[i].id in entries && entries[orders[i].id].paperIndex >= k
    ensures RemIndexed(orders, entries, k) == 0
  {
    if orders != [] {
      RemIndexedNone(orders[1..], entries, k);
    }
  }

  lemma {:induction false} RemIndexedAll(orders: seq<PaperOrder>, entries: map<int, PaperEntry>, k: nat)
    requires forall i :: 0 <= i < |orders| ==> orders[i].id in entries && entries[orders[i].id].paperIndex < k
    ensures RemIndexed(orders, entries, k) == RemainingTotal(orders)
  {
    if orders != [] {
      RemIndexedAll(orders[1..], entries, k);
    }
  }

  /** Records of other strategy orders may change freely. */
  lemma PaperRepFrame(level: PaperLevel, pq: PaperQueue, e: map<int, PaperEntry>, f: map<int, PaperEntry>)
    requires PaperRep(level, pq, e)
    requires forall i :: 0 <= i < |pq.orders| ==> pq.orders[i].id in f && f[pq.orders[i].id] == e[pq.orders[i].id]
    ensures PaperRep(level, pq, f)
  {
    forall k: nat | k <= level.nextPaperIndex && PastFirst(level, pq.orders, f, k)
      ensures SumOf(level.paperQty, k) == pq.phantom + RemIndexed(pq.orders, f, k)
    {
      RemIndexedFrame(pq.orders, e, f, k);
    }
  }

  /** The paper tree query for the front order returns exactly the phantom lots. */
  lemma FrontAhead(level: PaperLevel, pq: PaperQueue, entries: map<int, PaperEntry>)
    requires PaperRep(level, pq, entries) && pq.orders != []
    ensures var idx := entries[pq.orders[0].id].paperIndex;
            idx < |level.paperQty| && SumOf(level.paperQty, idx) == pq.phantom
  {
    var idx := entries[pq.orders[0].id].paperIndex;
    RemIndexedNone(pq.orders, entries, idx);
  }

  // ---- changes of one strategy order --------------------------------------------------------

  /** The level after the remainder at a paper index changes by `delta`. */
  function Shifted(level: PaperLevel, paperIndex: nat, delta: int): PaperLevel {
    level.(
      queuedLots := level.queuedLots + delta,
      paperQty := Added(level.paperQty, paperIndex, delta))
  }

  lemma {:induction false} RemIndexedSplit(orders: seq<PaperOrder>, i: nat, entries: map<int, PaperEntry>, k: nat)
    requires i < |orders| && orders[i].id in entries
    ensures RemIndexed(orders, entries, k)
         == RemIndexed(orders[..i], entries, k) + RemIndexed(orders[i + 1..], entries, k)
            + if entries[orders[i].id].paperIndex < k then orders[i].remaining else 0
    ensures RemainingTotal(orders)
            == RemainingTotal(orders[..i]) + RemainingTotal(orders[i + 1..]) + orders[i].remaining
    ensures WithoutAt(orders, i) == orders[..i] + orders[i + 1..]
  {
    assert orders == orders[..i] + ([orders[i]] + orders[i + 1..]);
    RemIndexedConcat(orders[..i], [orders[i]] + orders[i + 1..], entries, k);
    RemainingTotalConcat(orders[..i], [orders[i]] + orders[i + 1..]);
  }

  /** The order at `i` gets a new positive remainder. */
  lemma ResizedRep(level: PaperLevel, pq: PaperQueue, entries: map<int, PaperEntry>, i: nat, entry: PaperEntry)
    requires PaperRep(level, pq, entries) && DistinctIds(pq.orders) && i < |pq.orders|
    requires entry.paperIndex == entries[pq.orders[i].id].paperIndex
    requires entry.placement == pq.orders[i].placement
    requires entry.status == Open || entry.status == PartiallyFilled
    ensures var p := pq.orders[i];
            PaperRep(Shifted(level, entry.paperIndex, entry.remaining - p.remaining),
                     pq.(orders := pq.orders[i := p.(remaining := entry.remaining)]),
                     entries[p.id := entry])
  {
    var p := pq.orders[i];
    var delta := entry.remaining - p.remaining;
    var orders' := pq.orders[i := p.(remaining := entry.remaining)];
    var entries' := entries[p.id := entry];
    var level' := Shifted(level, entry.paperIndex, delta);
    assert EntriesRep(level', orders', entries');
    forall k: nat | k <= level.nextPaperIndex && PastFirst(level, orders', entries', k)
      ensures SumOf(level'.paperQty, k) == pq.phantom + RemIndexed(orders', entries', k)
    {
      ResizedSum(level, pq.orders, entries, i, entry, k);
    }
    ResizedSum(level, pq.orders, entries, i, entry, 0);
  }

  lemma ResizedSum(level: PaperLevel, orders: seq<PaperOrder>, entries: map<int, PaperEntry>, i: nat, entry: PaperEntry,
                   k: nat)
    requires EntriesRep(level, orders, entries) && DistinctIds(orders) && i < |orders|
    requires entry.paperIndex == entries[orders[i].id].paperIndex
    requires k == 0 || k < |level.paperQty|
    ensures var p := orders[i];
            var delta := entry.remaining - p.remaining;
            var orders' := orders[i := p.(remaining := entry.remaining)];
            var at := if entry.paperIndex < k then delta else 0;
            && SumOf(Added(level.paperQty, entry.paperIndex, delta), k) == SumOf(level.paperQty, k) + at
            && RemIndexed(orders', entries[p.id := entry], k) == RemIndexed(orders, entries, k) + at
            && RemainingTotal(orders') == RemainingTotal(orders) + delta
  {
    var p := orders[i];
    var orders' := orders[i := p.(remaining := entry.remaining)];
    var entries' := entries[p.id := entry];
    SumOfAdded(level.paperQty, entry.paperIndex, entry.remaining - p.remaining, k);
    RemIndexedFrame(orders, entries, entries', k);
    RemIndexedSplit(orders, i, entries', k);
    RemIndexedSplit(orders', i, entries', k);
    assert orders'[..i] == orders[..i] && orders'[i + 1..] == orders[i + 1..];
  }

  /** The level after the order at `i` leaves, and its remainder leaves the index. */
  ghost function Removed(level: PaperLevel, pq: PaperQueue, entries: map<int, PaperEntry>, i: nat): PaperLevel
    requires i < |pq.orders| && i < |level.orders| && pq.orders[i].id in entries
  {
    var p := pq.orders[i];
    Shifted(level, entries[p.id].paperIndex, -p.remaining).(orders := WithoutAt(level.orders, i))
  }

  lemma RemovedRep(level: PaperLevel, pq: PaperQueue, entries: map<int, PaperEntry>, i: nat)
    requires PaperRep(level, pq, entries) && DistinctIds(pq.orders) && i < |pq.orders|
    ensures PaperRep(Removed(level, pq, entries, i), pq.(orders := WithoutAt(pq.orders, i)),
                     entries - {pq.orders[i].id})
  {
    WithoutEntries(level, pq.orders, entries, i);
    RemovedSums(level, pq, entries, i);
  }

  lemma RemovedSums(level: PaperLevel, pq: PaperQueue, entries: map<int, PaperEntry>, i: nat)
    requires PaperRep(level, pq, entries) && DistinctIds(pq.orders) && i < |pq.orders|
    ensures PaperSums(Removed(level, pq, entries, i), pq.(orders := WithoutAt(pq.orders, i)),
                      entries - {pq.orders[i].id})
  {
    var orders' := WithoutAt(pq.orders, i);
    var entries' := entries - {pq.orders[i].id};
    var level' := Removed(level, pq, entries, i);
    forall k: nat | k <= level.nextPaperIndex && PastFirst(level', orders', entries', k)
      ensures SumOf(level'.paperQty, k) == pq.phantom + RemIndexed(orders', entries', k)
    {
      RemovedSum(level, pq, entries, i, k);
    }
    RemIndexedSplit(pq.orders, i, entries, 0);
    RemainingTotalConcat(pq.orders[..i], pq.orders[i + 1..]);
  }

  lemma WithoutEntries(level: PaperLevel, orders: seq<PaperOrder>, entries: map<int, PaperEntry>, i: nat)
    requires EntriesRep(level, orders, entries) && DistinctIds(orders) && i < |orders|
    ensures EntriesRep(level.(orders := WithoutAt(level.orders, i)), WithoutAt(orders, i), entries - {orders[i].id})
  {
    var orders' := WithoutAt(orders, i);
    var level' := level.(orders := WithoutAt(level.orders, i));
    var entries' := entries - {orders[i].id};
    forall j | 0 <= j < |orders'|
      ensures orders'[j] == orders[Back(i, j)] && level'.orders[j] == level.orders[Back(i, j)]
      ensures orders'[j].id in entries' && entries'[orders'[j].id] == entries[orders[Back(i, j)].id]
    {
    }
  }

  /** Where the order at position `j` stood before the order at `i` left. */
  function Back(i: nat, j: nat): nat {
    if j < i then j else j + 1
  }

  lemma {:induction false} RemovedSum(level: PaperLevel, pq: PaperQueue, entries: map<int, PaperEntry>, i: nat, k: nat)
    requires PaperRep(level, pq, entries) && DistinctIds(pq.orders) && i < |pq.orders|
    requires k <= level.nextPaperIndex
    requires PastFirst(Removed(level, pq, entries, i), WithoutAt(pq.orders, i), entries - {pq.orders[i].id}, k)
    ensures var p := pq.orders[i];
            SumOf(Added(level.paperQty, entries[p.id].paperIndex, -p.remaining), k)
            == pq.phantom + RemIndexed(WithoutAt(pq.orders, i), entries - {p.id}, k)
  {
    var p := pq.orders[i];
    var orders' := WithoutAt(pq.orders, i);
    SumOfAdded(level.paperQty, entries[p.id].paperIndex, -p.remaining, k);
    RemIndexedFrame(orders', entries, entries - {p.id}, k);
    RemIndexedSplit(pq.orders, i, entries, k);
    RemIndexedConcat(pq.orders[..i], pq.orders[i + 1..], entries, k);
    assert orders' != [] ==> orders'[0] == pq.orders[if i == 0 then 1 else 0];
  }

  // ---- direct sweeps ------------------------------------------------------------------------

  /**
   * A direct sweep fills the front order completely: its lots stay in the tree and in the level's
   * lot count, so they have become phantom.
   */
  lemma PhantomRep(level: PaperLevel, pq: PaperQueue, entries: map<int, PaperEntry>)
    requires PaperRep(level, pq, entries) && DistinctIds(pq.orders) && pq.orders != []
    requires pq.orders[0].remaining >= 0
    ensures PaperRep(level.(orders := level.orders[1..]), PhantomFront(pq), entries - {pq.orders[0].id})
  {
    WithoutEntries(level, pq.orders, entries, 0);
    assert WithoutAt(pq.orders, 0) == pq.orders[1..] && WithoutAt(level.orders, 0) == level.orders[1..];
    PhantomSums(level, pq, entries);
  }

  ghost function PhantomFront(pq: PaperQueue): PaperQueue
    requires pq.orders != []
  {
    PaperQueue(pq.orders[1..], pq.phantom + Max(pq.orders[0].remaining, 0))
  }

  lemma PhantomSums(level: PaperLevel, pq: PaperQueue, entries: map<int, PaperEntry>)
    requires PaperRep(level, pq, entries) && DistinctIds(pq.orders) && pq.orders != []
    requires pq.orders[0].remaining >= 0
    ensures PaperSums(level.(orders := level.orders[1..]), PhantomFront(pq), entries - {pq.orders[0].id})
  {
    var level' := level.(orders := level.orders[1..]);
    var pq' := PhantomFront(pq);
    var entries' := entries - {pq.orders[0].id};
    forall k: nat | k <= level'.nextPaperIndex && PastFirst(level', pq'.orders, entries', k)
      ensures SumOf(level'.paperQty, k) == pq'.phantom + RemIndexed(pq'.orders, entries', k)
    {
      PhantomSum(level, pq, entries, k);
    }
  }

  lemma {:induction false} PhantomSum(level: PaperLevel, pq: PaperQueue, entries: map<int, PaperEntry>, k: nat)
    requires PaperRep(level, pq, entries) && DistinctIds(pq.orders) && pq.orders != []
    requires k <= level.nextPaperIndex
    requires PastFirst(level.(orders := level.orders[1..]), pq.orders[1..], entries - {pq.orders[0].id}, k)
    ensures SumOf(level.paperQty, k)
         == pq.phantom + pq.orders[0].remaining + RemIndexed(pq.orders[1..], entries - {pq.orders[0].id}, k)
  {
    RemIndexedFrame(pq.orders[1..], entries, entries - {pq.orders[0].id}, k);
    assert entries[pq.orders[0].id].paperIndex < k;
  }

  // ---- a strategy order joins ---------------------------------------------------------------

  /** A strategy order comes to rest at the end of the level. */
  function Rested(level: PaperLevel, id: int, qty: int): PaperLevel {
    level.(
      orders := level.orders + [id],
      queuedLots := level.queuedLots + qty,
      nextPaperIndex := level.nextPaperIndex + 1,
      paperQty := Added(Grown(level.paperQty, level.nextPaperIndex + 1), level.nextPaperIndex, qty))
  }

  lemma RestedRep(level: PaperLevel, pq: PaperQueue, entries: map<int, PaperEntry>, p: PaperOrder, entry: PaperEntry)
    requires PaperRep(level, pq, entries)
    requires forall i :: 0 <= i < |pq.orders| ==> pq.orders[i].id != p.id
    requires entry.remaining == p.remaining && entry.placement == p.placement
    requires entry.paperIndex == level.nextPaperIndex
    requires entry.status == Open || entry.status == PartiallyFilled
    ensures PaperRep(Rested(level, p.id, p.remaining), pq.(orders := pq.orders + [p]), entries[p.id := entry])
  {
    var level' := Rested(level, p.id, p.remaining);
    var orders' := pq.orders + [p];
    var entries' := entries[p.id := entry];
    assert EntriesRep(level', orders', entries');
    forall k: nat | k <= level'.nextPaperIndex && PastFirst(level', orders', entries', k)
      ensures SumOf(level'.paperQty, k) == pq.phantom + RemIndexed(orders', entries', k)
    {
      RestedSum(level, pq, entries, p, entry, k);
    }
    RemainingTotalConcat(pq.orders, [p]);
  }

  lemma {:induction false} RestedSum(level: PaperLevel, pq: PaperQueue, entries: map<int, PaperEntry>, p: PaperOrder,
                                     entry: PaperEntry, k: nat)
    requires PaperRep(level, pq, entries)
    requires forall i :: 0 <= i < |pq.orders| ==> pq.orders[i].id != p.id
    requires entry.paperIndex == level.nextPaperIndex
    requires k <= level.nextPaperIndex + 1
    requires PastFirst(Rested(level, p.id, p.remaining), pq.orders + [p], entries[p.id := entry], k)
    ensures SumOf(Rested(level, p.id, p.remaining).paperQty, k)
         == pq.phantom + RemIndexed(pq.orders + [p], entries[p.id := entry], k)
  {
    hide Added;
    var n := level.nextPaperIndex;
    var m := if k <= n then k else n;
    SumOfAdded(Grown(level.paperQty, n + 1), n, p.remaining, k);
    SumOfGrown(level.paperQty, n + 1, k);
    RemIndexedConcat(pq.orders, [p], entries[p.id := entry], k);
    RemIndexedFrame(pq.orders, entries, entries[p.id := entry], k);
    assert pq.orders != [] ==> (pq.orders + [p])[0] == pq.orders[0];
    assert PastFirst(level, pq.orders, entries, m);
    if k > n {
      RemIndexedAll(pq.orders, entries, n);
      RemIndexedAll(pq.orders, entries, k);
    }
  }

  // ---- a paper level is created -------------------------------------------------------------

  /** The first `i` orders of the queue have been entered in an otherwise empty level. */
  ghost predicate Entered(level: PaperLevel, queue: seq<Order>, i: nat) {
    && i <= |queue|
    && MarketRep(level, queue[..i]) && NoSpare(level)
    && |level.marketSeqs| == i
    && (forall j :: 0 <= j < i ==> level.marketSeqs[j] == queue[j].arrival)
    && level == EMPTY_LEVEL.(
         marketSeqs := level.marketSeqs, marketQty := level.marketQty, marketIndex := level.marketIndex)
  }

  lemma EnteredNext(level: PaperLevel, queue: seq<Order>, i: nat)
    requires QueueOk(queue) && i < |queue| && Entered(level, queue, i)
    ensures Entered(Joined(level, queue[i].arrival, queue[i].qty), queue, i + 1)
  {
    assert forall j :: 0 <= j < |level.marketSeqs| ==> level.marketSeqs[j] < queue[i].arrival;
    JoinedRep(level, queue[..i], queue[i]);
    assert queue[..i + 1] == queue[..i] + [queue[i]];
  }

  /** The market side of a fresh level: the historical queue at its price, in order. */
  method IndexQueue(queue: seq<Order>) returns (level: PaperLevel)
    requires QueueOk(queue)
    ensures Entered(level, queue, |queue|) && MarketRep(level, queue)
  {
    level := EMPTY_LEVEL;
    assert Entered(level, queue, 0);
    for i := 0 to |queue|
      invariant Entered(level, queue, i)
    {
      EnteredNext(level, queue, i);
      level := Joined(level, queue[i].arrival, queue[i].qty);
    }
    assert queue[..|queue|] == queue;
  }
}
