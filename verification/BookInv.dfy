/** What every update keeps: the indices, the queues and the node table agree, and nothing is crossed. */
module BookInv {
  import opened Types
  import opened PriceHeap
  import opened Level
  import opened Book

  /** A queued order has a node at this place, is indexed under its id, and is older than the clock. */
  ghost predicate OrderOk(s: State, side: Side, price: int, o: Order) {
    && o.arrival < s.clock
    && o.arrival in s.nodes && s.nodes[o.arrival] == Place(side, price)
    && o.source != Strategy
    && (o.id != UNKNOWN_ID ==> o.id in s.info && s.info[o.id] == Loc(side, price, o.arrival))
  }

  ghost predicate QueueInv(s: State, side: Side, price: int, queue: seq<Order>) {
    queue != [] && QueueOk(queue) && forall i :: 0 <= i < |queue| ==> OrderOk(s, side, price, queue[i])
  }

  ghost predicate LevelInv(s: State, side: Side, price: int) {
    price in s.hist.At(side) ==> QueueInv(s, side, price, s.hist.At(side)[price])
  }

  ghost predicate Holds(queue: seq<Order>, stamp: nat) {
    exists i :: 0 <= i < |queue| && queue[i].arrival == stamp
  }

  /** A node in use is linked in exactly the queue at its place. */
  ghost predicate NodeInv(s: State, stamp: nat) {
    stamp in s.nodes ==> Holds(QueueAt(s.hist, s.nodes[stamp].side, s.nodes[stamp].price), stamp)
  }

  ghost predicate HasOrder(queue: seq<Order>, id: int, stamp: nat) {
    exists i :: 0 <= i < |queue| && queue[i].arrival == stamp && queue[i].id == id
  }

  /** An indexed id names an order that is queued at the indexed side and price. */
  ghost predicate InfoInv(s: State, id: int) {
    id in s.info ==>
      && HasOrder(QueueAt(s.hist, s.info[id].side, s.info[id].price), id, s.info[id].arrival)
  }

  ghost predicate HistInv(s: State) {
    && (forall side, price :: LevelInv(s, side, price))
    && (forall stamp :: NodeInv(s, stamp))
    && (forall id :: InfoInv(s, id))
  }

  ghost predicate PaperOk(s: State, side: Side, price: int, p: PaperOrder) {
    && p.placement < s.clock && p.placement !in s.nodes
    && p.id in s.paperInfo && s.paperInfo[p.id] == Place(side, price)
    && p.id !in s.info
  }

  ghost predicate PapersInv(s: State, side: Side, price: int, orders: seq<PaperOrder>) {
    && orders != [] && PapersOk(orders) && DistinctIds(orders)
    && forall i :: 0 <= i < |orders| ==> PaperOk(s, side, price, orders[i])
  }

  ghost predicate PaperLevelInv(s: State, side: Side, price: int) {
    price in s.paper.At(side) ==> PapersInv(s, side, price, s.paper.At(side)[price].orders)
  }

  ghost predicate HasId(orders: seq<PaperOrder>, id: int) {
    exists i :: 0 <= i < |orders| && orders[i].id == id
  }

  ghost predicate PaperInfoInv(s: State, id: int) {
    id in s.paperInfo ==> HasId(PapersAt(s, s.paperInfo[id].side, s.paperInfo[id].price).orders, id)
  }

  ghost predicate PaperInv(s: State) {
    && (forall side, price :: PaperLevelInv(s, side, price))
    && (forall id :: PaperInfoInv(s, id))
  }

  /** The best bid stays below the best ask. */
  ghost predicate NotCrossed(s: State) {
    forall bid, ask :: bid in s.hist.buy && ask in s.hist.sell ==> bid < ask
  }

  ghost predicate Inv(s: State) {
    HistInv(s) && PaperInv(s) && NotCrossed(s)
  }

  // ---- queues that only lost lots -----------------------------------------------------------

  /** `queue'` is `queue` with some orders gone and some quantities lower or higher, never reordered. */
  ghost predicate Thinned(queue': seq<Order>, queue: seq<Order>) {
    && QueueOk(queue')
    && forall i :: 0 <= i < |queue'| ==> Keeps(queue, queue'[i])
  }

  ghost predicate Keeps(queue: seq<Order>, o: Order) {
    exists j :: 0 <= j < |queue| && queue[j] == o.(qty := queue[j].qty)
  }

  /** In a well-formed queue a stamp names one order. */
  lemma OneStamp(queue: seq<Order>, i: nat, j: nat)
    requires QueueOk(queue) && i < |queue| && j < |queue| && queue[i].arrival == queue[j].arrival
    ensures i == j
  {
  }

  /** An order that stays keeps its id; an order that leaves takes only its own id along. */
  lemma GoneExactly(queue: seq<Order>, queue': seq<Order>, i: nat)
    requires QueueOk(queue) && Thinned(queue', queue) && i < |queue|
    ensures queue[i].arrival in GoneStamps(queue, queue') <==> !Holds(queue', queue[i].arrival)
  {
    assert queue[i].arrival in Stamps(queue') <==> Holds(queue', queue[i].arrival);
    if queue[i].arrival in GoneStamps(queue, queue') {
    } else {
      assert queue[i] in queue;
    }
  }

  lemma RequeueLevels(s: State, side: Side, price: int, queue': seq<Order>, d: Side, q: int)
    requires HistInv(s) && Thinned(queue', QueueAt(s.hist, side, price))
    requires price in s.hist.At(side)
    ensures LevelInv(Requeue(s, side, price, queue'), d, q)
  {
    var s' := Requeue(s, side, price, queue');
    var queue := QueueAt(s.hist, side, price);
    assert LevelInv(s, side, price);
    if q in s'.hist.At(d) {
      assert LevelInv(s, d, q);
      var after := s'.hist.At(d)[q];
      forall i | 0 <= i < |after| ensures OrderOk(s', d, q, after[i]) {
        if d == side && q == price {
          assert Keeps(queue, after[i]);
          var j :| 0 <= j < |queue| && queue[j] == after[i].(qty := queue[j].qty);
          RequeueKeepsOrder(s, side, price, queue', d, q, queue[j]);
        } else {
          RequeueKeepsOrder(s, side, price, queue', d, q, after[i]);
        }
      }
    }
  }

  /** Orders elsewhere, and orders that stay, keep their node and their index entry. */
  lemma RequeueKeepsOrder(s: State, side: Side, price: int, queue': seq<Order>, d: Side, q: int, o: Order)
    requires HistInv(s) && Thinned(queue', QueueAt(s.hist, side, price))
    requires OrderOk(s, d, q, o)
    requires price in s.hist.At(side)
    requires d == side && q == price ==> Holds(queue', o.arrival)
    ensures OrderOk(Requeue(s, side, price, queue'), d, q, o)
  {
    var queue := QueueAt(s.hist, side, price);
    assert LevelInv(s, side, price);
    assert o.arrival !in GoneStamps(queue, queue');
    assert o.id != UNKNOWN_ID ==> o.id !in GoneIds(queue, queue');
  }

  lemma RequeueNodes(s: State, side: Side, price: int, queue': seq<Order>, stamp: nat)
    requires HistInv(s) && Thinned(queue', QueueAt(s.hist, side, price))
    requires price in s.hist.At(side)
    ensures NodeInv(Requeue(s, side, price, queue'), stamp)
  {
    var s' := Requeue(s, side, price, queue');
    var queue := QueueAt(s.hist, side, price);
    assert NodeInv(s, stamp) && LevelInv(s, side, price);
    if stamp in s'.nodes && s.nodes[stamp] == Place(side, price) {
      var i :| 0 <= i < |queue| && queue[i].arrival == stamp;
      GoneExactly(queue, queue', i);
      assert Holds(queue', stamp);
      assert QueueAt(s'.hist, side, price) == queue';
    }
  }

  lemma RequeueInfo(s: State, side: Side, price: int, queue': seq<Order>, id: int)
    requires HistInv(s) && Thinned(queue', QueueAt(s.hist, side, price))
    requires price in s.hist.At(side)
    ensures InfoInv(Requeue(s, side, price, queue'), id)
  {
    var s' := Requeue(s, side, price, queue');
    var queue := QueueAt(s.hist, side, price);
    assert InfoInv(s, id) && LevelInv(s, side, price);
    if id in s'.info && s.info[id].side == side && s.info[id].price == price {
      var i :| 0 <= i < |queue| && queue[i].arrival == s.info[id].arrival && queue[i].id == id;
      assert queue[i] in queue;
      assert queue[i].arrival in Stamps(queue');
      var k :| 0 <= k < |queue'| && queue'[k].arrival == queue[i].arrival;
      assert Keeps(queue, queue'[k]);
      var j :| 0 <= j < |queue| && queue[j] == queue'[k].(qty := queue[j].qty);
      OneStamp(queue, i, j);
      assert QueueAt(s'.hist, side, price) == queue';
    }
  }

  /** Thinning one queue keeps the whole historical invariant. */
  lemma RequeueHistInv(s: State, side: Side, price: int, queue': seq<Order>)
    requires HistInv(s) && Thinned(queue', QueueAt(s.hist, side, price))
    requires price in s.hist.At(side)
    ensures HistInv(Requeue(s, side, price, queue'))
  {
    var s' := Requeue(s, side, price, queue');
    forall d, q ensures LevelInv(s', d, q) {
      RequeueLevels(s, side, price, queue', d, q);
    }
    forall stamp ensures NodeInv(s', stamp) {
      RequeueNodes(s, side, price, queue', stamp);
    }
    forall id ensures InfoInv(s', id) {
      RequeueInfo(s, side, price, queue', id);
    }
  }

  lemma RequeueInv(s: State, side: Side, price: int, queue': seq<Order>)
    requires Inv(s) && Thinned(queue', QueueAt(s.hist, side, price))
    requires price in s.hist.At(side)
    ensures Inv(Requeue(s, side, price, queue'))
  {
    var s' := Requeue(s, side, price, queue');
    RequeueHistInv(s, side, price, queue');
    forall d, q ensures PaperLevelInv(s', d, q) {
      assert PaperLevelInv(s, d, q);
    }
    forall id ensures PaperInfoInv(s', id) {
      assert PaperInfoInv(s, id);
    }
  }

  // ---- strategy orders that only lost lots --------------------------------------------------

  ghost predicate KeepsPaper(orders: seq<PaperOrder>, p: PaperOrder) {
    exists j :: 0 <= j < |orders| && orders[j] == p.(remaining := orders[j].remaining)
  }

  ghost predicate ThinnedPapers(orders': seq<PaperOrder>, orders: seq<PaperOrder>) {
    && PapersOk(orders') && DistinctIds(orders')
    && forall i :: 0 <= i < |orders'| ==> KeepsPaper(orders, orders'[i])
  }

  lemma RepaperLevels(s: State, side: Side, price: int, pq': PaperQueue, d: Side, q: int)
    requires PaperInv(s) && price in s.paper.At(side)
    requires ThinnedPapers(pq'.orders, s.paper.At(side)[price].orders)
    ensures PaperLevelInv(Repaper(s, side, price, pq'), d, q)
  {
    var s' := Repaper(s, side, price, pq');
    var orders := s.paper.At(side)[price].orders;
    assert PaperLevelInv(s, side, price);
    if q in s'.paper.At(d) {
      assert PaperLevelInv(s, d, q);
      var after := s'.paper.At(d)[q].orders;
      forall i | 0 <= i < |after| ensures PaperOk(s', d, q, after[i]) {
        if d == side && q == price {
          assert KeepsPaper(orders, after[i]);
          var j :| 0 <= j < |orders| && orders[j] == after[i].(remaining := orders[j].remaining);
          assert PaperOk(s, side, price, orders[j]);
          assert after[i] in pq'.orders;
        } else {
          assert PaperOk(s, d, q, after[i]);
          assert after[i].id !in Ids(orders);
        }
      }
    }
  }

  lemma RepaperInfo(s: State, side: Side, price: int, pq': PaperQueue, id: int)
    requires PaperInv(s) && price in s.paper.At(side)
    requires ThinnedPapers(pq'.orders, s.paper.At(side)[price].orders)
    ensures PaperInfoInv(Repaper(s, side, price, pq'), id)
  {
    var s' := Repaper(s, side, price, pq');
    var orders := s.paper.At(side)[price].orders;
    assert PaperInfoInv(s, id);
    if id in s'.paperInfo && s.paperInfo[id] == Place(side, price) {
      var i :| 0 <= i < |orders| && orders[i].id == id;
      assert orders[i] in orders;
      assert id in Ids(orders);
      var p :| p in pq'.orders && p.id == id;
      assert HasId(pq'.orders, id);
      assert PapersAt(s', side, price).orders == pq'.orders;
    }
  }

  lemma RepaperInv(s: State, side: Side, price: int, pq': PaperQueue)
    requires Inv(s) && price in s.paper.At(side)
    requires ThinnedPapers(pq'.orders, s.paper.At(side)[price].orders)
    ensures Inv(Repaper(s, side, price, pq'))
  {
    var s' := Repaper(s, side, price, pq');
    assert HistInv(s') by {
      forall d, q ensures LevelInv(s', d, q) {
        assert LevelInv(s, d, q);
        if q in s.hist.At(d) {
          forall i | 0 <= i < |s.hist.At(d)[q]| ensures OrderOk(s', d, q, s.hist.At(d)[q][i]) {
            assert OrderOk(s, d, q, s.hist.At(d)[q][i]);
          }
        }
      }
      assert forall stamp :: NodeInv(s, stamp) ==> NodeInv(s', stamp);
      assert forall id :: InfoInv(s, id) ==> InfoInv(s', id);
    }
    forall d, q ensures PaperLevelInv(s', d, q) {
      RepaperLevels(s, side, price, pq', d, q);
    }
    forall id ensures PaperInfoInv(s', id) {
      RepaperInfo(s, side, price, pq', id);
    }
  }

  // ---- the changes the engine makes are of that kind ----------------------------------------

  lemma RestIsThinned(rest: seq<Order>, queue: seq<Order>)
    requires QueueOk(queue) && RestOf(rest, queue)
    ensures Thinned(rest, queue)
  {
    RestOfOk(rest, queue);
    forall i | 0 <= i < |rest| ensures Keeps(queue, rest[i]) {
      var j := |queue| - |rest| + i;
      if i > 0 {
        assert rest[i] == rest[1..][i - 1] == queue[|queue| - |rest| + 1..][i - 1];
      }
      assert queue[j] == rest[i].(qty := queue[j].qty);
    }
  }

  lemma ChangedIsThinned(queue: seq<Order>, i: nat, delta: int)
    requires QueueOk(queue) && i < |queue| && queue[i].qty + delta >= 0
    ensures Thinned(Changed(queue, i, delta), queue)
  {
    var queue' := Changed(queue, i, delta);
    forall k | 0 <= k < |queue'| ensures Keeps(queue, queue'[k]) {
      var j := if queue[i].qty + delta == 0 && k >= i then k + 1 else k;
      assert queue[j] == queue'[k].(qty := queue[j].qty);
    }
  }

  lemma SuffixIsThinned(rest: seq<PaperOrder>, orders: seq<PaperOrder>)
    requires PapersOk(orders) && DistinctIds(orders) && SuffixOf(rest, orders)
    ensures ThinnedPapers(rest, orders)
  {
    SuffixOfOk(rest, orders);
    var d := |orders| - |rest|;
    forall i | 0 <= i < |rest| ensures rest[i] == orders[d + i].(remaining := rest[i].remaining) {
      if i > 0 {
        assert rest[i] == rest[1..][i - 1] == orders[d + 1..][i - 1];
      }
    }
    forall i | 0 <= i < |rest| ensures KeepsPaper(orders, rest[i]) {
      assert orders[d + i] == rest[i].(remaining := orders[d + i].remaining);
    }
  }

  lemma ResizedIsThinned(orders: seq<PaperOrder>, i: nat, remaining: int)
    requires PapersOk(orders) && DistinctIds(orders) && i < |orders| && remaining > 0
    ensures ThinnedPapers(orders[i := orders[i].(remaining := remaining)], orders)
  {
    var orders' := orders[i := orders[i].(remaining := remaining)];
    forall k | 0 <= k < |orders'| ensures KeepsPaper(orders, orders'[k]) {
      assert orders[k] == orders'[k].(remaining := orders[k].remaining);
    }
  }

  lemma RemovedIsThinned(orders: seq<PaperOrder>, i: nat)
    requires PapersOk(orders) && DistinctIds(orders) && i < |orders|
    ensures ThinnedPapers(WithoutAt(orders, i), orders)
  {
    var orders' := WithoutAt(orders, i);
    forall k | 0 <= k < |orders'|
      ensures orders'[k] == orders[if k < i then k else k + 1] && KeepsPaper(orders, orders'[k])
    {
      var j := if k < i then k else k + 1;
      assert orders[j] == orders'[k].(remaining := orders[j].remaining);
    }
  }

  // ---- matching -----------------------------------------------------------------------------

  lemma ShadowAtInv(s: State, side: Side, price: int, market: seq<Order>, traded: int, e: Event)
    requires Inv(s)
    ensures Inv(ShadowAt(s, side, price, market, traded, e).0)
  {
    if traded > 0 && price in s.paper.At(side) {
      var pq := s.paper.At(side)[price];
      assert PaperLevelInv(s, side, price);
      ShadowRest(market, pq, traded, 0);
      SuffixIsThinned(Shadow(market, pq, traded, 0).1.orders, pq.orders);
      RepaperInv(s, side, price, Shadow(market, pq, traded, 0).1);
    }
  }

  lemma TradeLevelInv(s: State, e: Event, px: int, left: int)
    requires Inv(s) && left > 0 && px in s.hist.At(e.side.Opposite())
    ensures var t := TradeLevel(s, e, px, left);
            Inv(t.state) && 0 <= t.left < left && (t.done ==> t.left == 0)
  {
    var maker := e.side.Opposite();
    var queue := QueueAt(s.hist, maker, px);
    var c := Consume(queue, left);
    assert LevelInv(s, maker, px);
    ConsumeRest(queue, left);
    RestIsThinned(c.rest, queue);
    RequeueInv(s, maker, px, c.rest);
    ShadowAtInv(Requeue(s, maker, px, c.rest), maker, px, queue, left - c.left, e);
  }

  lemma TradeLevelShrinks(s: State, e: Event, px: int, left: int)
    requires px in s.hist.At(e.side.Opposite())
    ensures var t := TradeLevel(s, e, px, left);
            !t.done ==> |t.state.hist.At(e.side.Opposite())| < |s.hist.At(e.side.Opposite())|
  {
  }

  /** What a historical aggressor leaves behind satisfies the invariant and no longer trades. */
  lemma {:induction false} MatchHistoricalInv(s: State, e: Event, left: int)
    requires Inv(s) && left >= 0
    ensures var r := MatchHistorical(s, e, left);
            Inv(r.state) && 0 <= r.left <= left && (r.left > 0 ==> NothingCrosses(r.state, e))
    decreases |s.hist.At(e.side.Opposite())|
  {
    var maker := e.side.Opposite();
    var levels := s.hist.At(maker);
    var best := BestPrice(levels, maker);
    if left > 0 && best.Some? && Crosses(maker, e.price, best.value) {
      var t := TradeLevel(s, e, best.value, left);
      TradeLevelInv(s, e, best.value, left);
      if !t.done {
        MatchHistoricalInv(t.state, e, t.left);
      }
    } else if left > 0 {
      BestBounds(levels, maker, e.price);
    }
  }

  /** No opposite historical price reaches the event's limit. */
  ghost predicate NothingCrosses(s: State, e: Event) {
    var maker := e.side.Opposite();
    forall p :: p in s.hist.At(maker) ==> !Crosses(maker, e.price, p)
  }

  /** No opposite strategy order can trade at the event's limit either. */
  ghost predicate NoPaperCrosses(s: State, e: Event) {
    var maker := e.side.Opposite();
    forall p :: p in s.paper.At(maker) ==> !Crosses(maker, e.price, p)
  }

  /** If the best price does not cross, none does. */
  lemma BestBounds<T>(levels: map<int, T>, maker: Side, limit: int)
    requires BestPrice(levels, maker).Some? ==> !Crosses(maker, limit, BestPrice(levels, maker).value)
    ensures forall p :: p in levels ==> !Crosses(maker, limit, p)
  {
    forall p | p in levels ensures !Crosses(maker, limit, p) {
      assert p in levels.Keys;
    }
  }

  lemma SweepLevelInv(s: State, e: Event, px: int, left: int)
    requires Inv(s) && left > 0 && px in s.paper.At(e.side.Opposite())
    ensures var t := SweepLevel(s, e, px, left);
            && Inv(t.state) && 0 <= t.left < left && (t.done ==> t.left == 0)
            && SameBook(s, t.state) && t.state.paperInfo.Keys <= s.paperInfo.Keys
  {
    var maker := e.side.Opposite();
    var pq := s.paper.At(maker)[px];
    assert PaperLevelInv(s, maker, px);
    SweepRest(pq, left);
    SuffixIsThinned(Sweep(pq, left).2.orders, pq.orders);
    RepaperInv(s, maker, px, Sweep(pq, left).2);
  }

  /** A sweep touches only strategy orders, and stops only when done or when nothing crosses. */
  lemma {:induction false} SweepPapersInv(s: State, e: Event, limit: Option<int>, left: int)
    requires Inv(s) && left >= 0
    ensures var r := SweepPapers(s, e, limit, left);
            && Inv(r.state) && 0 <= r.left <= left
            && SameBook(s, r.state) && r.state.paperInfo.Keys <= s.paperInfo.Keys
            && (r.left > 0 && limit == Some(e.price) ==> NoPaperCrosses(r.state, e))
    decreases |s.paper.At(e.side.Opposite())|
  {
    var maker := e.side.Opposite();
    var levels := s.paper.At(maker);
    var best := BestPrice(levels, maker);
    if left > 0 && best.Some? && Reaches(maker, limit, best.value) {
      var t := SweepLevel(s, e, best.value, left);
      SweepLevelInv(s, e, best.value, left);
      if !t.done {
        SweepPapersInv(t.state, e, limit, t.left);
      }
    } else if left > 0 && limit == Some(e.price) {
      BestBounds(levels, maker, e.price);
    }
  }

  /** The historical book and its indices are the same. */
  ghost predicate SameBook(s: State, t: State) {
    t.hist == s.hist && t.nodes == s.nodes && t.info == s.info && t.clock == s.clock && t.seq_ == s.seq_
  }

  /** Shadow fills never touch the historical book, its indices or the counters. */
  lemma ShadowKeepsBook(s: State, side: Side, px: int, market: seq<Order>, traded: int, e: Event)
    ensures SameBook(s, ShadowAt(s, side, px, market, traded, e).0)
  {
  }

  /** Nor do changes of strategy orders. */
  lemma SetRemainingKeepsBook(s: State, id: int, remaining: int)
    ensures SameBook(s, SetRemaining(s, id, remaining))
  {
  }

  /** Changes of historical orders do not touch strategy orders. */
  lemma ChangeKeepsPaper(s: State, id: int, delta: int)
    ensures ChangeQty(s, id, delta).paper == s.paper && ChangeQty(s, id, delta).paperInfo == s.paperInfo
  {
  }

  lemma {:induction false} MatchKeepsIds(s: State, e: Event, left: int)
    ensures var r := MatchHistorical(s, e, left).state;
            && r.info.Keys <= s.info.Keys && r.paperInfo.Keys <= s.paperInfo.Keys
            && r.nodes.Keys <= s.nodes.Keys && r.clock == s.clock && r.seq_ == s.seq_
    decreases |s.hist.At(e.side.Opposite())|
  {
    var maker := e.side.Opposite();
    var best := BestPrice(s.hist.At(maker), maker);
    if left > 0 && best.Some? && Crosses(maker, e.price, best.value) {
      var t := TradeLevel(s, e, best.value, left);
      if !t.done {
        MatchKeepsIds(t.state, e, t.left);
      }
    }
  }

  // ---- coming to rest -----------------------------------------------------------------------

  lemma RestHistoricalInv(caps: Caps, s: State, e: Event, qty: int)
    requires Inv(s) && qty > 0
    requires e.source != Strategy && e.id !in s.info && e.id !in s.paperInfo
    requires NothingCrosses(s, e)
    ensures Inv(RestHistorical(caps, s, e, qty))
  {
    if |s.nodes| < caps.historical {
      var s' := RestHistorical(caps, s, e, qty);
      RestHistoricalHist(caps, s, e, qty);
      forall d, q ensures PaperLevelInv(s', d, q) {
        assert PaperLevelInv(s, d, q);
        if q in s.paper.At(d) {
          forall i | 0 <= i < |s.paper.At(d)[q].orders| ensures PaperOk(s', d, q, s.paper.At(d)[q].orders[i]) {
            assert PaperOk(s, d, q, s.paper.At(d)[q].orders[i]);
          }
        }
      }
      assert forall id :: PaperInfoInv(s, id) ==> PaperInfoInv(s', id);
      RestNotCrossed(caps, s, e, qty);
    }
  }

  lemma RestNotCrossed(caps: Caps, s: State, e: Event, qty: int)
    requires NotCrossed(s) && NothingCrosses(s, e)
    ensures NotCrossed(RestHistorical(caps, s, e, qty))
  {
    var s' := RestHistorical(caps, s, e, qty);
    forall bid, ask | bid in s'.hist.buy && ask in s'.hist.sell ensures bid < ask {
      var maker := e.side.Opposite();
      if e.side == Buy {
        assert ask in s.hist.At(maker);
        assert !Crosses(maker, e.price, ask);
      } else {
        assert bid in s.hist.At(maker);
        assert !Crosses(maker, e.price, bid);
      }
    }
  }

  lemma RestHistoricalHist(caps: Caps, s: State, e: Event, qty: int)
    requires HistInv(s) && qty > 0
    requires e.source != Strategy && e.id !in s.info
    requires |s.nodes| < caps.historical
    ensures HistInv(RestHistorical(caps, s, e, qty))
  {
    var s' := RestHistorical(caps, s, e, qty);
    var queue := QueueAt(s.hist, e.side, e.price);
    var queue' := queue + [Order(e.id, qty, e.source, s.clock)];
    forall d, q ensures LevelInv(s', d, q) {
      assert LevelInv(s, d, q);
      if q in s'.hist.At(d) {
        var after := s'.hist.At(d)[q];
        forall i | 0 <= i < |after| ensures OrderOk(s', d, q, after[i]) {
          if i < |QueueAt(s.hist, d, q)| {
            assert OrderOk(s, d, q, QueueAt(s.hist, d, q)[i]);
          }
        }
      }
    }
    forall stamp ensures NodeInv(s', stamp) {
      assert NodeInv(s, stamp);
      assert queue'[|queue|].arrival == s.clock;
      if stamp in s.nodes && s.nodes[stamp] == Place(e.side, e.price) {
        var i :| 0 <= i < |queue| && queue[i].arrival == stamp;
        assert queue'[i].arrival == stamp;
      }
    }
    forall id ensures InfoInv(s', id) {
      assert InfoInv(s, id);
      assert queue'[|queue|].arrival == s.clock && queue'[|queue|].id == e.id;
      if id in s.info && s.info[id].side == e.side && s.info[id].price == e.price {
        var i :| 0 <= i < |queue| && queue[i].arrival == s.info[id].arrival && queue[i].id == id;
        assert queue'[i].arrival == s.info[id].arrival && queue'[i].id == id;
      }
    }
  }

  lemma RestPaperInv(caps: Caps, s: State, e: Event, qty: int)
    requires Inv(s) && qty > 0
    requires e.id !in s.info && e.id !in s.paperInfo
    ensures Inv(RestPaper(caps, s, e, qty))
  {
    if |s.paperInfo| < caps.paper {
      var s' := RestPaper(caps, s, e, qty);
      assert HistInv(s') by {
        forall d, q ensures LevelInv(s', d, q) {
          assert LevelInv(s, d, q);
          if q in s.hist.At(d) {
            forall i | 0 <= i < |s.hist.At(d)[q]| ensures OrderOk(s', d, q, s.hist.At(d)[q][i]) {
              assert OrderOk(s, d, q, s.hist.At(d)[q][i]);
            }
          }
        }
        assert forall stamp :: NodeInv(s, stamp) ==> NodeInv(s', stamp);
        assert forall id :: InfoInv(s, id) ==> InfoInv(s', id);
      }
      RestPaperPapers(caps, s, e, qty);
    }
  }

  /** The clock is ahead of every stamp in use. */
  lemma StampBelowClock(s: State, stamp: nat)
    requires HistInv(s) && stamp in s.nodes
    ensures stamp < s.clock
  {
    assert NodeInv(s, stamp);
    var place := s.nodes[stamp];
    assert LevelInv(s, place.side, place.price);
  }

  /** The next stamp is free. */
  lemma FreshStamp(s: State)
    requires Inv(s)
    ensures s.clock !in s.nodes
  {
    if s.clock in s.nodes {
      StampBelowClock(s, s.clock);
    }
  }

  lemma PapersAppend(orders: seq<PaperOrder>, p: PaperOrder)
    requires PapersOk(orders) && DistinctIds(orders) && p.remaining > 0
    requires forall i :: 0 <= i < |orders| ==> orders[i].id != p.id && orders[i].placement < p.placement
    ensures PapersOk(orders + [p]) && DistinctIds(orders + [p])
  {
  }

  lemma RestPaperLevel(caps: Caps, s: State, e: Event, qty: int, d: Side, q: int)
    requires Inv(s) && qty > 0
    requires e.id !in s.info && e.id !in s.paperInfo
    requires |s.paperInfo| < caps.paper
    ensures PaperLevelInv(RestPaper(caps, s, e, qty), d, q)
  {
    var s' := RestPaper(caps, s, e, qty);
    var orders := PapersAt(s, d, q).orders;
    assert PaperLevelInv(s, d, q);
    assert forall i :: 0 <= i < |orders| ==> PaperOk(s, d, q, orders[i]);
    FreshStamp(s);
    if d == e.side && q == e.price {
      PapersAppend(orders, PaperOrder(e.id, qty, s.clock));
    }
    var after := PapersAt(s', d, q).orders;
    forall i | 0 <= i < |after| ensures PaperOk(s', d, q, after[i]) {
      if i < |orders| {
        assert PaperOk(s, d, q, orders[i]);
      }
    }
  }

  lemma RestPaperPapers(caps: Caps, s: State, e: Event, qty: int)
    requires Inv(s) && qty > 0
    requires e.id !in s.info && e.id !in s.paperInfo
    requires |s.paperInfo| < caps.paper
    ensures PaperInv(RestPaper(caps, s, e, qty))
  {
    var s' := RestPaper(caps, s, e, qty);
    var orders := PapersAt(s, e.side, e.price).orders;
    var orders' := orders + [PaperOrder(e.id, qty, s.clock)];
    forall d, q ensures PaperLevelInv(s', d, q) {
      RestPaperLevel(caps, s, e, qty, d, q);
    }
    forall id ensures PaperInfoInv(s', id) {
      assert PaperInfoInv(s, id);
      assert orders'[|orders|].id == e.id;
      if id in s.paperInfo && s.paperInfo[id] == Place(e.side, e.price) {
        var i :| 0 <= i < |orders| && orders[i].id == id;
        assert orders'[i].id == id;
      }
    }
  }

  // ---- every update -------------------------------------------------------------------------

  lemma AddInv(caps: Caps, s: State, e: Event)
    requires Inv(s) && e.kind == Add
    ensures Inv(OnAdd(caps, s, e).0)
  {
    if e.qty < 0 || e.id in s.info || e.id in s.paperInfo {
    } else if e.source == Strategy {
      var d := DryRun(s.hist.At(e.side.Opposite()), e.side.Opposite(), Some(e.price), e.qty);
      if d.1 > 0 {
        RestPaperInv(caps, s, e, d.1);
      }
    } else {
      var m := MatchHistorical(s, e, e.qty);
      MatchHistoricalInv(s, e, e.qty);
      MatchKeepsIds(s, e, e.qty);
      var p := SweepPapers(m.state, e, Some(e.price), m.left);
      SweepPapersInv(m.state, e, Some(e.price), m.left);
      if p.left > 0 {
        assert NothingCrosses(p.state, e);
        RestHistoricalInv(caps, p.state, e, p.left);
      }
    }
  }

  lemma ChangeQtyInv(s: State, id: int, delta: int)
    requires Inv(s) && LiveQty(s, id) + delta >= 0
    ensures Inv(ChangeQty(s, id, delta))
  {
    if id in s.info {
      var loc := s.info[id];
      var queue := QueueAt(s.hist, loc.side, loc.price);
      var i := IndexOf(queue, loc.arrival);
      assert InfoInv(s, id) && LevelInv(s, loc.side, loc.price);
      if i < |queue| {
        ChangedIsThinned(queue, i, delta);
        RequeueInv(s, loc.side, loc.price, Changed(queue, i, delta));
      }
    }
  }

  lemma SetRemainingInv(s: State, id: int, remaining: int)
    requires Inv(s) && remaining >= 0
    ensures Inv(SetRemaining(s, id, remaining))
  {
    if id in s.paperInfo {
      var place := s.paperInfo[id];
      if place.price in s.paper.At(place.side) {
        var pq := s.paper.At(place.side)[place.price];
        var i := PositionOf(pq.orders, id);
        assert PaperLevelInv(s, place.side, place.price);
        if i < |pq.orders| {
          if remaining == 0 {
            RemovedIsThinned(pq.orders, i);
            RepaperInv(s, place.side, place.price, pq.(orders := WithoutAt(pq.orders, i)));
          } else {
            ResizedIsThinned(pq.orders, i, remaining);
            RepaperInv(s, place.side, place.price,
                       pq.(orders := pq.orders[i := pq.orders[i].(remaining := remaining)]));
          }
        }
      }
    }
  }

  lemma LiveQtyPositive(s: State, id: int)
    requires Inv(s)
    ensures LiveQty(s, id) >= 0
    ensures id in s.info ==> LiveQty(s, id) > 0
  {
    if id in s.info {
      assert InfoInv(s, id) && LevelInv(s, s.info[id].side, s.info[id].price);
    }
  }

  lemma AggressiveInv(s: State, e: Event)
    requires Inv(s)
    ensures Inv(OnAggressiveTrade(s, e).0)
  {
    if e.source == Strategy && e.qty > 0 {
      var maker := e.side.Opposite();
      var d := DryRun(s.hist.At(maker), maker, None, e.qty);
      forall p | p in s.hist.At(maker) ensures QueueOk(s.hist.At(maker)[p]) {
        assert LevelInv(s, maker, p);
      }
      DryRunBounds(s.hist.At(maker), maker, None, e.qty);
      SweepPapersInv(s, e, None, d.1);
      CountInv(SweepPapers(s, e, None, d.1).state);
    }
  }

  /** The event counter is not part of the invariant. */
  lemma CountInv(s: State)
    requires Inv(s)
    ensures Inv(s.(seq_ := s.seq_ + 1))
  {
    var s' := s.(seq_ := s.seq_ + 1);
    forall d, q ensures LevelInv(s', d, q) && PaperLevelInv(s', d, q) {
      assert LevelInv(s, d, q) && PaperLevelInv(s, d, q);
      if q in s.hist.At(d) {
        assert forall i :: 0 <= i < |s.hist.At(d)[q]| ==> OrderOk(s, d, q, s.hist.At(d)[q][i]);
      }
      if q in s.paper.At(d) {
        assert forall i :: 0 <= i < |s.paper.At(d)[q].orders| ==> PaperOk(s, d, q, s.paper.At(d)[q].orders[i]);
      }
    }
    assert forall stamp :: NodeInv(s, stamp) ==> NodeInv(s', stamp);
    assert forall id :: InfoInv(s, id) ==> InfoInv(s', id);
    assert forall id :: PaperInfoInv(s, id) ==> PaperInfoInv(s', id);
  }

  lemma {:induction false} DryRunBounds(levels: map<int, seq<Order>>, maker: Side, limit: Option<int>, left: int)
    requires forall p :: p in levels ==> QueueOk(levels[p])
    requires left >= 0
    ensures 0 <= DryRun(levels, maker, limit, left).1 <= left
    decreases |levels|
  {
    var best := BestPrice(levels, maker);
    if left > 0 && best.Some? && Reaches(maker, limit, best.value) {
      ConsumeRest(levels[best.value], left);
      DryRunBounds(levels - {best.value}, maker, limit, Consume(levels[best.value], left).left);
    }
  }

  lemma ApplyInv(caps: Caps, s: State, e: Event)
    requires Inv(s)
    ensures Inv(Apply(caps, s, e).0)
  {
    hide Inv, OnAdd, OnMatch, OnAggressiveTrade, OnDelete, OnSubtract, OnSet;
    match e.kind
    case Add => AddInv(caps, s, e);
    case AggressiveTrade => AggressiveInv(s, e);
    case Delete => CancelInv(s, e);
    case Subtract => CancelInv(s, e);
    case Set => CancelInv(s, e);
    case Match => MatchInv(s, e);
  }

  lemma CancelInv(s: State, e: Event)
    requires Inv(s)
    ensures Inv(OnDelete(s, e)) && Inv(OnSubtract(s, e)) && Inv(OnSet(s, e))
  {
    hide Inv, ChangeQty, SetRemaining, LiveQty, Remaining;
    LiveQtyPositive(s, e.id);
    ChangeQtyInv(s, e.id, -LiveQty(s, e.id));
    SetRemainingInv(s, e.id, 0);
    ChangeQtyInv(s, e.id, -Min(LiveQty(s, e.id), e.qty));
    SetRemainingInv(s, e.id, Max(Remaining(s, e.id) - e.qty, 0));
    ChangeQtyInv(s, e.id, Max(e.qty, 0) - LiveQty(s, e.id));
    SetRemainingInv(s, e.id, Max(e.qty, 0));
  }

  lemma MatchInv(s: State, e: Event)
    requires Inv(s)
    ensures Inv(OnMatch(s, e).0)
  {
    if e.qty > 0 && e.id in s.info {
      var loc := s.info[e.id];
      var take := Min(LiveQty(s, e.id), e.qty);
      var queue := QueueAt(s.hist, loc.side, loc.price);
      ShadowAtInv(s, loc.side, loc.price, queue, take, e);
      LiveQtyPositive(s, e.id);
      ChangeQtyInv(ShadowAt(s, loc.side, loc.price, queue, take, e).0, e.id, -take);
    }
  }

  /** Every update keeps the whole-state invariant. */
  lemma StepInv(caps: Caps, s: State, e: Event)
    requires Inv(s)
    ensures Inv(Step(caps, s, e).0)
  {
    ApplyInv(caps, s, e);
    CountInv(Apply(caps, s, e).0);
  }

  /** In every state an event sequence reaches, the indices agree and the book is not crossed. */
  lemma {:induction false} RunInv(caps: Caps, s: State, events: seq<Event>)
    requires Inv(s)
    ensures Inv(Run(caps, s, events).0)
    decreases |events|
  {
    if events != [] {
      RunInv(caps, s, events[..|events| - 1]);
      StepInv(caps, Run(caps, s, events[..|events| - 1]).0, events[|events| - 1]);
    }
  }

  lemma EmptyInv()
    ensures Inv(EMPTY)
  {
  }
}
