/**
 * Strategy orders do not disturb the historical book: a run with strategy events inserted and the
 * run without them show the same book, order by order.
 */
module NonInterference {
  import opened Types
  import opened PriceHeap
  import opened Level
  import opened Book
  import opened BookInv
  import opened Effects

  /** What the book shows of a queue: everything but the arrival stamps, which strategy orders share. */
  datatype Face = Face(id: int, qty: int, source: Source)

  function Faces(queue: seq<Order>): (f: seq<Face>)
    ensures |f| == |queue|
    ensures forall i :: 0 <= i < |f| ==> f[i] == Face(queue[i].id, queue[i].qty, queue[i].source)
  {
    seq(|queue|, i requires 0 <= i < |queue| => Face(queue[i].id, queue[i].qty, queue[i].source))
  }

  function View(levels: map<int, seq<Order>>): map<int, seq<Face>> {
    map p | p in levels :: Faces(levels[p])
  }

  /** An id is indexed in both states, for the order at the same position of the same queue, or in neither. */
  ghost predicate Aligned(s: State, t: State, id: int) {
    && (id in s.info <==> id in t.info)
    && (id in s.info ==>
          var a, b := s.info[id], t.info[id];
          && a.side == b.side && a.price == b.price
          && IndexOf(QueueAt(s.hist, a.side, a.price), a.arrival)
             == IndexOf(QueueAt(t.hist, a.side, a.price), b.arrival))
  }

  /** Two states show the same historical book, indexed alike, and have the same room for more orders. */
  ghost predicate Alike(s: State, t: State) {
    && View(s.hist.sell) == View(t.hist.sell)
    && View(s.hist.buy) == View(t.hist.buy)
    && |s.nodes| == |t.nodes|
    && forall id :: Aligned(s, t, id)
  }

  ghost predicate NoPaper(t: State) {
    t.paper == Sides(map[], map[]) && t.paperInfo == map[]
  }

  // ---- node counts --------------------------------------------------------------------------

  lemma {:induction false} StampCount(queue: seq<Order>)
    requires QueueOk(queue)
    ensures |Stamps(queue)| == |queue|
  {
    if queue != [] {
      QueueOkTail(queue);
      StampCount(queue[1..]);
      assert queue == [queue[0]] + queue[1..];
      assert Stamps(queue) == Stamps(queue[1..]) + {queue[0].arrival};
      assert queue[0].arrival !in Stamps(queue[1..]);
    }
  }

  /** Thinning a queue frees exactly as many nodes as orders leave. */
  lemma NodesFreed(s: State, side: Side, price: int, queue': seq<Order>)
    requires HistInv(s) && Thinned(queue', QueueAt(s.hist, side, price))
    requires price in s.hist.At(side)
    ensures |Requeue(s, side, price, queue').nodes| == |s.nodes| - (|QueueAt(s.hist, side, price)| - |queue'|)
  {
    var queue := QueueAt(s.hist, side, price);
    assert LevelInv(s, side, price);
    var gone := GoneStamps(queue, queue');
    forall x | x in Stamps(queue') ensures x in Stamps(queue) {
      var i :| 0 <= i < |queue'| && queue'[i].arrival == x;
      assert Keeps(queue, queue'[i]);
    }
    assert gone == Stamps(queue) - Stamps(queue');
    StampCount(queue);
    StampCount(queue');
    forall x | x in gone ensures x in s.nodes {
      var i :| 0 <= i < |queue| && queue[i].arrival == x;
      assert OrderOk(s, side, price, queue[i]);
    }
    assert (s.nodes - gone).Keys == s.nodes.Keys - gone;
  }

  // ---- one queue ----------------------------------------------------------------------------

  lemma FacesTail(a: seq<Order>, b: seq<Order>)
    requires Faces(a) == Faces(b) && a != []
    ensures b != [] && Faces(a[1..]) == Faces(b[1..])
    ensures a[0].id == b[0].id && a[0].qty == b[0].qty && a[0].source == b[0].source
  {
    assert Faces(a)[0] == Faces(b)[0];
    forall i | 0 <= i < |a[1..]| ensures Faces(a[1..])[i] == Faces(b[1..])[i] {
      assert Faces(a)[i + 1] == Faces(b)[i + 1];
    }
  }

  lemma {:induction false} ConsumeFaces(a: seq<Order>, b: seq<Order>, left: int)
    requires Faces(a) == Faces(b)
    ensures Faces(Consume(a, left).rest) == Faces(Consume(b, left).rest)
    ensures Consume(a, left).left == Consume(b, left).left
  {
    if left > 0 && a != [] {
      FacesTail(a, b);
      if left >= a[0].qty {
        ConsumeFaces(a[1..], b[1..], left - a[0].qty);
      } else {
        var ra := Consume(a, left).rest;
        var rb := Consume(b, left).rest;
        assert forall i :: 1 <= i < |ra| ==> Faces(ra)[i] == Faces(a[1..])[i - 1];
        assert forall i :: 1 <= i < |rb| ==> Faces(rb)[i] == Faces(b[1..])[i - 1];
      }
    }
  }

  lemma ChangedFaces(a: seq<Order>, b: seq<Order>, i: nat, delta: int)
    requires Faces(a) == Faces(b) && i < |a|
    ensures Faces(Changed(a, i, delta)) == Faces(Changed(b, i, delta))
  {
    assert Faces(a)[i] == Faces(b)[i];
    var ra := Changed(a, i, delta);
    var rb := Changed(b, i, delta);
    forall k | 0 <= k < |ra| ensures Faces(ra)[k] == Faces(rb)[k] {
      var j := if a[i].qty + delta == 0 && k >= i then k + 1 else k;
      assert Faces(a)[j] == Faces(b)[j];
    }
  }

  // ---- two queues that change alike ----------------------------------------------------------

  /** From `a` to `a'` and from `b` to `b'` the orders at equal positions end up at equal positions. */
  ghost predicate Parallel(a: seq<Order>, a': seq<Order>, b: seq<Order>, b': seq<Order>) {
    && |a| == |b| && |a'| == |b'|
    && forall i :: 0 <= i < |a| ==> IndexOf(a', a[i].arrival) == IndexOf(b', b[i].arrival)
  }

  lemma {:induction false} StampPosition(queue: seq<Order>, i: nat)
    requires QueueOk(queue) && i < |queue|
    ensures IndexOf(queue, queue[i].arrival) == i
  {
    OneStamp(queue, IndexOf(queue, queue[i].arrival), i);
  }

  lemma {:induction false} NoPosition(queue: seq<Order>, stamp: nat)
    requires forall k :: 0 <= k < |queue| ==> queue[k].arrival != stamp
    ensures IndexOf(queue, stamp) == |queue|
  {
  }

  lemma RestStamps(queue: seq<Order>, rest: seq<Order>, k: nat)
    requires RestOf(rest, queue) && k < |rest|
    ensures rest[k].arrival == queue[|queue| - |rest| + k].arrival
  {
    if k > 0 {
      assert rest[k] == rest[1..][k - 1] == queue[|queue| - |rest| + 1..][k - 1];
    }
  }

  lemma RestAllStamps(queue: seq<Order>, rest: seq<Order>)
    requires QueueOk(queue) && RestOf(rest, queue)
    ensures |rest| <= |queue| && QueueOk(rest)
    ensures forall k :: 0 <= k < |rest| ==> rest[k].arrival == queue[|queue| - |rest| + k].arrival
  {
    RestOfOk(rest, queue);
    forall k | 0 <= k < |rest| ensures rest[k].arrival == queue[|queue| - |rest| + k].arrival {
      RestStamps(queue, rest, k);
    }
  }

  /** Where an order of a queue stands after some of its front has been taken. */
  lemma {:induction false} RestPosition(queue: seq<Order>, rest: seq<Order>, i: nat)
    requires QueueOk(queue) && RestOf(rest, queue) && i < |queue|
    ensures var gone := |queue| - |rest|;
            IndexOf(rest, queue[i].arrival) == if i < gone then |rest| else i - gone
  {
    hide RestOf, IndexOf;
    RestAllStamps(queue, rest);
    var gone := |queue| - |rest|;
    if i < gone {
      NoPosition(rest, queue[i].arrival);
    } else {
      assert rest[i - gone].arrival == queue[i].arrival;
      StampPosition(rest, i - gone);
    }
  }

  /** Where an order of a queue stands after one order has changed. */
  lemma ChangedPosition(queue: seq<Order>, i: nat, delta: int, j: nat)
    requires QueueOk(queue) && i < |queue| && j < |queue| && queue[i].qty + delta >= 0
    ensures var queue' := Changed(queue, i, delta);
            IndexOf(queue', queue[j].arrival)
            == if queue[i].qty + delta > 0 || j < i then j else if j == i then |queue'| else j - 1
  {
    var queue' := Changed(queue, i, delta);
    ChangedIsThinned(queue, i, delta);
    if queue[i].qty + delta == 0 && j == i {
      NoPosition(queue', queue[j].arrival);
    } else {
      var k := if queue[i].qty + delta == 0 && j > i then j - 1 else j;
      assert queue'[k].arrival == queue[j].arrival;
      StampPosition(queue', k);
    }
  }

  lemma FacesIds(a: seq<Order>, b: seq<Order>, i: nat)
    requires Faces(a) == Faces(b) && i < |a|
    ensures |a| == |b| && a[i].id == b[i].id && a[i].qty == b[i].qty
  {
    assert |a| == |Faces(a)| == |Faces(b)| == |b|;
    assert Faces(a)[i] == Faces(b)[i];
  }

  lemma {:induction false} ConsumeParallel(a: seq<Order>, b: seq<Order>, left: int)
    requires Faces(a) == Faces(b) && QueueOk(a) && QueueOk(b) && left >= 0
    ensures Parallel(a, Consume(a, left).rest, b, Consume(b, left).rest)
  {
    var ra, rb := Consume(a, left).rest, Consume(b, left).rest;
    ConsumeFaces(a, b, left);
    ConsumeRest(a, left);
    ConsumeRest(b, left);
    assert |ra| == |Faces(ra)| == |Faces(rb)| == |rb|;
    hide Consume;
    forall i | 0 <= i < |a| ensures IndexOf(ra, a[i].arrival) == IndexOf(rb, b[i].arrival) {
      FacesIds(a, b, i);
      RestPosition(a, ra, i);
      RestPosition(b, rb, i);
    }
  }

  lemma ChangedParallel(a: seq<Order>, b: seq<Order>, i: nat, delta: int)
    requires Faces(a) == Faces(b) && QueueOk(a) && QueueOk(b) && i < |a| && a[i].qty + delta >= 0
    ensures Parallel(a, Changed(a, i, delta), b, Changed(b, i, delta))
  {
    var a', b' := Changed(a, i, delta), Changed(b, i, delta);
    ChangedFaces(a, b, i, delta);
    FacesIds(a, b, i);
    assert |a'| == |Faces(a')| == |Faces(b')| == |b'|;
    hide Changed;
    forall j | 0 <= j < |a| ensures IndexOf(a', a[j].arrival) == IndexOf(b', b[j].arrival) {
      FacesIds(a, b, j);
      ChangedPosition(a, i, delta, j);
      ChangedPosition(b, i, delta, j);
    }
  }

  lemma {:induction false} InStamps(queue: seq<Order>, stamp: nat)
    ensures stamp in Stamps(queue) <==> IndexOf(queue, stamp) < |queue|
  {
    if stamp in Stamps(queue) {
      var o :| o in queue && o.arrival == stamp;
      var k :| 0 <= k < |queue| && queue[k] == o;
    }
  }

  /** Queues that change alike lose the same ids. */
  lemma SameGoneIds(a: seq<Order>, a': seq<Order>, b: seq<Order>, b': seq<Order>, id: int)
    requires Faces(a) == Faces(b) && Parallel(a, a', b, b') && id in GoneIds(a, a')
    ensures id in GoneIds(b, b')
  {
    var o :| o in a && o.arrival !in Stamps(a') && o.id == id;
    var i :| 0 <= i < |a| && a[i] == o;
    FacesIds(a, b, i);
    InStamps(a', a[i].arrival);
    InStamps(b', b[i].arrival);
    assert b[i] in b;
  }

  // ---- one historical update ----------------------------------------------------------------

  lemma AlikeQueues(s: State, t: State, side: Side, price: int)
    requires Alike(s, t)
    ensures s.hist.At(side).Keys == t.hist.At(side).Keys
    ensures Faces(QueueAt(s.hist, side, price)) == Faces(QueueAt(t.hist, side, price))
  {
    var a := s.hist.At(side);
    var b := t.hist.At(side);
    assert View(a).Keys == a.Keys && View(b).Keys == b.Keys;
    if price in a {
      assert View(a)[price] == View(b)[price];
    }
  }

  lemma ViewPut(levels: map<int, seq<Order>>, price: int, queue: seq<Order>)
    ensures View(levels[price := queue]) == View(levels)[price := Faces(queue)]
    ensures View(levels - {price}) == View(levels) - {price}
  {
  }

  lemma RequeueAlike(s: State, t: State, side: Side, price: int, qs: seq<Order>, qt: seq<Order>)
    requires Alike(s, t) && Inv(s) && Inv(t) && price in s.hist.At(side)
    requires Thinned(qs, QueueAt(s.hist, side, price)) && Thinned(qt, QueueAt(t.hist, side, price))
    requires Faces(qs) == Faces(qt)
    requires Parallel(QueueAt(s.hist, side, price), qs, QueueAt(t.hist, side, price), qt)
    ensures Alike(Requeue(s, side, price, qs), Requeue(t, side, price, qt))
  {
    AlikeQueues(s, t, side, price);
    NodesFreed(s, side, price, qs);
    NodesFreed(t, side, price, qt);
    ViewPut(s.hist.At(side), price, qs);
    ViewPut(t.hist.At(side), price, qt);
    forall id ensures Aligned(Requeue(s, side, price, qs), Requeue(t, side, price, qt), id) {
      RequeueAligned(s, t, side, price, qs, qt, id);
    }
    hide Aligned;
  }

  lemma RequeueAligned(s: State, t: State, side: Side, price: int, qs: seq<Order>, qt: seq<Order>, id: int)
    requires Aligned(s, t, id) && Inv(s) && Inv(t)
    requires Faces(QueueAt(s.hist, side, price)) == Faces(QueueAt(t.hist, side, price))
    requires Parallel(QueueAt(s.hist, side, price), qs, QueueAt(t.hist, side, price), qt)
    ensures Aligned(Requeue(s, side, price, qs), Requeue(t, side, price, qt), id)
  {
    var a, b := QueueAt(s.hist, side, price), QueueAt(t.hist, side, price);
    if id in GoneIds(a, qs) {
      SameGoneIds(a, qs, b, qt, id);
    } else if id in GoneIds(b, qt) {
      ParallelBack(a, qs, b, qt);
      SameGoneIds(b, qt, a, qs, id);
    } else if id in s.info {
      var l, r := s.info[id], t.info[id];
      assert InfoInv(s, id) && InfoInv(t, id);
      RequeuedQueue(s, side, price, qs, l.side, l.price);
      RequeuedQueue(t, side, price, qt, l.side, l.price);
      if l.side == side && l.price == price {
        var i := IndexOf(a, l.arrival);
        assert a[i].arrival == l.arrival && b[i].arrival == r.arrival;
      }
    }
  }

  lemma ParallelBack(a: seq<Order>, a': seq<Order>, b: seq<Order>, b': seq<Order>)
    requires Parallel(a, a', b, b')
    ensures Parallel(b, b', a, a')
  {
  }

  lemma RequeuedQueue(s: State, side: Side, price: int, queue': seq<Order>, d: Side, q: int)
    ensures QueueAt(Requeue(s, side, price, queue').hist, d, q)
         == if d == side && q == price then queue' else QueueAt(s.hist, d, q)
  {
  }

  /** `Alike` looks at the historical book only. */
  lemma AlikeBooks(a: State, b: State, a': State, b': State)
    requires Alike(a, b)
    requires a'.hist == a.hist && a'.nodes == a.nodes && a'.info == a.info
    requires b'.hist == b.hist && b'.nodes == b.nodes && b'.info == b.info
    ensures Alike(a', b')
  {
    forall id ensures Aligned(a', b', id) {
      assert Aligned(a, b, id);
    }
  }

  lemma {:induction false} ConsumeAlike(s: State, t: State, maker: Side, px: int, left: int)
    requires Alike(s, t) && Inv(s) && Inv(t) && left > 0 && px in s.hist.At(maker)
    ensures var a := Consume(QueueAt(s.hist, maker, px), left);
            var b := Consume(QueueAt(t.hist, maker, px), left);
            && Alike(Requeue(s, maker, px, a.rest), Requeue(t, maker, px, b.rest))
            && a.left == b.left && (a.rest == [] <==> b.rest == [])
  {
    AlikeQueues(s, t, maker, px);
    var qs := QueueAt(s.hist, maker, px);
    var qt := QueueAt(t.hist, maker, px);
    assert LevelInv(s, maker, px) && LevelInv(t, maker, px);
    ConsumeFaces(qs, qt, left);
    ConsumeRest(qs, left);
    ConsumeRest(qt, left);
    RestIsThinned(Consume(qs, left).rest, qs);
    RestIsThinned(Consume(qt, left).rest, qt);
    ConsumeParallel(qs, qt, left);
    RequeueAlike(s, t, maker, px, Consume(qs, left).rest, Consume(qt, left).rest);
  }

  lemma TradeLevelAlike(s: State, t: State, e: Event, px: int, left: int)
    requires Alike(s, t) && Inv(s) && Inv(t) && left > 0 && px in s.hist.At(e.side.Opposite())
    ensures var a := TradeLevel(s, e, px, left);
            var b := TradeLevel(t, e, px, left);
            && Alike(a.state, b.state) && a.left == b.left && a.done == b.done
  {
    var maker := e.side.Opposite();
    ConsumeAlike(s, t, maker, px, left);
    var a := Consume(QueueAt(s.hist, maker, px), left);
    var b := Consume(QueueAt(t.hist, maker, px), left);
    TradeLevelBook(s, e, px, left);
    TradeLevelBook(t, e, px, left);
    AlikeBooks(Requeue(s, maker, px, a.rest), Requeue(t, maker, px, b.rest),
               TradeLevel(s, e, px, left).state, TradeLevel(t, e, px, left).state);
  }

  /** Shadow fills do not touch the book. */
  lemma {:induction false} TradeLevelBook(s: State, e: Event, px: int, left: int)
    ensures var maker := e.side.Opposite();
            var c := Consume(QueueAt(s.hist, maker, px), left);
            var t := TradeLevel(s, e, px, left);
            && t.state.hist == Requeue(s, maker, px, c.rest).hist
            && t.state.nodes == Requeue(s, maker, px, c.rest).nodes
            && t.state.info == Requeue(s, maker, px, c.rest).info
            && t.left == c.left && t.done == (c.rest != [])
  {
  }

  lemma BestAlike(s: State, t: State, maker: Side)
    requires Alike(s, t)
    ensures BestPrice(s.hist.At(maker), maker) == BestPrice(t.hist.At(maker), maker)
  {
    AlikeQueues(s, t, maker, 0);
  }

  lemma {:induction false} MatchAlike(s: State, t: State, e: Event, left: int)
    requires Alike(s, t) && Inv(s) && Inv(t) && left >= 0
    ensures var a := MatchHistorical(s, e, left);
            var b := MatchHistorical(t, e, left);
            Alike(a.state, b.state) && a.left == b.left
    decreases |s.hist.At(e.side.Opposite())|
  {
    hide Inv, Alike, TradeLevel;
    var maker := e.side.Opposite();
    BestAlike(s, t, maker);
    var best := BestPrice(s.hist.At(maker), maker);
    if left > 0 && best.Some? && Crosses(maker, e.price, best.value) {
      TradeLevelAlike(s, t, e, best.value, left);
      TradeLevelInv(s, e, best.value, left);
      TradeLevelInv(t, e, best.value, left);
      var a := TradeLevel(s, e, best.value, left);
      if !a.done {
        TradeLevelShrinks(s, e, best.value, left);
        MatchAlike(a.state, TradeLevel(t, e, best.value, left).state, e, a.left);
      }
    }
  }

  /** Ids are indexed alike, at the same place and queue position. */
  lemma SameIndex(s: State, t: State, id: int)
    requires Alike(s, t) && HistInv(s) && HistInv(t) && id in s.info
    ensures id in t.info && t.info[id].side == s.info[id].side && t.info[id].price == s.info[id].price
    ensures var qs := QueueAt(s.hist, s.info[id].side, s.info[id].price);
            var qt := QueueAt(t.hist, s.info[id].side, s.info[id].price);
            IndexOf(qs, s.info[id].arrival) == IndexOf(qt, t.info[id].arrival) < |qs|
  {
    assert Aligned(s, t, id) && InfoInv(s, id);
  }

  lemma ChangeAlike(s: State, t: State, id: int, delta: int)
    requires Alike(s, t) && Inv(s) && Inv(t) && LiveQty(s, id) + delta >= 0
    ensures Alike(ChangeQty(s, id, delta), ChangeQty(t, id, delta))
    ensures LiveQty(t, id) == LiveQty(s, id)
  {
    if id in s.info {
      SameIndex(s, t, id);
      var loc := s.info[id];
      var qs := QueueAt(s.hist, loc.side, loc.price);
      var qt := QueueAt(t.hist, loc.side, loc.price);
      var i := IndexOf(qs, loc.arrival);
      AlikeQueues(s, t, loc.side, loc.price);
      assert Faces(qs)[i] == Faces(qt)[i];
      assert LevelInv(s, loc.side, loc.price) && LevelInv(t, loc.side, loc.price);
      ChangedFaces(qs, qt, i, delta);
      ChangedIsThinned(qs, i, delta);
      ChangedIsThinned(qt, i, delta);
      ChangedParallel(qs, qt, i, delta);
      RequeueAlike(s, t, loc.side, loc.price, Changed(qs, i, delta), Changed(qt, i, delta));
    } else if id in t.info {
      SameIndexBack(s, t, id);
    }
  }

  lemma SameIndexBack(s: State, t: State, id: int)
    requires Alike(s, t) && HistInv(s) && HistInv(t) && id in t.info
    ensures id in s.info
  {
    assert Aligned(s, t, id);
  }

  lemma FacesAppend(a: seq<Order>, b: seq<Order>, o: Order, stamp: nat)
    requires Faces(a) == Faces(b)
    ensures Faces(a + [o]) == Faces(b + [o.(arrival := stamp)])
  {
    assert |a| == |Faces(a)| == |Faces(b)| == |b|;
    forall i | 0 <= i < |a| ensures Faces(a + [o])[i] == Faces(b + [o.(arrival := stamp)])[i] {
      assert Faces(a)[i] == Faces(b)[i];
    }
  }

  lemma RestAlike(caps: Caps, s: State, t: State, e: Event, qty: int)
    requires Alike(s, t) && HistInv(s) && HistInv(t)
    ensures Alike(RestHistorical(caps, s, e, qty), RestHistorical(caps, t, e, qty))
  {
    hide Aligned, HistInv;
    AlikeQueues(s, t, e.side, e.price);
    if s.clock in s.nodes {
      StampBelowClock(s, s.clock);
    }
    if t.clock in t.nodes {
      StampBelowClock(t, t.clock);
    }
    if |s.nodes| < caps.historical {
      var qs := QueueAt(s.hist, e.side, e.price) + [Order(e.id, qty, e.source, s.clock)];
      var qt := QueueAt(t.hist, e.side, e.price) + [Order(e.id, qty, e.source, t.clock)];
      ViewPut(s.hist.At(e.side), e.price, qs);
      ViewPut(t.hist.At(e.side), e.price, qt);
      FacesAppend(QueueAt(s.hist, e.side, e.price), QueueAt(t.hist, e.side, e.price),
                  Order(e.id, qty, e.source, s.clock), t.clock);
      forall id ensures Aligned(RestHistorical(caps, s, e, qty), RestHistorical(caps, t, e, qty), id) {
        RestAligned(caps, s, t, e, qty, id);
      }
    }
  }

  lemma RestAligned(caps: Caps, s: State, t: State, e: Event, qty: int, id: int)
    requires Alike(s, t) && HistInv(s) && HistInv(t) && |s.nodes| < caps.historical
    ensures Aligned(RestHistorical(caps, s, e, qty), RestHistorical(caps, t, e, qty), id)
  {
    assert Aligned(s, t, id) && |t.nodes| < caps.historical;
    AlikeQueues(s, t, e.side, e.price);
    var qs, qt := QueueAt(s.hist, e.side, e.price), QueueAt(t.hist, e.side, e.price);
    assert |qs| == |Faces(qs)| == |Faces(qt)| == |qt|;
    hide Alike, View, Faces;
    RestPositions(caps, s, e, qty, id);
    RestPositions(caps, t, e, qty, id);
    hide RestHistorical;
  }

  /** Where an id stands after an order has come to rest. */
  lemma RestPositions(caps: Caps, s: State, e: Event, qty: int, id: int)
    requires HistInv(s) && |s.nodes| < caps.historical
    ensures var s' := RestHistorical(caps, s, e, qty);
            && (id in s'.info <==> id == e.id || id in s.info)
            && (id == e.id ==>
                  && s'.info[id].side == e.side && s'.info[id].price == e.price
                  && IndexOf(QueueAt(s'.hist, e.side, e.price), s'.info[id].arrival)
                     == |QueueAt(s.hist, e.side, e.price)|)
            && (id != e.id && id in s.info ==>
                  var l := s.info[id];
                  s'.info[id] == l && IndexOf(QueueAt(s'.hist, l.side, l.price), l.arrival)
                    == IndexOf(QueueAt(s.hist, l.side, l.price), l.arrival))
  {
    var queue := QueueAt(s.hist, e.side, e.price);
    var o := Order(e.id, qty, e.source, s.clock);
    RestClock(s, e.side, e.price);
    AppendPosition(queue, o, s.clock);
    if id in s.info {
      assert InfoInv(s, id);
      AppendPosition(queue, o, s.info[id].arrival);
    }
  }

  /** No queued order carries the next stamp. */
  lemma RestClock(s: State, side: Side, price: int)
    requires HistInv(s)
    ensures IndexOf(QueueAt(s.hist, side, price), s.clock) == |QueueAt(s.hist, side, price)|
  {
    var queue := QueueAt(s.hist, side, price);
    assert LevelInv(s, side, price);
    forall k | 0 <= k < |queue| ensures queue[k].arrival != s.clock {
      assert OrderOk(s, side, price, queue[k]);
    }
    NoPosition(queue, s.clock);
  }

  /** A stamp that is found stays where it is when an order joins behind. */
  lemma {:induction false} AppendPosition(queue: seq<Order>, o: Order, stamp: nat)
    ensures IndexOf(queue, stamp) < |queue| ==> IndexOf(queue + [o], stamp) == IndexOf(queue, stamp)
    ensures IndexOf(queue, stamp) == |queue| && o.arrival == stamp ==> IndexOf(queue + [o], stamp) == |queue|
  {
    var k := IndexOf(queue + [o], stamp);
    assert forall i :: 0 <= i < |queue| ==> (queue + [o])[i] == queue[i];
    assert (queue + [o])[|queue|] == o;
  }

  /** Two different quantities that come to rest, or one and nothing, show. */
  lemma RestShows(caps: Caps, s: State, t: State, e: Event, x: int, y: int)
    requires Alike(s, t) && x != y && y > 0 && |s.nodes| < caps.historical
    requires s.clock !in s.nodes && t.clock !in t.nodes
    ensures !Alike(if x > 0 then RestHistorical(caps, s, e, x) else s, RestHistorical(caps, t, e, y))
  {
    var a := if x > 0 then RestHistorical(caps, s, e, x) else s;
    var b := RestHistorical(caps, t, e, y);
    if x <= 0 {
      assert |b.nodes| == |t.nodes| + 1;
    } else if Alike(a, b) {
      AlikeQueues(s, t, e.side, e.price);
      AlikeQueues(a, b, e.side, e.price);
      var qa, qb := QueueAt(a.hist, e.side, e.price), QueueAt(b.hist, e.side, e.price);
      assert qa == QueueAt(s.hist, e.side, e.price) + [Order(e.id, x, e.source, s.clock)];
      assert qb == QueueAt(t.hist, e.side, e.price) + [Order(e.id, y, e.source, t.clock)];
      hide Alike, RestHistorical;
      FacesIds(qa, qb, |qa| - 1);
      assert false;
    }
  }

  /**
   * What a caller can see before a historical ADD: its matching leaves nothing, or the limit
   * reaches no opposite strategy order, so the direct sweep finds nobody to trade with.
   */
  ghost predicate NothingToSweep(s: State, e: Event) {
    var m := MatchHistorical(s, e, e.qty);
    m.left <= 0 || NoPaperCrosses(m.state, e)
  }

  /** A sweep takes nothing exactly when nothing is left or nothing crosses. */
  lemma {:induction false} SweepTakesNothing(s: State, e: Event, left: int)
    requires Inv(s) && left >= 0
    ensures var r := SweepPapers(s, e, Some(e.price), left);
            && (r.left == left <==> left == 0 || NoPaperCrosses(s, e))
            && (r.left == left ==> r == Outcome(s, [], left))
  {
    var maker := e.side.Opposite();
    var levels := s.paper.At(maker);
    var best := BestPrice(levels, maker);
    if left > 0 && best.Some? && Crosses(maker, e.price, best.value) {
      var t := SweepLevel(s, e, best.value, left);
      SweepLevelInv(s, e, best.value, left);
      if !t.done {
        SweepPapersInv(t.state, e, Some(e.price), t.left);
      }
    } else if left > 0 {
      BestBounds(levels, maker, e.price);
    }
  }

  /** The historical ADD is refused, sweeps nobody, or meets a full pool and so leaves no trace of what it swept. */
  ghost predicate Harmless(caps: Caps, s: State, e: Event) {
    e.qty < 0 || e.id in s.info || NothingToSweep(s, e) || |MatchHistorical(s, e, e.qty).state.nodes| >= caps.historical
  }

  /**
   * A historical ADD whose id no strategy order has does the same to a book with strategy orders
   * and to one without if and only if it is harmless.
   */
  lemma AddAlike(caps: Caps, s: State, t: State, e: Event)
    requires Alike(s, t) && Inv(s) && Inv(t) && NoPaper(t)
    requires e.kind == Add && e.source != Strategy && e.id !in s.paperInfo
    ensures Alike(OnAdd(caps, s, e).0, OnAdd(caps, t, e).0) <==> Harmless(caps, s, e)
  {
    assert Aligned(s, t, e.id);
    if e.qty >= 0 && e.id !in s.info {
      hide Inv, Alike, MatchHistorical, SweepPapers, RestHistorical;
      AddAccepted(caps, s, t, e);
    }
  }

  lemma {:induction false} AddAccepted(caps: Caps, s: State, t: State, e: Event)
    requires Alike(s, t) && Inv(s) && Inv(t) && NoPaper(t) && e.qty >= 0
    requires e.kind == Add && e.source != Strategy && e.id !in s.info && e.id !in t.info && e.id !in s.paperInfo
    ensures Alike(OnAdd(caps, s, e).0, OnAdd(caps, t, e).0)
       <==> NothingToSweep(s, e) || |MatchHistorical(s, e, e.qty).state.nodes| >= caps.historical
  {
    hide Inv, Alike, Aligned, MatchHistorical, SweepPapers, RestHistorical, NoPaperCrosses;
    var a := MatchHistorical(s, e, e.qty);
    var b := MatchHistorical(t, e, e.qty);
    MatchAlike(s, t, e, e.qty);
    MatchHistoricalInv(s, e, e.qty);
    MatchHistoricalInv(t, e, e.qty);
    MatchKeepsNoPaper(t, e, e.qty);
    var p := SweepPapers(a.state, e, Some(e.price), a.left);
    SweepPapersInv(a.state, e, Some(e.price), a.left);
    SweepTakesNothing(a.state, e, a.left);
    EmptySweep(b.state, e, b.left);
    AfterSweepAlike(caps, a.state, p.state, b.state, e, p.left, b.left);
  }

  lemma {:induction false} EmptySweep(t: State, e: Event, left: int)
    requires NoPaper(t)
    ensures SweepPapers(t, e, Some(e.price), left) == Outcome(t, [], left)
  {
  }

  /** After matching alike: the two remainders rest alike exactly when they are equal or find no room. */
  lemma AfterSweepAlike(caps: Caps, a: State, p: State, b: State, e: Event, x: int, y: int)
    requires Alike(a, b) && Inv(a) && Inv(p) && Inv(b) && SameBook(a, p) && 0 <= x <= y
    ensures Alike(if x > 0 then RestHistorical(caps, p, e, x) else p,
                  if y > 0 then RestHistorical(caps, b, e, y) else b)
       <==> x == y || |a.nodes| >= caps.historical
  {
    AlikeBooks(a, b, p, b);
    FreshStamp(p);
    FreshStamp(b);
    if x == y {
      if x > 0 {
        RestAlike(caps, p, b, e, x);
      }
    } else if |a.nodes| < caps.historical {
      RestShows(caps, p, b, e, x, y);
    }
  }

  lemma {:induction false} MatchKeepsNoPaper(t: State, e: Event, left: int)
    requires NoPaper(t)
    ensures NoPaper(MatchHistorical(t, e, left).state)
    decreases |t.hist.At(e.side.Opposite())|
  {
    var maker := e.side.Opposite();
    var best := BestPrice(t.hist.At(maker), maker);
    if left > 0 && best.Some? && Crosses(maker, e.price, best.value) {
      var a := TradeLevel(t, e, best.value, left);
      if !a.done {
        MatchKeepsNoPaper(a.state, e, a.left);
      }
    }
  }

  /** A historical event does the same to both books; an ADD if and only if it is harmless. */
  lemma HistoricalAlike(caps: Caps, s: State, t: State, e: Event)
    requires Alike(s, t) && Inv(s) && Inv(t) && NoPaper(t)
    requires e.source != Strategy && (e.kind == Add ==> e.id !in s.paperInfo)
    ensures Alike(Step(caps, s, e).0, Step(caps, t, e).0) <==> (e.kind == Add ==> Harmless(caps, s, e))
  {
    match e.kind {
      case Add =>
        AddAlike(caps, s, t, e);
        StepAlike(caps, s, t, e);
      case AggressiveTrade =>
        StepAlike(caps, s, t, e);
      case Match =>
        PassiveAlike(s, t, e);
        StepAlike(caps, s, t, e);
      case _ =>
        CancelAlike(caps, s, t, e);
    }
  }

  lemma StepAlike(caps: Caps, s: State, t: State, e: Event)
    ensures Alike(Step(caps, s, e).0, Step(caps, t, e).0) <==> Alike(Apply(caps, s, e).0, Apply(caps, t, e).0)
  {
    var a, b, a', b' := Apply(caps, s, e).0, Apply(caps, t, e).0, Step(caps, s, e).0, Step(caps, t, e).0;
    hide Apply, Alike;
    if Alike(a, b) {
      AlikeBooks(a, b, a', b');
    }
    if Alike(a', b') {
      AlikeBooks(a', b', a, b);
    }
  }

  /** DELETE, SUBTRACT and SET of a historical order. */
  lemma CancelAlike(caps: Caps, s: State, t: State, e: Event)
    requires Alike(s, t) && Inv(s) && Inv(t) && e.source != Strategy
    requires e.kind == Delete || e.kind == Subtract || e.kind == Set
    ensures Alike(Step(caps, s, e).0, Step(caps, t, e).0)
  {
    hide *;
    var live := LiveQty(s, e.id);
    LiveQtyPositive(s, e.id);
    LiveQtyPositive(t, e.id);
    SameIds(s, t, e.id);
    CancelForm(caps, s, e);
    CancelForm(caps, t, e);
    LeavesSomething(e, live);
    if e.id in s.info && !(e.kind == Subtract && e.qty <= 0) {
      var delta := Leaves(e, live) - live;
      ChangeAlike(s, t, e.id, delta);
      AlikeBooks(ChangeQty(s, e.id, delta), ChangeQty(t, e.id, delta), Step(caps, s, e).0, Step(caps, t, e).0);
    } else {
      AlikeBooks(s, t, Step(caps, s, e).0, Step(caps, t, e).0);
    }
  }

  lemma PassiveAlike(s: State, t: State, e: Event)
    requires Alike(s, t) && Inv(s) && Inv(t)
    ensures Alike(OnMatch(s, e).0, OnMatch(t, e).0)
  {
    hide *;
    SameIds(s, t, e.id);
    LiveQtyPositive(s, e.id);
    if e.qty > 0 {
      MinAtMost(LiveQty(s, e.id), e.qty);
      ChangeAlike(s, t, e.id, -Min(LiveQty(s, e.id), e.qty));
    }
    PassiveChange(s, t, e);
  }

  lemma SameIds(s: State, t: State, id: int)
    requires Alike(s, t) && Inv(s) && Inv(t)
    ensures id in s.info <==> id in t.info
  {
    if id in s.info {
      SameIndex(s, t, id);
    } else if id in t.info {
      SameIndexBack(s, t, id);
    }
  }

  lemma MinAtMost(a: int, b: int)
    ensures Min(a, b) <= a && Min(a, b) <= b
  {
  }

  lemma PassiveChange(s: State, t: State, e: Event)
    requires Alike(s, t) && (e.id in s.info <==> e.id in t.info)
    requires var delta := -Min(LiveQty(s, e.id), e.qty);
             e.qty > 0 ==>
               LiveQty(t, e.id) == LiveQty(s, e.id)
               && Alike(ChangeQty(s, e.id, delta), ChangeQty(t, e.id, delta))
    ensures Alike(OnMatch(s, e).0, OnMatch(t, e).0)
  {
    if e.qty > 0 && e.id in s.info {
      var take := Min(LiveQty(s, e.id), e.qty);
      MatchIsChange(s, e, take);
      MatchIsChange(t, e, take);
      AlikeBooks(ChangeQty(s, e.id, -take), ChangeQty(t, e.id, -take), OnMatch(s, e).0, OnMatch(t, e).0);
    }
  }

  /** Shadow fills in between do not change what a quantity change does to the book. */
  lemma MatchIsChange(s: State, e: Event, take: int)
    requires e.qty > 0 && e.id in s.info && take == Min(LiveQty(s, e.id), e.qty)
    ensures OnMatch(s, e).0.hist == ChangeQty(s, e.id, -take).hist
    ensures OnMatch(s, e).0.nodes == ChangeQty(s, e.id, -take).nodes
    ensures OnMatch(s, e).0.info == ChangeQty(s, e.id, -take).info
  {
    hide LiveQty, LiveSource, IndexOf, Changed, ShadowAt;
    var loc := s.info[e.id];
    ShadowKeepsBook(s, loc.side, loc.price, QueueAt(s.hist, loc.side, loc.price), take, e);
  }

  lemma HistoricalKeepsNoPaper(caps: Caps, t: State, e: Event)
    requires NoPaper(t) && e.source != Strategy
    ensures NoPaper(Step(caps, t, e).0)
  {
    if e.kind == Add && e.qty >= 0 && e.id !in t.info {
      var m := MatchHistorical(t, e, e.qty);
      MatchKeepsNoPaper(t, e, e.qty);
      assert SweepPapers(m.state, e, Some(e.price), m.left) == Outcome(m.state, [], m.left);
    }
  }

  // ---- strategy updates ---------------------------------------------------------------------

  lemma {:induction false} SweepKeepsBook(s: State, e: Event, limit: Option<int>, left: int)
    ensures SameBook(s, SweepPapers(s, e, limit, left).state)
    decreases |s.paper.At(e.side.Opposite())|
  {
    var maker := e.side.Opposite();
    var best := BestPrice(s.paper.At(maker), maker);
    if left > 0 && best.Some? && Reaches(maker, limit, best.value) {
      var t := SweepLevel(s, e, best.value, left);
      if !t.done {
        SweepKeepsBook(t.state, e, limit, t.left);
      }
    }
  }

  lemma AggressiveKeepsBook(s: State, e: Event)
    ensures var s' := OnAggressiveTrade(s, e).0;
            s'.hist == s.hist && s'.nodes == s.nodes && s'.info == s.info
  {
    if e.source == Strategy && e.qty > 0 {
      var maker := e.side.Opposite();
      SweepKeepsBook(s, e, None, DryRun(s.hist.At(maker), maker, None, e.qty).1);
    }
  }

  /** Every strategy update except a MATCH leaves the historical book and its indices as they are. */
  lemma StrategyKeepsBook(caps: Caps, s: State, e: Event)
    requires e.source == Strategy && e.kind != Match
    ensures var s' := Step(caps, s, e).0;
            s'.hist == s.hist && s'.nodes == s.nodes && s'.info == s.info
  {
    match e.kind
    case AggressiveTrade => AggressiveKeepsBook(s, e);
    case Add =>
    case Delete => SetRemainingKeepsBook(s, e.id, 0);
    case Subtract => SetRemainingKeepsBook(s, e.id, Max(Remaining(s, e.id) - e.qty, 0));
    case Set => SetRemainingKeepsBook(s, e.id, Max(e.qty, 0));
  }

  // ---- whole runs ---------------------------------------------------------------------------

  function HistoricalOnly(events: seq<Event>): seq<Event> {
    if events == [] then []
    else
      var n := |events| - 1;
      HistoricalOnly(events[..n]) + if events[n].source == Strategy then [] else [events[n]]
  }

  /** Event `k` of the run is a strategy event that may be inserted, or a historical one without harm. */
  ghost predicate Inserted(caps: Caps, s: State, events: seq<Event>, k: nat)
    requires k < |events|
  {
    var e := events[k];
    var now := Run(caps, s, events[..k]).0;
    if e.source == Strategy then e.kind != Match
    else e.kind == Add ==> e.id !in now.paperInfo && Harmless(caps, now, e)
  }

  lemma InsertedStep(caps: Caps, a: State, b: State, e: Event)
    requires Inv(a) && Inv(b) && Alike(a, b) && NoPaper(b)
    requires if e.source == Strategy then e.kind != Match
             else e.kind == Add ==> e.id !in a.paperInfo && Harmless(caps, a, e)
    ensures var a' := Step(caps, a, e).0;
            var b' := if e.source == Strategy then b else Step(caps, b, e).0;
            Inv(a') && Inv(b') && Alike(a', b') && NoPaper(b')
  {
    hide *;
    StepInv(caps, a, e);
    if e.source == Strategy {
      StrategyKeepsBook(caps, a, e);
      AlikeBooks(a, b, Step(caps, a, e).0, b);
    } else {
      HistoricalAlike(caps, a, b, e);
      HistoricalKeepsNoPaper(caps, b, e);
      StepInv(caps, b, e);
    }
  }

  /** The last event of a run, and of its historical part. */
  lemma RunLast(caps: Caps, s: State, events: seq<Event>)
    requires events != []
    ensures var n := |events| - 1;
            var b := Run(caps, s, HistoricalOnly(events[..n])).0;
            && Run(caps, s, events).0 == Step(caps, Run(caps, s, events[..n]).0, events[n]).0
            && Run(caps, s, HistoricalOnly(events)).0
               == if events[n].source == Strategy then b else Step(caps, b, events[n]).0
  {
    hide Step;
    var n := |events| - 1;
    var h := HistoricalOnly(events);
    if events[n].source == Strategy {
      assert h == HistoricalOnly(events[..n]);
    } else {
      assert h[..|h| - 1] == HistoricalOnly(events[..n]);
    }
  }

  /**
   * Inserting strategy events other than MATCH into a run leaves the historical book as it is in
   * the historical-only run, as long as no historical ADD reuses the id of a resting strategy order
   * and each is harmless.
   */
  lemma {:induction false} InsertedRunsAlike(caps: Caps, s: State, events: seq<Event>)
    requires Inv(s) && NoPaper(s)
    requires forall k :: 0 <= k < |events| ==> Inserted(caps, s, events, k)
    ensures var a := Run(caps, s, events).0;
            var b := Run(caps, s, HistoricalOnly(events)).0;
            Inv(a) && Inv(b) && Alike(a, b) && NoPaper(b)
    decreases |events|
  {
    hide Inv, NoPaper, Step, Harmless;
    if events != [] {
      var n := |events| - 1;
      forall k | 0 <= k < n ensures Inserted(caps, s, events[..n], k) {
        assert Inserted(caps, s, events, k);
        assert events[..n][..k] == events[..k];
      }
      InsertedRunsAlike(caps, s, events[..n]);
      assert Inserted(caps, s, events, n);
      hide Alike, Run, HistoricalOnly;
      RunLast(caps, s, events);
      InsertedStep(caps, Run(caps, s, events[..n]).0, Run(caps, s, HistoricalOnly(events[..n])).0, events[n]);
    }
  }

  // ---- the exact condition for runs ---------------------------------------------------------

  /** Event `k` is no strategy MATCH, and no historical ADD under the id of a resting strategy order. */
  ghost predicate Insertable(caps: Caps, s: State, events: seq<Event>, k: nat)
    requires k < |events|
  {
    var e := events[k];
    if e.source == Strategy then e.kind != Match else e.kind == Add ==> e.id !in Run(caps, s, events[..k]).0.paperInfo
  }

  /** After `k` events the run and its historical part show the same book. */
  ghost predicate AlikeAt(caps: Caps, s: State, events: seq<Event>, k: nat)
    requires k <= |events|
  {
    Alike(Run(caps, s, events[..k]).0, Run(caps, s, HistoricalOnly(events[..k])).0)
  }

  /** Event `k`, if it is a historical ADD, is harmless in the state that it meets. */
  ghost predicate HarmlessAt(caps: Caps, s: State, events: seq<Event>, k: nat)
    requires k < |events|
  {
    events[k].source != Strategy && events[k].kind == Add ==> Harmless(caps, Run(caps, s, events[..k]).0, events[k])
  }

  lemma {:induction false} HistoricalRunNoPaper(caps: Caps, s: State, events: seq<Event>)
    requires NoPaper(s) && forall k :: 0 <= k < |events| ==> events[k].source != Strategy
    ensures NoPaper(Run(caps, s, events).0)
    decreases |events|
  {
    hide NoPaper, Step;
    if events != [] {
      HistoricalRunNoPaper(caps, s, events[..|events| - 1]);
      HistoricalKeepsNoPaper(caps, Run(caps, s, events[..|events| - 1]).0, events[|events| - 1]);
    }
  }

  lemma {:induction false} HistoricalOnlyIs(events: seq<Event>)
    ensures forall k :: 0 <= k < |HistoricalOnly(events)| ==> HistoricalOnly(events)[k].source != Strategy
    decreases |events|
  {
    if events != [] {
      HistoricalOnlyIs(events[..|events| - 1]);
    }
  }

  lemma PrefixAlike(caps: Caps, s: State, events: seq<Event>, k: nat)
    requires Inv(s) && NoPaper(s) && k <= |events|
    requires forall i :: 0 <= i < |events| ==> Insertable(caps, s, events, i) && HarmlessAt(caps, s, events, i)
    ensures AlikeAt(caps, s, events, k)
  {
    hide Inv, NoPaper, Alike, Harmless, Run, HistoricalOnly;
    forall i | 0 <= i < k ensures Inserted(caps, s, events[..k], i) {
      assert Insertable(caps, s, events, i) && HarmlessAt(caps, s, events, i);
      assert events[..k][..i] == events[..i];
    }
    InsertedRunsAlike(caps, s, events[..k]);
  }

  lemma MustBeHarmless(caps: Caps, s: State, events: seq<Event>, k: nat)
    requires Inv(s) && NoPaper(s) && k < |events| && Insertable(caps, s, events, k)
    requires AlikeAt(caps, s, events, k) && AlikeAt(caps, s, events, k + 1)
    ensures HarmlessAt(caps, s, events, k)
  {
    hide Inv, NoPaper, Alike, Harmless, Run, HistoricalOnly, Step;
    if events[k].source != Strategy {
      var a := Run(caps, s, events[..k]).0;
      var b := Run(caps, s, HistoricalOnly(events[..k])).0;
      RunInv(caps, s, events[..k]);
      RunInv(caps, s, HistoricalOnly(events[..k]));
      HistoricalOnlyIs(events[..k]);
      HistoricalRunNoPaper(caps, s, HistoricalOnly(events[..k]));
      RunLast(caps, s, events[..k + 1]);
      assert events[..k + 1][..k] == events[..k];
      HistoricalAlike(caps, a, b, events[k]);
    }
  }

  /**
   * The run and its historical part show the same book all along if and only if every historical
   * ADD is harmless.
   */
  lemma InsertedRunsExactly(caps: Caps, s: State, events: seq<Event>)
    requires Inv(s) && NoPaper(s) && forall k :: 0 <= k < |events| ==> Insertable(caps, s, events, k)
    ensures (forall k :: 0 <= k <= |events| ==> AlikeAt(caps, s, events, k))
       <==> (forall k :: 0 <= k < |events| ==> HarmlessAt(caps, s, events, k))
  {
    hide Inv, NoPaper, AlikeAt, HarmlessAt, Insertable;
    if forall k :: 0 <= k < |events| ==> HarmlessAt(caps, s, events, k) {
      forall k | 0 <= k <= |events| ensures AlikeAt(caps, s, events, k) {
        PrefixAlike(caps, s, events, k);
      }
    }
    if forall k :: 0 <= k <= |events| ==> AlikeAt(caps, s, events, k) {
      forall k | 0 <= k < |events| ensures HarmlessAt(caps, s, events, k) {
        MustBeHarmless(caps, s, events, k);
      }
    }
  }
}
