/**
 * What the events that name a resting order do, told by queues and reports alone: trades against it,
 * cancels and resizes, for orders of the feed and of the strategy.
 */
module PassiveEffects {
  import opened Types
  import opened Level
  import opened Book
  import opened BookInv
  import opened Phantom
  import EngineSteps
  import EngineMatch
  import Matching

  // ---- one place ----------------------------------------------------------------------------

  /** A queue in which the order at `i` has `qty` lots left, or is gone. */
  function WithQty(queue: seq<Order>, i: nat, qty: int): seq<Order>
    requires i < |queue|
  {
    if qty == 0 then queue[..i] + queue[i + 1..] else queue[i := queue[i].(qty := qty)]
  }

  /** The strategy orders of a level in which the order at `i` has `remaining` lots left, or is gone. */
  function WithRemaining(orders: seq<PaperOrder>, i: nat, remaining: int): seq<PaperOrder>
    requires i < |orders|
  {
    if remaining == 0 then orders[..i] + orders[i + 1..] else orders[i := orders[i].(remaining := remaining)]
  }

  /** One queue becomes `queue'`; every other queue, the stamps and the strategy orders stay. */
  ghost predicate OneQueue(s: State, s': State, side: Side, price: int, queue': seq<Order>) {
    && QueueAt(s'.hist, side, price) == queue'
    && forall d, q :: d != side || q != price ==> QueueAt(s'.hist, d, q) == QueueAt(s.hist, d, q)
  }

  /** The strategy orders of one level become `orders'`, its phantom lots stay; all other levels stay. */
  ghost predicate OnePapers(s: State, s': State, side: Side, price: int, orders': seq<PaperOrder>) {
    && PapersAt(s', side, price)
       == (if orders' == [] then PaperQueue([], 0) else PaperQueue(orders', PapersAt(s, side, price).phantom))
    && forall d, q :: d != side || q != price ==> PapersAt(s', d, q) == PapersAt(s, d, q)
  }

  ghost predicate SameHistory(s: State, s': State) {
    s'.hist == s.hist && s'.nodes == s.nodes && s'.info == s.info && s'.clock == s.clock
  }

  // ---- orders of the feed -------------------------------------------------------------------

  lemma ChangePlace(s: State, id: int, qty: int) returns (i: nat)
    requires Inv(s) && id in s.info && qty >= 0
    ensures var loc := s.info[id];
            var queue := QueueAt(s.hist, loc.side, loc.price);
            var s' := ChangeQty(s, id, qty - LiveQty(s, id));
            && i < |queue| && queue[i].arrival == loc.arrival && queue[i].id == id && queue[i].qty == LiveQty(s, id)
            && queue[i].source == LiveSource(s, id)
            && OneQueue(s, s', loc.side, loc.price, WithQty(queue, i, qty))
            && s'.paper == s.paper && s'.paperInfo == s.paperInfo && s'.clock == s.clock && s'.seq_ == s.seq_
  {
    hide Inv, LiveQty, LiveSource;
    var loc := s.info[id];
    var delta := qty - LiveQty(s, id);
    i := EngineSteps.OrderFound(s, id, delta);
    var queue := QueueAt(s.hist, loc.side, loc.price);
    ChangeKeepsPaper(s, id, delta);
    EngineSteps.RequeueHist(s, loc.side, loc.price, Changed(queue, i, delta));
    EngineSteps.PutQueueAt(s.hist, loc.side, loc.price, Changed(queue, i, delta));
  }

  /**
   * DELETE, SUBTRACT and SET of an order of the feed: it keeps its place in its queue with the lots
   * that the event leaves it, or leaves the queue at zero; nothing else moves.
   */
  lemma CancelPlace(caps: Caps, s: State, e: Event) returns (i: nat)
    requires Inv(s) && e.source != Strategy && (e.kind == Delete || e.kind == Subtract || e.kind == Set)
    requires e.id in s.info
    ensures var loc := s.info[e.id];
            var queue := QueueAt(s.hist, loc.side, loc.price);
            var s' := Step(caps, s, e).0;
            && i < |queue| && queue[i].arrival == loc.arrival && queue[i].id == e.id
            && OneQueue(s, s', loc.side, loc.price,
                        WithQty(queue, i,
                                if e.kind == Delete then 0
                                else if e.kind == Set then Max(e.qty, 0)
                                else Max(queue[i].qty - Max(e.qty, 0), 0)))
            && s'.paper == s.paper && s'.paperInfo == s.paperInfo && s'.clock == s.clock && s'.seq_ == s.seq_ + 1
            && Step(caps, s, e).1 == [Applied(s.seq_, e)]
  {
    hide Inv, ChangeQty, LiveQty, OneQueue;
    LiveQtyPositive(s, e.id);
    var live := LiveQty(s, e.id);
    var loc := s.info[e.id];
    var qty := if e.kind == Delete then 0 else if e.kind == Set then Max(e.qty, 0) else Max(live - Max(e.qty, 0), 0);
    i := ChangePlace(s, e.id, qty);
    var queue := QueueAt(s.hist, loc.side, loc.price);
    SamePlace(s, ChangeQty(s, e.id, qty - live), Step(caps, s, e).0, loc.side, loc.price, WithQty(queue, i, qty));
    if e.kind == Subtract && e.qty <= 0 {
      assert queue[i := queue[i].(qty := live)] == queue;
      SamePlace(s, s, Step(caps, s, e).0, loc.side, loc.price, queue);
      NothingMoves(s, loc.side, loc.price);
      SamePlace(s, s, Step(caps, s, e).0, loc.side, loc.price, queue);
    }
  }

  lemma NothingMoves(s: State, side: Side, price: int)
    ensures OneQueue(s, s, side, price, QueueAt(s.hist, side, price))
  {
  }

  lemma SamePlace(s: State, c: State, s': State, side: Side, price: int, queue': seq<Order>)
    ensures OneQueue(s, c, side, price, queue') && s'.hist == c.hist ==> OneQueue(s, s', side, price, queue')
  {
  }

  /** A cancel or resize under an id that no order of the feed has, and a MATCH without lots, only count. */
  lemma UnknownCounts(caps: Caps, s: State, e: Event)
    requires e.kind == Delete || e.kind == Subtract || e.kind == Set || e.kind == Match
    requires if e.kind == Match then e.id !in s.info || e.qty <= 0
             else if e.source == Strategy then e.id !in s.paperInfo
             else e.id !in s.info
    ensures Step(caps, s, e) == (s.(seq_ := s.seq_ + 1), [Applied(s.seq_, e)])
  {
    EngineMatch.AbsentIds(s, e.id, 0, 0);
    EngineMatch.AbsentIds(s, e.id, 0, Max(e.qty, 0));
    assert [Applied(s.seq_, e)] + [] == [Applied(s.seq_, e)];
    EngineMatch.AbsentIds(s, e.id, 0, Max(Remaining(s, e.id) - e.qty, 0));
    hide ChangeQty, SetRemaining, LiveQty, Remaining;
  }

  /**
   * A trade of the feed against a resting order. It takes the smaller of both sizes off that order.
   * The report is the event, one fill for each strategy order that the trade would have reached in
   * the level's queue by arrival, and the passive fill; the strategy orders are left as that walk
   * leaves them.
   */
  lemma MatchFills(caps: Caps, s: State, e: Event) returns (i: nat)
    requires Inv(s) && e.kind == Match && e.id in s.info && e.qty > 0
    ensures var loc := s.info[e.id];
            var queue := QueueAt(s.hist, loc.side, loc.price);
            var pq := PapersAt(s, loc.side, loc.price);
            var r := Step(caps, s, e);
            && i < |queue| && queue[i].arrival == loc.arrival && queue[i].id == e.id
            && var take := Min(queue[i].qty, e.qty);
               var w := WalkFifo(Haunted(Merge(queue, pq.orders), pq.phantom), take);
               && OneQueue(s, r.0, loc.side, loc.price, WithQty(queue, i, queue[i].qty - take))
               && OnePapers(s, r.0, loc.side, loc.price, w.1)
               && r.0.clock == s.clock && r.0.seq_ == s.seq_ + 1
               && |r.1| == |w.0| + 2 && r.1[0] == Applied(s.seq_, e)
               && (forall k :: 0 <= k < |w.0| ==>
                     r.1[k + 1] == Filled(Fill(s.seq_, loc.price, w.0[k].qty, loc.side, w.0[k].id, Strategy,
                                               UNKNOWN_ID, e.source)))
               && r.1[|w.0| + 1] == Filled(Fill(s.seq_, loc.price, take, loc.side, e.id, queue[i].source,
                                                UNKNOWN_ID, e.source))
  {
    hide Inv, ChangeQty, LiveQty, LiveSource, ShadowAt, WalkFifo, Haunted, Merge, OneQueue, OnePapers;
    LiveQtyPositive(s, e.id);
    var loc := s.info[e.id];
    var queue := QueueAt(s.hist, loc.side, loc.price);
    var take := Min(LiveQty(s, e.id), e.qty);
    var sh := ShadowAt(s, loc.side, loc.price, queue, take, e);
    ShadowKeepsBook(s, loc.side, loc.price, queue, take, e);
    ShadowAtInv(s, loc.side, loc.price, queue, take, e);
    EngineMatch.SameBookLive(s, sh.0, e.id);
    i := ChangePlace(sh.0, e.id, LiveQty(s, e.id) - take);
    ShadowFills(s, loc.side, loc.price, take, e);
    var c := ChangeQty(sh.0, e.id, -take);
    var s' := Step(caps, s, e).0;
    SamePlace(sh.0, c, s', loc.side, loc.price, WithQty(queue, i, queue[i].qty - take));
    FromHere(s, sh.0, s', loc.side, loc.price, WithQty(queue, i, queue[i].qty - take));
    SamePapers(s, sh.0, s', loc.side, loc.price, s'.paper);
  }

  lemma FromHere(s: State, c: State, s': State, side: Side, price: int, queue': seq<Order>)
    requires c.hist == s.hist
    ensures OneQueue(c, s', side, price, queue') ==> OneQueue(s, s', side, price, queue')
  {
  }

  lemma SamePapers(s: State, c: State, s': State, side: Side, price: int, papers: Sides<map<int, PaperQueue>>)
    requires s'.paper == c.paper
    ensures forall orders' :: OnePapers(s, c, side, price, orders') ==> OnePapers(s, s', side, price, orders')
  {
    forall orders' | OnePapers(s, c, side, price, orders') ensures OnePapers(s, s', side, price, orders') {
      forall d, q ensures PapersAt(s', d, q) == PapersAt(c, d, q) {
      }
    }
  }

  /** The shadow fills of one place, as a walk of its queue by arrival. */
  lemma {:induction false} ShadowFills(s: State, side: Side, price: int, traded: int, e: Event)
    requires Inv(s) && traded > 0
    ensures var pq := PapersAt(s, side, price);
            var w := WalkFifo(Haunted(Merge(QueueAt(s.hist, side, price), pq.orders), pq.phantom), traded);
            var r := ShadowAt(s, side, price, QueueAt(s.hist, side, price), traded, e);
            && OnePapers(s, r.0, side, price, w.1)
            && |r.1| == |w.0|
            && forall k :: 0 <= k < |w.0| ==>
                 r.1[k] == Filled(Fill(s.seq_, price, w.0[k].qty, side, w.0[k].id, Strategy,
                                       if e.kind == Add then e.id else UNKNOWN_ID, e.source))
  {
    var queue := QueueAt(s.hist, side, price);
    var pq := PapersAt(s, side, price);
    if price in s.paper.At(side) {
      DistinctStamps(s, side, price);
      ShadowIsWalkOfAll(queue, pq, traded);
      Matching.ShadowSources(queue, pq, traded, 0);
      hide Inv, Shadow, Merge, WalkFifo, Haunted;
      var r := Shadow(queue, pq, traded, 0);
      assert pq == s.paper.At(side)[price];
      forall d, q
        ensures PapersAt(Repaper(s, side, price, r.1), d, q)
             == if d == side && q == price then (if r.1.orders == [] then PaperQueue([], 0) else r.1)
                else PapersAt(s, d, q)
      {
        RepaperElsewhere(s, side, price, r.1, d, q);
      }
    } else {
      Nobody(queue, traded);
    }
  }

  /** Without strategy orders nothing is reported. */
  lemma {:induction false} Nobody(market: seq<Order>, traded: int)
    ensures WalkFifo(Haunted(Merge(market, []), 0), traded) == ([], [])
  {
    HauntedNoPapers(market, 0, traded);
  }

  /** Without phantom lots that walk is the plain one. */
  lemma {:induction false} PlainWalk(s: State, side: Side, price: int, traded: int)
    requires Inv(s) && PapersAt(s, side, price).phantom == 0
    ensures var market := QueueAt(s.hist, side, price);
            var papers := PapersAt(s, side, price).orders;
            WalkFifo(Haunted(Merge(market, papers), 0), traded) == WalkFifo(Merge(market, papers), traded)
  {
    var market := QueueAt(s.hist, side, price);
    var pq := PapersAt(s, side, price);
    if price in s.paper.At(side) {
      DistinctStamps(s, side, price);
      ShadowIsWalkOfAll(market, pq, traded);
      ShadowIsFifo(market, pq.orders, traded);
      assert pq == PaperQueue(pq.orders, 0);
    } else {
      Nobody(market, traded);
      WalkNoPapers(market, traded);
    }
  }

  // ---- orders of the strategy ---------------------------------------------------------------

  /**
   * DELETE, SUBTRACT and SET of a strategy order: it keeps its place among the strategy orders of its
   * level with the lots that the event leaves it, or leaves the level at zero; phantom lots, all
   * other levels and the whole historical book stay.
   */
  lemma OwnCancelPlace(caps: Caps, s: State, e: Event) returns (i: nat)
    requires Inv(s) && e.source == Strategy && (e.kind == Delete || e.kind == Subtract || e.kind == Set)
    requires e.id in s.paperInfo
    ensures var place := s.paperInfo[e.id];
            var orders := PapersAt(s, place.side, place.price).orders;
            var r := Step(caps, s, e);
            && i < |orders| && orders[i].id == e.id
            && OnePapers(s, r.0, place.side, place.price,
                         WithRemaining(orders, i,
                                       if e.kind == Delete then 0
                                       else if e.kind == Set then Max(e.qty, 0)
                                       else Max(orders[i].remaining - Max(e.qty, 0), 0)))
            && SameHistory(s, r.0) && r.0.seq_ == s.seq_ + 1 && r.1 == [Applied(s.seq_, e)]
  {
    hide Inv, OnePapers, SetRemaining, Repaper;
    var place := s.paperInfo[e.id];
    i := Placed(s, e.id);
    var orders := PapersAt(s, place.side, place.price).orders;
    var remaining := if e.kind == Delete then 0 else if e.kind == Set then Max(e.qty, 0)
                     else Max(orders[i].remaining - Max(e.qty, 0), 0);
    SetPlace(s, e.id, i, remaining);
    SetRemainingKeepsBook(s, e.id, remaining);
    var s' := Step(caps, s, e).0;
    if e.kind == Subtract && e.qty <= 0 {
      assert orders[i := orders[i].(remaining := orders[i].remaining)] == orders;
      NoPapersMove(s, place.side, place.price);
      SamePapers(s, s, s', place.side, place.price, s.paper);
    } else {
      SamePapers(s, SetRemaining(s, e.id, remaining), s', place.side, place.price, s'.paper);
    }
  }

  lemma NoPapersMove(s: State, side: Side, price: int)
    requires PapersAt(s, side, price).orders != []
    ensures OnePapers(s, s, side, price, PapersAt(s, side, price).orders)
  {
  }

  lemma Placed(s: State, id: int) returns (i: nat)
    requires Inv(s) && id in s.paperInfo
    ensures var place := s.paperInfo[id];
            var pq := PapersAt(s, place.side, place.price);
            && place.price in s.paper.At(place.side) && i == PositionOf(pq.orders, id) && i < |pq.orders|
            && pq.orders[i].id == id && pq.orders[i].remaining == Remaining(s, id) > 0
  {
    var place := s.paperInfo[id];
    assert PaperInfoInv(s, id) && PaperLevelInv(s, place.side, place.price);
    i := PositionOf(PapersAt(s, place.side, place.price).orders, id);
  }

  lemma {:induction false} SetPlace(s: State, id: int, i: nat, remaining: int)
    requires id in s.paperInfo
    requires var place := s.paperInfo[id];
             var pq := PapersAt(s, place.side, place.price);
             place.price in s.paper.At(place.side) && i == PositionOf(pq.orders, id) && i < |pq.orders|
    ensures var place := s.paperInfo[id];
            OnePapers(s, SetRemaining(s, id, remaining), place.side, place.price,
                      WithRemaining(PapersAt(s, place.side, place.price).orders, i, remaining))
  {
    hide Repaper;
    var place := s.paperInfo[id];
    var pq := s.paper.At(place.side)[place.price];
    var pq' := pq.(orders := WithRemaining(pq.orders, i, remaining));
    assert SetRemaining(s, id, remaining) == Repaper(s, place.side, place.price, pq');
    forall d, q
      ensures PapersAt(Repaper(s, place.side, place.price, pq'), d, q)
           == if d == place.side && q == place.price then (if pq'.orders == [] then PaperQueue([], 0) else pq')
              else PapersAt(s, d, q)
    {
      RepaperElsewhere(s, place.side, place.price, pq', d, q);
    }
  }
}
