/**
 * One price level, as values: the FIFO queue of historical orders, and the strategy orders that
 * wait at the same price in the paper overlay.
 */
module Level {
  import opened Types

  /** A historical order; `arrival` is the stamp that orders it against every other order. */
  datatype Order = Order(id: int, qty: int, source: Source, arrival: nat)

  datatype PaperOrder = PaperOrder(id: int, remaining: int, placement: nat)

  /**
   * The strategy orders of a level in FIFO order. `phantom` counts lots that a direct sweep filled
   * completely but left in the level's queue-position index (paper_trading_simulator.cpp:633-639
   * with 684-689): the sweep lowers the order's remainder before the removal reads it.
   */
  datatype PaperQueue = PaperQueue(orders: seq<PaperOrder>, phantom: nat)

  /** One fill against a resting order, which `stamp` identifies. */
  datatype Trade = Trade(id: int, source: Source, qty: int, stamp: nat)

  ghost predicate QueueOk(queue: seq<Order>) {
    && (forall i :: 0 <= i < |queue| ==> queue[i].qty > 0)
    && (forall i, j :: 0 <= i < j < |queue| ==> queue[i].arrival < queue[j].arrival)
  }

  ghost predicate PapersOk(orders: seq<PaperOrder>) {
    && (forall i :: 0 <= i < |orders| ==> orders[i].remaining > 0)
    && (forall i, j :: 0 <= i < j < |orders| ==> orders[i].placement < orders[j].placement)
  }

  ghost predicate DistinctIds(orders: seq<PaperOrder>) {
    forall i, j :: 0 <= i < j < |orders| ==> orders[i].id != orders[j].id
  }

  function QtyTotal(queue: seq<Order>): int {
    if queue == [] then 0 else queue[0].qty + QtyTotal(queue[1..])
  }

  /** Historical lots that arrived before a stamp. */
  function QtyBefore(queue: seq<Order>, stamp: nat): int {
    if queue == [] then 0
    else (if queue[0].arrival < stamp then queue[0].qty else 0) + QtyBefore(queue[1..], stamp)
  }

  function RemainingTotal(orders: seq<PaperOrder>): int {
    if orders == [] then 0 else orders[0].remaining + RemainingTotal(orders[1..])
  }

  function TradeTotal(trades: seq<Trade>): int {
    if trades == [] then 0 else trades[0].qty + TradeTotal(trades[1..])
  }

  // ---- real matching ------------------------------------------------------------------------

  datatype Consumed = Consumed(trades: seq<Trade>, left: int, rest: seq<Order>)

  /** An aggressor takes from the front of the queue. */
  function Consume(queue: seq<Order>, left: int): Consumed {
    if left <= 0 || queue == [] then Consumed([], left, queue)
    else
      var o := queue[0];
      if left < o.qty then
        Consumed([Trade(o.id, o.source, left, o.arrival)], 0, [o.(qty := o.qty - left)] + queue[1..])
      else
        var c := Consume(queue[1..], left - o.qty);
        c.(trades := [Trade(o.id, o.source, o.qty, o.arrival)] + c.trades)
  }

  function WithoutAt<T>(s: seq<T>, i: nat): seq<T>
    requires i < |s|
  {
    s[..i] + s[i + 1..]
  }

  /** A change of one order's quantity by `delta` (to zero meaning that it leaves the queue). */
  function Changed(queue: seq<Order>, i: nat, delta: int): seq<Order>
    requires i < |queue|
  {
    if queue[i].qty + delta == 0 then WithoutAt(queue, i)
    else queue[i := queue[i].(qty := queue[i].qty + delta)]
  }

  // ---- shadow fills of resting strategy orders ----------------------------------------------

  /**
   * What a trade of `traded` lots at this price would have filled of the strategy orders: each
   * order waits for the historical lots that arrived before it and for the lots counted as paper
   * ahead of it. `consumed` is how much of the historical queue has been passed already.
   */
  function Shadow(market: seq<Order>, pq: PaperQueue, traded: int, consumed: int): (seq<Trade>, PaperQueue)
    decreases |pq.orders|
  {
    if traded <= 0 || pq.orders == [] then ([], pq)
    else
      var p := pq.orders[0];
      var aheadMarket := Max(QtyBefore(market, p.placement) - consumed, 0);
      var queueAhead := aheadMarket + pq.phantom;
      if queueAhead >= traded then ([], pq)
      else
        var t := traded - queueAhead;
        if t < p.remaining then
          ([Trade(p.id, Strategy, t, p.placement)], pq.(orders := [p.(remaining := p.remaining - t)] + pq.orders[1..]))
        else
          var r := Shadow(market, pq.(orders := pq.orders[1..]), t - p.remaining, consumed + aheadMarket);
          ([Trade(p.id, Strategy, p.remaining, p.placement)] + r.0, r.1)
  }

  /** A lot-by-lot view of the level: historical and strategy orders in one FIFO queue. */
  datatype Lot = MarketLot(order: Order) | PaperLot(paper: PaperOrder)

  function Stamp(lot: Lot): nat {
    match lot
    case MarketLot(o) => o.arrival
    case PaperLot(p) => p.placement
  }

  /** The merged queue, by stamp. */
  function Merge(market: seq<Order>, papers: seq<PaperOrder>): seq<Lot>
    decreases |market| + |papers|
  {
    if market == [] && papers == [] then []
    else if papers == [] || (market != [] && market[0].arrival < papers[0].placement) then
      [MarketLot(market[0])] + Merge(market[1..], papers)
    else
      [PaperLot(papers[0])] + Merge(market, papers[1..])
  }

  function PapersIn(lots: seq<Lot>): seq<PaperOrder> {
    if lots == [] then []
    else (match lots[0] case MarketLot(_) => [] case PaperLot(p) => [p]) + PapersIn(lots[1..])
  }

  /** A trade walks the merged queue; only the strategy orders' fills and leftovers are reported. */
  function WalkFifo(lots: seq<Lot>, traded: int): (seq<Trade>, seq<PaperOrder>) {
    if traded <= 0 || lots == [] then ([], PapersIn(lots))
    else match lots[0] {
      case MarketLot(o) => WalkFifo(lots[1..], traded - o.qty)
      case PaperLot(p) =>
        if traded < p.remaining then
          ([Trade(p.id, Strategy, traded, p.placement)], [p.(remaining := p.remaining - traded)] + PapersIn(lots[1..]))
        else
          var r := WalkFifo(lots[1..], traded - p.remaining);
          ([Trade(p.id, Strategy, p.remaining, p.placement)] + r.0, r.1)
    }
  }

  // ---- direct sweep of strategy orders ------------------------------------------------------

  /** Takes the level's strategy orders from the front; complete fills turn into phantom lots. */
  function Sweep(pq: PaperQueue, left: int): (r: (seq<Trade>, int, PaperQueue))
    decreases |pq.orders|
  {
    if left <= 0 || pq.orders == [] then ([], left, pq)
    else
      var p := pq.orders[0];
      if left < p.remaining then
        ([Trade(p.id, Strategy, left, p.placement)], 0,
         pq.(orders := [p.(remaining := p.remaining - left)] + pq.orders[1..]))
      else
        var gone := PaperQueue(pq.orders[1..], pq.phantom + Max(p.remaining, 0));
        var r := Sweep(gone, left - p.remaining);
        ([Trade(p.id, Strategy, p.remaining, p.placement)] + r.0, r.1, r.2)
  }

  // ---- the fast form refines the merged queue -----------------------------------------------

  /** Passing `lots` of the historical queue ahead of the first strategy order early changes nothing. */
  lemma ShadowSkip(market: seq<Order>, pq: PaperQueue, traded: int, consumed: int, lots: int)
    requires pq.orders != [] && lots >= 0
    requires consumed + lots <= QtyBefore(market, pq.orders[0].placement)
    ensures Shadow(market, pq, traded, consumed) == Shadow(market, pq, traded - lots, consumed + lots)
  {
  }

  lemma {:induction false} QtyBeforeConcat(a: seq<Order>, b: seq<Order>, stamp: nat)
    ensures QtyBefore(a + b, stamp) == QtyBefore(a, stamp) + QtyBefore(b, stamp)
  {
    if a == [] {
      assert a + b == b;
    } else {
      assert (a + b)[1..] == a[1..] + b;
      QtyBeforeConcat(a[1..], b, stamp);
    }
  }

  lemma {:induction false} QtyBeforeNone(queue: seq<Order>, stamp: nat)
    requires forall i :: 0 <= i < |queue| ==> queue[i].arrival >= stamp
    ensures QtyBefore(queue, stamp) == 0
  {
    if queue != [] {
      QtyBeforeNone(queue[1..], stamp);
    }
  }

  lemma {:induction false} QtyBeforeAll(queue: seq<Order>, stamp: nat)
    requires forall i :: 0 <= i < |queue| ==> queue[i].arrival < stamp
    ensures QtyBefore(queue, stamp) == QtyTotal(queue)
  {
    if queue != [] {
      QtyBeforeAll(queue[1..], stamp);
    }
  }

  lemma {:induction false} QtyBeforeNonNegative(queue: seq<Order>, stamp: nat)
    requires forall i :: 0 <= i < |queue| ==> queue[i].qty > 0
    ensures QtyBefore(queue, stamp) >= 0
  {
    if queue != [] {
      QtyBeforeNonNegative(queue[1..], stamp);
    }
  }

  lemma {:induction false} PapersInMerge(market: seq<Order>, papers: seq<PaperOrder>)
    ensures PapersIn(Merge(market, papers)) == papers
    decreases |market| + |papers|
  {
    if market == [] && papers == [] {
    } else if papers == [] || (market != [] && market[0].arrival < papers[0].placement) {
      PapersInMerge(market[1..], papers);
    } else {
      PapersInMerge(market, papers[1..]);
      assert [papers[0]] + papers[1..] == papers;
    }
  }

  function OrdersIn(lots: seq<Lot>): seq<Order> {
    if lots == [] then []
    else (match lots[0] case MarketLot(o) => [o] case PaperLot(_) => []) + OrdersIn(lots[1..])
  }

  lemma {:induction false} OrdersInMerge(market: seq<Order>, papers: seq<PaperOrder>)
    ensures OrdersIn(Merge(market, papers)) == market
    decreases |market| + |papers|
  {
    if market == [] && papers == [] {
    } else if papers == [] || (market != [] && market[0].arrival < papers[0].placement) {
      OrdersInMerge(market[1..], papers);
      assert [market[0]] + market[1..] == market;
    } else {
      OrdersInMerge(market, papers[1..]);
    }
  }

  ghost predicate ByStamp(lots: seq<Lot>) {
    forall i, j :: 0 <= i < j < |lots| ==> Stamp(lots[i]) < Stamp(lots[j])
  }

  predicate Belongs(lot: Lot, market: seq<Order>, papers: seq<PaperOrder>) {
    match lot
    case MarketLot(o) => o in market
    case PaperLot(p) => p in papers
  }

  lemma {:induction false} MergeBelongs(market: seq<Order>, papers: seq<PaperOrder>)
    ensures forall lot :: lot in Merge(market, papers) ==> Belongs(lot, market, papers)
    decreases |market| + |papers|
  {
    if market == [] && papers == [] {
    } else if papers == [] || (market != [] && market[0].arrival < papers[0].placement) {
      MergeBelongs(market[1..], papers);
    } else {
      MergeBelongs(market, papers[1..]);
    }
  }

  /** The merged queue is in strict order of stamps, and holds both queues, in their order. */
  lemma {:induction false} MergeIsByStamp(market: seq<Order>, papers: seq<PaperOrder>)
    requires QueueOk(market) && PapersOk(papers) && Passing([], market, papers)
    ensures ByStamp(Merge(market, papers))
    ensures OrdersIn(Merge(market, papers)) == market && PapersIn(Merge(market, papers)) == papers
  {
    MergeSorted(market, papers);
    OrdersInMerge(market, papers);
    PapersInMerge(market, papers);
  }

  lemma {:induction false} MergeSorted(market: seq<Order>, papers: seq<PaperOrder>)
    requires QueueOk(market) && PapersOk(papers) && Passing([], market, papers)
    ensures ByStamp(Merge(market, papers))
    decreases |market| + |papers|
  {
    hide ByStamp;
    NothingByStamp();
    if market == [] && papers == [] {
    } else if papers == [] || (market != [] && market[0].arrival < papers[0].placement) {
      QueueOkTail(market);
      MergeSorted(market[1..], papers);
      AllLater(MarketLot(market[0]), market[1..], papers);
    } else {
      PapersOkTail(papers);
      MergeSorted(market, papers[1..]);
      AllLater(PaperLot(papers[0]), market, papers[1..]);
    }
  }

  lemma NothingByStamp()
    ensures ByStamp([])
  {
  }

  /** An order that is older than both queues goes in front of their merge. */
  lemma {:induction false} AllLater(lot: Lot, market: seq<Order>, papers: seq<PaperOrder>)
    requires ByStamp(Merge(market, papers))
    requires forall i :: 0 <= i < |market| ==> Stamp(lot) < market[i].arrival
    requires forall i :: 0 <= i < |papers| ==> Stamp(lot) < papers[i].placement
    ensures ByStamp([lot] + Merge(market, papers))
  {
    MergeBelongs(market, papers);
    var rest := Merge(market, papers);
    hide Merge;
    forall k | 0 <= k < |rest| ensures Stamp(lot) < Stamp(rest[k]) {
      assert rest[k] in rest;
    }
  }

  /** Without strategy orders left, walking the queue reports nothing. */
  lemma {:induction false} WalkNoPapers(market: seq<Order>, traded: int)
    ensures WalkFifo(Merge(market, []), traded) == ([], [])
  {
    PapersInMerge(market, []);
    if market != [] {
      WalkNoPapers(market[1..], traded - market[0].qty);
    }
  }

  /** Everything already passed arrived before every waiting strategy order; no two stamps tie. */
  ghost predicate Passing(gone: seq<Order>, market: seq<Order>, papers: seq<PaperOrder>) {
    && (forall i, j :: 0 <= i < |gone| && 0 <= j < |papers| ==> gone[i].arrival < papers[j].placement)
    && (forall i, j :: 0 <= i < |market| && 0 <= j < |papers| ==> market[i].arrival != papers[j].placement)
  }

  /**
   * From this point of the walk on (`gone` passed, `market` and `papers` still ahead) the
   * queue-position arithmetic fills what a walk of the merged queue fills.
   */
  ghost predicate Agrees(gone: seq<Order>, market: seq<Order>, papers: seq<PaperOrder>, traded: int) {
    var r := Shadow(gone + market, PaperQueue(papers, 0), traded, QtyTotal(gone));
    var w := WalkFifo(Merge(market, papers), traded);
    r.0 == w.0 && r.1 == PaperQueue(w.1, 0)
  }

  lemma {:induction false} ShadowIsWalk(gone: seq<Order>, market: seq<Order>, papers: seq<PaperOrder>, traded: int)
    requires QueueOk(market) && PapersOk(papers) && Passing(gone, market, papers)
    ensures Agrees(gone, market, papers, traded)
    decreases |market| + |papers|
  {
    PapersInMerge(market, papers);
    if traded <= 0 {
    } else if papers == [] {
      WalkNoPapers(market, traded);
    } else if market != [] && market[0].arrival < papers[0].placement {
      var m := market[0];
      PassMarketLot(gone, market, papers);
      ShadowIsWalk(gone + [m], market[1..], papers, traded - m.qty);
      ShadowSkip(gone + market, PaperQueue(papers, 0), traded, QtyTotal(gone), m.qty);
    } else {
      NothingAhead(gone, market, papers);
      ShadowIsWalk(gone, market, papers[1..], traded - papers[0].remaining);
      AgreesFromPaper(gone, market, papers, traded);
    }
  }

  lemma {:induction false} AgreesFromPaper(gone: seq<Order>, market: seq<Order>, papers: seq<PaperOrder>, traded: int)
    requires papers != [] && (market != [] ==> market[0].arrival >= papers[0].placement)
    requires QtyBefore(gone + market, papers[0].placement) == QtyTotal(gone)
    requires Agrees(gone, market, papers[1..], traded - papers[0].remaining)
    ensures Agrees(gone, market, papers, traded)
  {
    var p := papers[0];
    var lots := Merge(market, papers);
    var rest := Merge(market, papers[1..]);
    assert lots == [PaperLot(p)] + rest;
    PapersInMerge(market, papers);
    PapersInMerge(market, papers[1..]);
    hide Merge, QtyBefore, QtyTotal, PapersIn;
    assert lots[1..] == rest;
  }

  lemma {:induction false} PassMarketLot(gone: seq<Order>, market: seq<Order>, papers: seq<PaperOrder>)
    requires QueueOk(market) && PapersOk(papers) && Passing(gone, market, papers)
    requires market != [] && papers != [] && market[0].arrival < papers[0].placement
    ensures (gone + [market[0]]) + market[1..] == gone + market
    ensures QtyTotal(gone + [market[0]]) == QtyTotal(gone) + market[0].qty
    ensures QtyTotal(gone) + market[0].qty <= QtyBefore(gone + market, papers[0].placement)
    ensures QueueOk(market[1..]) && Passing(gone + [market[0]], market[1..], papers)
  {
    var stamp := papers[0].placement;
    QtyTotalConcat(gone, [market[0]]);
    QueueOkTail(market);
    QtyBeforeNonNegative(market[1..], stamp);
    QtyBeforeConcat(gone, market, stamp);
    QtyBeforeAll(gone, stamp);
    assert forall j :: 0 <= j < |papers| ==> market[0].arrival < papers[j].placement;
  }

  lemma {:induction false} NothingAhead(gone: seq<Order>, market: seq<Order>, papers: seq<PaperOrder>)
    requires QueueOk(market) && PapersOk(papers) && Passing(gone, market, papers)
    requires papers != [] && (market != [] ==> market[0].arrival >= papers[0].placement)
    ensures QtyBefore(gone + market, papers[0].placement) == QtyTotal(gone)
    ensures PapersOk(papers[1..]) && Passing(gone, market, papers[1..])
  {
    var stamp := papers[0].placement;
    QtyBeforeConcat(gone, market, stamp);
    QtyBeforeAll(gone, stamp);
    QtyBeforeNone(market, stamp);
    PapersOkTail(papers);
  }

  lemma {:induction false} QtyTotalConcat(a: seq<Order>, b: seq<Order>)
    ensures QtyTotal(a + b) == QtyTotal(a) + QtyTotal(b)
  {
    if a == [] {
      assert a + b == b;
    } else {
      assert (a + b)[1..] == a[1..] + b;
      QtyTotalConcat(a[1..], b);
    }
  }

  /**
   * On a level without phantom lots, the shadow fills and leftovers of a trade are those of the
   * same trade walking one merged FIFO queue.
   */
  lemma {:induction false} ShadowIsFifo(market: seq<Order>, papers: seq<PaperOrder>, traded: int)
    requires QueueOk(market) && PapersOk(papers)
    requires forall i, j :: 0 <= i < |market| && 0 <= j < |papers| ==> market[i].arrival != papers[j].placement
    ensures var r := Shadow(market, PaperQueue(papers, 0), traded, 0);
            var w := WalkFifo(Merge(market, papers), traded);
            r.0 == w.0 && r.1 == PaperQueue(w.1, 0)
  {
    assert [] + market == market;
    ShadowIsWalk([], market, papers, traded);
  }

  /**
   * The exact condition: a level gives the FIFO fills for every trade size if and only if it
   * carries no phantom lots.
   */
  lemma {:induction false} FifoExactlyWithoutPhantom(market: seq<Order>, pq: PaperQueue)
    requires QueueOk(market) && PapersOk(pq.orders) && pq.orders != []
    requires forall i, j :: 0 <= i < |market| && 0 <= j < |pq.orders| ==> market[i].arrival != pq.orders[j].placement
    ensures (forall traded: int :: Shadow(market, pq, traded, 0).0 == WalkFifo(Merge(market, pq.orders), traded).0)
       <==> pq.phantom == 0
  {
    forall traded: int | pq.phantom == 0
      ensures Shadow(market, pq, traded, 0).0 == WalkFifo(Merge(market, pq.orders), traded).0
    {
      ShadowIsFifo(market, pq.orders, traded);
    }
    if pq.phantom > 0 {
      var p := pq.orders[0];
      QtyBeforeNonNegative(market, p.placement);
      var traded := QtyBefore(market, p.placement) + 1;
      ShadowIsFifo(market, pq.orders, traded);
      assert Shadow(market, PaperQueue(pq.orders, 0), traded, 0).0 != [];
      assert Shadow(market, pq, traded, 0).0 == [];
    }
  }

  // ---- with phantom lots --------------------------------------------------------------------

  /** The merged queue with the phantom lots in front of every strategy order: each waits for them anew. */
  function Haunted(lots: seq<Lot>, phantom: nat): seq<Lot> {
    if lots == [] then []
    else
      (match lots[0]
       case MarketLot(_) => [lots[0]]
       case PaperLot(p) => [MarketLot(Order(p.id, phantom, Unknown, p.placement)), lots[0]])
      + Haunted(lots[1..], phantom)
  }

  lemma {:induction false} PapersInHaunted(lots: seq<Lot>, phantom: nat)
    ensures PapersIn(Haunted(lots, phantom)) == PapersIn(lots)
  {
    if lots != [] {
      PapersInHaunted(lots[1..], phantom);
      var rest := Haunted(lots[1..], phantom);
      if lots[0].PaperLot? {
        var ahead := MarketLot(Order(lots[0].paper.id, phantom, Unknown, lots[0].paper.placement));
        assert ([ahead, lots[0]] + rest)[1..] == [lots[0]] + rest;
        assert ([lots[0]] + rest)[1..] == rest;
      } else {
        assert ([lots[0]] + rest)[1..] == rest;
      }
    }
  }

  lemma {:induction false} WalkHauntedMarket(o: Order, lots: seq<Lot>, phantom: nat, traded: int)
    requires traded > 0
    ensures WalkFifo(Haunted([MarketLot(o)] + lots, phantom), traded)
            == WalkFifo(Haunted(lots, phantom), traded - o.qty)
  {
    assert ([MarketLot(o)] + lots)[1..] == lots;
    assert ([MarketLot(o)] + Haunted(lots, phantom))[1..] == Haunted(lots, phantom);
  }

  lemma {:induction false} WalkHauntedPaper(p: PaperOrder, lots: seq<Lot>, phantom: nat, traded: int)
    requires traded > 0
    ensures var w := WalkFifo(Haunted([PaperLot(p)] + lots, phantom), traded);
            var t := traded - phantom;
            if t <= 0 then w == ([], [p] + PapersIn(lots))
            else if t < p.remaining then
              w == ([Trade(p.id, Strategy, t, p.placement)], [p.(remaining := p.remaining - t)] + PapersIn(lots))
            else
              var r := WalkFifo(Haunted(lots, phantom), t - p.remaining);
              w == ([Trade(p.id, Strategy, p.remaining, p.placement)] + r.0, r.1)
  {
    var rest := Haunted(lots, phantom);
    var o := Order(p.id, phantom, Unknown, p.placement);
    PapersInHaunted(lots, phantom);
    assert ([PaperLot(p)] + lots)[1..] == lots;
    assert ([MarketLot(o), PaperLot(p)] + rest)[1..] == [PaperLot(p)] + rest;
    assert ([PaperLot(p)] + rest)[1..] == rest;
  }

  /** From this point of the walk on the arithmetic fills what the walk of the haunted queue fills. */
  ghost predicate AgreesHaunted(gone: seq<Order>, market: seq<Order>, pq: PaperQueue, traded: int) {
    var r := Shadow(gone + market, pq, traded, QtyTotal(gone));
    var w := WalkFifo(Haunted(Merge(market, pq.orders), pq.phantom), traded);
    r.0 == w.0 && r.1 == PaperQueue(w.1, pq.phantom)
  }

  lemma {:induction false} ShadowIsHaunted(gone: seq<Order>, market: seq<Order>, pq: PaperQueue, traded: int)
    requires QueueOk(market) && PapersOk(pq.orders) && Passing(gone, market, pq.orders)
    ensures AgreesHaunted(gone, market, pq, traded)
    decreases |market| + |pq.orders|
  {
    var papers := pq.orders;
    var lots := Merge(market, papers);
    PapersInMerge(market, papers);
    PapersInHaunted(lots, pq.phantom);
    if traded <= 0 {
    } else if papers == [] {
      HauntedNoPapers(market, pq.phantom, traded);
    } else if market != [] && market[0].arrival < papers[0].placement {
      var m := market[0];
      PassMarketLot(gone, market, papers);
      ShadowIsHaunted(gone + [m], market[1..], pq, traded - m.qty);
      ShadowSkip(gone + market, pq, traded, QtyTotal(gone), m.qty);
      WalkHauntedMarket(m, Merge(market[1..], papers), pq.phantom, traded);
      hide WalkFifo, Haunted, Shadow;
    } else {
      NothingAhead(gone, market, papers);
      HauntedFromPaper(gone, market, pq, traded);
    }
  }

  lemma {:induction false} HauntedFromPaper(gone: seq<Order>, market: seq<Order>, pq: PaperQueue, traded: int)
    requires QueueOk(market) && PapersOk(pq.orders) && Passing(gone, market, pq.orders)
    requires pq.orders != [] && traded > 0 && (market != [] ==> market[0].arrival >= pq.orders[0].placement)
    requires QtyBefore(gone + market, pq.orders[0].placement) == QtyTotal(gone)
    requires PapersOk(pq.orders[1..]) && Passing(gone, market, pq.orders[1..])
    ensures AgreesHaunted(gone, market, pq, traded)
    decreases |market| + |pq.orders|, 0
  {
    hide WalkFifo, Haunted, Merge, PapersIn, QtyBefore, QtyTotal, QueueOk, PapersOk, Passing;
    var p := pq.orders[0];
    var rest := pq.(orders := pq.orders[1..]);
    var t := traded - pq.phantom - p.remaining;
    ShadowIsHaunted(gone, market, rest, t);
    WalkHauntedPaper(p, Merge(market, rest.orders), pq.phantom, traded);
    PapersInMerge(market, rest.orders);
    assert [p] + rest.orders == pq.orders;
    MergePaper(market, pq.orders);
    ShadowFromPaper(gone + market, pq, traded, QtyTotal(gone));
    hide Shadow;
  }

  lemma {:induction false} MergePaper(market: seq<Order>, papers: seq<PaperOrder>)
    requires papers != [] && (market != [] ==> market[0].arrival >= papers[0].placement)
    ensures Merge(market, papers) == [PaperLot(papers[0])] + Merge(market, papers[1..])
  {
  }

  /** The first strategy order when everything before it has been passed. */
  lemma {:induction false} ShadowFromPaper(market: seq<Order>, pq: PaperQueue, traded: int, consumed: int)
    requires pq.orders != [] && traded > 0 && QtyBefore(market, pq.orders[0].placement) == consumed
    ensures var p := pq.orders[0];
            var t := traded - pq.phantom;
            var s := Shadow(market, pq, traded, consumed);
            if t <= 0 then s == ([], pq)
            else if t < p.remaining then
              s == ([Trade(p.id, Strategy, t, p.placement)],
                    pq.(orders := [p.(remaining := p.remaining - t)] + pq.orders[1..]))
            else
              var r := Shadow(market, pq.(orders := pq.orders[1..]), t - p.remaining, consumed);
              s == ([Trade(p.id, Strategy, p.remaining, p.placement)] + r.0, r.1)
  {
    hide QtyBefore;
  }

  lemma {:induction false} HauntedNoPapers(market: seq<Order>, phantom: nat, traded: int)
    ensures WalkFifo(Haunted(Merge(market, []), phantom), traded) == ([], [])
  {
    PapersInMerge(market, []);
    PapersInHaunted(Merge(market, []), phantom);
    if market != [] && traded > 0 {
      HauntedNoPapers(market[1..], phantom, traded - market[0].qty);
      WalkHauntedMarket(market[0], Merge(market[1..], []), phantom, traded);
    }
  }

  /**
   * Every level, with phantom lots or without: the shadow fills and leftovers of a trade are those
   * of the same trade walking the merged queue in which the phantom lots stand before every strategy
   * order.
   */
  lemma {:induction false} ShadowIsWalkOfAll(market: seq<Order>, pq: PaperQueue, traded: int)
    requires QueueOk(market) && PapersOk(pq.orders)
    requires forall i, j :: 0 <= i < |market| && 0 <= j < |pq.orders| ==> market[i].arrival != pq.orders[j].placement
    ensures var r := Shadow(market, pq, traded, 0);
            var w := WalkFifo(Haunted(Merge(market, pq.orders), pq.phantom), traded);
            r.0 == w.0 && r.1 == PaperQueue(w.1, pq.phantom)
  {
    assert [] + market == market;
    ShadowIsHaunted([], market, pq, traded);
  }

  // ---- bounds and conservation --------------------------------------------------------------

  lemma {:induction false} TradeTotalConcat(a: seq<Trade>, b: seq<Trade>)
    ensures TradeTotal(a + b) == TradeTotal(a) + TradeTotal(b)
  {
    if a == [] {
      assert a + b == b;
    } else {
      assert (a + b)[1..] == a[1..] + b;
      TradeTotalConcat(a[1..], b);
    }
  }

  /** `rest` is what is left of a queue taken from the front: a suffix, its first order perhaps reduced. */
  ghost predicate RestOf(rest: seq<Order>, queue: seq<Order>) {
    && |rest| <= |queue|
    && (rest != [] ==>
          var d := |queue| - |rest|;
          && rest[1..] == queue[d + 1..]
          && rest[0] == queue[d].(qty := rest[0].qty)
          && 0 < rest[0].qty <= queue[d].qty)
  }

  lemma QueueOkTail(queue: seq<Order>)
    requires QueueOk(queue) && queue != []
    ensures QueueOk(queue[1..])
  {
  }

  /** What is left is again a well-formed queue. */
  lemma RestOfOk(rest: seq<Order>, queue: seq<Order>)
    requires QueueOk(queue) && RestOf(rest, queue)
    ensures QueueOk(rest)
  {
    if rest != [] {
      var d := |queue| - |rest|;
      assert rest == [rest[0]] + queue[d + 1..];
    }
  }

  lemma RestOfCons(rest: seq<Order>, queue: seq<Order>)
    requires queue != [] && RestOf(rest, queue[1..])
    ensures RestOf(rest, queue)
  {
    if rest != [] {
      assert queue[1..][|queue| - |rest|..] == queue[|queue| - |rest| + 1..];
    }
  }

  /** Matching leaves a suffix of the queue, and takes something whenever it can. */
  lemma {:induction false} ConsumeRest(queue: seq<Order>, left: int)
    requires QueueOk(queue) && left >= 0
    ensures var c := Consume(queue, left);
            && RestOf(c.rest, queue)
            && 0 <= c.left <= left
            && (c.rest == [] || c.left == 0)
            && (left > 0 && queue != [] ==> c.left < left)
  {
    if left > 0 && queue != [] && left >= queue[0].qty {
      QueueOkTail(queue);
      ConsumeRest(queue[1..], left - queue[0].qty);
      RestOfCons(Consume(queue, left).rest, queue);
    }
  }

  /** Matching conserves lots and fills only positive quantities. */
  lemma {:induction false} ConsumeTotals(queue: seq<Order>, left: int)
    requires QueueOk(queue) && left >= 0
    ensures var c := Consume(queue, left);
            && TradeTotal(c.trades) == left - c.left == QtyTotal(queue) - QtyTotal(c.rest)
            && (forall i :: 0 <= i < |c.trades| ==> c.trades[i].qty > 0)
  {
    if left > 0 && queue != [] && left >= queue[0].qty {
      QueueOkTail(queue);
      ConsumeTotals(queue[1..], left - queue[0].qty);
    }
  }

  /** `rest` is what is left of strategy orders taken from the front. */
  ghost predicate SuffixOf(rest: seq<PaperOrder>, orders: seq<PaperOrder>) {
    && |rest| <= |orders|
    && (rest != [] ==>
          var d := |orders| - |rest|;
          && rest[1..] == orders[d + 1..]
          && rest[0] == orders[d].(remaining := rest[0].remaining)
          && 0 < rest[0].remaining <= orders[d].remaining)
  }

  lemma PapersOkTail(orders: seq<PaperOrder>)
    requires PapersOk(orders) && orders != []
    ensures PapersOk(orders[1..])
  {
  }

  lemma {:induction false} RemainingPositive(orders: seq<PaperOrder>)
    requires PapersOk(orders)
    ensures RemainingTotal(orders) >= 0
    ensures orders != [] ==> RemainingTotal(orders) > 0
  {
    if orders != [] {
      PapersOkTail(orders);
      RemainingPositive(orders[1..]);
    }
  }

  lemma SuffixOfOk(rest: seq<PaperOrder>, orders: seq<PaperOrder>)
    requires PapersOk(orders) && SuffixOf(rest, orders)
    ensures PapersOk(rest)
  {
    if rest != [] {
      var d := |orders| - |rest|;
      assert rest == [rest[0]] + orders[d + 1..];
    }
  }

  lemma SuffixOfCons(rest: seq<PaperOrder>, orders: seq<PaperOrder>)
    requires orders != [] && SuffixOf(rest, orders[1..])
    ensures SuffixOf(rest, orders)
  {
    if rest != [] {
      assert orders[1..][|orders| - |rest|..] == orders[|orders| - |rest| + 1..];
    }
  }

  lemma {:induction false} ShadowRest(market: seq<Order>, pq: PaperQueue, traded: int, consumed: int)
    requires PapersOk(pq.orders)
    ensures var r := Shadow(market, pq, traded, consumed);
            SuffixOf(r.1.orders, pq.orders) && r.1.phantom == pq.phantom
    decreases |pq.orders|
  {
    if traded > 0 && pq.orders != [] {
      var p := pq.orders[0];
      var aheadMarket := Max(QtyBefore(market, p.placement) - consumed, 0);
      var t := traded - aheadMarket - pq.phantom;
      if t >= p.remaining {
        PapersOkTail(pq.orders);
        ShadowRest(market, pq.(orders := pq.orders[1..]), t - p.remaining, consumed + aheadMarket);
        SuffixOfCons(Shadow(market, pq, traded, consumed).1.orders, pq.orders);
      }
    }
  }

  /** Shadow fills at a level never exceed the lots traded there, nor a strategy order's remainder. */
  lemma {:induction false} ShadowBounded(market: seq<Order>, pq: PaperQueue, traded: int, consumed: int)
    requires PapersOk(pq.orders)
    ensures var r := Shadow(market, pq, traded, consumed);
            && 0 <= TradeTotal(r.0) <= Max(traded, 0)
            && TradeTotal(r.0) == RemainingTotal(pq.orders) - RemainingTotal(r.1.orders)
            && (forall i :: 0 <= i < |r.0| ==> r.0[i].qty > 0)
    decreases |pq.orders|
  {
    hide QtyBefore;
    if traded > 0 && pq.orders != [] {
      var p := pq.orders[0];
      var aheadMarket := Max(QtyBefore(market, p.placement) - consumed, 0);
      var t := traded - aheadMarket - pq.phantom;
      if t >= p.remaining {
        PapersOkTail(pq.orders);
        ShadowBounded(market, pq.(orders := pq.orders[1..]), t - p.remaining, consumed + aheadMarket);
      }
    }
  }

  lemma {:induction false} SweepRest(pq: PaperQueue, left: int)
    requires PapersOk(pq.orders) && left >= 0
    ensures var r := Sweep(pq, left);
            && SuffixOf(r.2.orders, pq.orders) && r.2.phantom >= pq.phantom
            && 0 <= r.1 <= left
            && (r.2.orders == [] || r.1 == 0)
            && (left > 0 && pq.orders != [] ==> r.1 < left)
    decreases |pq.orders|
  {
    if left > 0 && pq.orders != [] && left >= pq.orders[0].remaining {
      var p := pq.orders[0];
      PapersOkTail(pq.orders);
      SweepRest(PaperQueue(pq.orders[1..], pq.phantom + p.remaining), left - p.remaining);
      SuffixOfCons(Sweep(pq, left).2.orders, pq.orders);
    }
  }

  /** A direct sweep conserves lots; the lots of the orders it fills completely become phantom. */
  lemma {:induction false} SweepTotals(pq: PaperQueue, left: int)
    requires PapersOk(pq.orders) && left >= 0
    ensures var r := Sweep(pq, left);
            && |r.2.orders| <= |pq.orders|
            && TradeTotal(r.0) == left - r.1 == RemainingTotal(pq.orders) - RemainingTotal(r.2.orders)
            && (forall i :: 0 <= i < |r.0| ==> r.0[i].qty > 0)
            && r.2.phantom == pq.phantom + RemainingTotal(pq.orders[..|pq.orders| - |r.2.orders|])
    decreases |pq.orders|
  {
    if left > 0 && pq.orders != [] && left >= pq.orders[0].remaining {
      var p := pq.orders[0];
      var gone := PaperQueue(pq.orders[1..], pq.phantom + p.remaining);
      PapersOkTail(pq.orders);
      SweepTotals(gone, left - p.remaining);
      var n := |pq.orders| - |Sweep(pq, left).2.orders|;
      assert pq.orders[..n][1..] == gone.orders[..n - 1];
    } else {
      assert pq.orders[..0] == [];
    }
  }
}
