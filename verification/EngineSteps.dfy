/**
 * The steps of the engine's loops as facts about values: what one fill, one level or one index
 * update does to the state machine.
 */
module EngineSteps {
  import opened Types
  import opened PriceHeap
  import opened Fenwick
  import opened Level
  import opened PaperIndex
  import opened Book
  import opened BookInv
  import opened EngineRep

  /** A level after `remove_paper_order` took out the order at position `i`. */
  function Unlinked(level: PaperLevel, i: nat, paperIndex: nat, requested: int, remaining: int): PaperLevel
    requires i < |level.orders|
  {
    var lots := if requested <= 0 then remaining else requested;
    var level' := if lots <= 0 then level else Shifted(level, paperIndex, -Min(lots, remaining));
    level'.(orders := WithoutAt(level.orders, i))
  }

  lemma RequeueHist(s: State, side: Side, price: int, queue': seq<Order>)
    ensures Requeue(s, side, price, queue').hist == s.hist.With(side, PutQueue(s.hist.At(side), price, queue'))
    ensures Requeue(s, side, price, queue').seq_ == s.seq_
  {
  }

  lemma {:induction false} TradeLevelUnfold(s: State, e: Event, px: int, left: int)
    ensures var maker := e.side.Opposite();
            var queue := QueueAt(s.hist, maker, px);
            var c := Consume(queue, left);
            var sh := ShadowAt(Requeue(s, maker, px, c.rest), maker, px, queue, left - c.left, e);
            TradeLevel(s, e, px, left)
            == LevelOutcome(sh.0, FillsOf(s.seq_, maker, px, c.trades, e.id, e.source) + sh.1, c.left, c.rest != [])
  {
  }

  lemma {:induction false} NoMoreTrades(queue: seq<Order>, qty: int, rest: seq<Order>, left: int)
    requires QueueOk(queue) && RestOf(rest, queue) && ConsumeSplit(queue, qty, Consume(queue, qty).trades, rest, left)
    ensures Consume(queue, qty).rest == rest
  {
    assert Consume(rest, left).trades == [];
  }

  /** The next trade of a queue is a fill of its front order. */
  lemma {:induction false} SplitNext(queue: seq<Order>, qty: int, trades: seq<Trade>, j: nat, rest: seq<Order>,
                                     left: int)
    requires j < |trades| && Consume(queue, qty).trades == trades
    requires ConsumeSplit(queue, qty, trades[..j], rest, left)
    ensures left > 0 && rest != []
    ensures rest[0].qty > 0 ==> trades[j] == Trade(rest[0].id, rest[0].source, Min(rest[0].qty, left), rest[0].arrival)
  {
    var r := Consume(rest, left).trades;
    assert trades == trades[..j] + trades[j..];
    assert r == trades[j..] && r[0] == trades[j];
  }

  lemma ChangedFront(rest: seq<Order>, take: int)
    requires rest != []
    ensures Changed(rest, 0, -take)
         == if rest[0].qty - take == 0 then rest[1..] else rest[0 := rest[0].(qty := rest[0].qty - take)]
  {
    assert WithoutAt(rest, 0) == rest[1..];
  }

  /** One delta of the market index is one trade of the queue. */
  lemma {:induction false} DeltaStep(level: PaperLevel, pq: PaperQueue, queue: seq<Order>, qty: int, trades: seq<Trade>,
                                     j: nat, rest: seq<Order>, left: int, entries: map<int, PaperEntry>, clock: nat)
    requires QueueOk(queue) && RestOf(rest, queue) && FullRep(level, pq, rest, entries, clock)
    requires j < |trades| && Consume(queue, qty).trades == trades && ConsumeSplit(queue, qty, trades[..j], rest, left)
    ensures rest != []
    ensures var t := trades[j];
            var rest' := Changed(rest, 0, -t.qty);
            && RestOf(rest', queue)
            && FullRep(Adjusted(level, t.stamp, -t.qty), pq, rest', entries, clock)
            && ConsumeSplit(queue, qty, trades[..j + 1], rest', left - t.qty)
  {
    hide Consume, FullRep, RestOf, QueueOk, ConsumeSplit, Adjusted, Changed;
    SplitNext(queue, qty, trades, j, rest, left);
    ConsumeFront(queue, qty, trades[..j], rest, left);
    assert trades[..j + 1] == trades[..j] + [trades[j]];
    ChangedFront(rest, trades[j].qty);
    AdjustedFull(level, pq, rest, entries, clock, 0, -trades[j].qty);
  }

  /** An indexed historical order is found in the queue at its place. */
  lemma OrderFound(s: State, id: int, delta: int) returns (i: nat)
    requires Inv(s) && id in s.info
    ensures var loc := s.info[id];
            && loc.price in s.hist.At(loc.side)
            && var queue := s.hist.At(loc.side)[loc.price];
               && QueueAt(s.hist, loc.side, loc.price) == queue && QueueOk(queue)
               && i == IndexOf(queue, loc.arrival) < |queue|
               && queue[i].arrival == loc.arrival && queue[i].id == id
               && LiveQty(s, id) == queue[i].qty && LiveSource(s, id) == queue[i].source
    ensures var loc := s.info[id];
            ChangeQty(s, id, delta) == Requeue(s, loc.side, loc.price,
                                               Changed(s.hist.At(loc.side)[loc.price], i, delta))
  {
    var loc := s.info[id];
    assert InfoInv(s, id);
    assert LevelInv(s, loc.side, loc.price);
    var queue := s.hist.At(loc.side)[loc.price];
    i := IndexOf(queue, loc.arrival);
    var k :| 0 <= k < |queue| && queue[k].arrival == loc.arrival && queue[k].id == id;
    OneStamp(queue, i, k);
  }

  lemma RequeueParts(s: State, side: Side, price: int, queue': seq<Order>, heap: Heap)
    requires price in s.hist.At(side) && Covers(heap, s.hist.At(side), side)
    ensures var s' := Requeue(s, side, price, queue');
            && s'.hist == s.hist.With(side, PutQueue(s.hist.At(side), price, queue'))
            && s'.info == s.info - GoneIds(s.hist.At(side)[price], queue')
            && s'.nodes.Keys == s.nodes.Keys - GoneStamps(s.hist.At(side)[price], queue')
            && s'.paper == s.paper && s'.paperInfo == s.paperInfo && s'.clock == s.clock && s'.seq_ == s.seq_
            && Covers(heap, s'.hist.At(side), side)
            && s'.hist.At(side.Opposite()) == s.hist.At(side.Opposite())
  {
  }

  lemma ChangedGone(queue: seq<Order>, i: nat, delta: int)
    requires QueueOk(queue) && i < |queue|
    ensures GoneStamps(queue, Changed(queue, i, delta)) == if queue[i].qty + delta == 0 then {queue[i].arrival} else {}
    ensures GoneIds(queue, Changed(queue, i, delta)) == if queue[i].qty + delta == 0 then {queue[i].id} else {}
  {
    var queue' := Changed(queue, i, delta);
    forall j | 0 <= j < |queue| ensures queue[j].arrival in Stamps(queue') <==> !(queue[i].qty + delta == 0 && j == i) {
      ChangedStamp(queue, i, delta, j);
    }
    assert queue[i] in queue;
  }

  lemma ChangedStamp(queue: seq<Order>, i: nat, delta: int, j: nat)
    requires QueueOk(queue) && i < |queue| && j < |queue|
    ensures queue[j].arrival in Stamps(Changed(queue, i, delta)) <==> !(queue[i].qty + delta == 0 && j == i)
  {
    var queue' := Changed(queue, i, delta);
    if queue[i].qty + delta != 0 {
      assert queue'[j] in queue' && queue'[j].arrival == queue[j].arrival;
    } else if j != i {
      assert queue'[if j < i then j else j - 1] == queue[j];
    } else {
      forall o | o in queue' ensures o.arrival != queue[i].arrival {
        var k :| 0 <= k < |queue'| && queue'[k] == o;
        assert o == queue[if k < i then k else k + 1];
      }
    }
  }

  /** The market index of the paper level at a price, if there is one, follows a change. */
  function AdjustedLevels(levels: Levels, side: Side, price: int, stamp: nat, delta: int): Levels {
    if price in levels.At(side) then
      levels.With(side, levels.At(side)[price := Adjusted(levels.At(side)[price], stamp, delta)])
    else levels
  }

  /** The market index follows a quantity change. */
  lemma ChangedIndex(s: State, levels: Levels, entries: map<int, PaperEntry>, side: Side, price: int, i: nat,
                     delta: int)
    requires Inv(s) && Reps(levels, s.paper, s.hist, entries, s.clock) && price in s.hist.At(side)
    requires i < |s.hist.At(side)[price]|
    ensures var queue := s.hist.At(side)[price];
            var hist' := s.hist.With(side, PutQueue(s.hist.At(side), price, Changed(queue, i, delta)));
            Reps(AdjustedLevels(levels, side, price, queue[i].arrival, delta), s.paper, hist', entries, s.clock)
  {
    var queue := s.hist.At(side)[price];
    var queue' := Changed(queue, i, delta);
    var hist' := s.hist.With(side, PutQueue(s.hist.At(side), price, queue'));
    PutQueueAt(s.hist, side, price, queue');
    LevelsMatch(levels, s.paper, s.hist, entries, s.clock, side, price);
    hide Inv, Reps, FullRep, Changed, PutQueue;
    if price in levels.At(side) {
      AdjustedFull(levels.At(side)[price], s.paper.At(side)[price], queue, entries, s.clock, i, delta);
      ReindexLevel(levels, s.paper, s.hist, hist', entries, s.clock, s.clock, side, price,
                   Adjusted(levels.At(side)[price], queue[i].arrival, delta));
    } else {
      ReindexLevel(levels, s.paper, s.hist, hist', entries, s.clock, s.clock, side, price, EMPTY_LEVEL);
    }
  }

  lemma PutQueueAt(hist: Hist, side: Side, price: int, queue: seq<Order>)
    ensures var hist' := hist.With(side, PutQueue(hist.At(side), price, queue));
            && QueueAt(hist', side, price) == queue
            && forall d, q :: d != side || q != price ==> QueueAt(hist', d, q) == QueueAt(hist, d, q)
  {
  }

  /** The position of an id in a level. */
  function FindId(ids: seq<int>, id: int): (i: nat)
    ensures i <= |ids|
    ensures i < |ids| ==> ids[i] == id
  {
    if ids == [] || ids[0] == id then 0 else 1 + FindId(ids[1..], id)
  }

  lemma {:induction false} FindIdIsPosition(ids: seq<int>, orders: seq<PaperOrder>, id: int)
    requires |ids| == |orders|
    requires forall i :: 0 <= i < |ids| ==> ids[i] == orders[i].id
    ensures FindId(ids, id) == PositionOf(orders, id)
  {
    if ids != [] {
      FindIdIsPosition(ids[1..], orders[1..], id);
    }
  }

  /** An indexed strategy order is found in the level at its place. */
  lemma PaperFound(s: State, levels: Levels, hist: Hist, entries: map<int, PaperEntry>, id: int) returns (i: nat)
    requires Inv(s) && Reps(levels, s.paper, hist, entries, s.clock) && id in s.paperInfo
    ensures var place := s.paperInfo[id];
            && place.price in levels.At(place.side) && place.price in s.paper.At(place.side)
            && var level := levels.At(place.side)[place.price];
               var orders := s.paper.At(place.side)[place.price].orders;
               && i == PositionOf(orders, id) == FindId(level.orders, id)
               && i < |orders| == |level.orders| && orders[i].id == id
               && EntryRep(entries, orders[i]) && orders[i].remaining > 0
               && Remaining(s, id) == orders[i].remaining
  {
    var place := s.paperInfo[id];
    assert PaperInfoInv(s, id);
    assert PaperLevelInv(s, place.side, place.price);
    LevelsMatch(levels, s.paper, hist, entries, s.clock, place.side, place.price);
    var orders := s.paper.At(place.side)[place.price].orders;
    FindIdIsPosition(levels.At(place.side)[place.price].orders, orders, id);
    i := PositionOf(orders, id);
  }

  lemma RemovedIsUnlinked(level: PaperLevel, pq: PaperQueue, entries: map<int, PaperEntry>, i: nat)
    requires i < |pq.orders| && i < |level.orders| && EntryRep(entries, pq.orders[i]) && pq.orders[i].remaining > 0
    ensures var p := pq.orders[i];
            Unlinked(level, i, entries[p.id].paperIndex, p.remaining, p.remaining) == Removed(level, pq, entries, i)
  {
  }

  lemma SetRemainingAbsent(s: State, id: int, remaining: int)
    ensures id !in s.paperInfo ==> SetRemaining(s, id, remaining) == s
  {
  }

  lemma SetRemainingSame(s: State, id: int)
    requires Inv(s) && Remaining(s, id) > 0
    ensures SetRemaining(s, id, Remaining(s, id)) == s
  {
    var place := s.paperInfo[id];
    assert PaperInfoInv(s, id);
    var levels := s.paper.At(place.side);
    var pq := levels[place.price];
    var i := PositionOf(pq.orders, id);
    assert pq.orders[i := pq.orders[i].(remaining := pq.orders[i].remaining)] == pq.orders;
    assert levels[place.price := pq] == levels;
    assert s.paperInfo - {} == s.paperInfo;
  }

  lemma {:induction false} SweepStops(s: State, e: Event, limit: Option<int>, left: int)
    ensures var maker := e.side.Opposite();
            var best := BestPrice(s.paper.At(maker), maker);
            left <= 0 || best.None? || !Reaches(maker, limit, best.value) ==>
              SweepPapers(s, e, limit, left) == Outcome(s, [], left)
  {
  }

  lemma PaperKeys(levels: Levels, pqs: Queues, hist: Hist, entries: map<int, PaperEntry>, clock: nat, side: Side)
    requires Reps(levels, pqs, hist, entries, clock)
    ensures levels.At(side).Keys == pqs.At(side).Keys
  {
    forall price ensures price in levels.At(side).Keys <==> price in pqs.At(side).Keys {
      assert RepAt(levels, pqs, hist, entries, clock, side, price);
    }
  }

  lemma {:induction false} PositiveTotal(orders: seq<PaperOrder>)
    requires PapersOk(orders)
    ensures RemainingTotal(orders) >= 0 && (orders != [] ==> RemainingTotal(orders) > 0)
  {
    if orders != [] {
      PapersOkTail(orders);
      PositiveTotal(orders[1..]);
    }
  }

  /** Every stored paper level has lots queued. */
  lemma LotsQueued(s: State, levels: Levels, hist: Hist, entries: map<int, PaperEntry>, side: Side, price: int)
    requires Inv(s) && Reps(levels, s.paper, hist, entries, s.clock) && price in levels.At(side)
    ensures levels.At(side)[price].queuedLots > 0
  {
    LevelsMatch(levels, s.paper, hist, entries, s.clock, side, price);
    assert PaperLevelInv(s, side, price);
    PositiveTotal(s.paper.At(side)[price].orders);
  }

  /** One level of a sweep, and what remains of it. */
  lemma {:induction false} SweepUnfold(s: State, e: Event, limit: Option<int>, left: int)
    requires Inv(s) && left > 0
    requires var maker := e.side.Opposite();
             var best := BestPrice(s.paper.At(maker), maker);
             best.Some? && Reaches(maker, limit, best.value)
    ensures var maker := e.side.Opposite();
            var px := BestPrice(s.paper.At(maker), maker).value;
            var t := SweepLevel(s, e, px, left);
            var r := SweepPapers(t.state, e, limit, t.left);
            && px in s.paper.At(maker) && 0 <= t.left < left
            && SweepPapers(s, e, limit, left) == Outcome(r.state, t.records + r.records, r.left)
  {
    var maker := e.side.Opposite();
    var px := BestPrice(s.paper.At(maker), maker).value;
    SweepLevelInv(s, e, px, left);
    hide Inv, SweepLevel;
    var t := SweepLevel(s, e, px, left);
    if t.done {
      assert t.records + [] == t.records;
    }
  }

  /** A level after an order's lots went down. */
  function Reduced(level: PaperLevel, paperIndex: nat, qty: int): PaperLevel {
    level.(queuedLots := level.queuedLots - qty, paperQty := Added(level.paperQty, paperIndex, -qty))
  }

  ghost function AfterSweep(pq: PaperQueue, fillQty: int): PaperQueue
    requires pq.orders != []
  {
    var p := pq.orders[0];
    if fillQty < p.remaining then pq.(orders := pq.orders[0 := p.(remaining := p.remaining - fillQty)])
    else PhantomFront(pq)
  }

  lemma SweepStep(pq: PaperQueue, left: int)
    requires pq.orders != [] && left > 0
    ensures var p := pq.orders[0];
            var fillQty := Min(p.remaining, left);
            var s := Sweep(pq, left);
            var t := Sweep(AfterSweep(pq, fillQty), left - fillQty);
            s.0 == [Trade(p.id, Strategy, fillQty, p.placement)] + t.0 && s.1 == t.1 && s.2 == t.2
  {
    var p := pq.orders[0];
    if left < p.remaining {
      assert pq.orders[0 := p.(remaining := p.remaining - left)]
        == [p.(remaining := p.remaining - left)] + pq.orders[1..];
    }
  }

  /** What a sweep step does to an open level, as a value. */
  lemma OpenSweep(s: State, side: Side, price: int, pq: PaperQueue, level: PaperLevel, market: seq<Order>,
                  start: map<int, PaperEntry>, entries: map<int, PaperEntry>, info: map<int, Place>, fillQty: int)
    requires Inv(s) && OpenLevel(s, side, price, pq, level, market, start, entries, info)
    requires pq.orders != [] && level.orders != [] && level.orders[0] == pq.orders[0].id
             && EntryRep(entries, pq.orders[0])
    requires 0 < fillQty <= pq.orders[0].remaining
    ensures var id := level.orders[0];
            var entry := entries[id];
            if fillQty == entry.remaining then
              OpenLevel(s, side, price, AfterSweep(pq, fillQty), Unlinked(level, 0, entry.paperIndex, fillQty, 0),
                        market, start, entries - {id}, info - {id})
            else
              OpenLevel(s, side, price, AfterSweep(pq, fillQty), Reduced(level, entry.paperIndex, fillQty), market,
                        start, entries[id := entry.(remaining := entry.remaining - fillQty,
                                                    status := PartiallyFilled)], info)
  {
    hide Inv, OpenLevel;
    var p := pq.orders[0];
    var entry := entries[p.id];
    if fillQty < p.remaining {
      OpenResize(s, side, price, pq, level, market, start, entries, info, 0,
                 entry.(remaining := entry.remaining - fillQty, status := PartiallyFilled));
    } else {
      OpenPhantom(s, side, price, pq, level, market, start, entries, info);
      AddedZero(level.paperQty, entry.paperIndex);
      assert WithoutAt(level.orders, 0) == level.orders[1..];
    }
  }

  lemma {:induction false} SweepOver(s: State, side: Side, price: int, pq: PaperQueue, level: PaperLevel,
                                     market: seq<Order>, start: map<int, PaperEntry>, entries: map<int, PaperEntry>,
                                     info: map<int, Place>, left: int)
    requires OpenLevel(s, side, price, pq, level, market, start, entries, info)
    ensures level.orders == [] || left <= 0 ==> Sweep(pq, left) == ([], left, pq)
  {
  }

  lemma LevelsMatch(levels: Levels, pqs: Queues, hist: Hist, entries: map<int, PaperEntry>, clock: nat, side: Side,
                    price: int)
    requires Reps(levels, pqs, hist, entries, clock)
    ensures price in levels.At(side) <==> price in pqs.At(side)
    ensures price in levels.At(side) ==>
              FullRep(levels.At(side)[price], pqs.At(side)[price], QueueAt(hist, side, price), entries, clock)
  {
    assert RepAt(levels, pqs, hist, entries, clock, side, price);
  }

  lemma NoFills(seq_: nat, maker: Side, price: int, takerId: int, takerSource: Source)
    ensures FillsOf(seq_, maker, price, [], takerId, takerSource) == []
  {
  }

  lemma FillsAppend(seq_: nat, maker: Side, price: int, trades: seq<Trade>, t: Trade, takerId: int, takerSource: Source)
    ensures FillsOf(seq_, maker, price, trades + [t], takerId, takerSource)
         == FillsOf(seq_, maker, price, trades, takerId, takerSource)
           + [FillOf(seq_, maker, price, t, takerId, takerSource)]
  {
  }

  /** A walk with nothing left to give or to fill is over. */
  lemma {:induction false} WalkOver(s: State, side: Side, price: int, pq: PaperQueue, level: PaperLevel,
                                    market: seq<Order>, start: map<int, PaperEntry>, entries: map<int, PaperEntry>,
                                    info: map<int, Place>, left: int, consumed: int)
    requires OpenLevel(s, side, price, pq, level, market, start, entries, info)
    ensures level.orders == [] || left <= 0 ==> Shadow(market, pq, left, consumed) == ([], pq)
    ensures level.orders == [] <==> pq.orders == []
  {
  }

  lemma RepaperKeepsBook(s: State, side: Side, price: int, pq': PaperQueue)
    requires price in s.paper.At(side)
    ensures SameBook(s, Repaper(s, side, price, pq'))
  {
  }

  /** The queue after its front order is filled, completely or in part. */
  ghost function AfterFill(pq: PaperQueue, fillQty: int): PaperQueue
    requires pq.orders != []
  {
    var p := pq.orders[0];
    if fillQty < p.remaining then pq.(orders := pq.orders[0 := p.(remaining := p.remaining - fillQty)])
    else pq.(orders := WithoutAt(pq.orders, 0))
  }

  /** The shadow walk, one order at a time. */
  lemma ShadowStep(market: seq<Order>, pq: PaperQueue, traded: int, consumed: int)
    requires pq.orders != [] && traded > 0
    ensures var p := pq.orders[0];
            var aheadMarket := Max(QtyBefore(market, p.placement) - consumed, 0);
            var t := traded - aheadMarket - pq.phantom;
            var s := Shadow(market, pq, traded, consumed);
            if t <= 0 then s == ([], pq)
            else
              var fillQty := Min(p.remaining, t);
              var more := Shadow(market, AfterFill(pq, fillQty), t - fillQty, consumed + aheadMarket);
              s.0 == [Trade(p.id, Strategy, fillQty, p.placement)] + more.0 && s.1 == more.1
  {
    hide QtyBefore, AfterFill;
    var p := pq.orders[0];
    var aheadMarket := Max(QtyBefore(market, p.placement) - consumed, 0);
    var t := traded - aheadMarket - pq.phantom;
    if t > 0 {
      AfterFillForms(pq, Min(p.remaining, t));
      if t < p.remaining {
        NothingTraded(market, AfterFill(pq, t), consumed + aheadMarket);
      }
    }
  }

  lemma {:induction false} NothingTraded(market: seq<Order>, pq: PaperQueue, consumed: int)
    ensures Shadow(market, pq, 0, consumed) == ([], pq)
  {
  }

  lemma AfterFillForms(pq: PaperQueue, fillQty: int)
    requires pq.orders != []
    ensures var p := pq.orders[0];
            AfterFill(pq, fillQty) ==
            if fillQty < p.remaining then pq.(orders := [p.(remaining := p.remaining - fillQty)] + pq.orders[1..])
            else pq.(orders := pq.orders[1..])
  {
    assert WithoutAt(pq.orders, 0) == pq.orders[1..];
  }

  /** What `FillFront` does to an open level, as a value. */
  lemma OpenFill(s: State, side: Side, price: int, pq: PaperQueue, level: PaperLevel, market: seq<Order>,
                 start: map<int, PaperEntry>, entries: map<int, PaperEntry>, info: map<int, Place>, fillQty: int)
    requires Inv(s) && OpenLevel(s, side, price, pq, level, market, start, entries, info)
    requires pq.orders != [] && level.orders != [] && level.orders[0] == pq.orders[0].id
             && EntryRep(entries, pq.orders[0])
    requires 0 < fillQty <= pq.orders[0].remaining
    ensures var id := level.orders[0];
            var entry := entries[id];
            if fillQty == entry.remaining then
              OpenLevel(s, side, price, AfterFill(pq, fillQty),
                        Shifted(level, entry.paperIndex, -fillQty).(orders := WithoutAt(level.orders, 0)), market,
                        start, entries - {id}, info - {id})
            else
              OpenLevel(s, side, price, AfterFill(pq, fillQty), Shifted(level, entry.paperIndex, -fillQty), market,
                        start, entries[id := entry.(remaining := entry.remaining - fillQty,
                                                    status := PartiallyFilled)], info)
  {
    hide Inv, OpenLevel;
    var p := pq.orders[0];
    var entry := entries[p.id];
    if fillQty < p.remaining {
      OpenResize(s, side, price, pq, level, market, start, entries, info, 0,
                 entry.(remaining := entry.remaining - fillQty, status := PartiallyFilled));
    } else {
      OpenRemove(s, side, price, pq, level, market, start, entries, info, 0);
    }
  }

  /** What the engine can rely on for the front order of an open level. */
  lemma OpenFront(s: State, side: Side, price: int, pq: PaperQueue, level: PaperLevel, market: seq<Order>,
                  start: map<int, PaperEntry>, entries: map<int, PaperEntry>,
                  info: map<int, Place>) returns (p: PaperOrder)
    requires OpenLevel(s, side, price, pq, level, market, start, entries, info) && level.orders != []
    ensures pq.orders != [] && p == pq.orders[0] && p.remaining > 0
    ensures level.orders[0] == p.id && EntryRep(entries, p)
    ensures MarketRep(level, market)
    ensures entries[p.id].paperIndex < |level.paperQty|
    ensures SumOf(level.paperQty, entries[p.id].paperIndex) == pq.phantom
  {
    p := pq.orders[0];
    FrontAhead(level, pq, entries);
  }

  lemma {:induction false} AddedZeroFrom(tree: seq<int>, i: nat)
    requires i > 0
    ensures AddedFrom(tree, i, 0) == tree
    decreases |tree| - i
  {
    if i < |tree| {
      assert tree[i := tree[i] + 0] == tree;
      AddedZeroFrom(tree, i + LowBit(i));
    }
  }

  lemma AddedZero(tree: seq<int>, index: nat)
    ensures Added(tree, index, 0) == tree
  {
    AddedZeroFrom(tree, index + 1);
  }

  lemma FillOfTrade(seq_: nat, maker: Side, px: int, t: Trade, takerId: int, takerSource: Source)
    ensures FillOf(seq_, maker, px, t, takerId, takerSource)
         == Filled(Fill(seq_, px, t.qty, maker, t.id, t.source, takerId, takerSource))
  {
  }

  /** A queue of the book, and nothing gone from it yet. */
  lemma QueueFacts(s: State, side: Side, px: int)
    requires Inv(s) && px in s.hist.At(side)
    ensures var queue := QueueAt(s.hist, side, px);
            && queue == s.hist.At(side)[px] && QueueOk(queue) && RestOf(queue, queue) && queue != []
            && s.info - GoneIds(queue, queue) == s.info
            && s.nodes.Keys - GoneStamps(queue, queue) == s.nodes.Keys
    ensures forall qty :: ConsumeSplit(QueueAt(s.hist, side, px), qty, [], QueueAt(s.hist, side, px), qty)
  {
    var queue := QueueAt(s.hist, side, px);
    assert LevelInv(s, side, px);
    assert GoneIds(queue, queue) == {} && GoneStamps(queue, queue) == {};
  }

  /** So far `trades` have been made of `queue`; `rest` and `left` are still ahead. */
  ghost predicate ConsumeSplit(queue: seq<Order>, qty: int, trades: seq<Trade>, rest: seq<Order>, left: int) {
    var c := Consume(queue, qty);
    var r := Consume(rest, left);
    c.trades == trades + r.trades && c.left == r.left && c.rest == r.rest
  }

  lemma WholeQueue(queue: seq<Order>, qty: int)
    requires QueueOk(queue)
    ensures RestOf(queue, queue) && ConsumeSplit(queue, qty, [], queue, qty)
  {
  }

  lemma {:induction false} ConsumeOver(queue: seq<Order>, qty: int, trades: seq<Trade>, rest: seq<Order>, left: int)
    requires ConsumeSplit(queue, qty, trades, rest, left)
    requires left <= 0 || rest == []
    ensures Consume(queue, qty) == Consumed(trades, left, rest)
  {
  }

  /** One fill of a queue: what is ahead, and what has gone. */
  lemma ConsumeFront(queue: seq<Order>, qty: int, trades: seq<Trade>, rest: seq<Order>, left: int)
    requires QueueOk(queue) && RestOf(rest, queue) && ConsumeSplit(queue, qty, trades, rest, left)
    requires left > 0 && rest != []
    ensures rest[0].qty > 0
    ensures var node := rest[0];
            var take := Min(node.qty, left);
            var rest' := if node.qty - take == 0 then rest[1..] else rest[0 := node.(qty := node.qty - take)];
            && RestOf(rest', queue)
            && ConsumeSplit(queue, qty, trades + [Trade(node.id, node.source, take, node.arrival)], rest', left - take)
            && GoneIds(queue, rest') == GoneIds(queue, rest) + (if node.qty - take == 0 then {node.id} else {})
            && GoneStamps(queue, rest') == GoneStamps(queue, rest)
               + (if node.qty - take == 0 then {node.arrival} else {})
  {
    var node := rest[0];
    var take := Min(node.qty, left);
    ConsumeFrontSplit(queue, qty, trades, rest, left);
    if node.qty - take == 0 {
      RestTail(queue, rest);
      GoneNext(queue, rest);
    } else {
      RestReduced(queue, rest, take);
      SameStamps(rest, take);
    }
  }

  lemma SameStamps(rest: seq<Order>, take: int)
    requires rest != []
    ensures Stamps(rest[0 := rest[0].(qty := rest[0].qty - take)]) == Stamps(rest)
  {
    var rest' := rest[0 := rest[0].(qty := rest[0].qty - take)];
    forall x | x in Stamps(rest) ensures x in Stamps(rest') {
      var k :| 0 <= k < |rest| && rest[k].arrival == x;
      assert rest'[k] in rest' && rest'[k].arrival == x;
    }
    forall x | x in Stamps(rest') ensures x in Stamps(rest) {
      var k :| 0 <= k < |rest'| && rest'[k].arrival == x;
      assert rest[k] in rest && rest[k].arrival == x;
    }
  }

  lemma ConsumeFrontSplit(queue: seq<Order>, qty: int, trades: seq<Trade>, rest: seq<Order>, left: int)
    requires ConsumeSplit(queue, qty, trades, rest, left) && left > 0 && rest != [] && rest[0].qty > 0
    ensures var node := rest[0];
            var take := Min(node.qty, left);
            var rest' := if node.qty - take == 0 then rest[1..] else rest[0 := node.(qty := node.qty - take)];
            ConsumeSplit(queue, qty, trades + [Trade(node.id, node.source, take, node.arrival)], rest', left - take)
  {
    var node := rest[0];
    var take := Min(node.qty, left);
    var trade := Trade(node.id, node.source, take, node.arrival);
    var rest' := if node.qty - take == 0 then rest[1..] else rest[0 := node.(qty := node.qty - take)];
    ConsumeOne(rest, left);
    var c := Consume(queue, qty);
    var more := Consume(rest', left - take);
    hide Consume;
    assert trades + ([trade] + more.trades) == (trades + [trade]) + more.trades;
  }

  lemma ConsumeOne(rest: seq<Order>, left: int)
    requires left > 0 && rest != [] && rest[0].qty > 0
    ensures var node := rest[0];
            var take := Min(node.qty, left);
            var rest' := if node.qty - take == 0 then rest[1..] else rest[0 := node.(qty := node.qty - take)];
            var more := Consume(rest', left - take);
            Consume(rest, left)
            == Consumed([Trade(node.id, node.source, take, node.arrival)] + more.trades, more.left, more.rest)
  {
    var node := rest[0];
    if left < node.qty {
      assert rest[0 := node.(qty := node.qty - left)] == [node.(qty := node.qty - left)] + rest[1..];
    }
  }

  lemma RestTail(queue: seq<Order>, rest: seq<Order>)
    requires QueueOk(queue) && RestOf(rest, queue) && rest != []
    ensures RestOf(rest[1..], queue)
  {
    var d := |queue| - |rest|;
    if |rest| > 1 {
      assert rest[1..][1..] == queue[d + 1..][1..] == queue[d + 2..];
      assert rest[1..][0] == queue[d + 1..][0] == queue[d + 1];
    }
  }

  lemma RestReduced(queue: seq<Order>, rest: seq<Order>, take: int)
    requires RestOf(rest, queue) && rest != [] && 0 < take < rest[0].qty
    ensures RestOf(rest[0 := rest[0].(qty := rest[0].qty - take)], queue)
  {
    assert rest[0 := rest[0].(qty := rest[0].qty - take)][1..] == rest[1..];
  }

  /** Dropping the front of what is left loses exactly that order. */
  lemma GoneNext(queue: seq<Order>, rest: seq<Order>)
    requires QueueOk(queue) && RestOf(rest, queue) && rest != []
    ensures GoneIds(queue, rest[1..]) == GoneIds(queue, rest) + {rest[0].id}
    ensures GoneStamps(queue, rest[1..]) == GoneStamps(queue, rest) + {rest[0].arrival}
  {
    var d := |queue| - |rest|;
    assert queue[d] in queue && queue[d].arrival == rest[0].arrival && queue[d].id == rest[0].id;
    RestOfOk(rest, queue);
    StampsTail(rest);
    forall o | o in queue && o.arrival == rest[0].arrival ensures o == queue[d] {
      var j :| 0 <= j < |queue| && queue[j] == o;
      OneStamp(queue, j, d);
    }
  }

  lemma StampsTail(rest: seq<Order>)
    requires QueueOk(rest) && rest != []
    ensures Stamps(rest) == Stamps(rest[1..]) + {rest[0].arrival}
    ensures rest[0].arrival !in Stamps(rest[1..])
  {
    assert rest == [rest[0]] + rest[1..];
  }
}
