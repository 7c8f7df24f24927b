/** The single-book engine as the source has it: mutable maps, lazy heaps, node pools, nested loops. */
module Simulator {
  import opened Types
  import opened PriceHeap
  import opened Fenwick
  import opened Level
  import opened PaperIndex
  import opened Book
  import opened BookInv
  import opened EngineRep
  import opened EngineSteps
  import opened EngineMatch
  import opened Snapshot
  import opened SnapshotRows
  import NodePool

  class PaperTradingSimulator {
    const caps: Caps
    const orderPool: NodePool.Pool<nat>
    const paperPool: NodePool.Pool<int>

    var seq_: nat
    var orderArrivalSeq: nat
    var book: Sides<map<int, seq<Order>>>
    var heap: Sides<Heap>
    var orderInfo: map<int, Loc>
    var paperOrders: map<int, PaperEntry>
    var paperOrderInfo: map<int, Place>
    var paper: Sides<map<int, PaperLevel>>
    /** What the engine told its sink. */
    var log: seq<Record>

    /** The state of the engine as a value. */
    ghost var st: State
    /** The historical book as the paper levels' market indices see it; during a trade it lags. */
    ghost var indexed: Sides<map<int, seq<Order>>>

    /** The historical half: book, index, heaps, counters and node pool. */
    ghost predicate HistCore()
      reads this, orderPool
    {
      && book == st.hist && orderInfo == st.info
      && orderArrivalSeq == st.clock && seq_ == st.seq_
      && Covers(heap.sell, book.sell, Sell) && Covers(heap.buy, book.buy, Buy)
      && orderPool.Valid() && orderPool.Owners() == st.nodes.Keys
      && |orderPool.slots| <= caps.historical
    }

    /** The strategy half: paper levels, order records, index and node pool. */
    ghost predicate PaperCore()
      reads this, paperPool
    {
      && Reps(paper, st.paper, indexed, paperOrders, st.clock)
      && paperOrders.Keys == st.paperInfo.Keys && paperOrderInfo == st.paperInfo
      && paperPool.Valid() && paperPool.Owners() == st.paperInfo.Keys
      && |paperPool.slots| <= caps.paper
    }

    ghost predicate Core()
      reads this, orderPool, paperPool
    {
      Inv(st) && HistCore() && PaperCore()
    }

    ghost predicate Valid()
      reads this, orderPool, paperPool
    {
      Core() && indexed == st.hist
    }

    constructor (caps: Caps)
      ensures Valid() && st == EMPTY && log == [] && this.caps == caps
      ensures fresh(orderPool) && fresh(paperPool)
    {
      hide Inv, FullRep, NodePool.Pool.Valid;
      this.caps := caps;
      orderPool := new NodePool.Pool();
      paperPool := new NodePool.Pool();
      seq_, orderArrivalSeq := 0, 0;
      book, heap := Sides(map[], map[]), Sides([], []);
      orderInfo, paperOrders, paperOrderInfo := map[], map[], map[];
      paper := Sides(map[], map[]);
      log := [];
      st := EMPTY;
      indexed := Sides(map[], map[]);
      new;
      EmptyInv();
    }

    // ---- strategy orders leave ----------------------------------------------------------------

    /**
     * Takes the order at position `i` out of a level and off all indices. The level is a value that
     * the caller has taken out of the map.
     */
    method RemovePaperOrder(level: PaperLevel, i: nat, requested: int) returns (rest: PaperLevel)
      requires i < |level.orders| && level.orders[i] in paperOrders
      requires paperPool.Valid()
      modifies this`paperOrders, this`paperOrderInfo, paperPool
      ensures var id := level.orders[i];
              var entry := old(paperOrders)[id];
              && rest == Unlinked(level, i, entry.paperIndex, requested, entry.remaining)
              && paperOrders == old(paperOrders) - {id}
              && paperOrderInfo == old(paperOrderInfo) - {id}
              && paperPool.Valid() && paperPool.Owners() == old(paperPool.Owners()) - {id}
              && |paperPool.slots| == |old(paperPool.slots)|
    {
      hide Added, NodePool.Pool.Valid;
      var id := level.orders[i];
      var order := paperOrders[id];
      var removedQty := requested;
      if removedQty <= 0 {
        removedQty := order.remaining;
      }
      rest := level;
      if removedQty > 0 {
        removedQty := Min(removedQty, order.remaining);
        rest := rest.(
          queuedLots := rest.queuedLots - removedQty,
          paperQty := Added(rest.paperQty, order.paperIndex, -removedQty));
      }
      rest := rest.(orders := WithoutAt(rest.orders, i));
      paperOrderInfo := paperOrderInfo - {id};
      paperOrders := paperOrders - {id};
      paperPool.Release(id);
    }

    /** A level has been taken out for a change; the ghost state still shows it as it was. */
    ghost predicate OpenCore(side: Side, price: int, level: PaperLevel, pq: PaperQueue, start: map<int, PaperEntry>)
      reads this, paperPool
    {
      && Inv(st) && Reps(paper, st.paper, indexed, start, st.clock)
      && OpenLevel(st, side, price, pq, level, QueueAt(indexed, side, price), start, paperOrders, paperOrderInfo)
      && paperPool.Valid() && paperPool.Owners() == paperOrderInfo.Keys
      && |paperPool.slots| <= caps.paper
    }

    /** Puts an open level back: the ghost state catches up. */
    method PutBack(side: Side, price: int, level: PaperLevel, ghost pq: PaperQueue, ghost start: map<int, PaperEntry>)
      requires OpenCore(side, price, level, pq, start)
      modifies this`paper, this`st
      ensures price in old(st).paper.At(side)
      ensures st == Repaper(old(st), side, price, pq) && Inv(st) && PaperCore()
    {
      hide Inv, Reps, OpenLevel, Repaper, PutLevel, QueueAt, NodePool.Pool.Valid;
      OpenEnd(st, paper, indexed, side, price, pq, level, start, paperOrders, paperOrderInfo);
      paper := paper.With(side, PutLevel(paper.At(side), price, level));
      st := Repaper(st, side, price, pq);
    }

    /** The opposite of putting back. */
    lemma TakeOut(side: Side, price: int)
      requires Inv(st) && PaperCore() && price in paper.At(side)
      ensures price in st.paper.At(side)
      ensures OpenCore(side, price, paper.At(side)[price], st.paper.At(side)[price], paperOrders)
    {
      hide Reps, OpenLevel, NodePool.Pool.Valid;
      OpenStart(st, paper, indexed, paperOrders, side, price);
    }

    // ---- shadow fills -------------------------------------------------------------------------

    /** The order at the front of an open level is filled, completely or in part. */
    method FillFront(level: PaperLevel, fillQty: int) returns (rest: PaperLevel)
      requires level.orders != [] && level.orders[0] in paperOrders
      requires paperPool.Valid()
      requires 0 < fillQty <= paperOrders[level.orders[0]].remaining
      modifies this`paperOrders, this`paperOrderInfo, paperPool
      ensures var id := level.orders[0];
              var entry := old(paperOrders)[id];
              && paperPool.Valid() && |paperPool.slots| == |old(paperPool.slots)|
              && (if fillQty == entry.remaining then
                    && rest == Shifted(level, entry.paperIndex, -fillQty).(orders := WithoutAt(level.orders, 0))
                    && paperOrders == old(paperOrders) - {id}
                    && paperOrderInfo == old(paperOrderInfo) - {id}
                    && paperPool.Owners() == old(paperPool.Owners()) - {id}
                  else
                    && rest == Shifted(level, entry.paperIndex, -fillQty)
                    && paperOrders == old(paperOrders)[id := entry.(remaining := entry.remaining - fillQty,
                                                                    status := PartiallyFilled)]
                    && paperOrderInfo == old(paperOrderInfo)
                    && paperPool.Owners() == old(paperPool.Owners()))
    {
      hide Added, NodePool.Pool.Valid;
      var id := level.orders[0];
      var order := paperOrders[id];
      if fillQty < order.remaining {
        rest := level.(
          queuedLots := level.queuedLots - fillQty,
          paperQty := Added(level.paperQty, order.paperIndex, -fillQty));
        paperOrders := paperOrders[id := order.(remaining := order.remaining - fillQty, status := PartiallyFilled)];
      } else {
        rest := RemovePaperOrder(level, 0, fillQty);
      }
    }

    /** One step of the shadow walk: the front order of the level waits, or is filled. */
    method ShadowFront(side: Side, price: int, level: PaperLevel, tradeLots: int, consumed: int, aggressor: Event,
                       ghost pq: PaperQueue, ghost start: map<int, PaperEntry>)
      returns (rest: PaperLevel, left: int, passed: int, blocked: bool, ghost pq': PaperQueue, ghost trade: Trade)
      requires OpenCore(side, price, level, pq, start) && level.orders != [] && tradeLots > 0
      modifies this`paperOrders, this`paperOrderInfo, this`log, paperPool
      ensures OpenCore(side, price, rest, pq', start)
      ensures blocked ==> rest == level && pq' == pq && log == old(log)
      ensures blocked ==> Shadow(QueueAt(indexed, side, price), pq, tradeLots, consumed) == ([], pq)
      ensures !blocked ==>
                log == old(log) + [FillOf(seq_, side, price, trade, ShadowTaker(aggressor), aggressor.source)]
      ensures !blocked ==>
                var s := Shadow(QueueAt(indexed, side, price), pq, tradeLots, consumed);
                var t := Shadow(QueueAt(indexed, side, price), pq', left, passed);
                s.0 == [trade] + t.0 && s.1 == t.1
      ensures !blocked ==> left < tradeLots && (left == 0 || rest.orders == level.orders[1..])
    {
      hide Inv, Reps, OpenLevel, NodePool.Pool.Valid, Shadow, SumOf, QtyBefore, Removed, AfterFill, MarketRep,
           QueueAt;
      ghost var market := QueueAt(indexed, side, price);
      ghost var p := OpenFront(st, side, price, pq, level, market, start, paperOrders, paperOrderInfo);
      rest, left, passed, blocked, pq' := level, tradeLots, consumed, true, pq;
      var id := level.orders[0];
      var order := paperOrders[id];
      var totalMarketAhead := MarketAhead(level, order.placement, market);
      var aheadMarket := if totalMarketAhead > consumed then totalMarketAhead - consumed else 0;
      var aheadPaper := Query(level.paperQty, order.paperIndex);
      var queueAhead := aheadMarket + aheadPaper;
      ShadowStep(market, pq, tradeLots, consumed);
      trade := Trade(id, Strategy, 0, order.placement);
      if queueAhead >= tradeLots {
        return;
      }
      blocked := false;
      left := tradeLots - queueAhead;
      passed := consumed + aheadMarket;
      var fillQty := Min(order.remaining, left);
      trade := Trade(id, Strategy, fillQty, order.placement);
      log := log + [Filled(Fill(seq_, price, fillQty, side, id, Strategy, ShadowTaker(aggressor), aggressor.source))];
      left := left - fillQty;
      OpenFill(st, side, price, pq, level, market, start, paperOrders, paperOrderInfo, fillQty);
      rest := FillFront(level, fillQty);
      pq' := AfterFill(pq, fillQty);
    }

    /**
     * A trade of `tradeLots` happened at a price: the strategy orders waiting there are filled by
     * what would have reached them. The walk never leaves the front of the level before it ends.
     */
    method ApplyPaperTradeAtLevel(side: Side, price: int, tradeLots: int, aggressor: Event)
      requires Core()
      modifies this`paperOrders, this`paperOrderInfo, this`paper, this`log, this`st, paperPool
      ensures Core()
      ensures var sh := ShadowAt(old(st), side, price, QueueAt(indexed, side, price), tradeLots, aggressor);
              st == sh.0 && log == old(log) + sh.1
    {
      hide Inv, Reps, OpenLevel, NodePool.Pool.Valid, Shadow, Covers, Repaper, FillsOf, QueueAt, FillOf, FullRep;
      LevelsMatch(paper, st.paper, indexed, paperOrders, st.clock, side, price);
      if tradeLots <= 0 || price !in paper.At(side) {
        return;
      }
      ghost var start := paperOrders;
      TakeOut(side, price);
      var level;
      ghost var pq;
      level, pq := ShadowWalk(side, price, paper.At(side)[price], tradeLots, aggressor, st.paper.At(side)[price],
                              start);
      PutBack(side, price, level, pq, start);
      RepaperKeepsBook(old(st), side, price, pq);
    }

    /** The walk itself, on a level that has been taken out. */
    method ShadowWalk(side: Side, price: int, open: PaperLevel, tradeLots: int, aggressor: Event,
                      ghost pq0: PaperQueue, ghost start: map<int, PaperEntry>)
      returns (level: PaperLevel, ghost pq: PaperQueue)
      requires OpenCore(side, price, open, pq0, start) && tradeLots > 0
      modifies this`paperOrders, this`paperOrderInfo, this`log, paperPool
      ensures OpenCore(side, price, level, pq, start)
      ensures var sh := Shadow(QueueAt(indexed, side, price), pq0, tradeLots, 0);
              pq == sh.1 && log == old(log) + FillsOf(seq_, side, price, sh.0, ShadowTaker(aggressor), aggressor.source)
    {
      hide Inv, Reps, OpenLevel, NodePool.Pool.Valid, Shadow, FillsOf, QueueAt, FillOf;
      ghost var market := QueueAt(indexed, side, price);
      ghost var trades: seq<Trade> := [];
      level, pq := open, pq0;
      NoFills(seq_, side, price, ShadowTaker(aggressor), aggressor.source);
      var left, consumed := tradeLots, 0;
      while level.orders != [] && left > 0
        modifies this`paperOrders, this`paperOrderInfo, this`log, paperPool
        invariant OpenCore(side, price, level, pq, start)
        invariant log == old(log) + FillsOf(seq_, side, price, trades, ShadowTaker(aggressor), aggressor.source)
        invariant Shadow(market, pq0, tradeLots, 0).0 == trades + Shadow(market, pq, left, consumed).0
        invariant Shadow(market, pq0, tradeLots, 0).1 == Shadow(market, pq, left, consumed).1
        decreases left
      {
        var blocked;
        ghost var trade;
        level, left, consumed, blocked, pq, trade := ShadowFront(side, price, level, left, consumed, aggressor, pq,
                                                                 start);
        if blocked {
          break;
        }
        FillsAppend(seq_, side, price, trades, trade, ShadowTaker(aggressor), aggressor.source);
        trades := trades + [trade];
      }
      WalkOver(st, side, price, pq, level, market, start, paperOrders, paperOrderInfo, left, consumed);
      assert trades + [] == trades;
    }

    // ---- direct sweeps ------------------------------------------------------------------------

    /** One step of a direct sweep: the front order of the level is filled as far as it goes. */
    method SweepFront(side: Side, price: int, level: PaperLevel, tradeLots: int, aggressor: Event,
                      ghost pq: PaperQueue, ghost start: map<int, PaperEntry>)
      returns (rest: PaperLevel, fillQty: int, ghost pq': PaperQueue, ghost trade: Trade)
      requires OpenCore(side, price, level, pq, start) && level.orders != [] && tradeLots > 0
      modifies this`paperOrders, this`paperOrderInfo, this`log, paperPool
      ensures OpenCore(side, price, rest, pq', start)
      ensures log == old(log) + [FillOf(seq_, side, price, trade, aggressor.id, aggressor.source)]
      ensures 0 < fillQty <= tradeLots
      ensures var s := Sweep(pq, tradeLots);
              var t := Sweep(pq', tradeLots - fillQty);
              s.0 == [trade] + t.0 && s.1 == t.1 && s.2 == t.2
    {
      hide Inv, Reps, OpenLevel, NodePool.Pool.Valid, Sweep, SumOf, Removed, Shifted;
      ghost var market := QueueAt(indexed, side, price);
      ghost var p := OpenFront(st, side, price, pq, level, market, start, paperOrders, paperOrderInfo);
      var id := level.orders[0];
      var order := paperOrders[id];
      fillQty := Min(order.remaining, tradeLots);
      trade := Trade(id, Strategy, fillQty, order.placement);
      log := log + [Filled(Fill(seq_, price, fillQty, side, id, Strategy, aggressor.id, aggressor.source))];
      SweepStep(pq, tradeLots);
      OpenSweep(st, side, price, pq, level, market, start, paperOrders, paperOrderInfo, fillQty);
      order := order.(remaining := order.remaining - fillQty);
      paperOrders := paperOrders[id := order];
      if order.remaining == 0 {
        // The remainder has been lowered already, so the removal takes no lots off the level.
        rest := RemovePaperOrder(level, 0, fillQty);
        assert paperOrders == old(paperOrders) - {id};
      } else {
        paperOrders := paperOrders[id := order.(status := PartiallyFilled)];
        assert paperOrders == old(paperOrders)[id := order.(status := PartiallyFilled)];
        rest := Reduced(level, order.paperIndex, fillQty);
      }
      pq' := AfterSweep(pq, fillQty);
    }

    /** An aggressor takes the strategy orders of one level directly. */
    method TradeAgainstPaperLevel(side: Side, price: int, tradeLots: int, aggressor: Event) returns (consumed: int)
      requires Core() && side == aggressor.side.Opposite() && tradeLots > 0 && price in paper.At(side)
      modifies this`paperOrders, this`paperOrderInfo, this`paper, this`log, this`st, paperPool
      ensures Core()
      ensures price in old(st).paper.At(side)
      ensures var t := SweepLevel(old(st), aggressor, price, tradeLots);
              st == t.state && log == old(log) + t.records && consumed == tradeLots - t.left
    {
      hide Inv, Reps, OpenLevel, NodePool.Pool.Valid, Sweep, Covers, Repaper, FillsOf, QueueAt;
      LevelsMatch(paper, st.paper, indexed, paperOrders, st.clock, side, price);
      ghost var start := paperOrders;
      TakeOut(side, price);
      var level;
      ghost var pq;
      level, consumed, pq := SweepWalk(side, price, paper.At(side)[price], tradeLots, aggressor,
                                       st.paper.At(side)[price], start);
      PutBack(side, price, level, pq, start);
      RepaperKeepsBook(old(st), side, price, pq);
    }

    /** The sweep itself, on a level that has been taken out. */
    method SweepWalk(side: Side, price: int, open: PaperLevel, tradeLots: int, aggressor: Event,
                     ghost pq0: PaperQueue, ghost start: map<int, PaperEntry>)
      returns (level: PaperLevel, consumed: int, ghost pq: PaperQueue)
      requires OpenCore(side, price, open, pq0, start) && tradeLots > 0
      modifies this`paperOrders, this`paperOrderInfo, this`log, paperPool
      ensures OpenCore(side, price, level, pq, start)
      ensures var r := Sweep(pq0, tradeLots);
              && pq == r.2 && consumed == tradeLots - r.1
              && log == old(log) + FillsOf(seq_, side, price, r.0, aggressor.id, aggressor.source)
    {
      hide Inv, Reps, OpenLevel, NodePool.Pool.Valid, Sweep, FillsOf, QueueAt;
      ghost var trades: seq<Trade> := [];
      level, pq := open, pq0;
      NoFills(seq_, side, price, aggressor.id, aggressor.source);
      consumed := 0;
      var left := tradeLots;
      while left > 0 && level.orders != []
        modifies this`paperOrders, this`paperOrderInfo, this`log, paperPool
        invariant OpenCore(side, price, level, pq, start)
        invariant consumed == tradeLots - left
        invariant log == old(log) + FillsOf(seq_, side, price, trades, aggressor.id, aggressor.source)
        invariant Sweep(pq0, tradeLots).0 == trades + Sweep(pq, left).0
        invariant Sweep(pq0, tradeLots).1 == Sweep(pq, left).1 && Sweep(pq0, tradeLots).2 == Sweep(pq, left).2
        decreases left
      {
        var fillQty;
        ghost var trade;
        level, fillQty, pq, trade := SweepFront(side, price, level, left, aggressor, pq, start);
        left := left - fillQty;
        consumed := consumed + fillQty;
        FillsAppend(seq_, side, price, trades, trade, aggressor.id, aggressor.source);
        trades := trades + [trade];
      }
      SweepOver(st, side, price, pq, level, QueueAt(indexed, side, price), start, paperOrders, paperOrderInfo, left);
      assert trades + [] == trades;
    }

    /** The best price on a side at which strategy orders rest, found by looking at every level. */
    method BestPaperOppositePrice(side: Side) returns (best: Option<int>)
      requires Core()
      ensures best == BestPrice(st.paper.At(side), side)
      ensures best.Some? ==> best.value in paper.At(side)
    {
      hide Inv, NodePool.Pool.Valid, Covers;
      var levels := paper.At(side);
      PaperKeys(paper, st.paper, indexed, paperOrders, st.clock, side);
      var keys := levels.Keys;
      best := None;
      while true
        invariant keys <= levels.Keys
        invariant best.None? ==> forall q :: q in levels ==> q in keys
        invariant best.Some? ==> IsBest(best.value, levels.Keys - keys, side)
        decreases |keys|
      {
        if px :| px in keys {
          keys := keys - {px};
          LotsQueued(st, paper, indexed, paperOrders, side, px);
          if levels[px].queuedLots <= 0 {
            assert false;
          }
          if best.None? || Rank(side, px) > Rank(side, best.value) {
            best := Some(px);
          }
        } else {
          break;
        }
      }
      if best.Some? {
        assert IsBest(best.value, levels.Keys, side);
        BestUnique(best.value, levels.Keys, side);
      }
    }

    /** The aggressor sweeps strategy orders while they cross its limit, if it has one. */
    method SweepPaperLevels(e: Event, limit: Option<int>, qty: int) returns (left: int)
      requires Core() && qty >= 0
      modifies this`paperOrders, this`paperOrderInfo, this`paper, this`log, this`st, paperPool
      ensures Core()
      ensures var r := SweepPapers(old(st), e, limit, qty);
              st == r.state && log == old(log) + r.records && left == r.left
    {
      hide Inv, HistCore, PaperCore, NodePool.Pool.Valid, SweepLevel, SweepPapers;
      var maker := e.side.Opposite();
      left := qty;
      ghost var st0 := st;
      ghost var records: seq<Record> := [];
      while left > 0
        modifies this`paperOrders, this`paperOrderInfo, this`paper, this`log, this`st, paperPool
        invariant Core() && left >= 0
        invariant log == old(log) + records
        invariant SweepPapers(st0, e, limit, qty) ==
                  var r := SweepPapers(st, e, limit, left); Outcome(r.state, records + r.records, r.left)
        decreases left
      {
        var best := BestPaperOppositePrice(maker);
        if best.None? {
          break;
        }
        var stillCrosses := limit.None? || Crosses(maker, limit.value, best.value);
        if !stillCrosses {
          break;
        }
        ghost var before := st;
        var traded := TradeAgainstPaperLevel(maker, best.value, left, e);
        SweepUnfold(before, e, limit, left);
        if traded <= 0 {
          assert false;
        }
        left := left - traded;
        records := records + SweepLevel(before, e, best.value, left + traded).records;
      }
      SweepStops(st, e, limit, left);
      assert records + [] == records;
    }

    // ---- cancels and resizes of strategy orders -----------------------------------------------

    /** Cancels a resting strategy order; its level goes with the last one. */
    method CancelPaperOrder(id: int)
      requires Core() && id in paperOrderInfo
      modifies this`paperOrders, this`paperOrderInfo, this`paper, this`st, paperPool
      ensures Core() && st == SetRemaining(old(st), id, 0)
    {
      hide Inv, Reps, OpenLevel, NodePool.Pool.Valid, Covers, Repaper, QueueAt, Removed;
      var info := paperOrderInfo[id];
      ghost var i0 := PaperFound(st, paper, indexed, paperOrders, id);
      var level := paper.At(info.side)[info.price];
      var i := FindId(level.orders, id);
      ghost var start := paperOrders;
      ghost var pq := st.paper.At(info.side)[info.price];
      TakeOut(info.side, info.price);
      OpenRemove(st, info.side, info.price, pq, level, QueueAt(indexed, info.side, info.price), start, paperOrders,
                 paperOrderInfo, i);
      RemovedIsUnlinked(level, pq, paperOrders, i);
      var rest := RemovePaperOrder(level, i, paperOrders[id].remaining);
      PutBack(info.side, info.price, rest, pq.(orders := WithoutAt(pq.orders, i)), start);
      RepaperKeepsBook(old(st), info.side, info.price, pq.(orders := WithoutAt(pq.orders, i)));
    }

    /** Gives a resting strategy order another positive remainder, up or down, in place. */
    method ResizePaperOrder(id: int, remaining: int)
      requires Core() && id in paperOrderInfo && remaining > 0
      modifies this`paperOrders, this`paperOrderInfo, this`paper, this`st, paperPool
      ensures Core() && st == SetRemaining(old(st), id, remaining)
    {
      hide Inv, Reps, OpenLevel, NodePool.Pool.Valid, Covers, Repaper, QueueAt;
      var info := paperOrderInfo[id];
      ghost var i := PaperFound(st, paper, indexed, paperOrders, id);
      var level := paper.At(info.side)[info.price];
      ghost var start := paperOrders;
      ghost var pq := st.paper.At(info.side)[info.price];
      ghost var pq' := pq.(orders := pq.orders[i := pq.orders[i].(remaining := remaining)]);
      TakeOut(info.side, info.price);
      var order := paperOrders[id];
      OpenResize(st, info.side, info.price, pq, level, QueueAt(indexed, info.side, info.price), start, paperOrders,
                 paperOrderInfo, i, order.(remaining := remaining));
      var delta := remaining - order.remaining;
      paperOrders := paperOrders[id := order.(remaining := remaining)];
      PutBack(info.side, info.price, Shifted(level, order.paperIndex, delta), pq', start);
      RepaperKeepsBook(old(st), info.side, info.price, pq');
    }

    /** SUBTRACT of a strategy order. */
    method ReducePaperOrder(e: Event)
      requires Core() && e.source == Strategy
      modifies this`paperOrders, this`paperOrderInfo, this`paper, this`st, paperPool
      ensures Core() && st == Book.OnSubtract(old(st), e)
    {
      hide Inv, HistCore, PaperCore, SetRemaining;
      if e.qty <= 0 {
        return;
      }
      PaperRecord(e.id);
      SetRemainingAbsent(st, e.id, Max(Remaining(st, e.id) - e.qty, 0));
      if e.id !in paperOrderInfo {
        return;
      }
      var order := paperOrders[e.id];
      var take := Min(order.remaining, e.qty);
      if take >= order.remaining {
        CancelPaperOrder(e.id);
      } else {
        ResizePaperOrder(e.id, order.remaining - take);
      }
    }

    /** SET of a strategy order; a negative quantity counts as zero. */
    method SetPaperOrder(id: int, qty: int)
      requires Core()
      modifies this`paperOrders, this`paperOrderInfo, this`paper, this`st, paperPool
      ensures Core() && st == SetRemaining(old(st), id, Max(qty, 0))
    {
      hide HistCore, PaperCore, SetRemaining;
      var newQty := if qty < 0 then 0 else qty;
      PaperRecord(id);
      SetRemainingAbsent(st, id, newQty);
      if id !in paperOrderInfo {
        return;
      }
      var order := paperOrders[id];
      if newQty == order.remaining {
        SetRemainingSame(st, id);
      } else if newQty == 0 {
        CancelPaperOrder(id);
      } else {
        ResizePaperOrder(id, newQty);
      }
    }

    /** The order records agree with the state on every strategy order. */
    lemma PaperRecord(id: int)
      requires Core()
      ensures id in paperOrderInfo <==> id in st.paperInfo
      ensures id in paperOrderInfo ==>
                id in paperOrders && paperOrders[id].remaining == Remaining(st, id) && Remaining(st, id) > 0
    {
      hide Inv, Reps, Covers, NodePool.Pool.Valid;
      if id in st.paperInfo {
        var i := PaperFound(st, paper, indexed, paperOrders, id);
      }
    }

    // ---- quantity changes of historical orders ------------------------------------------------

    /**
     * A historical order's quantity changes by `delta`; at zero the order leaves the queue, the
     * index and its node. The market index of a paper level at its price follows.
     */
    method ChangeHistorical(id: int, delta: int)
      requires Valid() && id in orderInfo && LiveQty(st, id) + delta >= 0
      modifies this`book, this`orderInfo, this`paper, this`st, this`indexed, orderPool
      ensures Valid() && st == ChangeQty(old(st), id, delta)
    {
      hide Inv, Reps, Covers, NodePool.Pool.Valid, Requeue, FullRep, Changed, PutQueue, GoneStamps, GoneIds, ChangeQty,
           LiveQty, LiveSource, AdjustedLevels, QueueOk, IndexOf, QueueAt;
      var info := orderInfo[id];
      ghost var i := OrderFound(st, id, delta);
      var queue := book.At(info.side)[info.price];
      var node := IndexOf(queue, info.arrival);
      ghost var next := Requeue(st, info.side, info.price, Changed(queue, i, delta));
      ChangeQtyInv(st, id, delta);
      CoversAt(info.side);
      RequeueParts(st, info.side, info.price, Changed(queue, i, delta), heap.At(info.side));
      ChangedGone(queue, i, delta);
      ChangedIndex(st, paper, paperOrders, info.side, info.price, i, delta);
      CommitChange(info.side, info.price, Changed(queue, node, delta), queue[node].qty + delta == 0, id, info.arrival,
                   delta, next);
    }

    /** Carries out a quantity change that leads to the state `next`. */
    method CommitChange(side: Side, price: int, queue: seq<Order>, gone: bool, id: int, stamp: nat, delta: int,
                        ghost next: State)
      requires Core() && Inv(next)
      requires next.hist == book.With(side, PutQueue(book.At(side), price, queue))
      requires next.info == orderInfo - if gone then {id} else {}
      requires next.nodes.Keys == st.nodes.Keys - if gone then {stamp} else {}
      requires next.paper == st.paper && next.paperInfo == st.paperInfo && next.clock == st.clock
               && next.seq_ == st.seq_
      requires Covers(heap.At(side), next.hist.At(side), side)
      requires Reps(AdjustedLevels(paper, side, price, stamp, delta), next.paper, next.hist, paperOrders, next.clock)
      modifies this`book, this`orderInfo, this`paper, this`st, this`indexed, orderPool
      ensures Valid() && st == next
    {
      hide Inv, Reps, Covers, NodePool.Pool.Valid, PutQueue, AdjustedLevels;
      CoversAt(side);
      ReleaseOrder(gone, id, stamp);
      WriteChange(side, price, queue, stamp, delta, next);
      CoversBoth(side);
    }

    /** Writes the changed queue back, and lets the market index follow. */
    method WriteChange(side: Side, price: int, queue: seq<Order>, stamp: nat, delta: int, ghost next: State)
      modifies this`book, this`paper, this`st, this`indexed
      ensures st == next && indexed == next.hist
      ensures paper == AdjustedLevels(old(paper), side, price, stamp, delta)
      ensures book == old(book).With(side, PutQueue(old(book).At(side), price, queue))
    {
      hide PutQueue, AdjustedLevels;
      paper := AdjustedLevels(paper, side, price, stamp, delta);
      book := book.With(side, PutQueue(book.At(side), price, queue));
      st, indexed := next, next.hist;
    }

    lemma CoversAt(side: Side)
      requires HistCore()
      ensures Covers(heap.At(side), book.At(side), side)
      ensures Covers(heap.At(side.Opposite()), book.At(side.Opposite()), side.Opposite())
    {
    }

    lemma CoversBoth(side: Side)
      requires Covers(heap.At(side), book.At(side), side)
      requires Covers(heap.At(side.Opposite()), book.At(side.Opposite()), side.Opposite())
      ensures Covers(heap.sell, book.sell, Sell) && Covers(heap.buy, book.buy, Buy)
    {
    }

    /** An order that has come to nothing gives up its node and its index entry. */
    method ReleaseOrder(gone: bool, id: int, stamp: nat)
      requires orderPool.Valid()
      modifies this`orderInfo, orderPool
      ensures orderPool.Valid() && |orderPool.slots| == |old(orderPool.slots)|
      ensures orderInfo == old(orderInfo) - if gone then {id} else {}
      ensures orderPool.Owners() == old(orderPool.Owners()) - if gone then {stamp} else {}
    {
      hide NodePool.Pool.Valid;
      if gone {
        orderPool.Release(stamp);
        orderInfo := orderInfo - {id};
      }
    }

    // ---- real matching ------------------------------------------------------------------------

    /**
     * A historical aggressor takes from the front of one queue. Filled orders leave the index and
     * give up their nodes on the way; the queue itself is written back at the end.
     */
    method ConsumeQueue(e: Event, maker: Side, px: int, qty: int)
      returns (left: int, rest: seq<Order>, trades: seq<Trade>)
      requires Core() && maker == e.side.Opposite() && qty > 0 && px in book.At(maker)
      modifies this`orderInfo, this`log, orderPool
      ensures var queue := QueueAt(book, maker, px);
              var c := Consume(queue, qty);
              && left == c.left && rest == c.rest && trades == c.trades && RestOf(rest, queue)
              && log == old(log) + FillsOf(seq_, maker, px, c.trades, e.id, e.source)
              && orderInfo == st.info - GoneIds(queue, rest)
              && orderPool.Valid() && orderPool.Owners() == st.nodes.Keys - GoneStamps(queue, rest)
              && |orderPool.slots| == |old(orderPool.slots)|
    {
      hide Inv, PaperCore, Covers, NodePool.Pool.Valid, Consume, QueueOk, RestOf, FillsOf, FillOf, GoneIds, GoneStamps;
      ghost var queue := QueueAt(book, maker, px);
      QueueFacts(st, maker, px);
      NoFills(seq_, maker, px, e.id, e.source);
      rest, left, trades := book.At(maker)[px], qty, [];
      while left > 0 && rest != []
        modifies this`orderInfo, this`log, orderPool
        invariant QueueOk(queue) && RestOf(rest, queue)
        invariant ConsumeSplit(queue, qty, trades, rest, left)
        invariant log == old(log) + FillsOf(seq_, maker, px, trades, e.id, e.source)
        invariant orderInfo == st.info - GoneIds(queue, rest)
        invariant orderPool.Valid() && orderPool.Owners() == st.nodes.Keys - GoneStamps(queue, rest)
        invariant |orderPool.slots| == |old(orderPool.slots)|
        decreases left
      {
        var node := rest[0];
        ConsumeFront(queue, qty, trades, rest, left);
        if node.qty <= 0 {
          assert false;
        }
        var take := Min(node.qty, left);
        var trade := Trade(node.id, node.source, take, node.arrival);
        FillsAppend(seq_, maker, px, trades, trade, e.id, e.source);
        log := log + [Filled(Fill(seq_, px, take, maker, node.id, node.source, e.id, e.source))];
        FillOfTrade(seq_, maker, px, trade, e.id, e.source);
        trades := trades + [trade];
        left := left - take;
        ReleaseOrder(node.qty - take == 0, node.id, node.arrival);
        if node.qty - take == 0 {
          rest := rest[1..];
        } else {
          rest := rest[0 := node.(qty := node.qty - take)];
        }
      }
      ConsumeOver(queue, qty, trades, rest, left);
    }

    /** Writes a traded queue back; a level that came to nothing leaves the book. */
    method CommitQueue(maker: Side, px: int, rest: seq<Order>)
      requires Inv(st) && PaperCore() && px in book.At(maker)
      requires HistCoreBut(st.info - GoneIds(QueueAt(book, maker, px), rest),
                           st.nodes.Keys - GoneStamps(QueueAt(book, maker, px), rest))
      requires RestOf(rest, QueueAt(book, maker, px))
      modifies this`book, this`st
      ensures Core() && st == Requeue(old(st), maker, px, rest)
    {
      hide Inv, Reps, Covers, NodePool.Pool.Valid, RestOf, PutQueue, GoneIds, GoneStamps, QueueAt, Requeue;
      QueueFacts(st, maker, px);
      RestIsThinned(rest, QueueAt(book, maker, px));
      RequeueInv(st, maker, px, rest);
      RequeueParts(st, maker, px, rest, heap.At(maker));
      book := book.With(maker, PutQueue(book.At(maker), px, rest));
      st := Requeue(st, maker, px, rest);
      CoversBoth(maker);
    }

    /** The historical half while some orders have already left the index. */
    ghost predicate HistCoreBut(info: map<int, Loc>, stamps: set<nat>)
      reads this, orderPool
    {
      && book == st.hist && orderInfo == info
      && orderArrivalSeq == st.clock && seq_ == st.seq_
      && Covers(heap.sell, book.sell, Sell) && Covers(heap.buy, book.buy, Buy)
      && orderPool.Valid() && orderPool.Owners() == stamps
      && |orderPool.slots| <= caps.historical
    }

    /** One level's market index goes through the trades. */
    method DeltasApplied(open: PaperLevel, trades: seq<Trade>, ghost pq: PaperQueue, ghost queue: seq<Order>,
                         ghost qty: int)
      returns (level: PaperLevel)
      requires FullRep(open, pq, queue, paperOrders, st.clock) && QueueOk(queue)
      requires Consume(queue, qty).trades == trades
      ensures FullRep(level, pq, Consume(queue, qty).rest, paperOrders, st.clock)
    {
      hide Consume, QueueOk, FullRep, RestOf, ConsumeSplit, Adjusted, Changed;
      level := open;
      ghost var rest, left := queue, qty;
      WholeQueue(queue, qty);
      assert trades[..0] == [];
      for j := 0 to |trades|
        modifies {}
        invariant RestOf(rest, queue)
        invariant FullRep(level, pq, rest, paperOrders, st.clock)
        invariant ConsumeSplit(queue, qty, trades[..j], rest, left)
      {
        DeltaStep(level, pq, queue, qty, trades, j, rest, left, paperOrders, st.clock);
        level := Adjusted(level, trades[j].stamp, -trades[j].qty);
        rest, left := Changed(rest, 0, -trades[j].qty), left - trades[j].qty;
      }
      assert trades[..|trades|] == trades;
      NoMoreTrades(queue, qty, rest, left);
    }

    /** The market index of a paper level catches up with the trades of its price, one by one. */
    method ApplyMarketDeltas(maker: Side, px: int, trades: seq<Trade>, ghost queue: seq<Order>, ghost qty: int)
      requires Core()
      requires QueueAt(indexed, maker, px) == queue && QueueOk(queue)
      requires Consume(queue, qty).trades == trades
      requires st.hist == indexed.With(maker, PutQueue(indexed.At(maker), px, Consume(queue, qty).rest))
      modifies this`paper, this`indexed
      ensures Valid()
    {
      hide Inv, Covers, Reps, NodePool.Pool.Valid, Consume, QueueOk, FullRep, PutQueue, QueueAt;
      LevelsMatch(paper, st.paper, indexed, paperOrders, st.clock, maker, px);
      PutQueueAt(indexed, maker, px, Consume(queue, qty).rest);
      if px in paper.At(maker) {
        var level := DeltasApplied(paper.At(maker)[px], trades, st.paper.At(maker)[px], queue, qty);
        ReindexLevel(paper, st.paper, indexed, st.hist, paperOrders, st.clock, st.clock, maker, px, level);
        CatchUp(paper.With(maker, paper.At(maker)[px := level]));
      } else {
        ReindexLevel(paper, st.paper, indexed, st.hist, paperOrders, st.clock, st.clock, maker, px, EMPTY_LEVEL);
        CatchUp(paper);
      }
    }

    /** The market indices have caught up with the book. */
    method CatchUp(next: Levels)
      requires Core() && Reps(next, st.paper, st.hist, paperOrders, st.clock)
      modifies this`paper, this`indexed
      ensures Valid()
    {
      hide Inv, Covers, Reps, NodePool.Pool.Valid;
      paper, indexed := next, st.hist;
    }

    /** A historical aggressor trades at one price: real fills, shadow fills, then the market index. */
    method TradeAtLevel(e: Event, px: int, qty: int) returns (left: int)
      requires Valid() && qty > 0 && px in book.At(e.side.Opposite())
      modifies this`book, this`orderInfo, this`paperOrders, this`paperOrderInfo, this`paper, this`log, this`st,
               this`indexed
      modifies orderPool, paperPool
      ensures Valid()
      ensures var t := TradeLevel(old(st), e, px, qty);
              st == t.state && log == old(log) + t.records && left == t.left
    {
      hide Inv, Reps, Covers, NodePool.Pool.Valid, Consume, QueueOk, RestOf, FillsOf, GoneIds, GoneStamps, ShadowAt,
           Requeue, PutQueue, QueueAt, TradeLevel;
      var maker := e.side.Opposite();
      ghost var queue := QueueAt(book, maker, px);
      QueueFacts(st, maker, px);
      ConsumeRest(queue, qty);
      var rest, trades;
      left, rest, trades := ConsumeQueue(e, maker, px, qty);
      CommitQueue(maker, px, rest);
      RequeueHist(old(st), maker, px, rest);
      ghost var mid := st;
      var tradedAtLevel := qty - left;
      ApplyPaperTradeAtLevel(maker, px, tradedAtLevel, e);
      ShadowKeepsBook(mid, maker, px, queue, tradedAtLevel, e);
      ApplyMarketDeltas(maker, px, trades, queue, qty);
      TradeLevelUnfold(old(st), e, px, qty);
    }

    /** The best historical price of a side; stale entries leave the heap on the way. */
    method GetBestPriceTicks(side: Side) returns (best: Option<int>)
      requires Core()
      modifies this`heap
      ensures Core()
      ensures best == BestPrice(st.hist.At(side), side)
      ensures best.Some? ==> best.value in book.At(side)
    {
      hide Inv, Reps, Covers, Sees, NodePool.Pool.Valid;
      CoversAt(side);
      EverythingSeen(heap.At(side), book.At(side), side);
      var clean;
      best, clean := CleanTop(book.At(side), book.At(side), heap.At(side), side);
      heap := heap.With(side, clean);
      CoversBoth(side);
    }

    /** A historical aggressor trades with the book, best level first, while it crosses. */
    method MatchBook(e: Event, qty: int) returns (left: int)
      requires Valid() && qty >= 0
      modifies this`heap, this`book, this`orderInfo, this`paperOrders, this`paperOrderInfo, this`paper, this`log,
               this`st, this`indexed
      modifies orderPool, paperPool
      ensures Valid()
      ensures var r := MatchHistorical(old(st), e, qty);
              st == r.state && log == old(log) + r.records && left == r.left
    {
      hide Inv, HistCore, PaperCore, NodePool.Pool.Valid, TradeLevel, MatchHistorical;
      var maker := e.side.Opposite();
      left := qty;
      ghost var st0 := st;
      ghost var records: seq<Record> := [];
      while left > 0
        modifies this`heap, this`book, this`orderInfo, this`paperOrders, this`paperOrderInfo, this`paper, this`log,
                 this`st, this`indexed
        modifies orderPool, paperPool
        invariant Valid() && left >= 0
        invariant log == old(log) + records
        invariant MatchHistorical(st0, e, qty) ==
                  var r := MatchHistorical(st, e, left); Outcome(r.state, records + r.records, r.left)
        decreases left
      {
        var best := GetBestPriceTicks(maker);
        if best.None? || !Crosses(maker, e.price, best.value) {
          break;
        }
        ghost var before := st;
        ghost var before_left := left;
        left := TradeAtLevel(e, best.value, left);
        MatchUnfold(before, e, before_left);
        records := records + TradeLevel(before, e, best.value, before_left).records;
      }
      MatchStops(st, e, left);
      assert records + [] == records;
    }

    // ---- dry runs -----------------------------------------------------------------------------

    /** One level of a dry run: the queue is read, not changed. */
    method DryRunLevel(e: Event, px: int, qty: int) returns (left: int, ghost trades: seq<Trade>)
      requires Core() && qty > 0 && px in book.At(e.side.Opposite())
      modifies this`log
      ensures Core()
      ensures var maker := e.side.Opposite();
              var c := Consume(st.hist.At(maker)[px], qty);
              trades == c.trades && left == c.left
                && log == old(log) + FillsOf(seq_, maker, px, c.trades, e.id, e.source)
    {
      hide Inv, Reps, Covers, NodePool.Pool.Valid, Consume, FillsOf, FillOf, QueueOk;
      var maker := e.side.Opposite();
      var queue := book.At(maker)[px];
      QueueFacts(st, maker, px);
      NoFills(seq_, maker, px, e.id, e.source);
      left, trades := qty, [];
      assert queue[0..] == queue;
      ScanStart(queue, qty);
      var i := 0;
      while i < |queue| && left > 0
        modifies this`log
        invariant 0 <= i <= |queue|
        invariant Scanned(queue, qty, trades, queue[i..], left)
        invariant log == old(log) + FillsOf(seq_, maker, px, trades, e.id, e.source)
      {
        var node := queue[i];
        ConsumeScan(queue, qty, trades, i, left);
        if node.qty <= 0 {
          assert false;
        }
        var take := Min(node.qty, left);
        ghost var trade := Trade(node.id, node.source, take, node.arrival);
        FillsAppend(seq_, maker, px, trades, trade, e.id, e.source);
        FillOfTrade(seq_, maker, px, trade, e.id, e.source);
        log := log + [Filled(Fill(seq_, px, take, maker, node.id, node.source, e.id, e.source))];
        trades := trades + [trade];
        left := left - take;
        i := i + 1;
      }
      ScanOver(queue, qty, trades, queue[i..], left);
    }

    /** What a strategy aggressor would trade with the book; it works on a copy of the heap. */
    method DryRunBook(e: Event, limit: Option<int>, qty: int) returns (left: int)
      requires Core() && qty >= 0
      modifies this`log
      ensures Core()
      ensures var maker := e.side.Opposite();
              var d := DryRun(st.hist.At(maker), maker, limit, qty);
              log == old(log) + HitRecords(st.seq_, maker, d.0, e.id, e.source) && left == d.1
    {
      hide Inv, Reps, Covers, Sees, NodePool.Pool.Valid, Consume, FillsOf, FillOf, HitRecords, HitsAt, DryRun, DrySplit;
      var maker := e.side.Opposite();
      var levels := book.At(maker);
      var heapCopy := heap.At(maker);
      ghost var visible := levels;
      ghost var hits: seq<Hit> := [];
      CoversAt(maker);
      EverythingSeen(heapCopy, levels, maker);
      DryStart(levels, maker, limit, qty);
      NoHits(seq_, maker, e.id, e.source);
      left := qty;
      while left > 0
        modifies this`log
        invariant left >= 0 && Core()
        invariant Covers(heapCopy, visible, maker) && Sees(heapCopy, levels, visible, maker)
        invariant visible.Keys <= levels.Keys && forall p :: p in visible ==> visible[p] == levels[p]
        invariant DrySplit(levels, maker, limit, qty, hits, visible, left)
        invariant log == old(log) + HitRecords(seq_, maker, hits, e.id, e.source)
        decreases |heapCopy|
      {
        var best;
        best, heapCopy := CleanTop(levels, visible, heapCopy, maker);
        if best.None? || !(limit.None? || Crosses(maker, limit.value, best.value)) {
          break;
        }
        var px := best.value;
        DryNext(levels, maker, limit, qty, hits, visible, left);
        LeftOver(st, maker, px, left);
        ghost var trades;
        left, trades := DryRunLevel(e, px, left);
        HitsLogged(seq_, maker, px, hits, trades, e.id, e.source);
        hits := hits + HitsAt(px, trades);
        heapCopy := PopAll(levels, visible, heapCopy, maker, px);
        visible := visible - {px};
      }
      DryOver(levels, maker, limit, qty, hits, visible, left);
    }

    // ---- coming to rest -----------------------------------------------------------------------

    /** What is left of a historical order joins its queue, if the node pool has room. */
    method RestHistoricalOrder(e: Event, qty: int)
      requires Valid() && qty > 0
      requires e.source != Strategy && e.id !in st.info && e.id !in st.paperInfo
      requires NothingCrosses(st, e)
      modifies this`heap, this`book, this`orderInfo, this`paper, this`st, this`indexed, this`orderArrivalSeq, orderPool
      ensures Valid() && st == RestHistorical(caps, old(st), e, qty)
    {
      hide Inv, Reps, NodePool.Pool.Valid, NothingCrosses, RestHistorical, Joins;
      FreshStamp(st);
      var node := Order(e.id, qty, e.source, orderArrivalSeq);
      RestReady(e, qty, node);
      RestHistoricalParts(caps, st, e, qty);
      var ok := orderPool.Acquire(caps.historical, orderArrivalSeq);
      if ok {
        CommitRest(e.side, e.price, node, RestHistorical(caps, st, e, qty));
      }
    }

    /** Linking the node in leads from the state as it is to `next`. */
    ghost predicate Joins(side: Side, price: int, node: Order, next: State)
      reads this
    {
      && Inv(next) && book == st.hist && indexed == st.hist && orderInfo == st.info && seq_ == st.seq_
      && Covers(heap.At(side.Opposite()), book.At(side.Opposite()), side.Opposite())
      && next.hist == book.With(side, book.At(side)[price := QueueAt(book, side, price) + [node]])
      && next.info == orderInfo[node.id := Loc(side, price, node.arrival)]
      && next.paper == st.paper && next.paperInfo == st.paperInfo && next.seq_ == st.seq_
      && node.arrival == orderArrivalSeq == st.clock && next.clock == st.clock + 1
      && Covers(if QueueAt(book, side, price) == [] then Push(heap.At(side), Rank(side, price)) else heap.At(side),
                next.hist.At(side), side)
      && Reps(JoinedLevels(paper, side, price, node.arrival, node.qty), st.paper, next.hist, paperOrders, next.clock)
    }

    lemma RestReady(e: Event, qty: int, node: Order)
      requires Valid() && qty > 0 && node == Order(e.id, qty, e.source, orderArrivalSeq)
      requires e.source != Strategy && e.id !in st.info && e.id !in st.paperInfo && NothingCrosses(st, e)
      ensures |st.nodes| < caps.historical ==> Joins(e.side, e.price, node, RestHistorical(caps, st, e, qty))
    {
      hide Inv, Reps, Covers, NodePool.Pool.Valid, NothingCrosses, JoinedLevels, QueueAt, Push, RestHistorical;
      RestHistoricalInv(caps, st, e, qty);
      CoversAt(e.side);
      RestCovers(st, heap.At(e.side), e.side, e.price, node);
      JoinedIndex(st, paper, paperOrders, e.side, e.price, node);
      RestHistoricalParts(caps, st, e, qty);
    }

    /** Links a new node in, which leads to the state `next`. */
    method CommitRest(side: Side, price: int, node: Order, ghost next: State)
      requires PaperCore() && Joins(side, price, node, next)
      requires orderPool.Valid() && |orderPool.slots| <= caps.historical && orderPool.Owners() == next.nodes.Keys
      modifies this`heap, this`book, this`orderInfo, this`paper, this`st, this`indexed, this`orderArrivalSeq
      ensures Valid() && st == next
    {
      hide Inv, Reps, Covers, NodePool.Pool.Valid, JoinedLevels, Push;
      LinkNode(side, price, node, true);
      MoveTo(JoinedLevels(paper, side, price, node.arrival, node.qty), next);
      CoversBoth(side);
    }

    /** The ghost state moves on together with the paper levels. */
    method MoveTo(levels: Levels, ghost next: State)
      modifies this`paper, this`st, this`indexed
      ensures paper == levels && st == next && indexed == next.hist
    {
      paper, st, indexed := levels, next, next.hist;
    }

    /** A node goes to the end of its queue, and into the index if it has an id; a new price goes on the heap. */
    method LinkNode(side: Side, price: int, node: Order, withId: bool)
      modifies this`heap, this`book, this`orderInfo, this`orderArrivalSeq
      ensures var queue := QueueAt(old(book), side, price);
              && book == old(book).With(side, old(book).At(side)[price := queue + [node]])
              && heap == (if queue == [] then old(heap).With(side, Push(old(heap).At(side), Rank(side, price)))
                          else old(heap))
      ensures orderInfo == if withId then old(orderInfo)[node.id := Loc(side, price, node.arrival)] else old(orderInfo)
      ensures orderArrivalSeq == old(orderArrivalSeq) + 1
    {
      hide Push;
      orderArrivalSeq := orderArrivalSeq + 1;
      var queue := QueueAt(book, side, price);
      if queue == [] {
        heap := heap.With(side, Push(heap.At(side), Rank(side, price)));
      }
      book := book.With(side, book.At(side)[price := queue + [node]]);
      if withId {
        orderInfo := orderInfo[node.id := Loc(side, price, node.arrival)];
      }
    }

    /** The stored paper level at a place, or a fresh one that indexes the historical queue there. */
    method EnsurePaperLevel(side: Side, price: int) returns (level: PaperLevel)
      requires Inv(st) && book == st.hist && indexed == st.hist
      requires Reps(paper, st.paper, indexed, paperOrders, st.clock)
      ensures Ready(st, level, side, price, paperOrders)
    {
      hide Inv, Reps, FullRep;
      LevelsMatch(paper, st.paper, indexed, paperOrders, st.clock, side, price);
      if price in paper.At(side) {
        level := paper.At(side)[price];
      } else {
        QueueAtOk(st, side, price);
        level := IndexQueue(QueueAt(book, side, price));
        FreshFull(level, QueueAt(st.hist, side, price), paperOrders, st.clock);
      }
    }

    /** What is left of a strategy order joins its level, if the paper pool has room. */
    method RestPaperOrder(e: Event, qty: int)
      requires Valid() && qty > 0
      requires e.id !in st.info && e.id !in st.paperInfo
      modifies this`paperOrders, this`paperOrderInfo, this`paper, this`st, this`orderArrivalSeq, paperPool
      ensures Valid() && st == RestPaper(caps, old(st), e, qty)
    {
      hide Inv, Reps, Covers, NodePool.Pool.Valid, RestPaper;
      var ok := paperPool.Acquire(caps.paper, e.id);
      if ok {
        PlacePaperOrder(e, qty);
      } else {
        NoRoomForPaper(caps, st, e, qty);
      }
    }

    /** A strategy order that has its node takes its place in the queue. */
    method PlacePaperOrder(e: Event, qty: int)
      requires Inv(st) && HistCore() && indexed == st.hist && qty > 0
      requires e.id !in st.info && e.id !in st.paperInfo && |st.paperInfo| < caps.paper
      requires Reps(paper, st.paper, indexed, paperOrders, st.clock)
      requires paperOrders.Keys == st.paperInfo.Keys && paperOrderInfo == st.paperInfo
      requires paperPool.Valid() && |paperPool.slots| <= caps.paper && paperPool.Owners() == st.paperInfo.Keys + {e.id}
      modifies this`paperOrders, this`paperOrderInfo, this`paper, this`st, this`orderArrivalSeq
      ensures Valid() && st == RestPaper(caps, old(st), e, qty)
    {
      hide Inv, Reps, Covers, NodePool.Pool.Valid, FullRep, Rested, Ready, RestPaper, PapersAt;
      RestPaperInv(caps, st, e, qty);
      var level := EnsurePaperLevel(e.side, e.price);
      var order := PaperEntry(if qty < e.qty then PartiallyFilled else Open, qty, orderArrivalSeq,
                              level.nextPaperIndex);
      RestedLevels(st, paper, paperOrders, e.side, e.price, level, PaperOrder(e.id, qty, orderArrivalSeq), order);
      RestPaperParts(caps, st, e, qty);
      CommitPaper(e.side, e.price, level, e.id, order, RestPaper(caps, st, e, qty));
    }

    /** Links a strategy order in, which leads to the state `next`. */
    method CommitPaper(side: Side, price: int, level: PaperLevel, id: int, order: PaperEntry, ghost next: State)
      requires Inv(next) && HistCore() && indexed == st.hist && SameBook(st, next.(clock := st.clock))
      requires next.paperInfo == paperOrderInfo[id := Place(side, price)] && next.clock == st.clock + 1
      requires paperPool.Valid() && |paperPool.slots| <= caps.paper && paperPool.Owners() == next.paperInfo.Keys
      requires paperOrders.Keys == paperOrderInfo.Keys
      requires Reps(paper.With(side, paper.At(side)[price := Rested(level, id, order.remaining)]), next.paper,
                    next.hist, paperOrders[id := order], next.clock)
      modifies this`paperOrders, this`paperOrderInfo, this`paper, this`st, this`orderArrivalSeq
      ensures Valid() && st == next
    {
      hide Inv, Reps, Covers, NodePool.Pool.Valid, Rested;
      LinkPaper(side, price, level, id, order);
      st := next;
    }

    /** A strategy order goes to the end of its level and into the records. */
    method LinkPaper(side: Side, price: int, level: PaperLevel, id: int, order: PaperEntry)
      modifies this`paperOrders, this`paperOrderInfo, this`paper, this`orderArrivalSeq
      ensures orderArrivalSeq == old(orderArrivalSeq) + 1
      ensures paperOrders == old(paperOrders)[id := order]
      ensures paperOrderInfo == old(paperOrderInfo)[id := Place(side, price)]
      ensures paper == old(paper).With(side, old(paper).At(side)[price := Rested(level, id, order.remaining)])
    {
      hide Rested;
      orderArrivalSeq := orderArrivalSeq + 1;
      paperOrders := paperOrders[id := order];
      paperOrderInfo := paperOrderInfo[id := Place(side, price)];
      paper := paper.With(side, paper.At(side)[price := Rested(level, id, order.remaining)]);
    }

    // ---- the events ---------------------------------------------------------------------------

    method AddHistoricalOrder(e: Event)
      requires Valid() && e.kind == Add && e.source != Strategy
      requires e.qty >= 0 && e.id !in st.info && e.id !in st.paperInfo
      modifies this`heap, this`book, this`orderInfo, this`orderArrivalSeq, this`indexed, orderPool
      modifies this`paperOrders, this`paperOrderInfo, this`paper, this`log, this`st, paperPool
      ensures Valid()
      ensures var r := AddHistorical(caps, old(st), e);
              st == r.0 && log == old(log) + r.1
    {
      hide Inv, HistCore, PaperCore, NodePool.Pool.Valid, MatchHistorical, SweepPapers, RestHistorical, NothingCrosses;
      var maker := e.side.Opposite();
      ghost var m := MatchHistorical(st, e, e.qty);
      AddReady(st, e);
      MatchStops(st, e, e.qty);
      var best := GetBestPriceTicks(maker);
      var remaining := e.qty;
      if best.Some? && Crosses(maker, e.price, best.value) {
        remaining := MatchBook(e, remaining);
      }
      SweepStops(st, e, Some(e.price), remaining);
      if remaining > 0 {
        remaining := SweepPaperLevels(e, Some(e.price), remaining);
      }
      if remaining > 0 {
        RestHistoricalOrder(e, remaining);
      }
    }

    method AddPaperOrder(e: Event)
      requires Valid() && e.qty >= 0 && e.id !in st.info && e.id !in st.paperInfo
      modifies this`heap, this`book, this`orderInfo, this`orderArrivalSeq, this`indexed, orderPool
      modifies this`paperOrders, this`paperOrderInfo, this`paper, this`log, this`st, paperPool
      ensures Valid()
      ensures var r := AddPaper(caps, old(st), e);
              st == r.0 && log == old(log) + r.1
    {
      hide Inv, HistCore, PaperCore, NodePool.Pool.Valid, DryRun, HitRecords, RestPaper;
      var remaining := DryRunBook(e, Some(e.price), e.qty);
      if remaining > 0 {
        RestPaperOrder(e, remaining);
      }
    }

    method OnAdd(e: Event)
      requires Valid() && e.kind == Add
      modifies this`heap, this`book, this`orderInfo, this`orderArrivalSeq, this`indexed, orderPool
      modifies this`paperOrders, this`paperOrderInfo, this`paper, this`log, this`st, paperPool
      ensures Valid()
      ensures var r := Book.OnAdd(caps, old(st), e);
              st == r.0 && log == old(log) + r.1
    {
      hide Inv, Reps, Covers, NodePool.Pool.Valid, AddHistorical, AddPaper;
      if e.qty < 0 || e.id in orderInfo || e.id in paperOrders || e.id in paperOrderInfo {
        return;
      }
      if e.source == Strategy {
        AddPaperOrder(e);
      } else {
        AddHistoricalOrder(e);
      }
    }

    method OnAggressiveTrade(e: Event)
      requires Valid()
      modifies this`heap, this`book, this`orderInfo, this`orderArrivalSeq, this`indexed, orderPool
      modifies this`paperOrders, this`paperOrderInfo, this`paper, this`log, this`st, paperPool
      modifies this`seq_
      ensures Valid()
      ensures var r := Book.OnAggressiveTrade(old(st), e);
              st == r.0 && log == old(log) + r.1
    {
      hide Inv, HistCore, PaperCore, NodePool.Pool.Valid, DryRun, HitRecords, SweepPapers;
      if e.source != Strategy || e.qty <= 0 {
        return;
      }
      AggressiveLeft(st, e);
      var remaining := DryRunBook(e, None, e.qty);
      SweepStops(st, e, None, remaining);
      if remaining > 0 {
        remaining := SweepPaperLevels(e, None, remaining);
      }
      CountEvent();
    }

    /** The event counter moves on. */
    method CountEvent()
      requires Valid()
      modifies this`seq_, this`st
      ensures Valid() && st == old(st).(seq_ := old(st).seq_ + 1)
    {
      hide Inv, Reps, Covers, NodePool.Pool.Valid;
      CountInv(st);
      seq_ := seq_ + 1;
      st := st.(seq_ := st.seq_ + 1);
    }

    /** The node of a historical order. */
    method NodeOf(id: int) returns (node: Order)
      requires Core() && id in orderInfo
      ensures id in st.info && node.arrival == st.info[id].arrival
      ensures node.qty == LiveQty(st, id) && node.source == LiveSource(st, id) && node.qty > 0
    {
      hide Inv, Reps, Covers, NodePool.Pool.Valid, LiveQty, LiveSource, QueueOk;
      var info := orderInfo[id];
      ghost var i := OrderFound(st, id, 0);
      LiveQtyPositive(st, id);
      var queue := book.At(info.side)[info.price];
      node := queue[IndexOf(queue, info.arrival)];
    }

    method OnDelete(e: Event)
      requires Valid()
      modifies this`heap, this`book, this`orderInfo, this`orderArrivalSeq, this`indexed, orderPool
      modifies this`paperOrders, this`paperOrderInfo, this`paper, this`log, this`st, paperPool
      ensures Valid() && st == Book.OnDelete(old(st), e) && log == old(log)
    {
      hide Inv, Reps, Covers, NodePool.Pool.Valid, SetRemaining, LiveQty;
      AbsentIds(st, e.id, 0, 0);
      if e.source == Strategy {
        if e.id in paperOrderInfo {
          SetRemainingKeepsBook(st, e.id, 0);
          CancelPaperOrder(e.id);
        }
      } else if e.id in orderInfo {
        var node := NodeOf(e.id);
        ChangeHistorical(e.id, -node.qty);
      }
    }

    method OnSubtract(e: Event)
      requires Valid()
      modifies this`heap, this`book, this`orderInfo, this`orderArrivalSeq, this`indexed, orderPool
      modifies this`paperOrders, this`paperOrderInfo, this`paper, this`log, this`st, paperPool
      ensures Valid() && st == Book.OnSubtract(old(st), e) && log == old(log)
    {
      hide Inv, HistCore, PaperCore, NodePool.Pool.Valid, SetRemaining, LiveQty;
      if e.source == Strategy {
        SetRemainingKeepsBook(st, e.id, Max(Remaining(st, e.id) - e.qty, 0));
        ReducePaperOrder(e);
      } else {
        OnPartialOrderCancel(e, false);
      }
    }

    method OnMatch(e: Event)
      requires Valid()
      modifies this`heap, this`book, this`orderInfo, this`orderArrivalSeq, this`indexed, orderPool
      modifies this`paperOrders, this`paperOrderInfo, this`paper, this`log, this`st, paperPool
      ensures Valid()
      ensures var r := Book.OnMatch(old(st), e);
              st == r.0 && log == old(log) + r.1
    {
      OnPartialOrderCancel(e, true);
    }

    /** A reduction of a known resting order, by a cancel or by a trade. */
    method OnPartialOrderCancel(e: Event, isTrade: bool)
      requires Valid()
      modifies this`heap, this`book, this`orderInfo, this`orderArrivalSeq, this`indexed, orderPool
      modifies this`paperOrders, this`paperOrderInfo, this`paper, this`log, this`st, paperPool
      ensures Valid()
      ensures !isTrade && e.source != Strategy ==> st == Book.OnSubtract(old(st), e) && log == old(log)
      ensures isTrade ==>
                var r := Book.OnMatch(old(st), e);
                st == r.0 && log == old(log) + r.1
    {
      hide Inv, Reps, Covers, NodePool.Pool.Valid, LiveQty, LiveSource, ChangeQty, ShadowAt, QueueAt;
      if e.qty <= 0 {
        return;
      }
      AbsentIds(st, e.id, -Min(LiveQty(st, e.id), e.qty), 0);
      if e.id !in orderInfo {
        return;
      }
      var info := orderInfo[e.id];
      var node := NodeOf(e.id);
      var take := Min(node.qty, e.qty);
      if isTrade {
        ShadowKeepsBook(st, info.side, info.price, QueueAt(st.hist, info.side, info.price), take, e);
        ghost var before := st;
        ApplyPaperTradeAtLevel(info.side, info.price, take, e);
        SameBookLive(before, st, e.id);
        log := log + [Filled(Fill(seq_, info.price, take, info.side, e.id, node.source, UNKNOWN_ID, e.source))];
      }
      ChangeHistorical(e.id, -take);
    }

    method OnSet(e: Event)
      requires Valid()
      modifies this`heap, this`book, this`orderInfo, this`orderArrivalSeq, this`indexed, orderPool
      modifies this`paperOrders, this`paperOrderInfo, this`paper, this`log, this`st, paperPool
      ensures Valid() && st == Book.OnSet(old(st), e) && log == old(log)
    {
      hide Inv, Reps, Covers, NodePool.Pool.Valid, SetRemaining, LiveQty;
      AbsentIds(st, e.id, Max(e.qty, 0) - LiveQty(st, e.id), 0);
      if e.source == Strategy {
        SetRemainingKeepsBook(st, e.id, Max(e.qty, 0));
        SetPaperOrder(e.id, e.qty);
      } else if e.id in orderInfo {
        var node := NodeOf(e.id);
        var newQuantity := if e.qty < 0 then 0 else e.qty;
        ChangeHistorical(e.id, newQuantity - node.qty);
      }
    }

    /** One update of the engine is one step of the state machine. */
    method Update(e: Event)
      requires Valid()
      modifies this`heap, this`book, this`orderInfo, this`orderArrivalSeq, this`indexed, orderPool
      modifies this`paperOrders, this`paperOrderInfo, this`paper, this`log, this`st, paperPool
      modifies this`seq_
      ensures Valid()
      ensures var r := Step(caps, old(st), e);
              st == r.0 && log == old(log) + r.1
    {
      hide Inv, HistCore, PaperCore, NodePool.Pool.Valid, Apply, Step;
      LogEvent(e);
      Dispatch(e);
      CountEvent();
      StepLog(caps, old(st), e, old(log));
    }

    /** A whole list of updates is a run of the state machine. */
    method UpdateAll(events: seq<Event>)
      requires Valid()
      modifies this`heap, this`book, this`orderInfo, this`orderArrivalSeq, this`indexed, orderPool
      modifies this`paperOrders, this`paperOrderInfo, this`paper, this`log, this`st, paperPool
      modifies this`seq_
      ensures Valid()
      ensures var r := Run(caps, old(st), events);
              st == r.0 && log == old(log) + r.1
    {
      hide Inv, HistCore, PaperCore, NodePool.Pool.Valid, Step;
      ghost var st0 := st;
      RunNone(caps, st0);
      assert events[..0] == [];
      for i := 0 to |events|
        modifies this`heap, this`book, this`orderInfo, this`orderArrivalSeq, this`indexed, orderPool
        modifies this`paperOrders, this`paperOrderInfo, this`paper, this`log, this`st, paperPool
        modifies this`seq_
        invariant Valid()
        invariant st == Run(caps, st0, events[..i]).0 && log == old(log) + Run(caps, st0, events[..i]).1
      {
        RunNext(caps, st0, events[..i], events[i]);
        assert events[..i + 1] == events[..i] + [events[i]];
        Update(events[i]);
      }
      assert events[..|events|] == events;
    }

    method Dispatch(e: Event)
      requires Valid()
      modifies this`heap, this`book, this`orderInfo, this`orderArrivalSeq, this`indexed, orderPool
      modifies this`paperOrders, this`paperOrderInfo, this`paper, this`log, this`st, paperPool
      modifies this`seq_
      ensures Valid()
      ensures var r := Apply(caps, old(st), e);
              st == r.0 && log == old(log) + r.1
    {
      hide Inv, HistCore, PaperCore, NodePool.Pool.Valid, Book.OnAdd, Book.OnAggressiveTrade, Book.OnDelete,
           Book.OnSubtract, Book.OnSet, Book.OnMatch;
      match e.kind {
        case Add => OnAdd(e);
        case AggressiveTrade => OnAggressiveTrade(e);
        case Delete => OnDelete(e);
        case Subtract => OnSubtract(e);
        case Match => OnMatch(e);
        case Set => OnSet(e);
      }
    }

    method LogEvent(e: Event)
      requires Valid()
      modifies this`log
      ensures Valid() && log == old(log) + [Applied(st.seq_, e)]
    {
      hide Inv, Reps, Covers, NodePool.Pool.Valid;
      log := log + [Applied(seq_, e)];
    }

    // ---- depth queries ------------------------------------------------------------------------

    /** The lots resting at a price. */
    method DepthAt(side: Side, price: int) returns (depth: Option<int>)
      ensures var levels := book.At(side);
              depth == if price in levels then Some(QtyTotal(levels[price])) else None
    {
      if price !in book.At(side) {
        return None;
      }
      var queue := book.At(side)[price];
      var total := 0;
      assert queue[0..] == queue;
      for i := 0 to |queue|
        invariant total + QtyTotal(queue[i..]) == QtyTotal(queue)
      {
        assert queue[i..][0] == queue[i] && queue[i..][1..] == queue[i + 1..];
        total := total + queue[i].qty;
      }
      return Some(total);
    }

    /** The first `n` of all levels with lots, in price order, kept in a list of bounded size. */
    method L2TopN(side: Side, n: nat) returns (top: seq<Depth>)
      ensures var levels := book.At(side);
              top == TopLevels(levels, Positive(levels), side, n)
    {
      hide TopLevels, QtyTotal, Inserted;
      var levels := book.At(side);
      top := [];
      if n == 0 {
        TopZero(levels, Positive(levels), side);
        return;
      }
      var keys := levels.Keys;
      ghost var seen: set<int> := {};
      TopNone(levels, side, n);
      while true
        invariant keys <= levels.Keys
        invariant seen <= Positive(levels) && seen !! keys
        invariant forall p :: p in Positive(levels) ==> p in seen || p in keys
        invariant top == TopLevels(levels, seen, side, n)
        decreases |keys|
      {
        if px :| px in keys {
          keys := keys - {px};
          var depth := DepthAt(side, px);
          if depth.value > 0 {
            TopNext(levels, seen, side, n, px);
            seen := seen + {px};
            var d := Depth(px, depth.value);
            if |top| < n {
              top := Inserted(top, side, d);
            } else if Rank(side, px) > Rank(side, top[|top| - 1].price) {
              top := Inserted(top[..|top| - 1], side, d);
            }
          }
        } else {
          break;
        }
      }
      forall p | p in Positive(levels) ensures p in seen {
      }
      assert Positive(levels) <= seen;
      assert seen == Positive(levels);
    }

    // ---- snapshots ----------------------------------------------------------------------------

    /** Forgets everything but the event counter; the sink is reset too. */
    method ClearState()
      requires orderPool.Valid() && paperPool.Valid()
      requires |orderPool.slots| <= caps.historical && |paperPool.slots| <= caps.paper
      modifies this`heap, this`book, this`orderInfo, this`orderArrivalSeq, this`indexed, orderPool
      modifies this`paperOrders, this`paperOrderInfo, this`paper, this`log, this`st, paperPool
      ensures Seeding([], false) && Seeding([], true) && log == [] && seq_ == old(seq_)
    {
      hide FullRep, NodePool.Pool.Valid;
      ForgetOrders();
      orderPool.Reset();
      paperPool.Reset();
      st, indexed := EMPTY.(seq_ := seq_), Sides(map[], map[]);
    }

    method ForgetOrders()
      modifies this`heap, this`book, this`orderInfo, this`orderArrivalSeq
      modifies this`paperOrders, this`paperOrderInfo, this`paper, this`log
      ensures book == Sides(map[], map[]) && heap == Sides([], []) && orderInfo == map[] && orderArrivalSeq == 0
      ensures paper == Sides(map[], map[]) && paperOrders == map[] && paperOrderInfo == map[] && log == []
    {
      book, heap, orderInfo, orderArrivalSeq := Sides(map[], map[]), Sides([], []), map[], 0;
      paper, paperOrders, paperOrderInfo, log := Sides(map[], map[]), map[], map[], [];
    }

    /** The historical half while a snapshot is read, which may leave levels without orders. */
    ghost predicate LiveCore()
      reads this, orderPool
    {
      && book == st.hist && orderInfo == st.info
      && orderArrivalSeq == st.clock && seq_ == st.seq_
      && Covers(heap.sell, Live(book.sell), Sell) && Covers(heap.buy, Live(book.buy), Buy)
      && orderPool.Valid() && orderPool.Owners() == st.nodes.Keys
      && |orderPool.slots| <= caps.historical
    }

    /** The engine holds exactly the snapshot rows that have been read. */
    ghost predicate Seeding(rows: seq<Row>, withIds: bool)
      reads this, orderPool, paperPool
    {
      && st == Seeded(caps, seq_, rows, withIds).0 && indexed == st.hist
      && LiveCore() && PaperCore()
    }

    lemma LiveAt(side: Side)
      requires LiveCore()
      ensures Covers(heap.At(side), Live(book.At(side)), side)
      ensures Covers(heap.At(side.Opposite()), Live(book.At(side.Opposite())), side.Opposite())
    {
    }

    lemma LiveBoth(side: Side)
      requires Covers(heap.At(side), Live(book.At(side)), side)
      requires Covers(heap.At(side.Opposite()), Live(book.At(side.Opposite())), side.Opposite())
      ensures Covers(heap.sell, Live(book.sell), Sell) && Covers(heap.buy, Live(book.buy), Buy)
    {
    }

    /** Inside the invariant the two halves are those of a valid engine, and never otherwise. */
    lemma SeedingValid(rows: seq<Row>, withIds: bool)
      requires Seeding(rows, withIds)
      ensures Valid() <==> Inv(st)
    {
      hide Inv, Reps, Covers, NodePool.Pool.Valid, Seeded, Live;
      if Inv(st) {
        AllLive(st, Sell);
        AllLive(st, Buy);
      }
    }

    /** One row goes into the book. */
    method SeedOrder(row: Row, withIds: bool, ghost rows: seq<Row>)
      requires Seeding(rows, withIds) && Seeded(caps, seq_, rows, withIds).1 && Accepts(st, row, withIds)
      modifies this`heap, this`book, this`orderInfo, this`orderArrivalSeq, this`st, this`indexed, orderPool
      ensures Seeding(rows + [row], withIds) && Seeded(caps, seq_, rows + [row], withIds).1
    {
      hide Reps, NodePool.Pool.Valid, Seeded, SeedRow, LeaveLevel, LiveCore, SeedJoins;
      SeededFacts(caps, seq_, rows, withIds);
      SeededNext(caps, seq_, rows, row, withIds);
      var node := Order(row.id, row.qty, Historical, orderArrivalSeq);
      LiveParts();
      SeedReady(row, withIds, node);
      SeedRowParts(st, row, withIds);
      TakeNode(row, withIds, node);
    }

    lemma LiveParts()
      requires LiveCore()
      ensures orderPool.Valid() && |orderPool.slots| <= caps.historical && orderPool.Owners() == st.nodes.Keys
      ensures orderArrivalSeq == st.clock && seq_ == st.seq_
    {
    }

    /** Acquires a node for a row, if there is one, and links it in. */
    method TakeNode(row: Row, withIds: bool, node: Order)
      requires LiveCore() && PaperCore() && indexed == st.hist && st.paper == Sides(map[], map[])
      requires SeedJoins(row.side, row.price, node, withIds, SeedRow(st, row, withIds)) && st.clock !in st.nodes
      modifies this`heap, this`book, this`orderInfo, this`orderArrivalSeq, this`st, this`indexed, orderPool
      ensures LiveCore() && PaperCore() && indexed == st.hist && seq_ == old(seq_)
      ensures st == if |old(st).nodes| < caps.historical then SeedRow(old(st), row, withIds)
                    else if withIds then LeaveLevel(old(st), row) else old(st)
    {
      hide Reps, Covers, NodePool.Pool.Valid, SeedRow, LeaveLevel, SeedJoins, Live, PaperCore;
      SeedRowParts(st, row, withIds);
      var ok := orderPool.Acquire(caps.historical, orderArrivalSeq);
      if ok {
        hide LiveCore;
        CommitSeed(row.side, row.price, node, withIds, SeedRow(st, row, withIds));
      } else if withIds {
        LeaveBehind(row);
      }
    }

    /** Linking the node in leads from the state as it is to `next`. */
    ghost predicate SeedJoins(side: Side, price: int, node: Order, withId: bool, next: State)
      reads this
    {
      && book == st.hist && orderInfo == st.info && seq_ == st.seq_
      && Covers(heap.At(side.Opposite()), Live(book.At(side.Opposite())), side.Opposite())
      && next.hist == book.With(side, book.At(side)[price := QueueAt(book, side, price) + [node]])
      && next.info == (if withId then orderInfo[node.id := Loc(side, price, node.arrival)] else orderInfo)
      && next.paper == st.paper && next.paperInfo == st.paperInfo && next.seq_ == st.seq_
      && node.arrival == orderArrivalSeq == st.clock && next.clock == st.clock + 1
      && Covers(if QueueAt(book, side, price) == [] then Push(heap.At(side), Rank(side, price)) else heap.At(side),
                Live(next.hist.At(side)), side)
      && Reps(paper, st.paper, next.hist, paperOrders, next.clock)
    }

    lemma SeedReady(row: Row, withIds: bool, node: Order)
      requires LiveCore() && PaperCore() && indexed == st.hist && st.paper == Sides(map[], map[])
      requires node == Order(row.id, row.qty, Historical, orderArrivalSeq)
      ensures SeedJoins(row.side, row.price, node, withIds, SeedRow(st, row, withIds))
    {
      hide Reps, Covers, NodePool.Pool.Valid, Push, SeedRow, QueueAt, Live;
      var next := SeedRow(st, row, withIds);
      SeedRowParts(st, row, withIds);
      LiveAt(row.side);
      SeedCovers(heap.At(row.side), book, row.side, row.price, node);
      NoPaperReps(paper, st.paper, paperOrders, indexed, next.hist, st.clock, next.clock);
    }

    /** The level of an order that found no node has been made already. */
    method LeaveBehind(row: Row)
      requires LiveCore() && PaperCore() && indexed == st.hist && st.paper == Sides(map[], map[])
      modifies this`book, this`st, this`indexed
      ensures LiveCore() && PaperCore() && indexed == st.hist && st == LeaveLevel(old(st), row)
    {
      hide Reps, Covers, NodePool.Pool.Valid, Live, QueueAt;
      LiveAt(row.side);
      LeftLive(book, row.side, row.price);
      NoPaperReps(paper, st.paper, paperOrders, indexed, LeaveLevel(st, row).hist, st.clock, st.clock);
      book := book.With(row.side, book.At(row.side)[row.price := QueueAt(book, row.side, row.price)]);
      st := LeaveLevel(st, row);
      indexed := st.hist;
      LiveBoth(row.side);
    }

    /** Links a snapshot node in, which leads to the state `next`. */
    method CommitSeed(side: Side, price: int, node: Order, withId: bool, ghost next: State)
      requires PaperCore() && SeedJoins(side, price, node, withId, next)
      requires orderPool.Valid() && |orderPool.slots| <= caps.historical && orderPool.Owners() == next.nodes.Keys
      modifies this`heap, this`book, this`orderInfo, this`st, this`indexed, this`orderArrivalSeq
      ensures LiveCore() && PaperCore() && indexed == st.hist && st == next
    {
      hide Inv, Reps, Covers, NodePool.Pool.Valid, Push, Live;
      LinkNode(side, price, node, withId);
      st, indexed := next, next.hist;
      LiveBoth(side);
    }

    method SeedRows(rows: seq<Row>, withIds: bool) returns (error: Option<SnapshotError>)
      requires Seeding([], withIds)
      modifies this`heap, this`book, this`orderInfo, this`orderArrivalSeq, this`st, this`indexed, orderPool
      ensures Seeding(rows, withIds)
      ensures error.None? <==> Seeded(caps, seq_, rows, withIds).1
      ensures error.Some? ==> error.value == if withIds then DuplicateOrderId else DuplicatePrice
    {
      hide LiveCore, PaperCore, NodePool.Pool.Valid, Seeded;
      SeededNone(caps, seq_, withIds);
      assert rows[..0] == [];
      for i := 0 to |rows|
        modifies this`heap, this`book, this`orderInfo, this`orderArrivalSeq, this`st, this`indexed, orderPool
        invariant Seeding(rows[..i], withIds) && Seeded(caps, seq_, rows[..i], withIds).1
      {
        var row := rows[i];
        var duplicate := if withIds then row.id in orderInfo else row.price in book.At(row.side);
        BookIs();
        if duplicate {
          SeededStuck(caps, seq_, rows, i, withIds);
          return Some(if withIds then DuplicateOrderId else DuplicatePrice);
        }
        SeedOrder(row, withIds, rows[..i]);
        assert rows[..i + 1] == rows[..i] + [row];
      }
      assert rows[..|rows|] == rows;
      return None;
    }

    lemma BookIs()
      requires LiveCore()
      ensures book == st.hist && orderInfo == st.info
    {
    }

    /**
     * Starts over from one aggregated row a price. An accepted snapshot that fits the pool makes a
     * valid engine exactly when it is well formed.
     */
    method InitFromL2Snapshot(sides: seq<Side>, prices: seq<int>, quantities: seq<int>)
      returns (error: Option<SnapshotError>)
      requires orderPool.Valid() && paperPool.Valid()
      requires |orderPool.slots| <= caps.historical && |paperPool.slots| <= caps.paper
      modifies this`heap, this`book, this`orderInfo, this`orderArrivalSeq, this`indexed, orderPool
      modifies this`paperOrders, this`paperOrderInfo, this`paper, this`log, this`st, paperPool
      ensures log == [] && seq_ == old(seq_)
      ensures var rows := if |sides| == |prices| == |quantities| then L2Rows(sides, prices, quantities) else [];
              && Seeding(rows, false)
              && (error == Some(SizeMismatch) <==> !(|sides| == |prices| == |quantities|))
              && (error == Some(DuplicatePrice) <==> exists i, j ::
                    0 <= j < i < |rows| && j < caps.historical && sides[i] == sides[j] && prices[i] == prices[j])
              && error != Some(DuplicateOrderId)
              && (error.None? ==> forall i :: 0 <= i < |rows| && i < caps.historical ==>
                    Order(UNKNOWN_ID, quantities[i], Historical, i) in QueueAt(st.hist, sides[i], prices[i]))
              && (WellFormed(rows, false) ==> Valid())
              && (error.None? && |rows| <= caps.historical ==> (Valid() <==> WellFormed(rows, false)))
              && (Valid() <==> StartsInside(rows[..RowsRead(caps, seq_, rows, false)], caps.historical, false))
    {
      hide LiveCore, HistCore, PaperCore, NodePool.Pool.Valid, Inv, Seeded, StartsInside;
      ClearState();
      if |sides| != |prices| || |sides| != |quantities| {
        SeededNone(caps, seq_, false);
        EmptyCounts(seq_);
        SeedingValid([], false);
        SnapshotValid(caps, seq_, [], false);
        return Some(SizeMismatch);
      }
      var rows := L2Rows(sides, prices, quantities);
      error := SeedRows(rows, false);
      L2RowsSeeded(caps, seq_, sides, prices, quantities);
      SeedingValid(rows, false);
      SnapshotValid(caps, seq_, rows, false);
    }

    /**
     * Starts over from single orders, which keep their order within a price. An accepted snapshot
     * that fits the pool makes a valid engine exactly when it is well formed; one that does not fit
     * leaves levels without orders.
     */
    method InitFromL3Snapshot(sides: seq<Side>, prices: seq<int>, quantities: seq<int>, ids: seq<int>,
                              traders: seq<int>)
      returns (error: Option<SnapshotError>)
      requires orderPool.Valid() && paperPool.Valid()
      requires |orderPool.slots| <= caps.historical && |paperPool.slots| <= caps.paper
      modifies this`heap, this`book, this`orderInfo, this`orderArrivalSeq, this`indexed, orderPool
      modifies this`paperOrders, this`paperOrderInfo, this`paper, this`log, this`st, paperPool
      ensures log == [] && seq_ == old(seq_)
      ensures var fits := |sides| == |prices| == |quantities| == |ids| == |traders|;
              var rows := if fits then L3Rows(sides, prices, quantities, ids) else [];
              && Seeding(rows, true)
              && (error == Some(SizeMismatch) <==> !fits)
              && (error == Some(DuplicateOrderId) <==> exists i, j ::
                    0 <= j < i < |rows| && j < caps.historical && ids[i] == ids[j])
              && error != Some(DuplicatePrice)
              && (error.None? ==> forall i :: 0 <= i < |rows| && i < caps.historical ==>
                    Order(ids[i], quantities[i], Historical, i) in QueueAt(st.hist, sides[i], prices[i]))
              && (WellFormed(rows, true) && |rows| <= caps.historical ==> Valid())
              && (error.None? && |rows| <= caps.historical ==> (Valid() <==> WellFormed(rows, true)))
              && (Valid() <==> StartsInside(rows[..RowsRead(caps, seq_, rows, true)], caps.historical, true))
    {
      hide LiveCore, HistCore, PaperCore, NodePool.Pool.Valid, Inv, Seeded, StartsInside;
      ClearState();
      if |sides| != |prices| || |sides| != |quantities| || |sides| != |ids| || |sides| != |traders| {
        SeededNone(caps, seq_, true);
        EmptyCounts(seq_);
        SeedingValid([], true);
        SnapshotValid(caps, seq_, [], true);
        return Some(SizeMismatch);
      }
      var rows := L3Rows(sides, prices, quantities, ids);
      error := SeedRows(rows, true);
      L3RowsSeeded(caps, seq_, sides, prices, quantities, ids);
      SeedingValid(rows, true);
      SnapshotValid(caps, seq_, rows, true);
    }
  }
}
