/**
 * What matching against the historical book means: price-then-arrival priority, conservation of
 * lots, and the agreement of the strategy's dry run with real matching.
 */
module Matching {
  import opened Types
  import opened PriceHeap
  import opened Level
  import opened Book
  import opened BookInv

  // ---- lots in a report ---------------------------------------------------------------------

  /** The fills of a report whose maker is a strategy order (or is not). */
  function Picked(records: seq<Record>, paperMaker: bool): seq<Record> {
    if records == [] then []
    else
      (if records[0].Filled? && (records[0].fill.makerSource == Strategy) == paperMaker then [records[0]] else [])
      + Picked(records[1..], paperMaker)
  }

  /** Lots filled at one price. */
  function LotsAt(records: seq<Record>, price: int): int {
    if records == [] then 0
    else
      (if records[0].Filled? && records[0].fill.price == price then records[0].fill.qty else 0)
      + LotsAt(records[1..], price)
  }

  /** Lots filled in all. */
  function Lots(records: seq<Record>): int {
    if records == [] then 0
    else (if records[0].Filled? then records[0].fill.qty else 0) + Lots(records[1..])
  }

  lemma {:induction false} ReportConcat(a: seq<Record>, b: seq<Record>, paperMaker: bool, price: int)
    ensures Picked(a + b, paperMaker) == Picked(a, paperMaker) + Picked(b, paperMaker)
    ensures LotsAt(a + b, price) == LotsAt(a, price) + LotsAt(b, price)
    ensures Lots(a + b) == Lots(a) + Lots(b)
  {
    if a == [] {
      assert a + b == b;
    } else {
      assert (a + b)[1..] == a[1..] + b;
      ReportConcat(a[1..], b, paperMaker, price);
    }
  }

  /** All makers are strategy orders, or none is. */
  ghost predicate AllFrom(trades: seq<Trade>, paperMaker: bool) {
    forall i :: 0 <= i < |trades| ==> (trades[i].source == Strategy) == paperMaker
  }

  lemma {:induction false} FillsReport(seq_: nat, maker: Side, px: int, trades: seq<Trade>, takerId: int,
                                       takerSource: Source, from: bool, price: int)
    requires AllFrom(trades, from)
    ensures var r := FillsOf(seq_, maker, px, trades, takerId, takerSource);
            && Picked(r, from) == r && Picked(r, !from) == []
            && Lots(r) == TradeTotal(trades)
            && LotsAt(r, price) == if price == px then TradeTotal(trades) else 0
  {
    var r := FillsOf(seq_, maker, px, trades, takerId, takerSource);
    if trades != [] {
      assert r[1..] == FillsOf(seq_, maker, px, trades[1..], takerId, takerSource);
      FillsReport(seq_, maker, px, trades[1..], takerId, takerSource, from, price);
    }
  }

  lemma {:induction false} ConsumeSources(queue: seq<Order>, left: int)
    requires forall i :: 0 <= i < |queue| ==> queue[i].source != Strategy
    ensures AllFrom(Consume(queue, left).trades, false)
  {
    if left > 0 && queue != [] && left >= queue[0].qty {
      ConsumeSources(queue[1..], left - queue[0].qty);
    }
  }

  lemma {:induction false} ShadowSources(market: seq<Order>, pq: PaperQueue, traded: int, consumed: int)
    ensures AllFrom(Shadow(market, pq, traded, consumed).0, true)
    decreases |pq.orders|
  {
    if traded > 0 && pq.orders != [] {
      var p := pq.orders[0];
      var aheadMarket := Max(QtyBefore(market, p.placement) - consumed, 0);
      var t := traded - aheadMarket - pq.phantom;
      if t > 0 && t >= p.remaining {
        ShadowSources(market, pq.(orders := pq.orders[1..]), t - p.remaining, consumed + aheadMarket);
      }
    }
  }

  lemma {:induction false} SweepSources(pq: PaperQueue, left: int)
    ensures AllFrom(Sweep(pq, left).0, true)
    decreases |pq.orders|
  {
    if left > 0 && pq.orders != [] && left >= pq.orders[0].remaining {
      var p := pq.orders[0];
      SweepSources(PaperQueue(pq.orders[1..], pq.phantom + Max(p.remaining, 0)), left - p.remaining);
    }
  }

  /** The historical queue of a level, ready for the facts about matching it. */
  lemma LevelQueue(s: State, maker: Side, px: int)
    requires HistInv(s) && px in s.hist.At(maker)
    ensures QueueAt(s.hist, maker, px) == s.hist.At(maker)[px]
    ensures QueueOk(s.hist.At(maker)[px]) && s.hist.At(maker)[px] != []
    ensures forall i :: 0 <= i < |s.hist.At(maker)[px]| ==> s.hist.At(maker)[px][i].source != Strategy
  {
    assert LevelInv(s, maker, px);
    assert forall i :: 0 <= i < |s.hist.At(maker)[px]| ==> OrderOk(s, maker, px, s.hist.At(maker)[px][i]);
  }

  // ---- one level ----------------------------------------------------------------------------

  lemma {:induction false} OwnReport(s: State, e: Event, maker: Side, px: int, queue: seq<Order>, left: int, price: int)
    requires QueueOk(queue) && left >= 0
    requires forall i :: 0 <= i < |queue| ==> queue[i].source != Strategy
    ensures var c := Consume(queue, left);
            var own := FillsOf(s.seq_, maker, px, c.trades, e.id, e.source);
            && c.left <= left
            && Picked(own, false) == own && Picked(own, true) == []
            && Lots(own) == left - c.left
            && LotsAt(own, price) == (if price == px then left - c.left else 0)
  {
    var c := Consume(queue, left);
    ConsumeSources(queue, left);
    ConsumeTotals(queue, left);
    ConsumeRest(queue, left);
    FillsReport(s.seq_, maker, px, c.trades, e.id, e.source, false, price);
  }

  /** The real fills of one level come from the front of its queue; shadow fills never exceed them. */
  lemma {:induction false} TradeLevelReport(s: State, e: Event, px: int, left: int, price: int)
    requires Inv(s) && left > 0 && px in s.hist.At(e.side.Opposite())
    ensures var maker := e.side.Opposite();
            var c := Consume(s.hist.At(maker)[px], left);
            var t := TradeLevel(s, e, px, left);
            && Picked(t.records, false) == FillsOf(s.seq_, maker, px, c.trades, e.id, e.source)
            && Lots(Picked(t.records, false)) == left - t.left
            && LotsAt(Picked(t.records, false), price) == (if price == px then left - t.left else 0)
            && 0 <= LotsAt(Picked(t.records, true), price) <= (if price == px then left - t.left else 0)
  {
    hide *;
    var maker := e.side.Opposite();
    var queue := s.hist.At(maker)[px];
    var c := Consume(queue, left);
    var mid := Requeue(s, maker, px, c.rest);
    var own := FillsOf(s.seq_, maker, px, c.trades, e.id, e.source);
    var sh := ShadowAt(mid, maker, px, queue, left - c.left, e);
    TradeLevelParts(s, e, px, left);
    OwnReport(s, e, maker, px, queue, left, price);
    ShadowAtReport(mid, maker, px, queue, left - c.left, e, price);
    ReportConcat(own, sh.1, false, price);
    ReportConcat(own, sh.1, true, price);
    assert own + [] == own && [] + sh.1 == sh.1;
  }

  /** The two reports of one level, and what they are made from. */
  lemma {:induction false} TradeLevelParts(s: State, e: Event, px: int, left: int)
    requires Inv(s) && left > 0 && px in s.hist.At(e.side.Opposite())
    ensures var maker := e.side.Opposite();
            var queue := s.hist.At(maker)[px];
            var c := Consume(queue, left);
            var mid := Requeue(s, maker, px, c.rest);
            var t := TradeLevel(s, e, px, left);
            && QueueOk(queue) && (forall i :: 0 <= i < |queue| ==> queue[i].source != Strategy)
            && (px in mid.paper.At(maker) ==> PapersOk(mid.paper.At(maker)[px].orders))
            && t.records == FillsOf(s.seq_, maker, px, c.trades, e.id, e.source)
                            + ShadowAt(mid, maker, px, queue, left - c.left, e).1
            && t.left == c.left && mid.seq_ == s.seq_
  {
    var maker := e.side.Opposite();
    LevelQueue(s, maker, px);
    assert PaperLevelInv(s, maker, px);
    hide Consume, ShadowAt, FillsOf;
  }

  lemma {:induction false} ShadowAtReport(s: State, side: Side, px: int, market: seq<Order>, traded: int, e: Event,
                                          price: int)
    requires px in s.paper.At(side) ==> PapersOk(s.paper.At(side)[px].orders)
    requires traded >= 0
    ensures var r := ShadowAt(s, side, px, market, traded, e).1;
            && Picked(r, false) == [] && Picked(r, true) == r
            && 0 <= LotsAt(r, price) <= (if price == px then traded else 0)
  {
    if traded > 0 && px in s.paper.At(side) {
      var pq := s.paper.At(side)[px];
      var r := Shadow(market, pq, traded, 0);
      ShadowSources(market, pq, traded, 0);
      ShadowBounded(market, pq, traded, 0);
      FillsReport(s.seq_, side, px, r.0, ShadowTaker(e), e.source, true, price);
    }
  }

  lemma {:induction false} TradeLevelHist(s: State, e: Event, px: int, left: int)
    requires Inv(s) && left > 0 && px in s.hist.At(e.side.Opposite())
    ensures var maker := e.side.Opposite();
            var c := Consume(s.hist.At(maker)[px], left);
            var t := TradeLevel(s, e, px, left);
            && t.state.hist == s.hist.With(maker, PutQueue(s.hist.At(maker), px, c.rest))
            && t.left == c.left && t.done == (c.rest != []) && t.state.seq_ == s.seq_
  {
    var maker := e.side.Opposite();
    var queue := s.hist.At(maker)[px];
    var c := Consume(queue, left);
    ShadowKeepsBook(Requeue(s, maker, px, c.rest), maker, px, queue, left - c.left, e);
  }

  // ---- the whole order ----------------------------------------------------------------------

  lemma HitRecordsConcat(seq_: nat, maker: Side, a: seq<Hit>, b: seq<Hit>, takerId: int, takerSource: Source)
    ensures HitRecords(seq_, maker, a + b, takerId, takerSource)
         == HitRecords(seq_, maker, a, takerId, takerSource) + HitRecords(seq_, maker, b, takerId, takerSource)
  {
  }

  lemma HitRecordsOfLevel(seq_: nat, maker: Side, px: int, trades: seq<Trade>, takerId: int, takerSource: Source)
    ensures HitRecords(seq_, maker, HitsAt(px, trades), takerId, takerSource)
         == FillsOf(seq_, maker, px, trades, takerId, takerSource)
  {
  }

  /** Real matching reports against historical makers what a dry run from the same state reports. */
  lemma {:induction false} RealIsDryRun(s: State, e: Event, left: int)
    requires Inv(s) && left >= 0
    ensures var maker := e.side.Opposite();
            var m := MatchHistorical(s, e, left);
            var d := DryRun(s.hist.At(maker), maker, Some(e.price), left);
            && Picked(m.records, false) == HitRecords(s.seq_, maker, d.0, e.id, e.source)
            && m.left == d.1
    decreases |s.hist.At(e.side.Opposite())|
  {
    var maker := e.side.Opposite();
    var levels := s.hist.At(maker);
    var best := BestPrice(levels, maker);
    if left > 0 && best.Some? && Crosses(maker, e.price, best.value) {
      var px := best.value;
      var c := Consume(levels[px], left);
      var t := TradeLevel(s, e, px, left);
      TradeLevelReport(s, e, px, left, 0);
      TradeLevelHist(s, e, px, left);
      TradeLevelInv(s, e, px, left);
      var rest := DryRun(levels - {px}, maker, Some(e.price), c.left);
      HitRecordsOfLevel(s.seq_, maker, px, c.trades, e.id, e.source);
      HitRecordsConcat(s.seq_, maker, HitsAt(px, c.trades), rest.0, e.id, e.source);
      if t.done {
        assert rest.0 == [];
      } else {
        RealIsDryRun(t.state, e, t.left);
        ReportConcat(t.records, MatchHistorical(t.state, e, t.left).records, false, 0);
      }
    }
  }

  /** An aggressive trade's first phase is the dry run of an order whose limit reaches every price. */
  lemma {:induction false} NoLimitIsWideLimit(levels: map<int, seq<Order>>, maker: Side, limit: int, left: int)
    requires forall p :: p in levels ==> Crosses(maker, limit, p)
    ensures DryRun(levels, maker, None, left) == DryRun(levels, maker, Some(limit), left)
    decreases |levels|
  {
    var best := BestPrice(levels, maker);
    if left > 0 && best.Some? {
      NoLimitIsWideLimit(levels - {best.value}, maker, limit, Consume(levels[best.value], left).left);
    }
  }

  lemma TradeLevelDepth(s: State, e: Event, px: int, left: int, price: int)
    requires Inv(s) && left > 0 && px in s.hist.At(e.side.Opposite())
    ensures var maker := e.side.Opposite();
            var t := TradeLevel(s, e, px, left);
            && QtyTotal(QueueAt(t.state.hist, maker, price))
               == QtyTotal(QueueAt(s.hist, maker, price)) - (if price == px then left - t.left else 0)
            && t.state.hist.At(e.side) == s.hist.At(e.side)
  {
    var maker := e.side.Opposite();
    TradeLevelHist(s, e, px, left);
    LevelQueue(s, maker, px);
    ConsumeTotals(s.hist.At(maker)[px], left);
  }

  /**
   * A historical order's fills against the book use up its size; the opposite depth falls, price by
   * price, by exactly those fills; shadow fills at a price never exceed the lots traded there.
   */
  lemma {:induction false} MatchConserves(s: State, e: Event, left: int, price: int)
    requires Inv(s) && left >= 0
    ensures var maker := e.side.Opposite();
            var m := MatchHistorical(s, e, left);
            && Lots(Picked(m.records, false)) == left - m.left
            && QtyTotal(QueueAt(m.state.hist, maker, price))
               == QtyTotal(QueueAt(s.hist, maker, price)) - LotsAt(Picked(m.records, false), price)
            && 0 <= LotsAt(Picked(m.records, true), price) <= LotsAt(Picked(m.records, false), price)
            && m.state.hist.At(e.side) == s.hist.At(e.side)
    decreases |s.hist.At(e.side.Opposite())|
  {
    var maker := e.side.Opposite();
    var levels := s.hist.At(maker);
    var best := BestPrice(levels, maker);
    if left > 0 && best.Some? && Crosses(maker, e.price, best.value) {
      var px := best.value;
      var t := TradeLevel(s, e, px, left);
      TradeLevelReport(s, e, px, left, price);
      TradeLevelDepth(s, e, px, left, price);
      TradeLevelInv(s, e, px, left);
      if !t.done {
        MatchConserves(t.state, e, t.left, price);
        var m := MatchHistorical(t.state, e, t.left);
        ReportConcat(t.records, m.records, false, price);
        ReportConcat(t.records, m.records, true, price);
        ReportConcat(Picked(t.records, false), Picked(m.records, false), false, price);
        ReportConcat(Picked(t.records, true), Picked(m.records, true), false, price);
      }
    }
  }

  /** A direct sweep reports exactly the lots it takes from strategy orders. */
  lemma {:induction false} SweepConserves(s: State, e: Event, limit: Option<int>, left: int)
    requires Inv(s) && left >= 0
    ensures var r := SweepPapers(s, e, limit, left);
            Lots(r.records) == left - r.left && Picked(r.records, true) == r.records
    decreases |s.paper.At(e.side.Opposite())|
  {
    var maker := e.side.Opposite();
    var levels := s.paper.At(maker);
    var best := BestPrice(levels, maker);
    if left > 0 && best.Some? && Reaches(maker, limit, best.value) {
      var px := best.value;
      var t := SweepLevel(s, e, px, left);
      assert PaperLevelInv(s, maker, px);
      SweepTotals(levels[px], left);
      SweepSources(levels[px], left);
      FillsReport(s.seq_, maker, px, Sweep(levels[px], left).0, e.id, e.source, true, 0);
      SweepLevelInv(s, e, px, left);
      if !t.done {
        SweepConserves(t.state, e, limit, t.left);
        ReportConcat(t.records, SweepPapers(t.state, e, limit, t.left).records, true, 0);
      }
    }
  }

  /**
   * Conservation for an accepted historical ADD: its size is its fills against historical makers,
   * plus its direct fills against strategy orders, plus what comes to rest.
   */
  lemma {:induction false} AddConserves(s: State, e: Event)
    requires Inv(s) && e.qty >= 0
    ensures var m := MatchHistorical(s, e, e.qty);
            var p := SweepPapers(m.state, e, Some(e.price), m.left);
            && e.qty == Lots(Picked(m.records, false)) + Lots(p.records) + p.left
            && (p.left > 0 ==> NothingCrosses(p.state, e) && NoPaperCrosses(p.state, e))
  {
    var m := MatchHistorical(s, e, e.qty);
    MatchHistoricalInv(s, e, e.qty);
    MatchConserves(s, e, e.qty, 0);
    SweepConserves(m.state, e, Some(e.price), m.left);
    SweepPapersInv(m.state, e, Some(e.price), m.left);
  }

  // ---- price-then-arrival priority ----------------------------------------------------------

  datatype Rung = Rung(price: int, order: Order)

  function RungsAt(price: int, queue: seq<Order>): (r: seq<Rung>)
    ensures |r| == |queue|
    ensures forall i :: 0 <= i < |r| ==> r[i] == Rung(price, queue[i])
  {
    seq(|queue|, i requires 0 <= i < |queue| => Rung(price, queue[i]))
  }

  /** The orders an aggressor can reach, best price first, then by arrival. */
  ghost function Ladder(levels: map<int, seq<Order>>, maker: Side, limit: Option<int>): seq<Rung>
    decreases |levels|
  {
    var best := BestPrice(levels, maker);
    if best.None? || !Reaches(maker, limit, best.value) then []
    else RungsAt(best.value, levels[best.value]) + Ladder(levels - {best.value}, maker, limit)
  }

  /** Takes lots from the front of a ladder. */
  function Taken(rungs: seq<Rung>, left: int): (seq<Hit>, int) {
    if left <= 0 || rungs == [] then ([], left)
    else
      var o := rungs[0].order;
      if left < o.qty then ([Hit(rungs[0].price, Trade(o.id, o.source, left, o.arrival))], 0)
      else
        var r := Taken(rungs[1..], left - o.qty);
        ([Hit(rungs[0].price, Trade(o.id, o.source, o.qty, o.arrival))] + r.0, r.1)
  }

  lemma {:induction false} TakenLevel(px: int, queue: seq<Order>, more: seq<Rung>, left: int)
    requires QueueOk(queue)
    ensures var c := Consume(queue, left);
            var t := Taken(RungsAt(px, queue) + more, left);
            var r := Taken(more, c.left);
            t.0 == HitsAt(px, c.trades) + r.0 && t.1 == r.1
  {
    var rungs := RungsAt(px, queue) + more;
    if queue == [] {
      assert rungs == more;
    } else if left > 0 && left >= queue[0].qty {
      assert rungs[1..] == RungsAt(px, queue[1..]) + more;
      QueueOkTail(queue);
      TakenLevel(px, queue[1..], more, left - queue[0].qty);
      var o := queue[0];
      var c := Consume(queue[1..], left - o.qty);
      var first := Trade(o.id, o.source, o.qty, o.arrival);
      assert HitsAt(px, [first] + c.trades) == [Hit(px, first)] + HitsAt(px, c.trades);
    } else if left > 0 {
      var o := queue[0];
      assert HitsAt(px, [Trade(o.id, o.source, left, o.arrival)]) == [Hit(px, Trade(o.id, o.source, left, o.arrival))];
    }
  }

  ghost predicate QueuesOk(levels: map<int, seq<Order>>) {
    forall p :: p in levels ==> QueueOk(levels[p])
  }

  /** Fills are exactly the front of the ladder, cut at the limit price and the order size. */
  lemma {:induction false} DryRunIsTaken(levels: map<int, seq<Order>>, maker: Side, limit: Option<int>, left: int)
    requires QueuesOk(levels)
    ensures DryRun(levels, maker, limit, left) == Taken(Ladder(levels, maker, limit), left)
    decreases |levels|
  {
    var best := BestPrice(levels, maker);
    if left > 0 && best.Some? && Reaches(maker, limit, best.value) {
      var px := best.value;
      DryRunIsTaken(levels - {px}, maker, limit, Consume(levels[px], left).left);
      TakenLevel(px, levels[px], Ladder(levels - {px}, maker, limit), left);
    }
  }

  /** The ladder holds exactly the live orders whose price the limit reaches. */
  lemma {:induction false} LadderComplete(levels: map<int, seq<Order>>, maker: Side, limit: Option<int>, r: Rung)
    ensures r in Ladder(levels, maker, limit)
       <==> r.price in levels && Reaches(maker, limit, r.price) && r.order in levels[r.price]
    decreases |levels|
  {
    var best := BestPrice(levels, maker);
    if best.Some? && Reaches(maker, limit, best.value) {
      var px := best.value;
      LadderComplete(levels - {px}, maker, limit, r);
      assert r in RungsAt(px, levels[px]) <==> r.price == px && r.order in levels[px];
    } else if r.price in levels {
      assert r.price in levels.Keys;
    }
  }

  ghost predicate Before(maker: Side, a: Rung, b: Rung) {
    || Rank(maker, a.price) > Rank(maker, b.price)
    || (a.price == b.price && a.order.arrival < b.order.arrival)
  }

  ghost predicate InLine(maker: Side, l: seq<Rung>) {
    forall i, j :: 0 <= i < j < |l| ==> Before(maker, l[i], l[j])
  }

  /** The ladder is in strict price-then-arrival order, so no order appears twice. */
  lemma {:induction false} LadderSorted(levels: map<int, seq<Order>>, maker: Side, limit: Option<int>)
    requires QueuesOk(levels)
    ensures InLine(maker, Ladder(levels, maker, limit))
    decreases |levels|
  {
    hide InLine, Rank;
    var best := BestPrice(levels, maker);
    if best.Some? && Reaches(maker, limit, best.value) {
      var px := best.value;
      LadderSorted(levels - {px}, maker, limit);
      WorseBehind(levels, maker, limit, px);
      RungsInFront(px, levels[px], Ladder(levels - {px}, maker, limit), maker);
    } else {
      NoRungs(maker);
    }
  }

  lemma NoRungs(maker: Side)
    ensures InLine(maker, [])
  {
  }

  ghost predicate AllWorse(maker: Side, more: seq<Rung>, px: int) {
    forall j :: 0 <= j < |more| ==> Rank(maker, more[j].price) < Rank(maker, px)
  }

  /** Whatever is left of the ladder after the best price is worse. */
  lemma {:induction false} WorseBehind(levels: map<int, seq<Order>>, maker: Side, limit: Option<int>, px: int)
    requires BestPrice(levels, maker) == Some(px)
    ensures AllWorse(maker, Ladder(levels - {px}, maker, limit), px)
  {
    var more := Ladder(levels - {px}, maker, limit);
    forall j | 0 <= j < |more| ensures Rank(maker, more[j].price) < Rank(maker, px) {
      LadderComplete(levels - {px}, maker, limit, more[j]);
      assert more[j].price in levels.Keys && more[j].price != px;
    }
  }

  lemma RungsInFront(px: int, queue: seq<Order>, more: seq<Rung>, maker: Side)
    requires QueueOk(queue) && InLine(maker, more) && AllWorse(maker, more, px)
    ensures InLine(maker, RungsAt(px, queue) + more)
  {
  }
}
