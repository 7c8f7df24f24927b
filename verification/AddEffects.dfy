/**
 * What incoming orders do, told by the book, the waiting strategy orders and the report before and
 * after: historical and strategy ADDs, and aggressive trades.
 */
module AddEffects {
  import opened Types
  import opened PriceHeap
  import opened Level
  import opened Book
  import opened BookInv
  import opened EngineMatch
  import opened Matching
  import opened Phantom
  import opened AgreementLimits
  import opened PassiveEffects
  import Agreement
  import NonInterference
  import EngineSteps

  // ---- fills, told by their fields ----------------------------------------------------------

  /** The report of these hits on one side, in their order. */
  function FillsOfHits(seq_: nat, maker: Side, hits: seq<Hit>, takerId: int, takerSource: Source): (r: seq<Record>)
    ensures |r| == |hits|
    ensures forall i :: 0 <= i < |hits| ==>
              r[i] == Filled(Fill(seq_, hits[i].price, hits[i].trade.qty, maker, hits[i].trade.id,
                                  hits[i].trade.source, takerId, takerSource))
  {
    seq(|hits|, i requires 0 <= i < |hits| =>
      Filled(Fill(seq_, hits[i].price, hits[i].trade.qty, maker, hits[i].trade.id, hits[i].trade.source,
                  takerId, takerSource)))
  }

  lemma FillsAreHits(seq_: nat, maker: Side, hits: seq<Hit>, takerId: int, takerSource: Source)
    ensures HitRecords(seq_, maker, hits, takerId, takerSource) == FillsOfHits(seq_, maker, hits, takerId, takerSource)
  {
  }

  function HitsOnly(hits: seq<Hit>, price: int): seq<Hit> {
    if hits == [] then [] else (if hits[0].price == price then [hits[0]] else []) + HitsOnly(hits[1..], price)
  }

  function HitsExcept(hits: seq<Hit>, price: int): (r: seq<Hit>)
    ensures |r| <= |hits|
  {
    if hits == [] then [] else (if hits[0].price != price then [hits[0]] else []) + HitsExcept(hits[1..], price)
  }

  function LotsHit(hits: seq<Hit>): int {
    if hits == [] then 0 else hits[0].trade.qty + LotsHit(hits[1..])
  }

  /** Lots traded at one price. */
  function TradedAt(hits: seq<Hit>, price: int): int {
    LotsHit(HitsOnly(hits, price))
  }

  // ---- hits of one level and of the others --------------------------------------------------

  ghost predicate NoHitAt(hits: seq<Hit>, price: int) {
    forall i :: 0 <= i < |hits| ==> hits[i].price != price
  }

  lemma {:induction false} HitsElsewhere(hits: seq<Hit>, price: int)
    requires NoHitAt(hits, price)
    ensures HitsOnly(hits, price) == [] && HitsExcept(hits, price) == hits
  {
    if hits != [] {
      HitsElsewhere(hits[1..], price);
      assert [hits[0]] + hits[1..] == hits;
    }
  }

  lemma {:induction false} OnlyConcat(a: seq<Hit>, b: seq<Hit>, price: int)
    ensures HitsOnly(a + b, price) == HitsOnly(a, price) + HitsOnly(b, price)
  {
    if a == [] {
      assert a + b == b;
      Nothing(HitsOnly(b, price));
    } else {
      assert (a + b)[1..] == a[1..] + b;
      OnlyConcat(a[1..], b, price);
      Regrouped(if a[0].price == price then [a[0]] else [], HitsOnly(a[1..], price), HitsOnly(b, price));
    }
  }

  lemma {:induction false} ExceptConcat(a: seq<Hit>, b: seq<Hit>, price: int)
    ensures HitsExcept(a + b, price) == HitsExcept(a, price) + HitsExcept(b, price)
  {
    if a == [] {
      assert a + b == b;
      Nothing(HitsExcept(b, price));
    } else {
      assert (a + b)[1..] == a[1..] + b;
      ExceptConcat(a[1..], b, price);
      Regrouped(if a[0].price != price then [a[0]] else [], HitsExcept(a[1..], price), HitsExcept(b, price));
    }
  }

  lemma Nothing<T>(s: seq<T>)
    ensures [] + s == s && s + [] == s
  {
  }

  lemma Regrouped<T>(a: seq<T>, b: seq<T>, c: seq<T>)
    ensures a + (b + c) == (a + b) + c
  {
  }

  lemma {:induction false} HitsHere(hits: seq<Hit>, price: int)
    requires forall i :: 0 <= i < |hits| ==> hits[i].price == price
    ensures HitsOnly(hits, price) == hits && HitsExcept(hits, price) == []
  {
    if hits != [] {
      HitsHere(hits[1..], price);
      assert [hits[0]] + hits[1..] == hits;
    }
  }

  lemma {:induction false} HitsOfLevel(px: int, trades: seq<Trade>, more: seq<Hit>, price: int)
    ensures HitsOnly(HitsAt(px, trades) + more, price)
         == (if price == px then HitsAt(px, trades) else []) + HitsOnly(more, price)
    ensures HitsExcept(HitsAt(px, trades) + more, price)
         == (if price == px then [] else HitsAt(px, trades)) + HitsExcept(more, price)
  {
    hide HitsOnly, HitsExcept;
    OnlyConcat(HitsAt(px, trades), more, price);
    ExceptConcat(HitsAt(px, trades), more, price);
    if price == px {
      HitsHere(HitsAt(px, trades), price);
    } else {
      HitsElsewhere(HitsAt(px, trades), price);
    }
  }

  lemma {:induction false} LevelLots(px: int, trades: seq<Trade>)
    ensures LotsHit(HitsAt(px, trades)) == TradeTotal(trades)
  {
    if trades != [] {
      assert HitsAt(px, trades)[1..] == HitsAt(px, trades[1..]);
      LevelLots(px, trades[1..]);
    }
  }

  /** A dry run hits only prices that are there. */
  lemma {:induction false} DryHitsIn(levels: map<int, seq<Order>>, maker: Side, limit: Option<int>, left: int,
                                     price: int)
    requires price !in levels
    ensures NoHitAt(DryRun(levels, maker, limit, left).0, price)
    decreases |levels|
  {
    var best := BestPrice(levels, maker);
    if left > 0 && best.Some? && Reaches(maker, limit, best.value) {
      var px := best.value;
      DryHitsIn(levels - {px}, maker, limit, Consume(levels[px], left).left, price);
    }
  }

  // ---- strategy orders as a ladder ----------------------------------------------------------

  /** Strategy orders seen as orders of a queue. */
  function AsOrders(orders: seq<PaperOrder>): (r: seq<Order>)
    ensures |r| == |orders|
    ensures forall i :: 0 <= i < |r| ==>
              r[i] == Order(orders[i].id, orders[i].remaining, Strategy, orders[i].placement)
  {
    seq(|orders|, i requires 0 <= i < |orders| =>
      Order(orders[i].id, orders[i].remaining, Strategy, orders[i].placement))
  }

  function AsLevels(levels: map<int, PaperQueue>): map<int, seq<Order>> {
    map p | p in levels :: AsOrders(levels[p].orders)
  }

  lemma {:induction false} SweepIsConsume(pq: PaperQueue, left: int)
    requires PapersOk(pq.orders)
    ensures var c := Consume(AsOrders(pq.orders), left);
            var r := Sweep(pq, left);
            r.0 == c.trades && r.1 == c.left && AsOrders(r.2.orders) == c.rest
    decreases |pq.orders|
  {
    hide AsOrders, PapersOk;
    AsOrdersParts(pq.orders);
    if left > 0 && pq.orders != [] {
      var p := pq.orders[0];
      PapersOkTail(pq.orders);
      PapersInFront(pq.orders);
      if left >= p.remaining {
        SweepIsConsume(PaperQueue(pq.orders[1..], pq.phantom + p.remaining), left - p.remaining);
      } else {
        AsOrdersReduced(pq.orders, left);
      }
    }
  }

  lemma PapersInFront(orders: seq<PaperOrder>)
    requires PapersOk(orders) && orders != []
    ensures orders[0].remaining > 0
  {
  }

  lemma AsOrdersParts(orders: seq<PaperOrder>)
    ensures AsOrders(orders) == [] <==> orders == []
    ensures orders != [] ==>
              && AsOrders(orders)[1..] == AsOrders(orders[1..])
              && AsOrders(orders)[0] == Order(orders[0].id, orders[0].remaining, Strategy, orders[0].placement)
  {
  }

  lemma AsOrdersReduced(orders: seq<PaperOrder>, left: int)
    requires orders != []
    ensures var p := orders[0];
            AsOrders([p.(remaining := p.remaining - left)] + orders[1..])
            == [AsOrders(orders)[0].(qty := p.remaining - left)] + AsOrders(orders)[1..]
  {
  }

  lemma AsLevelsOk(s: State, maker: Side)
    requires Inv(s)
    ensures QueuesOk(AsLevels(s.paper.At(maker)))
  {
    forall p | p in s.paper.At(maker) ensures QueueOk(AsLevels(s.paper.At(maker))[p]) {
      assert PaperLevelInv(s, maker, p);
    }
  }

  /** A sweep reports the front of the ladder of strategy orders, cut at the limit and the lots. */
  lemma {:induction false} SweepIsTaken(s: State, e: Event, limit: Option<int>, left: int)
    requires Inv(s) && left >= 0
    ensures var maker := e.side.Opposite();
            var h := Taken(Ladder(AsLevels(s.paper.At(maker)), maker, limit), left);
            var r := SweepPapers(s, e, limit, left);
            && r.records == FillsOfHits(s.seq_, maker, h.0, e.id, e.source)
            && r.left == h.1
  {
    SweepIsDryRun(s, e, limit, left);
    AsLevelsOk(s, e.side.Opposite());
    DryRunIsTaken(AsLevels(s.paper.At(e.side.Opposite())), e.side.Opposite(), limit, left);
  }

  lemma {:induction false} SweepIsDryRun(s: State, e: Event, limit: Option<int>, left: int)
    requires Inv(s) && left >= 0
    ensures var maker := e.side.Opposite();
            var d := DryRun(AsLevels(s.paper.At(maker)), maker, limit, left);
            var r := SweepPapers(s, e, limit, left);
            r.records == FillsOfHits(s.seq_, maker, d.0, e.id, e.source) && r.left == d.1
    decreases |s.paper.At(e.side.Opposite())|
  {
    hide Inv, Sweep, Consume, FillsOfHits, HitsAt;
    var maker := e.side.Opposite();
    var levels := s.paper.At(maker);
    var best := BestPrice(levels, maker);
    SameBest(levels, maker);
    NoFills(s.seq_, maker, e);
    if left > 0 && best.Some? && Reaches(maker, limit, best.value) {
      var px := best.value;
      LevelPapers(s, maker, px);
      SweepIsConsume(levels[px], left);
      var t := SweepLevel(s, e, px, left);
      var c := Consume(AsLevels(levels)[px], left);
      SweepLevelInv(s, e, px, left);
      LevelFills(s.seq_, maker, px, c.trades, e);
      assert AsLevels(levels - {px}) == AsLevels(levels) - {px};
      var rest := DryRun(AsLevels(levels) - {px}, maker, limit, c.left);
      if t.done {
        assert HitsAt(px, c.trades) + [] == HitsAt(px, c.trades);
        DryStops(AsLevels(levels) - {px}, maker, limit, c.left);
      } else {
        SweepShrinks(s, e, px, left);
        SweepIsDryRun(t.state, e, limit, t.left);
        MoreFills(s.seq_, maker, HitsAt(px, c.trades), rest.0, e);
      }
    }
  }

  lemma {:induction false} DryStops(levels: map<int, seq<Order>>, maker: Side, limit: Option<int>, left: int)
    ensures left <= 0 ==> DryRun(levels, maker, limit, left) == ([], left)
  {
  }

  lemma SameBest(levels: map<int, PaperQueue>, maker: Side)
    ensures BestPrice(AsLevels(levels), maker) == BestPrice(levels, maker)
    ensures |AsLevels(levels)| == |levels|
  {
    assert AsLevels(levels).Keys == levels.Keys;
  }

  lemma NoFills(seq_: nat, maker: Side, e: Event)
    ensures FillsOfHits(seq_, maker, [], e.id, e.source) == []
  {
  }

  lemma LevelFills(seq_: nat, maker: Side, px: int, trades: seq<Trade>, e: Event)
    ensures FillsOf(seq_, maker, px, trades, e.id, e.source)
         == FillsOfHits(seq_, maker, HitsAt(px, trades), e.id, e.source)
  {
  }

  lemma MoreFills(seq_: nat, maker: Side, a: seq<Hit>, b: seq<Hit>, e: Event)
    ensures FillsOfHits(seq_, maker, a + b, e.id, e.source)
         == FillsOfHits(seq_, maker, a, e.id, e.source) + FillsOfHits(seq_, maker, b, e.id, e.source)
  {
  }

  // ---- what a sweep leaves ------------------------------------------------------------------

  /** `swept` lots are gone from the front of a level; completely filled orders leave phantom lots. */
  ghost predicate SweptFrom(pq': PaperQueue, pq: PaperQueue, swept: int) {
    && SuffixOf(pq'.orders, pq.orders)
    && RemainingTotal(pq'.orders) == RemainingTotal(pq.orders) - swept
    && pq'.phantom == if pq'.orders == [] then 0
                      else pq.phantom + RemainingTotal(pq.orders[..|pq.orders| - |pq'.orders|])
  }

  lemma SweptNothing(s: State, side: Side, price: int)
    requires Inv(s)
    ensures SweptFrom(PapersAt(s, side, price), PapersAt(s, side, price), 0)
  {
    var pq := PapersAt(s, side, price);
    assert PaperLevelInv(s, side, price);
    assert pq.orders[..0] == [];
  }

  lemma {:induction false} LevelSwept(pq: PaperQueue, left: int)
    requires PapersOk(pq.orders) && pq.orders != [] && left > 0
    ensures var r := Sweep(pq, left);
            SweptFrom(if r.2.orders == [] then PaperQueue([], 0) else r.2, pq, TradeTotal(r.0))
  {
    SweepRest(pq, left);
    SweepTotals(pq, left);
    hide Sweep;
  }

  /** At one price: the level is shortened by what was traded there, and the other side is left alone. */
  ghost predicate SweptAt(s: State, s': State, e: Event, hits: seq<Hit>, price: int) {
    var maker := e.side.Opposite();
    && SweptFrom(PapersAt(s', maker, price), PapersAt(s, maker, price), TradedAt(hits, price))
    && PapersAt(s', e.side, price) == PapersAt(s, e.side, price)
  }

  lemma NothingSwept(s: State, e: Event)
    requires Inv(s)
    ensures forall p :: SweptAt(s, s, e, [], p)
  {
    forall p ensures SweptAt(s, s, e, [], p) {
      NothingHit(p);
      SweptNothing(s, e.side.Opposite(), p);
    }
  }

  /** One level of a sweep. */
  lemma {:induction false} LevelSweptTold(s: State, e: Event, px: int, left: int)
    requires Inv(s) && left > 0 && px in s.paper.At(e.side.Opposite())
    ensures var maker := e.side.Opposite();
            var c := Consume(AsLevels(s.paper.At(maker))[px], left);
            var t := SweepLevel(s, e, px, left);
            && t.left == c.left && t.done == (c.rest != [])
            && SweptFrom(PapersAt(t.state, maker, px), PapersAt(s, maker, px), TradeTotal(c.trades))
            && (t.done || PapersAt(t.state, maker, px) == PaperQueue([], 0))
            && (forall p :: p != px ==> PapersAt(t.state, maker, p) == PapersAt(s, maker, p))
            && (forall p :: PapersAt(t.state, e.side, p) == PapersAt(s, e.side, p))
  {
    hide Inv, Sweep, Consume, SweptFrom, Repaper;
    var maker := e.side.Opposite();
    var pq := s.paper.At(maker)[px];
    LevelPapers(s, maker, px);
    SweepIsConsume(pq, left);
    LevelSwept(pq, left);
    forall p ensures p != px ==> PapersAt(SweepLevel(s, e, px, left).state, maker, p) == PapersAt(s, maker, p)
             ensures PapersAt(SweepLevel(s, e, px, left).state, e.side, p) == PapersAt(s, e.side, p) {
      RepaperElsewhere(s, maker, px, Sweep(pq, left).2, maker, p);
      RepaperElsewhere(s, maker, px, Sweep(pq, left).2, e.side, p);
    }
    RepaperElsewhere(s, maker, px, Sweep(pq, left).2, maker, px);
  }

  /** A sweep leaves every level of its side shortened by what it traded there, and the other side alone. */
  lemma {:induction false} SweepLeaves(s: State, e: Event, limit: Option<int>, left: int, price: int)
    requires Inv(s) && left >= 0
    ensures var maker := e.side.Opposite();
            var d := DryRun(AsLevels(s.paper.At(maker)), maker, limit, left);
            SweptAt(s, SweepPapers(s, e, limit, left).state, e, d.0, price)
    decreases |s.paper.At(e.side.Opposite())|
  {
    hide Inv, SweepLevel, Consume, SweptAt, HitsAt, AsLevels;
    var maker := e.side.Opposite();
    var levels := s.paper.At(maker);
    var best := BestPrice(levels, maker);
    SameBest(levels, maker);
    NothingSwept(s, e);
    if left > 0 && best.Some? && Reaches(maker, limit, best.value) {
      var px := best.value;
      var t := SweepLevel(s, e, px, left);
      var c := Consume(AsLevels(levels)[px], left);
      SweepLevelInv(s, e, px, left);
      LevelSweptTold(s, e, px, left);
      LessLevels(levels, px);
      var rest := DryRun(AsLevels(levels) - {px}, maker, limit, c.left);
      DryHitsIn(AsLevels(levels) - {px}, maker, limit, c.left, px);
      if t.done {
        DryStops(AsLevels(levels) - {px}, maker, limit, c.left);
        NothingSwept(t.state, e);
      } else {
        SweepShrinks(s, e, px, left);
        SweepLeaves(t.state, e, limit, t.left, price);
      }
      SweptNext(s, t.state, SweepPapers(s, e, limit, left).state, e, px, c.trades, rest.0, price);
    }
  }

  lemma LessLevels(levels: map<int, PaperQueue>, px: int)
    ensures AsLevels(levels - {px}) == AsLevels(levels) - {px}
  {
  }

  lemma {:induction false} SweptNext(s: State, t: State, m: State, e: Event, px: int, trades: seq<Trade>,
                                     more: seq<Hit>, p: int)
    requires Inv(s) && Inv(t) && NoHitAt(more, px) && SweptAt(t, m, e, more, p)
    requires var maker := e.side.Opposite();
             && SweptFrom(PapersAt(t, maker, px), PapersAt(s, maker, px), TradeTotal(trades))
             && (m == t || PapersAt(t, maker, px) == PaperQueue([], 0))
             && (forall q :: q != px ==> PapersAt(t, maker, q) == PapersAt(s, maker, q))
             && (forall q :: PapersAt(t, e.side, q) == PapersAt(s, e.side, q))
    ensures SweptAt(s, m, e, HitsAt(px, trades) + more, p)
  {
    hide Inv, HitsAt, HitsOnly, LotsHit;
    TradedFirst(px, trades, more, p);
    if p == px && m != t {
      EmptyStays(PapersAt(m, e.side.Opposite(), px), TradedAt(more, px));
    }
  }

  lemma EmptyStays(pq': PaperQueue, swept: int)
    requires SweptFrom(pq', PaperQueue([], 0), swept)
    ensures pq' == PaperQueue([], 0)
  {
  }

  lemma {:induction false} NothingHit(price: int)
    ensures TradedAt([], price) == 0
  {
  }

  /** The first level's hits count at its price; the others at theirs. */
  lemma {:induction false} TradedFirst(px: int, trades: seq<Trade>, more: seq<Hit>, price: int)
    requires NoHitAt(more, px)
    ensures TradedAt(HitsAt(px, trades) + more, price)
         == if price == px then TradeTotal(trades) else TradedAt(more, price)
  {
    hide HitsOnly, HitsExcept, LotsHit, HitsAt;
    HitsOfLevel(px, trades, more, price);
    HitsElsewhere(more, px);
    LevelLots(px, trades);
    assert HitsAt(px, trades) + [] == HitsAt(px, trades);
    assert [] + HitsOnly(more, price) == HitsOnly(more, price);
  }

  // ---- matching -----------------------------------------------------------------------------

  /** `traded` lots are gone from the front of a queue. */
  ghost predicate TakenFrom(queue': seq<Order>, queue: seq<Order>, traded: int) {
    RestOf(queue', queue) && QtyTotal(queue') == QtyTotal(queue) - traded
  }

  /** The walk of a trade of `traded` lots through the queue of a place by arrival. */
  function WalkAt(s: State, side: Side, price: int, traded: int): (seq<Trade>, seq<PaperOrder>) {
    var pq := PapersAt(s, side, price);
    WalkFifo(Haunted(Merge(QueueAt(s.hist, side, price), pq.orders), pq.phantom), traded)
  }

  /** The strategy orders that such a trade leaves waiting there. */
  function Waits(s: State, side: Side, price: int, traded: int): PaperQueue {
    var w := WalkAt(s, side, price, traded);
    if w.1 == [] then PaperQueue([], 0) else PaperQueue(w.1, PapersAt(s, side, price).phantom)
  }

  /** The fills that such a trade shows to strategy orders. */
  function ShadowRecords(s: State, e: Event, maker: Side, price: int, traded: int): (r: seq<Record>)
  {
    var w := WalkAt(s, maker, price, traded).0;
    seq(|w|, k requires 0 <= k < |w| =>
      Filled(Fill(s.seq_, price, w[k].qty, maker, w[k].id, Strategy, e.id, e.source)))
  }

  /** Level by level, in the order in which they are hit: the fills of the book, then the shadow fills. */
  function BookReport(s: State, e: Event, hits: seq<Hit>): seq<Record>
    decreases |hits|
  {
    if hits == [] then []
    else
      var price := hits[0].price;
      var maker := e.side.Opposite();
      FillsOfHits(s.seq_, maker, HitsOnly(hits, price), e.id, e.source)
      + ShadowRecords(s, e, maker, price, TradedAt(hits, price))
      + BookReport(s, e, HitsExcept(hits[1..], price))
  }

  lemma WaitsNothing(s: State, side: Side, price: int)
    requires Inv(s)
    ensures Waits(s, side, price, 0) == PapersAt(s, side, price)
  {
    var pq := PapersAt(s, side, price);
    var queue := QueueAt(s.hist, side, price);
    assert PaperLevelInv(s, side, price);
    PapersInHaunted(Merge(queue, pq.orders), pq.phantom);
    PapersInMerge(queue, pq.orders);
  }

  lemma TakenNothing(s: State, side: Side, price: int)
    requires Inv(s)
    ensures TakenFrom(QueueAt(s.hist, side, price), QueueAt(s.hist, side, price), 0)
  {
    assert LevelInv(s, side, price);
  }

  /** One level of matching, told by its queue and its strategy orders. */
  lemma {:induction false} LevelTold(s: State, e: Event, px: int, left: int)
    requires Inv(s) && left > 0 && px in s.hist.At(e.side.Opposite()) && e.kind == Add
    ensures var maker := e.side.Opposite();
            var queue := s.hist.At(maker)[px];
            var c := Consume(queue, left);
            var t := TradeLevel(s, e, px, left);
            && TakenFrom(QueueAt(t.state.hist, maker, px), queue, TradeTotal(c.trades))
            && PapersAt(t.state, maker, px) == Waits(s, maker, px, TradeTotal(c.trades))
            && (forall p :: p != px ==> PapersAt(t.state, maker, p) == PapersAt(s, maker, p))
            && (forall p :: PapersAt(t.state, e.side, p) == PapersAt(s, e.side, p))
            && (forall p :: p != px ==> QueueAt(t.state.hist, maker, p) == QueueAt(s.hist, maker, p))
            && t.records == FillsOf(s.seq_, maker, px, c.trades, e.id, e.source)
                            + ShadowRecords(s, e, maker, px, TradeTotal(c.trades))
            && c.trades != [] && t.state.seq_ == s.seq_
  {
    var maker := e.side.Opposite();
    var queue := s.hist.At(maker)[px];
    var c := Consume(queue, left);
    LevelQueue(s, maker, px);
    hide Inv, Consume, Shadow, WalkFifo, Haunted, Merge, ShadowAt, FillsOf, QtyTotal, RestOf, Requeue;
    ConsumeTotals(queue, left);
    ConsumeRest(queue, left);
    TradeLevelHist(s, e, px, left);
    ConsumeSome(queue, left);
    ShadowFills(s, maker, px, TradeTotal(c.trades), e);
    var mid := Requeue(s, maker, px, c.rest);
    MidPaper(s, maker, px, c.rest);
    SameShadow(s, mid, maker, px, queue, TradeTotal(c.trades), e);
    var sh := ShadowAt(s, maker, px, queue, TradeTotal(c.trades), e);
    var t := TradeLevel(s, e, px, left);
    SamePapersEverywhere(sh.0, t.state);
    assert sh.1 == ShadowRecords(s, e, maker, px, TradeTotal(c.trades));
  }

  lemma {:induction false} ConsumeSome(queue: seq<Order>, left: int)
    requires queue != [] && left > 0
    ensures Consume(queue, left).trades != []
  {
  }

  lemma MidPaper(s: State, side: Side, price: int, queue': seq<Order>)
    ensures var mid := Requeue(s, side, price, queue');
            mid.paper == s.paper && mid.paperInfo == s.paperInfo && mid.seq_ == s.seq_
  {
  }

  /** Shadow fills depend on the strategy orders and the given queue only. */
  lemma SameShadow(s: State, t: State, side: Side, price: int, market: seq<Order>, traded: int, e: Event)
    requires t.paper == s.paper && t.seq_ == s.seq_
    ensures ShadowAt(t, side, price, market, traded, e).1 == ShadowAt(s, side, price, market, traded, e).1
    ensures ShadowAt(t, side, price, market, traded, e).0.paper == ShadowAt(s, side, price, market, traded, e).0.paper
    ensures ShadowAt(t, side, price, market, traded, e).0.seq_ == s.seq_
  {
    hide Shadow;
  }

  lemma SamePapersEverywhere(s: State, t: State)
    ensures t.paper == s.paper ==> forall side, price :: PapersAt(t, side, price) == PapersAt(s, side, price)
  {
  }

  /** Levels that a report names look the same in both states. */
  lemma {:induction false} ReportFrame(s: State, t: State, e: Event, hits: seq<Hit>, px: int)
    requires NoHitAt(hits, px) && t.seq_ == s.seq_
    requires forall p :: p != px ==> PapersAt(t, e.side.Opposite(), p) == PapersAt(s, e.side.Opposite(), p)
    requires forall p :: p != px ==> QueueAt(t.hist, e.side.Opposite(), p) == QueueAt(s.hist, e.side.Opposite(), p)
    ensures BookReport(t, e, hits) == BookReport(s, e, hits)
    decreases |hits|
  {
    hide FillsOfHits, WalkFifo, Haunted, Merge;
    if hits != [] {
      var price := hits[0].price;
      ExceptStays(hits[1..], price, px);
      ReportFrame(s, t, e, HitsExcept(hits[1..], price), px);
    }
  }

  lemma {:induction false} ExceptStays(hits: seq<Hit>, price: int, px: int)
    requires NoHitAt(hits, px)
    ensures NoHitAt(HitsExcept(hits, price), px)
  {
    if hits != [] {
      ExceptStays(hits[1..], price, px);
    }
  }

  /** The report of a level and what follows it. */
  lemma {:induction false} ReportFirst(s: State, e: Event, px: int, trades: seq<Trade>, more: seq<Hit>)
    requires trades != [] && NoHitAt(more, px)
    ensures var maker := e.side.Opposite();
            BookReport(s, e, HitsAt(px, trades) + more)
            == FillsOfHits(s.seq_, maker, HitsAt(px, trades), e.id, e.source)
               + ShadowRecords(s, e, maker, px, TradeTotal(trades))
               + BookReport(s, e, more)
  {
    hide FillsOfHits, ShadowRecords;
    var hits := HitsAt(px, trades) + more;
    assert hits[0] == Hit(px, trades[0]);
    assert hits[1..] == HitsAt(px, trades[1..]) + more;
    TradedFirst(px, trades, more, px);
    HitsOfLevel(px, trades, more, px);
    HitsOfLevel(px, trades[1..], more, px);
    HitsElsewhere(more, px);
    assert HitsAt(px, trades) + [] == HitsAt(px, trades);
    assert [] + more == more;
  }

  /** Matching, told level by level: its report, the queues it leaves, and the strategy orders it leaves waiting. */
  lemma {:induction false} MatchTold(s: State, e: Event, left: int)
    requires Inv(s) && left >= 0 && e.kind == Add
    ensures var maker := e.side.Opposite();
            var d := DryRun(s.hist.At(maker), maker, Some(e.price), left);
            var m := MatchHistorical(s, e, left);
            && m.records == BookReport(s, e, d.0) && m.left == d.1 && m.state.seq_ == s.seq_
            && m.state.hist.At(e.side) == s.hist.At(e.side)
            && forall p :: ToldAt(s, m.state, e, d.0, p)
    decreases |s.hist.At(e.side.Opposite())|
  {
    hide Inv, Consume, TradeLevel, ToldAt, BookReport, FillsOf, FillsOfHits, ShadowRecords, HitsAt;
    var maker := e.side.Opposite();
    var levels := s.hist.At(maker);
    var best := BestPrice(levels, maker);
    NothingTold(s, e);
    if left > 0 && best.Some? && Crosses(maker, e.price, best.value) {
      var px := best.value;
      var c := Consume(levels[px], left);
      var t := TradeLevel(s, e, px, left);
      TradeLevelInv(s, e, px, left);
      TradeLevelHist(s, e, px, left);
      LevelTold(s, e, px, left);
      LevelFills(s.seq_, maker, px, c.trades, e);
      var rest := DryRun(levels - {px}, maker, Some(e.price), c.left);
      DryHitsIn(levels - {px}, maker, Some(e.price), c.left, px);
      ReportFirst(s, e, px, c.trades, rest.0);
      if t.done {
        DryStops(levels - {px}, maker, Some(e.price), c.left);
        NothingTold(t.state, e);
        NoReport(s, e);
        assert t.records + [] == t.records;
      } else {
        TradeLevelShrinks(s, e, px, left);
        assert t.state.hist.At(maker) == levels - {px};
        MatchTold(t.state, e, t.left);
        ReportFrame(s, t.state, e, rest.0, px);
      }
      var m := MatchHistorical(s, e, left);
      forall p ensures ToldAt(s, m.state, e, HitsAt(px, c.trades) + rest.0, p) {
        ToldNext(s, t.state, m.state, e, px, c.trades, rest.0, p);
      }
    }
  }

  lemma {:induction false} NoReport(s: State, e: Event)
    ensures BookReport(s, e, []) == []
  {
  }

  /** At one price: lots are gone from the front of the queue, and the strategy orders have had the walk. */
  ghost predicate ToldAt(s: State, s': State, e: Event, hits: seq<Hit>, price: int) {
    var maker := e.side.Opposite();
    && TakenFrom(QueueAt(s'.hist, maker, price), QueueAt(s.hist, maker, price), TradedAt(hits, price))
    && PapersAt(s', maker, price) == Waits(s, maker, price, TradedAt(hits, price))
    && PapersAt(s', e.side, price) == PapersAt(s, e.side, price)
  }

  lemma {:induction false} NothingTold(s: State, e: Event)
    requires Inv(s)
    ensures forall p :: ToldAt(s, s, e, [], p)
    ensures BookReport(s, e, []) == []
  {
    forall p ensures ToldAt(s, s, e, [], p) {
      NothingHit(p);
      TakenNothing(s, e.side.Opposite(), p);
      WaitsNothing(s, e.side.Opposite(), p);
    }
  }

  lemma {:induction false} ToldNext(s: State, t: State, m: State, e: Event, px: int, trades: seq<Trade>, more: seq<Hit>,
                                    p: int)
    requires Inv(s) && Inv(t) && NoHitAt(more, px)
    requires ToldAt(t, m, e, more, p)
    requires var maker := e.side.Opposite();
             && px in s.hist.At(maker)
             && TakenFrom(QueueAt(t.hist, maker, px), s.hist.At(maker)[px], TradeTotal(trades))
             && PapersAt(t, maker, px) == Waits(s, maker, px, TradeTotal(trades))
             && (forall q :: q != px ==> PapersAt(t, maker, q) == PapersAt(s, maker, q))
             && (forall q :: PapersAt(t, e.side, q) == PapersAt(s, e.side, q))
             && (forall q :: q != px ==> QueueAt(t.hist, maker, q) == QueueAt(s.hist, maker, q))
    ensures ToldAt(s, m, e, HitsAt(px, trades) + more, p)
  {
    hide Inv, HitsAt, HitsOnly, LotsHit, WalkFifo, Haunted, Merge, RestOf, QtyTotal;
    TradedFirst(px, trades, more, p);
    if p == px {
      HitsElsewhere(more, px);
      NoLots();
      WaitsNothing(t, e.side.Opposite(), px);
      RestOfTwice(QueueAt(m.hist, e.side.Opposite(), px), QueueAt(t.hist, e.side.Opposite(), px),
                  s.hist.At(e.side.Opposite())[px]);
    }
  }

  lemma {:induction false} NoLots()
    ensures LotsHit([]) == 0
  {
  }

  /** What is left of what was left. */
  lemma RestOfTwice(a: seq<Order>, b: seq<Order>, c: seq<Order>)
    requires RestOf(a, b) && RestOf(b, c)
    ensures RestOf(a, c)
  {
    if a != [] {
      var x, y := |b| - |a|, |c| - |b|;
      assert b[1..] == c[y + 1..];
      if x > 0 {
        assert b[x] == b[1..][x - 1] == c[y + 1..][x - 1] == c[x + y];
        assert b[x + 1..] == b[1..][x..] == c[y + 1..][x..] == c[x + y + 1..];
      }
    }
  }

  // ---- nodes --------------------------------------------------------------------------------

  /** How many orders of a ladder an aggressor takes completely. */
  function Cleared(rungs: seq<Rung>, left: int): nat {
    if left <= 0 || rungs == [] || left < rungs[0].order.qty then 0
    else 1 + Cleared(rungs[1..], left - rungs[0].order.qty)
  }

  lemma {:induction false} ClearedLevel(px: int, queue: seq<Order>, more: seq<Rung>, left: int)
    requires QueueOk(queue)
    ensures var c := Consume(queue, left);
            Cleared(RungsAt(px, queue) + more, left) == |queue| - |c.rest| + Cleared(more, c.left)
  {
    var rungs := RungsAt(px, queue) + more;
    if queue == [] {
      assert rungs == more;
    } else if left > 0 {
      assert rungs[0] == Rung(px, queue[0]);
      if left >= queue[0].qty {
        assert rungs[1..] == RungsAt(px, queue[1..]) + more;
        QueueOkTail(queue);
        ClearedLevel(px, queue[1..], more, left - queue[0].qty);
      } else {
        NoneCleared(more);
      }
    } else {
      NoneCleared(more);
      NothingCleared(more, left);
    }
  }

  lemma {:induction false} NoneCleared(rungs: seq<Rung>)
    ensures Cleared(rungs, 0) == 0
  {
  }

  lemma {:induction false} NothingCleared(rungs: seq<Rung>, left: int)
    ensures left <= 0 ==> Cleared(rungs, left) == 0
  {
  }

  /** Matching frees one node for each order that it takes completely. */
  lemma {:induction false} MatchNodes(s: State, e: Event, left: int)
    requires Inv(s) && left >= 0
    ensures var maker := e.side.Opposite();
            |MatchHistorical(s, e, left).state.nodes|
            == |s.nodes| - Cleared(Ladder(s.hist.At(maker), maker, Some(e.price)), left)
    decreases |s.hist.At(e.side.Opposite())|
  {
    hide Inv, Consume, TradeLevel, Cleared, RungsAt;
    var maker := e.side.Opposite();
    var levels := s.hist.At(maker);
    var best := BestPrice(levels, maker);
    NothingCleared(Ladder(levels, maker, Some(e.price)), left);
    NothingCleared([], left);
    if left > 0 && best.Some? && Crosses(maker, e.price, best.value) {
      var px := best.value;
      var c := Consume(levels[px], left);
      var t := TradeLevel(s, e, px, left);
      var more := Ladder(levels - {px}, maker, Some(e.price));
      TradeLevelInv(s, e, px, left);
      TradeLevelHist(s, e, px, left);
      LevelNodes(s, e, px, left);
      ClearedLevelOf(s, maker, px, more, left);
      NoneCleared(more);
      if !t.done {
        TradeLevelShrinks(s, e, px, left);
        assert t.state.hist.At(maker) == levels - {px};
        MatchNodes(t.state, e, t.left);
      }
    } else {
      ClearedNone(left);
    }
  }

  lemma {:induction false} ClearedNone(left: int)
    ensures Cleared([], left) == 0
  {
  }

  lemma {:induction false} ClearedLevelOf(s: State, maker: Side, px: int, more: seq<Rung>, left: int)
    requires Inv(s) && px in s.hist.At(maker)
    ensures var c := Consume(s.hist.At(maker)[px], left);
            Cleared(RungsAt(px, s.hist.At(maker)[px]) + more, left)
            == |s.hist.At(maker)[px]| - |c.rest| + Cleared(more, c.left)
  {
    LevelQueue(s, maker, px);
    ClearedLevel(px, s.hist.At(maker)[px], more, left);
  }

  lemma {:induction false} LevelNodes(s: State, e: Event, px: int, left: int)
    requires Inv(s) && left > 0 && px in s.hist.At(e.side.Opposite())
    ensures var queue := s.hist.At(e.side.Opposite())[px];
            |TradeLevel(s, e, px, left).state.nodes| == |s.nodes| - (|queue| - |Consume(queue, left).rest|)
  {
    var maker := e.side.Opposite();
    var queue := s.hist.At(maker)[px];
    var c := Consume(queue, left);
    LevelQueue(s, maker, px);
    ConsumeRest(queue, left);
    RestIsThinned(c.rest, queue);
    NonInterference.NodesFreed(s, maker, px, c.rest);
    ShadowKeepsBook(Requeue(s, maker, px, c.rest), maker, px, queue, left - c.left, e);
    hide Inv, Consume, Requeue, ShadowAt;
  }

  // ---- a historical ADD ---------------------------------------------------------------------

  /** The hits of an ADD against the historical book, and the lots it has left then. */
  ghost function BookHits(s: State, e: Event): (seq<Hit>, int) {
    var maker := e.side.Opposite();
    Taken(Ladder(s.hist.At(maker), maker, Some(e.price)), e.qty)
  }

  /** The strategy orders that wait on the other side once the book has traded. */
  ghost function WaitingAfter(s: State, e: Event): map<int, PaperQueue> {
    var maker := e.side.Opposite();
    var hits := BookHits(s, e).0;
    map p | p in s.paper.At(maker) && Waits(s, maker, p, TradedAt(hits, p)).orders != [] ::
      Waits(s, maker, p, TradedAt(hits, p))
  }

  /** The hits of its direct sweep of these strategy orders, and the lots it has left at last. */
  ghost function SweepHits(s: State, e: Event): (seq<Hit>, int) {
    var maker := e.side.Opposite();
    Taken(Ladder(AsLevels(WaitingAfter(s, e)), maker, Some(e.price)), BookHits(s, e).1)
  }

  lemma {:induction false} BookHitsAre(s: State, e: Event)
    requires Inv(s)
    ensures var maker := e.side.Opposite();
            DryRun(s.hist.At(maker), maker, Some(e.price), e.qty) == BookHits(s, e)
  {
    var maker := e.side.Opposite();
    forall p | p in s.hist.At(maker) ensures QueueOk(s.hist.At(maker)[p]) {
      assert LevelInv(s, maker, p);
    }
    DryRunIsTaken(s.hist.At(maker), maker, Some(e.price), e.qty);
  }

  /** The strategy orders after matching, level by level. */
  lemma WaitingAre(s: State, m: State, e: Event)
    requires Inv(s) && Inv(m) && forall p :: ToldAt(s, m, e, BookHits(s, e).0, p)
    ensures m.paper.At(e.side.Opposite()) == WaitingAfter(s, e)
  {
    hide Inv, BookHits, WalkFifo, Haunted, Merge, TradedAt;
    var maker := e.side.Opposite();
    var w := WaitingAfter(s, e);
    forall p
      ensures p in m.paper.At(maker) <==> p in w
      ensures p in w ==> m.paper.At(maker)[p] == w[p]
    {
      assert ToldAt(s, m, e, BookHits(s, e).0, p);
      LevelThere(m, maker, p);
      if p !in s.paper.At(maker) {
        Nobody(QueueAt(s.hist, maker, p), TradedAt(BookHits(s, e).0, p));
      }
    }
  }

  /** A level is stored while orders wait at it. */
  lemma LevelThere(s: State, side: Side, price: int)
    requires Inv(s)
    ensures price in s.paper.At(side) <==> PapersAt(s, side, price).orders != []
  {
    assert PaperLevelInv(s, side, price);
  }

  lemma {:induction false} AddSteps(caps: Caps, s: State, e: Event)
    requires Inv(s) && AcceptedAdd(s, e)
    ensures var m := MatchHistorical(s, e, e.qty);
            var p := SweepPapers(m.state, e, Some(e.price), m.left);
            && Step(caps, s, e).1 == [Applied(s.seq_, e)] + (m.records + p.records)
            && Step(caps, s, e).0.(seq_ := p.state.seq_)
               == (if p.left > 0 then RestHistorical(caps, p.state, e, p.left) else p.state)
            && Step(caps, s, e).0.seq_ == p.state.seq_ + 1
            && Inv(m.state) && m.left >= 0
            && forall q :: ToldAt(s, m.state, e, BookHits(s, e).0, q)
  {
    hide Inv, MatchHistorical, SweepPapers, ToldAt, DryRun, BookReport;
    MatchTold(s, e, e.qty);
    MatchHistoricalInv(s, e, e.qty);
    BookHitsAre(s, e);
    var m := MatchHistorical(s, e, e.qty);
    var p := SweepPapers(m.state, e, Some(e.price), m.left);
    RestCounts(caps, p.state, e, p.left);
  }

  lemma RestCounts(caps: Caps, s: State, e: Event, qty: int)
    ensures RestHistorical(caps, s, e, qty).seq_ == s.seq_
  {
  }

  /** What matching and the sweep come to, told by the state before. */
  lemma {:induction false} AddTold(s: State, e: Event)
    requires Inv(s) && AcceptedAdd(s, e)
    ensures var maker := e.side.Opposite();
            var m := MatchHistorical(s, e, e.qty);
            var p := SweepPapers(m.state, e, Some(e.price), m.left);
            && m.records == BookReport(s, e, BookHits(s, e).0) && m.left == BookHits(s, e).1 >= 0
            && m.state.seq_ == s.seq_ && m.state.clock == s.clock && m.state.hist.At(e.side) == s.hist.At(e.side)
            && m.state.paper.At(maker) == WaitingAfter(s, e)
            && p.records == FillsOfHits(s.seq_, maker, SweepHits(s, e).0, e.id, e.source) && p.left == SweepHits(s, e).1
            && SameBook(m.state, p.state)
            && (forall q :: ToldAt(s, m.state, e, BookHits(s, e).0, q))
            && (forall q :: SweptAt(m.state, p.state, e, SweepHits(s, e).0, q))
  {
    hide Inv, MatchHistorical, SweepPapers, ToldAt, SweptAt, DryRun, Ladder, Taken, BookReport, FillsOfHits, AsLevels;
    var maker := e.side.Opposite();
    MatchTold(s, e, e.qty);
    MatchHistoricalInv(s, e, e.qty);
    MatchKeepsIds(s, e, e.qty);
    BookHitsAre(s, e);
    var m := MatchHistorical(s, e, e.qty);
    WaitingAre(s, m.state, e);
    SweepIsTaken(m.state, e, Some(e.price), m.left);
    SweepPapersInv(m.state, e, Some(e.price), m.left);
    AsLevelsOk(m.state, maker);
    DryRunIsTaken(AsLevels(m.state.paper.At(maker)), maker, Some(e.price), m.left);
    forall q ensures SweptAt(m.state, SweepPapers(m.state, e, Some(e.price), m.left).state, e, SweepHits(s, e).0, q) {
      SweepLeaves(m.state, e, Some(e.price), m.left, q);
    }
  }

  /** The report of an accepted historical ADD, record by record. */
  lemma {:induction false} AddReport(caps: Caps, s: State, e: Event)
    requires Inv(s) && AcceptedAdd(s, e)
    ensures Step(caps, s, e).1
         == [Applied(s.seq_, e)] + BookReport(s, e, BookHits(s, e).0)
            + FillsOfHits(s.seq_, e.side.Opposite(), SweepHits(s, e).0, e.id, e.source)
    ensures Step(caps, s, e).0.seq_ == s.seq_ + 1
  {
    hide Inv, MatchHistorical, SweepPapers, ToldAt, SweptAt, BookReport, FillsOfHits, BookHits, SweepHits, Step;
    AddSteps(caps, s, e);
    AddTold(s, e);
    Regrouped([Applied(s.seq_, e)], BookReport(s, e, BookHits(s, e).0),
              FillsOfHits(s.seq_, e.side.Opposite(), SweepHits(s, e).0, e.id, e.source));
  }

  /**
   * The other side after an accepted historical ADD: every queue has lost from its front what was
   * traded there, and every level of strategy orders has had its walk and then its part of the sweep.
   */
  lemma AddTakes(caps: Caps, s: State, e: Event, price: int)
    requires Inv(s) && AcceptedAdd(s, e)
    ensures var maker := e.side.Opposite();
            var s' := Step(caps, s, e).0;
            var traded := TradedAt(BookHits(s, e).0, price);
            && TakenFrom(QueueAt(s'.hist, maker, price), QueueAt(s.hist, maker, price), traded)
            && SweptFrom(PapersAt(s', maker, price), Waits(s, maker, price, traded), TradedAt(SweepHits(s, e).0, price))
            && PapersAt(s', e.side, price) == PapersAt(s, e.side, price)
  {
    hide Inv, MatchHistorical, SweepPapers, BookReport, FillsOfHits, BookHits, SweepHits, Step, TradedAt, Waits,
         TakenFrom, SweptFrom;
    AddSteps(caps, s, e);
    AddTold(s, e);
    var m := MatchHistorical(s, e, e.qty);
    var p := SweepPapers(m.state, e, Some(e.price), m.left);
    assert ToldAt(s, m.state, e, BookHits(s, e).0, price) && SweptAt(m.state, p.state, e, SweepHits(s, e).0, price);
    RestElsewhere(caps, p.state, e, p.left, price);
    CountKeeps(p.state, RestHistorical(caps, p.state, e, p.left), Step(caps, s, e).0, p.left > 0);
  }

  lemma CountKeeps(p: State, r: State, s': State, rests: bool)
    requires s'.(seq_ := p.seq_) == if rests then r else p
    ensures forall side, price :: PapersAt(s', side, price) == PapersAt(if rests then r else p, side, price)
    ensures s'.hist == (if rests then r else p).hist && s'.clock == (if rests then r else p).clock
    ensures s'.info == (if rests then r else p).info && s'.nodes == (if rests then r else p).nodes
  {
    var x := if rests then r else p;
    assert s'.(seq_ := p.seq_).paper == s'.paper && s'.(seq_ := p.seq_).hist == s'.hist;
    assert s'.paper == x.paper;
  }

  lemma RestElsewhere(caps: Caps, s: State, e: Event, qty: int, price: int)
    ensures var s' := RestHistorical(caps, s, e, qty);
            && QueueAt(s'.hist, e.side.Opposite(), price) == QueueAt(s.hist, e.side.Opposite(), price)
            && (forall side, q :: PapersAt(s', side, q) == PapersAt(s, side, q))
  {
  }

  /** Whether lots are left to rest, and a node for them. */
  ghost predicate Rests(caps: Caps, s: State, e: Event) {
    var maker := e.side.Opposite();
    && SweepHits(s, e).1 > 0
    && |s.nodes| - Cleared(Ladder(s.hist.At(maker), maker, Some(e.price)), e.qty) < caps.historical
  }

  /**
   * The own side after an accepted historical ADD: what neither the book nor the strategy orders
   * took joins the end of its queue, if there is a node, and is found under its id; nothing else
   * changes there.
   */
  lemma AddRests(caps: Caps, s: State, e: Event)
    requires Inv(s) && AcceptedAdd(s, e)
    ensures var s' := Step(caps, s, e).0;
            var rest := SweepHits(s, e).1;
            var queue := QueueAt(s.hist, e.side, e.price);
            && (Rests(caps, s, e) ==>
                  && QueueAt(s'.hist, e.side, e.price) == queue + [Order(e.id, rest, e.source, s.clock)]
                  && s'.clock == s.clock + 1
                  && e.id in s'.info && s'.info[e.id] == Loc(e.side, e.price, s.clock)
                  && LiveQty(s', e.id) == rest)
            && (!Rests(caps, s, e) ==>
                  QueueAt(s'.hist, e.side, e.price) == queue && s'.clock == s.clock && e.id !in s'.info)
            && (forall p :: p != e.price ==> QueueAt(s'.hist, e.side, p) == QueueAt(s.hist, e.side, p))
  {
    hide Inv, MatchHistorical, SweepPapers, ToldAt, SweptAt, BookReport, FillsOfHits, BookHits, SweepHits, Step,
         Cleared, Ladder, LiveQty;
    AddSteps(caps, s, e);
    AddTold(s, e);
    MatchNodes(s, e, e.qty);
    AddReady(s, e);
    StepInv(caps, s, e);
    var m := MatchHistorical(s, e, e.qty);
    var p := SweepPapers(m.state, e, Some(e.price), m.left);
    var s' := Step(caps, s, e).0;
    RestHistoricalParts(caps, p.state, e, p.left);
    CountKeeps(p.state, RestHistorical(caps, p.state, e, p.left), s', p.left > 0);
    SameSide(s, p.state, e.side);
    if Rests(caps, s, e) {
      LiveAtEnd(s', e.id, QueueAt(s.hist, e.side, e.price), Order(e.id, p.left, e.source, s.clock));
    }
  }

  lemma SameSide(s: State, p: State, side: Side)
    requires p.hist.At(side) == s.hist.At(side)
    ensures forall price :: QueueAt(p.hist, side, price) == QueueAt(s.hist, side, price)
  {
  }

  /** An order that is indexed at the end of its queue is found there. */
  lemma LiveAtEnd(s: State, id: int, queue: seq<Order>, o: Order)
    requires Inv(s) && id in s.info && o.arrival == s.info[id].arrival
    requires QueueAt(s.hist, s.info[id].side, s.info[id].price) == queue + [o]
    ensures LiveQty(s, id) == o.qty
  {
    var loc := s.info[id];
    assert LevelInv(s, loc.side, loc.price);
    var i := IndexOf(queue + [o], loc.arrival);
    assert (queue + [o])[|queue|] == o;
  }

  /** What is left to rest, in numbers: the lots that the book has left, less the strategy lots within the limit. */
  lemma {:induction false} RestIs(s: State, e: Event)
    requires Inv(s) && AcceptedAdd(s, e)
    ensures var maker := e.side.Opposite();
            SweepHits(s, e).1
            == Max(Taken(Ladder(s.hist.At(maker), maker, Some(e.price)), e.qty).1
                   - ReachedLots(Waiting(s, maker, e.price), maker, Some(e.price)), 0)
  {
    hide Inv, MatchHistorical, SweepPapers, ToldAt, SweptAt, BookReport, FillsOfHits, SweepHits, ReachedLots, Waiting,
         Ladder, Taken;
    var maker := e.side.Opposite();
    AddTold(s, e);
    MatchHistoricalInv(s, e, e.qty);
    MatchWaiting(s, e, e.qty);
    var m := MatchHistorical(s, e, e.qty);
    SweepLeft(m.state, e, Some(e.price), m.left);
    if m.left == 0 {
      ReachedStep(m.state, maker, Some(e.price));
      WaitingPositive(s, e);
    }
  }

  lemma WaitingPositive(s: State, e: Event)
    requires Inv(s)
    ensures ReachedLots(Waiting(s, e.side.Opposite(), e.price), e.side.Opposite(), Some(e.price)) >= 0
  {
    var maker := e.side.Opposite();
    var w := Waiting(s, maker, e.price);
    forall p | p in w ensures PapersOk(w[p].orders) {
      LevelPapers(s, maker, p);
      var pq := s.paper.At(maker)[p];
      ShadowRest(QueueAt(s.hist, maker, p), pq, QtyTotal(QueueAt(s.hist, maker, p)), 0);
      SuffixOfOk(Shadow(QueueAt(s.hist, maker, p), pq, QtyTotal(QueueAt(s.hist, maker, p)), 0).1.orders, pq.orders);
    }
    ReachedNonNegative(maker, w, Some(e.price));
  }

  /**
   * The order that comes to rest and the depth at its price, in the numbers of the state before:
   * both are what the ladder within the limit leaves of the order, less the strategy lots that wait
   * within the limit.
   */
  lemma AddDepth(caps: Caps, s: State, e: Event)
    requires Inv(s) && AcceptedAdd(s, e) && Rests(caps, s, e)
    ensures var maker := e.side.Opposite();
            var s' := Step(caps, s, e).0;
            var rest := Max(Taken(Ladder(s.hist.At(maker), maker, Some(e.price)), e.qty).1
                            - ReachedLots(Waiting(s, maker, e.price), maker, Some(e.price)), 0);
            && LiveQty(s', e.id) == rest > 0
            && QtyTotal(QueueAt(s'.hist, e.side, e.price)) == QtyTotal(QueueAt(s.hist, e.side, e.price)) + rest
            && forall p :: p != e.price ==>
                 QtyTotal(QueueAt(s'.hist, e.side, p)) == QtyTotal(QueueAt(s.hist, e.side, p))
  {
    hide Inv, SweepHits, Step, ReachedLots, Waiting, Ladder, Taken, Cleared, QtyTotal;
    AddRests(caps, s, e);
    RestIs(s, e);
    var o := Order(e.id, SweepHits(s, e).1, e.source, s.clock);
    QtyTotalConcat(QueueAt(s.hist, e.side, e.price), [o]);
    OneTotal(o);
  }

  /**
   * Where the lots of an accepted historical ADD are after it: in its fills against the book, in its
   * direct fills against strategy orders, and in the order that rests under its id, or lost if the
   * pool is exhausted.
   */
  lemma {:induction false} AddSettles(caps: Caps, s: State, e: Event)
    requires Inv(s) && AcceptedAdd(s, e)
    ensures var s' := Step(caps, s, e).0;
            && e.qty == LotsHit(BookHits(s, e).0) + LotsHit(SweepHits(s, e).0)
                        + (if Rests(caps, s, e) then LiveQty(s', e.id) else SweepHits(s, e).1)
            && (!Rests(caps, s, e) ==> LiveQty(s', e.id) == 0)
  {
    hide Inv, Step, Ladder, Rests, AsLevels, WaitingAfter;
    var maker := e.side.Opposite();
    AddRests(caps, s, e);
    TakenLots(Ladder(s.hist.At(maker), maker, Some(e.price)), e.qty);
    TakenLots(Ladder(AsLevels(WaitingAfter(s, e)), maker, Some(e.price)), BookHits(s, e).1);
  }

  lemma {:induction false} TakenLots(rungs: seq<Rung>, left: int)
    ensures LotsHit(Taken(rungs, left).0) + Taken(rungs, left).1 == left
  {
    if left > 0 && rungs != [] {
      var o := rungs[0].order;
      var hit := Hit(rungs[0].price, Trade(o.id, o.source, Min(left, o.qty), o.arrival));
      NoLots();
      if left < o.qty {
        assert [hit][1..] == [];
      } else {
        TakenLots(rungs[1..], left - o.qty);
        var r := Taken(rungs[1..], left - o.qty);
        assert ([hit] + r.0)[1..] == r.0;
      }
    } else {
      NoLots();
    }
  }

  lemma {:induction false} OneTotal(o: Order)
    ensures QtyTotal([o]) == o.qty
  {
    assert [o][1..] == [];
    assert QtyTotal([o][1..]) == 0;
  }

  /** An ADD of less than no lots, or under an id in use, is logged and counted and does nothing else. */
  lemma AddRefusedCounts(caps: Caps, s: State, e: Event)
    requires e.kind == Add && (e.qty < 0 || e.id in s.info || e.id in s.paperInfo)
    ensures Step(caps, s, e) == (s.(seq_ := s.seq_ + 1), [Applied(s.seq_, e)])
  {
    assert [Applied(s.seq_, e)] + [] == [Applied(s.seq_, e)];
  }

  // ---- a strategy ADD -----------------------------------------------------------------------

  /**
   * An accepted strategy ADD reports the hits of an historical one but leaves the book as it is;
   * what the ladder leaves of it joins the end of the strategy orders at its price, if the pool has
   * room.
   */
  lemma OwnAdd(caps: Caps, s: State, e: Event)
    requires Inv(s) && e.kind == Add && e.source == Strategy && e.qty >= 0
    requires e.id !in s.info && e.id !in s.paperInfo
    ensures var r := Step(caps, s, e);
            var h := BookHits(s, e);
            var pq := PapersAt(s, e.side, e.price);
            var rests := h.1 > 0 && |s.paperInfo| < caps.paper;
            && r.1 == [Applied(s.seq_, e)] + FillsOfHits(s.seq_, e.side.Opposite(), h.0, e.id, e.source)
            && r.0.hist == s.hist && r.0.nodes == s.nodes && r.0.info == s.info && r.0.seq_ == s.seq_ + 1
            && PapersAt(r.0, e.side, e.price)
               == (if rests then pq.(orders := pq.orders + [PaperOrder(e.id, h.1, s.clock)]) else pq)
            && (forall side, p :: side != e.side || p != e.price ==> PapersAt(r.0, side, p) == PapersAt(s, side, p))
            && r.0.clock == (if rests then s.clock + 1 else s.clock)
            && r.0.paperInfo == (if rests then s.paperInfo[e.id := Place(e.side, e.price)] else s.paperInfo)
  {
    hide Inv, DryRun, FillsOfHits, Ladder, Taken;
    BookHitsAre(s, e);
    FillsAreHits(s.seq_, e.side.Opposite(), BookHits(s, e).0, e.id, e.source);
    RestPaperPlace(caps, s, e, BookHits(s, e).1);
    SamePapersEverywhere(s, Step(caps, s, e).0);
    SamePapersEverywhere(RestPaper(caps, s, e, BookHits(s, e).1), Step(caps, s, e).0);
    hide BookHits, RestPaper;
  }

  lemma RestPaperPlace(caps: Caps, s: State, e: Event, qty: int)
    ensures var s' := RestPaper(caps, s, e, qty);
            var pq := PapersAt(s, e.side, e.price);
            && SameBook(s, s'.(clock := s.clock))
            && (|s.paperInfo| >= caps.paper ==> s' == s)
            && (|s.paperInfo| < caps.paper ==>
                  && PapersAt(s', e.side, e.price) == pq.(orders := pq.orders + [PaperOrder(e.id, qty, s.clock)])
                  && (forall side, p :: side != e.side || p != e.price ==>
                      PapersAt(s', side, p) == PapersAt(s, side, p))
                  && s'.clock == s.clock + 1 && s'.paperInfo == s.paperInfo[e.id := Place(e.side, e.price)])
  {
  }

  // ---- an aggressive trade ------------------------------------------------------------------

  /** The hits of an aggressive trade against the book, which has no limit. */
  ghost function TradeHits(s: State, e: Event): (seq<Hit>, int) {
    var maker := e.side.Opposite();
    Taken(Ladder(s.hist.At(maker), maker, None), e.qty)
  }

  /** Its hits of the strategy orders on that side. */
  ghost function TradeSweep(s: State, e: Event): (seq<Hit>, int) {
    var maker := e.side.Opposite();
    Taken(Ladder(AsLevels(s.paper.At(maker)), maker, None), TradeHits(s, e).1)
  }

  /**
   * A valid aggressive trade reports the front of the whole ladder, then the front of the ladder of
   * strategy orders. The book stays; the levels of strategy orders lose what was traded there. The
   * event is counted twice.
   */
  lemma AggressiveTold(caps: Caps, s: State, e: Event)
    requires Inv(s) && e.kind == AggressiveTrade && e.source == Strategy && e.qty > 0
    ensures var maker := e.side.Opposite();
            var r := Step(caps, s, e);
            && r.1 == [Applied(s.seq_, e)] + FillsOfHits(s.seq_, maker, TradeHits(s, e).0, e.id, e.source)
                      + FillsOfHits(s.seq_, maker, TradeSweep(s, e).0, e.id, e.source)
            && r.0.hist == s.hist && r.0.nodes == s.nodes && r.0.info == s.info && r.0.clock == s.clock
            && (forall p ::
                  && SweptFrom(PapersAt(r.0, maker, p), PapersAt(s, maker, p), TradedAt(TradeSweep(s, e).0, p))
                  && PapersAt(r.0, e.side, p) == PapersAt(s, e.side, p))
            && r.0.seq_ == s.seq_ + 2
  {
    var p := SweepPapers(s, e, None, TradeHits(s, e).1);
    TradeSteps(caps, s, e);
    SamePapersEverywhere(p.state, Step(caps, s, e).0);
    hide Inv, SweepPapers, FillsOfHits, TradeHits, TradeSweep, SweptFrom, TradedAt, Step;
    var maker := e.side.Opposite();
    var s' := Step(caps, s, e).0;
    forall q
      ensures SweptFrom(PapersAt(s', maker, q), PapersAt(s, maker, q), TradedAt(TradeSweep(s, e).0, q))
           && PapersAt(s', e.side, q) == PapersAt(s, e.side, q)
    {
      TradeSweptAt(s, e, q);
      assert PapersAt(s', maker, q) == PapersAt(p.state, maker, q);
      assert PapersAt(s', e.side, q) == PapersAt(p.state, e.side, q);
    }
  }

  lemma {:induction false} TradeSteps(caps: Caps, s: State, e: Event)
    requires Inv(s) && e.kind == AggressiveTrade && e.source == Strategy && e.qty > 0
    ensures var maker := e.side.Opposite();
            var r := Step(caps, s, e);
            var p := SweepPapers(s, e, None, TradeHits(s, e).1);
            && r.0 == p.state.(seq_ := s.seq_ + 2)
            && r.1 == [Applied(s.seq_, e)] + FillsOfHits(s.seq_, maker, TradeHits(s, e).0, e.id, e.source)
                      + FillsOfHits(s.seq_, maker, TradeSweep(s, e).0, e.id, e.source)
            && SameBook(s, p.state)
  {
    hide Inv, DryRun, SweepPapers, FillsOfHits, Ladder, Taken, AsLevels, HitRecords;
    var maker := e.side.Opposite();
    BookOk(s, maker);
    DryRunIsTaken(s.hist.At(maker), maker, None, e.qty);
    AggressiveLeft(s, e);
    FillsAreHits(s.seq_, maker, TradeHits(s, e).0, e.id, e.source);
    SweepIsTaken(s, e, None, TradeHits(s, e).1);
    SweepPapersInv(s, e, None, TradeHits(s, e).1);
    Regrouped([Applied(s.seq_, e)], FillsOfHits(s.seq_, maker, TradeHits(s, e).0, e.id, e.source),
              FillsOfHits(s.seq_, maker, TradeSweep(s, e).0, e.id, e.source));
  }

  lemma {:induction false} TradeSweptAt(s: State, e: Event, price: int)
    requires Inv(s) && e.qty > 0
    ensures SweptAt(s, SweepPapers(s, e, None, TradeHits(s, e).1).state, e, TradeSweep(s, e).0, price)
  {
    hide Inv, DryRun, SweepPapers, Ladder, Taken, AsLevels, SweptAt;
    var maker := e.side.Opposite();
    BookOk(s, maker);
    DryRunIsTaken(s.hist.At(maker), maker, None, e.qty);
    AggressiveLeft(s, e);
    AsLevelsOk(s, maker);
    DryRunIsTaken(AsLevels(s.paper.At(maker)), maker, None, TradeHits(s, e).1);
    SweepLeaves(s, e, None, TradeHits(s, e).1, price);
  }

  lemma BookOk(s: State, maker: Side)
    requires Inv(s)
    ensures QueuesOk(s.hist.At(maker))
  {
    forall p | p in s.hist.At(maker) ensures QueueOk(s.hist.At(maker)[p]) {
      assert LevelInv(s, maker, p);
    }
  }

  /** Any other aggressive trade is logged and counted once. */
  lemma AggressiveRefused(caps: Caps, s: State, e: Event)
    requires e.kind == AggressiveTrade && (e.source != Strategy || e.qty <= 0)
    ensures Step(caps, s, e) == (s.(seq_ := s.seq_ + 1), [Applied(s.seq_, e)])
  {
    assert [Applied(s.seq_, e)] + [] == [Applied(s.seq_, e)];
  }

  // ---- the event counter --------------------------------------------------------------------

  /** How often an event counts. */
  function Counts(e: Event): nat {
    if e.kind == AggressiveTrade && e.source == Strategy && e.qty > 0 then 2 else 1
  }

  function CountAll(events: seq<Event>): nat {
    if events == [] then 0 else CountAll(events[..|events| - 1]) + Counts(events[|events| - 1])
  }

  ghost predicate Stamped(records: seq<Record>, seq_: nat) {
    forall i :: 0 <= i < |records| ==>
      (if records[i].Applied? then records[i].seq_ else records[i].fill.seq_) == seq_
  }

  /** Every event counts once, a valid aggressive trade twice, and its whole report carries the count before it. */
  lemma StepCounts(caps: Caps, s: State, e: Event)
    requires Inv(s)
    ensures Step(caps, s, e).0.seq_ == s.seq_ + Counts(e)
    ensures Stamped(Step(caps, s, e).1, s.seq_)
  {
    hide Inv, BookReport, FillsOfHits, BookHits, SweepHits, TradeHits, TradeSweep, Step;
    if e.kind == Add {
      AddCounts(caps, s, e);
    } else if e.kind == AggressiveTrade {
      if e.source == Strategy && e.qty > 0 {
        AggressiveTold(caps, s, e);
        FillsStamped(s.seq_, e.side.Opposite(), TradeHits(s, e).0, e);
        FillsStamped(s.seq_, e.side.Opposite(), TradeSweep(s, e).0, e);
      } else {
        AggressiveRefused(caps, s, e);
      }
    } else if e.kind == Match && e.id in s.info && e.qty > 0 {
      MatchCounts(caps, s, e);
    } else if e.source == Strategy && e.kind != Match && e.id in s.paperInfo {
      var i := OwnCancelPlace(caps, s, e);
    } else if e.source != Strategy && e.kind != Match && e.id in s.info {
      var i := CancelPlace(caps, s, e);
    } else {
      UnknownCounts(caps, s, e);
    }
  }

  lemma MatchCounts(caps: Caps, s: State, e: Event)
    requires Inv(s) && e.kind == Match && e.id in s.info && e.qty > 0
    ensures Step(caps, s, e).0.seq_ == s.seq_ + 1
    ensures Stamped(Step(caps, s, e).1, s.seq_)
  {
    hide Inv, Step, OneQueue, OnePapers, WalkFifo, Haunted, Merge, WithQty;
    var loc := s.info[e.id];
    var i := MatchFills(caps, s, e);
    var queue := QueueAt(s.hist, loc.side, loc.price);
    var pq := PapersAt(s, loc.side, loc.price);
    var w := WalkFifo(Haunted(Merge(queue, pq.orders), pq.phantom), Min(queue[i].qty, e.qty));
    var r := Step(caps, s, e).1;
    forall j | 0 <= j < |r| ensures (if r[j].Applied? then r[j].seq_ else r[j].fill.seq_) == s.seq_ {
      if 0 < j < |r| - 1 {
        var t := w.0[j - 1];
        assert r[(j - 1) + 1].Filled?;
      }
    }
  }

  lemma AddCounts(caps: Caps, s: State, e: Event)
    requires Inv(s) && e.kind == Add
    ensures Step(caps, s, e).0.seq_ == s.seq_ + 1
    ensures Stamped(Step(caps, s, e).1, s.seq_)
  {
    hide Inv, BookReport, FillsOfHits, BookHits, SweepHits, Step;
    if e.qty < 0 || e.id in s.info || e.id in s.paperInfo {
      AddRefusedCounts(caps, s, e);
    } else if e.source == Strategy {
      OwnAdd(caps, s, e);
      FillsStamped(s.seq_, e.side.Opposite(), BookHits(s, e).0, e);
    } else {
      AddReport(caps, s, e);
      ReportStamped(s, e, BookHits(s, e).0);
      FillsStamped(s.seq_, e.side.Opposite(), SweepHits(s, e).0, e);
    }
  }

  lemma FillsStamped(seq_: nat, maker: Side, hits: seq<Hit>, e: Event)
    ensures Stamped(FillsOfHits(seq_, maker, hits, e.id, e.source), seq_)
  {
  }

  lemma {:induction false} ReportStamped(s: State, e: Event, hits: seq<Hit>)
    ensures Stamped(BookReport(s, e, hits), s.seq_)
    decreases |hits|
  {
    hide FillsOfHits, WalkAt;
    if hits != [] {
      var price := hits[0].price;
      FillsStamped(s.seq_, e.side.Opposite(), HitsOnly(hits, price), e);
      ReportStamped(s, e, HitsExcept(hits[1..], price));
    }
  }

  /** Over a run the counter grows by the number of events, and by one more for each valid aggressive trade. */
  lemma {:induction false} RunCounts(caps: Caps, s: State, events: seq<Event>)
    requires Inv(s)
    ensures Run(caps, s, events).0.seq_ == s.seq_ + CountAll(events)
    decreases |events|
  {
    hide Inv, Step, Stamped;
    if events != [] {
      var before := events[..|events| - 1];
      RunCounts(caps, s, before);
      RunInv(caps, s, before);
      StepCounts(caps, Run(caps, s, before).0, events[|events| - 1]);
    }
  }
}
