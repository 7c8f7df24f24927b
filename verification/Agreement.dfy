/**
 * The engine and the log-driven ledger agree: after every run the ledger's live entries are exactly
 * the engine's resting strategy orders, with equal remaining quantities.
 */
module Agreement {
  import opened Types
  import opened PriceHeap
  import opened Level
  import opened Book
  import opened BookInv
  import opened Matching
  import L = Ledger

  /** Lots the ledger still counts as open for an id. */
  function OpenLots(ledger: L.Orders, id: int): int {
    if id in ledger && L.Live(ledger[id]) then ledger[id].state.remaining else 0
  }

  /** Lots of a report that fill strategy order `id`, as maker or as taker. */
  function LotsTo(records: seq<Record>, id: int): int {
    if records == [] then 0 else LotsOfRecord(records[0], id) + LotsTo(records[1..], id)
  }

  function LotsOfRecord(r: Record, id: int): int {
    if r.Applied? then 0
    else
      (if r.fill.makerSource == Strategy && r.fill.makerId == id then r.fill.qty else 0)
      + (if r.fill.takerSource == Strategy && r.fill.takerId == id then r.fill.qty else 0)
  }

  /** Between two ledgers the filled quantity of an entry grew by exactly the lots reported to its id. */
  ghost predicate FilledGrows(before: L.Orders, after: L.Orders, records: seq<Record>, id: int) {
    id in before ==> id in after && after[id].state.filled == before[id].state.filled + LotsTo(records, id)
  }

  /** Nothing but fills happened between the two: no entry came or went. */
  ghost predicate FillsInto(before: L.Orders, after: L.Orders, records: seq<Record>, id: int) {
    (id in after <==> id in before) && FilledGrows(before, after, records, id)
  }

  ghost predicate PositiveFills(records: seq<Record>) {
    forall i :: 0 <= i < |records| ==> records[i].Filled? && records[i].fill.qty > 0
  }

  lemma {:induction false} LotsToConcat(a: seq<Record>, b: seq<Record>, id: int)
    ensures LotsTo(a + b, id) == LotsTo(a, id) + LotsTo(b, id)
  {
    if a == [] {
      assert a + b == b;
    } else {
      assert (a + b)[1..] == a[1..] + b;
      LotsToConcat(a[1..], b, id);
    }
  }

  lemma {:induction false} LotsToNonNegative(records: seq<Record>, id: int)
    requires PositiveFills(records)
    ensures LotsTo(records, id) >= 0
  {
    if records != [] {
      LotsToNonNegative(records[1..], id);
    }
  }

  // ---- the ledger's side --------------------------------------------------------------------

  /** Fills lower the open lots of the orders they name by exactly their quantity. */
  lemma {:induction false} ReplayEffect(ledger: L.Orders, records: seq<Record>, id: int)
    requires PositiveFills(records) && id != UNKNOWN_ID
    requires id in ledger ==> L.EntryOk(id, ledger[id])
    requires LotsTo(records, id) <= OpenLots(ledger, id)
    ensures var after := L.Replay(ledger, records);
            && (id in after <==> id in ledger)
            && (id in after ==>
                  && L.EntryOk(id, after[id])
                  && after[id].state.side == ledger[id].state.side && after[id].state.price == ledger[id].state.price)
            && OpenLots(after, id) == OpenLots(ledger, id) - LotsTo(records, id)
            && FillsInto(ledger, after, records, id)
    decreases |records|
  {
    if records != [] {
      LotsToNonNegative(records[1..], id);
      RecordEffect(ledger, records[0].fill, id);
      ReplayEffect(L.OnRecord(ledger, records[0]), records[1..], id);
    }
  }

  lemma RecordEffect(ledger: L.Orders, f: Fill, id: int)
    requires f.qty > 0 && id != UNKNOWN_ID
    requires id in ledger ==> L.EntryOk(id, ledger[id])
    requires LotsOfRecord(Filled(f), id) <= OpenLots(ledger, id)
    ensures var after := L.ApplyFill(ledger, f);
            && (id in after <==> id in ledger)
            && (id in after ==>
                  && L.EntryOk(id, after[id])
                  && after[id].state.side == ledger[id].state.side && after[id].state.price == ledger[id].state.price)
            && OpenLots(after, id) == OpenLots(ledger, id) - LotsOfRecord(Filled(f), id)
            && (id in after ==> after[id].state.filled == ledger[id].state.filled + LotsOfRecord(Filled(f), id))
  {
    var mid := L.ApplyStrategyFill(ledger, f.makerId, f.makerSource, L.Maker, f);
    RoleEffect(ledger, f.makerId, f.makerSource, L.Maker, f, id);
    RoleEffect(mid, f.takerId, f.takerSource, L.Taker, f, id);
  }

  lemma RoleEffect(ledger: L.Orders, who: int, source: Source, role: L.Role, f: Fill, id: int)
    requires f.qty > 0 && id != UNKNOWN_ID
    requires id in ledger ==> L.EntryOk(id, ledger[id])
    requires source == Strategy && who == id ==> f.qty <= OpenLots(ledger, id)
    ensures var after := L.ApplyStrategyFill(ledger, who, source, role, f);
            && (id in after <==> id in ledger)
            && (id in after ==>
                  && L.EntryOk(id, after[id])
                  && after[id].state.side == ledger[id].state.side && after[id].state.price == ledger[id].state.price)
            && OpenLots(after, id) == OpenLots(ledger, id) - (if source == Strategy && who == id then f.qty else 0)
            && (id in after ==>
                  after[id].state.filled
                  == ledger[id].state.filled + if source == Strategy && who == id then f.qty else 0)
  {
    if id in ledger && source == Strategy && who == id {
      L.Filled1Ok(id, ledger[id], role, f);
    }
    hide L.FilledLots, L.EntryOk;
  }

  // ---- the engine's side: one level ---------------------------------------------------------

  /** Lots that the strategy orders of a level have left under an id. */
  function RemOf(orders: seq<PaperOrder>, id: int): int {
    if orders == [] then 0
    else (if orders[0].id == id then orders[0].remaining else 0) + RemOf(orders[1..], id)
  }

  function TradedTo(trades: seq<Trade>, id: int): int {
    if trades == [] then 0
    else (if trades[0].id == id then trades[0].qty else 0) + TradedTo(trades[1..], id)
  }

  lemma {:induction false} AbsentRem(orders: seq<PaperOrder>, id: int)
    requires forall i :: 0 <= i < |orders| ==> orders[i].id != id
    ensures RemOf(orders, id) == 0
  {
    if orders != [] {
      AbsentRem(orders[1..], id);
    }
  }

  /** An id names at most one order of a level. */
  lemma {:induction false} RemOfPosition(orders: seq<PaperOrder>, id: int)
    requires DistinctIds(orders)
    ensures var i := PositionOf(orders, id);
            RemOf(orders, id) == if i < |orders| then orders[i].remaining else 0
  {
    if orders != [] {
      if orders[0].id == id {
        AbsentRem(orders[1..], id);
      } else {
        RemOfPosition(orders[1..], id);
      }
    }
  }

  lemma {:induction false} FrontReduced(p: PaperOrder, orders: seq<PaperOrder>, qty: int, id: int)
    requires orders != [] && orders[0] == p
    ensures RemOf([p.(remaining := p.remaining - qty)] + orders[1..], id)
         == RemOf(orders, id) - if p.id == id then qty else 0
  {
    assert ([p.(remaining := p.remaining - qty)] + orders[1..])[1..] == orders[1..];
  }

  /** Shadow fills come off exactly the orders they name. */
  lemma {:induction false} ShadowTo(market: seq<Order>, pq: PaperQueue, traded: int, consumed: int, id: int)
    ensures var r := Shadow(market, pq, traded, consumed);
            RemOf(r.1.orders, id) == RemOf(pq.orders, id) - TradedTo(r.0, id)
    decreases |pq.orders|
  {
    if traded > 0 && pq.orders != [] {
      var p := pq.orders[0];
      var aheadMarket := Max(QtyBefore(market, p.placement) - consumed, 0);
      var t := traded - aheadMarket - pq.phantom;
      if 0 < t < p.remaining {
        FrontReduced(p, pq.orders, t, id);
      } else if t > 0 {
        ShadowTo(market, pq.(orders := pq.orders[1..]), t - p.remaining, consumed + aheadMarket, id);
      }
    }
  }

  /** So do direct fills. */
  lemma {:induction false} SweepTo(pq: PaperQueue, left: int, id: int)
    ensures var r := Sweep(pq, left);
            RemOf(r.2.orders, id) == RemOf(pq.orders, id) - TradedTo(r.0, id)
    decreases |pq.orders|
  {
    if left > 0 && pq.orders != [] {
      var p := pq.orders[0];
      if left < p.remaining {
        FrontReduced(p, pq.orders, left, id);
      } else {
        SweepTo(PaperQueue(pq.orders[1..], pq.phantom + Max(p.remaining, 0)), left - p.remaining, id);
      }
    }
  }

  /** What a level's fills report to the ledger, when the taker is no ledger order. */
  lemma {:induction false} FillsTo(seq_: nat, maker: Side, px: int, trades: seq<Trade>, takerId: int,
                                   takerSource: Source, from: bool, id: int)
    requires AllFrom(trades, from)
    requires takerSource == Strategy ==> takerId != id
    ensures LotsTo(FillsOf(seq_, maker, px, trades, takerId, takerSource), id)
         == if from then TradedTo(trades, id) else 0
  {
    var r := FillsOf(seq_, maker, px, trades, takerId, takerSource);
    if trades != [] {
      assert r[1..] == FillsOf(seq_, maker, px, trades[1..], takerId, takerSource);
      FillsTo(seq_, maker, px, trades[1..], takerId, takerSource, from, id);
    }
  }

  // ---- the engine's side: the whole overlay -------------------------------------------------

  /** In a reachable state a strategy order rests if and only if it has lots left. */
  lemma RestsIffRemaining(s: State, id: int)
    requires PaperInv(s)
    ensures id in s.paperInfo <==> Remaining(s, id) > 0
    ensures Remaining(s, id) >= 0
  {
    if id in s.paperInfo {
      assert PaperInfoInv(s, id);
      assert PaperLevelInv(s, s.paperInfo[id].side, s.paperInfo[id].price);
    }
  }

  /** An id that is on the level rests at the level's place. */
  lemma {:induction false} OnLevel(s: State, side: Side, price: int, id: int)
    requires PaperInv(s) && price in s.paper.At(side)
    ensures HasId(s.paper.At(side)[price].orders, id) <==> id in s.paperInfo && s.paperInfo[id] == Place(side, price)
    ensures RemOf(s.paper.At(side)[price].orders, id) ==
            if id in s.paperInfo && s.paperInfo[id] == Place(side, price) then Remaining(s, id) else 0
  {
    var orders := s.paper.At(side)[price].orders;
    assert PaperLevelInv(s, side, price);
    assert PaperInfoInv(s, id);
    RemOfPosition(orders, id);
    if HasId(orders, id) {
      var i :| 0 <= i < |orders| && orders[i].id == id;
      assert PaperOk(s, side, price, orders[i]);
    }
  }

  /** Thinning one level changes the remainders of its own orders only. */
  lemma {:induction false} RepaperTo(s: State, side: Side, price: int, pq': PaperQueue, id: int)
    requires Inv(s) && price in s.paper.At(side)
    requires ThinnedPapers(pq'.orders, s.paper.At(side)[price].orders)
    ensures Remaining(Repaper(s, side, price, pq'), id) ==
            if id in s.paperInfo && s.paperInfo[id] == Place(side, price) then RemOf(pq'.orders, id)
            else Remaining(s, id)
    ensures Repaper(s, side, price, pq').paperInfo.Keys <= s.paperInfo.Keys
    ensures forall k :: k in Repaper(s, side, price, pq').paperInfo ==>
              Repaper(s, side, price, pq').paperInfo[k] == s.paperInfo[k]
  {
    var s' := Repaper(s, side, price, pq');
    var orders := s.paper.At(side)[price].orders;
    OnLevel(s, side, price, id);
    RemOfPosition(pq'.orders, id);
    if id in s.paperInfo && s.paperInfo[id] == Place(side, price) {
      var i :| 0 <= i < |orders| && orders[i].id == id;
      assert orders[i] in orders && id in Ids(orders);
      if id in Ids(pq'.orders) {
        assert PapersAt(s', side, price).orders == pq'.orders;
      } else {
        forall k | 0 <= k < |pq'.orders| ensures pq'.orders[k].id != id {
          assert pq'.orders[k] in pq'.orders;
        }
      }
    } else if id in s.paperInfo {
      NotInLevel(orders, id);
    }
  }

  lemma NotInLevel(orders: seq<PaperOrder>, id: int)
    requires !HasId(orders, id)
    ensures id !in Ids(orders)
  {
  }

  // ---- the engine's side: trading -----------------------------------------------------------

  /** A trading step moved strategy orders' lots into reported fills, and nothing else. */
  ghost predicate Accounts(s: State, s': State, records: seq<Record>, id: int) {
    && Remaining(s', id) == Remaining(s, id) - LotsTo(records, id)
    && (id in s'.paperInfo ==> id in s.paperInfo && s'.paperInfo[id] == s.paperInfo[id])
  }

  /** The taker of these fills is not the ledger order `id`. */
  ghost predicate OtherTaker(takerId: int, takerSource: Source, id: int) {
    takerSource == Strategy ==> takerId != id
  }

  lemma ShadowAtTo(s: State, side: Side, px: int, market: seq<Order>, traded: int, e: Event, id: int)
    requires Inv(s) && OtherTaker(ShadowTaker(e), e.source, id)
    ensures var r := ShadowAt(s, side, px, market, traded, e);
            Accounts(s, r.0, r.1, id) && PositiveFills(r.1)
  {
    if traded > 0 && px in s.paper.At(side) {
      var pq := s.paper.At(side)[px];
      var r := Shadow(market, pq, traded, 0);
      assert PaperLevelInv(s, side, px);
      ShadowRest(market, pq, traded, 0);
      ShadowBounded(market, pq, traded, 0);
      SuffixIsThinned(r.1.orders, pq.orders);
      ShadowTo(market, pq, traded, 0, id);
      ShadowSources(market, pq, traded, 0);
      FillsTo(s.seq_, side, px, r.0, ShadowTaker(e), e.source, true, id);
      LevelAccounts(s, side, px, r.1, id, TradedTo(r.0, id));
    }
  }

  lemma {:induction false} LevelAccounts(s: State, side: Side, px: int, pq': PaperQueue, id: int, traded: int)
    requires Inv(s) && px in s.paper.At(side)
    requires ThinnedPapers(pq'.orders, s.paper.At(side)[px].orders)
    requires RemOf(pq'.orders, id) == RemOf(s.paper.At(side)[px].orders, id) - traded
    ensures var s' := Repaper(s, side, px, pq');
            && Remaining(s', id) == Remaining(s, id) - traded
            && (id in s'.paperInfo ==> id in s.paperInfo && s'.paperInfo[id] == s.paperInfo[id])
  {
    OnLevel(s, side, px, id);
    RepaperTo(s, side, px, pq', id);
    if !(id in s.paperInfo && s.paperInfo[id] == Place(side, px)) {
      AbsentStays(pq'.orders, s.paper.At(side)[px].orders, id);
    }
  }

  lemma {:induction false} AbsentStays(orders': seq<PaperOrder>, orders: seq<PaperOrder>, id: int)
    requires ThinnedPapers(orders', orders) && !HasId(orders, id)
    ensures RemOf(orders', id) == 0
  {
    forall i | 0 <= i < |orders'| ensures orders'[i].id != id {
      assert KeepsPaper(orders, orders'[i]);
    }
    AbsentRem(orders', id);
  }

  /** Fills against historical makers concern no ledger order but the taker. */
  lemma {:induction false} OwnFillsTo(seq_: nat, maker: Side, px: int, queue: seq<Order>, left: int, e: Event, id: int)
    requires QueueOk(queue) && left >= 0 && OtherTaker(e.id, e.source, id)
    requires forall i :: 0 <= i < |queue| ==> queue[i].source != Strategy
    ensures var own := FillsOf(seq_, maker, px, Consume(queue, left).trades, e.id, e.source);
            LotsTo(own, id) == 0 && PositiveFills(own)
  {
    ConsumeSources(queue, left);
    ConsumeTotals(queue, left);
    FillsTo(seq_, maker, px, Consume(queue, left).trades, e.id, e.source, false, id);
  }

  lemma {:induction false} AfterConsume(s: State, maker: Side, px: int, left: int, id: int)
    requires Inv(s) && left > 0 && px in s.hist.At(maker)
    ensures var queue := QueueAt(s.hist, maker, px);
            var c := Consume(queue, left);
            var mid := Requeue(s, maker, px, c.rest);
            && Inv(mid) && Remaining(mid, id) == Remaining(s, id) && mid.paperInfo == s.paperInfo && mid.seq_ == s.seq_
            && QueueOk(queue) && forall i :: 0 <= i < |queue| ==> queue[i].source != Strategy
  {
    var queue := QueueAt(s.hist, maker, px);
    LevelQueue(s, maker, px);
    ConsumeRest(queue, left);
    RestIsThinned(Consume(queue, left).rest, queue);
    RequeueInv(s, maker, px, Consume(queue, left).rest);
  }

  lemma TradeLevelTo(s: State, e: Event, px: int, left: int, id: int)
    requires Inv(s) && left > 0 && px in s.hist.At(e.side.Opposite())
    requires OtherTaker(e.id, e.source, id) && OtherTaker(ShadowTaker(e), e.source, id)
    ensures var t := TradeLevel(s, e, px, left);
            Accounts(s, t.state, t.records, id) && PositiveFills(t.records)
  {
    hide Inv, Consume, Requeue, ShadowAt, FillsOf, Remaining, LotsTo;
    var maker := e.side.Opposite();
    var queue := QueueAt(s.hist, maker, px);
    AfterConsume(s, maker, px, left, id);
    OwnFillsTo(s.seq_, maker, px, queue, left, e, id);
    var c := Consume(queue, left);
    var mid := Requeue(s, maker, px, c.rest);
    ShadowAtTo(mid, maker, px, queue, left - c.left, e, id);
    LotsToConcat(FillsOf(s.seq_, maker, px, c.trades, e.id, e.source),
                 ShadowAt(mid, maker, px, queue, left - c.left, e).1, id);
  }

  lemma AccountsChain(a: State, b: State, c: State, r: seq<Record>, t: seq<Record>, id: int)
    requires Accounts(a, b, r, id) && Accounts(b, c, t, id)
    ensures Accounts(a, c, r + t, id)
  {
    LotsToConcat(r, t, id);
  }

  lemma {:induction false} MatchTo(s: State, e: Event, left: int, id: int)
    requires Inv(s) && left >= 0
    requires OtherTaker(e.id, e.source, id) && OtherTaker(ShadowTaker(e), e.source, id)
    ensures var m := MatchHistorical(s, e, left);
            Accounts(s, m.state, m.records, id) && PositiveFills(m.records)
    decreases |s.hist.At(e.side.Opposite())|
  {
    hide Inv, TradeLevel, Accounts, Remaining, LotsTo;
    var maker := e.side.Opposite();
    var best := BestPrice(s.hist.At(maker), maker);
    NothingAccounts(s, id);
    if left > 0 && best.Some? && Crosses(maker, e.price, best.value) {
      var t := TradeLevel(s, e, best.value, left);
      TradeLevelInv(s, e, best.value, left);
      TradeLevelTo(s, e, best.value, left, id);
      if !t.done {
        TradeLevelShrinks(s, e, best.value, left);
        MatchTo(t.state, e, t.left, id);
        var m := MatchHistorical(t.state, e, t.left);
        AccountsChain(s, t.state, m.state, t.records, m.records, id);
      }
    }
  }

  lemma NothingAccounts(s: State, id: int)
    ensures Accounts(s, s, [], id)
  {
  }

  lemma SweepLevelTo(s: State, e: Event, px: int, left: int, id: int)
    requires Inv(s) && left > 0 && px in s.paper.At(e.side.Opposite())
    requires OtherTaker(e.id, e.source, id)
    ensures var t := SweepLevel(s, e, px, left);
            Accounts(s, t.state, t.records, id) && PositiveFills(t.records)
  {
    var maker := e.side.Opposite();
    var pq := s.paper.At(maker)[px];
    var r := Sweep(pq, left);
    assert PaperLevelInv(s, maker, px);
    SweepRest(pq, left);
    SweepTotals(pq, left);
    SuffixIsThinned(r.2.orders, pq.orders);
    SweepTo(pq, left, id);
    SweepSources(pq, left);
    FillsTo(s.seq_, maker, px, r.0, e.id, e.source, true, id);
    LevelAccounts(s, maker, px, r.2, id, TradedTo(r.0, id));
  }

  lemma {:induction false} SweepPapersTo(s: State, e: Event, limit: Option<int>, left: int, id: int)
    requires Inv(s) && left >= 0 && OtherTaker(e.id, e.source, id)
    ensures var r := SweepPapers(s, e, limit, left);
            Accounts(s, r.state, r.records, id) && PositiveFills(r.records)
    decreases |s.paper.At(e.side.Opposite())|
  {
    var maker := e.side.Opposite();
    var best := BestPrice(s.paper.At(maker), maker);
    if left > 0 && best.Some? && Reaches(maker, limit, best.value) {
      var t := SweepLevel(s, e, best.value, left);
      SweepLevelInv(s, e, best.value, left);
      SweepLevelTo(s, e, best.value, left, id);
      if !t.done {
        assert |t.state.paper.At(maker)| < |s.paper.At(maker)|;
        hide Inv, SweepLevel, Accounts, Remaining, LotsTo;
        SweepPapersTo(t.state, e, limit, t.left, id);
        var o := SweepPapers(t.state, e, limit, t.left);
        AccountsChain(s, t.state, o.state, t.records, o.records, id);
      }
    }
  }

  // ---- the engine's side: a strategy order's own trades -------------------------------------

  lemma {:induction false} HitsConcatTo(seq_: nat, maker: Side, a: seq<Hit>, b: seq<Hit>, e: Event, id: int)
    ensures LotsTo(HitRecords(seq_, maker, a + b, e.id, e.source), id)
         == LotsTo(HitRecords(seq_, maker, a, e.id, e.source), id)
           + LotsTo(HitRecords(seq_, maker, b, e.id, e.source), id)
  {
    HitRecordsConcat(seq_, maker, a, b, e.id, e.source);
    LotsToConcat(HitRecords(seq_, maker, a, e.id, e.source), HitRecords(seq_, maker, b, e.id, e.source), id);
  }

  lemma {:induction false} TakerFills(seq_: nat, maker: Side, px: int, trades: seq<Trade>, e: Event, id: int)
    requires AllFrom(trades, false) && e.source == Strategy
    ensures LotsTo(FillsOf(seq_, maker, px, trades, e.id, e.source), id) == if e.id == id then TradeTotal(trades) else 0
  {
    var r := FillsOf(seq_, maker, px, trades, e.id, e.source);
    if trades != [] {
      assert r[1..] == FillsOf(seq_, maker, px, trades[1..], e.id, e.source);
      TakerFills(seq_, maker, px, trades[1..], e, id);
    }
  }

  ghost predicate HistoricalQueues(levels: map<int, seq<Order>>) {
    forall p :: p in levels ==>
      QueueOk(levels[p]) && forall i :: 0 <= i < |levels[p]| ==> levels[p][i].source != Strategy
  }

  lemma {:induction false} LevelHitsTo(seq_: nat, maker: Side, px: int, queue: seq<Order>, left: int, e: Event, id: int)
    requires QueueOk(queue) && left >= 0 && e.source == Strategy
    requires forall i :: 0 <= i < |queue| ==> queue[i].source != Strategy
    ensures var c := Consume(queue, left);
            var r := HitRecords(seq_, maker, HitsAt(px, c.trades), e.id, e.source);
            && 0 <= c.left <= left && PositiveFills(r)
            && LotsTo(r, id) == if e.id == id then left - c.left else 0
  {
    var c := Consume(queue, left);
    ConsumeRest(queue, left);
    ConsumeTotals(queue, left);
    ConsumeSources(queue, left);
    TakerFills(seq_, maker, px, c.trades, e, id);
    HitRecordsOfLevel(seq_, maker, px, c.trades, e.id, e.source);
  }

  /** A dry run's fills count for the taker only, and add up to what it bought. */
  lemma {:induction false} DryRunTo(seq_: nat, levels: map<int, seq<Order>>, maker: Side, limit: Option<int>, left: int,
                                    e: Event, id: int)
    requires HistoricalQueues(levels) && left >= 0 && e.source == Strategy
    ensures var d := DryRun(levels, maker, limit, left);
            var r := HitRecords(seq_, maker, d.0, e.id, e.source);
            && 0 <= d.1 <= left && PositiveFills(r)
            && LotsTo(r, id) == if e.id == id then left - d.1 else 0
    decreases |levels|
  {
    hide HitRecords, LotsTo, HitsAt, Consume;
    var best := BestPrice(levels, maker);
    if left > 0 && best.Some? && Reaches(maker, limit, best.value) {
      var px := best.value;
      var c := Consume(levels[px], left);
      LevelHitsTo(seq_, maker, px, levels[px], left, e, id);
      DryRunTo(seq_, levels - {px}, maker, limit, c.left, e, id);
      var d := DryRun(levels - {px}, maker, limit, c.left);
      HitRecordsConcat(seq_, maker, HitsAt(px, c.trades), d.0, e.id, e.source);
      HitsConcatTo(seq_, maker, HitsAt(px, c.trades), d.0, e, id);
    } else {
      NoHits(seq_, maker, e, id);
    }
  }

  lemma {:induction false} NoHits(seq_: nat, maker: Side, e: Event, id: int)
    ensures HitRecords(seq_, maker, [], e.id, e.source) == [] && LotsTo([], id) == 0
  {
  }

  lemma QueuesAreHistorical(s: State, maker: Side)
    requires HistInv(s)
    ensures HistoricalQueues(s.hist.At(maker))
  {
    forall p | p in s.hist.At(maker)
      ensures QueueOk(s.hist.At(maker)[p])
      ensures forall i :: 0 <= i < |s.hist.At(maker)[p]| ==> s.hist.At(maker)[p][i].source != Strategy
    {
      LevelQueue(s, maker, p);
    }
  }

  /** A cancel or resize reaches its own order only. */
  lemma SetRemainingTo(s: State, who: int, remaining: int, id: int)
    requires Inv(s) && remaining >= 0
    ensures var s' := SetRemaining(s, who, remaining);
            && Remaining(s', id) == (if id == who && who in s.paperInfo then remaining else Remaining(s, id))
            && (id in s'.paperInfo ==> id in s.paperInfo && s'.paperInfo[id] == s.paperInfo[id])
  {
    hide PaperInv, HistInv, NotCrossed, Repaper, Remaining, SetRemaining, WithoutAt;
    AbsentSet(s, who, remaining);
    if who in s.paperInfo {
      var place := s.paperInfo[who];
      var i := SetForm(s, who, remaining);
      var pq := s.paper.At(place.side)[place.price];
      var orders' := if remaining == 0 then WithoutAt(pq.orders, i)
                     else pq.orders[i := pq.orders[i].(remaining := remaining)];
      if remaining == 0 {
        RemovedIsThinned(pq.orders, i);
        WithoutRem(pq.orders, i, id);
      } else {
        ResizedIsThinned(pq.orders, i, remaining);
        ResizedRem(pq.orders, i, remaining, id);
      }
      OnLevel(s, place.side, place.price, id);
      RemOfPosition(pq.orders, id);
      var delta := RemOf(pq.orders, id) - RemOf(orders', id);
      LevelAccounts(s, place.side, place.price, pq.(orders := orders'), id, delta);
    }
  }

  lemma AbsentSet(s: State, who: int, remaining: int)
    ensures who !in s.paperInfo ==> SetRemaining(s, who, remaining) == s
  {
  }

  /** Where the order is, and what a cancel or resize makes of its level. */
  lemma SetForm(s: State, who: int, remaining: int) returns (i: nat)
    requires Inv(s) && who in s.paperInfo
    ensures var place := s.paperInfo[who];
            && place.price in s.paper.At(place.side)
            && var pq := s.paper.At(place.side)[place.price];
               && PapersOk(pq.orders) && DistinctIds(pq.orders)
               && i == PositionOf(pq.orders, who) && i < |pq.orders|
               && SetRemaining(s, who, remaining)
                  == Repaper(s, place.side, place.price,
                             pq.(orders := if remaining == 0 then WithoutAt(pq.orders, i)
                                           else pq.orders[i := pq.orders[i].(remaining := remaining)]))
  {
    hide Repaper;
    var place := s.paperInfo[who];
    assert PaperInfoInv(s, who) && PaperLevelInv(s, place.side, place.price);
    i := PositionOf(s.paper.At(place.side)[place.price].orders, who);
  }

  lemma {:induction false} RemOfConcat(a: seq<PaperOrder>, b: seq<PaperOrder>, id: int)
    ensures RemOf(a + b, id) == RemOf(a, id) + RemOf(b, id)
  {
    if a == [] {
      assert a + b == b;
    } else {
      assert (a + b)[1..] == a[1..] + b;
      RemOfConcat(a[1..], b, id);
    }
  }

  lemma {:induction false} WithoutRem(orders: seq<PaperOrder>, i: nat, id: int)
    requires i < |orders|
    ensures RemOf(WithoutAt(orders, i), id) == RemOf(orders, id) - if orders[i].id == id then orders[i].remaining else 0
  {
    assert orders == orders[..i] + ([orders[i]] + orders[i + 1..]);
    RemOfConcat(orders[..i], [orders[i]] + orders[i + 1..], id);
    RemOfConcat([orders[i]], orders[i + 1..], id);
    RemOfConcat(orders[..i], orders[i + 1..], id);
  }

  lemma ResizedRem(orders: seq<PaperOrder>, i: nat, remaining: int, id: int)
    requires i < |orders|
    ensures RemOf(orders[i := orders[i].(remaining := remaining)], id)
         == RemOf(orders, id) + if orders[i].id == id then remaining - orders[i].remaining else 0
  {
    var orders' := orders[i := orders[i].(remaining := remaining)];
    WithoutRem(orders, i, id);
    WithoutRem(orders', i, id);
    assert WithoutAt(orders, i) == WithoutAt(orders', i);
  }

  // ---- agreement ----------------------------------------------------------------------------

  /** For one id: equal open lots, a consistent entry, and the same place. */
  ghost predicate AgreesOn(s: State, ledger: L.Orders, id: int) {
    && OpenLots(ledger, id) == Remaining(s, id)
    && (id in ledger ==> id != UNKNOWN_ID && L.EntryOk(id, ledger[id]))
    && (id in s.paperInfo ==>
          && id in ledger
          && s.paperInfo[id] == Place(ledger[id].state.side, ledger[id].state.price))
  }

  ghost predicate Agree(s: State, ledger: L.Orders) {
    Inv(s) && forall id :: AgreesOn(s, ledger, id)
  }

  /** The strategy's promise: new ids for new orders; and the paper pool has room for what comes to rest. */
  ghost predicate Fresh(caps: Caps, s: State, ledger: L.Orders, e: Event) {
    && (e.source == Strategy && e.kind == AggressiveTrade ==> e.id !in ledger)
    && (e.source == Strategy && e.kind == Add ==>
          e.id != UNKNOWN_ID && e.id !in ledger && e.id !in s.info
            && (Remainder(s, e) > 0 ==> |s.paperInfo| < caps.paper))
  }

  /** What a strategy ADD leaves to rest after its dry run. */
  ghost function Remainder(s: State, e: Event): int {
    DryRun(s.hist.At(e.side.Opposite()), e.side.Opposite(), Some(e.price), e.qty).1
  }

  /** Fills that the engine accounts for bring the ledger along. */
  lemma {:induction false} TradesAgree(s: State, s': State, ledger: L.Orders, records: seq<Record>, id: int)
    requires AgreesOn(s, ledger, id) && PaperInv(s') && PositiveFills(records) && Accounts(s, s', records, id)
    ensures AgreesOn(s', L.Replay(ledger, records), id)
    ensures FillsInto(ledger, L.Replay(ledger, records), records, id)
  {
    RestsIffRemaining(s', id);
    if id in ledger {
      ReplayEffect(ledger, records, id);
    } else {
      ReplayAbsent(ledger, records, id);
      LotsToNonNegative(records, id);
    }
  }

  lemma {:induction false} ReplayAbsent(ledger: L.Orders, records: seq<Record>, id: int)
    requires PositiveFills(records) && id !in ledger
    ensures id !in L.Replay(ledger, records)
    decreases |records|
  {
    if records != [] {
      ReplayAbsent(L.OnRecord(ledger, records[0]), records[1..], id);
    }
  }

  /** An id the ledger does not know stays unknown to both sides. */
  lemma {:induction false} AbsentAgree(s': State, ledger: L.Orders, records: seq<Record>, id: int)
    requires id !in ledger && id !in s'.paperInfo && PositiveFills(records)
    ensures AgreesOn(s', L.Replay(ledger, records), id) && FillsInto(ledger, L.Replay(ledger, records), records, id)
  {
    ReplayAbsent(ledger, records, id);
  }

  lemma PositiveConcat(a: seq<Record>, b: seq<Record>)
    requires PositiveFills(a) && PositiveFills(b)
    ensures PositiveFills(a + b)
  {
  }

  lemma NotInPaper(s: State, ledger: L.Orders, id: int)
    requires AgreesOn(s, ledger, id) && id !in ledger
    ensures id !in s.paperInfo
  {
  }

  lemma {:induction false} AddHistoricalAgrees(caps: Caps, s: State, ledger: L.Orders, e: Event, id: int)
    requires Inv(s) && AgreesOn(s, ledger, id) && e.kind == Add && e.source != Strategy
    ensures var r := OnAdd(caps, s, e);
            AgreesOn(r.0, L.Replay(ledger, r.1), id) && FillsInto(ledger, L.Replay(ledger, r.1), r.1, id)
  {
    AddInv(caps, s, e);
    if e.qty >= 0 && e.id !in s.info && e.id !in s.paperInfo {
      var m := MatchHistorical(s, e, e.qty);
      MatchHistoricalInv(s, e, e.qty);
      MatchTo(s, e, e.qty, id);
      var p := SweepPapers(m.state, e, Some(e.price), m.left);
      SweepPapersTo(m.state, e, Some(e.price), m.left, id);
      hide Inv, Accounts, MatchHistorical, SweepPapers, Remaining, LotsTo, AgreesOn, PositiveFills;
      AccountsChain(s, m.state, p.state, m.records, p.records, id);
      PositiveConcat(m.records, p.records);
      RestKeepsPaper(caps, s, p.state, e, p.left, m.records + p.records, id);
      TradesAgree(s, OnAdd(caps, s, e).0, ledger, m.records + p.records, id);
    }
  }

  lemma RestKeepsPaper(caps: Caps, s: State, t: State, e: Event, qty: int, records: seq<Record>, id: int)
    requires Accounts(s, t, records, id)
    ensures Accounts(s, RestHistorical(caps, t, e, qty), records, id)
  {
  }

  lemma {:induction false} MatchAgrees(s: State, ledger: L.Orders, e: Event, id: int)
    requires Inv(s) && AgreesOn(s, ledger, id) && e.kind == Match
    ensures var r := OnMatch(s, e);
            AgreesOn(r.0, L.Replay(ledger, r.1), id) && FillsInto(ledger, L.Replay(ledger, r.1), r.1, id)
  {
    if e.qty > 0 && e.id in s.info {
      var loc := s.info[e.id];
      var take := Min(LiveQty(s, e.id), e.qty);
      var queue := QueueAt(s.hist, loc.side, loc.price);
      LiveQtyPositive(s, e.id);
      LiveSourceIsHistorical(s, e.id);
      var sh := ShadowAt(s, loc.side, loc.price, queue, take, e);
      var passive := FillOf(s.seq_, loc.side, loc.price, Trade(e.id, LiveSource(s, e.id), take, loc.arrival),
                            UNKNOWN_ID, e.source);
      var probe := if id == UNKNOWN_ID then 0 else id;
      ShadowAtTo(s, loc.side, loc.price, queue, take, e, probe);
      MatchInv(s, e);
      ChangeKeepsPaper(sh.0, e.id, -take);
      PositiveConcat(sh.1, [passive]);
      if id in ledger {
        LotsToConcat(sh.1, [passive], id);
        PassiveCountsForNobody(passive, id);
        hide Inv, ShadowAt, ChangeQty, LiveQty, LiveSource;
        TradesAgree(s, OnMatch(s, e).0, ledger, sh.1 + [passive], id);
      } else {
        AbsentAgree(OnMatch(s, e).0, ledger, sh.1 + [passive], id);
      }
    }
  }

  lemma {:induction false} PassiveCountsForNobody(r: Record, id: int)
    requires r.Filled? && r.fill.makerSource != Strategy && (r.fill.takerId == UNKNOWN_ID != id)
    ensures LotsTo([r], id) == 0
  {
  }

  lemma LiveSourceIsHistorical(s: State, id: int)
    requires Inv(s)
    ensures LiveSource(s, id) != Strategy
  {
    if id in s.info {
      assert InfoInv(s, id) && LevelInv(s, s.info[id].side, s.info[id].price);
      LevelQueue(s, s.info[id].side, s.info[id].price);
    }
  }

  lemma {:induction false} AggressiveAgrees(s: State, ledger: L.Orders, e: Event, id: int)
    requires Inv(s) && AgreesOn(s, ledger, id) && e.kind == AggressiveTrade
    requires e.source == Strategy && e.id == id ==> id !in ledger
    ensures var r := OnAggressiveTrade(s, e);
            AgreesOn(r.0, L.Replay(ledger, r.1), id) && FillsInto(ledger, L.Replay(ledger, r.1), r.1, id)
  {
    AggressiveInv(s, e);
    if e.source == Strategy && e.qty > 0 {
      var maker := e.side.Opposite();
      var d := DryRun(s.hist.At(maker), maker, None, e.qty);
      QueuesAreHistorical(s, maker);
      var probe := if id == e.id then e.id + 1 else id;
      DryRunTo(s.seq_, s.hist.At(maker), maker, None, e.qty, e, probe);
      var hits := HitRecords(s.seq_, maker, d.0, e.id, e.source);
      var p := SweepPapers(s, e, None, d.1);
      SweepPapersTo(s, e, None, d.1, probe);
      SweepPapersInv(s, e, None, d.1);
      PositiveConcat(hits, p.records);
      if id in ledger {
        hide Inv, DryRun, SweepPapers, HitRecords, Remaining, LotsTo, AgreesOn, PositiveFills;
        LotsToConcat(hits, p.records, id);
        AggressiveAccounts(s, p.state, OnAggressiveTrade(s, e).0, hits, p.records, id);
        TradesAgree(s, OnAggressiveTrade(s, e).0, ledger, hits + p.records, id);
      } else {
        NotInPaper(s, ledger, id);
        AbsentAgree(OnAggressiveTrade(s, e).0, ledger, hits + p.records, id);
      }
    }
  }

  lemma {:induction false} AggressiveAccounts(s: State, t: State, t': State, hits: seq<Record>, records: seq<Record>,
                                              id: int)
    requires LotsTo(hits + records, id) == LotsTo(hits, id) + LotsTo(records, id) && LotsTo(hits, id) == 0
    requires Accounts(s, t, records, id) && t' == t.(seq_ := t.seq_ + 1)
    ensures Accounts(s, t', hits + records, id)
  {
  }

  // ---- the strategy's own orders ------------------------------------------------------------

  lemma AddPaperAgrees(caps: Caps, s: State, ledger: L.Orders, e: Event, id: int)
    requires Inv(s) && L.LedgerOk(ledger) && AgreesOn(s, ledger, id) && AgreesOn(s, ledger, e.id)
    requires e.kind == Add && e.source == Strategy && Fresh(caps, s, ledger, e)
    ensures var r := OnAdd(caps, s, e);
            var updated := L.UpdateStrategyOrder(ledger, s.seq_, e);
            && AgreesOn(r.0, L.Replay(updated, r.1), id)
            && FillsInto(updated, L.Replay(updated, r.1), r.1, id)
  {
    NotInPaper(s, ledger, e.id);
    if e.qty > 0 {
      var maker := e.side.Opposite();
      var d := DryRun(s.hist.At(maker), maker, Some(e.price), e.qty);
      var hits := HitRecords(s.seq_, maker, d.0, e.id, e.source);
      QueuesAreHistorical(s, maker);
      DryRunTo(s.seq_, s.hist.At(maker), maker, Some(e.price), e.qty, e, id);
      AddInv(caps, s, e);
      RestPaperTo(caps, s, e, d.1, id);
      var started := ledger[e.id := L.Opened(s.seq_, e)];
      if id in started {
        ReplayEffect(started, hits, id);
      } else {
        ReplayAbsent(started, hits, id);
      }
    } else {
      var maker := e.side.Opposite();
      var d := DryRun(s.hist.At(maker), maker, Some(e.price), e.qty);
      assert d == ([], e.qty);
    }
  }

  lemma RestPaperTo(caps: Caps, s: State, e: Event, qty: int, id: int)
    requires Inv(s) && e.id !in s.info && e.id !in s.paperInfo && qty >= 0
    requires qty > 0 ==> |s.paperInfo| < caps.paper
    ensures var s' := if qty > 0 then RestPaper(caps, s, e, qty) else s;
            && Remaining(s', id) == (if id == e.id then qty else Remaining(s, id))
            && (id in s'.paperInfo <==> id in s.paperInfo || (id == e.id && qty > 0))
            && (id in s.paperInfo ==> s'.paperInfo[id] == s.paperInfo[id])
            && (qty > 0 ==> e.id in s'.paperInfo && s'.paperInfo[e.id] == Place(e.side, e.price))
  {
    if qty > 0 {
      var s' := RestPaper(caps, s, e, qty);
      var p := PaperOrder(e.id, qty, s.clock);
      RestPaperInv(caps, s, e, qty);
      OnLevel(s', e.side, e.price, id);
      var orders := PapersAt(s, e.side, e.price).orders;
      RemOfConcat(orders, [p], id);
      if e.price in s.paper.At(e.side) {
        OnLevel(s, e.side, e.price, id);
      }
      assert PaperInfoInv(s, id);
    }
  }

  /** The remainder that a DELETE, SUBTRACT or SET of a strategy order leaves. */
  function Target(s: State, e: Event): int {
    match e.kind
    case Delete => 0
    case Subtract => Max(Remaining(s, e.id) - e.qty, 0)
    case _ => Max(e.qty, 0)
  }

  /** The engine after a DELETE, SUBTRACT or SET. */
  function AfterCancel(s: State, e: Event): State {
    if e.kind == Delete then OnDelete(s, e) else if e.kind == Subtract then OnSubtract(s, e) else OnSet(s, e)
  }

  lemma OwnEventAgrees(s: State, ledger: L.Orders, e: Event, id: int)
    requires Inv(s) && AgreesOn(s, ledger, id) && e.source == Strategy
    requires e.kind == Delete || e.kind == Subtract || e.kind == Set
    ensures AgreesOn(AfterCancel(s, e), L.UpdateStrategyOrder(ledger, s.seq_, e), id)
  {
    RestsIffRemaining(s, id);
    RestsIffRemaining(s, e.id);
    if e.kind == Subtract && e.qty <= 0 {
      hide Inv, SetRemaining, Remaining;
    } else {
      SetRemainingTo(s, e.id, Target(s, e), id);
      SetRemainingInv(s, e.id, Target(s, e));
      RestsIffRemaining(SetRemaining(s, e.id, Target(s, e)), id);
      TargetAgrees(s, ledger, e, id, SetRemaining(s, e.id, Target(s, e)));
    }
  }

  /** Engine and ledger move one order's remainder alike. */
  lemma TargetAgrees(s: State, ledger: L.Orders, e: Event, id: int, s': State)
    requires AgreesOn(s, ledger, id) && e.source == Strategy
    requires e.kind == Delete || (e.kind == Subtract && e.qty > 0) || e.kind == Set
    requires id in s.paperInfo <==> Remaining(s, id) > 0
    requires id in s'.paperInfo <==> Remaining(s', id) > 0
    requires Remaining(s, id) >= 0
    requires Remaining(s', id) == if id == e.id && e.id in s.paperInfo then Target(s, e) else Remaining(s, id)
    requires id in s'.paperInfo ==> s'.paperInfo[id] == s.paperInfo[id]
    ensures AgreesOn(s', L.UpdateStrategyOrder(ledger, s.seq_, e), id)
  {
    hide Remaining, L.FilledLots;
  }

  lemma HistoricalEventAgrees(s: State, ledger: L.Orders, e: Event, id: int)
    requires AgreesOn(s, ledger, id) && e.source != Strategy
    ensures AgreesOn(OnDelete(s, e), ledger, id) && AgreesOn(OnSubtract(s, e), ledger, id)
            && AgreesOn(OnSet(s, e), ledger, id)
  {
    ChangeKeepsPaper(s, e.id, -LiveQty(s, e.id));
    ChangeKeepsPaper(s, e.id, -Min(LiveQty(s, e.id), e.qty));
    ChangeKeepsPaper(s, e.id, Max(e.qty, 0) - LiveQty(s, e.id));
  }

  // ---- every update, every run --------------------------------------------------------------

  lemma ApplyAgrees(caps: Caps, s: State, ledger: L.Orders, e: Event, id: int)
    requires Agree(s, ledger) && Fresh(caps, s, ledger, e)
    ensures var r := Apply(caps, s, e);
            var updated := L.UpdateStrategyOrder(ledger, s.seq_, e);
            && AgreesOn(r.0, L.Replay(updated, r.1), id)
            && FillsInto(updated, L.Replay(updated, r.1), r.1, id)
  {
    assert AgreesOn(s, ledger, id) && AgreesOn(s, ledger, e.id);
    assert L.LedgerOk(ledger) by {
      forall k | k in ledger ensures L.EntryOk(k, ledger[k]) {
        assert AgreesOn(s, ledger, k);
      }
    }
    hide Inv, AgreesOn, OnAdd, OnMatch, OnAggressiveTrade, OnDelete, OnSubtract, OnSet;
    match e.kind
    case Add =>
      if e.source == Strategy {
        AddPaperAgrees(caps, s, ledger, e, id);
      } else {
        AddHistoricalAgrees(caps, s, ledger, e, id);
      }
    case Match => MatchAgrees(s, ledger, e, id);
    case AggressiveTrade => AggressiveAgrees(s, ledger, e, id);
    case Delete => CancelAgrees(s, ledger, e, id);
    case Subtract => CancelAgrees(s, ledger, e, id);
    case Set => CancelAgrees(s, ledger, e, id);
  }

  lemma CancelAgrees(s: State, ledger: L.Orders, e: Event, id: int)
    requires Inv(s) && AgreesOn(s, ledger, id)
    requires e.kind == Delete || e.kind == Subtract || e.kind == Set
    ensures AgreesOn(AfterCancel(s, e), L.UpdateStrategyOrder(ledger, s.seq_, e), id)
  {
    if e.source == Strategy {
      OwnEventAgrees(s, ledger, e, id);
    } else {
      hide Inv, AgreesOn, OnDelete, OnSubtract, OnSet;
      HistoricalEventAgrees(s, ledger, e, id);
    }
  }

  /** The report of an update starts with the applied event. */
  lemma {:induction false} ReplayOfStep(caps: Caps, s: State, ledger: L.Orders, e: Event)
    ensures L.Replay(ledger, Step(caps, s, e).1)
         == L.Replay(L.UpdateStrategyOrder(ledger, s.seq_, e), Apply(caps, s, e).1)
  {
    hide Apply, L.UpdateStrategyOrder;
    L.ReplayConcat(ledger, [Applied(s.seq_, e)], Apply(caps, s, e).1);
  }

  /** One update and its report keep the engine and the ledger in agreement. */
  lemma {:induction false} StepAgrees(caps: Caps, s: State, ledger: L.Orders, e: Event)
    requires Agree(s, ledger) && Fresh(caps, s, ledger, e)
    ensures var r := Step(caps, s, e);
            Agree(r.0, L.Replay(ledger, r.1))
  {
    hide Apply, Inv, AgreesOn, L.UpdateStrategyOrder;
    StepInv(caps, s, e);
    ReplayOfStep(caps, s, ledger, e);
    var after := L.Replay(ledger, Step(caps, s, e).1);
    forall id ensures AgreesOn(Step(caps, s, e).0, after, id) {
      ApplyAgrees(caps, s, ledger, e, id);
      CountAgrees(Apply(caps, s, e).0, after, id);
    }
  }

  /** Without room the engine drops what an ADD leaves, and the ledger goes on counting it. */
  lemma {:induction false} NoRoomDisagrees(caps: Caps, s: State, ledger: L.Orders, e: Event)
    requires Inv(s) && AgreesOn(s, ledger, e.id) && e.kind == Add && e.source == Strategy
    requires e.id != UNKNOWN_ID && e.id !in ledger && e.id !in s.info
    requires Remainder(s, e) > 0 && |s.paperInfo| >= caps.paper
    ensures !AgreesOn(Step(caps, s, e).0, L.Replay(ledger, Step(caps, s, e).1), e.id)
  {
    NotInPaper(s, ledger, e.id);
    ReplayOfStep(caps, s, ledger, e);
    var maker := e.side.Opposite();
    QueuesAreHistorical(s, maker);
    SomeQuantity(s, e);
    var d := DryRun(s.hist.At(maker), maker, Some(e.price), e.qty);
    var hits := HitRecords(s.seq_, maker, d.0, e.id, e.source);
    DryRunTo(s.seq_, s.hist.At(maker), maker, Some(e.price), e.qty, e, e.id);
    hide Inv, DryRun, HitRecords, LotsTo, PositiveFills;
    var started := ledger[e.id := L.Opened(s.seq_, e)];
    ReplayEffect(started, hits, e.id);
    assert Step(caps, s, e).0 == s.(seq_ := s.seq_ + 1);
  }

  lemma {:induction false} SomeQuantity(s: State, e: Event)
    requires Remainder(s, e) > 0
    ensures e.qty > 0
  {
  }

  /**
   * A strategy ADD under a new id keeps engine and ledger in agreement if and only if what it leaves
   * finds room.
   */
  lemma {:induction false} AddAgreesExactly(caps: Caps, s: State, ledger: L.Orders, e: Event)
    requires Agree(s, ledger) && e.kind == Add && e.source == Strategy
    requires e.id != UNKNOWN_ID && e.id !in ledger && e.id !in s.info
    ensures Agree(Step(caps, s, e).0, L.Replay(ledger, Step(caps, s, e).1))
       <==> (Remainder(s, e) > 0 ==> |s.paperInfo| < caps.paper)
  {
    hide Inv, AgreesOn, Step, Remainder;
    if Remainder(s, e) > 0 && |s.paperInfo| >= caps.paper {
      NoRoomDisagrees(caps, s, ledger, e);
    } else {
      StepAgrees(caps, s, ledger, e);
    }
  }

  /** This event opens a ledger entry for the id. */
  ghost predicate Opens(e: Event, id: int) {
    e.kind == Add && e.source == Strategy && e.id == id
  }

  /** A strategy event alone fills nothing; a new entry starts with nothing filled. */
  lemma UpdateKeepsFilled(ledger: L.Orders, seq_: nat, e: Event, id: int)
    ensures var updated := L.UpdateStrategyOrder(ledger, seq_, e);
            && (id in ledger ==> id in updated && updated[id].state.filled == ledger[id].state.filled)
            && (id in updated && id !in ledger ==> Opens(e, id) && updated[id].state.filled == 0)
  {
  }

  /** What one update adds to the filled quantity of an entry, old or new, is what its report fills. */
  lemma {:induction false} StepFills(caps: Caps, s: State, ledger: L.Orders, e: Event, id: int)
    requires Agree(s, ledger) && Fresh(caps, s, ledger, e)
    ensures var r := Step(caps, s, e);
            var after := L.Replay(ledger, r.1);
            && FilledGrows(ledger, after, r.1, id)
            && (id in after && id !in ledger ==> Opens(e, id) && after[id].state.filled == LotsTo(r.1, id))
  {
    hide Apply, Agree, Fresh, L.UpdateStrategyOrder;
    ReplayOfStep(caps, s, ledger, e);
    ApplyAgrees(caps, s, ledger, e, id);
    UpdateKeepsFilled(ledger, s.seq_, e, id);
    LotsToConcat([Applied(s.seq_, e)], Apply(caps, s, e).1, id);
    NoLots(Applied(s.seq_, e), id);
  }

  lemma {:induction false} NoLots(r: Record, id: int)
    requires r.Applied?
    ensures LotsTo([r], id) == 0
  {
    assert LotsTo([r][1..], id) == 0;
  }

  lemma CountAgrees(s: State, ledger: L.Orders, id: int)
    requires AgreesOn(s, ledger, id)
    ensures AgreesOn(s.(seq_ := s.seq_ + 1), ledger, id)
  {
  }

  /** Every event of the run is fresh when it comes. */
  ghost predicate FreshRun(caps: Caps, s: State, ledger: L.Orders, events: seq<Event>) {
    forall k :: 0 <= k < |events| ==> FreshAt(caps, s, ledger, events, k)
  }

  ghost predicate FreshAt(caps: Caps, s: State, ledger: L.Orders, events: seq<Event>, k: nat)
    requires k < |events|
  {
    var r := Run(caps, s, events[..k]);
    Fresh(caps, r.0, L.Replay(ledger, r.1), events[k])
  }

  /**
   * Over every run whose strategy ADDs and aggressive trades use new ids and find room, the
   * ledger's live entries are the engine's resting strategy orders, with equal remainders, and
   * every ledger entry's numbers fit together.
   */
  lemma {:induction false} RunAgrees(caps: Caps, s: State, ledger: L.Orders, events: seq<Event>)
    requires Agree(s, ledger) && FreshRun(caps, s, ledger, events)
    ensures var r := Run(caps, s, events);
            var after := L.Replay(ledger, r.1);
            && Agree(r.0, after) && L.LedgerOk(after)
            && (forall id :: id in r.0.paperInfo <==> id in after && L.Live(after[id]))
            && (forall id :: id in r.0.paperInfo ==> after[id].state.remaining == Remaining(r.0, id))
    decreases |events|
  {
    var r := Run(caps, s, events);
    var after := L.Replay(ledger, r.1);
    if events != [] {
      var n := |events| - 1;
      forall k | 0 <= k < n ensures FreshAt(caps, s, ledger, events[..n], k) {
        assert FreshAt(caps, s, ledger, events, k);
        assert events[..n][..k] == events[..k];
      }
      RunAgrees(caps, s, ledger, events[..n]);
      var before := Run(caps, s, events[..n]);
      assert FreshAt(caps, s, ledger, events, n);
      StepAgrees(caps, before.0, L.Replay(ledger, before.1), events[n]);
      L.ReplayConcat(ledger, before.1, Step(caps, before.0, events[n]).1);
    }
    AgreeMeans(r.0, after);
  }

  /** The part of a run's log that starts with the event at position `k`. */
  ghost function LogFrom(caps: Caps, s: State, events: seq<Event>, k: nat): seq<Record>
    requires k <= |events|
  {
    var log := Run(caps, s, events).1;
    var earlier := |Run(caps, s, events[..k]).1|;
    if earlier <= |log| then log[earlier..] else []
  }

  /** The ADD at position `k` opened the entry, and everything logged for the id since then is filled. */
  ghost predicate FilledSince(caps: Caps, s: State, events: seq<Event>, k: nat, id: int, filled: int) {
    k < |events| && Opens(events[k], id) && filled == LotsTo(LogFrom(caps, s, events, k), id)
  }

  /**
   * The ledger's `filled` is the engine's log: over every run it grows by exactly the lots that the
   * log reports for the id, and for an entry opened in the run it is all that was logged since.
   */
  lemma {:induction false} RunFills(caps: Caps, s: State, ledger: L.Orders, events: seq<Event>, id: int)
    requires Agree(s, ledger) && FreshRun(caps, s, ledger, events)
    ensures var log := Run(caps, s, events).1;
            var after := L.Replay(ledger, log);
            && FilledGrows(ledger, after, log, id)
            && (id in after && id !in ledger ==>
                  exists k: nat :: FilledSince(caps, s, events, k, id, after[id].state.filled))
    decreases |events|
  {
    hide Agree, FreshRun, Step, LotsTo, FilledSince;
    if events != [] {
      var n := |events| - 1;
      var before := Run(caps, s, events[..n]);
      var known := L.Replay(ledger, before.1);
      FreshBefore(caps, s, ledger, events);
      RunAgrees(caps, s, ledger, events[..n]);
      RunFills(caps, s, ledger, events[..n], id);
      StepFills(caps, before.0, known, events[n], id);
      var t := Step(caps, before.0, events[n]).1;
      L.ReplayConcat(ledger, before.1, t);
      LotsToConcat(before.1, t, id);
      var after := L.Replay(known, t);
      if id in after && id !in ledger {
        if id in known {
          var k: nat :| FilledSince(caps, s, events[..n], k, id, known[id].state.filled);
          SinceNext(caps, s, events, k, id, known[id].state.filled);
        } else {
          SinceNow(caps, s, events, id);
        }
      }
    } else {
      assert LotsTo([], id) == 0 by {
        NoRecords(id);
      }
    }
  }

  lemma {:induction false} NoRecords(id: int)
    ensures LotsTo([], id) == 0
  {
  }

  lemma {:induction false} SinceNow(caps: Caps, s: State, events: seq<Event>, id: int)
    requires events != [] && Opens(events[|events| - 1], id)
    ensures var n := |events| - 1;
            var before := Run(caps, s, events[..n]).0;
            FilledSince(caps, s, events, n, id, LotsTo(Step(caps, before, events[n]).1, id))
  {
    hide Step;
    var before := Run(caps, s, events[..|events| - 1]);
    var t := Step(caps, before.0, events[|events| - 1]).1;
    assert (before.1 + t)[|before.1|..] == t;
  }

  lemma {:induction false} FreshBefore(caps: Caps, s: State, ledger: L.Orders, events: seq<Event>)
    requires events != [] && FreshRun(caps, s, ledger, events)
    ensures FreshRun(caps, s, ledger, events[..|events| - 1])
    ensures var r := Run(caps, s, events[..|events| - 1]);
            Fresh(caps, r.0, L.Replay(ledger, r.1), events[|events| - 1])
  {
    hide Fresh;
    var n := |events| - 1;
    forall k | 0 <= k < n ensures FreshAt(caps, s, ledger, events[..n], k) {
      assert FreshAt(caps, s, ledger, events, k);
      assert events[..n][..k] == events[..k];
    }
    assert FreshAt(caps, s, ledger, events, n);
  }

  lemma {:induction false} SinceNext(caps: Caps, s: State, events: seq<Event>, k: nat, id: int, filled: int)
    requires events != [] && FilledSince(caps, s, events[..|events| - 1], k, id, filled)
    ensures var before := Run(caps, s, events[..|events| - 1]).0;
            FilledSince(caps, s, events, k, id, filled + LotsTo(Step(caps, before, events[|events| - 1]).1, id))
  {
    hide Step;
    var n := |events| - 1;
    var before := Run(caps, s, events[..n]);
    var t := Step(caps, before.0, events[n]).1;
    assert events[..n][..k] == events[..k];
    var earlier := |Run(caps, s, events[..k]).1|;
    LogGrows(caps, s, events[..n], k);
    assert (before.1 + t)[earlier..] == before.1[earlier..] + t;
    LotsToConcat(before.1[earlier..], t, id);
  }

  lemma {:induction false} LogGrows(caps: Caps, s: State, events: seq<Event>, k: nat)
    requires k <= |events|
    ensures |Run(caps, s, events[..k]).1| <= |Run(caps, s, events).1|
    decreases |events|
  {
    hide Step;
    if k < |events| {
      LogGrows(caps, s, events[..|events| - 1], k);
      assert events[..|events| - 1][..k] == events[..k];
    } else {
      assert events[..k] == events;
    }
  }

  lemma AgreeMeans(s: State, ledger: L.Orders)
    requires Agree(s, ledger)
    ensures L.LedgerOk(ledger)
    ensures forall id :: id in s.paperInfo <==> id in ledger && L.Live(ledger[id])
    ensures forall id :: id in s.paperInfo ==> ledger[id].state.remaining == Remaining(s, id)
  {
    forall id ensures id in ledger ==> L.EntryOk(id, ledger[id])
              ensures id in s.paperInfo <==> id in ledger && L.Live(ledger[id])
              ensures id in s.paperInfo ==> ledger[id].state.remaining == Remaining(s, id) {
      assert AgreesOn(s, ledger, id);
      RestsIffRemaining(s, id);
    }
  }

  /** The engine and the ledger start in agreement. */
  lemma EmptyAgrees()
    ensures Agree(EMPTY, map[])
  {
    EmptyInv();
  }
}
