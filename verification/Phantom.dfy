/**
 * Phantom lots, exactly: a sweep leaves them behind when it fills the front order of a level but not
 * the whole level. Nothing else makes them, and without them the lots queued at a level are the
 * remainders that rest there, and its shadow fills are those of one FIFO queue.
 */
module Phantom {
  import opened Types
  import opened PriceHeap
  import opened Level
  import opened Book
  import opened BookInv
  import opened PaperIndex
  import opened EngineRep
  import opened EngineMatch
  import opened Matching
  import opened Effects
  import opened Named
  import opened Snapshot

  ghost predicate NoPhantoms(s: State) {
    forall side, price :: PapersAt(s, side, price).phantom == 0
  }

  /** A sweep of `left` lots fills the front order of a level, and leaves another one resting. */
  predicate SplitsLevel(orders: seq<PaperOrder>, left: int) {
    orders != [] && orders[0].remaining <= left < RemainingTotal(orders)
  }

  /** A sweep, best price first, splits the level at which it ends. */
  ghost predicate Splits(levels: map<int, PaperQueue>, maker: Side, limit: Option<int>, left: int)
    decreases |levels|
  {
    var best := BestPrice(levels, maker);
    && left > 0 && best.Some? && Reaches(maker, limit, best.value)
    && var orders := levels[best.value].orders;
       if left < RemainingTotal(orders) then SplitsLevel(orders, left)
       else Splits(levels - {best.value}, maker, limit, left - RemainingTotal(orders))
  }

  // ---- one level ----------------------------------------------------------------------------

  /** What a sweep makes of a level: it empties it, or it splits it, or it only shortens the front order. */
  lemma {:induction false} SweepOutcome(pq: PaperQueue, left: int)
    requires PapersOk(pq.orders) && pq.phantom == 0 && pq.orders != [] && left > 0
    ensures var r := Sweep(pq, left);
            && (r.2.orders == [] <==> left >= RemainingTotal(pq.orders))
            && (r.2.orders == [] ==> r.1 == left - RemainingTotal(pq.orders))
            && (r.2.orders != [] && r.2.phantom > 0 <==> SplitsLevel(pq.orders, left))
  {
    var r := Sweep(pq, left);
    SweepRest(pq, left);
    SweepTotals(pq, left);
    SuffixOfOk(r.2.orders, pq.orders);
    RemainingPositive(r.2.orders);
    FrontStays(pq, left);
    var gone := pq.orders[..|pq.orders| - |r.2.orders|];
    assert PapersOk(gone);
    RemainingPositive(gone);
  }

  lemma {:induction false} FrontStays(pq: PaperQueue, left: int)
    requires PapersOk(pq.orders) && pq.orders != [] && left > 0
    ensures |Sweep(pq, left).2.orders| == |pq.orders| <==> left < pq.orders[0].remaining
  {
    var p := pq.orders[0];
    if left >= p.remaining {
      PapersOkTail(pq.orders);
      SweepRest(PaperQueue(pq.orders[1..], pq.phantom + p.remaining), left - p.remaining);
    }
  }

  // ---- a whole sweep ------------------------------------------------------------------------

  /** Another queue at one place changes nothing elsewhere. */
  lemma RepaperElsewhere(s: State, side: Side, price: int, pq': PaperQueue, d: Side, q: int)
    requires price in s.paper.At(side)
    ensures var s' := Repaper(s, side, price, pq');
            PapersAt(s', d, q) == if d == side && q == price then (if pq'.orders == [] then PaperQueue([], 0) else pq')
                                  else PapersAt(s, d, q)
  {
  }

  lemma RepaperPhantoms(s: State, side: Side, price: int, pq': PaperQueue)
    requires price in s.paper.At(side) && NoPhantoms(s)
    ensures NoPhantoms(Repaper(s, side, price, pq')) <==> pq'.orders == [] || pq'.phantom == 0
  {
    var s' := Repaper(s, side, price, pq');
    RepaperElsewhere(s, side, price, pq', side, price);
    if pq'.orders == [] || pq'.phantom == 0 {
      forall d, q ensures PapersAt(s', d, q).phantom == 0 {
        RepaperElsewhere(s, side, price, pq', d, q);
      }
    } else {
      assert PapersAt(s', side, price).phantom != 0;
    }
  }

  lemma LevelPapers(s: State, side: Side, price: int)
    requires Inv(s) && price in s.paper.At(side)
    ensures PapersOk(s.paper.At(side)[price].orders) && s.paper.At(side)[price].orders != []
    ensures NoPhantoms(s) ==> s.paper.At(side)[price].phantom == 0
  {
    assert PaperLevelInv(s, side, price);
    assert PapersAt(s, side, price) == s.paper.At(side)[price];
  }

  /** One level of a sweep that goes on leaves the other levels as they are. */
  lemma SweepGoesOn(s: State, e: Event, px: int, left: int)
    requires Inv(s) && left > 0 && px in s.paper.At(e.side.Opposite()) && NoPhantoms(s)
    ensures var maker := e.side.Opposite();
            var orders := s.paper.At(maker)[px].orders;
            var t := SweepLevel(s, e, px, left);
            && (t.done <==> left < RemainingTotal(orders))
            && (NoPhantoms(t.state) <==> !SplitsLevel(orders, left))
            && (!t.done ==> t.left == left - RemainingTotal(orders)
                            && t.state.paper.At(maker) == s.paper.At(maker) - {px})
  {
    hide Inv, NoPhantoms, SplitsLevel, Sweep;
    var maker := e.side.Opposite();
    LevelPapers(s, maker, px);
    SweepOutcome(s.paper.At(maker)[px], left);
    RepaperPhantoms(s, maker, px, Sweep(s.paper.At(maker)[px], left).2);
  }

  /** A sweep makes phantom lots exactly when it splits a level. */
  lemma {:induction false} SweepPhantoms(s: State, e: Event, limit: Option<int>, left: int)
    requires Inv(s) && left >= 0 && NoPhantoms(s)
    ensures NoPhantoms(SweepPapers(s, e, limit, left).state)
       <==> !Splits(s.paper.At(e.side.Opposite()), e.side.Opposite(), limit, left)
    decreases |s.paper.At(e.side.Opposite())|
  {
    hide Inv, NoPhantoms, SweepLevel, RemainingTotal;
    var maker := e.side.Opposite();
    var best := BestPrice(s.paper.At(maker), maker);
    if left > 0 && best.Some? && Reaches(maker, limit, best.value) {
      var px := best.value;
      var t := SweepLevel(s, e, px, left);
      SweepLevelInv(s, e, px, left);
      SweepGoesOn(s, e, px, left);
      if !t.done {
        SweepPhantoms(t.state, e, limit, t.left);
      }
    }
  }

  // ---- where a sweep ends -------------------------------------------------------------------

  /** The strategy lots that rest at better prices. */
  ghost function LotsBetter(levels: map<int, PaperQueue>, maker: Side, price: int): int
    requires price in levels
    decreases |levels|
  {
    assert price in levels.Keys;
    var best := Best(levels.Keys, maker);
    if best == price then 0
    else RemainingTotal(levels[best].orders) + LotsBetter(levels - {best}, maker, price)
  }

  ghost predicate SplitAt(levels: map<int, PaperQueue>, maker: Side, limit: Option<int>, left: int, price: int) {
    price in levels && Reaches(maker, limit, price)
    && SplitsLevel(levels[price].orders, left - LotsBetter(levels, maker, price))
  }

  ghost predicate PaperLevelsOk(levels: map<int, PaperQueue>) {
    forall p :: p in levels ==> PapersOk(levels[p].orders) && levels[p].orders != []
  }

  lemma {:induction false} BetterNonNegative(levels: map<int, PaperQueue>, maker: Side, price: int)
    requires PaperLevelsOk(levels) && price in levels
    ensures LotsBetter(levels, maker, price) >= 0
    decreases |levels|
  {
    assert price in levels.Keys;
    var best := Best(levels.Keys, maker);
    if best != price {
      RemainingPositive(levels[best].orders);
      BetterNonNegative(levels - {best}, maker, price);
    }
  }

  lemma {:induction false} BestReached(levels: map<int, PaperQueue>, maker: Side, limit: Option<int>, price: int)
    requires price in levels && Reaches(maker, limit, price)
    ensures BestPrice(levels, maker).Some? && Reaches(maker, limit, BestPrice(levels, maker).value)
    ensures BestPrice(levels, maker).value == Best(levels.Keys, maker) && BestPrice(levels, maker).value in levels
  {
    assert price in levels.Keys;
  }

  lemma FrontPositive(orders: seq<PaperOrder>)
    requires PapersOk(orders) && orders != []
    ensures orders[0].remaining > 0
  {
  }

  lemma {:induction false} BetterUnfold(levels: map<int, PaperQueue>, maker: Side, price: int)
    requires PaperLevelsOk(levels) && price in levels
    ensures var best := Best(levels.Keys, maker);
            && best in levels
            && (price == best ==> LotsBetter(levels, maker, price) == 0)
            && (price != best ==> LotsBetter(levels, maker, price)
                                  == RemainingTotal(levels[best].orders) + LotsBetter(levels - {best}, maker, price))
            && LotsBetter(levels, maker, price) >= 0
  {
    assert price in levels.Keys;
    BetterNonNegative(levels, maker, price);
    hide PaperLevelsOk, RemainingTotal;
  }

  /** Removing the best level, and its lots, decides the same for every other price. */
  lemma SplitBehind(levels: map<int, PaperQueue>, maker: Side, limit: Option<int>, left: int, price: int, best: int)
    requires PaperLevelsOk(levels) && price in levels && best in levels && price != best
    requires BestPrice(levels, maker) == Some(best)
    ensures SplitAt(levels, maker, limit, left, price)
       <==> SplitAt(levels - {best}, maker, limit, left - RemainingTotal(levels[best].orders), price)
    ensures left < RemainingTotal(levels[best].orders) ==> !SplitAt(levels, maker, limit, left, price)
  {
    hide PapersOk, RemainingTotal, LotsBetter, IsBest, Reaches;
    var rest := levels - {best};
    BetterUnfold(levels, maker, price);
    BetterUnfold(rest, maker, price);
    FrontPositive(levels[price].orders);
    assert rest[price] == levels[price];
  }

  ghost predicate SplitsSome(levels: map<int, PaperQueue>, maker: Side, limit: Option<int>, left: int) {
    exists price :: SplitAt(levels, maker, limit, left, price)
  }

  /** The best level decides if the sweep ends there, and otherwise the levels behind it do. */
  lemma SplitsBehind(levels: map<int, PaperQueue>, maker: Side, limit: Option<int>, left: int)
    requires PaperLevelsOk(levels) && BestPrice(levels, maker).Some?
    requires Reaches(maker, limit, BestPrice(levels, maker).value)
    ensures var best := BestPrice(levels, maker).value;
            && best in levels
            && var orders := levels[best].orders;
               SplitsSome(levels, maker, limit, left)
               <==> if left < RemainingTotal(orders) then SplitsLevel(orders, left)
                    else SplitsSome(levels - {best}, maker, limit, left - RemainingTotal(orders))
  {
    hide SplitAt, SplitsLevel, PapersOk, RemainingTotal, LotsBetter, Reaches;
    var best := BestPrice(levels, maker).value;
    var orders := levels[best].orders;
    var total := RemainingTotal(orders);
    InLevels(levels, maker, limit, left);
    InLevels(levels - {best}, maker, limit, left - total);
    SplitAtBest(levels, maker, limit, left);
    forall price | price in levels && price != best
      ensures SplitAt(levels, maker, limit, left, price)
         <==> SplitAt(levels - {best}, maker, limit, left - total, price)
      ensures left < total ==> !SplitAt(levels, maker, limit, left, price)
    {
      SplitBehind(levels, maker, limit, left, price, best);
    }
    assert forall price :: SplitAt(levels - {best}, maker, limit, left - total, price) ==>
      price in levels && price != best;
    if left >= total {
      NotSplit(orders, left);
      assert forall price :: SplitAt(levels, maker, limit, left, price) ==> price != best;
    }
  }

  lemma {:induction false} NotSplit(orders: seq<PaperOrder>, left: int)
    requires left >= RemainingTotal(orders)
    ensures !SplitsLevel(orders, left)
  {
  }

  lemma SplitAtBest(levels: map<int, PaperQueue>, maker: Side, limit: Option<int>, left: int)
    requires PaperLevelsOk(levels) && BestPrice(levels, maker).Some?
    requires Reaches(maker, limit, BestPrice(levels, maker).value)
    ensures var best := BestPrice(levels, maker).value;
            best in levels && (SplitAt(levels, maker, limit, left, best) <==> SplitsLevel(levels[best].orders, left))
  {
    BetterUnfold(levels, maker, BestPrice(levels, maker).value);
  }

  lemma InLevels(levels: map<int, PaperQueue>, maker: Side, limit: Option<int>, left: int)
    ensures forall price :: SplitAt(levels, maker, limit, left, price) ==> price in levels
  {
  }

  lemma NoSplit(levels: map<int, PaperQueue>, maker: Side, limit: Option<int>, left: int, price: int)
    requires PaperLevelsOk(levels)
    requires var best := BestPrice(levels, maker); left <= 0 || best.None? || !Reaches(maker, limit, best.value)
    ensures !SplitAt(levels, maker, limit, left, price)
  {
    if price in levels && Reaches(maker, limit, price) {
      BestReached(levels, maker, limit, price);
      BetterNonNegative(levels, maker, price);
      FrontPositive(levels[price].orders);
    }
  }

  /**
   * The same condition in one look at the ladder: at some price within the limit, the lots that get
   * past all better prices fill the front order but not the level.
   */
  lemma {:induction false} SplitsSomewhere(levels: map<int, PaperQueue>, maker: Side, limit: Option<int>, left: int)
    requires PaperLevelsOk(levels)
    ensures Splits(levels, maker, limit, left) <==> exists price :: SplitAt(levels, maker, limit, left, price)
    decreases |levels|
  {
    hide SplitAt, SplitsLevel, LotsBetter, Reaches;
    var best := BestPrice(levels, maker);
    if left > 0 && best.Some? && Reaches(maker, limit, best.value) {
      SplitsBehind(levels, maker, limit, left);
      if left >= RemainingTotal(levels[best.value].orders) {
        SplitsSomewhere(levels - {best.value}, maker, limit, left - RemainingTotal(levels[best.value].orders));
      }
    } else {
      forall price ensures !SplitAt(levels, maker, limit, left, price) {
        NoSplit(levels, maker, limit, left, price);
      }
    }
  }

  // ---- nothing else makes phantom lots ------------------------------------------------------

  lemma SamePapersPhantoms(s: State, s': State)
    requires s'.paper == s.paper
    ensures NoPhantoms(s') <==> NoPhantoms(s)
  {
    assert forall side, price :: PapersAt(s', side, price) == PapersAt(s, side, price);
  }

  lemma ShadowPhantoms(s: State, side: Side, price: int, market: seq<Order>, traded: int, e: Event)
    requires Inv(s) && NoPhantoms(s)
    ensures NoPhantoms(ShadowAt(s, side, price, market, traded, e).0)
  {
    hide Inv, NoPhantoms;
    if traded > 0 && price in s.paper.At(side) {
      LevelPapers(s, side, price);
      ShadowRest(market, s.paper.At(side)[price], traded, 0);
      RepaperPhantoms(s, side, price, Shadow(market, s.paper.At(side)[price], traded, 0).1);
    }
  }

  lemma SetPhantoms(s: State, id: int, remaining: int)
    requires NoPhantoms(s)
    ensures NoPhantoms(SetRemaining(s, id, remaining))
  {
    if id in s.paperInfo && s.paperInfo[id].price in s.paper.At(s.paperInfo[id].side) {
      var place := s.paperInfo[id];
      var pq := s.paper.At(place.side)[place.price];
      assert PapersAt(s, place.side, place.price) == pq;
      var i := PositionOf(pq.orders, id);
      if i < |pq.orders| {
        RepaperPhantoms(s, place.side, place.price, pq.(orders := WithoutAt(pq.orders, i)));
        RepaperPhantoms(s, place.side, place.price,
                        pq.(orders := pq.orders[i := pq.orders[i].(remaining := remaining)]));
      }
    }
  }

  lemma RestPaperPhantoms(caps: Caps, s: State, e: Event, qty: int)
    requires NoPhantoms(s)
    ensures NoPhantoms(RestPaper(caps, s, e, qty))
  {
    var s' := RestPaper(caps, s, e, qty);
    forall d, q ensures PapersAt(s', d, q).phantom == 0 {
      assert PapersAt(s, d, q).phantom == 0;
    }
  }

  lemma MatchEventPhantoms(s: State, e: Event)
    requires Inv(s) && NoPhantoms(s)
    ensures NoPhantoms(OnMatch(s, e).0)
  {
    hide Inv, NoPhantoms, ChangeQty, LiveQty;
    if e.qty > 0 && e.id in s.info {
      var loc := s.info[e.id];
      var take := Min(LiveQty(s, e.id), e.qty);
      var queue := QueueAt(s.hist, loc.side, loc.price);
      var sh := ShadowAt(s, loc.side, loc.price, queue, take, e).0;
      ShadowPhantoms(s, loc.side, loc.price, queue, take, e);
      ChangeKeepsPaper(sh, e.id, -take);
      SamePapersPhantoms(sh, ChangeQty(sh, e.id, -take));
    }
  }

  // ---- what a historical aggressor meets ----------------------------------------------------

  /**
   * The strategy orders that are left at a price once a historical aggressor with lots to spare has
   * gone through the book: where it took a whole historical queue, they have had its shadow fills.
   */
  function LeftAt(s: State, maker: Side, limit: int, price: int): PaperQueue {
    var queue := QueueAt(s.hist, maker, price);
    if price in s.hist.At(maker) && Crosses(maker, limit, price) then
      Shadow(queue, PapersAt(s, maker, price), QtyTotal(queue), 0).1
    else PapersAt(s, maker, price)
  }

  function Waiting(s: State, maker: Side, limit: int): map<int, PaperQueue> {
    map p | p in s.paper.At(maker) && LeftAt(s, maker, limit, p).orders != [] :: LeftAt(s, maker, limit, p)
  }

  lemma NothingTraded(s: State, e: Event)
    requires Inv(s) && NothingCrosses(s, e)
    ensures Waiting(s, e.side.Opposite(), e.price) == s.paper.At(e.side.Opposite())
  {
    hide Inv, NoPhantoms;
    var maker := e.side.Opposite();
    forall p | p in s.paper.At(maker) ensures LeftAt(s, maker, e.price, p) == s.paper.At(maker)[p] {
      LevelPapers(s, maker, p);
    }
    forall p | p in s.paper.At(maker) ensures s.paper.At(maker)[p].orders != [] {
      LevelPapers(s, maker, p);
    }
  }

  /** A level that is traded through gives its strategy orders the shadow fills of the whole queue. */
  lemma TradedThrough(s: State, e: Event, px: int, left: int, p: int)
    requires Inv(s) && left > 0 && px in s.hist.At(e.side.Opposite()) && Crosses(e.side.Opposite(), e.price, px)
    requires !TradeLevel(s, e, px, left).done
    ensures var maker := e.side.Opposite();
            var t := TradeLevel(s, e, px, left).state;
            && LeftAt(t, maker, e.price, p).orders == LeftAt(s, maker, e.price, p).orders
            && (p in t.paper.At(maker) ==> LeftAt(t, maker, e.price, p) == LeftAt(s, maker, e.price, p))
  {
    var maker := e.side.Opposite();
    var queue := s.hist.At(maker)[px];
    var t := TradeLevel(s, e, px, left);
    LevelQueue(s, maker, px);
    ConsumeRest(queue, left);
    hide Inv, Consume, QtyTotal, Shadow, TradeLevel, ShadowAt;
    TradeLevelHist(s, e, px, left);
    WholeQueue(queue, left);
    TradeLevelPaper(s, e, px, left);
    assert t.state.hist.At(maker) == s.hist.At(maker) - {px};
    if p == px {
      NobodyLeft(queue);
    }
  }

  lemma {:induction false} NobodyLeft(market: seq<Order>)
    ensures Shadow(market, PaperQueue([], 0), QtyTotal(market), 0).1 == PaperQueue([], 0)
  {
  }

  lemma {:induction false} WholeQueue(queue: seq<Order>, left: int)
    requires QueueOk(queue) && left >= 0 && Consume(queue, left).rest == []
    ensures left - Consume(queue, left).left == QtyTotal(queue)
  {
    ConsumeTotals(queue, left);
  }

  /** What one level of matching makes of the strategy orders that wait there. */
  lemma {:induction false} TradeLevelPaper(s: State, e: Event, px: int, left: int)
    requires Inv(s) && left > 0 && px in s.hist.At(e.side.Opposite())
    ensures var maker := e.side.Opposite();
            var queue := s.hist.At(maker)[px];
            var t := TradeLevel(s, e, px, left);
            t.state.paper == if px in s.paper.At(maker) then
                s.paper.With(maker, PutPapers(s.paper.At(maker), px,
                                              Shadow(queue, s.paper.At(maker)[px], left - t.left, 0).1))
              else s.paper
  {
    LevelQueue(s, e.side.Opposite(), px);
    TradeLevelInv(s, e, px, left);
    hide Inv, Consume, Shadow;
  }

  /** An aggressor with lots to spare leaves exactly these strategy orders, and makes no phantom lots. */
  lemma {:induction false} MatchWaiting(s: State, e: Event, left: int)
    requires Inv(s) && left >= 0
    ensures var m := MatchHistorical(s, e, left);
            && (m.left > 0 ==> m.state.paper.At(e.side.Opposite()) == Waiting(s, e.side.Opposite(), e.price))
            && (NoPhantoms(s) ==> NoPhantoms(m.state))
    decreases |s.hist.At(e.side.Opposite())|
  {
    hide Inv, NoPhantoms, TradeLevel, LeftAt, NothingCrosses;
    var maker := e.side.Opposite();
    var best := BestPrice(s.hist.At(maker), maker);
    if left > 0 && best.Some? && Crosses(maker, e.price, best.value) {
      var px := best.value;
      var t := TradeLevel(s, e, px, left);
      TradeLevelInv(s, e, px, left);
      if NoPhantoms(s) {
        TradeLevelPhantoms(s, e, px, left);
      }
      if !t.done {
        TradeLevelShrinks(s, e, px, left);
        MatchWaiting(t.state, e, t.left);
        SameWaiting(s, e, px, left);
      }
    } else if left > 0 {
      StillNothing(s, e);
      NothingTraded(s, e);
    }
  }

  lemma StillNothing(s: State, e: Event)
    requires var maker := e.side.Opposite();
             var best := BestPrice(s.hist.At(maker), maker);
             best.None? || !Crosses(maker, e.price, best.value)
    ensures NothingCrosses(s, e)
  {
    BestBounds(s.hist.At(e.side.Opposite()), e.side.Opposite(), e.price);
  }

  lemma SameWaiting(s: State, e: Event, px: int, left: int)
    requires Inv(s) && left > 0 && px in s.hist.At(e.side.Opposite()) && Crosses(e.side.Opposite(), e.price, px)
    requires !TradeLevel(s, e, px, left).done
    ensures var maker := e.side.Opposite();
            Waiting(TradeLevel(s, e, px, left).state, maker, e.price) == Waiting(s, maker, e.price)
  {
    hide Inv, TradeLevel, LeftAt;
    var maker := e.side.Opposite();
    var t := TradeLevel(s, e, px, left).state;
    forall p
      ensures p in Waiting(t, maker, e.price) <==> p in Waiting(s, maker, e.price)
      ensures p in Waiting(t, maker, e.price) ==> Waiting(t, maker, e.price)[p] == Waiting(s, maker, e.price)[p]
    {
      TradedThrough(s, e, px, left, p);
      NobodyWaits(s, maker, e.price, p);
      NobodyWaits(t, maker, e.price, p);
    }
  }

  lemma NobodyWaits(s: State, maker: Side, limit: int, p: int)
    ensures p !in s.paper.At(maker) ==> LeftAt(s, maker, limit, p).orders == []
  {
  }

  lemma TradeLevelPhantoms(s: State, e: Event, px: int, left: int)
    requires Inv(s) && left > 0 && px in s.hist.At(e.side.Opposite()) && NoPhantoms(s)
    ensures NoPhantoms(TradeLevel(s, e, px, left).state)
  {
    hide Inv, NoPhantoms, Consume, Shadow;
    var maker := e.side.Opposite();
    TradeLevelPaper(s, e, px, left);
    var t := TradeLevel(s, e, px, left);
    if px in s.paper.At(maker) {
      LevelPapers(s, maker, px);
      var pq' := Shadow(s.hist.At(maker)[px], s.paper.At(maker)[px], left - t.left, 0).1;
      ShadowRest(s.hist.At(maker)[px], s.paper.At(maker)[px], left - t.left, 0);
      RepaperPhantoms(s, maker, px, pq');
      SamePapersPhantoms(Repaper(s, maker, px, pq'), t.state);
    } else {
      SamePapersPhantoms(s, t.state);
    }
  }

  // ---- the events ---------------------------------------------------------------------------

  /** The lots with which an event goes on to sweep strategy orders. */
  ghost function LeftToSweep(s: State, e: Event): int {
    var maker := e.side.Opposite();
    DryRun(s.hist.At(maker), maker, if e.kind == Add then Some(e.price) else None, e.qty).1
  }

  ghost predicate AcceptedAdd(s: State, e: Event) {
    e.kind == Add && e.source != Strategy && e.qty >= 0 && e.id !in s.info && e.id !in s.paperInfo
  }

  /** The event's direct sweep, if it has one, ends inside a level whose front order it has filled. */
  ghost predicate Splitting(s: State, e: Event) {
    var maker := e.side.Opposite();
    if AcceptedAdd(s, e) then Splits(Waiting(s, maker, e.price), maker, Some(e.price), LeftToSweep(s, e))
    else
      e.kind == AggressiveTrade && e.source == Strategy && e.qty > 0
      && Splits(s.paper.At(maker), maker, None, LeftToSweep(s, e))
  }

  lemma AddPhantoms(caps: Caps, s: State, e: Event)
    requires Inv(s) && NoPhantoms(s) && AcceptedAdd(s, e)
    ensures NoPhantoms(AddHistorical(caps, s, e).0) <==> !Splitting(s, e)
  {
    hide Inv, NoPhantoms, MatchHistorical, SweepPapers, DryRun, Waiting;
    var m := MatchHistorical(s, e, e.qty);
    MatchHistoricalInv(s, e, e.qty);
    RealIsDryRun(s, e, e.qty);
    MatchWaiting(s, e, e.qty);
    SweepPhantoms(m.state, e, Some(e.price), m.left);
    SamePapersPhantoms(SweepPapers(m.state, e, Some(e.price), m.left).state, AddHistorical(caps, s, e).0);
  }

  lemma AggressivePhantoms(s: State, e: Event)
    requires Inv(s) && NoPhantoms(s) && e.kind == AggressiveTrade
    ensures NoPhantoms(OnAggressiveTrade(s, e).0) <==> !Splitting(s, e)
  {
    hide Inv, NoPhantoms, SweepPapers, DryRun, Waiting;
    if e.source == Strategy && e.qty > 0 {
      AggressiveLeft(s, e);
      SweepPhantoms(s, e, None, LeftToSweep(s, e));
      SamePapersPhantoms(SweepPapers(s, e, None, LeftToSweep(s, e)).state, OnAggressiveTrade(s, e).0);
    }
  }

  lemma QuietPhantoms(s: State, e: Event)
    requires NoPhantoms(s)
    ensures NoPhantoms(OnDelete(s, e)) && NoPhantoms(OnSubtract(s, e)) && NoPhantoms(OnSet(s, e))
  {
    hide NoPhantoms, ChangeQty, SetRemaining;
    SetPhantoms(s, e.id, 0);
    SetPhantoms(s, e.id, Max(Remaining(s, e.id) - e.qty, 0));
    SetPhantoms(s, e.id, Max(e.qty, 0));
    forall delta ensures NoPhantoms(ChangeQty(s, e.id, delta)) {
      ChangeKeepsPaper(s, e.id, delta);
      SamePapersPhantoms(s, ChangeQty(s, e.id, delta));
    }
  }

  /** The exact condition for one event: phantom lots appear if and only if its direct sweep splits a level. */
  lemma StepPhantoms(caps: Caps, s: State, e: Event)
    requires Inv(s) && NoPhantoms(s)
    ensures NoPhantoms(Step(caps, s, e).0) <==> !Splitting(s, e)
  {
    hide Inv, NoPhantoms, AddHistorical, AddPaper, OnAggressiveTrade, OnMatch, OnDelete, OnSubtract, OnSet, Splits;
    SamePapersPhantoms(Apply(caps, s, e).0, Step(caps, s, e).0);
    match e.kind
    case Add =>
      if AcceptedAdd(s, e) {
        AddPhantoms(caps, s, e);
      } else {
        AddPaperPhantoms(caps, s, e);
      }
    case AggressiveTrade => AggressivePhantoms(s, e);
    case Match => MatchEventPhantoms(s, e);
    case Delete => QuietPhantoms(s, e);
    case Subtract => QuietPhantoms(s, e);
    case Set => QuietPhantoms(s, e);
  }

  lemma AddPaperPhantoms(caps: Caps, s: State, e: Event)
    requires NoPhantoms(s)
    ensures NoPhantoms(AddPaper(caps, s, e).0)
  {
    hide NoPhantoms, RestPaper, DryRun;
    RestPaperPhantoms(caps, s, e, DryRun(s.hist.At(e.side.Opposite()), e.side.Opposite(), Some(e.price), e.qty).1);
  }

  // ---- runs ---------------------------------------------------------------------------------

  /** The state that the event at position `k` of a run meets. */
  ghost function Before(caps: Caps, s: State, events: seq<Event>, k: nat): State
    requires k <= |events|
  {
    Run(caps, s, events[..k]).0
  }

  ghost predicate CleanAlong(caps: Caps, s: State, events: seq<Event>) {
    forall k :: 0 <= k <= |events| ==> NoPhantoms(Before(caps, s, events, k))
  }

  ghost predicate NoneSplits(caps: Caps, s: State, events: seq<Event>) {
    forall k :: 0 <= k < |events| ==> !Splitting(Before(caps, s, events, k), events[k])
  }

  lemma BeforeNext(caps: Caps, s: State, events: seq<Event>, k: nat)
    requires k < |events|
    ensures Before(caps, s, events, k + 1) == Step(caps, Before(caps, s, events, k), events[k]).0
  {
    hide Step;
    assert events[..k + 1][..k] == events[..k];
  }

  lemma {:induction false} CleanUpTo(caps: Caps, s: State, events: seq<Event>, k: nat)
    requires Inv(s) && NoPhantoms(s) && NoneSplits(caps, s, events) && k <= |events|
    ensures NoPhantoms(Before(caps, s, events, k))
  {
    hide Inv, NoPhantoms, Splitting, Step;
    if k > 0 {
      CleanUpTo(caps, s, events, k - 1);
      RunInv(caps, s, events[..k - 1]);
      StepPhantoms(caps, Before(caps, s, events, k - 1), events[k - 1]);
      BeforeNext(caps, s, events, k - 1);
    } else {
      RunNone(caps, s);
    }
  }

  /** A run stays without phantom lots throughout if and only if none of its sweeps splits a level. */
  lemma RunPhantoms(caps: Caps, s: State, events: seq<Event>)
    requires Inv(s) && NoPhantoms(s)
    ensures CleanAlong(caps, s, events) <==> NoneSplits(caps, s, events)
  {
    hide Inv, NoPhantoms, Splitting, Step, Before;
    if NoneSplits(caps, s, events) {
      forall k | 0 <= k <= |events| ensures NoPhantoms(Before(caps, s, events, k)) {
        CleanUpTo(caps, s, events, k);
      }
    }
    if CleanAlong(caps, s, events) {
      forall k | 0 <= k < |events| ensures !Splitting(Before(caps, s, events, k), events[k]) {
        BeforeInv(caps, s, events, k);
        StepPhantoms(caps, Before(caps, s, events, k), events[k]);
        BeforeNext(caps, s, events, k);
      }
    }
  }

  lemma BeforeInv(caps: Caps, s: State, events: seq<Event>, k: nat)
    requires Inv(s) && k <= |events|
    ensures Inv(Before(caps, s, events, k))
  {
    RunInv(caps, s, events[..k]);
  }

  lemma StartPhantoms(s: State)
    requires s.paper == Sides(map[], map[])
    ensures NoPhantoms(s)
  {
  }

  /** From an empty engine. */
  lemma EmptyRunPhantoms(caps: Caps, events: seq<Event>)
    ensures CleanAlong(caps, EMPTY, events) <==> NoneSplits(caps, EMPTY, events)
  {
    EmptyInv();
    StartPhantoms(EMPTY);
    hide Inv, NoPhantoms, CleanAlong, NoneSplits;
    RunPhantoms(caps, EMPTY, events);
  }

  /** From a snapshot, aggregated or of single orders, that starts inside the invariant. */
  lemma {:induction false} SeededRunPhantoms(caps: Caps, seq_: nat, rows: seq<Row>, withIds: bool, events: seq<Event>)
    requires withIds || forall i :: 0 <= i < |rows| ==> rows[i].id == UNKNOWN_ID
    requires StartsInside(rows[..RowsRead(caps, seq_, rows, withIds)], caps.historical, withIds)
    ensures var s := Seeded(caps, seq_, rows, withIds).0;
            CleanAlong(caps, s, events) <==> NoneSplits(caps, s, events)
  {
    var s := Seeded(caps, seq_, rows, withIds).0;
    SnapshotInvExactly(caps, seq_, rows, withIds);
    SeededFacts(caps, seq_, rows, withIds);
    StartPhantoms(s);
    hide Inv, NoPhantoms, CleanAlong, NoneSplits, Seeded, StartsInside;
    RunPhantoms(caps, s, events);
  }

  // ---- what that gives ----------------------------------------------------------------------

  /** No phantom lots means that every stored level counts exactly the lots that rest there. */
  lemma LotsQueuedExactly(levels: Levels, s: State, entries: map<int, PaperEntry>)
    requires Reps(levels, s.paper, s.hist, entries, s.clock)
    ensures NoPhantoms(s) <==>
            forall side, price :: price in levels.At(side) ==> CountsResting(levels, s, side, price)
  {
    forall side, price ensures PapersAt(s, side, price).phantom == 0 <==>
                               (price in levels.At(side) ==> CountsResting(levels, s, side, price)) {
      assert RepAt(levels, s.paper, s.hist, entries, s.clock, side, price);
    }
  }

  ghost predicate CountsResting(levels: Levels, s: State, side: Side, price: int)
    requires price in levels.At(side)
  {
    levels.At(side)[price].queuedLots == RemainingTotal(PapersAt(s, side, price).orders)
  }

  /** Stamps at one place of a reachable state are distinct: strategy orders never share one with a queued order. */
  lemma DistinctStamps(s: State, side: Side, price: int)
    requires Inv(s) && price in s.paper.At(side)
    ensures var market := QueueAt(s.hist, side, price);
            var papers := s.paper.At(side)[price].orders;
            && QueueOk(market) && PapersOk(papers) && papers != []
            && forall i, j :: 0 <= i < |market| && 0 <= j < |papers| ==> market[i].arrival != papers[j].placement
  {
    var market := QueueAt(s.hist, side, price);
    var papers := s.paper.At(side)[price].orders;
    assert LevelInv(s, side, price) && PaperLevelInv(s, side, price);
    forall i, j | 0 <= i < |market| && 0 <= j < |papers| ensures market[i].arrival != papers[j].placement {
      assert OrderOk(s, side, price, market[i]) && PaperOk(s, side, price, papers[j]);
    }
  }

  /**
   * In every reachable state a level gives the fills of one FIFO queue, for every trade size, if and
   * only if it has no phantom lots.
   */
  lemma ReachableFifo(s: State, side: Side, price: int)
    requires Inv(s) && price in s.paper.At(side)
    ensures var market := QueueAt(s.hist, side, price);
            var pq := s.paper.At(side)[price];
            (forall traded: int :: Shadow(market, pq, traded, 0).0 == WalkFifo(Merge(market, pq.orders), traded).0)
              <==> pq.phantom == 0
  {
    DistinctStamps(s, side, price);
    hide Inv;
    FifoExactlyWithoutPhantom(QueueAt(s.hist, side, price), s.paper.At(side)[price]);
  }

  /** The report of a trade at a level without phantom lots, and what it leaves there, are those of the FIFO walk. */
  lemma {:induction false} ShadowAtFifo(s: State, side: Side, price: int, traded: int, e: Event)
    requires Inv(s) && price in s.paper.At(side) && s.paper.At(side)[price].phantom == 0 && traded > 0
    ensures var market := QueueAt(s.hist, side, price);
            var w := WalkFifo(Merge(market, s.paper.At(side)[price].orders), traded);
            var r := ShadowAt(s, side, price, market, traded, e);
            && r.1 == FillsOf(s.seq_, side, price, w.0, ShadowTaker(e), e.source)
            && PapersAt(r.0, side, price) == PaperQueue(w.1, 0)
  {
    DistinctStamps(s, side, price);
    hide Inv, Shadow, Merge, WalkFifo;
    var pq := s.paper.At(side)[price];
    var market := QueueAt(s.hist, side, price);
    ShadowIsFifo(market, pq.orders, traded);
    assert pq == PaperQueue(pq.orders, 0);
    RepaperElsewhere(s, side, price, Shadow(market, pq, traded, 0).1, side, price);
  }

  /** The same for a level that a historical order trades at: its report is real fills, then the FIFO walk's. */
  lemma {:induction false} TradeLevelFifo(s: State, e: Event, px: int, left: int)
    requires Inv(s) && left > 0 && px in s.hist.At(e.side.Opposite()) && px in s.paper.At(e.side.Opposite())
    requires s.paper.At(e.side.Opposite())[px].phantom == 0
    ensures var maker := e.side.Opposite();
            var queue := s.hist.At(maker)[px];
            var t := TradeLevel(s, e, px, left);
            var w := WalkFifo(Merge(queue, s.paper.At(maker)[px].orders), left - t.left);
            && t.records == FillsOf(s.seq_, maker, px, Consume(queue, left).trades, e.id, e.source)
                            + FillsOf(s.seq_, maker, px, w.0, ShadowTaker(e), e.source)
            && PapersAt(t.state, maker, px) == PaperQueue(w.1, 0)
  {
    hide Inv, Consume, Shadow, Merge, WalkFifo, TradeLevel, ShadowAt;
    var maker := e.side.Opposite();
    var queue := s.hist.At(maker)[px];
    var t := TradeLevel(s, e, px, left);
    DistinctStamps(s, maker, px);
    TradeLevelInv(s, e, px, left);
    TradeLevelPaper(s, e, px, left);
    ShadowIsFifo(queue, s.paper.At(maker)[px].orders, left - t.left);
    TradeLevelReal(s, e, px, left);
    assert s.paper.At(maker)[px] == PaperQueue(s.paper.At(maker)[px].orders, 0);
  }

  lemma {:induction false} TradeLevelReal(s: State, e: Event, px: int, left: int)
    requires Inv(s) && left > 0 && px in s.hist.At(e.side.Opposite()) && px in s.paper.At(e.side.Opposite())
    ensures var maker := e.side.Opposite();
            var queue := s.hist.At(maker)[px];
            var t := TradeLevel(s, e, px, left);
            t.records == FillsOf(s.seq_, maker, px, Consume(queue, left).trades, e.id, e.source)
                         + FillsOf(s.seq_, maker, px, Shadow(queue, s.paper.At(maker)[px], left - t.left, 0).0,
                                   ShadowTaker(e), e.source)
  {
    TradeLevelInv(s, e, px, left);
    hide Inv, Consume, Shadow, FillsOf;
  }
}
