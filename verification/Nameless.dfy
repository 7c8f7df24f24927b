/**
 * Orders that share the id "no id". One of them may hold the index entry; it can lose the entry
 * while it rests exactly when another one can be taken first.
 */
module Nameless {
  import opened Types
  import opened PriceHeap
  import opened Level
  import opened Book
  import opened BookInv
  import opened EngineSteps
  import opened EngineMatch
  import opened Matching
  import opened Effects
  import opened Named

  /** The order that an index entry stands for is still in its queue. */
  ghost predicate Rests(s: State, x: Loc) {
    Holds(QueueAt(s.hist, x.side, x.price), x.arrival)
  }

  ghost predicate Entered(s: State, x: Loc) {
    UNKNOWN_ID in s.info && s.info[UNKNOWN_ID] == x
  }

  /** On its own side, an order trades before `x`: at a better price, or earlier at the same one. */
  ghost predicate Ahead(x: Loc, price: int, arrival: nat) {
    Rank(x.side, price) > Rank(x.side, x.price) || (price == x.price && arrival < x.arrival)
  }

  /** Another order without an id can be taken before `x`: it is on the other side, or ahead of `x`. */
  ghost predicate Threat(x: Loc, side: Side, price: int, o: Order) {
    o.id == UNKNOWN_ID && Loc(side, price, o.arrival) != x && (side != x.side || Ahead(x, price, o.arrival))
  }

  ghost predicate QueueSafe(x: Loc, side: Side, price: int, queue: seq<Order>) {
    forall i :: 0 <= i < |queue| ==> !Threat(x, side, price, queue[i])
  }

  ghost predicate NoThreat(s: State, x: Loc) {
    forall side, price :: QueueSafe(x, side, price, QueueAt(s.hist, side, price))
  }

  ghost predicate Safe(s: State, x: Loc) {
    Entered(s, x) && NoThreat(s, x)
  }

  /** The order has left the book, for good: its stamp is in the past. */
  ghost predicate Departed(s: State, x: Loc) {
    !Rests(s, x) && x.arrival < s.clock
  }

  ghost predicate SafeOrDeparted(s: State, x: Loc) {
    Safe(s, x) || Departed(s, x)
  }

  /** The order rests, but the engine no longer finds it. */
  ghost predicate Lost(s: State, x: Loc) {
    Rests(s, x) && !Entered(s, x)
  }

  // ---- without a threat nothing is lost -----------------------------------------------------

  lemma SameBooksSafe(s: State, s': State, x: Loc)
    requires SafeOrDeparted(s, x) && s'.hist == s.hist && s'.info == s.info && s'.clock >= s.clock
    ensures SafeOrDeparted(s', x)
  {
    if Safe(s, x) {
      forall side, price ensures QueueSafe(x, side, price, QueueAt(s'.hist, side, price)) {
        assert QueueSafe(x, side, price, QueueAt(s.hist, side, price));
      }
    }
  }

  /** An entered order is in its queue, and older than the clock. */
  lemma EnteredRests(s: State, x: Loc)
    requires Inv(s) && Entered(s, x)
    ensures Rests(s, x) && x.arrival < s.clock
  {
    assert InfoInv(s, UNKNOWN_ID) && LevelInv(s, x.side, x.price);
    var queue := QueueAt(s.hist, x.side, x.price);
    var i :| 0 <= i < |queue| && queue[i].arrival == x.arrival && queue[i].id == UNKNOWN_ID;
    assert OrderOk(s, x.side, x.price, queue[i]);
  }

  /** Orders leave one queue. If the entry goes with them, so must the order it stands for. */
  lemma RequeueSafe(s: State, side: Side, price: int, queue': seq<Order>, x: Loc)
    requires Inv(s) && SafeOrDeparted(s, x) && Thinned(queue', QueueAt(s.hist, side, price))
    requires Entered(s, x) && UNKNOWN_ID in GoneIds(QueueAt(s.hist, side, price), queue') ==>
               side == x.side && price == x.price && !Holds(queue', x.arrival)
    ensures SafeOrDeparted(Requeue(s, side, price, queue'), x)
  {
    var queue := QueueAt(s.hist, side, price);
    var s' := Requeue(s, side, price, queue');
    PutQueueAt(s.hist, side, price, queue');
    RequeueHist(s, side, price, queue');
    assert s'.info == s.info - GoneIds(queue, queue') && s'.clock == s.clock;
    if Departed(s, x) {
      StillDeparted(s, side, price, queue', x);
    } else {
      EnteredRests(s, x);
      if UNKNOWN_ID !in GoneIds(queue, queue') {
        assert Entered(s', x);
        forall d, q ensures QueueSafe(x, d, q, QueueAt(s'.hist, d, q)) {
          assert QueueSafe(x, d, q, QueueAt(s.hist, d, q));
          if d == side && q == price {
            ThinnedSafe(x, side, price, queue', queue);
          }
        }
      }
    }
  }

  lemma ThinnedSafe(x: Loc, side: Side, price: int, queue': seq<Order>, queue: seq<Order>)
    requires QueueSafe(x, side, price, queue) && Thinned(queue', queue)
    ensures QueueSafe(x, side, price, queue')
  {
    forall i | 0 <= i < |queue'| ensures !Threat(x, side, price, queue'[i]) {
      assert Keeps(queue, queue'[i]);
      var j :| 0 <= j < |queue| && queue[j] == queue'[i].(qty := queue[j].qty);
      assert !Threat(x, side, price, queue[j]);
    }
  }

  lemma StillDeparted(s: State, side: Side, price: int, queue': seq<Order>, x: Loc)
    requires Departed(s, x) && Thinned(queue', QueueAt(s.hist, side, price))
    ensures Departed(Requeue(s, side, price, queue'), x)
  {
    var queue := QueueAt(s.hist, side, price);
    PutQueueAt(s.hist, side, price, queue');
    RequeueHist(s, side, price, queue');
    assert forall i :: 0 <= i < |queue'| ==> Keeps(queue, queue'[i]);
  }

  /** What a queue has lost to an aggressor is its front, so whoever stood before a lost order is lost too. */
  lemma FrontGone(queue: seq<Order>, rest: seq<Order>, i: nat, j: nat)
    requires QueueOk(queue) && RestOf(rest, queue) && i <= j < |queue|
    requires queue[j].arrival !in Stamps(rest)
    ensures !Holds(rest, queue[i].arrival)
  {
    var gone := |queue| - |rest|;
    RestOfOk(rest, queue);
    forall k | 0 <= k < |rest| ensures rest[k].arrival == queue[gone + k].arrival {
      if k > 0 {
        assert rest[k] == rest[1..][k - 1] == queue[gone + 1..][k - 1];
      }
    }
    assert forall k :: 0 <= k < |rest| ==> rest[k] in rest;
  }

  /** At the best price, the entry can only go with its own order. */
  lemma BestLevelSafe(s: State, maker: Side, px: int, rest: seq<Order>, x: Loc)
    requires Inv(s) && Safe(s, x) && px in s.hist.At(maker) && BestPrice(s.hist.At(maker), maker) == Some(px)
    requires RestOf(rest, QueueAt(s.hist, maker, px)) && QueueOk(QueueAt(s.hist, maker, px))
    requires UNKNOWN_ID in GoneIds(QueueAt(s.hist, maker, px), rest)
    ensures maker == x.side && px == x.price && !Holds(rest, x.arrival)
  {
    var queue := QueueAt(s.hist, maker, px);
    assert QueueSafe(x, maker, px, queue);
    var g :| g in queue && g.arrival !in Stamps(rest) && g.id == UNKNOWN_ID;
    var j :| 0 <= j < |queue| && queue[j] == g;
    assert !Threat(x, maker, px, queue[j]);
    EnteredRests(s, x);
    var at := QueueAt(s.hist, x.side, x.price);
    var i :| 0 <= i < |at| && at[i].arrival == x.arrival;
    if Loc(maker, px, g.arrival) != x {
      assert x.price in s.hist.At(maker).Keys;
      SameRankPrice(maker, px, x.price);
      assert px == x.price;
    }
    FrontGone(queue, rest, i, j);
  }

  lemma SameRankPrice(side: Side, p: int, q: int)
    ensures Rank(side, p) == Rank(side, q) <==> p == q
  {
  }

  lemma TradeLevelSafe(s: State, e: Event, px: int, left: int, x: Loc)
    requires Inv(s) && SafeOrDeparted(s, x) && left > 0
    requires px in s.hist.At(e.side.Opposite())
             && BestPrice(s.hist.At(e.side.Opposite()), e.side.Opposite()) == Some(px)
    ensures SafeOrDeparted(TradeLevel(s, e, px, left).state, x)
  {
    hide Inv, TradeLevel, Consume, Requeue, NoThreat, GoneIds, BestPrice;
    var maker := e.side.Opposite();
    var queue := QueueAt(s.hist, maker, px);
    var rest := Consume(queue, left).rest;
    ConsumedIsThinned(s, maker, px, left);
    if Safe(s, x) && UNKNOWN_ID in GoneIds(queue, rest) {
      BestLevelSafe(s, maker, px, rest, x);
    }
    if !Safe(s, x) && Entered(s, x) {
      EnteredRests(s, x);
    }
    RequeueSafe(s, maker, px, rest, x);
    TradeLevelBooks(s, e, px, left);
    SameBooksSafe(Requeue(s, maker, px, rest), TradeLevel(s, e, px, left).state, x);
  }

  lemma {:induction false} MatchSafe(s: State, e: Event, left: int, x: Loc)
    requires Inv(s) && SafeOrDeparted(s, x) && left >= 0
    ensures SafeOrDeparted(MatchHistorical(s, e, left).state, x)
    decreases |s.hist.At(e.side.Opposite())|
  {
    hide Inv, TradeLevel, SafeOrDeparted;
    var maker := e.side.Opposite();
    var best := BestPrice(s.hist.At(maker), maker);
    if left > 0 && best.Some? && Crosses(maker, e.price, best.value) {
      var t := TradeLevel(s, e, best.value, left);
      TradeLevelInv(s, e, best.value, left);
      TradeLevelSafe(s, e, best.value, left, x);
      if !t.done {
        TradeLevelShrinks(s, e, best.value, left);
        MatchSafe(t.state, e, t.left, x);
      }
    }
  }

  /** A new order is no threat: it has an id, or the entered order has left. */
  lemma RestSafe(caps: Caps, s: State, e: Event, qty: int, x: Loc)
    requires SafeOrDeparted(s, x) && e.id !in s.info
    ensures SafeOrDeparted(RestHistorical(caps, s, e, qty), x)
  {
    var s' := RestHistorical(caps, s, e, qty);
    if |s.nodes| < caps.historical {
      var queue := QueueAt(s.hist, e.side, e.price);
      var o := Order(e.id, qty, e.source, s.clock);
      assert QueueAt(s'.hist, e.side, e.price) == queue + [o];
      if Safe(s, x) {
        forall d, q ensures QueueSafe(x, d, q, QueueAt(s'.hist, d, q)) {
          assert QueueSafe(x, d, q, QueueAt(s.hist, d, q));
          if d == e.side && q == e.price {
            assert !Threat(x, d, q, o);
          }
        }
      } else if Rests(s', x) {
        var after := QueueAt(s'.hist, x.side, x.price);
        var i :| 0 <= i < |after| && after[i].arrival == x.arrival;
        assert Holds(QueueAt(s.hist, x.side, x.price), x.arrival);
        assert false;
      }
    }
  }

  lemma AddSafe(caps: Caps, s: State, e: Event, x: Loc)
    requires Inv(s) && SafeOrDeparted(s, x) && e.kind == Add
    ensures SafeOrDeparted(OnAdd(caps, s, e).0, x)
  {
    hide Inv, SafeOrDeparted, MatchHistorical, SweepPapers, RestHistorical, DryRun, RestPaper;
    if e.qty < 0 || e.id in s.info || e.id in s.paperInfo {
    } else if e.source == Strategy {
      PaperRestKeepsBook(caps, s, e, DryRun(s.hist.At(e.side.Opposite()), e.side.Opposite(), Some(e.price), e.qty).1);
      SameBooksSafe(s, OnAdd(caps, s, e).0, x);
    } else {
      var m := MatchHistorical(s, e, e.qty);
      MatchSafe(s, e, e.qty, x);
      AddReady(s, e);
      var p := SweepPapers(m.state, e, Some(e.price), m.left);
      SameBooksSafe(m.state, p.state, x);
      if p.left > 0 {
        RestSafe(caps, p.state, e, p.left, x);
      }
    }
  }

  lemma ChangeSafe(s: State, id: int, delta: int, x: Loc)
    requires Inv(s) && SafeOrDeparted(s, x) && id in s.info && LiveQty(s, id) + delta >= 0
    ensures SafeOrDeparted(ChangeQty(s, id, delta), x)
  {
    hide Inv, Changed, Requeue, SafeOrDeparted;
    var loc := s.info[id];
    var i := OrderFound(s, id, delta);
    var queue := QueueAt(s.hist, loc.side, loc.price);
    ChangedIsThinned(queue, i, delta);
    ChangedGone(queue, i, delta);
    if Entered(s, x) && UNKNOWN_ID in GoneIds(queue, Changed(queue, i, delta)) {
      assert queue[i].arrival == x.arrival && queue[i].arrival in GoneStamps(queue, Changed(queue, i, delta));
      GoneExactly(queue, Changed(queue, i, delta), i);
    }
    RequeueSafe(s, loc.side, loc.price, Changed(queue, i, delta), x);
  }

  lemma StepSafe(caps: Caps, s: State, e: Event, x: Loc)
    requires Inv(s) && SafeOrDeparted(s, x)
    ensures SafeOrDeparted(Step(caps, s, e).0, x)
  {
    hide Inv, SafeOrDeparted, ChangeQty, LiveQty, OnAdd;
    if e.kind == Add {
      AddSafe(caps, s, e, x);
      SameBooksSafe(OnAdd(caps, s, e).0, Step(caps, s, e).0, x);
    } else {
      hide Step;
      ChangeStep(caps, s, e);
      if DeltaOf(s, e).Some? {
        ChangeSafe(s, e.id, DeltaOf(s, e).value, x);
      }
      SameBooksSafe(Moved(s, e), Step(caps, s, e).0, x);
    }
  }

  /** Without a threat the entry lives as long as its order, over every run. */
  lemma {:induction false} RunSafe(caps: Caps, s: State, events: seq<Event>, x: Loc)
    requires Inv(s) && SafeOrDeparted(s, x)
    ensures SafeOrDeparted(Run(caps, s, events).0, x)
    decreases |events|
  {
    hide Inv, SafeOrDeparted, Step;
    if events != [] {
      var before := events[..|events| - 1];
      RunSafe(caps, s, before, x);
      RunInv(caps, s, before);
      StepSafe(caps, Run(caps, s, before).0, events[|events| - 1], x);
    }
  }

  // ---- with a threat it can be lost ---------------------------------------------------------

  /** Lots to take so that exactly the first `k` orders at a price go, and all better prices. */
  ghost function Needed(levels: map<int, seq<Order>>, maker: Side, price: int, k: nat): int
    requires price in levels && k <= |levels[price]|
    decreases |levels|
  {
    assert price in levels.Keys;
    var best := Best(levels.Keys, maker);
    if best == price then QtyTotal(levels[price][..k])
    else QtyTotal(levels[best]) + Needed(levels - {best}, maker, price, k)
  }

  /** Taking the lots of the first `k` orders takes these orders. */
  lemma {:induction false} ConsumePrefix(queue: seq<Order>, k: nat)
    requires QueueOk(queue) && k <= |queue|
    ensures QtyTotal(queue[..k]) >= k
    ensures Consume(queue, QtyTotal(queue[..k])).rest == queue[k..] && Consume(queue, QtyTotal(queue[..k])).left == 0
  {
    if k > 0 {
      QueueOkTail(queue);
      ConsumePrefix(queue[1..], k - 1);
      assert queue[..k][1..] == queue[1..][..k - 1];
      assert queue[1..][k - 1..] == queue[k..];
    }
  }

  /** Taking more than a queue holds takes all of it. */
  lemma {:induction false} ConsumePlus(queue: seq<Order>, more: int)
    requires QueueOk(queue) && more >= 0
    ensures QtyTotal(queue) >= 0
    ensures Consume(queue, QtyTotal(queue) + more).rest == [] && Consume(queue, QtyTotal(queue) + more).left == more
  {
    if queue != [] {
      QueueOkTail(queue);
      ConsumePlus(queue[1..], more);
    }
  }

  /** What a state looks like after exactly the first `k` orders at a price, and all better ones, were taken. */
  ghost predicate TakenUpTo(s: State, s': State, maker: Side, price: int, k: nat)
    requires price in s.hist.At(maker) && k <= |s.hist.At(maker)[price]|
  {
    && s'.hist.At(maker.Opposite()) == s.hist.At(maker.Opposite())
    && (forall q :: Rank(maker, q) < Rank(maker, price) ==> QueueAt(s'.hist, maker, q) == QueueAt(s.hist, maker, q))
    && QueueAt(s'.hist, maker, price) == s.hist.At(maker)[price][k..]
    && s'.info.Keys <= s.info.Keys
    && forall j :: 0 <= j < k ==> s.hist.At(maker)[price][j].id !in s'.info
  }

  /** The price's own level, when it is the best. */
  lemma {:induction false} TakeAtBest(s: State, e: Event, price: int, k: nat)
    requires Inv(s) && price in s.hist.At(e.side.Opposite()) && e.price == price
    requires BestPrice(s.hist.At(e.side.Opposite()), e.side.Opposite()) == Some(price)
    requires 0 < k <= |s.hist.At(e.side.Opposite())[price]|
    ensures var maker := e.side.Opposite();
            var m := MatchHistorical(s, e, QtyTotal(s.hist.At(maker)[price][..k]));
            m.left == 0 && TakenUpTo(s, m.state, maker, price, k)
  {
    var maker := e.side.Opposite();
    var queue := s.hist.At(maker)[price];
    var left := QtyTotal(queue[..k]);
    assert LevelInv(s, maker, price) && QueueAt(s.hist, maker, price) == queue;
    ConsumePrefix(queue, k);
    var t := TradeLevel(s, e, price, left);
    TradeLevelBooks(s, e, price, left);
    PutQueueAt(s.hist, maker, price, queue[k..]);
    RequeueHist(s, maker, price, queue[k..]);
    hide Inv, Consume, QtyTotal;
    PrefixGone(queue, k);
    assert t.left == 0;
    MatchUnfolds(s, e, left, price);
    MatchStops(t.state, e, 0);
  }

  lemma {:induction false} MatchUnfolds(s: State, e: Event, left: int, px: int)
    requires Inv(s) && left > 0 && Crosses(e.side.Opposite(), e.price, px)
    requires BestPrice(s.hist.At(e.side.Opposite()), e.side.Opposite()) == Some(px)
    ensures var t := TradeLevel(s, e, px, left);
            var m := MatchHistorical(s, e, left);
            m.state == MatchHistorical(t.state, e, t.left).state && m.left == MatchHistorical(t.state, e, t.left).left
  {
    MatchUnfold(s, e, left);
  }

  lemma PrefixGone(queue: seq<Order>, k: nat)
    requires QueueOk(queue) && k <= |queue|
    ensures forall j :: 0 <= j < k ==> queue[j].id in GoneIds(queue, queue[k..])
  {
    forall j | 0 <= j < k ensures queue[j].id in GoneIds(queue, queue[k..]) {
      assert queue[j] in queue;
      assert queue[j].arrival !in Stamps(queue[k..]);
    }
  }

  /** A better level goes first, whole. */
  lemma TakeBetterLevel(s: State, e: Event, best: int, more: int)
    requires Inv(s) && more > 0 && BestPrice(s.hist.At(e.side.Opposite()), e.side.Opposite()) == Some(best)
    requires best in s.hist.At(e.side.Opposite()) && Crosses(e.side.Opposite(), e.price, best)
    ensures var maker := e.side.Opposite();
            var left := QtyTotal(s.hist.At(maker)[best]) + more;
            var t := TradeLevel(s, e, best, left);
            && left > 0 && t.left == more && Inv(t.state)
            && t.state.hist == s.hist.With(maker, s.hist.At(maker) - {best}) && t.state.info.Keys <= s.info.Keys
            && MatchHistorical(s, e, left).state == MatchHistorical(t.state, e, more).state
            && MatchHistorical(s, e, left).left == MatchHistorical(t.state, e, more).left
  {
    var maker := e.side.Opposite();
    var queue := s.hist.At(maker)[best];
    assert LevelInv(s, maker, best) && QueueAt(s.hist, maker, best) == queue;
    ConsumePlus(queue, more);
    var left := QtyTotal(queue) + more;
    TradeLevelInv(s, e, best, left);
    TradeLevelBooks(s, e, best, left);
    RequeueHist(s, maker, best, []);
    hide Inv, Consume, QtyTotal;
    MatchUnfolds(s, e, left, best);
  }

  lemma {:induction false} BetterCrosses(levels: map<int, seq<Order>>, maker: Side, price: int)
    requires price in levels
    ensures BestPrice(levels, maker).Some? && BestPrice(levels, maker).value in levels
    ensures BestPrice(levels, maker).value == Best(levels.Keys, maker)
    ensures Crosses(maker, price, BestPrice(levels, maker).value)
    ensures BestPrice(levels, maker).value != price ==> Rank(maker, BestPrice(levels, maker).value) > Rank(maker, price)
  {
    assert price in levels.Keys;
    assert IsBest(Best(levels.Keys, maker), levels.Keys, maker);
  }

  lemma {:induction false} NeededForm(levels: map<int, seq<Order>>, maker: Side, price: int, k: nat)
    requires price in levels && k <= |levels[price]|
    ensures var best := BestPrice(levels, maker).value;
            && best in levels
            && Needed(levels, maker, price, k)
               == if best == price then QtyTotal(levels[price][..k])
                  else QtyTotal(levels[best]) + Needed(levels - {best}, maker, price, k)
  {
    BetterCrosses(levels, maker, price);
  }

  /** An aggressor with exactly these lots takes the ladder down to that order, and nothing else. */
  lemma {:induction false} TakeThrough(s: State, e: Event, price: int, k: nat)
    requires Inv(s) && price in s.hist.At(e.side.Opposite()) && e.price == price
    requires 0 < k <= |s.hist.At(e.side.Opposite())[price]|
    ensures var maker := e.side.Opposite();
            var left := Needed(s.hist.At(maker), maker, price, k);
            var m := MatchHistorical(s, e, left);
            m.left == 0 && TakenUpTo(s, m.state, maker, price, k)
    decreases |s.hist.At(e.side.Opposite())|
  {
    hide Inv, Consume, QtyTotal, MatchHistorical, TradeLevel, BestPrice, Needed, TakenUpTo;
    var maker := e.side.Opposite();
    var levels := s.hist.At(maker);
    BetterCrosses(levels, maker, price);
    NeededForm(levels, maker, price, k);
    var best := BestPrice(levels, maker).value;
    if best == price {
      TakeAtBest(s, e, price, k);
    } else {
      var more := Needed(levels - {best}, maker, price, k);
      MoreNeeded(s, maker, best, price, k);
      TakeBetterLevel(s, e, best, more);
      var t := TradeLevel(s, e, best, QtyTotal(levels[best]) + more).state;
      assert t.hist.At(maker) == levels - {best};
      TakeThrough(t, e, price, k);
      TakenBehind(s, t, MatchHistorical(t, e, more).state, maker, best, price, k);
    }
  }

  lemma {:induction false} NeededPositive(levels: map<int, seq<Order>>, maker: Side, price: int, k: nat)
    requires forall p :: p in levels ==> QueueOk(levels[p])
    requires price in levels && 0 < k <= |levels[price]|
    ensures Needed(levels, maker, price, k) > 0
    decreases |levels|
  {
    assert price in levels.Keys;
    var best := Best(levels.Keys, maker);
    if best == price {
      ConsumePrefix(levels[price], k);
    } else {
      ConsumePlus(levels[best], 0);
      NeededPositive(levels - {best}, maker, price, k);
    }
  }

  lemma {:induction false} MoreNeeded(s: State, maker: Side, best: int, price: int, k: nat)
    requires Inv(s) && best in s.hist.At(maker) && price in s.hist.At(maker) && price != best
    requires 0 < k <= |s.hist.At(maker)[price]|
    ensures Needed(s.hist.At(maker) - {best}, maker, price, k) > 0
  {
    forall p | p in s.hist.At(maker) ensures QueueOk(s.hist.At(maker)[p]) {
      assert LevelInv(s, maker, p);
    }
    NeededPositive(s.hist.At(maker) - {best}, maker, price, k);
  }

  lemma TakenBehind(s: State, t: State, m: State, maker: Side, best: int, price: int, k: nat)
    requires price in s.hist.At(maker) && best != price && Rank(maker, best) > Rank(maker, price)
    requires t.hist == s.hist.With(maker, s.hist.At(maker) - {best}) && t.info.Keys <= s.info.Keys
    requires k <= |s.hist.At(maker)[price]| && TakenUpTo(t, m, maker, price, k)
    ensures TakenUpTo(s, m, maker, price, k)
  {
    assert t.hist.At(maker.Opposite()) == s.hist.At(maker.Opposite());
    assert t.hist.At(maker) == s.hist.At(maker) - {best};
    assert t.hist.At(maker)[price] == s.hist.At(maker)[price];
    assert m.hist.At(maker.Opposite()) == s.hist.At(maker.Opposite());
    assert QueueAt(m.hist, maker, price) == s.hist.At(maker)[price][k..];
    assert forall j :: 0 <= j < k ==> t.hist.At(maker)[price][j].id !in m.info;
    assert m.info.Keys <= s.info.Keys;
    forall q | Rank(maker, q) < Rank(maker, price) ensures QueueAt(m.hist, maker, q) == QueueAt(s.hist, maker, q) {
      assert q != best;
      assert QueueAt(t.hist, maker, q) == QueueAt(s.hist, maker, q);
    }
  }

  lemma {:induction false} Above(ids: set<int>) returns (bound: int)
    ensures forall id :: id in ids ==> id < bound
    decreases |ids|
  {
    bound := 0;
    if id :| id in ids {
      var rest := Above(ids - {id});
      bound := Max(rest, id + 1);
      forall x | x in ids ensures x < bound {
        assert x == id || x in ids - {id};
      }
    }
  }

  /** The event that takes a threat and leaves `x` resting without its entry. */
  lemma Thief(caps: Caps, s: State, x: Loc, side: Side, price: int, i: nat) returns (e: Event)
    requires Inv(s) && Entered(s, x)
    requires i < |QueueAt(s.hist, side, price)| && Threat(x, side, price, QueueAt(s.hist, side, price)[i])
    ensures e.kind == Add && e.source == Historical && e.side == side.Opposite() && e.price == price
    ensures Lost(Step(caps, s, e).0, x)
  {
    hide Inv, Step, MatchHistorical, Needed, TakenUpTo, Threat, NoThreat;
    assert price in s.hist.At(side);
    var levels := s.hist.At(side);
    var id := Above(s.info.Keys + s.paperInfo.Keys);
    assert id !in s.info.Keys + s.paperInfo.Keys;
    e := Event(side.Opposite(), Add, Historical, price, Needed(levels, side, price, i + 1), id);
    assert e.side.Opposite() == side;
    SomeNeeded(s, side, price, i + 1);
    TakeThrough(s, e, price, i + 1);
    TakesAll(caps, s, e);
    var m := MatchHistorical(s, e, e.qty).state;
    StillRests(s, m, x, side, price, i);
    EntryTaken(s, m, x, side, price, i);
  }

  lemma {:induction false} SomeNeeded(s: State, side: Side, price: int, k: nat)
    requires Inv(s) && price in s.hist.At(side) && 0 < k <= |s.hist.At(side)[price]|
    ensures Needed(s.hist.At(side), side, price, k) > 0
  {
    forall p | p in s.hist.At(side) ensures QueueOk(s.hist.At(side)[p]) {
      assert LevelInv(s, side, p);
    }
    NeededPositive(s.hist.At(side), side, price, k);
  }

  lemma EntryTaken(s: State, m: State, x: Loc, side: Side, price: int, i: nat)
    requires price in s.hist.At(side) && i < |s.hist.At(side)[price]|
    requires Threat(x, side, price, s.hist.At(side)[price][i]) && TakenUpTo(s, m, side, price, i + 1)
    ensures UNKNOWN_ID !in m.info
  {
    assert s.hist.At(side)[price][i].id !in m.info;
  }

  /** An order that matching takes up completely changes the book as matching does. */
  lemma {:induction false} TakesAll(caps: Caps, s: State, e: Event)
    requires e.kind == Add && e.source == Historical && e.qty >= 0 && e.id !in s.info && e.id !in s.paperInfo
    requires MatchHistorical(s, e, e.qty).left == 0
    ensures SameQueuesNow(MatchHistorical(s, e, e.qty).state, Step(caps, s, e).0)
  {
    SweepStops(MatchHistorical(s, e, e.qty).state, e, Some(e.price), 0);
  }

  ghost predicate SameQueuesNow(a: State, b: State) {
    a.hist == b.hist && a.info == b.info
  }

  lemma StillRests(s: State, m: State, x: Loc, side: Side, price: int, i: nat)
    requires Inv(s) && Entered(s, x) && price in s.hist.At(side) && i < |s.hist.At(side)[price]|
    requires Threat(x, side, price, s.hist.At(side)[price][i]) && TakenUpTo(s, m, side, price, i + 1)
    ensures Rests(m, x)
  {
    EnteredRests(s, x);
    var queue := s.hist.At(side)[price];
    assert LevelInv(s, side, price);
    var at := QueueAt(s.hist, x.side, x.price);
    var j :| 0 <= j < |at| && at[j].arrival == x.arrival;
    if side == x.side && price == x.price {
      assert j > i;
      assert queue[i + 1..][j - i - 1].arrival == x.arrival;
    } else if side != x.side {
      assert QueueAt(m.hist, x.side, x.price) == at;
    } else {
      SameRankPrice(side, price, x.price);
      assert QueueAt(m.hist, x.side, x.price) == at;
    }
  }

  /**
   * The exact condition: the order that is indexed under "no id" can lose its entry while it rests,
   * in some continuation, if and only if another order without an id rests on the opposite side, or
   * ahead of it on its own side in price-then-arrival order.
   */
  lemma LostExactly(caps: Caps, s: State, x: Loc)
    requires Inv(s) && Entered(s, x)
    ensures (exists events :: Lost(Run(caps, s, events).0, x)) <==> !NoThreat(s, x)
  {
    hide Inv, Run, QueueSafe, Step;
    if NoThreat(s, x) {
      forall events ensures !Lost(Run(caps, s, events).0, x) {
        RunSafe(caps, s, events, x);
      }
    } else {
      var side, price :| !QueueSafe(x, side, price, QueueAt(s.hist, side, price));
      var i := ThreatIn(x, side, price, QueueAt(s.hist, side, price));
      var e := Thief(caps, s, x, side, price, i);
      RunNone(caps, s);
      RunNext(caps, s, [], e);
      assert [] + [e] == [e];
      assert Lost(Run(caps, s, [e]).0, x);
    }
  }

  lemma ThreatIn(x: Loc, side: Side, price: int, queue: seq<Order>) returns (i: nat)
    requires !QueueSafe(x, side, price, queue)
    ensures i < |queue| && Threat(x, side, price, queue[i])
  {
    i :| i < |queue| && Threat(x, side, price, queue[i]);
  }

  /** With any other id an order is findable as long as it rests. */
  lemma OtherIdsFound(s: State, side: Side, price: int, i: nat)
    requires Inv(s) && i < |QueueAt(s.hist, side, price)| && QueueAt(s.hist, side, price)[i].id != UNKNOWN_ID
    ensures Indexed(s, side, price, QueueAt(s.hist, side, price)[i])
  {
    assert LevelInv(s, side, price);
    assert OrderOk(s, side, price, QueueAt(s.hist, side, price)[i]);
  }
}
