/**
 * When a resting order stays findable under its id. Ids other than "no id" always do; in a book
 * whose orders are all indexed every order does; and an order indexed under "no id" can lose its
 * entry exactly when another order without an entry can be taken before it.
 */
module Named {
  import opened Types
  import opened PriceHeap
  import opened Level
  import opened Book
  import opened BookInv
  import opened EngineSteps
  import opened EngineMatch
  import opened Effects
  import opened Matching
  import opened Snapshot

  // ---- books in which every order is indexed ------------------------------------------------

  ghost predicate Indexed(s: State, side: Side, price: int, o: Order) {
    o.id in s.info && s.info[o.id] == Loc(side, price, o.arrival)
  }

  ghost predicate QueueIndexed(s: State, side: Side, price: int, queue: seq<Order>) {
    forall i :: 0 <= i < |queue| ==> Indexed(s, side, price, queue[i])
  }

  /** Every resting historical order is found under its id. */
  ghost predicate AllIndexed(s: State) {
    forall side, price :: QueueIndexed(s, side, price, QueueAt(s.hist, side, price))
  }

  lemma EmptyIndexed()
    ensures AllIndexed(EMPTY)
  {
  }

  /** Orders that leave a queue take no other order's entry along. */
  lemma RequeueIndexed(s: State, side: Side, price: int, queue': seq<Order>)
    requires AllIndexed(s) && Thinned(queue', QueueAt(s.hist, side, price))
    ensures AllIndexed(Requeue(s, side, price, queue'))
  {
    var queue := QueueAt(s.hist, side, price);
    var s' := Requeue(s, side, price, queue');
    PutQueueAt(s.hist, side, price, queue');
    RequeueHist(s, side, price, queue');
    assert QueueIndexed(s, side, price, queue);
    forall d, q ensures QueueIndexed(s', d, q, QueueAt(s'.hist, d, q)) {
      var after := QueueAt(s'.hist, d, q);
      assert QueueIndexed(s, d, q, QueueAt(s.hist, d, q));
      forall i | 0 <= i < |after| ensures Indexed(s', d, q, after[i]) {
        if d == side && q == price {
          assert Keeps(queue, after[i]);
          var j :| 0 <= j < |queue| && queue[j] == after[i].(qty := queue[j].qty);
          assert after[i] in queue';
          StaysIndexed(s, side, price, queue', d, q, queue[j]);
        } else {
          StaysIndexed(s, side, price, queue', d, q, after[i]);
        }
      }
    }
  }

  lemma StaysIndexed(s: State, side: Side, price: int, queue': seq<Order>, d: Side, q: int, o: Order)
    requires QueueIndexed(s, side, price, QueueAt(s.hist, side, price)) && Indexed(s, d, q, o)
    requires d == side && q == price ==> o.arrival in Stamps(queue')
    ensures Indexed(Requeue(s, side, price, queue'), d, q, o)
  {
    var queue := QueueAt(s.hist, side, price);
    assert forall g :: g in queue ==> Indexed(s, side, price, g);
  }

  /** Strategy orders and counters are nothing to the index. */
  lemma IndexedBooks(s: State, s': State)
    requires AllIndexed(s) && s'.hist == s.hist && s'.info == s.info
    ensures AllIndexed(s')
  {
    forall side, price ensures QueueIndexed(s', side, price, QueueAt(s'.hist, side, price)) {
      assert QueueIndexed(s, side, price, QueueAt(s.hist, side, price));
    }
  }

  lemma {:induction false} ConsumedIsThinned(s: State, maker: Side, px: int, left: int)
    requires Inv(s) && px in s.hist.At(maker)
    ensures var queue := QueueAt(s.hist, maker, px);
            QueueOk(queue) && RestOf(Consume(queue, left).rest, queue) && Thinned(Consume(queue, left).rest, queue)
  {
    var queue := QueueAt(s.hist, maker, px);
    assert LevelInv(s, maker, px);
    if left >= 0 {
      ConsumeRest(queue, left);
    }
    RestIsThinned(Consume(queue, left).rest, queue);
  }

  /** One level of matching, as a change of book and index alone. */
  lemma {:induction false} TradeLevelBooks(s: State, e: Event, px: int, left: int)
    ensures var maker := e.side.Opposite();
            var mid := Requeue(s, maker, px, Consume(QueueAt(s.hist, maker, px), left).rest);
            SameBook(mid, TradeLevel(s, e, px, left).state)
  {
    var maker := e.side.Opposite();
    var queue := QueueAt(s.hist, maker, px);
    var c := Consume(queue, left);
    ShadowKeepsBook(Requeue(s, maker, px, c.rest), maker, px, queue, left - c.left, e);
    hide Requeue, Consume, ShadowAt;
  }

  lemma {:induction false} MatchIndexed(s: State, e: Event, left: int)
    requires Inv(s) && AllIndexed(s) && left >= 0
    ensures AllIndexed(MatchHistorical(s, e, left).state)
    decreases |s.hist.At(e.side.Opposite())|
  {
    hide Inv, AllIndexed, TradeLevel, Consume, Requeue;
    var maker := e.side.Opposite();
    var best := BestPrice(s.hist.At(maker), maker);
    if left > 0 && best.Some? && Crosses(maker, e.price, best.value) {
      var px := best.value;
      var t := TradeLevel(s, e, px, left);
      TradeLevelInv(s, e, px, left);
      TradeLevelBooks(s, e, px, left);
      ConsumedIsThinned(s, maker, px, left);
      var mid := Requeue(s, maker, px, Consume(QueueAt(s.hist, maker, px), left).rest);
      RequeueIndexed(s, maker, px, Consume(QueueAt(s.hist, maker, px), left).rest);
      IndexedBooks(mid, t.state);
      if !t.done {
        TradeLevelShrinks(s, e, px, left);
        MatchIndexed(t.state, e, t.left);
      }
    }
  }

  lemma RestIndexed(caps: Caps, s: State, e: Event, qty: int)
    requires AllIndexed(s) && e.id !in s.info
    ensures AllIndexed(RestHistorical(caps, s, e, qty))
  {
    var s' := RestHistorical(caps, s, e, qty);
    forall d, q ensures QueueIndexed(s', d, q, QueueAt(s'.hist, d, q)) {
      var before := QueueAt(s.hist, d, q);
      assert QueueIndexed(s, d, q, before);
      var after := QueueAt(s'.hist, d, q);
      forall i | 0 <= i < |after| ensures Indexed(s', d, q, after[i]) {
        if i < |before| {
          assert after[i] == before[i] && Indexed(s, d, q, before[i]);
        }
      }
    }
  }

  lemma AddIndexed(caps: Caps, s: State, e: Event)
    requires Inv(s) && AllIndexed(s) && e.kind == Add
    ensures AllIndexed(OnAdd(caps, s, e).0)
  {
    hide Inv, AllIndexed, MatchHistorical, SweepPapers, RestHistorical, DryRun, RestPaper;
    if e.qty < 0 || e.id in s.info || e.id in s.paperInfo {
    } else if e.source == Strategy {
      PaperRestKeepsBook(caps, s, e, DryRun(s.hist.At(e.side.Opposite()), e.side.Opposite(), Some(e.price), e.qty).1);
      IndexedBooks(s, OnAdd(caps, s, e).0);
    } else {
      var m := MatchHistorical(s, e, e.qty);
      MatchIndexed(s, e, e.qty);
      AddReady(s, e);
      var p := SweepPapers(m.state, e, Some(e.price), m.left);
      IndexedBooks(m.state, p.state);
      if p.left > 0 {
        RestIndexed(caps, p.state, e, p.left);
      }
    }
  }

  lemma PaperRestKeepsBook(caps: Caps, s: State, e: Event, qty: int)
    ensures RestPaper(caps, s, e, qty).hist == s.hist && RestPaper(caps, s, e, qty).info == s.info
    ensures RestPaper(caps, s, e, qty).clock >= s.clock
  {
  }

  lemma ChangeIndexed(s: State, id: int, delta: int)
    requires Inv(s) && AllIndexed(s) && LiveQty(s, id) + delta >= 0
    ensures AllIndexed(ChangeQty(s, id, delta))
  {
    hide Inv, AllIndexed, Changed, Requeue;
    if id in s.info {
      var loc := s.info[id];
      var i := OrderFound(s, id, delta);
      var queue := QueueAt(s.hist, loc.side, loc.price);
      ChangedIsThinned(queue, i, delta);
      RequeueIndexed(s, loc.side, loc.price, Changed(queue, i, delta));
    }
  }

  /** The change that an event other than an ADD makes to the historical order it names, if it makes one. */
  ghost function DeltaOf(s: State, e: Event): Option<int> {
    if e.id !in s.info || e.kind == Add || e.kind == AggressiveTrade then None
    else if e.kind == Match then if e.qty <= 0 then None else Some(Leaves(e, LiveQty(s, e.id)) - LiveQty(s, e.id))
    else if e.source == Strategy || (e.kind == Subtract && e.qty <= 0) then None
    else Some(Leaves(e, LiveQty(s, e.id)) - LiveQty(s, e.id))
  }

  ghost function Moved(s: State, e: Event): State {
    match DeltaOf(s, e)
    case None => s
    case Some(delta) => ChangeQty(s, e.id, delta)
  }

  ghost predicate SameQueues(a: State, b: State) {
    a.hist == b.hist && a.info == b.info && a.clock == b.clock
  }

  /** To the book, every event other than an ADD is that change. */
  lemma ChangeStep(caps: Caps, s: State, e: Event)
    requires Inv(s) && e.kind != Add
    ensures SameQueues(Step(caps, s, e).0, Moved(s, e))
    ensures DeltaOf(s, e).Some? ==> e.id in s.info && LiveQty(s, e.id) + DeltaOf(s, e).value >= 0
  {
    hide Inv, ChangeQty, LiveQty, SetRemaining, Remaining, OnAggressiveTrade, OnMatch;
    LiveQtyPositive(s, e.id);
    if e.kind == AggressiveTrade {
      AggressiveBooks(s, e);
    } else if e.kind == Match {
      MatchMoves(s, e);
    } else if e.source != Strategy {
      ChangeClock(s, e);
      CancelForm(caps, s, e);
    } else {
      SetRemainingKeepsBook(s, e.id, 0);
      SetRemainingKeepsBook(s, e.id, Max(Remaining(s, e.id) - e.qty, 0));
      SetRemainingKeepsBook(s, e.id, Max(e.qty, 0));
    }
  }

  lemma ChangeClock(s: State, e: Event)
    ensures forall delta :: ChangeQty(s, e.id, delta).clock == s.clock
    ensures forall delta :: e.id !in s.info ==> ChangeQty(s, e.id, delta) == s
  {
  }

  lemma AggressiveBooks(s: State, e: Event)
    requires Inv(s)
    ensures SameQueues(OnAggressiveTrade(s, e).0, s)
  {
    hide Inv, DryRun, SweepPapers;
    if e.source == Strategy && e.qty > 0 {
      AggressiveLeft(s, e);
    }
  }

  lemma MatchMoves(s: State, e: Event)
    requires e.kind == Match && (e.id in s.info ==> LiveQty(s, e.id) > 0)
    ensures SameQueues(OnMatch(s, e).0, Moved(s, e))
  {
    hide LiveQty;
    if e.qty > 0 && e.id in s.info {
      assert Leaves(e, LiveQty(s, e.id)) - LiveQty(s, e.id) == -Min(LiveQty(s, e.id), e.qty);
    }
  }

  /** Every event, whatever its id, keeps every resting order findable under its id. */
  lemma StepIndexed(caps: Caps, s: State, e: Event)
    requires Inv(s) && AllIndexed(s)
    ensures AllIndexed(Step(caps, s, e).0)
  {
    hide Inv, AllIndexed, ChangeQty, LiveQty, OnAdd;
    if e.kind == Add {
      AddIndexed(caps, s, e);
      IndexedBooks(OnAdd(caps, s, e).0, Step(caps, s, e).0);
    } else {
      hide Step;
      ChangeStep(caps, s, e);
      if DeltaOf(s, e).Some? {
        ChangeIndexed(s, e.id, DeltaOf(s, e).value);
      }
      IndexedBooks(Moved(s, e), Step(caps, s, e).0);
    }
  }

  lemma {:induction false} RunIndexed(caps: Caps, s: State, events: seq<Event>)
    requires Inv(s) && AllIndexed(s)
    ensures AllIndexed(Run(caps, s, events).0)
    decreases |events|
  {
    hide Inv, AllIndexed, Step;
    if events != [] {
      var before := events[..|events| - 1];
      RunIndexed(caps, s, before);
      RunInv(caps, s, before);
      StepIndexed(caps, Run(caps, s, before).0, events[|events| - 1]);
    }
  }

  /** A snapshot of single orders starts the engine with every order indexed. */
  lemma {:induction false} SeededIndexed(caps: Caps, seq_: nat, rows: seq<Row>)
    ensures AllIndexed(Seeded(caps, seq_, rows, true).0)
  {
    if rows == [] {
      EmptyIndexed();
      IndexedBooks(EMPTY, Seeded(caps, seq_, rows, true).0);
    } else {
      var last := |rows| - 1;
      SeededIndexed(caps, seq_, rows[..last]);
      SeedRowIndexed(Seeded(caps, seq_, rows[..last], true).0, rows[last]);
    }
  }

  lemma SeedRowIndexed(s: State, row: Row)
    requires AllIndexed(s)
    ensures row.id !in s.info ==> AllIndexed(SeedRow(s, row, true))
    ensures AllIndexed(LeaveLevel(s, row))
  {
    forall d, q ensures QueueIndexed(LeaveLevel(s, row), d, q, QueueAt(LeaveLevel(s, row).hist, d, q)) {
      assert QueueIndexed(s, d, q, QueueAt(s.hist, d, q));
    }
    if row.id !in s.info {
      var s' := SeedRow(s, row, true);
      forall d, q ensures QueueIndexed(s', d, q, QueueAt(s'.hist, d, q)) {
        var before := QueueAt(s.hist, d, q);
        var after := QueueAt(s'.hist, d, q);
        assert QueueIndexed(s, d, q, before);
        forall i | 0 <= i < |after| ensures Indexed(s', d, q, after[i]) {
          if i < |before| {
            assert after[i] == before[i] && Indexed(s, d, q, before[i]);
          }
        }
      }
    }
  }
}
