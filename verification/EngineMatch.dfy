/** Facts about whole matching runs, dry runs and resting orders, as the engine's methods need them. */
module EngineMatch {
  import opened Types
  import opened PriceHeap
  import opened Level
  import opened PaperIndex
  import opened Book
  import opened BookInv
  import opened EngineRep
  import opened EngineSteps

  // ---- real matching ------------------------------------------------------------------------

  lemma {:induction false} MatchStops(s: State, e: Event, left: int)
    ensures var maker := e.side.Opposite();
            var best := BestPrice(s.hist.At(maker), maker);
            left <= 0 || best.None? || !Crosses(maker, e.price, best.value) ==>
              MatchHistorical(s, e, left) == Outcome(s, [], left)
  {
  }

  /** One level of matching, and what remains of it. */
  lemma {:induction false} MatchUnfold(s: State, e: Event, left: int)
    requires Inv(s) && left > 0
    requires var maker := e.side.Opposite();
             var best := BestPrice(s.hist.At(maker), maker);
             best.Some? && Crosses(maker, e.price, best.value)
    ensures var maker := e.side.Opposite();
            var px := BestPrice(s.hist.At(maker), maker).value;
            var t := TradeLevel(s, e, px, left);
            var r := MatchHistorical(t.state, e, t.left);
            && px in s.hist.At(maker) && 0 <= t.left < left
            && MatchHistorical(s, e, left) == Outcome(r.state, t.records + r.records, r.left)
  {
    var maker := e.side.Opposite();
    var px := BestPrice(s.hist.At(maker), maker).value;
    TradeLevelInv(s, e, px, left);
    hide Inv, TradeLevel;
    var t := TradeLevel(s, e, px, left);
    if t.done {
      assert t.records + [] == t.records;
    }
  }

  // ---- dry runs -----------------------------------------------------------------------------

  /** So far a dry run has made `hits`; `visible` and `left` are still ahead. */
  ghost predicate DrySplit(levels: map<int, seq<Order>>, maker: Side, limit: Option<int>, qty: int,
                           hits: seq<Hit>, visible: map<int, seq<Order>>, left: int) {
    var d := DryRun(levels, maker, limit, qty);
    var r := DryRun(visible, maker, limit, left);
    d.0 == hits + r.0 && d.1 == r.1
  }

  lemma DryStart(levels: map<int, seq<Order>>, maker: Side, limit: Option<int>, qty: int)
    ensures DrySplit(levels, maker, limit, qty, [], levels, qty)
  {
  }

  lemma {:induction false} DryOver(levels: map<int, seq<Order>>, maker: Side, limit: Option<int>, qty: int,
                hits: seq<Hit>, visible: map<int, seq<Order>>, left: int)
    requires DrySplit(levels, maker, limit, qty, hits, visible, left)
    requires var best := BestPrice(visible, maker); left <= 0 || best.None? || !Reaches(maker, limit, best.value)
    ensures DryRun(levels, maker, limit, qty) == (hits, left)
  {
    assert hits + [] == hits;
  }

  lemma {:induction false} DryNext(levels: map<int, seq<Order>>, maker: Side, limit: Option<int>, qty: int,
                hits: seq<Hit>, visible: map<int, seq<Order>>, left: int)
    requires DrySplit(levels, maker, limit, qty, hits, visible, left) && left > 0
    requires var best := BestPrice(visible, maker); best.Some? && Reaches(maker, limit, best.value)
    ensures var px := BestPrice(visible, maker).value;
            && px in visible
            && var c := Consume(visible[px], left);
               DrySplit(levels, maker, limit, qty, hits + HitsAt(px, c.trades), visible - {px}, c.left)
  {
    var px := BestPrice(visible, maker).value;
    var c := Consume(visible[px], left);
    var r := DryRun(visible - {px}, maker, limit, c.left);
    assert DryRun(visible, maker, limit, left) == (HitsAt(px, c.trades) + r.0, r.1);
    assert hits + (HitsAt(px, c.trades) + r.0) == (hits + HitsAt(px, c.trades)) + r.0;
  }

  lemma HitsLogged(seq_: nat, maker: Side, px: int, hits: seq<Hit>, trades: seq<Trade>, takerId: int,
                   takerSource: Source)
    ensures HitRecords(seq_, maker, hits, takerId, takerSource) + FillsOf(seq_, maker, px, trades, takerId, takerSource)
         == HitRecords(seq_, maker, hits + HitsAt(px, trades), takerId, takerSource)
  {
  }

  /** One node of a dry run over a queue. */
  lemma ConsumeScan(queue: seq<Order>, qty: int, trades: seq<Trade>, i: nat, left: int)
    requires QueueOk(queue) && i < |queue| && left > 0
    requires Scanned(queue, qty, trades, queue[i..], left)
    ensures queue[i].qty > 0
    ensures var take := Min(queue[i].qty, left);
            Scanned(queue, qty, trades + [Trade(queue[i].id, queue[i].source, take, queue[i].arrival)], queue[i + 1..],
                    left - take)
  {
    assert queue[i..][0] == queue[i] && queue[i..][1..] == queue[i + 1..];
    var take := Min(queue[i].qty, left);
    var t := Trade(queue[i].id, queue[i].source, take, queue[i].arrival);
    var c := Consume(queue[i + 1..], left - take);
    assert trades + ([t] + c.trades) == (trades + [t]) + c.trades;
  }

  /** The trades made so far, and what a scan of the rest of the queue would add. */
  ghost predicate Scanned(queue: seq<Order>, qty: int, trades: seq<Trade>, rest: seq<Order>, left: int) {
    var c := Consume(queue, qty);
    var r := Consume(rest, left);
    c.trades == trades + r.trades && c.left == r.left
  }

  // ---- coming to rest -----------------------------------------------------------------------

  /** The market index of the paper level at a price, if there is one, gets a new order. */
  function JoinedLevels(levels: Levels, side: Side, price: int, stamp: nat, qty: int): Levels {
    if price in levels.At(side) then
      levels.With(side, levels.At(side)[price := Joined(levels.At(side)[price], stamp, qty)])
    else levels
  }

  lemma JoinedIndex(s: State, levels: Levels, entries: map<int, PaperEntry>, side: Side, price: int, o: Order)
    requires Reps(levels, s.paper, s.hist, entries, s.clock) && o.arrival == s.clock
    ensures var hist' := s.hist.With(side, s.hist.At(side)[price := QueueAt(s.hist, side, price) + [o]]);
            Reps(JoinedLevels(levels, side, price, o.arrival, o.qty), s.paper, hist', entries, s.clock + 1)
  {
    var queue := QueueAt(s.hist, side, price);
    var hist' := s.hist.With(side, s.hist.At(side)[price := queue + [o]]);
    LevelsMatch(levels, s.paper, s.hist, entries, s.clock, side, price);
    hide Reps, FullRep, Joined;
    assert QueueAt(hist', side, price) == queue + [o];
    if price in levels.At(side) {
      JoinedFull(levels.At(side)[price], s.paper.At(side)[price], queue, entries, s.clock, o);
      ReindexLevel(levels, s.paper, s.hist, hist', entries, s.clock, s.clock + 1, side, price,
                   Joined(levels.At(side)[price], o.arrival, o.qty));
    } else {
      ReindexLevel(levels, s.paper, s.hist, hist', entries, s.clock, s.clock + 1, side, price, EMPTY_LEVEL);
    }
  }

  /** A new price goes on the heap, a known one is there already. */
  lemma RestCovers(s: State, heap: Heap, side: Side, price: int, o: Order)
    requires Inv(s) && Covers(heap, s.hist.At(side), side)
    ensures var queue := QueueAt(s.hist, side, price);
            Covers(if queue == [] then Push(heap, Rank(side, price)) else heap, s.hist.At(side)[price := queue + [o]],
                   side)
  {
    var queue := QueueAt(s.hist, side, price);
    assert LevelInv(s, side, price);
    if queue == [] {
      PushCovers(heap, s.hist.At(side), side, price, queue + [o]);
    }
  }

  /** Every queue of the book, empty or not, is well formed and older than the clock. */
  lemma QueueAtOk(s: State, side: Side, price: int)
    requires Inv(s)
    ensures var queue := QueueAt(s.hist, side, price);
            QueueOk(queue) && forall i :: 0 <= i < |queue| ==> queue[i].arrival < s.clock
  {
    assert LevelInv(s, side, price);
    if price in s.hist.At(side) {
      var queue := s.hist.At(side)[price];
      assert forall i :: 0 <= i < |queue| ==> OrderOk(s, side, price, queue[i]);
    }
  }

  /** A level that stands for the strategy orders at a place, be it the stored one or a fresh one. */
  ghost predicate Ready(s: State, level: PaperLevel, side: Side, price: int, entries: map<int, PaperEntry>) {
    FullRep(level, PapersAt(s, side, price), QueueAt(s.hist, side, price), entries, s.clock)
  }

  /** A strategy order comes to rest: its level, old or new, stands for the longer queue. */
  lemma RestedLevels(s: State, levels: Levels, entries: map<int, PaperEntry>, side: Side, price: int, level: PaperLevel,
                     p: PaperOrder, entry: PaperEntry)
    requires Inv(s) && Reps(levels, s.paper, s.hist, entries, s.clock)
    requires Ready(s, level, side, price, entries)
    requires p.id !in s.paperInfo && p.placement == s.clock
    requires entry.remaining == p.remaining && entry.placement == p.placement
    requires entry.paperIndex == level.nextPaperIndex
    requires entry.status == Open || entry.status == PartiallyFilled
    ensures var pq := PapersAt(s, side, price);
            Reps(levels.With(side, levels.At(side)[price := Rested(level, p.id, p.remaining)]),
                 s.paper.With(side, s.paper.At(side)[price := pq.(orders := pq.orders + [p])]),
                 s.hist, entries[p.id := entry], s.clock + 1)
  {
    var pq := PapersAt(s, side, price);
    var pq' := pq.(orders := pq.orders + [p]);
    assert PaperLevelInv(s, side, price);
    forall i | 0 <= i < |pq.orders| ensures pq.orders[i].id != p.id {
      assert PaperOk(s, side, price, pq.orders[i]);
    }
    RestedFull(level, pq, QueueAt(s.hist, side, price), entries, s.clock, p, entry);
    hide Reps;
    ReplaceLevel(s, levels, s.hist, s.hist, entries, entries[p.id := entry], side, price,
                 Rested(level, p.id, p.remaining), pq', s.clock + 1);
  }

  // ---- small facts --------------------------------------------------------------------------

  lemma EverythingSeen<T>(heap: Heap, levels: map<int, T>, side: Side)
    ensures Sees(heap, levels, levels, side)
  {
  }

  lemma ScanStart(queue: seq<Order>, qty: int)
    ensures Scanned(queue, qty, [], queue, qty)
  {
  }

  lemma {:induction false} ScanOver(queue: seq<Order>, qty: int, trades: seq<Trade>, rest: seq<Order>, left: int)
    requires Scanned(queue, qty, trades, rest, left) && (left <= 0 || rest == [])
    ensures Consume(queue, qty).trades == trades && Consume(queue, qty).left == left
  {
  }

  lemma NoHits(seq_: nat, maker: Side, takerId: int, takerSource: Source)
    ensures HitRecords(seq_, maker, [], takerId, takerSource) == []
  {
  }

  lemma {:induction false} LeftOver(s: State, side: Side, px: int, qty: int)
    requires Inv(s) && px in s.hist.At(side) && qty > 0
    ensures Consume(s.hist.At(side)[px], qty).left >= 0
  {
    assert LevelInv(s, side, px);
    ConsumeRest(s.hist.At(side)[px], qty);
  }

  lemma RestHistoricalParts(caps: Caps, s: State, e: Event, qty: int)
    ensures var s' := RestHistorical(caps, s, e, qty);
            if |s.nodes| < caps.historical then
              && (var queue := QueueAt(s.hist, e.side, e.price) + [Order(e.id, qty, e.source, s.clock)];
                  s'.hist == s.hist.With(e.side, s.hist.At(e.side)[e.price := queue]))
              && s'.nodes.Keys == s.nodes.Keys + {s.clock}
              && s'.info == s.info[e.id := Loc(e.side, e.price, s.clock)]
              && s'.paper == s.paper && s'.paperInfo == s.paperInfo && s'.clock == s.clock + 1 && s'.seq_ == s.seq_
            else s' == s
  {
  }

  lemma RestPaperParts(caps: Caps, s: State, e: Event, qty: int)
    requires |s.paperInfo| < caps.paper
    ensures var s' := RestPaper(caps, s, e, qty);
            var pq := PapersAt(s, e.side, e.price);
            && SameBook(s, s'.(clock := s.clock)) && s'.clock == s.clock + 1
            && s'.paperInfo == s.paperInfo[e.id := Place(e.side, e.price)]
            && (var pq' := pq.(orders := pq.orders + [PaperOrder(e.id, qty, s.clock)]);
                s'.paper == s.paper.With(e.side, s.paper.At(e.side)[e.price := pq']))
  {
  }

  lemma NoRoomForPaper(caps: Caps, s: State, e: Event, qty: int)
    requires |s.paperInfo| >= caps.paper
    ensures RestPaper(caps, s, e, qty) == s
  {
  }

  // ---- the events ---------------------------------------------------------------------------

  /** What is known of a historical ADD when its remainder comes to rest. */
  lemma {:induction false} AddReady(s: State, e: Event)
    requires Inv(s) && e.qty >= 0 && e.id !in s.info && e.id !in s.paperInfo
    ensures var m := MatchHistorical(s, e, e.qty);
            var p := SweepPapers(m.state, e, Some(e.price), m.left);
            && m.left >= 0 && SameBook(m.state, p.state)
            && e.id !in p.state.info && e.id !in p.state.paperInfo
            && (p.left > 0 ==> NothingCrosses(p.state, e))
  {
    var m := MatchHistorical(s, e, e.qty);
    MatchHistoricalInv(s, e, e.qty);
    MatchKeepsIds(s, e, e.qty);
    SweepPapersInv(m.state, e, Some(e.price), m.left);
  }

  lemma {:induction false} AggressiveLeft(s: State, e: Event)
    requires Inv(s) && e.qty >= 0
    ensures var maker := e.side.Opposite();
            var d := DryRun(s.hist.At(maker), maker, None, e.qty);
            d.1 >= 0 && SameBook(s, SweepPapers(s, e, None, d.1).state)
  {
    var maker := e.side.Opposite();
    forall p | p in s.hist.At(maker) ensures QueueOk(s.hist.At(maker)[p]) {
      assert LevelInv(s, maker, p);
    }
    DryRunBounds(s.hist.At(maker), maker, None, e.qty);
    SweepPapersInv(s, e, None, DryRun(s.hist.At(maker), maker, None, e.qty).1);
  }

  /** Unknown ids change nothing. */
  lemma AbsentIds(s: State, id: int, delta: int, remaining: int)
    ensures id !in s.info ==> ChangeQty(s, id, delta) == s
    ensures id !in s.info ==> forall d :: ChangeQty(s, id, d) == s
    ensures id !in s.paperInfo ==> SetRemaining(s, id, remaining) == s
  {
  }

  lemma SameBookLive(s: State, t: State, id: int)
    requires SameBook(s, t)
    ensures LiveQty(t, id) == LiveQty(s, id) && LiveSource(t, id) == LiveSource(s, id)
  {
  }

  lemma StepLog(caps: Caps, s: State, e: Event, log: seq<Record>)
    ensures var r := Apply(caps, s, e);
            && Step(caps, s, e).0 == r.0.(seq_ := r.0.seq_ + 1)
            && log + Step(caps, s, e).1 == (log + [Applied(s.seq_, e)]) + r.1
  {
  }

  /** Without strategy orders there is nothing to stand for. */
  lemma NoPaperReps(levels: Levels, pqs: Queues, entries: map<int, PaperEntry>, hist: Hist, hist': Hist, clock: nat,
                    clock': nat)
    requires Reps(levels, pqs, hist, entries, clock) && pqs == Sides(map[], map[])
    ensures Reps(levels, pqs, hist', entries, clock')
  {
    forall side, price ensures RepAt(levels, pqs, hist', entries, clock', side, price) {
      assert RepAt(levels, pqs, hist, entries, clock, side, price);
    }
  }

  lemma {:induction false} RunNone(caps: Caps, s: State)
    ensures Run(caps, s, []) == (s, [])
  {
  }

  lemma {:induction false} RunNext(caps: Caps, s: State, events: seq<Event>, e: Event)
    ensures var r := Run(caps, s, events);
            var t := Step(caps, r.0, e);
            Run(caps, s, events + [e]) == (t.0, r.1 + t.1)
  {
    hide Step;
    assert (events + [e])[..|events|] == events;
  }
}
