/** Short runs that show where the engine does less than its queues and indices suggest. */
module Counterexamples {
  import opened Types
  import opened PriceHeap
  import opened Level
  import opened Book
  import opened Snapshot

  lemma NoPrices<T>(levels: map<int, T>, side: Side)
    requires levels == map[]
    ensures BestPrice(levels, side) == None
  {
  }

  lemma OnePrice<T>(levels: map<int, T>, side: Side, price: int)
    requires levels.Keys == {price}
    ensures BestPrice(levels, side) == Some(price)
  {
    assert IsBest(price, levels.Keys, side);
    BestUnique(price, levels.Keys, side);
  }

  /** A strategy order that meets an empty book rests whole. */
  lemma PaperRests(caps: Caps, s: State, e: Event)
    requires e.kind == Add && e.source == Strategy && e.qty > 0 && e.id !in s.info && e.id !in s.paperInfo
    requires s.hist == Sides(map[], map[])
    ensures Step(caps, s, e).0 == RestPaper(caps, s, e, e.qty).(seq_ := s.seq_ + 1)
  {
    NoPrices(s.hist.At(e.side.Opposite()), e.side.Opposite());
  }

  const FIRST: Event := Event(Sell, Add, Strategy, 10, 1, 1)
  const SECOND: Event := Event(Sell, Add, Strategy, 10, 1, 2)
  const TAKER: Event := Event(Buy, AggressiveTrade, Strategy, 0, 1, 3)

  /**
   * Two strategy orders queue up, and an aggressive trade takes the first: its lot is still counted
   * ahead of the second.
   */
  lemma {:induction false} PhantomLotsHappen(caps: Caps)
    requires caps.paper >= 2
    ensures var s := Run(caps, EMPTY, [FIRST, SECOND, TAKER]).0;
            10 in s.paper.sell && s.paper.sell[10] == PaperQueue([PaperOrder(2, 1, 1)], 1)
  {
    var p1, p2 := PaperOrder(1, 1, 0), PaperOrder(2, 1, 1);
    var s1 := Step(caps, EMPTY, FIRST).0;
    PaperRests(caps, EMPTY, FIRST);
    assert [] + [p1] == [p1];
    assert s1.paper.sell == map[10 := PaperQueue([p1], 0)];
    assert s1.paperInfo == map[1 := Place(Sell, 10)];
    assert |s1.paperInfo| == 1;
    var s2 := Step(caps, s1, SECOND).0;
    PaperRests(caps, s1, SECOND);
    assert [p1] + [p2] == [p1, p2];
    assert s2.paper.sell == map[10 := PaperQueue([p1, p2], 0)];
    TakesFirst(caps, s2);
    ThreeSteps(caps, FIRST, SECOND, TAKER);
  }

  lemma {:induction false} ThreeSteps(caps: Caps, a: Event, b: Event, c: Event)
    ensures Run(caps, EMPTY, [a, b, c]).0 == Step(caps, Step(caps, Step(caps, EMPTY, a).0, b).0, c).0
  {
    hide Step;
    assert [a, b, c][..2] == [a, b];
    assert [a, b][..1] == [a];
    assert [a][..0] == [];
    assert Run(caps, EMPTY, [a]).0 == Step(caps, EMPTY, a).0;
    assert Run(caps, EMPTY, [a, b]).0 == Step(caps, Step(caps, EMPTY, a).0, b).0;
  }

  lemma TakesFirst(caps: Caps, s: State)
    requires s.paper.sell == map[10 := PaperQueue([PaperOrder(1, 1, 0), PaperOrder(2, 1, 1)], 0)]
    requires s.hist == Sides(map[], map[])
    ensures var s' := Step(caps, s, TAKER).0;
            10 in s'.paper.sell && s'.paper.sell[10] == PaperQueue([PaperOrder(2, 1, 1)], 1)
  {
    NoPrices(s.hist.sell, Sell);
    assert DryRun(s.hist.sell, Sell, None, 1) == ([], 1);
    OnePrice(s.paper.sell, Sell, 10);
    var pq := s.paper.sell[10];
    var gone := PaperQueue([PaperOrder(2, 1, 1)], 1);
    assert pq.orders[1..] == [PaperOrder(2, 1, 1)];
    assert Sweep(gone, 0) == ([], 0, gone);
    assert Sweep(pq, 1).2 == gone;
    var t := SweepLevel(s, TAKER, 10, 1);
    assert t.done && t.state.paper.sell[10] == gone;
  }

  const NAMELESS: Event := Event(Buy, Add, Historical, 5, 1, UNKNOWN_ID)
  const BUYER: Event := Event(Buy, Add, Historical, 10, 1, 7)

  /**
   * Orders of an aggregated snapshot have no id of their own. When one of them is taken, the index
   * entry of a later order that was added under the same "no id" goes with it: that order rests in
   * the book, but the engine no longer finds it.
   */
  lemma {:induction false} NamelessOrderIsLost(caps: Caps)
    requires caps.historical >= 2
    ensures var start := Seeded(caps, 0, [Row(Sell, 10, 1, UNKNOWN_ID)], false).0;
            var s1 := Step(caps, start, NAMELESS).0;
            var s2 := Step(caps, s1, BUYER).0;
            && UNKNOWN_ID in s1.info
            && UNKNOWN_ID !in s2.info
            && QueueAt(s2.hist, Buy, 5) == [Order(UNKNOWN_ID, 1, Historical, 1)]
  {
    var rows := [Row(Sell, 10, 1, UNKNOWN_ID)];
    assert rows[..0] == [];
    var start := Seeded(caps, 0, rows, false).0;
    assert Seeded(caps, 0, [], false) == (EMPTY, true);
    assert start == SeedRow(EMPTY, rows[0], false);
    assert start.nodes == map[0 := Place(Sell, 10)];
    var s1 := Step(caps, start, NAMELESS).0;
    NamelessRests(caps, start);
    TakesSnapshot(caps, s1);
  }

  lemma NamelessRests(caps: Caps, s: State)
    requires s == SeedRow(EMPTY, Row(Sell, 10, 1, UNKNOWN_ID), false) && |s.nodes| == 1 && caps.historical >= 2
    ensures var s1 := Step(caps, s, NAMELESS).0;
            && s1.hist == Sides(map[10 := [Order(UNKNOWN_ID, 1, Historical, 0)]],
                                map[5 := [Order(UNKNOWN_ID, 1, Historical, 1)]])
            && s1.info == map[UNKNOWN_ID := Loc(Buy, 5, 1)]
            && s1.paper == Sides(map[], map[]) && s1.paperInfo == map[]
  {
    assert [] + [Order(UNKNOWN_ID, 1, Historical, 0)] == [Order(UNKNOWN_ID, 1, Historical, 0)];
    assert s.hist.sell == map[10 := [Order(UNKNOWN_ID, 1, Historical, 0)]];
    OnePrice(s.hist.sell, Sell, 10);
    assert MatchHistorical(s, NAMELESS, 1) == Outcome(s, [], 1);
    NoPrices(s.paper.sell, Sell);
    assert SweepPapers(s, NAMELESS, Some(5), 1) == Outcome(s, [], 1);
    var o := Order(UNKNOWN_ID, 1, Historical, 1);
    assert [] + [o] == [o];
    var s1 := Step(caps, s, NAMELESS).0;
    assert s1 == RestHistorical(caps, s, NAMELESS, 1).(seq_ := s.seq_ + 1);
    assert s1.hist.buy == map[5 := [o]];
  }

  lemma TakesSnapshot(caps: Caps, s: State)
    requires s.hist == Sides(map[10 := [Order(UNKNOWN_ID, 1, Historical, 0)]],
                             map[5 := [Order(UNKNOWN_ID, 1, Historical, 1)]])
    requires s.info == map[UNKNOWN_ID := Loc(Buy, 5, 1)] && s.paper == Sides(map[], map[]) && s.paperInfo == map[]
    ensures var s2 := Step(caps, s, BUYER).0;
            UNKNOWN_ID !in s2.info && QueueAt(s2.hist, Buy, 5) == [Order(UNKNOWN_ID, 1, Historical, 1)]
  {
    var queue := s.hist.sell[10];
    OnePrice(s.hist.sell, Sell, 10);
    assert queue[1..] == [];
    assert Consume([], 0) == Consumed([], 0, []);
    var c := Consume(queue, 1);
    assert c.rest == [] && c.left == 0;
    assert queue[0] in queue && queue[0].arrival !in Stamps(c.rest);
    assert UNKNOWN_ID in GoneIds(queue, c.rest);
    var t := TradeLevel(s, BUYER, 10, 1);
    assert !t.done && t.left == 0;
    assert MatchHistorical(t.state, BUYER, t.left) == Outcome(t.state, [], 0);
    var m := MatchHistorical(s, BUYER, 1);
    assert m.state == t.state && m.left == 0;
    assert SweepPapers(m.state, BUYER, Some(10), 0) == Outcome(m.state, [], 0);
  }
}
