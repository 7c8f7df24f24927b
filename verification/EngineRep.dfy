/**
 * How the engine's stored paper levels stand for the strategy orders of the state machine, and
 * which changes keep it so.
 */
module EngineRep {
  import opened Types
  import opened Level
  import opened PaperIndex
  import opened Book
  import opened BookInv

  type Levels = Sides<map<int, PaperLevel>>
  type Queues = Sides<map<int, PaperQueue>>
  type Hist = Sides<map<int, seq<Order>>>

  ghost predicate SeqsBelow(level: PaperLevel, clock: nat) {
    forall i :: 0 <= i < |level.marketSeqs| ==> level.marketSeqs[i] < clock
  }

  ghost predicate FullRep(level: PaperLevel, pq: PaperQueue, queue: seq<Order>, entries: map<int, PaperEntry>,
                          clock: nat) {
    LevelRep(level, pq, queue, entries) && SeqsBelow(level, clock)
  }

  /** The stored level at one place, if any, stands for the strategy orders there. */
  ghost predicate RepAt(levels: Levels, pqs: Queues, hist: Hist, entries: map<int, PaperEntry>, clock: nat, side: Side,
                        price: int) {
    && (price in levels.At(side) <==> price in pqs.At(side))
    && (price in levels.At(side) ==>
          FullRep(levels.At(side)[price], pqs.At(side)[price], QueueAt(hist, side, price), entries, clock))
  }

  ghost predicate Reps(levels: Levels, pqs: Queues, hist: Hist, entries: map<int, PaperEntry>, clock: nat) {
    forall side, price :: RepAt(levels, pqs, hist, entries, clock, side, price)
  }

  /** Records of strategy orders at other places are untouched. */
  ghost predicate SameElsewhere(s: State, side: Side, price: int, e: map<int, PaperEntry>, f: map<int, PaperEntry>) {
    forall id :: id in s.paperInfo && s.paperInfo[id] != Place(side, price) && id in e ==> id in f && f[id] == e[id]
  }

  function PutLevel(levels: map<int, PaperLevel>, price: int, level: PaperLevel): map<int, PaperLevel> {
    if level.orders == [] then levels - {price} else levels[price := level]
  }

  lemma FullRepFrame(level: PaperLevel, pq: PaperQueue, queue: seq<Order>, e: map<int, PaperEntry>,
                     f: map<int, PaperEntry>, clock: nat, clock': nat)
    requires FullRep(level, pq, queue, e, clock) && clock <= clock'
    requires forall i :: 0 <= i < |pq.orders| ==> pq.orders[i].id in f && f[pq.orders[i].id] == e[pq.orders[i].id]
    ensures FullRep(level, pq, queue, f, clock')
  {
    PaperRepFrame(level, pq, e, f);
  }

  /** One level and its orders change; every other level still stands for what it did. */
  lemma ReplaceLevel(s: State, levels: Levels, hist: Hist, hist': Hist, e: map<int, PaperEntry>,
                     f: map<int, PaperEntry>, side: Side, price: int, level': PaperLevel, pq': PaperQueue, clock': nat)
    requires PaperInv(s) && Reps(levels, s.paper, hist, e, s.clock) && s.clock <= clock'
    requires SameElsewhere(s, side, price, e, f)
    requires forall d, q :: d != side || q != price ==> QueueAt(hist', d, q) == QueueAt(hist, d, q)
    requires |level'.orders| == |pq'.orders|
    requires pq'.orders != [] ==> FullRep(level', pq', QueueAt(hist', side, price), f, clock')
    ensures Reps(levels.With(side, PutLevel(levels.At(side), price, level')),
                 s.paper.With(side, PutPapers(s.paper.At(side), price, pq')), hist', f, clock')
  {
    hide FullRep, PaperInv, SameElsewhere, PutLevel, PutPapers;
    var levels' := levels.With(side, PutLevel(levels.At(side), price, level'));
    var pqs' := s.paper.With(side, PutPapers(s.paper.At(side), price, pq'));
    PutHere(levels.At(side), s.paper.At(side), price, level', pq');
    forall d, q ensures RepAt(levels', pqs', hist', f, clock', d, q) {
      if d != side || q != price {
        assert RepAt(levels, s.paper, hist, e, s.clock, d, q);
        OtherRep(s, levels, hist, e, f, side, price, d, q, clock');
        assert QueueAt(hist', d, q) == QueueAt(hist, d, q);
      }
    }
  }

  /** Putting a level back sets its own price, and no other. */
  lemma PutHere(levels: map<int, PaperLevel>, pqs: map<int, PaperQueue>, price: int, level': PaperLevel,
                pq': PaperQueue)
    requires |level'.orders| == |pq'.orders|
    ensures var ls, ps := PutLevel(levels, price, level'), PutPapers(pqs, price, pq');
            && (price in ls <==> pq'.orders != []) && (price in ps <==> pq'.orders != [])
            && (pq'.orders != [] ==> ls[price] == level' && ps[price] == pq')
            && (forall q :: q != price ==> (q in ls <==> q in levels) && (q in ps <==> q in pqs))
            && (forall q :: q != price && q in levels ==> ls[q] == levels[q])
            && (forall q :: q != price && q in pqs ==> ps[q] == pqs[q])
  {
  }

  lemma OtherRep(s: State, levels: Levels, hist: Hist, e: map<int, PaperEntry>, f: map<int, PaperEntry>,
                 side: Side, price: int, d: Side, q: int, clock': nat)
    requires PaperInv(s) && RepAt(levels, s.paper, hist, e, s.clock, d, q) && s.clock <= clock'
    requires SameElsewhere(s, side, price, e, f) && (d != side || q != price)
    ensures RepAt(levels, s.paper, hist, f, clock', d, q)
  {
    if q in levels.At(d) {
      OtherLevel(s, side, price, e, f, d, q);
      FullRepFrame(levels.At(d)[q], s.paper.At(d)[q], QueueAt(hist, d, q), e, f, s.clock, clock');
    }
  }

  lemma OtherLevel(s: State, side: Side, price: int, e: map<int, PaperEntry>, f: map<int, PaperEntry>, d: Side, q: int)
    requires PaperInv(s) && SameElsewhere(s, side, price, e, f)
    requires (d != side || q != price) && q in s.paper.At(d)
    requires forall i :: 0 <= i < |s.paper.At(d)[q].orders| ==> s.paper.At(d)[q].orders[i].id in e
    ensures var orders := s.paper.At(d)[q].orders;
            forall i :: 0 <= i < |orders| ==> orders[i].id in f && f[orders[i].id] == e[orders[i].id]
  {
    assert PaperLevelInv(s, d, q);
    var orders := s.paper.At(d)[q].orders;
    forall i | 0 <= i < |orders| ensures orders[i].id in f && f[orders[i].id] == e[orders[i].id] {
      assert PaperOk(s, d, q, orders[i]);
    }
  }

  /** Only the historical queue at one price changes, and its market index follows. */
  lemma ReindexLevel(levels: Levels, pqs: Queues, hist: Hist, hist': Hist, e: map<int, PaperEntry>, clock: nat,
                     clock': nat, side: Side, price: int, level': PaperLevel)
    requires Reps(levels, pqs, hist, e, clock) && clock <= clock'
    requires forall d, q :: d != side || q != price ==> QueueAt(hist', d, q) == QueueAt(hist, d, q)
    requires price in levels.At(side) ==>
             price in pqs.At(side) && FullRep(level', pqs.At(side)[price], QueueAt(hist', side, price), e, clock')
    ensures price in levels.At(side) ==>
              Reps(levels.With(side, levels.At(side)[price := level']), pqs, hist', e, clock')
    ensures price !in levels.At(side) ==> Reps(levels, pqs, hist', e, clock')
  {
    var levels' := if price in levels.At(side) then levels.With(side, levels.At(side)[price := level']) else levels;
    forall d, q ensures RepAt(levels', pqs, hist', e, clock', d, q) {
      assert RepAt(levels, pqs, hist, e, clock, d, q);
      if (d != side || q != price) && q in levels.At(d) {
        FullRepFrame(levels.At(d)[q], pqs.At(d)[q], QueueAt(hist, d, q), e, e, clock, clock');
      }
    }
  }

  /** Market changes do not concern the paper side of a level. */
  lemma MarketOnly(level: PaperLevel, level': PaperLevel, pq: PaperQueue, queue: seq<Order>, queue': seq<Order>,
                   e: map<int, PaperEntry>, clock: nat)
    requires FullRep(level, pq, queue, e, clock)
    requires level' == level.(marketQty := level'.marketQty)
    requires |level'.marketQty| == |level.marketQty| && MarketRep(level', queue')
    ensures FullRep(level', pq, queue', e, clock)
  {
    forall k: nat | k <= level'.nextPaperIndex && PastFirst(level', pq.orders, e, k)
      ensures Fenwick.SumOf(level'.paperQty, k) == pq.phantom + RemIndexed(pq.orders, e, k)
    {
      assert PastFirst(level, pq.orders, e, k);
    }
  }

  /** Paper changes do not concern the market side of a level. */
  lemma PaperOnly(level: PaperLevel, level': PaperLevel, pq: PaperQueue, pq': PaperQueue, queue: seq<Order>,
                  e: map<int, PaperEntry>, f: map<int, PaperEntry>, clock: nat)
    requires FullRep(level, pq, queue, e, clock)
    requires level'.marketSeqs == level.marketSeqs && level'.marketQty == level.marketQty
             && level'.marketIndex == level.marketIndex
    requires PaperRep(level', pq', f)
    ensures FullRep(level', pq', queue, f, clock)
  {
  }

  // ---- a level under change -----------------------------------------------------------------

  /**
   * The level at one place has been taken out for a change: `level` stands for `pq`, which is the
   * place's queue `s.paper` with some orders gone or resized, and the order records and the index
   * of strategy orders have followed. Everything else is as in `s`.
   */
  ghost predicate OpenLevel(s: State, side: Side, price: int, pq: PaperQueue, level: PaperLevel, market: seq<Order>,
                            start: map<int, PaperEntry>, entries: map<int, PaperEntry>, info: map<int, Place>) {
    && price in s.paper.At(side)
    && FullRep(level, pq, market, entries, s.clock)
    && ThinnedPapers(pq.orders, s.paper.At(side)[price].orders)
    && info == s.paperInfo - (Ids(s.paper.At(side)[price].orders) - Ids(pq.orders))
    && entries.Keys == info.Keys
    && SameElsewhere(s, side, price, start, entries)
  }

  lemma OpenStart(s: State, levels: Levels, hist: Hist, entries: map<int, PaperEntry>, side: Side, price: int)
    requires Inv(s) && Reps(levels, s.paper, hist, entries, s.clock)
    requires entries.Keys == s.paperInfo.Keys && price in levels.At(side)
    ensures price in s.paper.At(side)
    ensures OpenLevel(s, side, price, s.paper.At(side)[price], levels.At(side)[price], QueueAt(hist, side, price),
                      entries, entries, s.paperInfo)
  {
    assert RepAt(levels, s.paper, hist, entries, s.clock, side, price);
    var orders := s.paper.At(side)[price].orders;
    assert PaperLevelInv(s, side, price);
    forall i | 0 <= i < |orders| ensures KeepsPaper(orders, orders[i]) {
      assert orders[i] == orders[i].(remaining := orders[i].remaining);
    }
  }

  /** Putting the level back restores the whole picture for the changed queue. */
  lemma OpenEnd(s: State, levels: Levels, hist: Hist, side: Side, price: int, pq: PaperQueue, level: PaperLevel,
                start: map<int, PaperEntry>, entries: map<int, PaperEntry>, info: map<int, Place>)
    requires Inv(s) && Reps(levels, s.paper, hist, start, s.clock)
    requires OpenLevel(s, side, price, pq, level, QueueAt(hist, side, price), start, entries, info)
    ensures price in s.paper.At(side) && entries.Keys == info.Keys
    ensures var s' := Repaper(s, side, price, pq);
            && Inv(s') && s'.paperInfo == info && s'.clock == s.clock
            && Reps(levels.With(side, PutLevel(levels.At(side), price, level)), s'.paper, hist, entries, s.clock)
  {
    RepaperInv(s, side, price, pq);
    ReplaceLevel(s, levels, hist, hist, start, entries, side, price, level, pq, s.clock);
  }

  lemma ThinnedTwice(a: seq<PaperOrder>, b: seq<PaperOrder>, c: seq<PaperOrder>)
    requires ThinnedPapers(a, b) && ThinnedPapers(b, c)
    ensures ThinnedPapers(a, c)
  {
    forall i | 0 <= i < |a| ensures KeepsPaper(c, a[i]) {
      assert KeepsPaper(b, a[i]);
      var j :| 0 <= j < |b| && b[j] == a[i].(remaining := b[j].remaining);
      assert KeepsPaper(c, b[j]);
      var k :| 0 <= k < |c| && c[k] == b[j].(remaining := c[k].remaining);
      assert c[k] == a[i].(remaining := c[k].remaining);
    }
  }

  /** Orders of an open level rest at its place. */
  lemma OpenIds(s: State, side: Side, price: int, orders: seq<PaperOrder>, i: nat)
    requires PaperInv(s) && price in s.paper.At(side)
    requires ThinnedPapers(orders, s.paper.At(side)[price].orders) && i < |orders|
    ensures orders[i].id in s.paperInfo && s.paperInfo[orders[i].id] == Place(side, price)
    ensures orders[i].id in Ids(s.paper.At(side)[price].orders)
  {
    var all := s.paper.At(side)[price].orders;
    assert PaperLevelInv(s, side, price);
    assert KeepsPaper(all, orders[i]);
    var j :| 0 <= j < |all| && all[j] == orders[i].(remaining := all[j].remaining);
    assert PaperOk(s, side, price, all[j]);
    assert all[j] in all;
  }

  lemma IdsWithout(orders: seq<PaperOrder>, i: nat)
    requires DistinctIds(orders) && i < |orders|
    ensures Ids(WithoutAt(orders, i)) == Ids(orders) - {orders[i].id}
  {
    var rest := WithoutAt(orders, i);
    forall id | id in Ids(orders) && id != orders[i].id ensures id in Ids(rest) {
      var p :| p in orders && p.id == id;
      var k :| 0 <= k < |orders| && orders[k] == p;
      assert rest[if k < i then k else k - 1] == p;
    }
    forall id | id in Ids(rest) ensures id in Ids(orders) && id != orders[i].id {
      var p :| p in rest && p.id == id;
      var k :| 0 <= k < |rest| && rest[k] == p;
      assert orders[if k < i then k else k + 1] == p;
    }
  }

  lemma IdsResized(orders: seq<PaperOrder>, i: nat, remaining: int)
    requires i < |orders|
    ensures Ids(orders[i := orders[i].(remaining := remaining)]) == Ids(orders)
  {
    var orders' := orders[i := orders[i].(remaining := remaining)];
    forall id | id in Ids(orders) ensures id in Ids(orders') {
      var p :| p in orders && p.id == id;
      var k :| 0 <= k < |orders| && orders[k] == p;
      assert orders'[k] in orders' && orders'[k].id == id;
    }
    forall id | id in Ids(orders') ensures id in Ids(orders) {
      var p :| p in orders' && p.id == id;
      var k :| 0 <= k < |orders'| && orders'[k] == p;
      assert orders[k] in orders && orders[k].id == id;
    }
  }

  /** The bookkeeping when the order at `i` leaves an open level. */
  lemma OpenForget(s: State, side: Side, price: int, pq: PaperQueue, pq': PaperQueue, level: PaperLevel,
                   level': PaperLevel, market: seq<Order>, start: map<int, PaperEntry>, entries: map<int, PaperEntry>,
                   info: map<int, Place>, i: nat)
    requires Inv(s) && OpenLevel(s, side, price, pq, level, market, start, entries, info) && i < |pq.orders|
    requires pq'.orders == WithoutAt(pq.orders, i)
    requires level'.marketSeqs == level.marketSeqs && level'.marketQty == level.marketQty
             && level'.marketIndex == level.marketIndex
    requires PaperRep(level', pq', entries - {pq.orders[i].id})
    ensures OpenLevel(s, side, price, pq', level', market, start, entries - {pq.orders[i].id}, info - {pq.orders[i].id})
  {
    var all := s.paper.At(side)[price].orders;
    var id := pq.orders[i].id;
    RemovedIsThinned(pq.orders, i);
    ThinnedTwice(pq'.orders, pq.orders, all);
    IdsWithout(pq.orders, i);
    OpenIds(s, side, price, pq.orders, i);
    assert Ids(all) - Ids(pq'.orders) == (Ids(all) - Ids(pq.orders)) + {id};
    PaperOnly(level, level', pq, pq', market, entries, entries - {id}, s.clock);
  }

  /** The order at `i` leaves an open level together with its lots. */
  lemma OpenRemove(s: State, side: Side, price: int, pq: PaperQueue, level: PaperLevel, market: seq<Order>,
                   start: map<int, PaperEntry>, entries: map<int, PaperEntry>, info: map<int, Place>, i: nat)
    requires Inv(s) && OpenLevel(s, side, price, pq, level, market, start, entries, info) && i < |pq.orders|
    ensures i < |level.orders| && pq.orders[i].id in entries
    ensures OpenLevel(s, side, price, pq.(orders := WithoutAt(pq.orders, i)), Removed(level, pq, entries, i), market,
                      start, entries - {pq.orders[i].id}, info - {pq.orders[i].id})
  {
    RemovedRep(level, pq, entries, i);
    OpenForget(s, side, price, pq, pq.(orders := WithoutAt(pq.orders, i)), level, Removed(level, pq, entries, i),
               market, start, entries, info, i);
  }

  /** The front order leaves an open level by a direct sweep: its lots stay behind. */
  lemma OpenPhantom(s: State, side: Side, price: int, pq: PaperQueue, level: PaperLevel, market: seq<Order>,
                    start: map<int, PaperEntry>, entries: map<int, PaperEntry>, info: map<int, Place>)
    requires Inv(s) && OpenLevel(s, side, price, pq, level, market, start, entries, info) && pq.orders != []
    ensures level.orders != []
    ensures OpenLevel(s, side, price, PhantomFront(pq), level.(orders := level.orders[1..]), market,
                      start, entries - {pq.orders[0].id}, info - {pq.orders[0].id})
  {
    PhantomRep(level, pq, entries);
    assert WithoutAt(pq.orders, 0) == pq.orders[1..];
    OpenForget(s, side, price, pq, PhantomFront(pq), level, level.(orders := level.orders[1..]), market,
               start, entries, info, 0);
  }

  /** The order at `i` of an open level gets a new remainder. */
  lemma OpenResize(s: State, side: Side, price: int, pq: PaperQueue, level: PaperLevel, market: seq<Order>,
                   start: map<int, PaperEntry>, entries: map<int, PaperEntry>, info: map<int, Place>, i: nat,
                   entry: PaperEntry)
    requires Inv(s) && OpenLevel(s, side, price, pq, level, market, start, entries, info) && i < |pq.orders|
    requires pq.orders[i].id in entries && entry.paperIndex == entries[pq.orders[i].id].paperIndex
    requires entry.placement == pq.orders[i].placement && entry.remaining > 0
    requires entry.status == Open || entry.status == PartiallyFilled
    ensures var p := pq.orders[i];
            OpenLevel(s, side, price, pq.(orders := pq.orders[i := p.(remaining := entry.remaining)]),
                      Shifted(level, entry.paperIndex, entry.remaining - p.remaining), market,
                      start, entries[p.id := entry], info)
  {
    hide FullRep, PaperRep, ThinnedPapers;
    var p := pq.orders[i];
    var pq' := pq.(orders := pq.orders[i := p.(remaining := entry.remaining)]);
    var level' := Shifted(level, entry.paperIndex, entry.remaining - p.remaining);
    OpenParts(level, pq, market, entries, s.clock, s.paper.At(side)[price].orders);
    ResizedRep(level, pq, entries, i, entry);
    ResizedIsThinned(pq.orders, i, entry.remaining);
    ThinnedTwice(pq'.orders, pq.orders, s.paper.At(side)[price].orders);
    IdsResized(pq.orders, i, entry.remaining);
    OpenIds(s, side, price, pq.orders, i);
    PaperOnly(level, level', pq, pq', market, entries, entries[p.id := entry], s.clock);
  }

  lemma OpenParts(level: PaperLevel, pq: PaperQueue, market: seq<Order>, entries: map<int, PaperEntry>, clock: nat,
                  all: seq<PaperOrder>)
    requires FullRep(level, pq, market, entries, clock) && ThinnedPapers(pq.orders, all)
    ensures PaperRep(level, pq, entries) && MarketRep(level, market)
    ensures PapersOk(pq.orders) && DistinctIds(pq.orders)
    ensures |level.orders| == |pq.orders|
    ensures forall i :: 0 <= i < |pq.orders| ==> level.orders[i] == pq.orders[i].id && EntryRep(entries, pq.orders[i])
  {
  }

  // ---- historical changes at a price with a paper level -------------------------------------

  lemma AdjustedFull(level: PaperLevel, pq: PaperQueue, queue: seq<Order>, e: map<int, PaperEntry>, clock: nat, i: nat,
                     delta: int)
    requires FullRep(level, pq, queue, e, clock) && i < |queue|
    ensures FullRep(Adjusted(level, queue[i].arrival, delta), pq, Changed(queue, i, delta), e, clock)
  {
    AdjustedRep(level, queue, i, delta);
    MarketOnly(level, Adjusted(level, queue[i].arrival, delta), pq, queue, Changed(queue, i, delta), e, clock);
  }

  lemma JoinedFull(level: PaperLevel, pq: PaperQueue, queue: seq<Order>, e: map<int, PaperEntry>, clock: nat, o: Order)
    requires FullRep(level, pq, queue, e, clock) && o.arrival == clock
    ensures FullRep(Joined(level, o.arrival, o.qty), pq, queue + [o], e, clock + 1)
  {
    JoinedRep(level, queue, o);
    var level' := Joined(level, o.arrival, o.qty);
    forall k: nat | k <= level'.nextPaperIndex && PastFirst(level', pq.orders, e, k)
      ensures Fenwick.SumOf(level'.paperQty, k) == pq.phantom + RemIndexed(pq.orders, e, k)
    {
      assert PastFirst(level, pq.orders, e, k);
    }
  }

  /** A fresh level at a price stands for no strategy orders. */
  lemma FreshFull(level: PaperLevel, queue: seq<Order>, e: map<int, PaperEntry>, clock: nat)
    requires Entered(level, queue, |queue|) && MarketRep(level, queue)
    requires forall i :: 0 <= i < |queue| ==> queue[i].arrival < clock
    ensures FullRep(level, PaperQueue([], 0), queue, e, clock)
  {
  }

  lemma RestedFull(level: PaperLevel, pq: PaperQueue, queue: seq<Order>, e: map<int, PaperEntry>, clock: nat,
                   p: PaperOrder, entry: PaperEntry)
    requires FullRep(level, pq, queue, e, clock)
    requires forall i :: 0 <= i < |pq.orders| ==> pq.orders[i].id != p.id
    requires entry.remaining == p.remaining && entry.placement == p.placement
    requires entry.paperIndex == level.nextPaperIndex
    requires entry.status == Open || entry.status == PartiallyFilled
    ensures FullRep(Rested(level, p.id, p.remaining), pq.(orders := pq.orders + [p]), queue, e[p.id := entry],
                    clock + 1)
  {
    RestedRep(level, pq, e, p, entry);
  }

  // ---- what it means for a level to stand for its orders ------------------------------------

  /** The order at `i` holds its place in the paper tree: before it the phantom lots and the remainders ahead. */
  ghost predicate CarriesRemainder(level: PaperLevel, pq: PaperQueue, e: map<int, PaperEntry>, i: nat)
    requires i < |pq.orders|
  {
    && pq.orders[i].id in e
    && var k := e[pq.orders[i].id].paperIndex;
       && k + 1 < |level.paperQty|
       && Fenwick.SumOf(level.paperQty, k) == pq.phantom + RemainingTotal(pq.orders[..i])
       && Fenwick.SumOf(level.paperQty, k + 1) == pq.phantom + RemainingTotal(pq.orders[..i + 1])
  }

  /** A position behind the front order that no resting order holds carries nothing. */
  ghost predicate CarriesNothing(level: PaperLevel, pq: PaperQueue, e: map<int, PaperEntry>, k: nat) {
    pq.orders != [] && PastFirst(level, pq.orders, e, k) && k < level.nextPaperIndex && NobodyAt(pq.orders, e, k) ==>
      k + 1 < |level.paperQty| && Fenwick.SumOf(level.paperQty, k + 1) == Fenwick.SumOf(level.paperQty, k)
  }

  ghost predicate NobodyAt(orders: seq<PaperOrder>, e: map<int, PaperEntry>, k: nat) {
    forall i :: 0 <= i < |orders| && orders[i].id in e ==> e[orders[i].id].paperIndex != k
  }

  lemma RemainderAt(level: PaperLevel, pq: PaperQueue, e: map<int, PaperEntry>, i: nat)
    requires PaperRep(level, pq, e) && i < |pq.orders|
    ensures CarriesRemainder(level, pq, e, i)
  {
    var k := e[pq.orders[i].id].paperIndex;
    SplitRemaining(pq.orders, e, i, k);
    SplitRemaining(pq.orders, e, i + 1, k + 1);
    if i > 0 {
      assert e[pq.orders[0].id].paperIndex < k;
    }
  }

  lemma {:induction false} SplitRemaining(orders: seq<PaperOrder>, e: map<int, PaperEntry>, i: nat, k: nat)
    requires i <= |orders|
    requires forall j :: 0 <= j < |orders| ==> orders[j].id in e && (e[orders[j].id].paperIndex < k <==> j < i)
    ensures RemIndexed(orders, e, k) == RemainingTotal(orders[..i])
  {
    assert orders == orders[..i] + orders[i..];
    RemIndexedConcat(orders[..i], orders[i..], e, k);
    RemIndexedAll(orders[..i], e, k);
    RemIndexedNone(orders[i..], e, k);
  }

  lemma {:induction false} NobodyThere(orders: seq<PaperOrder>, e: map<int, PaperEntry>, k: nat)
    requires NobodyAt(orders, e, k)
    ensures RemIndexed(orders, e, k + 1) == RemIndexed(orders, e, k)
  {
    if orders != [] {
      NobodyThere(orders[1..], e, k);
    }
  }

  /**
   * A stored level read as data: stamps rise; position `k` of the market index carries the live
   * quantity of its order, or zero once that is gone; every live order is indexed; each strategy
   * order holds its position of the paper index, behind the phantom lots and the remainders ahead
   * of it; and the lots queued are the resting remainders plus the phantom lots.
   */
  lemma LevelIndexAgrees(level: PaperLevel, pq: PaperQueue, queue: seq<Order>, e: map<int, PaperEntry>, clock: nat)
    requires FullRep(level, pq, queue, e, clock) && QueueOk(queue)
    ensures Rising(level.marketSeqs)
    ensures forall k: nat :: k < |level.marketSeqs| ==> CarriesLive(level, queue, k)
    ensures forall i :: 0 <= i < |queue| ==> queue[i].arrival in level.marketSeqs
    ensures forall i :: 0 <= i < |pq.orders| ==> CarriesRemainder(level, pq, e, i)
    ensures forall k: nat :: CarriesNothing(level, pq, e, k)
    ensures level.queuedLots == RemainingTotal(pq.orders) + pq.phantom
    ensures level.queuedLots >= RemainingTotal(pq.orders)
    ensures level.queuedLots == RemainingTotal(pq.orders) <==> pq.phantom == 0
  {
    forall k: nat | k < |level.marketSeqs| ensures CarriesLive(level, queue, k) {
      MarketQtyAt(level, queue, k);
    }
    forall i | 0 <= i < |queue| ensures queue[i].arrival in level.marketSeqs {
      assert level.marketSeqs[level.marketIndex[queue[i].arrival]] == queue[i].arrival;
    }
    hide MarketRep, RemIndexed, RemainingTotal;
    forall i | 0 <= i < |pq.orders| ensures CarriesRemainder(level, pq, e, i) {
      RemainderAt(level, pq, e, i);
    }
    forall k: nat ensures CarriesNothing(level, pq, e, k) {
      EmptyPosition(level, pq, e, k);
    }
  }

  lemma EmptyPosition(level: PaperLevel, pq: PaperQueue, e: map<int, PaperEntry>, k: nat)
    requires PaperRep(level, pq, e)
    ensures CarriesNothing(level, pq, e, k)
  {
    hide RemIndexed, RemainingTotal;
    if pq.orders != [] && PastFirst(level, pq.orders, e, k) && k < level.nextPaperIndex && NobodyAt(pq.orders, e, k) {
      NobodyThere(pq.orders, e, k);
      assert PastFirst(level, pq.orders, e, k + 1);
    }
  }

  ghost predicate CarriesLive(level: PaperLevel, queue: seq<Order>, k: nat)
    requires k < |level.marketSeqs|
  {
    && k + 1 < |level.marketQty|
    && var qty := Fenwick.SumOf(level.marketQty, k + 1) - Fenwick.SumOf(level.marketQty, k);
       && (forall i :: 0 <= i < |queue| && queue[i].arrival == level.marketSeqs[k] ==> qty == queue[i].qty)
       && ((forall i :: 0 <= i < |queue| ==> queue[i].arrival != level.marketSeqs[k]) ==> qty == 0)
  }
}
