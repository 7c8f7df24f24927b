/**
 * The adapter that turns a feed of price levels into a stream of orders, one order a level, and
 * what the engine makes of that stream.
 */
module L2Adapter {
  import opened Types
  import opened PriceHeap
  import opened Level
  import opened Book
  import opened BookInv
  import opened Snapshot
  import EngineSteps
  import EngineMatch

  /** Lots per price level; a level without lots is not in the table. */
  type Table = map<Place, int>

  /** The order id of a level. */
  type Ids = (Side, int) -> int

  /** One line of the feed. */
  datatype Raw = Raw(kind: UpdateType, side: Side, price: int, qty: int)

  function IdOf(ids: Ids, place: Place): int {
    ids(place.side, place.price)
  }

  /** No two of these levels share an id. */
  ghost predicate CollisionFree(ids: Ids, places: set<Place>) {
    forall p, q :: p in places && q in places && IdOf(ids, p) == IdOf(ids, q) ==> p == q
  }

  lemma FewerPlaces(ids: Ids, fewer: set<Place>, places: set<Place>)
    requires CollisionFree(ids, places) && fewer <= places
    ensures CollisionFree(ids, fewer)
  {
  }

  function QtyAt(t: Table, place: Place): int {
    if place in t then t[place] else 0
  }

  function NewQty(kind: UpdateType, prev: int, qty: int): (r: int)
    ensures r >= 0
  {
    Max(0, match kind
      case Add => prev + qty
      case Subtract => prev - qty
      case Match => prev - qty
      case AggressiveTrade => prev - qty
      case Delete => 0
      case Set => qty)
  }

  function NextTable(t: Table, raw: Raw): Table {
    var place := Place(raw.side, raw.price);
    var new_ := NewQty(raw.kind, QtyAt(t, place), raw.qty);
    if new_ > 0 then t[place := new_] else t - {place}
  }

  function OutEvent(ids: Ids, t: Table, raw: Raw): Event {
    var place := Place(raw.side, raw.price);
    var prev := QtyAt(t, place);
    var new_ := NewQty(raw.kind, prev, raw.qty);
    var kind := if prev == 0 then Add else if new_ == 0 then Delete else Set;
    Event(raw.side, kind, Historical, raw.price, new_, ids(raw.side, raw.price))
  }

  class Adapter {
    const ids: Ids
    const missingIds: bool
    var l2Levels: Table

    constructor (ids: Ids, missingIds: bool)
      ensures l2Levels == map[] && this.ids == ids && this.missingIds == missingIds
    {
      this.ids, this.missingIds, l2Levels := ids, missingIds, map[];
    }

    /** Starts from a snapshot's levels; empty rows are skipped, a repeated level counts last. */
    method SeedL2Levels(sides: seq<Side>, prices: seq<int>, quantities: seq<int>)
      modifies this
      ensures !missingIds ==> l2Levels == old(l2Levels)
      ensures missingIds ==> l2Levels == SeedTable(Zipped(sides, prices, quantities))
      ensures missingIds ==> forall place ::
                && (place in l2Levels <==> exists i: nat :: LastGiven(sides, prices, quantities, place, i))
                && (forall i: nat :: LastGiven(sides, prices, quantities, place, i) ==>
                      place in l2Levels && l2Levels[place] == quantities[i])
    {
      if !missingIds {
        return;
      }
      l2Levels := map[];
      var rows := Zipped(sides, prices, quantities);
      assert rows[..0] == [];
      for i := 0 to |rows|
        invariant l2Levels == SeedTable(rows[..i])
      {
        assert rows[..i + 1][..i] == rows[..i];
        var row := rows[i];
        if row.qty > 0 {
          l2Levels := l2Levels[Place(row.side, row.price) := row.qty];
        }
      }
      assert rows[..|rows|] == rows;
      forall place
        ensures place in l2Levels <==> exists i: nat :: LastGiven(sides, prices, quantities, place, i)
        ensures forall i: nat :: LastGiven(sides, prices, quantities, place, i) ==>
                  place in l2Levels && l2Levels[place] == quantities[i]
      {
        GivenLast(sides, prices, quantities, place);
      }
    }

    method NormalizeL2(raw: Raw) returns (e: Event)
      modifies this
      ensures l2Levels == NextTable(old(l2Levels), raw)
      ensures LineMoves(old(l2Levels), l2Levels, raw)
      ensures TablePositive(old(l2Levels)) ==> e == OutEvent(ids, old(l2Levels), raw) && TablePositive(l2Levels)
      ensures TablePositive(old(l2Levels)) ==> Tells(ids, old(l2Levels), l2Levels, raw, e)
    {
      var key := Place(raw.side, raw.price);
      var prev := if key in l2Levels then l2Levels[key] else 0;
      var new_ := prev;
      match raw.kind {
        case Add => new_ := prev + raw.qty;
        case Subtract => new_ := prev - raw.qty;
        case Match => new_ := prev - raw.qty;
        case AggressiveTrade => new_ := prev - raw.qty;
        case Delete => new_ := 0;
        case Set => new_ := raw.qty;
      }
      if new_ < 0 {
        new_ := 0;
      }
      if new_ > 0 {
        l2Levels := l2Levels[key := new_];
      } else {
        l2Levels := l2Levels - {key};
      }
      var outKind, outQty;
      if prev == 0 && new_ == 0 {
        outKind, outQty := Add, 0;
      } else if new_ == 0 {
        outKind, outQty := Delete, 0;
      } else if prev == 0 {
        outKind, outQty := Add, new_;
      } else {
        outKind, outQty := Set, new_;
      }
      return Event(raw.side, outKind, Historical, raw.price, outQty, ids(raw.side, raw.price));
    }
  }

  /**
   * What one line does, kind by kind: an ADD adds its lots to the level, a SUBTRACT or a trade takes
   * them off it and removes the level when they cover it, SET replaces its lots, DELETE removes it.
   * Every other level stays.
   */
  ghost predicate LineMoves(t: Table, t': Table, raw: Raw) {
    var place := Place(raw.side, raw.price);
    && (forall p :: p != place ==> (p in t' <==> p in t) && QtyAt(t', p) == QtyAt(t, p))
    && (place in t' <==> QtyAt(t', place) > 0)
    && (raw.kind == Add ==> QtyAt(t', place) == Max(QtyAt(t, place) + raw.qty, 0))
    && (raw.kind == Subtract || raw.kind == Match || raw.kind == AggressiveTrade ==>
          if raw.qty >= QtyAt(t, place) then place !in t' else QtyAt(t', place) + raw.qty == QtyAt(t, place))
    && (raw.kind == Set ==> if raw.qty <= 0 then place !in t' else QtyAt(t', place) == raw.qty)
    && (raw.kind == Delete ==> place !in t')
  }

  /** The event for a line: it carries what the level has after it, as ADD, SET or DELETE of that level. */
  ghost predicate Tells(ids: Ids, t: Table, t': Table, raw: Raw, e: Event) {
    var place := Place(raw.side, raw.price);
    && e.side == raw.side && e.price == raw.price && e.source == Historical && e.id == ids(raw.side, raw.price)
    && e.qty == QtyAt(t', place)
    && (e.kind == Add <==> place !in t)
    && (e.kind == Delete <==> place in t && place !in t')
    && (e.kind == Set <==> place in t && place in t')
  }

  ghost predicate TablePositive(t: Table) {
    forall place :: place in t ==> t[place] > 0
  }

  function Zipped(sides: seq<Side>, prices: seq<int>, quantities: seq<int>): seq<Row> {
    var n := Min(|sides|, Min(|prices|, |quantities|));
    seq(n, i requires 0 <= i < n => Row(sides[i], prices[i], quantities[i], UNKNOWN_ID))
  }

  function SeedTable(rows: seq<Row>): Table {
    if rows == [] then map[]
    else
      var row := rows[|rows| - 1];
      var t := SeedTable(rows[..|rows| - 1]);
      if row.qty > 0 then t[Place(row.side, row.price) := row.qty] else t
  }

  /** The last row with lots that names a level. */
  ghost predicate LastRow(rows: seq<Row>, place: Place, i: nat) {
    && i < |rows| && rows[i].side == place.side && rows[i].price == place.price && rows[i].qty > 0
    && forall j :: i < j < |rows| && rows[j].side == place.side && rows[j].price == place.price ==> rows[j].qty <= 0
  }

  /** The same of three lists, of which the shortest counts. */
  ghost predicate LastGiven(sides: seq<Side>, prices: seq<int>, quantities: seq<int>, place: Place, i: nat) {
    && i < |sides| && i < |prices| && i < |quantities|
    && sides[i] == place.side && prices[i] == place.price && quantities[i] > 0
    && forall j :: i < j < |sides| && j < |prices| && j < |quantities| ==>
         sides[j] == place.side && prices[j] == place.price ==> quantities[j] <= 0
  }

  lemma GivenLast(sides: seq<Side>, prices: seq<int>, quantities: seq<int>, place: Place)
    ensures var t := SeedTable(Zipped(sides, prices, quantities));
            && (place in t <==> exists i: nat :: LastGiven(sides, prices, quantities, place, i))
            && (forall i: nat :: LastGiven(sides, prices, quantities, place, i) ==>
                  place in t && t[place] == quantities[i])
  {
    var rows := Zipped(sides, prices, quantities);
    SeedLast(rows, place);
    hide SeedTable;
    forall i: nat ensures LastGiven(sides, prices, quantities, place, i) <==> LastRow(rows, place, i) {
      if LastGiven(sides, prices, quantities, place, i) {
        assert rows[i].side == place.side;
      }
      if LastRow(rows, place, i) {
        forall j | i < j < |sides| && j < |prices| && j < |quantities|
                   && sides[j] == place.side && prices[j] == place.price
          ensures quantities[j] <= 0
        {
          assert rows[j].side == place.side;
        }
      }
    }
  }

  /** The seeded table has a level if and only if a row gives it lots, and the last such row counts. */
  lemma {:induction false} SeedLast(rows: seq<Row>, place: Place)
    ensures place in SeedTable(rows) <==> exists i: nat :: LastRow(rows, place, i)
    ensures forall i: nat :: LastRow(rows, place, i) ==>
              place in SeedTable(rows) && SeedTable(rows)[place] == rows[i].qty
  {
    if rows != [] {
      var last := |rows| - 1;
      var before := rows[..last];
      SeedLast(before, place);
      var here := rows[last].side == place.side && rows[last].price == place.price && rows[last].qty > 0;
      assert here ==> LastRow(rows, place, last);
      forall i: nat | i < last ensures LastRow(rows, place, i) <==> LastRow(before, place, i) && !here {
        if LastRow(rows, place, i) {
          forall j | i < j < |before| && before[j].side == place.side && before[j].price == place.price
            ensures before[j].qty <= 0
          {
            assert rows[j].side == place.side;
          }
        }
      }
    }
  }

  // ---- the stream is well formed ------------------------------------------------------------

  /** An ADD with lots is for an absent level, SET and DELETE are for a live one. */
  lemma StreamWellFormed(ids: Ids, t: Table, raw: Raw)
    requires TablePositive(t)
    ensures TablePositive(NextTable(t, raw))
    ensures var e := OutEvent(ids, t, raw);
            var place := Place(raw.side, raw.price);
            var t' := NextTable(t, raw);
            && (e.kind == Add || e.kind == Set || e.kind == Delete)
            && (e.kind == Add <==> place !in t)
            && (e.kind == Delete <==> place in t && place !in t')
            && (e.kind == Set <==> place in t && place in t')
            && QtyAt(t', place) == e.qty
            && (e.kind == Add && e.qty == 0 ==> t' == t)
  {
  }

  lemma LineMovesTable(t: Table, raw: Raw)
    requires TablePositive(t)
    ensures LineMoves(t, NextTable(t, raw), raw) && QtyAt(t, Place(raw.side, raw.price)) >= 0
  {
  }

  // ---- the engine mirrors the table ---------------------------------------------------------

  /** The book holds one order for each level of the table, found under the level's id, and nothing else. */
  ghost predicate MirrorAt(ids: Ids, t: Table, s: State, side: Side, price: int) {
    && (Place(side, price) in t <==> price in s.hist.At(side))
    && (Place(side, price) in t ==>
          var queue := QueueAt(s.hist, side, price);
          var id := ids(side, price);
          && |queue| == 1 && queue[0].id == id && queue[0].qty == t[Place(side, price)]
          && id in s.info && s.info[id] == Loc(side, price, queue[0].arrival))
  }

  ghost predicate Mirrors(ids: Ids, t: Table, s: State) {
    && Inv(s) && s.paper == Sides(map[], map[]) && s.paperInfo == map[]
    && |s.nodes| == |t|
    && forall side, price :: MirrorAt(ids, t, s, side, price)
  }

  /** Bids of the table lie below its asks. */
  ghost predicate Uncrossed(t: Table) {
    forall b, a :: Place(Buy, b) in t && Place(Sell, a) in t ==> b < a
  }

  /** The engine's depth is the table's, everywhere. */
  lemma MirrorDepth(ids: Ids, t: Table, s: State, side: Side, price: int)
    requires Mirrors(ids, t, s)
    ensures QtyTotal(QueueAt(s.hist, side, price)) == QtyAt(t, Place(side, price))
  {
    assert MirrorAt(ids, t, s, side, price);
    var queue := QueueAt(s.hist, side, price);
    if Place(side, price) in t {
      assert QtyTotal(queue[1..]) == 0;
    }
  }

  /** The engine knows a level's id exactly while the table has the level. */
  lemma MirrorIds(ids: Ids, t: Table, s: State, side: Side, price: int)
    requires CollisionFree(ids, t.Keys + {Place(side, price)}) && Mirrors(ids, t, s)
    ensures ids(side, price) in s.info <==> Place(side, price) in t
    ensures Place(side, price) in t ==> s.info[ids(side, price)].side == side && s.info[ids(side, price)].price == price
  {
    var id := ids(side, price);
    assert id == IdOf(ids, Place(side, price));
    assert MirrorAt(ids, t, s, side, price);
    if id in s.info {
      var loc := s.info[id];
      assert InfoInv(s, id);
      assert HasOrder(QueueAt(s.hist, loc.side, loc.price), id, loc.arrival);
      assert MirrorAt(ids, t, s, loc.side, loc.price);
      assert id == IdOf(ids, Place(loc.side, loc.price));
    }
  }

  lemma EmptyMirrors(ids: Ids)
    ensures Mirrors(ids, map[], EMPTY)
  {
    EmptyInv();
  }

  /** An ADD without lots changes only the counter. */
  lemma AddNothing(caps: Caps, s: State, e: Event)
    requires e.kind == Add && e.source == Historical && e.qty == 0
    ensures Step(caps, s, e).0 == s.(seq_ := s.seq_ + 1)
  {
    EngineMatch.MatchStops(s, e, 0);
    EngineSteps.SweepStops(s, e, Some(e.price), 0);
  }

  /** An ADD that crosses nothing comes to rest whole. */
  lemma AddRests(caps: Caps, s: State, e: Event)
    requires Inv(s) && e.kind == Add && e.source == Historical && e.qty > 0 && e.id !in s.info
    requires s.paper == Sides(map[], map[]) && s.paperInfo == map[] && NothingCrosses(s, e)
    ensures Step(caps, s, e).0 == RestHistorical(caps, s, e, e.qty).(seq_ := s.seq_ + 1)
  {
    EngineMatch.MatchStops(s, e, e.qty);
    EngineSteps.SweepStops(s, e, Some(e.price), e.qty);
  }

  lemma NoCross(ids: Ids, t: Table, s: State, e: Event)
    requires Mirrors(ids, t, s) && Uncrossed(t[Place(e.side, e.price) := e.qty])
    ensures NothingCrosses(s, e)
  {
    var maker := e.side.Opposite();
    forall p | p in s.hist.At(maker) ensures !Crosses(maker, e.price, p) {
      assert MirrorAt(ids, t, s, maker, p);
      assert Place(maker, p) in t[Place(e.side, e.price) := e.qty];
      assert Place(e.side, e.price) in t[Place(e.side, e.price) := e.qty];
    }
  }

  lemma RestMirrors(ids: Ids, caps: Caps, t: Table, s: State, e: Event)
    requires Mirrors(ids, t, s) && Inv(RestHistorical(caps, s, e, e.qty).(seq_ := s.seq_ + 1))
    requires Place(e.side, e.price) !in t && e.qty > 0 && e.id == ids(e.side, e.price) && e.id !in s.info
    requires |s.nodes| < caps.historical
    ensures Mirrors(ids, t[Place(e.side, e.price) := e.qty], RestHistorical(caps, s, e, e.qty).(seq_ := s.seq_ + 1))
  {
    var s' := RestHistorical(caps, s, e, e.qty).(seq_ := s.seq_ + 1);
    var t' := t[Place(e.side, e.price) := e.qty];
    FreshStamp(s);
    forall side, price ensures MirrorAt(ids, t', s', side, price) {
      assert MirrorAt(ids, t, s, side, price);
    }
  }

  /** SET and DELETE of a level: its one order is resized, or leaves. */
  lemma ChangeMirrors(ids: Ids, t: Table, s: State, side: Side, price: int, qty: int)
    requires Mirrors(ids, t, s) && Place(side, price) in t && qty >= 0
    ensures LiveQty(s, ids(side, price)) == t[Place(side, price)]
    ensures Inv(ChangeQty(s, ids(side, price), qty - t[Place(side, price)]))
    ensures var place := Place(side, price);
            Mirrors(ids, Resize(t, place, qty), ChangeQty(s, ids(side, price), qty - t[place]))
  {
    hide Inv, LiveQty, ChangeQty, Requeue, GoneStamps, GoneIds;
    var place := Place(side, price);
    var id := ids(side, price);
    var delta := qty - t[place];
    assert MirrorAt(ids, t, s, side, price);
    var i := EngineSteps.OrderFound(s, id, delta);
    var queue := s.hist.At(side)[price];
    ChangeQtyInv(s, id, delta);
    EngineSteps.ChangedGone(queue, i, delta);
    assert OneLeft(queue, i, delta);
    ChangedMirrors(ids, t, s, side, price, qty, Changed(queue, i, delta));
  }

  ghost predicate OneLeft(queue: seq<Order>, i: nat, delta: int) {
    && i < |queue|
    && Changed(queue, i, delta)
       == if queue[i].qty + delta == 0 then [] else [queue[i].(qty := queue[i].qty + delta)]
  }

  lemma ChangedMirrors(ids: Ids, t: Table, s: State, side: Side, price: int, qty: int, queue': seq<Order>)
    requires Mirrors(ids, t, s) && Place(side, price) in t && price in s.hist.At(side)
    requires Inv(Requeue(s, side, price, queue'))
    requires Resized(s.hist.At(side)[price], queue', qty)
    ensures Mirrors(ids, Resize(t, Place(side, price), qty), Requeue(s, side, price, queue'))
  {
    hide Inv, Requeue, MirrorAt, GoneStamps, Resize;
    var s' := Requeue(s, side, price, queue');
    var t' := Resize(t, Place(side, price), qty);
    var o := s.hist.At(side)[price][0];
    QueuedNode(s, side, price, o);
    RequeuedNodes(s, side, price, queue');
    ResizedCounts(t, s.nodes, Place(side, price), o.arrival, qty);
    forall d, q ensures MirrorAt(ids, t', s', d, q) {
      ChangedMirrorAt(ids, t, s, side, price, qty, queue', d, q);
    }
  }

  function Resize(t: Table, place: Place, qty: int): Table {
    if qty == 0 then t - {place} else t[place := qty]
  }

  /** The only order of a queue gets another quantity, or leaves. */
  ghost predicate Resized(queue: seq<Order>, queue': seq<Order>, qty: int) {
    && |queue| == 1 && queue' == (if qty == 0 then [] else [queue[0].(qty := qty)])
    && GoneStamps(queue, queue') == (if qty == 0 then {queue[0].arrival} else {})
    && GoneIds(queue, queue') == (if qty == 0 then {queue[0].id} else {})
  }

  lemma ResizedCounts(t: Table, nodes: map<nat, Place>, place: Place, stamp: nat, qty: int)
    requires place in t && stamp in nodes && |nodes| == |t|
    ensures |nodes - if qty == 0 then {stamp} else {}| == |Resize(t, place, qty)|
  {
    MapLess(nodes, stamp);
    MapLess(t, place);
    assert t[place := qty].Keys == t.Keys;
  }

  lemma ChangedMirrorAt(ids: Ids, t: Table, s: State, side: Side, price: int, qty: int, queue': seq<Order>, d: Side,
                        q: int)
    requires MirrorAt(ids, t, s, d, q) && MirrorAt(ids, t, s, side, price) && Place(side, price) in t
    requires Resized(s.hist.At(side)[price], queue', qty)
    ensures MirrorAt(ids, Resize(t, Place(side, price), qty), Requeue(s, side, price, queue'), d, q)
  {
    hide GoneStamps, GoneIds;
    EngineSteps.RequeueHist(s, side, price, queue');
    RequeuedInfo(s, side, price, queue');
    hide Requeue;
  }

  lemma RequeuedInfo(s: State, side: Side, price: int, queue': seq<Order>)
    requires price in s.hist.At(side)
    ensures Requeue(s, side, price, queue').info == s.info - GoneIds(s.hist.At(side)[price], queue')
  {
  }

  lemma QueuedNode(s: State, side: Side, price: int, o: Order)
    requires Inv(s) && price in s.hist.At(side) && o in s.hist.At(side)[price]
    ensures o.arrival in s.nodes
  {
    assert LevelInv(s, side, price);
    var i :| 0 <= i < |s.hist.At(side)[price]| && s.hist.At(side)[price][i] == o;
    assert OrderOk(s, side, price, o);
  }

  lemma RequeuedNodes(s: State, side: Side, price: int, queue': seq<Order>)
    requires price in s.hist.At(side)
    ensures var s' := Requeue(s, side, price, queue');
            && s'.nodes == s.nodes - GoneStamps(s.hist.At(side)[price], queue')
            && s'.paper == s.paper && s'.paperInfo == s.paperInfo
  {
  }

  lemma MapLess<K, V>(m: map<K, V>, k: K)
    requires k in m
    ensures |m - {k}| == |m| - 1
    ensures m - {} == m
  {
    assert m.Keys == (m - {k}).Keys + {k};
  }

  /** A level is new, or not: its line makes an ADD that the engine takes up whole, or changes one order. */
  ghost predicate Fits(ids: Ids, caps: Caps, t: Table, raw: Raw) {
    var place := Place(raw.side, raw.price);
    place !in t && place in NextTable(t, raw) ==>
      !Clash(ids, t, place) && Uncrossed(NextTable(t, raw)) && |t| < caps.historical
  }

  /** Another level that is in the table has the same id. */
  ghost predicate Clash(ids: Ids, t: Table, place: Place) {
    exists p :: p in t && p != place && IdOf(ids, p) == IdOf(ids, place)
  }

  lemma StepKeeps(ids: Ids, caps: Caps, t: Table, s: State, raw: Raw)
    requires TablePositive(t) && Mirrors(ids, t, s) && Fits(ids, caps, t, raw)
    ensures Mirrors(ids, NextTable(t, raw), Step(caps, s, OutEvent(ids, t, raw)).0)
  {
    hide *;
    var e := OutEvent(ids, t, raw);
    var place := Place(raw.side, raw.price);
    StreamWellFormed(ids, t, raw);
    OutForm(ids, t, raw);
    if e.kind == Add && e.qty > 0 {
      FitsMeans(ids, caps, t, s, raw);
    }
    MirrorFacts(ids, t, s);
    StepInv(caps, s, e);
    if e.kind == Add && e.qty == 0 {
      AddNothing(caps, s, e);
      CountMirrors(ids, t, s);
    } else if e.kind == Add {
      NoCross(ids, t, s, e);
      AddRests(caps, s, e);
      RestMirrors(ids, caps, t, s, e);
    } else {
      StepChanges(ids, caps, t, s, e);
      ChangeMirrors(ids, t, s, raw.side, raw.price, e.qty);
      CountMirrors(ids, NextTable(t, raw), ChangeQty(s, e.id, e.qty - t[place]));
    }
  }

  lemma FitsMeans(ids: Ids, caps: Caps, t: Table, s: State, raw: Raw)
    requires TablePositive(t) && Mirrors(ids, t, s) && Fits(ids, caps, t, raw)
    requires OutEvent(ids, t, raw).kind == Add && OutEvent(ids, t, raw).qty > 0
    ensures OutEvent(ids, t, raw).id !in s.info && Uncrossed(NextTable(t, raw)) && |t| < caps.historical
  {
    var place := Place(raw.side, raw.price);
    StreamWellFormed(ids, t, raw);
    hide NextTable, Uncrossed;
    KnownId(ids, t, s, place);
  }

  /** An id that the engine knows is that of a level in the table. */
  lemma KnownId(ids: Ids, t: Table, s: State, place: Place)
    requires Mirrors(ids, t, s) && place !in t
    ensures IdOf(ids, place) in s.info <==> Clash(ids, t, place)
  {
    var id := IdOf(ids, place);
    if id in s.info {
      var loc := s.info[id];
      assert InfoInv(s, id);
      assert HasOrder(QueueAt(s.hist, loc.side, loc.price), id, loc.arrival);
      assert MirrorAt(ids, t, s, loc.side, loc.price);
      assert IdOf(ids, Place(loc.side, loc.price)) == id;
    }
    if Clash(ids, t, place) {
      var p :| p in t && p != place && IdOf(ids, p) == id;
      assert MirrorAt(ids, t, s, p.side, p.price);
    }
  }

  /**
   * The exact condition for one line: the engine stays the mirror of the table if and only if a new
   * level shares no id with a level of the table, crosses nothing, and finds a node.
   */
  lemma StepMirrorsExactly(ids: Ids, caps: Caps, t: Table, s: State, raw: Raw)
    requires TablePositive(t) && Mirrors(ids, t, s)
    ensures Mirrors(ids, NextTable(t, raw), Step(caps, s, OutEvent(ids, t, raw)).0) <==> Fits(ids, caps, t, raw)
  {
    hide *;
    if Fits(ids, caps, t, raw) {
      StepKeeps(ids, caps, t, s, raw);
    } else {
      StepLoses(ids, caps, t, s, raw);
    }
  }

  lemma StepLoses(ids: Ids, caps: Caps, t: Table, s: State, raw: Raw)
    requires TablePositive(t) && Mirrors(ids, t, s) && !Fits(ids, caps, t, raw)
    ensures !Mirrors(ids, NextTable(t, raw), Step(caps, s, OutEvent(ids, t, raw)).0)
  {
    var e := OutEvent(ids, t, raw);
    var place := Place(raw.side, raw.price);
    var t' := NextTable(t, raw);
    StreamWellFormed(ids, t, raw);
    OutForm(ids, t, raw);
    MirrorFacts(ids, t, s);
    hide NextTable, OutEvent, Inv, Step, MirrorAt, NothingCrosses, Clash;
    MirrorLevels(ids, t, s, place);
    var s' := Step(caps, s, e).0;
    KnownId(ids, t, s, place);
    if Uncrossed(t') && Clash(ids, t, place) {
      Refused(caps, s, e);
    } else if Uncrossed(t') {
      NoCross(ids, t, s, e);
      AddRests(caps, s, e);
    }
    if Mirrors(ids, t', s') {
      MirrorUncrossed(ids, t', s');
      MirrorLevels(ids, t', s', place);
    }
  }

  lemma Refused(caps: Caps, s: State, e: Event)
    requires e.kind == Add && e.id in s.info
    ensures Step(caps, s, e).0 == s.(seq_ := s.seq_ + 1)
  {
  }

  lemma MirrorUncrossed(ids: Ids, t: Table, s: State)
    requires Mirrors(ids, t, s)
    ensures Uncrossed(t)
  {
    forall b, a | Place(Buy, b) in t && Place(Sell, a) in t ensures b < a {
      assert MirrorAt(ids, t, s, Buy, b) && MirrorAt(ids, t, s, Sell, a);
      assert b in s.hist.buy && a in s.hist.sell;
    }
  }

  lemma MirrorLevels(ids: Ids, t: Table, s: State, place: Place)
    requires Mirrors(ids, t, s)
    ensures place in t <==> place.price in s.hist.At(place.side)
  {
    assert MirrorAt(ids, t, s, place.side, place.price);
  }

  /** Feeding the engine the adapter's event keeps it the mirror of the table. */
  lemma StepMirrors(ids: Ids, caps: Caps, t: Table, s: State, raw: Raw)
    requires CollisionFree(ids, t.Keys + {Place(raw.side, raw.price)}) && TablePositive(t) && Mirrors(ids, t, s)
    requires Uncrossed(NextTable(t, raw)) && |NextTable(t, raw)| <= caps.historical
    ensures Mirrors(ids, NextTable(t, raw), Step(caps, s, OutEvent(ids, t, raw)).0)
  {
    hide Mirrors, Step, OutEvent, Uncrossed;
    var place := Place(raw.side, raw.price);
    assert place !in t && place in NextTable(t, raw) ==> NextTable(t, raw).Keys == t.Keys + {place};
    StepKeeps(ids, caps, t, s, raw);
  }

  lemma MirrorFacts(ids: Ids, t: Table, s: State)
    requires Mirrors(ids, t, s)
    ensures Inv(s) && s.paper == Sides(map[], map[]) && s.paperInfo == map[] && |s.nodes| == |t|
  {
  }

  lemma OutForm(ids: Ids, t: Table, raw: Raw)
    ensures var e := OutEvent(ids, t, raw);
            var place := Place(raw.side, raw.price);
            && e.qty >= 0 && e.source == Historical && e.side == raw.side && e.price == raw.price
            && e.id == ids(raw.side, raw.price)
            && NextTable(t, raw) == Resize(t, place, e.qty)
            && (e.kind == Add && e.qty > 0 ==> NextTable(t, raw) == t[place := e.qty])
            && (e.kind == Delete ==> e.qty == 0)
            && (place !in t ==> |t[place := e.qty]| == |t| + 1)
  {
  }

  lemma StepChanges(ids: Ids, caps: Caps, t: Table, s: State, e: Event)
    requires Mirrors(ids, t, s) && Place(e.side, e.price) in t
    requires e.source == Historical && e.id == ids(e.side, e.price) && e.qty >= 0
    requires e.kind == Set || (e.kind == Delete && e.qty == 0)
    ensures var c := ChangeQty(s, e.id, e.qty - t[Place(e.side, e.price)]);
            Step(caps, s, e).0 == c.(seq_ := c.seq_ + 1)
  {
    hide *;
    ChangeMirrors(ids, t, s, e.side, e.price, e.qty);
    HistoricalChange(caps, s, e);
  }

  lemma HistoricalChange(caps: Caps, s: State, e: Event)
    requires e.source == Historical && e.qty >= 0 && (e.kind == Set || (e.kind == Delete && e.qty == 0))
    ensures var c := ChangeQty(s, e.id, e.qty - LiveQty(s, e.id));
            Step(caps, s, e).0 == c.(seq_ := c.seq_ + 1)
  {
    hide ChangeQty, LiveQty;
  }

  lemma CountMirrors(ids: Ids, t: Table, s: State)
    requires Mirrors(ids, t, s)
    ensures Mirrors(ids, t, s.(seq_ := s.seq_ + 1))
  {
    CountInv(s);
    var s' := s.(seq_ := s.seq_ + 1);
    forall side, price ensures MirrorAt(ids, t, s', side, price) {
      assert MirrorAt(ids, t, s, side, price);
    }
  }

  /** The depth of one level follows the line that names it, and every other depth stays. */
  ghost predicate DepthMoves(s: State, s': State, raw: Raw) {
    var before := QtyTotal(QueueAt(s.hist, raw.side, raw.price));
    var after := QtyTotal(QueueAt(s'.hist, raw.side, raw.price));
    && (forall side, price :: side != raw.side || price != raw.price ==>
          QtyTotal(QueueAt(s'.hist, side, price)) == QtyTotal(QueueAt(s.hist, side, price)))
    && (raw.kind == Add ==> after == Max(before + raw.qty, 0))
    && (raw.kind == Subtract || raw.kind == Match || raw.kind == AggressiveTrade ==>
          after == Max(before - raw.qty, 0))
    && (raw.kind == Set ==> after == Max(raw.qty, 0))
    && (raw.kind == Delete ==> after == 0)
  }

  /** A line that fits reaches the depth of the engine. */
  lemma LineDepth(ids: Ids, caps: Caps, t: Table, s: State, raw: Raw)
    requires TablePositive(t) && Mirrors(ids, t, s) && Fits(ids, caps, t, raw)
    ensures DepthMoves(s, Step(caps, s, OutEvent(ids, t, raw)).0, raw)
  {
    hide *;
    var t' := NextTable(t, raw);
    var s' := Step(caps, s, OutEvent(ids, t, raw)).0;
    StepKeeps(ids, caps, t, s, raw);
    LineMovesTable(t, raw);
    Depths(ids, t, s);
    Depths(ids, t', s');
    MovedDepth(t, t', s, s', raw);
  }

  ghost predicate SameDepths(t: Table, s: State) {
    forall side, price :: QtyTotal(QueueAt(s.hist, side, price)) == QtyAt(t, Place(side, price))
  }

  lemma Depths(ids: Ids, t: Table, s: State)
    requires Mirrors(ids, t, s)
    ensures SameDepths(t, s)
  {
    forall side, price ensures QtyTotal(QueueAt(s.hist, side, price)) == QtyAt(t, Place(side, price)) {
      MirrorDepth(ids, t, s, side, price);
    }
  }

  lemma MovedDepth(t: Table, t': Table, s: State, s': State, raw: Raw)
    requires SameDepths(t, s) && SameDepths(t', s') && LineMoves(t, t', raw)
             && QtyAt(t, Place(raw.side, raw.price)) >= 0
    ensures DepthMoves(s, s', raw)
  {
    hide QtyTotal, QueueAt;
  }

  // ---- whole feeds --------------------------------------------------------------------------

  function TableAfter(t: Table, raws: seq<Raw>): Table {
    if raws == [] then t else NextTable(TableAfter(t, raws[..|raws| - 1]), raws[|raws| - 1])
  }

  function StreamOf(ids: Ids, t: Table, raws: seq<Raw>): seq<Event> {
    if raws == [] then []
    else
      var before := raws[..|raws| - 1];
      StreamOf(ids, t, before) + [OutEvent(ids, TableAfter(t, before), raws[|raws| - 1])]
  }

  /** No update crosses prices, and the node pool has room for every level. */
  ghost predicate Calm(t: Table, raws: seq<Raw>, caps: Caps) {
    forall i :: 0 <= i <= |raws| ==>
      Uncrossed(TableAfter(t, raws[..i])) && |TableAfter(t, raws[..i])| <= caps.historical
  }

  /** The levels that a feed names. */
  function PlacesOf(raws: seq<Raw>): set<Place> {
    set raw | raw in raws :: Place(raw.side, raw.price)
  }

  /** A level of the table is one it started with, or one that the feed has named. */
  lemma {:induction false} TablePlaces(t: Table, raws: seq<Raw>)
    ensures TableAfter(t, raws).Keys <= t.Keys + PlacesOf(raws)
  {
    if raws != [] {
      TablePlaces(t, raws[..|raws| - 1]);
      assert raws[|raws| - 1] in raws;
    }
  }

  /** The levels that the last line of a feed can touch. */
  lemma LastPlaces(ids: Ids, t: Table, raws: seq<Raw>)
    requires raws != [] && CollisionFree(ids, t.Keys + PlacesOf(raws))
    ensures var before := raws[..|raws| - 1];
            var raw := raws[|raws| - 1];
            && CollisionFree(ids, t.Keys + PlacesOf(before))
            && CollisionFree(ids, TableAfter(t, before).Keys + {Place(raw.side, raw.price)})
  {
    var before := raws[..|raws| - 1];
    var raw := raws[|raws| - 1];
    assert raw in raws && forall r :: r in before ==> r in raws;
    TablePlaces(t, before);
    FewerPlaces(ids, t.Keys + PlacesOf(before), t.Keys + PlacesOf(raws));
    FewerPlaces(ids, TableAfter(t, before).Keys + {Place(raw.side, raw.price)}, t.Keys + PlacesOf(raws));
  }

  /** Replaying the adapter's output, depth and table agree after every event. */
  lemma {:induction false} RunMirrors(ids: Ids, caps: Caps, t: Table, s: State, raws: seq<Raw>)
    requires CollisionFree(ids, t.Keys + PlacesOf(raws)) && TablePositive(t) && Mirrors(ids, t, s)
             && Calm(t, raws, caps)
    ensures TablePositive(TableAfter(t, raws))
    ensures Mirrors(ids, TableAfter(t, raws), Run(caps, s, StreamOf(ids, t, raws)).0)
  {
    hide Mirrors, Step, CollisionFree, Uncrossed, OutEvent, NextTable;
    if raws != [] {
      var last := |raws| - 1;
      var before := raws[..last];
      assert raws[..|raws|] == raws;
      assert forall i :: 0 <= i <= last ==> before[..i] == raws[..i];
      LastPlaces(ids, t, raws);
      RunMirrors(ids, caps, t, s, before);
      var stream := StreamOf(ids, t, raws);
      assert stream[..|stream| - 1] == StreamOf(ids, t, before);
      StepMirrors(ids, caps, TableAfter(t, before), Run(caps, s, StreamOf(ids, t, before)).0, raws[last]);
      StreamWellFormed(ids, TableAfter(t, before), raws[last]);
    }
  }

  /** After `k` lines the engine mirrors the table. */
  ghost predicate MirrorsAfter(ids: Ids, caps: Caps, t: Table, s: State, raws: seq<Raw>, k: nat)
    requires k <= |raws|
  {
    Mirrors(ids, TableAfter(t, raws[..k]), Run(caps, s, StreamOf(ids, t, raws[..k])).0)
  }

  ghost predicate FitsAt(ids: Ids, caps: Caps, t: Table, raws: seq<Raw>, k: nat)
    requires k < |raws|
  {
    Fits(ids, caps, TableAfter(t, raws[..k]), raws[k])
  }

  lemma {:induction false} AfterPositive(t: Table, raws: seq<Raw>)
    requires TablePositive(t)
    ensures TablePositive(TableAfter(t, raws))
  {
    if raws != [] {
      AfterPositive(t, raws[..|raws| - 1]);
    }
  }

  /** One more line: the next table, and the next state of the engine. */
  lemma {:induction false} AfterNext(ids: Ids, caps: Caps, t: Table, s: State, raws: seq<Raw>, k: nat)
    requires k < |raws|
    ensures var t' := TableAfter(t, raws[..k]);
            var s' := Run(caps, s, StreamOf(ids, t, raws[..k])).0;
            && TableAfter(t, raws[..k + 1]) == NextTable(t', raws[k])
            && Run(caps, s, StreamOf(ids, t, raws[..k + 1])).0 == Step(caps, s', OutEvent(ids, t', raws[k])).0
  {
    hide Step, NextTable, OutEvent;
    assert raws[..k + 1][..k] == raws[..k];
    var stream := StreamOf(ids, t, raws[..k + 1]);
    assert stream[..|stream| - 1] == StreamOf(ids, t, raws[..k]);
  }

  lemma {:induction false} MirrorsUpTo(ids: Ids, caps: Caps, t: Table, s: State, raws: seq<Raw>, k: nat)
    requires TablePositive(t) && Mirrors(ids, t, s) && k <= |raws|
    requires forall i :: 0 <= i < |raws| ==> FitsAt(ids, caps, t, raws, i)
    ensures MirrorsAfter(ids, caps, t, s, raws, k)
  {
    hide Mirrors, Fits, Step, NextTable, OutEvent;
    if k > 0 {
      MirrorsUpTo(ids, caps, t, s, raws, k - 1);
      AfterPositive(t, raws[..k - 1]);
      assert FitsAt(ids, caps, t, raws, k - 1);
      StepMirrorsExactly(ids, caps, TableAfter(t, raws[..k - 1]), Run(caps, s, StreamOf(ids, t, raws[..k - 1])).0,
                         raws[k - 1]);
      AfterNext(ids, caps, t, s, raws, k - 1);
    }
  }

  /** Over a whole feed the engine mirrors the table after every line if and only if every line fits. */
  lemma RunMirrorsExactly(ids: Ids, caps: Caps, t: Table, s: State, raws: seq<Raw>)
    requires TablePositive(t) && Mirrors(ids, t, s)
    ensures (forall k :: 0 <= k <= |raws| ==> MirrorsAfter(ids, caps, t, s, raws, k))
       <==> (forall k :: 0 <= k < |raws| ==> FitsAt(ids, caps, t, raws, k))
  {
    hide Mirrors, Fits, Step, NextTable, OutEvent, TableAfter, StreamOf, Run;
    if forall k :: 0 <= k < |raws| ==> FitsAt(ids, caps, t, raws, k) {
      forall k | 0 <= k <= |raws| ensures MirrorsAfter(ids, caps, t, s, raws, k) {
        MirrorsUpTo(ids, caps, t, s, raws, k);
      }
    }
    if forall k :: 0 <= k <= |raws| ==> MirrorsAfter(ids, caps, t, s, raws, k) {
      forall k | 0 <= k < |raws| ensures FitsAt(ids, caps, t, raws, k) {
        assert MirrorsAfter(ids, caps, t, s, raws, k) && MirrorsAfter(ids, caps, t, s, raws, k + 1);
        AfterPositive(t, raws[..k]);
        StepMirrorsExactly(ids, caps, TableAfter(t, raws[..k]), Run(caps, s, StreamOf(ids, t, raws[..k])).0, raws[k]);
        AfterNext(ids, caps, t, s, raws, k);
      }
    }
  }

  /** Over a feed whose lines all fit, every line reaches the depth of the engine. */
  lemma {:induction false} FeedDepth(ids: Ids, caps: Caps, t: Table, s: State, raws: seq<Raw>, k: nat)
    requires TablePositive(t) && Mirrors(ids, t, s) && k < |raws|
    requires forall i :: 0 <= i < |raws| ==> FitsAt(ids, caps, t, raws, i)
    ensures DepthMoves(Run(caps, s, StreamOf(ids, t, raws[..k])).0, Run(caps, s, StreamOf(ids, t, raws[..k + 1])).0,
                       raws[k])
  {
    hide Mirrors, Fits, Step, NextTable, OutEvent, TableAfter, StreamOf, Run, DepthMoves;
    MirrorsUpTo(ids, caps, t, s, raws, k);
    AfterPositive(t, raws[..k]);
    assert FitsAt(ids, caps, t, raws, k);
    AfterNext(ids, caps, t, s, raws, k);
    LineDepth(ids, caps, TableAfter(t, raws[..k]), Run(caps, s, StreamOf(ids, t, raws[..k])).0, raws[k]);
  }

  // ---- starting from a snapshot -------------------------------------------------------------

  /** The snapshot rows as single orders with the ids of their levels. */
  function LevelRows(ids: Ids, rows: seq<Row>): (r: seq<Row>)
    ensures |r| == |rows|
  {
    seq(|rows|, i requires 0 <= i < |rows| => rows[i].(id := ids(rows[i].side, rows[i].price)))
  }

  ghost predicate DistinctPlaces(rows: seq<Row>) {
    forall i, j :: 0 <= i < j < |rows| ==> rows[i].side != rows[j].side || rows[i].price != rows[j].price
  }

  function PlacesIn(rows: seq<Row>): set<Place> {
    set row | row in rows :: Place(row.side, row.price)
  }

  lemma {:induction false} SeedPlaces(rows: seq<Row>)
    ensures SeedTable(rows).Keys <= PlacesIn(rows)
    ensures rows != [] ==> SeedTable(rows[..|rows| - 1]).Keys <= PlacesIn(rows)
  {
    if rows != [] {
      SeedPlaces(rows[..|rows| - 1]);
      assert rows[|rows| - 1] in rows && forall r :: r in rows[..|rows| - 1] ==> r in rows;
    }
  }

  lemma {:induction false} SeedHas(rows: seq<Row>, place: Place)
    requires forall i :: 0 <= i < |rows| ==> rows[i].qty > 0
    ensures place in SeedTable(rows) <==> HasRow(rows, place.side, place.price)
    ensures TablePositive(SeedTable(rows))
  {
    if rows != [] {
      var last := |rows| - 1;
      SeedHas(rows[..last], place);
      if HasRow(rows, place.side, place.price) {
        var i :| 0 <= i < |rows| && rows[i].side == place.side && rows[i].price == place.price;
        assert i < last ==> rows[..last][i].side == place.side;
      }
      if HasRow(rows[..last], place.side, place.price) {
        var i :| 0 <= i < last && rows[..last][i].side == place.side && rows[..last][i].price == place.price;
        assert rows[i].side == place.side;
      }
      assert rows[last].side == place.side && rows[last].price == place.price ==> HasRow(rows, place.side, place.price);
    }
  }

  /** An engine started from the levels of a snapshot mirrors the seeded table. */
  lemma {:induction false} SeededMirrors(ids: Ids, caps: Caps, seq_: nat, rows: seq<Row>)
    requires CollisionFree(ids, PlacesIn(rows)) && WellFormed(LevelRows(ids, rows), true) && DistinctPlaces(rows)
    requires |rows| <= caps.historical
    ensures Seeded(caps, seq_, LevelRows(ids, rows), true).1
    ensures Mirrors(ids, SeedTable(rows), Seeded(caps, seq_, LevelRows(ids, rows), true).0)
  {
    var all := LevelRows(ids, rows);
    SeededInv(caps, seq_, all, true);
    if rows != [] {
      var last := |rows| - 1;
      assert LevelRows(ids, rows[..last]) == all[..last];
      FewerPlaces(ids, PlacesIn(rows[..last]), PlacesIn(rows));
      SeededMirrors(ids, caps, seq_, rows[..last]);
      SeedNextMirrors(ids, caps, seq_, rows);
    }
  }

  lemma SeedNextMirrors(ids: Ids, caps: Caps, seq_: nat, rows: seq<Row>)
    requires CollisionFree(ids, PlacesIn(rows)) && DistinctPlaces(rows) && |rows| <= caps.historical && rows != []
    requires WellFormed(LevelRows(ids, rows), true) && Inv(Seeded(caps, seq_, LevelRows(ids, rows), true).0)
    requires Seeded(caps, seq_, LevelRows(ids, rows[..|rows| - 1]), true).1
    requires Mirrors(ids, SeedTable(rows[..|rows| - 1]), Seeded(caps, seq_, LevelRows(ids, rows[..|rows| - 1]), true).0)
    ensures Seeded(caps, seq_, LevelRows(ids, rows), true).1
    ensures Mirrors(ids, SeedTable(rows), Seeded(caps, seq_, LevelRows(ids, rows), true).0)
  {
    hide Mirrors, SeedRow, SeedTable, Seeded, SeedFacts, CollisionFree, DistinctPlaces, PlacesIn, HasRow;
    var last := |rows| - 1;
    var all := LevelRows(ids, rows);
    var row := all[last];
    var before := all[..last];
    assert LevelRows(ids, rows[..last]) == before;
    var s := Seeded(caps, seq_, before, true).0;
    var t := SeedTable(rows[..last]);
    forall i | 0 <= i < last ensures rows[..last][i].qty > 0 {
      assert all[i].qty > 0;
    }
    assert rows[last].qty == row.qty > 0;
    NewPlace(ids, rows);
    MirrorIds(ids, t, s, row.side, row.price);
    SeededFacts(caps, seq_, before, true);
    PlainBook(ids, t, s);
    FactsCount(caps, s, before);
    SeededNext(caps, seq_, before, row, true);
    assert before + [row] == all;
    SeedRowMirrors(ids, t, s, row);
  }

  /**
   * The exact condition for a snapshot of distinct levels with lots that fits the pool: the engine
   * accepts it and mirrors its table if and only if no two levels share an id and nothing crosses.
   */
  lemma {:induction false} SeededMirrorsExactly(ids: Ids, caps: Caps, seq_: nat, rows: seq<Row>)
    requires DistinctPlaces(rows) && |rows| <= caps.historical
    requires forall i :: 0 <= i < |rows| ==> rows[i].qty > 0
    ensures var r := Seeded(caps, seq_, LevelRows(ids, rows), true);
            r.1 && Mirrors(ids, SeedTable(rows), r.0)
            <==> CollisionFree(ids, PlacesIn(rows)) && Uncrossed(SeedTable(rows))
  {
    hide Mirrors, Seeded, SeedTable, DistinctPlaces;
    var s := Seeded(caps, seq_, LevelRows(ids, rows), true).0;
    forall p ensures p in PlacesIn(rows) <==> p in SeedTable(rows) {
      SeedHas(rows, p);
      PlaceHasRow(rows, p);
    }
    if CollisionFree(ids, PlacesIn(rows)) && Uncrossed(SeedTable(rows)) {
      UncrossedRows(ids, rows);
      SeededMirrors(ids, caps, seq_, rows);
    }
    if Mirrors(ids, SeedTable(rows), s) {
      MirrorUncrossed(ids, SeedTable(rows), s);
      MirrorDistinct(ids, SeedTable(rows), s);
      assert PlacesIn(rows) == SeedTable(rows).Keys;
    }
  }

  lemma PlaceHasRow(rows: seq<Row>, p: Place)
    ensures p in PlacesIn(rows) <==> HasRow(rows, p.side, p.price)
  {
    if HasRow(rows, p.side, p.price) {
      var i :| 0 <= i < |rows| && rows[i].side == p.side && rows[i].price == p.price;
      assert rows[i] in rows;
    }
  }

  /** The index tells the levels of a mirrored table apart. */
  lemma MirrorDistinct(ids: Ids, t: Table, s: State)
    requires Mirrors(ids, t, s)
    ensures CollisionFree(ids, t.Keys)
  {
    forall p, q | p in t && q in t && IdOf(ids, p) == IdOf(ids, q) ensures p == q {
      assert MirrorAt(ids, t, s, p.side, p.price) && MirrorAt(ids, t, s, q.side, q.price);
    }
  }

  lemma {:induction false} UncrossedRows(ids: Ids, rows: seq<Row>)
    requires Uncrossed(SeedTable(rows)) && forall i :: 0 <= i < |rows| ==> rows[i].qty > 0
    ensures WellFormed(LevelRows(ids, rows), true)
  {
    forall i, j | 0 <= i < |rows| && 0 <= j < |rows| && rows[i].side == Buy && rows[j].side == Sell
      ensures rows[i].price < rows[j].price
    {
      SeedHas(rows, Place(Buy, rows[i].price));
      SeedHas(rows, Place(Sell, rows[j].price));
    }
  }

  lemma FactsCount(caps: Caps, s: State, rows: seq<Row>)
    requires SeedFacts(caps, s, rows)
    ensures |s.nodes| <= |rows|
  {
  }

  /** The last row of a snapshot names a level that the rows before it do not. */
  lemma {:induction false} NewPlace(ids: Ids, rows: seq<Row>)
    requires rows != [] && CollisionFree(ids, PlacesIn(rows)) && DistinctPlaces(rows)
    requires forall i :: 0 <= i < |rows| ==> rows[i].qty > 0
    ensures var row := rows[|rows| - 1];
            var t := SeedTable(rows[..|rows| - 1]);
            var place := Place(row.side, row.price);
            && place !in t && CollisionFree(ids, t.Keys + {place})
            && SeedTable(rows) == t[place := row.qty]
  {
    var last := |rows| - 1;
    var place := Place(rows[last].side, rows[last].price);
    forall i | 0 <= i < last ensures rows[..last][i].qty > 0 {
    }
    SeedHas(rows[..last], place);
    SeedPlaces(rows);
    assert rows[last] in rows;
    FewerPlaces(ids, SeedTable(rows[..last]).Keys + {place}, PlacesIn(rows));
  }

  lemma PlainBook(ids: Ids, t: Table, s: State)
    requires Mirrors(ids, t, s)
    ensures |s.nodes| == |t|
  {
  }

  /** A new level takes its place in both. */
  lemma SeedRowMirrors(ids: Ids, t: Table, s: State, row: Row)
    requires Mirrors(ids, t, s) && Inv(SeedRow(s, row, true))
    requires Place(row.side, row.price) !in t && row.id == ids(row.side, row.price) && row.id !in s.info
    ensures Mirrors(ids, t[Place(row.side, row.price) := row.qty], SeedRow(s, row, true))
  {
    hide Inv;
    var s' := SeedRow(s, row, true);
    var t' := t[Place(row.side, row.price) := row.qty];
    FreshStamp(s);
    forall side, price ensures MirrorAt(ids, t', s', side, price) {
      assert MirrorAt(ids, t, s, side, price);
    }
  }
}
