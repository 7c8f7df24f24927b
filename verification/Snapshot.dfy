/** What the snapshot initialisers build, and the depth queries of the book, as functions of values. */
module Snapshot {
  import opened Types
  import opened PriceHeap
  import opened Level
  import opened Book
  import opened BookInv

  // ---- seeding ------------------------------------------------------------------------------

  datatype Row = Row(side: Side, price: int, qty: int, id: int)

  datatype SnapshotError = SizeMismatch | DuplicatePrice | DuplicateOrderId

  /** One order joins its queue; only snapshots of single orders enter ids in the index. */
  function SeedRow(s: State, row: Row, withIds: bool): State {
    var o := Order(row.id, row.qty, Historical, s.clock);
    s.(
      hist := s.hist.With(row.side, s.hist.At(row.side)[row.price := QueueAt(s.hist, row.side, row.price) + [o]]),
      nodes := s.nodes[s.clock := Place(row.side, row.price)],
      info := if withIds then s.info[row.id := Loc(row.side, row.price, s.clock)] else s.info,
      clock := s.clock + 1)
  }

  /** What an order that finds no node leaves behind: a level at its price, empty if there was none. */
  function LeaveLevel(s: State, row: Row): State {
    s.(hist := s.hist.With(row.side, s.hist.At(row.side)[row.price := QueueAt(s.hist, row.side, row.price)]))
  }

  /** The levels that hold orders; the heaps need to know these only. */
  function Live(levels: map<int, seq<Order>>): map<int, seq<Order>> {
    map p | p in levels && levels[p] != [] :: levels[p]
  }

  /** Aggregated rows must not repeat a price, single orders must not repeat an id. */
  predicate Accepts(s: State, row: Row, withIds: bool) {
    if withIds then row.id !in s.info else row.price !in s.hist.At(row.side)
  }

  /**
   * The state after a snapshot, up to its first duplicate. On an exhausted pool an aggregated row is
   * skipped before its level is made, a single order after.
   */
  function Seeded(caps: Caps, seq_: nat, rows: seq<Row>, withIds: bool): (State, bool) {
    if rows == [] then (EMPTY.(seq_ := seq_), true)
    else
      var r := Seeded(caps, seq_, rows[..|rows| - 1], withIds);
      var row := rows[|rows| - 1];
      if !r.1 || !Accepts(r.0, row, withIds) then (r.0, false)
      else if |r.0.nodes| < caps.historical then (SeedRow(r.0, row, withIds), true)
      else (if withIds then LeaveLevel(r.0, row) else r.0, true)
  }

  ghost predicate HasRow(rows: seq<Row>, side: Side, price: int) {
    exists i :: 0 <= i < |rows| && rows[i].side == side && rows[i].price == price
  }

  /** What the initialisers do not check: positive lots, and bids below asks. */
  ghost predicate WellFormed(rows: seq<Row>, withIds: bool) {
    && (forall i :: 0 <= i < |rows| ==> rows[i].qty > 0 && (withIds || rows[i].id == UNKNOWN_ID))
    && (forall i, j :: 0 <= i < |rows| && 0 <= j < |rows| && rows[i].side == Buy && rows[j].side == Sell ==>
          rows[i].price < rows[j].price)
  }

  /** Facts that hold of any snapshot, well formed or not. */
  ghost predicate SeedFacts(caps: Caps, s: State, rows: seq<Row>) {
    && s.paper == Sides(map[], map[]) && s.paperInfo == map[]
    && (forall side, price :: price in s.hist.At(side) ==> SeedLevel(caps, s, rows, side, price))
    && (forall stamp :: stamp in s.nodes ==> stamp < s.clock)
    && |s.nodes| <= |rows|
  }

  /** A level of the book comes from a row, and is empty only if the pool is exhausted. */
  ghost predicate SeedLevel(caps: Caps, s: State, rows: seq<Row>, side: Side, price: int)
    requires price in s.hist.At(side)
  {
    HasRow(rows, side, price) && (s.hist.At(side)[price] == [] ==> |s.nodes| >= caps.historical)
  }

  lemma HasRowLonger(rows: seq<Row>, row: Row, side: Side, price: int)
    ensures HasRow(rows, side, price) ==> HasRow(rows + [row], side, price)
    ensures HasRow(rows + [row], row.side, row.price)
  {
    if HasRow(rows, side, price) {
      var i :| 0 <= i < |rows| && rows[i].side == side && rows[i].price == price;
      assert (rows + [row])[i] == rows[i];
    }
    assert (rows + [row])[|rows|] == row;
  }

  lemma SkipRowFacts(caps: Caps, s: State, rows: seq<Row>, row: Row)
    requires SeedFacts(caps, s, rows)
    ensures SeedFacts(caps, s, rows + [row])
  {
    forall side, price | price in s.hist.At(side) ensures SeedLevel(caps, s, rows + [row], side, price) {
      HasRowLonger(rows, row, side, price);
      assert SeedLevel(caps, s, rows, side, price);
    }
  }

  lemma LeaveLevelFacts(caps: Caps, s: State, rows: seq<Row>, row: Row)
    requires SeedFacts(caps, s, rows) && |s.nodes| >= caps.historical
    ensures SeedFacts(caps, LeaveLevel(s, row), rows + [row])
  {
    var s' := LeaveLevel(s, row);
    forall side, price | price in s'.hist.At(side) ensures SeedLevel(caps, s', rows + [row], side, price) {
      HasRowLonger(rows, row, side, price);
      assert price in s.hist.At(side) ==> SeedLevel(caps, s, rows, side, price);
    }
  }

  lemma SeedRowFacts(caps: Caps, s: State, rows: seq<Row>, row: Row, withIds: bool)
    requires SeedFacts(caps, s, rows) && |s.nodes| < caps.historical
    ensures SeedFacts(caps, SeedRow(s, row, withIds), rows + [row])
  {
    var s' := SeedRow(s, row, withIds);
    forall side, price | price in s'.hist.At(side) ensures SeedLevel(caps, s', rows + [row], side, price) {
      HasRowLonger(rows, row, side, price);
      assert price in s.hist.At(side) ==> SeedLevel(caps, s, rows, side, price);
      assert s'.hist.At(side)[price] != [];
    }
  }

  lemma {:induction false} SeededFacts(caps: Caps, seq_: nat, rows: seq<Row>, withIds: bool)
    ensures SeedFacts(caps, Seeded(caps, seq_, rows, withIds).0, rows)
  {
    if rows != [] {
      var last := |rows| - 1;
      SeededFacts(caps, seq_, rows[..last], withIds);
      var s := Seeded(caps, seq_, rows[..last], withIds).0;
      SkipRowFacts(caps, s, rows[..last], rows[last]);
      if |s.nodes| < caps.historical {
        SeedRowFacts(caps, s, rows[..last], rows[last], withIds);
      } else {
        LeaveLevelFacts(caps, s, rows[..last], rows[last]);
      }
      assert rows[..last] + [rows[last]] == rows;
      hide SeedFacts, SeedRow, LeaveLevel;
    }
  }

  lemma SeedRowLevels(s: State, row: Row, withIds: bool, d: Side, q: int)
    requires HistInv(s) && row.qty > 0 && (withIds || row.id == UNKNOWN_ID) && Accepts(s, row, withIds)
    ensures LevelInv(SeedRow(s, row, withIds), d, q)
  {
    var s' := SeedRow(s, row, withIds);
    assert LevelInv(s, d, q);
    if q in s'.hist.At(d) {
      var after := s'.hist.At(d)[q];
      forall i | 0 <= i < |after| ensures OrderOk(s', d, q, after[i]) {
        if i < |QueueAt(s.hist, d, q)| {
          assert OrderOk(s, d, q, QueueAt(s.hist, d, q)[i]);
        }
      }
    }
  }

  lemma SeedRowHist(s: State, row: Row, withIds: bool)
    requires HistInv(s) && row.qty > 0 && (withIds || row.id == UNKNOWN_ID) && Accepts(s, row, withIds)
    ensures HistInv(SeedRow(s, row, withIds))
  {
    var s' := SeedRow(s, row, withIds);
    var queue := QueueAt(s.hist, row.side, row.price);
    var queue' := queue + [Order(row.id, row.qty, Historical, s.clock)];
    forall d, q ensures LevelInv(s', d, q) {
      SeedRowLevels(s, row, withIds, d, q);
    }
    forall stamp ensures NodeInv(s', stamp) {
      assert NodeInv(s, stamp);
      assert queue'[|queue|].arrival == s.clock;
      if stamp in s.nodes && s.nodes[stamp] == Place(row.side, row.price) {
        var i :| 0 <= i < |queue| && queue[i].arrival == stamp;
        assert queue'[i].arrival == stamp;
      }
    }
    forall id ensures InfoInv(s', id) {
      assert InfoInv(s, id);
      assert queue'[|queue|].arrival == s.clock && queue'[|queue|].id == row.id;
      if id in s.info && s.info[id].side == row.side && s.info[id].price == row.price {
        var i :| 0 <= i < |queue| && queue[i].arrival == s.info[id].arrival && queue[i].id == id;
        assert queue'[i].arrival == s.info[id].arrival && queue'[i].id == id;
      }
    }
  }

  /** A well-formed snapshot starts the engine in a state that satisfies the whole invariant. */
  lemma {:induction false} SeededInv(caps: Caps, seq_: nat, rows: seq<Row>, withIds: bool)
    requires WellFormed(rows, withIds) && (withIds ==> |rows| <= caps.historical)
    ensures Inv(Seeded(caps, seq_, rows, withIds).0)
  {
    var s := Seeded(caps, seq_, rows, withIds).0;
    SeededFacts(caps, seq_, rows, withIds);
    if rows != [] {
      var before := rows[..|rows| - 1];
      SeededInv(caps, seq_, before, withIds);
      SeededFacts(caps, seq_, before, withIds);
      var r := Seeded(caps, seq_, before, withIds);
      var row := rows[|rows| - 1];
      if r.1 && Accepts(r.0, row, withIds) {
        SeedRowHist(r.0, row, withIds);
      }
    }
    forall bid, ask | bid in s.hist.buy && ask in s.hist.sell ensures bid < ask {
      assert bid in s.hist.At(Buy) && ask in s.hist.At(Sell);
      assert SeedLevel(caps, s, rows, Buy, bid) && SeedLevel(caps, s, rows, Sell, ask);
    }
  }

  /** The rows of one place, in order, stamped with their position in the snapshot. */
  function RowsAt(rows: seq<Row>, side: Side, price: int): seq<Order> {
    if rows == [] then []
    else
      var last := |rows| - 1;
      RowsAt(rows[..last], side, price)
      + if rows[last].side != side || rows[last].price != price then []
        else [Order(rows[last].id, rows[last].qty, Historical, last)]
  }

  /** An accepted snapshot that fits the pool is in the book, row by row, and nothing else is. */
  lemma {:induction false} SeededQueues(caps: Caps, seq_: nat, rows: seq<Row>, withIds: bool, side: Side, price: int)
    requires Seeded(caps, seq_, rows, withIds).1 && |rows| <= caps.historical
    ensures var s := Seeded(caps, seq_, rows, withIds).0;
            QueueAt(s.hist, side, price) == RowsAt(rows, side, price) && s.clock == |rows|
  {
    if rows != [] {
      var before := rows[..|rows| - 1];
      SeededQueues(caps, seq_, before, withIds, side, price);
      SeededFacts(caps, seq_, before, withIds);
    }
  }

  /** Every row of a snapshot is an order of the queue at its place. */
  lemma {:induction false} RowQueued(rows: seq<Row>, i: nat)
    requires i < |rows|
    ensures Order(rows[i].id, rows[i].qty, Historical, i) in RowsAt(rows, rows[i].side, rows[i].price)
  {
    var last := |rows| - 1;
    if i < last {
      assert rows[..last][i] == rows[i];
      RowQueued(rows[..last], i);
    }
  }

  /** A row shows in the book of an accepted snapshot that satisfies the invariant: it has lots. */
  lemma {:induction false} RowShows(caps: Caps, seq_: nat, rows: seq<Row>, withIds: bool, i: nat)
    requires Seeded(caps, seq_, rows, withIds).1 && |rows| <= caps.historical && i < |rows|
    requires Inv(Seeded(caps, seq_, rows, withIds).0)
    ensures rows[i].qty > 0 && rows[i].price in Seeded(caps, seq_, rows, withIds).0.hist.At(rows[i].side)
  {
    var s := Seeded(caps, seq_, rows, withIds).0;
    SeededQueues(caps, seq_, rows, withIds, rows[i].side, rows[i].price);
    RowQueued(rows, i);
    assert LevelInv(s, rows[i].side, rows[i].price);
  }

  /**
   * The exact condition: an accepted snapshot that fits the pool starts the engine inside its
   * invariant if and only if all lots are positive and bids lie below asks.
   */
  lemma {:induction false} SeededInvExactly(caps: Caps, seq_: nat, rows: seq<Row>, withIds: bool)
    requires Seeded(caps, seq_, rows, withIds).1 && |rows| <= caps.historical
    requires withIds || forall i :: 0 <= i < |rows| ==> rows[i].id == UNKNOWN_ID
    ensures Inv(Seeded(caps, seq_, rows, withIds).0) <==> WellFormed(rows, withIds)
  {
    var s := Seeded(caps, seq_, rows, withIds).0;
    if WellFormed(rows, withIds) {
      SeededInv(caps, seq_, rows, withIds);
    }
    if Inv(s) {
      hide Seeded, HistInv, PaperInv;
      forall i | 0 <= i < |rows| ensures rows[i].qty > 0 && rows[i].price in s.hist.At(rows[i].side) {
        RowShows(caps, seq_, rows, withIds, i);
      }
      assert NotCrossed(s);
      assert WellFormed(rows, withIds);
    }
  }

  // ---- snapshots beyond the pool ------------------------------------------------------------

  /**
   * What a snapshot leaves in the book comes from its first `n` rows; further single orders must
   * repeat their places.
   */
  ghost predicate StartsInside(rows: seq<Row>, n: nat, withIds: bool) {
    var head := rows[..Min(|rows|, n)];
    && WellFormed(head, withIds)
    && (withIds ==> forall i :: n <= i < |rows| ==> HasRow(head, rows[i].side, rows[i].price))
  }

  lemma {:induction false} SeededPrefix(caps: Caps, seq_: nat, rows: seq<Row>, k: nat, withIds: bool)
    requires Seeded(caps, seq_, rows, withIds).1 && k <= |rows|
    ensures Seeded(caps, seq_, rows[..k], withIds).1
  {
    if k < |rows| {
      SeededPrefix(caps, seq_, rows[..|rows| - 1], k, withIds);
      assert rows[..|rows| - 1][..k] == rows[..k];
    } else {
      assert rows[..k] == rows;
    }
  }

  /** Every accepted row takes a node as long as there is one. */
  lemma {:induction false} NodesTaken(caps: Caps, seq_: nat, rows: seq<Row>, withIds: bool)
    requires Seeded(caps, seq_, rows, withIds).1
    ensures |Seeded(caps, seq_, rows, withIds).0.nodes| == Min(|rows|, caps.historical)
  {
    if rows != [] {
      var before := rows[..|rows| - 1];
      NodesTaken(caps, seq_, before, withIds);
      SeededFacts(caps, seq_, before, withIds);
    }
  }

  /** `s` is `h`, but for empty levels at places that the rows name. */
  ghost predicate Padded(s: State, h: State, rows: seq<Row>) {
    && s.(hist := h.hist) == h
    && forall side, price :: PaddedAt(s, h, rows, side, price)
  }

  ghost predicate PaddedAt(s: State, h: State, rows: seq<Row>, side: Side, price: int) {
    && QueueAt(s.hist, side, price) == QueueAt(h.hist, side, price)
    && (price in s.hist.At(side) <==> price in h.hist.At(side) || HasRow(rows, side, price))
  }

  lemma PaddedNext(s: State, h: State, rows: seq<Row>, row: Row)
    requires Padded(s, h, rows)
    ensures Padded(LeaveLevel(s, row), h, rows + [row])
  {
    var s' := LeaveLevel(s, row);
    forall side, price ensures PaddedAt(s', h, rows + [row], side, price) {
      assert PaddedAt(s, h, rows, side, price);
      HasRowLonger(rows, row, side, price);
      if HasRow(rows + [row], side, price) && !HasRow(rows, side, price) {
        var i :| 0 <= i < |rows + [row]| && (rows + [row])[i].side == side && (rows + [row])[i].price == price;
        assert i == |rows|;
      }
    }
  }

  lemma PaddedNone(s: State)
    ensures Padded(s, s, [])
  {
    forall side, price ensures PaddedAt(s, s, [], side, price) {
    }
  }

  /** Beyond the pool single orders leave nothing but empty levels. */
  lemma {:induction false} BeyondPads(caps: Caps, seq_: nat, rows: seq<Row>)
    requires Seeded(caps, seq_, rows, true).1 && |rows| >= caps.historical
    ensures var n := caps.historical;
            Padded(Seeded(caps, seq_, rows, true).0, Seeded(caps, seq_, rows[..n], true).0, rows[n..])
  {
    hide Seeded, Padded, LeaveLevel;
    var n := caps.historical;
    if |rows| > n {
      var last := |rows| - 1;
      var before := rows[..last];
      SeededPrefix(caps, seq_, rows, last, true);
      BeyondPads(caps, seq_, before);
      NodesTaken(caps, seq_, before, true);
      assert before + [rows[last]] == rows;
      SeededNext(caps, seq_, before, rows[last], true);
      assert before[..n] == rows[..n];
      assert before[n..] + [rows[last]] == rows[n..];
      PaddedNext(Seeded(caps, seq_, before, true).0, Seeded(caps, seq_, rows[..n], true).0, before[n..], rows[last]);
    } else {
      assert rows[..n] == rows;
      assert rows[n..] == [];
      PaddedNone(Seeded(caps, seq_, rows, true).0);
    }
  }

  /** Aggregated rows beyond the pool leave nothing at all. */
  lemma {:induction false} BeyondSkips(caps: Caps, seq_: nat, rows: seq<Row>)
    requires Seeded(caps, seq_, rows, false).1 && |rows| >= caps.historical
    ensures Seeded(caps, seq_, rows, false).0 == Seeded(caps, seq_, rows[..caps.historical], false).0
  {
    var n := caps.historical;
    if |rows| > n {
      var before := rows[..|rows| - 1];
      BeyondSkips(caps, seq_, before);
      NodesTaken(caps, seq_, before, false);
      assert before[..n] == rows[..n];
    } else {
      assert rows[..n] == rows;
    }
  }

  /** A level of an accepted snapshot within the pool is there if and only if a row names it. */
  lemma {:induction false} LevelHasRow(caps: Caps, seq_: nat, rows: seq<Row>, side: Side, price: int)
    requires Seeded(caps, seq_, rows, true).1
    ensures price in Seeded(caps, seq_, rows, true).0.hist.At(side) <==> HasRow(rows, side, price)
  {
    var s := Seeded(caps, seq_, rows, true).0;
    SeededFacts(caps, seq_, rows, true);
    if price in s.hist.At(side) {
      assert SeedLevel(caps, s, rows, side, price);
    }
    if HasRow(rows, side, price) {
      RowHasLevel(caps, seq_, rows, side, price);
    }
  }

  lemma {:induction false} RowHasLevel(caps: Caps, seq_: nat, rows: seq<Row>, side: Side, price: int)
    requires Seeded(caps, seq_, rows, true).1 && HasRow(rows, side, price)
    ensures price in Seeded(caps, seq_, rows, true).0.hist.At(side)
  {
    var last := |rows| - 1;
    var i :| 0 <= i <= last && rows[i].side == side && rows[i].price == price;
    if i < last {
      assert rows[..last][i] == rows[i];
      RowHasLevel(caps, seq_, rows[..last], side, price);
    }
  }

  /** Padding that names only levels that are there pads nothing; any other padding breaks the invariant. */
  lemma PaddedInv(s: State, h: State, rows: seq<Row>)
    requires Padded(s, h, rows)
    ensures Inv(s) <==> Inv(h) && forall i :: 0 <= i < |rows| ==> rows[i].price in h.hist.At(rows[i].side)
  {
    if forall i :: 0 <= i < |rows| ==> rows[i].price in h.hist.At(rows[i].side) {
      SamePadded(s, h, rows);
    } else {
      var i :| 0 <= i < |rows| && rows[i].price !in h.hist.At(rows[i].side);
      assert PaddedAt(s, h, rows, rows[i].side, rows[i].price) && HasRow(rows, rows[i].side, rows[i].price);
      NoEmptyLevel(s, rows[i].side, rows[i].price);
    }
  }

  lemma NoEmptyLevel(s: State, side: Side, price: int)
    ensures Inv(s) && price in s.hist.At(side) ==> QueueAt(s.hist, side, price) != []
  {
    assert Inv(s) ==> LevelInv(s, side, price);
  }

  lemma SamePadded(s: State, h: State, rows: seq<Row>)
    requires Padded(s, h, rows) && forall i :: 0 <= i < |rows| ==> rows[i].price in h.hist.At(rows[i].side)
    ensures s == h
  {
    forall side ensures s.hist.At(side) == h.hist.At(side) {
      forall price ensures price in s.hist.At(side) <==> price in h.hist.At(side) {
        assert PaddedAt(s, h, rows, side, price);
      }
      forall price | price in s.hist.At(side) ensures s.hist.At(side)[price] == h.hist.At(side)[price] {
        assert PaddedAt(s, h, rows, side, price);
      }
    }
    assert s.hist.At(Sell) == h.hist.At(Sell) && s.hist.At(Buy) == h.hist.At(Buy);
  }

  /**
   * The exact condition for every accepted snapshot, within the pool or beyond it: the rows that
   * find a node have positive lots and bids below asks, and single orders that find none name levels
   * that these rows have made.
   */
  lemma {:induction false} AcceptedInvExactly(caps: Caps, seq_: nat, rows: seq<Row>, withIds: bool)
    requires Seeded(caps, seq_, rows, withIds).1
    requires withIds || forall i :: 0 <= i < |rows| ==> rows[i].id == UNKNOWN_ID
    ensures Inv(Seeded(caps, seq_, rows, withIds).0) <==> StartsInside(rows, caps.historical, withIds)
  {
    hide Seeded, Inv, WellFormed, Padded, HasRow, LeaveLevel;
    var n := caps.historical;
    if |rows| <= n {
      assert rows[..|rows|] == rows;
      SeededInvExactly(caps, seq_, rows, withIds);
    } else {
      var head := rows[..n];
      SeededPrefix(caps, seq_, rows, n, withIds);
      SeededInvExactly(caps, seq_, head, withIds);
      if withIds {
        BeyondPads(caps, seq_, rows);
        var s, h := Seeded(caps, seq_, rows, true).0, Seeded(caps, seq_, head, true).0;
        PaddedInv(s, h, rows[n..]);
        forall i | n <= i < |rows|
          ensures rows[i].price in h.hist.At(rows[i].side) <==> HasRow(head, rows[i].side, rows[i].price)
        {
          LevelHasRow(caps, seq_, head, rows[i].side, rows[i].price);
        }
        assert forall i :: n <= i < |rows| ==> rows[n..][i - n] == rows[i];
      } else {
        BeyondSkips(caps, seq_, rows);
      }
    }
  }

  /** How many rows are read before the first duplicate. */
  function RowsRead(caps: Caps, seq_: nat, rows: seq<Row>, withIds: bool): (k: nat)
    ensures k <= |rows|
  {
    if rows == [] || Seeded(caps, seq_, rows, withIds).1 then |rows|
    else RowsRead(caps, seq_, rows[..|rows| - 1], withIds)
  }

  /** The rows read are accepted, and the rest, if any, is refused at once and changes nothing. */
  lemma {:induction false} RowsReadAccepted(caps: Caps, seq_: nat, rows: seq<Row>, withIds: bool)
    ensures var k := RowsRead(caps, seq_, rows, withIds);
            && Seeded(caps, seq_, rows[..k], withIds).1
            && Seeded(caps, seq_, rows, withIds).0 == Seeded(caps, seq_, rows[..k], withIds).0
            && (k < |rows| ==> !Accepts(Seeded(caps, seq_, rows[..k], withIds).0, rows[k], withIds))
  {
    var k := RowsRead(caps, seq_, rows, withIds);
    if rows == [] || Seeded(caps, seq_, rows, withIds).1 {
      assert rows[..k] == rows;
    } else {
      var before := rows[..|rows| - 1];
      RowsReadAccepted(caps, seq_, before, withIds);
      assert before[..k] == rows[..k];
      if k == |before| {
        assert before[..k] == before;
      } else {
        SeededStuck(caps, seq_, before, k, withIds);
      }
    }
  }

  /**
   * The exact condition for every snapshot: the state it leaves satisfies the invariant if and only
   * if the rows before the first duplicate start inside it.
   */
  lemma {:induction false} SnapshotInvExactly(caps: Caps, seq_: nat, rows: seq<Row>, withIds: bool)
    requires withIds || forall i :: 0 <= i < |rows| ==> rows[i].id == UNKNOWN_ID
    ensures Inv(Seeded(caps, seq_, rows, withIds).0)
       <==> StartsInside(rows[..RowsRead(caps, seq_, rows, withIds)], caps.historical, withIds)
  {
    hide Seeded, Inv, StartsInside;
    RowsReadAccepted(caps, seq_, rows, withIds);
    AcceptedInvExactly(caps, seq_, rows[..RowsRead(caps, seq_, rows, withIds)], withIds);
  }

  /** On an exhausted pool a single order at a new price leaves an empty level: the invariant is lost. */
  lemma {:induction false} ExhaustedLeavesLevel(caps: Caps, seq_: nat, rows: seq<Row>, row: Row)
    requires var s := Seeded(caps, seq_, rows, true).0;
             && Seeded(caps, seq_, rows, true).1 && Accepts(s, row, true)
             && |s.nodes| >= caps.historical && row.price !in s.hist.At(row.side)
    ensures var s' := Seeded(caps, seq_, rows + [row], true).0;
            row.price in s'.hist.At(row.side) && s'.hist.At(row.side)[row.price] == [] && !Inv(s')
  {
    SeededNext(caps, seq_, rows, row, true);
    var s' := Seeded(caps, seq_, rows + [row], true).0;
    assert !LevelInv(s', row.side, row.price);
  }

  // ---- depth --------------------------------------------------------------------------------

  datatype Depth = Depth(price: int, lots: int)

  /** The prices of a side, best first. */
  ghost function Ranked(prices: set<int>, side: Side): seq<int> {
    if exists p :: p in prices then
      var best := Best(prices, side);
      [best] + Ranked(prices - {best}, side)
    else []
  }

  /** Where a price goes in a best-first list. */
  function Inserted(prices: seq<Depth>, side: Side, d: Depth): seq<Depth> {
    if prices == [] || Rank(side, d.price) > Rank(side, prices[0].price) then [d] + prices
    else [prices[0]] + Inserted(prices[1..], side, d)
  }

  function Depths(levels: map<int, seq<Order>>, prices: seq<int>): seq<Depth> {
    seq(|prices|, i requires 0 <= i < |prices| =>
      Depth(prices[i], if prices[i] in levels then QtyTotal(levels[prices[i]]) else 0))
  }

  function Top<T>(s: seq<T>, n: nat): seq<T> {
    if |s| <= n then s else s[..n]
  }

  lemma {:induction false} RankedFacts(prices: set<int>, side: Side)
    ensures |Ranked(prices, side)| == |prices|
    ensures forall p :: p in Ranked(prices, side) <==> p in prices
    ensures var r := Ranked(prices, side);
            forall i, j :: 0 <= i < j < |r| ==> Rank(side, r[i]) > Rank(side, r[j])
  {
    if exists p :: p in prices {
      var best := Best(prices, side);
      RankedCons(prices, side, best);
      hide Ranked, Best, Rank;
      RankedFacts(prices - {best}, side);
      var tail := Ranked(prices - {best}, side);
      forall i | 0 <= i < |tail| ensures Rank(side, best) > Rank(side, tail[i]) {
        assert tail[i] in tail;
        SameRank(side, best, tail[i]);
      }
    } else {
      assert prices == {};
    }
  }

  lemma SameRank(side: Side, p: int, q: int)
    ensures Rank(side, p) == Rank(side, q) ==> p == q
  {
  }

  lemma {:induction false} RankedCons(prices: set<int>, side: Side, best: int)
    requires IsBest(best, prices, side)
    ensures Ranked(prices, side) == [best] + Ranked(prices - {best}, side)
  {
    BestUnique(best, prices, side);
  }

  lemma {:induction false} InsertedPast(x: Depth, more: seq<Depth>, side: Side, d: Depth)
    ensures Rank(side, d.price) <= Rank(side, x.price) ==>
            Inserted([x] + more, side, d) == [x] + Inserted(more, side, d)
    ensures Rank(side, d.price) > Rank(side, x.price) ==> Inserted([x] + more, side, d) == [d] + ([x] + more)
  {
    assert ([x] + more)[1..] == more;
  }

  /** A new price takes its place in the list. */
  lemma {:induction false} RankedInsert(levels: map<int, seq<Order>>, prices: set<int>, side: Side, p: int)
    requires p !in prices && p in levels
    ensures Depths(levels, Ranked(prices + {p}, side))
         == Inserted(Depths(levels, Ranked(prices, side)), side, Depth(p, QtyTotal(levels[p])))
  {
    hide Ranked, Depths, Inserted, Rank;
    var all := prices + {p};
    var d := Depth(p, QtyTotal(levels[p]));
    assert p in all;
    var best := Best(all, side);
    RankedCons(all, side, best);
    if best == p {
      assert all - {p} == prices;
      DepthsCons(levels, p, Ranked(prices, side));
      InsertedFirst(levels, prices, side, d);
    } else {
      RankedCons(prices, side, best);
      var rest := prices - {best};
      assert all - {best} == rest + {p};
      RankedInsert(levels, rest, side, p);
      DepthsCons(levels, best, Ranked(rest, side));
      DepthsCons(levels, best, Ranked(rest + {p}, side));
      InsertedPast(Depths(levels, [best])[0], Depths(levels, Ranked(rest, side)), side, d);
      assert Depths(levels, [best]) == [Depths(levels, [best])[0]];
    }
  }

  lemma {:induction false} InsertedFirst(levels: map<int, seq<Order>>, prices: set<int>, side: Side, d: Depth)
    requires IsBest(d.price, prices + {d.price}, side) && d.price !in prices
    ensures var l := Depths(levels, Ranked(prices, side)); Inserted(l, side, d) == [d] + l
  {
    RankedHead(levels, prices, side);
    var l := Depths(levels, Ranked(prices, side));
    if l != [] {
      assert l[0].price in prices + {d.price};
      SameRank(side, d.price, l[0].price);
    }
  }

  lemma DepthsCons(levels: map<int, seq<Order>>, p: int, prices: seq<int>)
    ensures Depths(levels, [p] + prices) == Depths(levels, [p]) + Depths(levels, prices)
    ensures |Depths(levels, [p])| == 1 && Depths(levels, [p])[0].price == p
    ensures p in levels ==> Depths(levels, [p]) == [Depth(p, QtyTotal(levels[p]))]
  {
  }

  lemma {:induction false} RankedHead(levels: map<int, seq<Order>>, prices: set<int>, side: Side)
    ensures var d := Depths(levels, Ranked(prices, side));
            d != [] ==> d[0].price in prices
  {
    RankedFacts(prices, side);
    assert Ranked(prices, side) != [] ==> Ranked(prices, side)[0] in Ranked(prices, side);
  }

  /** Only the best `n` of a list matter for the best `n` after an insertion. */
  lemma {:induction false} TopInserted(l: seq<Depth>, side: Side, d: Depth, n: nat)
    ensures Top(Inserted(Top(l, n), side, d), n) == Top(Inserted(l, side, d), n)
  {
    if n > 0 && l != [] && Rank(side, d.price) <= Rank(side, l[0].price) {
      TopInserted(l[1..], side, d, n - 1);
      TopCons(l[0], l[1..], n);
      TopCons(l[0], Inserted(Top(l[1..], n - 1), side, d), n);
      TopCons(l[0], Inserted(l[1..], side, d), n);
      assert Top(l, n)[1..] == Top(l[1..], n - 1);
    } else if n > 0 {
      assert Inserted(l, side, d) == [d] + l;
      assert Inserted(Top(l, n), side, d) == [d] + Top(l, n);
    }
  }

  lemma TopCons<T>(x: T, s: seq<T>, n: nat)
    requires n > 0
    ensures Top([x] + s, n) == [x] + Top(s, n - 1)
  {
  }

  ghost predicate BestFirst(l: seq<Depth>, side: Side) {
    forall i, j :: 0 <= i < j < |l| ==> Rank(side, l[i].price) > Rank(side, l[j].price)
  }

  /** A full list: a depth no better than the worst is dropped, any other pushes the worst out. */
  lemma {:induction false} InsertedFull(l: seq<Depth>, side: Side, d: Depth)
    requires l != [] && BestFirst(l, side)
    ensures var worst := |l| - 1;
            Top(Inserted(l, side, d), |l|)
            == if Rank(side, d.price) > Rank(side, l[worst].price) then Inserted(l[..worst], side, d) else l
  {
    hide Inserted, Rank;
    var worst := |l| - 1;
    var x, tail := l[0], l[1..];
    assert l == [x] + tail;
    InsertedPast(x, tail, side, d);
    InsertedNone(side, d);
    if worst == 0 {
      assert tail == [] && l[..worst] == [];
    } else {
      assert l[..worst] == [x] + tail[..worst - 1];
      InsertedPast(x, tail[..worst - 1], side, d);
      if Rank(side, d.price) > Rank(side, x.price) {
        TopCons(d, l, |l|);
      } else {
        BestFirstTail(l, side);
        InsertedFull(tail, side, d);
        TopCons(x, Inserted(tail, side, d), |l|);
      }
    }
  }

  lemma {:induction false} InsertedNone(side: Side, d: Depth)
    ensures Inserted([], side, d) == [d]
  {
  }

  lemma BestFirstTail(l: seq<Depth>, side: Side)
    requires l != [] && BestFirst(l, side)
    ensures BestFirst(l[1..], side)
  {
  }

  lemma {:induction false} InsertedLength(l: seq<Depth>, side: Side, d: Depth)
    ensures |Inserted(l, side, d)| == |l| + 1
  {
    if l != [] {
      InsertedLength(l[1..], side, d);
    }
  }

  /** Levels with lots to trade. */
  ghost function Positive(levels: map<int, seq<Order>>): set<int> {
    set p | p in levels && QtyTotal(levels[p]) > 0
  }

  /** The first `n` of all positive levels in price order. */
  ghost function TopLevels(levels: map<int, seq<Order>>, prices: set<int>, side: Side, n: nat): seq<Depth> {
    Top(Depths(levels, Ranked(prices, side)), n)
  }

  lemma DepthsBestFirst(levels: map<int, seq<Order>>, prices: set<int>, side: Side, n: nat)
    ensures BestFirst(TopLevels(levels, prices, side, n), side)
  {
    RankedFacts(prices, side);
    hide Ranked, Rank;
  }

  /** One more level of the book is looked at. */
  lemma {:induction false} TopNext(levels: map<int, seq<Order>>, prices: set<int>, side: Side, n: nat, p: int)
    requires n > 0 && p in levels && p !in prices
    ensures var kept := TopLevels(levels, prices, side, n);
            var d := Depth(p, QtyTotal(levels[p]));
            && |kept| <= n
            && TopLevels(levels, prices + {p}, side, n)
               == if |kept| < n then Inserted(kept, side, d)
                  else if Rank(side, p) > Rank(side, kept[|kept| - 1].price) then Inserted(kept[..|kept| - 1], side, d)
                  else kept
  {
    hide Inserted, Ranked, Rank, Depths, QtyTotal, BestFirst;
    var l := Depths(levels, Ranked(prices, side));
    var kept := Top(l, n);
    var d := Depth(p, QtyTotal(levels[p]));
    RankedInsert(levels, prices, side, p);
    TopInserted(l, side, d, n);
    DepthsBestFirst(levels, prices, side, n);
    if |kept| < n {
      InsertedLength(kept, side, d);
    } else {
      InsertedFull(kept, side, d);
    }
  }

  lemma TopNone(levels: map<int, seq<Order>>, side: Side, n: nat)
    ensures TopLevels(levels, {}, side, n) == []
  {
  }

  lemma {:induction false} QtyTotalPositive(queue: seq<Order>)
    requires QueueOk(queue)
    ensures QtyTotal(queue) >= 0 && (queue != [] ==> QtyTotal(queue) > 0)
  {
    if queue != [] {
      QueueOkTail(queue);
      QtyTotalPositive(queue[1..]);
    }
  }

  /** In every reachable state all levels are positive, so the list starts with the best price and its depth. */
  lemma TopHead(s: State, side: Side, n: nat)
    requires Inv(s) && n > 0
    ensures var levels := s.hist.At(side);
            var top := TopLevels(levels, Positive(levels), side, n);
            && Positive(levels) == levels.Keys
            && (BestPrice(levels, side).None? <==> top == [])
            && (BestPrice(levels, side).Some? ==>
                  top[0] == Depth(BestPrice(levels, side).value, QtyTotal(levels[BestPrice(levels, side).value])))
  {
    var levels := s.hist.At(side);
    forall p | p in levels ensures QtyTotal(levels[p]) > 0 {
      assert LevelInv(s, side, p);
      QtyTotalPositive(levels[p]);
    }
    if p :| p in levels.Keys {
      RankedCons(levels.Keys, side, Best(levels.Keys, side));
    }
  }

  /**
   * All of the list: at most `n` levels, best first, each with its depth, and every level with lots
   * that is not listed ranks behind all `n` that are.
   */
  lemma {:induction false} TopMeans(levels: map<int, seq<Order>>, side: Side, n: nat)
    ensures var top := TopLevels(levels, Positive(levels), side, n);
            && |top| <= n
            && (forall i, j :: 0 <= i < j < |top| ==> Rank(side, top[i].price) > Rank(side, top[j].price))
            && (forall i :: 0 <= i < |top| ==>
                  top[i].price in levels && top[i].lots == QtyTotal(levels[top[i].price]) > 0)
            && (forall p :: p in levels && QtyTotal(levels[p]) > 0 ==>
                  || (exists i :: 0 <= i < |top| && top[i].price == p)
                  || (|top| == n && forall i :: 0 <= i < n ==> Rank(side, top[i].price) > Rank(side, p)))
  {
    hide Ranked, Rank, QtyTotal;
    var prices := Positive(levels);
    var r := Ranked(prices, side);
    var top := TopLevels(levels, prices, side, n);
    RankedFacts(prices, side);
    forall i | 0 <= i < |top| ensures top[i].price == r[i] && r[i] in prices {
      assert r[i] in r;
    }
    forall p | p in levels && QtyTotal(levels[p]) > 0
      ensures (exists i :: 0 <= i < |top| && top[i].price == p)
           || (|top| == n && forall i :: 0 <= i < n ==> Rank(side, top[i].price) > Rank(side, p))
    {
      assert p in r;
      var k :| 0 <= k < |r| && r[k] == p;
      if k < |top| {
        assert top[k].price == p;
      }
    }
  }

  lemma TopZero(levels: map<int, seq<Order>>, prices: set<int>, side: Side)
    ensures TopLevels(levels, prices, side, 0) == []
  {
  }

  // ---- seeding, as the engine's methods need it ---------------------------------------------

  lemma {:induction false} SeededNext(caps: Caps, seq_: nat, rows: seq<Row>, row: Row, withIds: bool)
    ensures var r := Seeded(caps, seq_, rows, withIds);
            Seeded(caps, seq_, rows + [row], withIds) ==
            if !r.1 || !Accepts(r.0, row, withIds) then (r.0, false)
            else if |r.0.nodes| < caps.historical then (SeedRow(r.0, row, withIds), true)
            else (if withIds then LeaveLevel(r.0, row) else r.0, true)
  {
    assert (rows + [row])[..|rows|] == rows;
  }

  lemma SeedRowParts(s: State, row: Row, withIds: bool)
    ensures var s' := SeedRow(s, row, withIds);
            && (var queue := QueueAt(s.hist, row.side, row.price) + [Order(row.id, row.qty, Historical, s.clock)];
                s'.hist == s.hist.With(row.side, s.hist.At(row.side)[row.price := queue]))
            && s'.nodes.Keys == s.nodes.Keys + {s.clock}
            && s'.info == (if withIds then s.info[row.id := Loc(row.side, row.price, s.clock)] else s.info)
            && s'.paper == s.paper && s'.paperInfo == s.paperInfo && s'.clock == s.clock + 1 && s'.seq_ == s.seq_
  {
  }

  lemma SeedCovers(heap: Heap, hist: Sides<map<int, seq<Order>>>, side: Side, price: int, o: Order)
    requires Covers(heap, Live(hist.At(side)), side)
    ensures var queue := QueueAt(hist, side, price);
            Covers(if queue == [] then Push(heap, Rank(side, price)) else heap,
                   Live(hist.At(side)[price := queue + [o]]), side)
  {
    var queue := QueueAt(hist, side, price);
    var levels := hist.At(side);
    assert Live(levels[price := queue + [o]]) == Live(levels)[price := queue + [o]];
    if queue == [] {
      PushCovers(heap, Live(levels), side, price, queue + [o]);
    }
  }

  /** A level without orders does not concern the heap. */
  lemma LeftLive(hist: Sides<map<int, seq<Order>>>, side: Side, price: int)
    ensures Live(hist.At(side)[price := QueueAt(hist, side, price)]) == Live(hist.At(side))
  {
  }

  /** Inside the invariant every level is live. */
  lemma AllLive(s: State, side: Side)
    requires Inv(s)
    ensures Live(s.hist.At(side)) == s.hist.At(side)
  {
    forall p | p in s.hist.At(side) ensures s.hist.At(side)[p] != [] {
      assert LevelInv(s, side, p);
    }
  }

  lemma {:induction false} SeededNone(caps: Caps, seq_: nat, withIds: bool)
    ensures Seeded(caps, seq_, [], withIds) == (EMPTY.(seq_ := seq_), true)
  {
  }

  /** After a duplicate the rest of the snapshot is not read. */
  lemma {:induction false} SeededStuck(caps: Caps, seq_: nat, rows: seq<Row>, i: nat, withIds: bool)
    requires i < |rows| && Seeded(caps, seq_, rows[..i], withIds).1
    requires !Accepts(Seeded(caps, seq_, rows[..i], withIds).0, rows[i], withIds)
    ensures Seeded(caps, seq_, rows, withIds) == (Seeded(caps, seq_, rows[..i], withIds).0, false)
  {
    hide Seeded, Accepts;
    var last := |rows| - 1;
    SeededNext(caps, seq_, rows[..last], rows[last], withIds);
    assert rows[..last] + [rows[last]] == rows;
    if i < last {
      assert rows[..last][..i] == rows[..i];
      SeededStuck(caps, seq_, rows[..last], i, withIds);
    }
  }

  function L2Rows(sides: seq<Side>, prices: seq<int>, quantities: seq<int>): (rows: seq<Row>)
    requires |sides| == |prices| == |quantities|
  {
    seq(|sides|, i requires 0 <= i < |sides| => Row(sides[i], prices[i], quantities[i], UNKNOWN_ID))
  }

  function L3Rows(sides: seq<Side>, prices: seq<int>, quantities: seq<int>, ids: seq<int>): (rows: seq<Row>)
    requires |sides| == |prices| == |quantities| == |ids|
  {
    seq(|sides|, i requires 0 <= i < |sides| => Row(sides[i], prices[i], quantities[i], ids[i]))
  }

  lemma EmptyCounts(seq_: nat)
    ensures Inv(EMPTY.(seq_ := seq_))
  {
  }

  lemma {:induction false} SnapshotValid(caps: Caps, seq_: nat, rows: seq<Row>, withIds: bool)
    requires withIds || forall i :: 0 <= i < |rows| ==> rows[i].id == UNKNOWN_ID
    ensures WellFormed(rows, withIds) && (withIds ==> |rows| <= caps.historical) ==>
            Inv(Seeded(caps, seq_, rows, withIds).0)
    ensures Seeded(caps, seq_, rows, withIds).1 && |rows| <= caps.historical ==>
              (Inv(Seeded(caps, seq_, rows, withIds).0) <==> WellFormed(rows, withIds))
    ensures Inv(Seeded(caps, seq_, rows, withIds).0)
       <==> StartsInside(rows[..RowsRead(caps, seq_, rows, withIds)], caps.historical, withIds)
  {
    hide Seeded, Inv, WellFormed, StartsInside;
    SnapshotInvExactly(caps, seq_, rows, withIds);
    if WellFormed(rows, withIds) && (withIds ==> |rows| <= caps.historical) {
      SeededInv(caps, seq_, rows, withIds);
    }
    if Seeded(caps, seq_, rows, withIds).1 && |rows| <= caps.historical {
      SeededInvExactly(caps, seq_, rows, withIds);
    }
  }
}
