/** Snapshots, row by row: which are accepted, and what each row leaves in the engine. */
module SnapshotRows {
  import opened Types
  import opened Level
  import opened Book
  import opened Snapshot

  /** A single order repeats an id, an aggregated row a price. */
  predicate Repeats(row: Row, earlier: Row, withIds: bool) {
    if withIds then row.id == earlier.id else row.side == earlier.side && row.price == earlier.price
  }

  /** No row repeats one of the first `n`, which are those that find a node. */
  ghost predicate NoRepeats(rows: seq<Row>, n: nat, withIds: bool) {
    forall i, j :: 0 <= j < i < |rows| && j < n ==> !Repeats(rows[i], rows[j], withIds)
  }

  /** What the first `k` rows leave: queues, nodes and index, stamped by position, and nothing else. */
  ghost predicate Made(s: State, seq_: nat, rows: seq<Row>, k: nat, withIds: bool)
    requires k <= |rows|
  {
    && s.clock == k && s.seq_ == seq_ && s.paper == Sides(map[], map[]) && s.paperInfo == map[]
    && (forall side, price :: QueueAt(s.hist, side, price) == RowsAt(rows[..k], side, price))
    && (forall n: nat :: n in s.nodes <==> n < k)
    && (forall n :: 0 <= n < k ==> s.nodes[n] == Place(rows[n].side, rows[n].price))
    && (if withIds then IndexMade(s, rows, k) else s.info == map[] && LevelsMade(s, rows, k))
  }

  ghost predicate IndexMade(s: State, rows: seq<Row>, k: nat)
    requires k <= |rows|
  {
    && (forall id :: id in s.info <==> exists i :: 0 <= i < k && rows[i].id == id)
    && (forall i :: 0 <= i < k ==>
          rows[i].id in s.info && s.info[rows[i].id] == Loc(rows[i].side, rows[i].price, i))
  }

  ghost predicate LevelsMade(s: State, rows: seq<Row>, k: nat)
    requires k <= |rows|
  {
    forall side, price :: price in s.hist.At(side) <==> HasRow(rows[..k], side, price)
  }

  /**
   * The exact condition under which a snapshot is accepted, and what it leaves then: its first rows,
   * as many as there are nodes.
   */
  lemma {:induction false} AcceptedExactly(caps: Caps, seq_: nat, rows: seq<Row>, withIds: bool)
    ensures var r := Seeded(caps, seq_, rows, withIds);
            && (r.1 <==> NoRepeats(rows, caps.historical, withIds))
            && (r.1 ==> Made(r.0, seq_, rows, Min(|rows|, caps.historical), withIds))
  {
    hide Made, NoRepeats;
    if rows == [] {
      NothingMade(caps, seq_, withIds);
    } else {
      var last := |rows| - 1;
      var before := rows[..last];
      AcceptedExactly(caps, seq_, before, withIds);
      RepeatsNext(rows, caps.historical, withIds);
      var r := Seeded(caps, seq_, before, withIds);
      if r.1 {
        NodesTaken(caps, seq_, before, withIds);
        AcceptsMade(r.0, seq_, rows, Min(last, caps.historical), withIds);
        MadeLonger(r.0, seq_, rows, Min(last, caps.historical), withIds);
        if Accepts(r.0, rows[last], withIds) {
          if last < caps.historical {
            RowMade(r.0, seq_, rows, withIds);
          } else if withIds {
            LevelLeft(r.0, seq_, rows, caps.historical, rows[last]);
          }
        }
      }
    }
  }

  lemma {:induction false} NothingMade(caps: Caps, seq_: nat, withIds: bool)
    ensures Seeded(caps, seq_, [], withIds).1 && NoRepeats([], caps.historical, withIds)
    ensures Made(Seeded(caps, seq_, [], withIds).0, seq_, [], 0, withIds)
  {
  }

  /** One more row repeats nothing, or one of the rows before it. */
  ghost predicate NewRow(rows: seq<Row>, n: nat, withIds: bool)
    requires rows != []
  {
    forall j :: 0 <= j < |rows| - 1 && j < n ==> !Repeats(rows[|rows| - 1], rows[j], withIds)
  }

  lemma RepeatsNext(rows: seq<Row>, n: nat, withIds: bool)
    requires rows != []
    ensures NoRepeats(rows, n, withIds) <==> NoRepeats(rows[..|rows| - 1], n, withIds) && NewRow(rows, n, withIds)
  {
    hide Repeats;
    var before := rows[..|rows| - 1];
    if NoRepeats(before, n, withIds) && NewRow(rows, n, withIds) {
      forall i, j | 0 <= j < i < |rows| && j < n ensures !Repeats(rows[i], rows[j], withIds) {
        if i < |before| {
          assert !Repeats(before[i], before[j], withIds);
        }
      }
    }
    if NoRepeats(rows, n, withIds) {
      forall i, j | 0 <= j < i < |before| && j < n ensures !Repeats(before[i], before[j], withIds) {
        assert !Repeats(rows[i], rows[j], withIds);
      }
    }
  }

  /** The engine finds a repeated row by what the rows before it have made. */
  lemma AcceptsMade(s: State, seq_: nat, rows: seq<Row>, k: nat, withIds: bool)
    requires rows != [] && k <= |rows| - 1 && Made(s, seq_, rows[..|rows| - 1], k, withIds)
    ensures Accepts(s, rows[|rows| - 1], withIds) <==> NewRow(rows, k, withIds)
  {
    var before, row := rows[..|rows| - 1], rows[|rows| - 1];
    assert before[..k] == rows[..k];
    if withIds {
      assert row.id in s.info <==> exists i :: 0 <= i < k && before[i].id == row.id;
      if !NewRow(rows, k, withIds) {
        var j :| 0 <= j < |rows| - 1 && j < k && Repeats(row, rows[j], withIds);
        assert before[j].id == row.id;
      }
    } else {
      assert row.price in s.hist.At(row.side) <==> HasRow(before[..k], row.side, row.price);
      if HasRow(before[..k], row.side, row.price) {
        var i :| 0 <= i < k && before[..k][i].side == row.side && before[..k][i].price == row.price;
        assert Repeats(row, rows[i], withIds);
      }
      if !NewRow(rows, k, withIds) {
        var j :| 0 <= j < |rows| - 1 && j < k && Repeats(row, rows[j], withIds);
        assert before[..k][j] == rows[j];
      }
    }
  }

  lemma MadeLonger(s: State, seq_: nat, rows: seq<Row>, k: nat, withIds: bool)
    requires rows != [] && k <= |rows| - 1 && Made(s, seq_, rows[..|rows| - 1], k, withIds)
    ensures Made(s, seq_, rows, k, withIds)
  {
    assert rows[..|rows| - 1][..k] == rows[..k];
    hide RowsAt;
  }

  /** A row that finds a node. */
  lemma RowMade(s: State, seq_: nat, rows: seq<Row>, withIds: bool)
    requires rows != [] && Made(s, seq_, rows, |rows| - 1, withIds) && Accepts(s, rows[|rows| - 1], withIds)
    ensures Made(SeedRow(s, rows[|rows| - 1], withIds), seq_, rows, |rows|, withIds)
  {
    hide RowsAt, HasRow, IndexMade;
    var k := |rows| - 1;
    var s' := SeedRow(s, rows[k], withIds);
    assert rows[..k + 1] == rows;
    forall side, price
      ensures QueueAt(s'.hist, side, price) == RowsAt(rows, side, price)
      ensures HasRow(rows, side, price) <==>
                HasRow(rows[..k], side, price) || (rows[k].side == side && rows[k].price == price)
    {
      RowsNext(rows, side, price);
    }
    if withIds {
      RowIndexed(s, rows);
    }
  }

  lemma RowIndexed(s: State, rows: seq<Row>)
    requires rows != [] && IndexMade(s, rows, |rows| - 1) && s.clock == |rows| - 1
    requires rows[|rows| - 1].id !in s.info
    ensures IndexMade(SeedRow(s, rows[|rows| - 1], true), rows, |rows|)
  {
    var k := |rows| - 1;
    var s' := SeedRow(s, rows[k], true);
    forall id ensures id in s'.info <==> exists i :: 0 <= i < k + 1 && rows[i].id == id {
      assert id in s.info <==> exists i :: 0 <= i < k && rows[i].id == id;
      if id == rows[k].id {
        assert rows[k].id == id;
      }
    }
  }

  lemma {:induction false} RowsNext(rows: seq<Row>, side: Side, price: int)
    requires rows != []
    ensures var last := |rows| - 1;
            var here := rows[last].side == side && rows[last].price == price;
            && RowsAt(rows, side, price)
               == RowsAt(rows[..last], side, price)
                  + (if here then [Order(rows[last].id, rows[last].qty, Historical, last)] else [])
            && (HasRow(rows, side, price) <==> HasRow(rows[..last], side, price) || here)
  {
    var last := |rows| - 1;
    if HasRow(rows, side, price) && !(rows[last].side == side && rows[last].price == price) {
      var i :| 0 <= i < |rows| && rows[i].side == side && rows[i].price == price;
      assert rows[..last][i] == rows[i];
    }
    if HasRow(rows[..last], side, price) {
      var i :| 0 <= i < last && rows[..last][i].side == side && rows[..last][i].price == price;
      assert rows[i].side == side;
    }
  }

  /** A single order that finds no node leaves no more than a level. */
  lemma LevelLeft(s: State, seq_: nat, rows: seq<Row>, k: nat, row: Row)
    requires k <= |rows| && Made(s, seq_, rows, k, true)
    ensures Made(LeaveLevel(s, row), seq_, rows, k, true)
  {
    hide RowsAt, IndexMade;
    var s' := LeaveLevel(s, row);
    forall side, price ensures QueueAt(s'.hist, side, price) == QueueAt(s.hist, side, price) {
    }
    IndexStays(s, s', rows, k);
  }

  lemma IndexStays(s: State, s': State, rows: seq<Row>, k: nat)
    requires k <= |rows| && s'.info == s.info
    ensures IndexMade(s, rows, k) ==> IndexMade(s', rows, k)
  {
  }

  /** The orders of the rows that find a node are in the book of an accepted snapshot, each at its place. */
  lemma {:induction false} RowsInBook(caps: Caps, seq_: nat, rows: seq<Row>, withIds: bool)
    requires Seeded(caps, seq_, rows, withIds).1
    ensures forall i :: 0 <= i < |rows| && i < caps.historical ==>
              Order(rows[i].id, rows[i].qty, Historical, i)
              in QueueAt(Seeded(caps, seq_, rows, withIds).0.hist, rows[i].side, rows[i].price)
  {
    hide Seeded, RowsAt;
    AcceptedExactly(caps, seq_, rows, withIds);
    var k := Min(|rows|, caps.historical);
    forall i | 0 <= i < |rows| && i < caps.historical
      ensures Order(rows[i].id, rows[i].qty, Historical, i)
           in QueueAt(Seeded(caps, seq_, rows, withIds).0.hist, rows[i].side, rows[i].price)
    {
      assert rows[..k][i] == rows[i];
      RowQueued(rows[..k], i);
    }
  }

  // ---- the lists of the initialisers --------------------------------------------------------

  lemma {:induction false} L2RowsSeeded(caps: Caps, seq_: nat, sides: seq<Side>, prices: seq<int>, quantities: seq<int>)
    requires |sides| == |prices| == |quantities|
    ensures var r := Seeded(caps, seq_, L2Rows(sides, prices, quantities), false);
            && (!r.1 <==> exists i, j ::
                  0 <= j < i < |sides| && j < caps.historical && sides[i] == sides[j] && prices[i] == prices[j])
            && (r.1 ==> forall i :: 0 <= i < |sides| && i < caps.historical ==>
                  Order(UNKNOWN_ID, quantities[i], Historical, i) in QueueAt(r.0.hist, sides[i], prices[i]))
  {
    hide Seeded;
    var rows := L2Rows(sides, prices, quantities);
    AcceptedExactly(caps, seq_, rows, false);
    forall i, j | 0 <= j < i < |sides| && j < caps.historical
      ensures Repeats(rows[i], rows[j], false) <==> sides[i] == sides[j] && prices[i] == prices[j]
    {
    }
    if Seeded(caps, seq_, rows, false).1 {
      RowsInBook(caps, seq_, rows, false);
    }
  }

  lemma {:induction false} L3RowsSeeded(caps: Caps, seq_: nat, sides: seq<Side>, prices: seq<int>, quantities: seq<int>,
                                        ids: seq<int>)
    requires |sides| == |prices| == |quantities| == |ids|
    ensures var r := Seeded(caps, seq_, L3Rows(sides, prices, quantities, ids), true);
            && (!r.1 <==> exists i, j :: 0 <= j < i < |sides| && j < caps.historical && ids[i] == ids[j])
            && (r.1 ==> forall i :: 0 <= i < |sides| && i < caps.historical ==>
                  Order(ids[i], quantities[i], Historical, i) in QueueAt(r.0.hist, sides[i], prices[i]))
  {
    hide Seeded;
    var rows := L3Rows(sides, prices, quantities, ids);
    AcceptedExactly(caps, seq_, rows, true);
    forall i, j | 0 <= j < i < |sides| && j < caps.historical
      ensures Repeats(rows[i], rows[j], true) <==> ids[i] == ids[j]
    {
    }
    if Seeded(caps, seq_, rows, true).1 {
      RowsInBook(caps, seq_, rows, true);
    }
  }
}
