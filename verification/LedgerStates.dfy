/**
 * The life of a ledger entry, field by field: what each record does to each entry, which numbers and
 * states occur at all, and what ends an order. All of it holds for any records whatever, also for
 * reports that no engine makes.
 */
module LedgerStates {
  import opened Types
  import opened Ledger

  // ---- one record ---------------------------------------------------------------------------

  /** A fill names a strategy order as its maker. */
  predicate Makes(f: Fill, id: int) {
    f.makerSource == Strategy && f.makerId == id && id != UNKNOWN_ID
  }

  predicate Takes(f: Fill, id: int) {
    f.takerSource == Strategy && f.takerId == id && id != UNKNOWN_ID
  }

  /** The lots of a fill that an order gets; it may be on both ends. */
  function LotsGot(f: Fill, id: int): nat {
    (if Makes(f, id) then Max(f.qty, 0) else 0) + (if Takes(f, id) then Max(f.qty, 0) else 0)
  }

  /**
   * A fill: a cancelled entry ignores it. Any other entry that it names logs it, as maker before as
   * taker, and with its lots gets them off its remainder; the last of them make it FullyFilled.
   */
  lemma FillTold(ledger: Orders, f: Fill, id: int)
    requires id in ledger && Lived(id, ledger[id])
    ensures OnRecord(ledger, Filled(f)).Keys == ledger.Keys
    ensures var b := ledger[id];
            var s := b.state;
            var a := OnRecord(ledger, Filled(f))[id];
            var lots := LotsGot(f, id);
            if s.status == Cancelled then a == b
            else
              && a.fills == b.fills + (if Makes(f, id) then [OrderFill(f.seq_, f.price, f.qty, Maker)] else [])
                            + (if Takes(f, id) then [OrderFill(f.seq_, f.price, f.qty, Taker)] else [])
              && (lots == 0 ==> a.state == s)
              && (lots > 0 ==>
                    a.state == OrderState(s.id, s.side, s.price, s.initial, Max(s.remaining - lots, 0), s.filled + lots,
                                          if s.remaining <= lots then FullyFilled else PartiallyFilled,
                                          s.created, f.seq_))
  {
    var b := ledger[id];
    assert b.fills + [] == b.fills;
    if Makes(f, id) {
      var m := Filled1(b, Maker, f);
      assert m.fills + [] == m.fills || b.state.status == Cancelled;
    }
  }

  /**
   * An applied event: one from the feed, a trade and a refused one change nothing; any other one
   * touches the entry of its own id only. An ADD opens it, a SUBTRACT, SET or DELETE reaches it as
   * long as it is live, and what they take to no lots is Cancelled.
   */
  lemma AppliedTold(ledger: Orders, n: nat, e: Event)
    requires LivedAll(ledger)
    ensures var after := OnRecord(ledger, Applied(n, e));
            if e.source != Strategy || e.kind == Match || e.kind == AggressiveTrade then after == ledger
            else if e.kind == Add then
              after == if e.qty <= 0 || e.id in ledger then ledger
                       else ledger[e.id := Entry(OrderState(e.id, e.side, e.price, e.qty, e.qty, 0, Open, n, n), [])]
            else if e.id !in ledger then after == ledger
            else
              var s := ledger[e.id].state;
              if s.status == FullyFilled || (s.status == Cancelled && e.kind != Delete)
                 || (e.kind == Subtract && e.qty < 0)
              then after == ledger
              else
                var left := if e.kind == Delete then 0
                            else if e.kind == Set then Max(e.qty, 0) else Max(s.remaining - e.qty, 0);
                var initial := if e.kind == Set then Max(s.initial, s.filled + left) else s.initial;
                var status := if left == 0 then Cancelled else if s.filled == 0 then Open else PartiallyFilled;
                after == ledger[e.id := Entry(
                  OrderState(s.id, s.side, s.price, initial, left, s.filled, status, s.created, n),
                  ledger[e.id].fills)]
  {
    if e.id in ledger {
      var b := ledger[e.id];
      assert Lived(e.id, b);
      assert ledger[e.id := b] == ledger;
    }
  }

  // ---- every replay -------------------------------------------------------------------------

  /**
   * What every entry is like in every replay: it is Open, or PartiallyFilled, exactly while it has
   * lots left and has none, or some, filled. No entry is ever Rejected.
   */
  ghost predicate Lived(id: int, e: Entry) {
    var s := e.state;
    && s.id == id && s.filled == FilledLots(e.fills) && s.filled >= 0 && s.remaining >= 0
    && (s.status == Open <==> s.remaining > 0 && s.filled == 0)
    && (s.status == PartiallyFilled <==> s.remaining > 0 && s.filled > 0)
    && (s.status == FullyFilled ==> s.filled > 0)
    && s.status != Rejected
  }

  ghost predicate LivedAll(ledger: Orders) {
    forall id :: id in ledger ==> Lived(id, ledger[id])
  }

  lemma RecordLives(ledger: Orders, r: Record)
    requires LivedAll(ledger)
    ensures LivedAll(OnRecord(ledger, r))
  {
    if r.Filled? {
      forall id | id in OnRecord(ledger, r) ensures Lived(id, OnRecord(ledger, r)[id]) {
        assert Lived(id, ledger[id]);
        FillLives(ledger, r.fill, id);
      }
    } else {
      AppliedTold(ledger, r.seq_, r.event);
      assert LivedAll(ledger);
    }
  }

  lemma FillLives(ledger: Orders, f: Fill, id: int)
    requires id in ledger && Lived(id, ledger[id])
    ensures id in OnRecord(ledger, Filled(f)) && Lived(id, OnRecord(ledger, Filled(f))[id])
  {
    FillTold(ledger, f, id);
    LoggedLots(ledger[id].fills, f, id);
  }

  lemma {:induction false} LoggedLots(fills: seq<OrderFill>, f: Fill, id: int)
    ensures FilledLots(fills + (if Makes(f, id) then [OrderFill(f.seq_, f.price, f.qty, Maker)] else [])
                       + (if Takes(f, id) then [OrderFill(f.seq_, f.price, f.qty, Taker)] else []))
         == FilledLots(fills) + LotsGot(f, id)
  {
    var made := fills + (if Makes(f, id) then [OrderFill(f.seq_, f.price, f.qty, Maker)] else []);
    var taken := made + (if Takes(f, id) then [OrderFill(f.seq_, f.price, f.qty, Taker)] else []);
    assert if Makes(f, id) then made[..|made| - 1] == fills else made == fills;
    assert if Takes(f, id) then taken[..|taken| - 1] == made else taken == made;
  }

  /** The ledger after a list of records, from an empty one. */
  function After(records: seq<Record>): Orders {
    Replay(map[], records)
  }

  lemma AfterNext(records: seq<Record>)
    requires records != []
    ensures var last := |records| - 1;
            After(records) == OnRecord(After(records[..last]), records[last])
  {
    var last := |records| - 1;
    assert records == records[..last] + [records[last]];
    ReplayConcat(map[], records[..last], [records[last]]);
    assert Replay(After(records[..last]), [records[last]])
        == Replay(OnRecord(After(records[..last]), records[last]), []);
  }

  lemma {:induction false} ReplayLives(records: seq<Record>)
    ensures LivedAll(After(records))
    decreases |records|
  {
    hide LivedAll, OnRecord, Replay;
    if records != [] {
      var last := |records| - 1;
      ReplayLives(records[..last]);
      AfterNext(records);
      RecordLives(After(records[..last]), records[last]);
    } else {
      EmptyLives();
    }
  }

  lemma EmptyLives()
    ensures LivedAll(After([]))
  {
  }

  // ---- what ends an order -------------------------------------------------------------------

  /** A strategy event takes all lots of a live entry. */
  predicate Ends(e: Event, id: int, remaining: int) {
    && e.source == Strategy && e.id == id
    && (e.kind == Delete || (e.kind == Set && e.qty <= 0) || (e.kind == Subtract && e.qty >= remaining))
  }

  /**
   * One record and a live entry: it becomes FullyFilled if and only if the record is a fill with at
   * least its remaining lots, and Cancelled if and only if it is an event that takes them all.
   */
  lemma EndsExactly(ledger: Orders, r: Record, id: int)
    requires LivedAll(ledger) && id in ledger && Live(ledger[id])
    ensures id in OnRecord(ledger, r)
    ensures OnRecord(ledger, r)[id].state.status == FullyFilled
       <==> r.Filled? && LotsGot(r.fill, id) >= ledger[id].state.remaining
    ensures OnRecord(ledger, r)[id].state.status == Cancelled
       <==> r.Applied? && Ends(r.event, id, ledger[id].state.remaining)
  {
    assert Lived(id, ledger[id]);
    if r.Filled? {
      FillTold(ledger, r.fill, id);
    } else {
      AppliedTold(ledger, r.seq_, r.event);
    }
  }

  /** An entry that has ended stays, with its status. */
  lemma EndStays(ledger: Orders, r: Record, id: int)
    requires LivedAll(ledger) && id in ledger && !Live(ledger[id])
    ensures id in OnRecord(ledger, r)
    ensures OnRecord(ledger, r)[id].state.status == ledger[id].state.status
  {
    assert Lived(id, ledger[id]);
    FinalStays(ledger, r, id);
  }

  lemma BornLive(ledger: Orders, r: Record, id: int)
    requires LivedAll(ledger) && id !in ledger && id in OnRecord(ledger, r)
    ensures Live(OnRecord(ledger, r)[id])
  {
  }

  /** Record `k` found the entry live and left it with this status, as it must. */
  ghost predicate EndedAt(records: seq<Record>, id: int, k: nat, status: PaperStatus)
    requires k < |records|
  {
    && id in After(records[..k]) && Live(After(records[..k])[id])
    && var remaining := After(records[..k])[id].state.remaining;
       if records[k].Filled? then status == FullyFilled && LotsGot(records[k].fill, id) >= remaining
       else status == Cancelled && Ends(records[k].event, id, remaining)
  }

  /**
   * Every entry that is not live was ended by one record: a fill of its last lots made it
   * FullyFilled, an event that took them made it Cancelled. It has had that status ever since.
   */
  lemma {:induction false} EndedBy(records: seq<Record>, id: int) returns (k: nat)
    requires id in After(records) && !Live(After(records)[id])
    ensures k < |records| && EndedAt(records, id, k, After(records)[id].state.status)
    ensures forall j :: k < j <= |records| ==>
              id in After(records[..j]) && After(records[..j])[id].state.status == After(records)[id].state.status
    decreases |records|
  {
    hide LivedAll, OnRecord, After, Live, Ends, LotsGot;
    if records == [] {
      NothingAfterNothing(id);
    } else {
      var last := |records| - 1;
      var before := After(records[..last]);
      AfterNext(records);
      ReplayLives(records[..last]);
      if id in before && !Live(before[id]) {
        EndStays(before, records[last], id);
        k := EndedBy(records[..last], id);
        assert records[..last][..k] == records[..k];
        forall j | k < j <= |records|
          ensures id in After(records[..j]) && After(records[..j])[id].state.status == After(records)[id].state.status
        {
          assert if j <= last then records[..last][..j] == records[..j] else records[..j] == records;
        }
      } else if id in before {
        k := last;
        EndsExactly(before, records[last], id);
        ReplayLives(records);
        NeverRejected(After(records), id);
        assert records[..|records|] == records;
      } else {
        BornLive(before, records[last], id);
      }
    }
  }

  lemma NothingAfterNothing(id: int)
    ensures id !in After([])
  {
  }

  lemma NeverRejected(ledger: Orders, id: int)
    requires LivedAll(ledger) && id in ledger && !Live(ledger[id])
    ensures ledger[id].state.status == FullyFilled || ledger[id].state.status == Cancelled
  {
    assert Lived(id, ledger[id]);
  }
}
