/**
 * The sink's ledger of strategy orders: a state machine that sees only the engine's report of
 * applied events and fills.
 */
module Ledger {
  import opened Types

  datatype Role = Maker | Taker

  datatype OrderFill = OrderFill(seq_: nat, price: int, qty: int, role: Role)

  datatype OrderState = OrderState(
    id: int, side: Side, price: int,
    initial: int, remaining: int, filled: int,
    status: PaperStatus, created: nat, updated: nat)

  datatype Entry = Entry(state: OrderState, fills: seq<OrderFill>)

  type Orders = map<int, Entry>

  predicate Live(e: Entry) {
    e.state.status == Open || e.state.status == PartiallyFilled
  }

  predicate Final(status: PaperStatus) {
    status == FullyFilled || status == Cancelled || status == Rejected
  }

  /** A fill reaches an entry. */
  function Filled1(e: Entry, role: Role, f: Fill): Entry {
    if e.state.status == Cancelled || e.state.status == Rejected then e
    else
      var logged := e.(fills := e.fills + [OrderFill(f.seq_, f.price, f.qty, role)]);
      if f.qty <= 0 then logged
      else
        var remaining := Max(e.state.remaining - f.qty, 0);
        logged.(state := e.state.(
          filled := e.state.filled + f.qty,
          remaining := remaining,
          status := if remaining == 0 then FullyFilled else PartiallyFilled,
          updated := f.seq_))
  }

  function ApplyStrategyFill(ledger: Orders, id: int, source: Source, role: Role, f: Fill): Orders {
    if source != Strategy || id == UNKNOWN_ID || id !in ledger then ledger
    else ledger[id := Filled1(ledger[id], role, f)]
  }

  function ApplyFill(ledger: Orders, f: Fill): Orders {
    ApplyStrategyFill(ApplyStrategyFill(ledger, f.makerId, f.makerSource, Maker, f), f.takerId, f.takerSource, Taker, f)
  }

  /** Strategy events the ledger refuses. */
  predicate Refused(ledger: Orders, e: Event) {
    && e.source == Strategy
    && (|| (e.kind == Add && (e.qty <= 0 || e.id in ledger))
        || (e.kind == Subtract && e.qty < 0))
  }

  function Opened(seq_: nat, e: Event): Entry {
    Entry(OrderState(e.id, e.side, e.price, e.qty, e.qty, 0, Open, seq_, seq_), [])
  }

  function Subtracted(e: Entry, seq_: nat, qty: int): Entry {
    if Final(e.state.status) then e
    else if qty == 0 then e.(state := e.state.(updated := seq_))
    else
      var remaining := e.state.remaining - Min(e.state.remaining, qty);
      e.(state := e.state.(
        remaining := remaining,
        status := if remaining == 0 then Cancelled else e.state.status,
        updated := seq_))
  }

  function Reset(e: Entry, seq_: nat, qty: int): Entry {
    if Final(e.state.status) then e
    else
      var remaining := if qty < 0 then 0 else qty;
      var total := e.state.filled + remaining;
      e.(state := e.state.(
        remaining := remaining,
        initial := if total > e.state.initial then total else e.state.initial,
        status := if remaining == 0 then Cancelled else if e.state.filled > 0 then PartiallyFilled else Open,
        updated := seq_))
  }

  function Deleted(e: Entry, seq_: nat): Entry {
    if e.state.status == FullyFilled then e
    else e.(state := e.state.(remaining := 0, status := Cancelled, updated := seq_))
  }

  function UpdateStrategyOrder(ledger: Orders, seq_: nat, e: Event): Orders {
    if e.source != Strategy || Refused(ledger, e) then ledger
    else match e.kind {
      case Add => ledger[e.id := Opened(seq_, e)]
      case Subtract => if e.id in ledger then ledger[e.id := Subtracted(ledger[e.id], seq_, e.qty)] else ledger
      case Set => if e.id in ledger then ledger[e.id := Reset(ledger[e.id], seq_, e.qty)] else ledger
      case Delete => if e.id in ledger then ledger[e.id := Deleted(ledger[e.id], seq_)] else ledger
      case Match => ledger
      case AggressiveTrade => ledger
    }
  }

  function OnRecord(ledger: Orders, r: Record): Orders {
    match r
    case Applied(seq_, e) => UpdateStrategyOrder(ledger, seq_, e)
    case Filled(f) => ApplyFill(ledger, f)
  }

  /** The ledger after a whole report. */
  function Replay(ledger: Orders, records: seq<Record>): Orders
    decreases |records|
  {
    if records == [] then ledger else Replay(OnRecord(ledger, records[0]), records[1..])
  }

  lemma {:induction false} ReplayConcat(ledger: Orders, a: seq<Record>, b: seq<Record>)
    ensures Replay(ledger, a + b) == Replay(Replay(ledger, a), b)
    decreases |a|
  {
    if a == [] {
      assert a + b == b;
    } else {
      assert (a + b)[1..] == a[1..] + b;
      ReplayConcat(OnRecord(ledger, a[0]), a[1..], b);
    }
  }

  // ---- what every record keeps --------------------------------------------------------------

  function FilledLots(fills: seq<OrderFill>): int {
    if fills == [] then 0
    else FilledLots(fills[..|fills| - 1]) + Max(fills[|fills| - 1].qty, 0)
  }

  /** An entry's numbers fit together; only a live entry has lots left. */
  ghost predicate EntryOk(id: int, e: Entry) {
    var s := e.state;
    && s.id == id
    && s.filled == FilledLots(e.fills)
    && s.filled >= 0
    && s.filled + s.remaining <= s.initial
    && (if Live(e) then s.remaining > 0 else s.remaining == 0)
  }

  ghost predicate LedgerOk(ledger: Orders) {
    forall id :: id in ledger ==> EntryOk(id, ledger[id])
  }

  lemma Filled1Ok(id: int, e: Entry, role: Role, f: Fill)
    requires EntryOk(id, e)
    requires e.state.status == FullyFilled ==> f.qty <= 0
    requires Live(e) ==> f.qty <= e.state.remaining
    ensures EntryOk(id, Filled1(e, role, f))
  {
    var fill := OrderFill(f.seq_, f.price, f.qty, role);
    var fills := e.fills + [fill];
    assert fills[..|fills| - 1] == e.fills;
  }

  lemma UpdateOk(ledger: Orders, seq_: nat, e: Event)
    requires LedgerOk(ledger)
    ensures LedgerOk(UpdateStrategyOrder(ledger, seq_, e))
  {
  }

  /** FILLED and CANCELLED are absorbing, whatever the report says. */
  lemma FinalStays(ledger: Orders, r: Record, id: int)
    requires id in ledger && Final(ledger[id].state.status) && ledger[id].state.remaining == 0
    ensures id in OnRecord(ledger, r)
    ensures OnRecord(ledger, r)[id].state.status == ledger[id].state.status
         || (ledger[id].state.status == Rejected && OnRecord(ledger, r)[id].state.status == Cancelled)
    ensures OnRecord(ledger, r)[id].state.remaining == 0
  {
  }

  lemma {:induction false} FinalForever(ledger: Orders, records: seq<Record>, id: int)
    requires id in ledger && ledger[id].state.remaining == 0
    requires ledger[id].state.status == FullyFilled || ledger[id].state.status == Cancelled
    ensures var after := Replay(ledger, records);
            id in after && after[id].state.status == ledger[id].state.status && after[id].state.remaining == 0
    decreases |records|
  {
    if records != [] {
      FinalStays(ledger, records[0], id);
      FinalForever(OnRecord(ledger, records[0]), records[1..], id);
    }
  }

  /** The in-memory sink. */
  class InMemoryLogSink {
    var fills: seq<Fill>
    var events: seq<Record>
    var ledger: Orders
    var rejected: seq<Record>
    ghost var seen: seq<Record>

    /** The ledger is the replay of everything seen since the last reset. */
    ghost predicate Valid()
      reads this
    {
      ledger == Replay(map[], seen)
    }

    constructor ()
      ensures Valid() && ledger == map[] && fills == [] && events == [] && rejected == [] && seen == []
    {
      fills, events, ledger, rejected, seen := [], [], map[], [], [];
    }

    method OnFill(f: Fill)
      requires Valid()
      modifies this
      ensures Valid() && seen == old(seen) + [Filled(f)]
      ensures ledger == ApplyFill(old(ledger), f)
      ensures fills == old(fills) + [f] && events == old(events) && rejected == old(rejected)
    {
      fills := fills + [f];
      ApplyTo(f.makerId, f.makerSource, Maker, f);
      ApplyTo(f.takerId, f.takerSource, Taker, f);
      ReplayConcat(map[], seen, [Filled(f)]);
      assert Replay(old(ledger), [Filled(f)]) == ledger;
      seen := seen + [Filled(f)];
    }

    method ApplyTo(id: int, source: Source, role: Role, f: Fill)
      modifies this`ledger
      ensures ledger == ApplyStrategyFill(old(ledger), id, source, role, f)
    {
      if source != Strategy {
        return;
      }
      if id == UNKNOWN_ID {
        return;
      }
      if id !in ledger {
        return;
      }
      var entry := ledger[id];
      var state := entry.state;
      if state.status == Cancelled || state.status == Rejected {
        return;
      }
      entry := entry.(fills := entry.fills + [OrderFill(f.seq_, f.price, f.qty, role)]);
      if f.qty > 0 {
        state := state.(filled := state.filled + f.qty, remaining := Max(state.remaining - f.qty, 0));
        state := state.(status := if state.remaining == 0 then FullyFilled else PartiallyFilled, updated := f.seq_);
        entry := entry.(state := state);
      }
      ledger := ledger[id := entry];
    }

    method OnEventApply(seq_: nat, e: Event)
      requires Valid()
      modifies this
      ensures Valid() && seen == old(seen) + [Applied(seq_, e)]
      ensures ledger == UpdateStrategyOrder(old(ledger), seq_, e)
      ensures fills == old(fills) && events == old(events) + [Applied(seq_, e)]
      ensures rejected
           == old(rejected) + if && e.source == Strategy
                                 && (|| (e.kind == Add && (e.qty <= 0 || e.id in old(ledger)))
                                     || (e.kind == Subtract && e.qty < 0))
                              then [Applied(seq_, e)] else []
    {
      events := events + [Applied(seq_, e)];
      UpdateOrder(seq_, e);
      ReplayConcat(map[], seen, [Applied(seq_, e)]);
      assert Replay(old(ledger), [Applied(seq_, e)]) == ledger;
      seen := seen + [Applied(seq_, e)];
    }

    method UpdateOrder(seq_: nat, e: Event)
      modifies this`ledger, this`rejected
      ensures ledger == UpdateStrategyOrder(old(ledger), seq_, e)
      ensures rejected == old(rejected) + if Refused(old(ledger), e) then [Applied(seq_, e)] else []
    {
      if e.source != Strategy {
        return;
      }
      match e.kind {
        case Add =>
          if e.qty <= 0 || e.id in ledger {
            rejected := rejected + [Applied(seq_, e)];
            return;
          }
          ledger := ledger[e.id := Opened(seq_, e)];
        case Subtract =>
          if e.qty < 0 {
            rejected := rejected + [Applied(seq_, e)];
            return;
          }
          if e.id in ledger {
            Subtract1(seq_, e.id, e.qty);
          }
        case Set =>
          if e.id in ledger {
            Set1(seq_, e.id, e.qty);
          }
        case Delete =>
          if e.id in ledger {
            var state := ledger[e.id].state;
            if state.status != FullyFilled {
              state := state.(remaining := 0, status := Cancelled, updated := seq_);
              ledger := ledger[e.id := ledger[e.id].(state := state)];
            }
          }
        case Match =>
        case AggressiveTrade =>
      }
    }

    method Subtract1(seq_: nat, id: int, qty: int)
      requires id in ledger
      modifies this`ledger
      ensures ledger == old(ledger)[id := Subtracted(old(ledger)[id], seq_, qty)]
    {
      var state := ledger[id].state;
      if state.status == FullyFilled || state.status == Cancelled || state.status == Rejected {
        return;
      }
      if qty != 0 {
        var take := Min(state.remaining, qty);
        state := state.(remaining := state.remaining - take);
        if state.remaining == 0 {
          state := state.(status := Cancelled);
        }
      }
      ledger := ledger[id := ledger[id].(state := state.(updated := seq_))];
    }

    method Set1(seq_: nat, id: int, qty: int)
      requires id in ledger
      modifies this`ledger
      ensures ledger == old(ledger)[id := Reset(old(ledger)[id], seq_, qty)]
    {
      var state := ledger[id].state;
      if state.status == FullyFilled || state.status == Cancelled || state.status == Rejected {
        return;
      }
      state := state.(remaining := if qty < 0 then 0 else qty);
      var total := state.filled + state.remaining;
      if total > state.initial {
        state := state.(initial := total);
      }
      if state.remaining == 0 {
        state := state.(status := Cancelled);
      } else if state.filled > 0 {
        state := state.(status := PartiallyFilled);
      } else {
        state := state.(status := Open);
      }
      ledger := ledger[id := ledger[id].(state := state.(updated := seq_))];
    }

    method DrainFills() returns (out: seq<Fill>)
      requires Valid()
      modifies this`fills
      ensures Valid() && out == old(fills) && fills == []
    {
      out := fills;
      fills := [];
    }

    method ResetAll()
      modifies this
      ensures Valid() && ledger == map[] && fills == [] && events == [] && rejected == [] && seen == []
    {
      fills, events, ledger, rejected, seen := [], [], map[], [], [];
    }
  }
}
