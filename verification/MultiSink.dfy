/** The sink shared by many books: global logs with per-book indices, and a ledger for every book. */
module MultiSink {
  import opened Types
  import opened Ledger

  datatype Tagged<T> = Tagged(book: string, body: T)

  datatype EventApplied = EventApplied(seq_: nat, event: Event)

  type Index = map<string, seq<nat>>

  function Get<T>(m: map<string, seq<T>>, key: string): seq<T> {
    if key in m then m[key] else []
  }

  function LedgerOf(ledgers: map<string, Orders>, key: string): Orders {
    if key in ledgers then ledgers[key] else map[]
  }

  /** A book's own view of a log. */
  function Projected<T>(log: seq<Tagged<T>>, key: string): seq<T> {
    if log == [] then []
    else
      var last := |log| - 1;
      Projected(log[..last], key) + if log[last].book == key then [log[last].body] else []
  }

  /** Where a book's records are in a log. */
  function Positions<T>(log: seq<Tagged<T>>, key: string): (r: seq<nat>)
    ensures forall i :: 0 <= i < |r| ==> r[i] < |log|
  {
    if log == [] then []
    else
      var last := |log| - 1;
      Positions(log[..last], key) + if log[last].book == key then [last] else []
  }

  ghost predicate IndexOk<T>(log: seq<Tagged<T>>, index: Index) {
    forall key :: Get(index, key) == Positions(log, key)
  }

  lemma IndexNext<T>(log: seq<Tagged<T>>, index: Index, r: Tagged<T>)
    requires IndexOk(log, index)
    ensures IndexOk(log + [r], index[r.book := Get(index, r.book) + [|log|]])
  {
    var index' := index[r.book := Get(index, r.book) + [|log|]];
    forall key ensures Get(index', key) == Positions(log + [r], key) {
      assert (log + [r])[..|log|] == log;
      assert Get(index, key) == Positions(log, key);
    }
  }

  lemma {:induction false} ProjectedNext<T>(log: seq<Tagged<T>>, r: Tagged<T>, key: string)
    ensures Projected(log + [r], key) == Projected(log, key) + if r.book == key then [r.body] else []
  {
    assert (log + [r])[..|log|] == log;
  }

  /** Reading a log at a book's positions gives the book's projection. */
  lemma {:induction false} PositionsProject<T>(log: seq<Tagged<T>>, whole: seq<Tagged<T>>, key: string)
    requires log <= whole
    ensures var p := Positions(log, key);
            Projected(log, key) == seq(|p|, i requires 0 <= i < |p| => whole[p[i]].body)
  {
    if log != [] {
      PositionsProject(log[..|log| - 1], whole, key);
    }
  }

  /** Collects the records at the given positions. */
  method Collect<T>(log: seq<Tagged<T>>, index: Index, key: string) returns (out: seq<T>)
    requires IndexOk(log, index)
    ensures out == Projected(log, key)
  {
    PositionsProject(log, log, key);
    if key !in index {
      assert Get(index, key) == [];
      return [];
    }
    var positions := index[key];
    assert positions == Get(index, key) == Positions(log, key);
    out := [];
    for i := 0 to |positions|
      invariant out == seq(i, j requires 0 <= j < i => log[positions[j]].body)
    {
      out := out + [log[positions[i]].body];
    }
  }

  /** What a ledger refuses of a record. */
  function Refusal(ledger: Orders, r: Record): seq<EventApplied> {
    match r
    case Applied(n, e) => if Refused(ledger, e) then [EventApplied(n, e)] else []
    case Filled(_) => []
  }

  /** What the ledger of a book refuses of its records. */
  function RejectedOf(records: seq<Record>): seq<EventApplied> {
    if records == [] then []
    else
      var last := |records| - 1;
      RejectedOf(records[..last]) + Refusal(Replay(map[], records[..last]), records[last])
  }

  lemma {:induction false} ReplayNext(records: seq<Record>, r: Record)
    ensures Replay(map[], records + [r]) == OnRecord(Replay(map[], records), r)
  {
    ReplayConcat(map[], records, [r]);
    assert Replay(Replay(map[], records), [r]) == Replay(OnRecord(Replay(map[], records), r), []);
  }

  lemma {:induction false} RejectedNext(records: seq<Record>, r: Record)
    ensures RejectedOf(records + [r]) == RejectedOf(records) + Refusal(Replay(map[], records), r)
  {
    assert (records + [r])[..|records|] == records;
  }

  /** One more record: the book it is for replays it, the others do not see it. */
  lemma {:induction false} SeenNext(seen: seq<Tagged<Record>>, r: Tagged<Record>, key: string)
    ensures Replay(map[], Projected(seen + [r], key))
         == if r.book == key then OnRecord(Replay(map[], Projected(seen, key)), r.body)
            else Replay(map[], Projected(seen, key))
    ensures RejectedOf(Projected(seen + [r], key))
         == RejectedOf(Projected(seen, key))
            + if r.book == key then Refusal(Replay(map[], Projected(seen, key)), r.body) else []
  {
    ProjectedNext(seen, r, key);
    var before := Projected(seen, key);
    if r.book == key {
      ReplayNext(before, r.body);
      RejectedNext(before, r.body);
    } else {
      assert before + [] == before;
      assert RejectedOf(before) + [] == RejectedOf(before);
    }
  }

  /** Each book's ledger is that of a single-book sink that had only this book's records. */
  ghost predicate LedgersOk(ledgers: map<string, Orders>, rejected: map<string, seq<EventApplied>>,
                            seen: seq<Tagged<Record>>) {
    forall key ::
      && LedgerOf(ledgers, key) == Replay(map[], Projected(seen, key))
      && Get(rejected, key) == RejectedOf(Projected(seen, key))
  }

  /** The ledgers have followed one more record. */
  ghost predicate Followed(ledgers: map<string, Orders>, ledgers': map<string, Orders>,
                           rejected: map<string, seq<EventApplied>>, rejected': map<string, seq<EventApplied>>,
                           r: Tagged<Record>) {
    forall key ::
      && LedgerOf(ledgers', key) == (if key == r.book then OnRecord(LedgerOf(ledgers, key), r.body)
                                     else LedgerOf(ledgers, key))
      && Get(rejected', key)
       == Get(rejected, key) + if key == r.book then Refusal(LedgerOf(ledgers, key), r.body) else []
  }

  lemma LedgersNext(ledgers: map<string, Orders>, ledgers': map<string, Orders>,
                    rejected: map<string, seq<EventApplied>>, rejected': map<string, seq<EventApplied>>,
                    seen: seq<Tagged<Record>>, r: Tagged<Record>)
    requires LedgersOk(ledgers, rejected, seen) && Followed(ledgers, ledgers', rejected, rejected', r)
    ensures LedgersOk(ledgers', rejected', seen + [r])
  {
    forall key ensures LedgerOf(ledgers', key) == Replay(map[], Projected(seen + [r], key))
                    && Get(rejected', key) == RejectedOf(Projected(seen + [r], key)) {
      SeenNext(seen, r, key);
      assert LedgerOf(ledgers, key) == Replay(map[], Projected(seen, key));
    }
  }

  class InMemoryMultiLogSink {
    var fills: seq<Tagged<Fill>>
    var events: seq<Tagged<EventApplied>>
    var diagnostics: seq<Tagged<int>>
    var fillIndex: Index
    var eventIndex: Index
    var diagIndex: Index
    var paperLedger: map<string, Orders>
    var rejected: map<string, seq<EventApplied>>
    /** Everything recorded since the last reset, drained or not. */
    ghost var seen: seq<Tagged<Record>>

    ghost predicate Valid()
      reads this
    {
      && IndexOk(fills, fillIndex) && IndexOk(events, eventIndex) && IndexOk(diagnostics, diagIndex)
      && LedgersOk(paperLedger, rejected, seen)
    }

    constructor ()
      ensures Valid() && fills == [] && events == [] && diagnostics == [] && seen == []
    {
      fills, events, diagnostics := [], [], [];
      fillIndex, eventIndex, diagIndex := map[], map[], map[];
      paperLedger, rejected, seen := map[], map[], [];
    }

    method OnFill(r: Tagged<Fill>)
      requires Valid()
      modifies this
      ensures Valid() && seen == old(seen) + [Tagged(r.book, Filled(r.body))]
      ensures fills == old(fills) + [r] && events == old(events) && diagnostics == old(diagnostics)
    {
      hide IndexOk, LedgersOk;
      LogFill(r);
      RecordFill(r.book, r.body);
    }

    method LogFill(r: Tagged<Fill>)
      requires IndexOk(fills, fillIndex)
      modifies this`fills, this`fillIndex
      ensures IndexOk(fills, fillIndex) && fills == old(fills) + [r]
    {
      IndexNext(fills, fillIndex, r);
      fillIndex := fillIndex[r.book := Get(fillIndex, r.book) + [|fills|]];
      fills := fills + [r];
    }

    /** The fill reaches its maker and its taker. */
    method RecordFill(book: string, f: Fill)
      requires LedgersOk(paperLedger, rejected, seen)
      modifies this`paperLedger, this`seen
      ensures LedgersOk(paperLedger, rejected, seen) && seen == old(seen) + [Tagged(book, Filled(f))]
    {
      hide LedgersOk, Ledger.ApplyStrategyFill;
      ghost var ledgers := paperLedger;
      ApplyStrategyFill(book, f.makerId, f.makerSource, Maker, f);
      ApplyStrategyFill(book, f.takerId, f.takerSource, Taker, f);
      assert Followed(ledgers, paperLedger, rejected, rejected, Tagged(book, Filled(f)));
      LedgersNext(ledgers, paperLedger, rejected, rejected, seen, Tagged(book, Filled(f)));
      seen := seen + [Tagged(book, Filled(f))];
    }

    /** A fill reaches one order of one book's ledger, if both are known. */
    method ApplyStrategyFill(book: string, id: int, source: Source, role: Role, f: Fill)
      modifies this`paperLedger
      ensures forall key :: LedgerOf(paperLedger, key) ==
                if key == book then Ledger.ApplyStrategyFill(LedgerOf(old(paperLedger), key), id, source, role, f)
                else LedgerOf(old(paperLedger), key)
    {
      if source != Strategy || id == UNKNOWN_ID || book !in paperLedger || id !in paperLedger[book] {
        return;
      }
      var entry := paperLedger[book][id];
      var state := entry.state;
      if state.status == Cancelled || state.status == Rejected {
        return;
      }
      entry := entry.(fills := entry.fills + [OrderFill(f.seq_, f.price, f.qty, role)]);
      if f.qty > 0 {
        state := state.(filled := state.filled + f.qty, remaining := Max(state.remaining - f.qty, 0));
        state := state.(status := if state.remaining == 0 then FullyFilled else PartiallyFilled, updated := f.seq_);
        entry := entry.(state := state);
      }
      paperLedger := paperLedger[book := paperLedger[book][id := entry]];
    }

    method OnEventApply(r: Tagged<EventApplied>)
      requires Valid()
      modifies this
      ensures Valid() && seen == old(seen) + [Tagged(r.book, Applied(r.body.seq_, r.body.event))]
      ensures events == old(events) + [r] && fills == old(fills) && diagnostics == old(diagnostics)
    {
      hide IndexOk, LedgersOk;
      LogEvent(r);
      RecordEvent(r.book, r.body);
    }

    method LogEvent(r: Tagged<EventApplied>)
      requires IndexOk(events, eventIndex)
      modifies this`events, this`eventIndex
      ensures IndexOk(events, eventIndex) && events == old(events) + [r]
    {
      IndexNext(events, eventIndex, r);
      eventIndex := eventIndex[r.book := Get(eventIndex, r.book) + [|events|]];
      events := events + [r];
    }

    method RecordEvent(book: string, r: EventApplied)
      requires LedgersOk(paperLedger, rejected, seen)
      modifies this`paperLedger, this`rejected, this`seen
      ensures LedgersOk(paperLedger, rejected, seen) && seen == old(seen) + [Tagged(book, Applied(r.seq_, r.event))]
    {
      hide LedgersOk, Ledger.UpdateStrategyOrder;
      ghost var record := Tagged(book, Applied(r.seq_, r.event));
      ghost var ledgers, refusals := paperLedger, rejected;
      UpdateStrategyOrder(book, r);
      assert Followed(ledgers, paperLedger, refusals, rejected, record);
      LedgersNext(ledgers, paperLedger, refusals, rejected, seen, record);
      seen := seen + [record];
    }

    /** The book's ledger is made on its first strategy event, even one that is refused. */
    method UpdateStrategyOrder(book: string, r: EventApplied)
      modifies this`paperLedger, this`rejected
      ensures forall key :: LedgerOf(paperLedger, key) ==
                if key == book then Ledger.UpdateStrategyOrder(LedgerOf(old(paperLedger), key), r.seq_, r.event)
                else LedgerOf(old(paperLedger), key)
      ensures forall key :: Get(rejected, key) == Get(old(rejected), key)
                + if key == book && Refused(LedgerOf(old(paperLedger), book), r.event) then [r] else []
    {
      var e := r.event;
      if e.source != Strategy {
        return;
      }
      var ledger := LedgerOf(paperLedger, book);
      var refusals := Get(rejected, book);
      match e.kind {
        case Add =>
          if e.qty <= 0 || e.id in ledger {
            refusals := refusals + [r];
          } else {
            ledger := ledger[e.id := Opened(r.seq_, e)];
          }
        case Subtract =>
          if e.qty < 0 {
            refusals := refusals + [r];
          } else if e.id in ledger {
            ledger := ledger[e.id := Subtracted(ledger[e.id], r.seq_, e.qty)];
          }
        case Set =>
          if e.id in ledger {
            ledger := ledger[e.id := Reset(ledger[e.id], r.seq_, e.qty)];
          }
        case Delete =>
          if e.id in ledger {
            ledger := ledger[e.id := Deleted(ledger[e.id], r.seq_)];
          }
        case Match =>
        case AggressiveTrade =>
      }
      paperLedger, rejected := paperLedger[book := ledger], rejected[book := refusals];
    }

    method OnDiagnostic(r: Tagged<int>)
      requires Valid()
      modifies this`diagnostics, this`diagIndex
      ensures Valid() && diagnostics == old(diagnostics) + [r]
    {
      IndexNext(diagnostics, diagIndex, r);
      diagIndex := diagIndex[r.book := Get(diagIndex, r.book) + [|diagnostics|]];
      diagnostics := diagnostics + [r];
    }

    method ResetAll()
      modifies this
      ensures Valid() && fills == [] && events == [] && diagnostics == [] && seen == []
    {
      fills, events, diagnostics := [], [], [];
      fillIndex, eventIndex, diagIndex := map[], map[], map[];
      paperLedger, rejected, seen := map[], map[], [];
    }

    // ---- queries and drains -----------------------------------------------------------------

    method FillsFor(key: string) returns (out: seq<Fill>)
      requires Valid()
      ensures out == Projected(fills, key)
    {
      out := Collect(fills, fillIndex, key);
    }

    method EventsFor(key: string) returns (out: seq<EventApplied>)
      requires Valid()
      ensures out == Projected(events, key)
    {
      out := Collect(events, eventIndex, key);
    }

    method DiagnosticsFor(key: string) returns (out: seq<int>)
      requires Valid()
      ensures out == Projected(diagnostics, key)
    {
      out := Collect(diagnostics, diagIndex, key);
    }

    method PaperLedgerFor(key: string) returns (ledger: Orders)
      requires Valid()
      ensures ledger == Replay(map[], Projected(seen, key))
    {
      ledger := LedgerOf(paperLedger, key);
    }

    method DrainFills() returns (out: seq<Tagged<Fill>>)
      requires Valid()
      modifies this`fills, this`fillIndex
      ensures Valid() && out == old(fills) && fills == []
    {
      out := fills;
      fills, fillIndex := [], map[];
    }

    method DrainEvents() returns (out: seq<Tagged<EventApplied>>)
      requires Valid()
      modifies this`events, this`eventIndex
      ensures Valid() && out == old(events) && events == []
    {
      out := events;
      events, eventIndex := [], map[];
    }

    method DrainDiagnostics() returns (out: seq<Tagged<int>>)
      requires Valid()
      modifies this`diagnostics, this`diagIndex
      ensures Valid() && out == old(diagnostics) && diagnostics == []
    {
      out := diagnostics;
      diagnostics, diagIndex := [], map[];
    }
  }

  /** The wrapper that an engine of one book writes to: it fills in the book where none is named. */
  class BookScopedSink {
    const book: string
    const parent: InMemoryMultiLogSink

    constructor (book: string, parent: InMemoryMultiLogSink)
      ensures this.book == book && this.parent == parent
    {
      this.book, this.parent := book, parent;
    }

    function Scoped<T>(r: Tagged<T>): Tagged<T> {
      if r.book == "" then r.(book := book) else r
    }

    method OnFill(r: Tagged<Fill>)
      requires parent.Valid()
      modifies parent
      ensures parent.Valid() && parent.fills == old(parent.fills) + [Scoped(r)]
      ensures parent.seen == old(parent.seen) + [Tagged(Scoped(r).book, Filled(r.body))]
    {
      var tagged := r;
      if tagged.book == "" {
        tagged := tagged.(book := book);
      }
      parent.OnFill(tagged);
    }

    method OnEventApply(r: Tagged<EventApplied>)
      requires parent.Valid()
      modifies parent
      ensures parent.Valid() && parent.events == old(parent.events) + [Scoped(r)]
      ensures parent.seen == old(parent.seen) + [Tagged(Scoped(r).book, Applied(r.body.seq_, r.body.event))]
    {
      var tagged := r;
      if tagged.book == "" {
        tagged := tagged.(book := book);
      }
      parent.OnEventApply(tagged);
    }
  }
}
