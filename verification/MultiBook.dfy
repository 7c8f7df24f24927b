/** Many books on one clock: a k-way merge of their streams and of injected strategy events. */
module MultiBook {
  import opened Types
  import opened Merge
  import opened BookTables
  import opened Simulator
  import Book

  datatype Outcome = Stepped | Idle | Threw

  datatype Submission = Accept | UnknownBook | TimeTravel

  class MultiBookSimulator {
    const requireMonotonic: bool
    const failFast: bool
    /** The node pools of a book that is added with its stream. */
    const caps: Book.Caps
    const table: BookTable

    var streams: seq<Stream>
    var heap: seq<HeapEntry>
    var strategyEvents: seq<StrategyItem>
    var currentTs: Option<int>

    /** The books there are, and the updates that they have had, in order. */
    ghost var books: set<string>
    ghost var applied: seq<Delivery>
    /** Strategy events that have left the heap, all events that have, and what the streams owe. */
    ghost var done: set<nat>
    ghost var taken: seq<Delivery>
    ghost var intake: seq<seq<Timed>>

    ghost predicate Valid()
      reads this
    {
      && HeapOk(heap, streams, strategyEvents, done)
      && (forall i :: 0 <= i < |streams| ==> StreamOk(streams[i]))
      && Conserved(streams, strategyEvents, done, intake, taken, requireMonotonic)
      && (forall i :: 0 <= i < |streams| ==> streams[i].book in books)
      && (forall j :: 0 <= j < |strategyEvents| ==>
          strategyEvents[j].book in books && strategyEvents[j].insertion == j + 1)
    }

    /** Every book has an engine of its own, and that engine has run exactly the updates of its book. */
    ghost predicate Tied()
      reads this`books, this`applied, table, table.Repr
    {
      table.Valid() && table.engines.Keys == books && table.delivered == applied && this !in table.Repr
    }

    /** No event has been refused, and everything so far and still to come is in order. */
    ghost predicate Orderly()
      reads this
    {
      requireMonotonic && taken == applied && Ordered(streams, heap, applied, currentTs)
    }

    constructor (requireMonotonic: bool, failFast: bool, caps: Book.Caps)
      ensures Valid() && Tied() && (requireMonotonic ==> Orderly())
      ensures this.requireMonotonic == requireMonotonic && this.failFast == failFast && this.caps == caps
      ensures books == {} && streams == [] && strategyEvents == [] && applied == [] && fresh(table.Repr)
    {
      this.requireMonotonic, this.failFast, this.caps := requireMonotonic, failFast, caps;
      table := new BookTable();
      books, streams, heap, strategyEvents, currentTs, applied := {}, [], [], [], None, [];
      done, taken, intake := {}, [], [];
    }

    /** A new book comes with its engine; a known one keeps the engine it has. */
    method AddBook(key: string, engine: PaperTradingSimulator) returns (added: bool)
      requires Valid() && Tied() && engine.Valid() && BookTable.Parts(engine) !! table.Repr + {this}
      modifies this`books, table
      ensures Valid() && Tied() && (old(Orderly()) ==> Orderly())
      ensures books == old(books) + {key} && added == (key !in old(books))
      ensures table.engines == if added then old(table.engines)[key := engine] else old(table.engines)
      ensures table.Repr == if added then old(table.Repr) + BookTable.Parts(engine) else old(table.Repr)
    {
      hide HeapOk, Conserved, Ordered, BookTable.BookOk, PaperTradingSimulator.Valid;
      added := table.Add(key, engine);
      books := books + {key};
    }

    /** Registers the stream of a book; a book has one at most. */
    method AddStream(key: string, source: seq<Timed>) returns (added: bool, threw: bool)
      requires Valid() && Tied()
      modifies this`books, this`streams, this`intake, table
      ensures Valid() && Tied() && fresh(table.Repr - old(table.Repr))
      ensures added <==> forall i :: 0 <= i < |old(streams)| ==> old(streams)[i].book != key
      ensures threw == (!added && failFast)
      ensures added ==>
                intake == old(intake) + [Accepted(source, None, requireMonotonic)] && books == old(books) + {key}
      ensures !added ==> streams == old(streams) && intake == old(intake) && books == old(books)
      ensures old(Orderly()) && (currentTs.None? || !added) ==> Orderly()
    {
      hide HeapOk, Conserved, Ordered, BookTable.Valid;
      for i := 0 to |streams|
        invariant forall k :: 0 <= k < i ==> streams[k].book != key
      {
        if streams[i].book == key {
          return false, failFast;
        }
      }
      EnsureBook(key);
      Register(Stream(key, source, false, None, None, 0));
      return true, false;
    }

    /** The book is there, with an empty engine if it is new. */
    method EnsureBook(key: string)
      requires Valid() && Tied()
      modifies this`books, table
      ensures Valid() && Tied() && (old(Orderly()) ==> Orderly())
      ensures books == old(books) + {key} && fresh(table.Repr - old(table.Repr))
    {
      hide Valid, Orderly, PaperTradingSimulator.Valid, BookTable.Valid;
      if key !in table.engines {
        var engine := new PaperTradingSimulator(caps);
        var isNew := AddBook(key, engine);
      }
    }

    method Register(state: Stream)
      requires Valid() && state.book in books
      requires state.buffered.None? && !state.exhausted && state.lastTs.None? && state.seq_ == 0
      modifies this`streams, this`intake
      ensures Valid() && (old(Orderly()) && currentTs.None? ==> Orderly())
      ensures streams == old(streams) + [state]
      ensures intake == old(intake) + [Accepted(state.source, None, requireMonotonic)]
    {
      RegisterConserves(streams, strategyEvents, done, intake, taken, requireMonotonic, state);
      QuietStream(heap, streams, strategyEvents, done, streams + [state]);
      assert Ahead(state, requireMonotonic) == Accepted(state.source, None, requireMonotonic);
      streams := streams + [state];
      intake := intake + [Ahead(state, requireMonotonic)];
    }

    /** A strategy event joins the merge at its own time, or a latency after the present. */
    method SubmitStrategyEvent(key: string, ev: Timed, latency: Option<int>) returns (result: Submission, threw: bool)
      requires Valid() && Tied()
      modifies this`strategyEvents, this`heap
      ensures Valid() && Tied() && (old(Orderly()) ==> Orderly())
      ensures result == UnknownBook <==> key !in books
      ensures result == TimeTravel <==>
                key in books && requireMonotonic && currentTs.Some?
                  && (if ev.ts == 0 then currentTs.value + (if latency.Some? then latency.value else 1)
                      else ev.ts + (if latency.Some? then latency.value else 0)) < currentTs.value
      ensures threw == (result != Accept && failFast)
      ensures result == Accept ==>
                var present := if currentTs.Some? then currentTs.value else 0;
                var at := if ev.ts == 0 then present + (if latency.Some? then latency.value else 1)
                          else ev.ts + (if latency.Some? then latency.value else 0);
                var item := ev.(ts := at, tsx := if ev.tsx == 0 then MAX_TS else ev.tsx,
                                event := ev.event.(source := Strategy));
                strategyEvents == old(strategyEvents) + [StrategyItem(key, item, |old(strategyEvents)| + 1)]
      ensures result != Accept ==> strategyEvents == old(strategyEvents) && heap == old(heap)
    {
      hide BookTable.Valid, Accepted, InOrder, NoLookAhead, StreamAfter, Ahead;
      if key !in table.engines {
        return UnknownBook, failFast;
      }
      var item := ev.(event := ev.event.(source := Strategy));
      if item.ts == 0 {
        var base := if currentTs.Some? then currentTs.value else 0;
        item := item.(ts := base + if latency.Some? then latency.value else 1);
      } else if latency.Some? {
        item := item.(ts := item.ts + latency.value);
      }
      if requireMonotonic && currentTs.Some? && item.ts < currentTs.value {
        return TimeTravel, failFast;
      }
      var idx := |strategyEvents|;
      if item.tsx == 0 {
        item := item.(tsx := MAX_TS);
      }
      var strategies := strategyEvents + [StrategyItem(key, item, idx + 1)];
      SubmitConserves(streams, strategyEvents, done, intake, taken, requireMonotonic, StrategyItem(key, item, idx + 1));
      hide Sorted, Push, Conserved, StreamOk;
      SubmitOk(heap, streams, strategyEvents, done, StrategyItem(key, item, idx + 1));
      strategyEvents := strategies;
      heap := Push(heap, HeapEntry(item.ts, item.tsx, FromStrategy(idx)));
      return Accept, false;
    }

    /** Looks for the next event of a stream that is not behind the last one; a bad one is skipped, or fatal. */
    method FillBuffer(index: nat) returns (threw: bool)
      requires Valid() && index < |streams|
      modifies this`streams, this`heap
      ensures Valid() && (old(Orderly()) ==> Orderly())
      ensures |streams| == |old(streams)|
      ensures forall i :: 0 <= i < |streams| && i != index ==> streams[i] == old(streams)[i]
      ensures threw ==> failFast && requireMonotonic
      ensures !threw ==> streams[index].exhausted || streams[index].buffered.Some?
      ensures SameAhead(streams, old(streams), requireMonotonic) && taken == old(taken)
      ensures |heap| + Stock(streams) <= |old(heap)| + Stock(old(streams)) && |heap| >= |old(heap)|
    {
      hide HeapOk, Conserved, Ordered, Ahead, Orderly, Stock;
      var s := streams[index];
      if s.exhausted || s.buffered.Some? {
        return false;
      }
      var source := s.source;
      while true
        invariant Accepted(source, s.lastTs, requireMonotonic) == Accepted(s.source, s.lastTs, requireMonotonic)
        invariant |source| <= |s.source|
        decreases |source|
      {
        if source == [] {
          SameAccepted(s, s.(exhausted := true, source := []), requireMonotonic);
          SetUnbuffered(index, s.(exhausted := true, source := []));
          return false;
        }
        var ev := source[0];
        var rest := source[1..];
        if requireMonotonic && s.lastTs.Some? && ev.ts < s.lastTs.value {
          if failFast {
            SameAccepted(s, s.(source := rest), requireMonotonic);
            SetUnbuffered(index, s.(source := rest));
            return true;
          }
          source := rest;
        } else {
          var s' := s.(source := rest, lastTs := Some(ev.ts), buffered := Some(ev), seq_ := s.seq_ + 1);
          NowBuffered(s, s', requireMonotonic);
          SetBuffered(index, s');
          return false;
        }
      }
    }

    /** A stream whose source has moved on, with nothing buffered. */
    method SetUnbuffered(index: nat, s: Stream)
      requires Valid() && index < |streams| && streams[index].buffered.None? && s.buffered.None? && StreamOk(s)
      requires s.book == streams[index].book && s.lastTs == streams[index].lastTs
               && (streams[index].exhausted ==> s.exhausted)
      requires Accepted(s.source, s.lastTs, requireMonotonic)
               == Accepted(streams[index].source, s.lastTs, requireMonotonic)
      requires |s.source| <= |streams[index].source|
      modifies this`streams
      ensures Valid() && (old(Orderly()) ==> Orderly())
      ensures streams == old(streams)[index := s] && Stock(streams) <= Stock(old(streams))
    {
      hide HeapOk, Conserved, Ordered, Accepted, Stock, StreamOk;
      Refilled(heap, streams, strategyEvents, done, intake, taken, requireMonotonic, index, s);
      StillOrdered(streams, heap, applied, currentTs, index, s);
      StockUpdate(streams, index, s);
      streams := streams[index := s];
    }

    /** A stream whose next event is buffered, and goes on the heap. */
    method SetBuffered(index: nat, s: Stream)
      requires Valid() && index < |streams| && streams[index].buffered.None? && s.buffered.Some? && StreamOk(s)
      requires s.book == streams[index].book && !streams[index].exhausted
      requires requireMonotonic && streams[index].lastTs.Some? ==> streams[index].lastTs.value <= s.buffered.value.ts
      requires Ahead(s, requireMonotonic) == Ahead(streams[index], requireMonotonic)
      requires |s.source| < |streams[index].source|
      modifies this`streams, this`heap
      ensures Valid() && (old(Orderly()) ==> Orderly())
      ensures streams == old(streams)[index := s]
      ensures |heap| + Stock(streams) <= |old(heap)| + Stock(old(streams)) && |heap| >= |old(heap)|
    {
      hide HeapOk, Conserved, Ordered, Ahead, Stock, Push;
      Buffered(heap, streams, strategyEvents, done, intake, taken, requireMonotonic, index, s);
      if requireMonotonic {
        BufferedOrdered(streams, heap, applied, currentTs, index, s);
      }
      StockUpdate(streams, index, s);
      streams := streams[index := s];
      heap := Push(heap, HeapEntry(s.buffered.value.ts, s.buffered.value.tsx, FromStream(index)));
    }

    method PrimeStreams() returns (threw: bool)
      requires Valid()
      modifies this`streams, this`heap
      ensures Valid() && (old(Orderly()) ==> Orderly())
      ensures |streams| == |old(streams)|
      ensures threw ==> failFast && requireMonotonic
      ensures !threw ==> Primed(streams)
      ensures SameAhead(streams, old(streams), requireMonotonic)
      ensures |heap| + Stock(streams) <= |old(heap)| + Stock(old(streams)) && |heap| >= |old(heap)|
    {
      hide Valid, Orderly, Ahead;
      for i := 0 to |streams|
        modifies this`streams, this`heap
        invariant Valid() && (old(Orderly()) ==> Orderly())
        invariant SameAhead(streams, old(streams), requireMonotonic)
        invariant |streams| == |old(streams)| && |heap| + Stock(streams) <= |old(heap)| + Stock(old(streams))
                  && |heap| >= |old(heap)|
        invariant forall k :: 0 <= k < i ==> streams[k].exhausted || streams[k].buffered.Some?
      {
        if !streams[i].buffered.Some? && !streams[i].exhausted {
          threw := FillBuffer(i);
          if threw {
            return;
          }
        }
      }
      return false;
    }

    /** Takes the first entry off the heap, and its event out of its buffer. */
    method TakeHead() returns (d: Delivery)
      requires Valid() && heap != [] && Primed(streams)
      modifies this`heap, this`streams, this`done, this`taken
      ensures Valid() && d.book in books && |streams| == |old(streams)|
      ensures taken == old(taken) + [d] && NextOf(d, old(streams), strategyEvents, old(done), requireMonotonic)
      ensures d.origin.FromStream? ==>
                d.origin.index < |streams| && forall i :: 0 <= i < |streams| && i != d.origin.index ==>
                  streams[i] == old(streams)[i]
      ensures d.origin.FromStrategy? ==> streams == old(streams)
      ensures |heap| + Stock(streams) < |old(heap)| + Stock(old(streams))
      ensures old(Orderly()) ==>
                AtMost(currentTs, d.item.ts) && Ordered(streams, heap, applied + [d], Some(d.item.ts))
    {
      hide HeapOk, Conserved, Ordered, Stock;
      match heap[0].origin {
        case FromStrategy(j) => d := TakeStrategyEvent(j);
        case FromStream(i) => d := TakeBuffered(i);
      }
    }

    method TakeStrategyEvent(j: nat) returns (d: Delivery)
      requires Valid() && heap != [] && Primed(streams) && heap[0].origin == FromStrategy(j)
      modifies this`heap, this`done, this`taken
      ensures Valid() && d.book in books && |heap| < |old(heap)|
      ensures taken == old(taken) + [d] && d.origin == FromStrategy(j)
      ensures NextOf(d, streams, strategyEvents, old(done), requireMonotonic)
      ensures old(Orderly()) ==>
                AtMost(currentTs, d.item.ts) && Ordered(streams, heap, applied + [d], Some(d.item.ts))
    {
      hide Conserved, Ordered, Sorted;
      assert Backed(streams, strategyEvents, done, heap[0]);
      d := Delivery(heap[0].origin, strategyEvents[j].book, strategyEvents[j].item);
      HeadIsNext(streams, strategyEvents, done, heap, requireMonotonic, d);
      TakeStrategy(streams, strategyEvents, done, intake, taken, requireMonotonic, j, d);
      PopOk(heap, streams, strategyEvents, done, streams, done + {j});
      if Orderly() {
        DeliverOrdered(streams, strategyEvents, done, heap, applied, currentTs, d, streams);
      }
      done, heap, taken := done + {j}, heap[1..], taken + [d];
    }

    method TakeBuffered(i: nat) returns (d: Delivery)
      requires Valid() && heap != [] && Primed(streams) && heap[0].origin == FromStream(i)
      modifies this`heap, this`streams, this`taken
      ensures Valid() && d.book in books && i < |streams| == |old(streams)|
      ensures taken == old(taken) + [d] && d.origin == FromStream(i)
      ensures NextOf(d, old(streams), strategyEvents, done, requireMonotonic)
      ensures forall k :: 0 <= k < |streams| && k != i ==> streams[k] == old(streams)[k]
      ensures |heap| < |old(heap)| && Stock(streams) == Stock(old(streams))
      ensures old(Orderly()) ==>
                AtMost(currentTs, d.item.ts) && Ordered(streams, heap, applied + [d], Some(d.item.ts))
    {
      hide Conserved, Ordered, Sorted;
      assert Backed(streams, strategyEvents, done, heap[0]);
      d := Delivery(heap[0].origin, streams[i].book, streams[i].buffered.value);
      var streams' := streams[i := streams[i].(buffered := None)];
      HeadIsNext(streams, strategyEvents, done, heap, requireMonotonic, d);
      TakeStream(streams, strategyEvents, done, intake, taken, requireMonotonic, i, d);
      PopOk(heap, streams, strategyEvents, done, streams', done);
      if Orderly() {
        DeliverOrdered(streams, strategyEvents, done, heap, applied, currentTs, d, streams');
      }
      StockUpdate(streams, i, streams[i].(buffered := None));
      streams, heap, taken := streams', heap[1..], taken + [d];
    }

    /** Updates the engine of the book, unless the clock would run backwards. */
    method ApplyToBook(d: Delivery) returns (threw: bool)
      requires Tied()
      modifies this`applied, this`currentTs, table.Repr
      ensures Tied() && SameTable(old(table.Repr), old(table.engines), old(table.start))
      ensures var refused := requireMonotonic && old(currentTs).Some? && d.item.ts < old(currentTs).value;
              if d.book !in books then
                !threw && applied == old(applied) && currentTs == old(currentTs)
              else if refused then
                threw == failFast && applied == old(applied) && currentTs == old(currentTs)
              else
                !threw && applied == old(applied) + [d] && currentTs == Some(d.item.ts)
    {
      hide BookTable.Valid;
      TableOwns(d.book);
      if d.book !in table.engines {
        return false;
      }
      if requireMonotonic && currentTs.Some? && d.item.ts < currentTs.value {
        return failFast;
      }
      table.Apply(d);
      applied, currentTs := applied + [d], Some(d.item.ts);
      return false;
    }

    /** No book has come or gone, or changed its engine. */
    ghost predicate SameTable(repr: set<object>, engines: map<string, PaperTradingSimulator>, start: map<string, Start>)
      reads table
    {
      table.Repr == repr && table.engines == engines && table.start == start
    }

    lemma TableOwns(key: string)
      requires Tied()
      ensures table in table.Repr && this !in table.Repr
      ensures key in table.engines ==> BookTable.Parts(table.engines[key]) <= table.Repr
    {
      assert key in table.engines ==> table.BookOk(key);
    }

    /** The first entry of the heap goes to its book. */
    method DeliverHead() returns (d: Delivery, threw: bool)
      requires Valid() && Tied() && heap != [] && Primed(streams)
      modifies this`heap, this`streams, this`done, this`taken, this`applied, this`currentTs, table.Repr
      ensures Valid() && Tied() && SameTable(old(table.Repr), old(table.engines), old(table.start))
      ensures |streams| == |old(streams)| && taken == old(taken) + [d]
      ensures NextOf(d, old(streams), strategyEvents, old(done), requireMonotonic)
      ensures d.origin.FromStream? ==>
                d.origin.index < |streams| && forall i :: 0 <= i < |streams| && i != d.origin.index ==>
                  streams[i] == old(streams)[i]
      ensures d.origin.FromStrategy? ==> streams == old(streams)
      ensures |heap| + Stock(streams) < |old(heap)| + Stock(old(streams))
      ensures threw ==> failFast && requireMonotonic
      ensures old(Orderly()) ==> !threw && Orderly() && applied == old(applied) + [d]
    {
      hide HeapOk, Conserved, Ordered, BookTable.Valid;
      TableOwns("");
      d := TakeHead();
      threw := ApplyToBook(d);
    }

    /** With an empty heap and every stream run dry everything has been taken. */
    lemma Drained()
      requires Valid() && Primed(streams) && heap == []
      ensures forall i :: 0 <= i < |streams| ==> i < |intake| && TakenFrom(taken, FromStream(i)) == intake[i]
      ensures forall j :: 0 <= j < |strategyEvents| ==>
                TakenFrom(taken, FromStrategy(j)) == [strategyEvents[j].item]
    {
      hide HeapOk;
      AllTaken(streams, strategyEvents, done, heap, intake, taken, requireMonotonic);
    }

    /** One event of the merge. */
    method Step() returns (outcome: Outcome)
      requires Valid() && Tied()
      modifies this`heap, this`streams, this`done, this`taken, this`applied, this`currentTs, table.Repr
      ensures Valid() && (old(Orderly()) ==> Orderly())
      ensures Tied() && SameTable(old(table.Repr), old(table.engines), old(table.start))
      ensures |streams| == |old(streams)|
      ensures outcome == Threw ==> failFast && requireMonotonic
      ensures outcome == Idle ==> applied == old(applied) && heap == []
      ensures outcome != Threw ==> Primed(streams)
      ensures outcome == Idle ==>
                && (forall i :: 0 <= i < |streams| ==> TakenFrom(taken, FromStream(i)) == intake[i])
                && (forall j :: 0 <= j < |strategyEvents| ==>
                    TakenFrom(taken, FromStrategy(j)) == [strategyEvents[j].item])
      ensures outcome == Stepped ==>
              |taken| == |old(taken)| + 1 && |heap| + Stock(streams) < |old(heap)| + Stock(old(streams))
      ensures old(heap) != [] ==> outcome != Idle
      ensures taken == old(taken)
           || exists d :: taken == old(taken) + [d]
                       && NextOf(d, old(streams), strategyEvents, old(done), requireMonotonic)
      ensures old(Orderly()) && outcome == Stepped ==> exists d :: applied == old(applied) + [d]
    {
      hide Valid, Orderly, BookTable.Valid, Ahead, NextOf, Stock;
      TableOwns("");
      var threw := PrimeStreams();
      if threw {
        return Threw;
      }
      if heap == [] {
        Drained();
        return Idle;
      }
      ghost var primed := streams;
      var d;
      d, threw := DeliverHead();
      SameNext(d, primed, old(streams), strategyEvents, old(done), requireMonotonic);
      if threw {
        return Threw;
      }
      if d.origin.FromStream? {
        threw := FillBuffer(d.origin.index);
        if threw {
          return Threw;
        }
      }
      return Stepped;
    }

    /** Steps until nothing at or before a time is left, neither on the heap nor still to come. */
    method StepUntil(tsInclusive: int) returns (count: nat, threw: bool)
      requires Valid() && Tied()
      modifies this`heap, this`streams, this`done, this`taken, this`applied, this`currentTs, table.Repr
      ensures Valid() && (old(Orderly()) ==> Orderly())
      ensures Tied() && SameTable(old(table.Repr), old(table.engines), old(table.start))
      ensures threw ==> failFast && requireMonotonic
      ensures !threw ==> |taken| == |old(taken)| + count
      ensures old(taken) <= taken && forall k :: |old(taken)| <= k < |taken| ==> taken[k].item.ts <= tsInclusive
      ensures !threw ==> Primed(streams) && (heap != [] ==> heap[0].ts > tsInclusive)
      ensures !threw && requireMonotonic ==>
                && (forall i :: 0 <= i < |streams| ==> AllAfter(Ahead(streams[i], requireMonotonic), tsInclusive))
                && (forall j :: 0 <= j < |strategyEvents| && j !in done ==> strategyEvents[j].item.ts > tsInclusive)
    {
      hide HeapOk, Conserved, Ordered, BookTable.Valid;
      TableOwns("");
      count := 0;
      threw := PrimeStreams();
      if threw {
        return;
      }
      while heap != [] && heap[0].ts <= tsInclusive
        modifies this`heap, this`streams, this`done, this`taken, this`applied, this`currentTs, table.Repr
        invariant Tied() && SameTable(old(table.Repr), old(table.engines), old(table.start))
        invariant Valid() && (old(Orderly()) ==> Orderly()) && Primed(streams)
        invariant |taken| == |old(taken)| + count && old(taken) <= taken
        invariant forall k :: |old(taken)| <= k < |taken| ==> taken[k].item.ts <= tsInclusive
        decreases |heap| + Stock(streams)
      {
        InTime();
        var outcome := Step();
        if outcome == Threw {
          return count, true;
        }
        if outcome == Idle {
          assert false;
        }
        count := count + 1;
      }
      if requireMonotonic {
        NothingPending(streams, strategyEvents, done, heap, requireMonotonic, tsInclusive);
      }
    }

    /** Whatever goes next comes no later than the first entry of the heap. */
    lemma InTime()
      requires Valid() && heap != []
      ensures forall d :: NextOf(d, streams, strategyEvents, done, requireMonotonic) ==> d.item.ts <= heap[0].ts
    {
      forall d | NextOf(d, streams, strategyEvents, done, requireMonotonic) ensures d.item.ts <= heap[0].ts {
        NextIsInTime(d, streams, strategyEvents, done, heap, requireMonotonic);
      }
    }

    method StepFor(delta: int) returns (count: nat, threw: bool)
      requires Valid() && Tied()
      modifies this`heap, this`streams, this`done, this`taken, this`applied, this`currentTs, table.Repr
      ensures Valid() && (old(Orderly()) ==> Orderly())
      ensures Tied() && SameTable(old(table.Repr), old(table.engines), old(table.start))
      ensures delta <= 0 ==> count == 0 && !threw && applied == old(applied)
      ensures old(taken) <= taken && forall k :: |old(taken)| <= k < |taken| ==>
                taken[k].item.ts <= (if old(currentTs).Some? then old(currentTs).value else 0) + delta
      ensures !threw ==> |taken| == |old(taken)| + count
      ensures delta > 0 && !threw ==>
                heap != [] ==> heap[0].ts > (if old(currentTs).Some? then old(currentTs).value else 0) + delta
    {
      if delta <= 0 {
        return 0, false;
      }
      var base := if currentTs.Some? then currentTs.value else 0;
      count, threw := StepUntil(base + delta);
    }
  }
}
