/** The books of a multi-book run: one engine a book, each the run of the events delivered to it. */
module BookTables {
  import opened Types
  import opened Book
  import opened EngineMatch
  import opened Simulator
  import opened Merge

  /** The events of one book, in the order of their delivery. */
  function EventsFor(delivered: seq<Delivery>, key: string): seq<Event>
    decreases |delivered|
  {
    if delivered == [] then []
    else
      var last := delivered[|delivered| - 1];
      EventsFor(delivered[..|delivered| - 1], key) + if last.book == key then [last.item.event] else []
  }

  lemma {:induction false} EventsForNext(delivered: seq<Delivery>, d: Delivery, key: string)
    ensures EventsFor(delivered + [d], key)
         == if d.book == key then EventsFor(delivered, key) + [d.item.event] else EventsFor(delivered, key)
  {
    assert (delivered + [d])[..|delivered|] == delivered;
    assert EventsFor(delivered, key) + [] == EventsFor(delivered, key);
  }

  lemma {:induction false} NoEventsFor(delivered: seq<Delivery>, key: string)
    requires forall i :: 0 <= i < |delivered| ==> delivered[i].book != key
    ensures EventsFor(delivered, key) == []
    decreases |delivered|
  {
    if delivered != [] {
      NoEventsFor(delivered[..|delivered| - 1], key);
    }
  }

  /** What an engine was when it was added. */
  datatype Start = Start(state: State, log: seq<Record>)

  class BookTable {
    var engines: map<string, PaperTradingSimulator>
    ghost var start: map<string, Start>
    ghost var delivered: seq<Delivery>
    ghost var Repr: set<object>

    static ghost function Parts(engine: PaperTradingSimulator): set<object> {
      {engine, engine.orderPool, engine.paperPool}
    }

    /** From its start on, the engine has run exactly these events. */
    static ghost predicate HasRun(engine: PaperTradingSimulator, start: Start, events: seq<Event>)
      reads engine, engine.orderPool, engine.paperPool
    {
      var r := Run(engine.caps, start.state, events);
      engine.Valid() && engine.st == r.0 && engine.log == start.log + r.1
    }

    /** The engine of a book belongs to the table, and has run the book's events. */
    ghost predicate BookOk(key: string)
      requires key in engines && key in start
      reads this, Repr
    {
      var engine := engines[key];
      && Parts(engine) <= Repr && this !in Parts(engine)
      && HasRun(engine, start[key], EventsFor(delivered, key))
    }

    /** No two books share an engine, or a part of one. */
    static ghost predicate Separate(engines: map<string, PaperTradingSimulator>) {
      forall j, k :: j in engines && k in engines && j != k ==> Parts(engines[j]) !! Parts(engines[k])
    }

    static lemma SeparateNext(engines: map<string, PaperTradingSimulator>, key: string, engine: PaperTradingSimulator)
      requires Separate(engines) && forall k :: k in engines ==> Parts(engines[k]) !! Parts(engine)
      ensures Separate(engines[key := engine])
    {
      hide Parts;
    }

    ghost predicate Valid()
      reads this, Repr
    {
      && this in Repr && start.Keys == engines.Keys
      && (forall key :: key in engines ==> BookOk(key))
      && Separate(engines)
      && (forall i :: 0 <= i < |delivered| ==> delivered[i].book in engines)
    }

    constructor ()
      ensures Valid() && engines == map[] && delivered == [] && fresh(Repr)
    {
      engines, start, delivered := map[], map[], [];
      Repr := {this};
    }

    /** One more event for an engine. */
    static method Feed(engine: PaperTradingSimulator, e: Event, ghost start: Start, ghost events: seq<Event>)
      requires HasRun(engine, start, events)
      modifies engine, engine.orderPool, engine.paperPool
      ensures HasRun(engine, start, events + [e])
    {
      hide PaperTradingSimulator.Valid, Run, Book.Step;
      RunNext(engine.caps, start.state, events, e);
      engine.Update(e);
    }

    /** A new book gets its own engine; a known one keeps the engine it has. */
    method Add(key: string, engine: PaperTradingSimulator) returns (added: bool)
      requires Valid() && engine.Valid() && Parts(engine) !! Repr
      modifies this
      ensures Valid() && delivered == old(delivered)
      ensures added == (key !in old(engines))
      ensures engines == (if added then old(engines)[key := engine] else old(engines))
      ensures start == (if added then old(start)[key := Start(engine.st, engine.log)] else old(start))
      ensures Repr == (if added then old(Repr) + Parts(engine) else old(Repr))
    {
      hide PaperTradingSimulator.Valid, HasRun, EventsFor;
      if key in engines {
        return false;
      }
      NoEventsFor(delivered, key);
      JustStarted(engine);
      Link(key, engine);
      return true;
    }

    static lemma JustStarted(engine: PaperTradingSimulator)
      requires engine.Valid()
      ensures HasRun(engine, Start(engine.st, engine.log), [])
    {
      hide PaperTradingSimulator.Valid;
      EngineMatch.RunNone(engine.caps, engine.st);
      assert engine.log + [] == engine.log;
    }

    method Link(key: string, engine: PaperTradingSimulator)
      requires Valid() && Parts(engine) !! Repr && key !in engines
      requires HasRun(engine, Start(engine.st, engine.log), []) && EventsFor(delivered, key) == []
      modifies this
      ensures Valid() && delivered == old(delivered)
      ensures engines == old(engines)[key := engine] && start == old(start)[key := Start(engine.st, engine.log)]
      ensures Repr == old(Repr) + Parts(engine)
    {
      hide PaperTradingSimulator.Valid, HasRun, EventsFor, Separate;
      forall k | k in engines ensures BookOk(k) && Parts(engines[k]) !! Parts(engine) {
      }
      SeparateNext(engines, key, engine);
      engines, start, Repr := engines[key := engine], start[key := Start(engine.st, engine.log)], Repr + Parts(engine);
      forall k | k in engines ensures BookOk(k) {
        if k != key {
          assert old(BookOk(k));
        }
      }
    }

    /** Hands a delivery to its book; every other book stays as it is. */
    method Apply(d: Delivery)
      requires Valid() && d.book in engines
      modifies this`delivered, engines[d.book], engines[d.book].orderPool, engines[d.book].paperPool
      ensures Valid() && delivered == old(delivered) + [d]
      ensures forall key :: key in engines && key != d.book ==>
                engines[key].st == old(engines[key].st) && engines[key].log == old(engines[key].log)
    {
      hide PaperTradingSimulator.Valid, HasRun, EventsFor;
      var engine := engines[d.book];
      assert BookOk(d.book);
      Feed(engine, d.item.event, start[d.book], EventsFor(delivered, d.book));
      delivered := delivered + [d];
      forall key | key in engines ensures BookOk(key) {
        assert old(BookOk(key));
        EventsForNext(old(delivered), d, key);
        assert key != d.book ==> Parts(engines[key]) !! Parts(engine);
      }
    }
  }
}
