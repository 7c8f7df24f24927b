/** What cancels, resizes and passive trades of historical orders do to the live quantities of the book. */
module Effects {
  import opened Types
  import opened Level
  import opened Book
  import opened BookInv
  import EngineSteps

  function DepthOf(s: State, side: Side, price: int): int {
    QtyTotal(QueueAt(s.hist, side, price))
  }

  /** Only one order's live quantity differs, by `delta`; the order is indexed while it has lots. */
  ghost predicate OnlyChanges(s: State, s': State, id: int, delta: int) {
    && LiveQty(s', id) == LiveQty(s, id) + delta
    && (id in s.info ==> (id in s'.info <==> LiveQty(s', id) > 0))
    && (forall other :: other != id ==> Untouched(s, s', other))
    && (forall side, price :: DepthMoves(s, s', id, delta, side, price))
  }

  ghost predicate Untouched(s: State, s': State, id: int) {
    LiveQty(s', id) == LiveQty(s, id) && (id in s'.info <==> id in s.info)
  }

  ghost predicate DepthMoves(s: State, s': State, id: int, delta: int, side: Side, price: int) {
    DepthOf(s', side, price) == DepthOf(s, side, price)
      + if id in s.info && s.info[id].side == side && s.info[id].price == price then delta else 0
  }

  lemma {:induction false} TotalAround(before: seq<Order>, o: Order, after: seq<Order>)
    ensures QtyTotal(before + ([o] + after)) == QtyTotal(before) + o.qty + QtyTotal(after)
    ensures QtyTotal(before + after) == QtyTotal(before) + QtyTotal(after)
  {
    assert ([o] + after)[1..] == after;
    QtyTotalConcat(before, [o] + after);
    QtyTotalConcat(before, after);
  }

  lemma {:induction false} ChangedTotal(queue: seq<Order>, i: nat, delta: int)
    requires i < |queue|
    ensures QtyTotal(Changed(queue, i, delta)) == QtyTotal(queue) + delta
  {
    hide QtyTotal;
    var o := queue[i];
    var o' := o.(qty := o.qty + delta);
    TotalAround(queue[..i], o, queue[i + 1..]);
    TotalAround(queue[..i], o', queue[i + 1..]);
    assert queue == queue[..i] + ([o] + queue[i + 1..]);
    assert queue[i := o'] == queue[..i] + ([o'] + queue[i + 1..]);
  }

  /** An order that stays is where its stamp is, with its new quantity. */
  lemma ChangedKeeps(queue: seq<Order>, i: nat, delta: int, j: nat)
    requires QueueOk(queue) && i < |queue| && j < |queue| && queue[i].qty + delta >= 0
    requires j != i || queue[i].qty + delta > 0
    ensures var queue' := Changed(queue, i, delta);
            var k := IndexOf(queue', queue[j].arrival);
            k < |queue'| && queue'[k] == if j == i then queue[i].(qty := queue[i].qty + delta) else queue[j]
  {
    var queue' := Changed(queue, i, delta);
    ChangedIsThinned(queue, i, delta);
    var k := if queue[i].qty + delta == 0 && j > i then j - 1 else j;
    assert queue'[k].arrival == queue[j].arrival;
    OneStamp(queue', IndexOf(queue', queue[j].arrival), k);
  }

  /** Where an indexed order stands. */
  lemma Stands(s: State, id: int) returns (i: nat)
    requires Inv(s) && id in s.info
    ensures var loc := s.info[id];
            var queue := QueueAt(s.hist, loc.side, loc.price);
            && QueueOk(queue) && i < |queue| && i == IndexOf(queue, loc.arrival)
            && queue[i].arrival == loc.arrival && queue[i].id == id && LiveQty(s, id) == queue[i].qty
            && loc.price in s.hist.At(loc.side)
    ensures forall delta :: ChangeQty(s, id, delta)
              == Requeue(s, s.info[id].side, s.info[id].price,
                         Changed(QueueAt(s.hist, s.info[id].side, s.info[id].price), i, delta))
  {
    i := EngineSteps.OrderFound(s, id, 0);
  }

  lemma ChangeParts(s: State, id: int, i: nat, delta: int)
    requires Inv(s) && id in s.info && LiveQty(s, id) + delta >= 0
    requires var loc := s.info[id];
             var queue := QueueAt(s.hist, loc.side, loc.price);
             && i < |queue| && QueueOk(queue) && queue[i].id == id && queue[i].qty == LiveQty(s, id)
             && ChangeQty(s, id, delta) == Requeue(s, loc.side, loc.price, Changed(queue, i, delta))
    ensures var loc := s.info[id];
            var s' := ChangeQty(s, id, delta);
            && s'.info == (if LiveQty(s, id) + delta == 0 then s.info - {id} else s.info)
            && QueueAt(s'.hist, loc.side, loc.price) == Changed(QueueAt(s.hist, loc.side, loc.price), i, delta)
            && (forall side, price :: side != loc.side || price != loc.price ==>
                QueueAt(s'.hist, side, price) == QueueAt(s.hist, side, price))
  {
    var loc := s.info[id];
    var queue := QueueAt(s.hist, loc.side, loc.price);
    EngineSteps.ChangedGone(queue, i, delta);
    EngineSteps.RequeueHist(s, loc.side, loc.price, Changed(queue, i, delta));
    EngineSteps.PutQueueAt(s.hist, loc.side, loc.price, Changed(queue, i, delta));
    hide Inv, LiveQty, Changed, ChangeQty;
  }

  lemma OthersUntouched(s: State, id: int, i: nat, delta: int, other: int)
    requires Inv(s) && id in s.info && other != id && LiveQty(s, id) + delta >= 0
    requires var loc := s.info[id];
             var queue := QueueAt(s.hist, loc.side, loc.price);
             && i < |queue| && QueueOk(queue) && queue[i].id == id && queue[i].qty == LiveQty(s, id)
    requires var loc := s.info[id];
             var s' := ChangeQty(s, id, delta);
             && s'.info == (if LiveQty(s, id) + delta == 0 then s.info - {id} else s.info)
             && QueueAt(s'.hist, loc.side, loc.price) == Changed(QueueAt(s.hist, loc.side, loc.price), i, delta)
             && (forall side, price :: side != loc.side || price != loc.price ==>
                 QueueAt(s'.hist, side, price) == QueueAt(s.hist, side, price))
    ensures Untouched(s, ChangeQty(s, id, delta), other)
  {
    hide Inv, Changed, ChangeQty, QueueOk;
    if other in s.info {
      var loc := s.info[id];
      var at := s.info[other];
      var j := Stands(s, other);
      if at.side == loc.side && at.price == loc.price {
        var queue := QueueAt(s.hist, loc.side, loc.price);
        ChangedKeeps(queue, i, delta, j);
      }
    }
  }

  /** A quantity change reaches its order and no other. */
  lemma ChangeReachesOne(s: State, id: int, delta: int)
    requires Inv(s) && id in s.info && LiveQty(s, id) + delta >= 0
    ensures OnlyChanges(s, ChangeQty(s, id, delta), id, delta)
  {
    hide Inv, Changed, ChangeQty, QtyTotal;
    var loc := s.info[id];
    var i := Stands(s, id);
    var queue := QueueAt(s.hist, loc.side, loc.price);
    var s' := ChangeQty(s, id, delta);
    ChangeParts(s, id, i, delta);
    ChangedTotal(queue, i, delta);
    if LiveQty(s, id) + delta > 0 {
      ChangedKeeps(queue, i, delta, i);
    }
    forall other | other != id ensures Untouched(s, s', other) {
      OthersUntouched(s, id, i, delta, other);
    }
  }

  lemma NothingChanges(s: State, s': State, id: int)
    requires s'.hist == s.hist && s'.info == s.info
    requires id in s.info ==> LiveQty(s, id) > 0
    ensures OnlyChanges(s, s', id, 0)
  {
  }

  /** The lots that a historical cancel or resize leaves of its order. */
  function Leaves(e: Event, live: int): int {
    match e.kind
    case Delete => 0
    case Subtract => if e.qty <= 0 then live else Max(live - e.qty, 0)
    case Match => if e.qty <= 0 then live else Max(live - e.qty, 0)
    case _ => Max(e.qty, 0)
  }

  /**
   * DELETE, SUBTRACT and SET of a historical order: its live quantity becomes what they say, it
   * leaves the index exactly when nothing is left, and neither another order nor a strategy order
   * is touched. An unknown id changes nothing.
   */
  lemma CancelEffect(caps: Caps, s: State, e: Event)
    requires Inv(s) && e.source != Strategy && (e.kind == Delete || e.kind == Subtract || e.kind == Set)
    ensures var s' := Step(caps, s, e).0;
            && OnlyChanges(s, s', e.id, if e.id in s.info then Leaves(e, LiveQty(s, e.id)) - LiveQty(s, e.id) else 0)
            && s'.paper == s.paper && s'.paperInfo == s.paperInfo && Step(caps, s, e).1 == [Applied(s.seq_, e)]
  {
    hide *;
    LiveQtyPositive(s, e.id);
    var live := LiveQty(s, e.id);
    var s' := Step(caps, s, e).0;
    CancelForm(caps, s, e);
    if e.id in s.info && !(e.kind == Subtract && e.qty <= 0) {
      LeavesSomething(e, live);
      ChangeReachesOne(s, e.id, Leaves(e, live) - live);
      var c := ChangeQty(s, e.id, Leaves(e, live) - live);
      ChangeKeepsPaper(s, e.id, Leaves(e, live) - live);
      SameBookChanges(s, c, s', e.id, Leaves(e, live) - live);
    } else {
      LeavesAll(e, live);
      NothingChanges(s, s', e.id);
    }
  }

  lemma LeavesSomething(e: Event, live: int)
    ensures live >= 0 ==> Leaves(e, live) >= 0
  {
  }

  lemma LeavesAll(e: Event, live: int)
    ensures e.kind == Subtract && e.qty <= 0 ==> Leaves(e, live) == live
  {
  }

  lemma CancelForm(caps: Caps, s: State, e: Event)
    requires e.source != Strategy && (e.kind == Delete || e.kind == Subtract || e.kind == Set)
    requires e.id in s.info ==> LiveQty(s, e.id) > 0
    ensures var r := Step(caps, s, e);
            var live := LiveQty(s, e.id);
            && r.1 == [Applied(s.seq_, e)]
            && (if e.id in s.info && !(e.kind == Subtract && e.qty <= 0)
                then r.0 == ChangeQty(s, e.id, Leaves(e, live) - live).(seq_ := r.0.seq_)
                else r.0 == s.(seq_ := r.0.seq_))
  {
    hide LiveQty;
    UnknownStays(s, e.id);
    hide ChangeQty;
  }

  lemma UnknownStays(s: State, id: int)
    ensures id !in s.info ==> forall delta :: ChangeQty(s, id, delta) == s
  {
  }

  /** Only book and index matter to live quantities. */
  lemma SameBookChanges(s: State, c: State, s': State, id: int, delta: int)
    requires OnlyChanges(s, c, id, delta) && s'.hist == c.hist && s'.info == c.info
    ensures OnlyChanges(s, s', id, delta)
  {
    forall other | other != id ensures Untouched(s, s', other) {
      assert Untouched(s, c, other);
    }
    forall side, price ensures DepthMoves(s, s', id, delta, side, price) {
      assert DepthMoves(s, c, id, delta, side, price);
    }
  }

  /**
   * MATCH of any source: the passive order loses the smaller of its lots and the trade's, the fill
   * that reports it comes last, and no other historical order is touched.
   */
  lemma MatchEffect(caps: Caps, s: State, e: Event)
    requires Inv(s) && e.kind == Match && e.id in s.info && e.qty > 0
    ensures var s' := Step(caps, s, e).0;
            var records := Step(caps, s, e).1;
            var live := LiveQty(s, e.id);
            && OnlyChanges(s, s', e.id, Leaves(e, live) - live)
            && records[|records| - 1]
               == Filled(Fill(s.seq_, s.info[e.id].price, live - Leaves(e, live), s.info[e.id].side,
                              e.id, LiveSource(s, e.id), UNKNOWN_ID, e.source))
  {
    hide *;
    LiveQtyPositive(s, e.id);
    var live := LiveQty(s, e.id);
    var s' := Step(caps, s, e).0;
    MatchForm(caps, s, e);
    LeavesSomething(e, live);
    ChangeReachesOne(s, e.id, Leaves(e, live) - live);
    SameBookChanges(s, ChangeQty(s, e.id, Leaves(e, live) - live), s', e.id, Leaves(e, live) - live);
  }

  /** Shadow fills in between do not change what the reduction does to the book, and come before its report. */
  lemma MatchForm(caps: Caps, s: State, e: Event)
    requires e.kind == Match && e.id in s.info && e.qty > 0 && LiveQty(s, e.id) > 0
    ensures var r := Step(caps, s, e);
            var live := LiveQty(s, e.id);
            var c := ChangeQty(s, e.id, Leaves(e, live) - live);
            && r.0.hist == c.hist && r.0.info == c.info
            && r.1[|r.1| - 1] == Filled(Fill(s.seq_, s.info[e.id].price, live - Leaves(e, live), s.info[e.id].side,
                                             e.id, LiveSource(s, e.id), UNKNOWN_ID, e.source))
  {
    hide LiveQty, LiveSource;
    assert Leaves(e, LiveQty(s, e.id)) - LiveQty(s, e.id) == -Min(LiveQty(s, e.id), e.qty);
  }
}
