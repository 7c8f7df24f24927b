/**
 * When engine and ledger stay in agreement, exactly: the ledger does not see the engine's refusals,
 * so an id that is used twice, or an order that finds no room, can set the two apart.
 */
module AgreementLimits {
  import opened Types
  import opened PriceHeap
  import opened Level
  import opened Book
  import opened BookInv
  import opened EngineMatch
  import opened Matching
  import opened Agreement
  import PaperIndex
  import L = Ledger

  // ---- what fills do to one entry, whatever they come to ------------------------------------

  /** The entry after fills of `lots` in all: a cancelled entry ignores them, a filled one counts on. */
  ghost predicate FilledBy(before: L.Entry, after: L.Entry, lots: int) {
    if before.state.status == Cancelled || before.state.status == Rejected then after == before
    else
      && after.state.filled == before.state.filled + lots
      && after.state.remaining == Max(before.state.remaining - lots, 0)
      && after.state.id == before.state.id && after.state.initial == before.state.initial
      && after.state.side == before.state.side && after.state.price == before.state.price
      && L.FilledLots(after.fills) == L.FilledLots(before.fills) + lots
      && after.state.status == if lots == 0 then before.state.status
                               else if after.state.remaining == 0 then FullyFilled else PartiallyFilled
  }

  lemma OneFill(e: L.Entry, role: L.Role, f: Fill)
    requires f.qty > 0 && e.state.remaining >= 0
    ensures FilledBy(e, L.Filled1(e, role, f), f.qty)
  {
    var fills := e.fills + [L.OrderFill(f.seq_, f.price, f.qty, role)];
    assert fills[..|fills| - 1] == e.fills;
  }

  lemma FilledTwice(a: L.Entry, b: L.Entry, c: L.Entry, x: int, y: int)
    requires FilledBy(a, b, x) && FilledBy(b, c, y) && x >= 0 && y >= 0 && a.state.remaining >= 0
    ensures FilledBy(a, c, x + y)
  {
  }

  lemma OneRole(ledger: L.Orders, who: int, source: Source, role: L.Role, f: Fill, id: int)
    requires f.qty > 0 && id != UNKNOWN_ID && id in ledger && ledger[id].state.remaining >= 0
    ensures var after := L.ApplyStrategyFill(ledger, who, source, role, f);
            id in after && FilledBy(ledger[id], after[id], if source == Strategy && who == id then f.qty else 0)
  {
    if source == Strategy && who == id {
      OneFill(ledger[id], role, f);
    }
  }

  /** Replaying fills that name an id as maker or taker adds up. */
  lemma {:induction false} ReplayAny(ledger: L.Orders, records: seq<Record>, id: int)
    requires PositiveFills(records) && id != UNKNOWN_ID && id in ledger && ledger[id].state.remaining >= 0
    ensures var after := L.Replay(ledger, records);
            id in after && FilledBy(ledger[id], after[id], LotsTo(records, id))
    decreases |records|
  {
    hide FilledBy, L.FilledLots;
    if records != [] {
      var f := records[0].fill;
      var mid := L.ApplyStrategyFill(ledger, f.makerId, f.makerSource, L.Maker, f);
      var next := L.OnRecord(ledger, records[0]);
      OneRole(ledger, f.makerId, f.makerSource, L.Maker, f, id);
      NonNegative(ledger[id], mid[id], LotsOf(f.makerId, f.makerSource, f, id));
      OneRole(mid, f.takerId, f.takerSource, L.Taker, f, id);
      NonNegative(mid[id], next[id], LotsOf(f.takerId, f.takerSource, f, id));
      FilledTwice(ledger[id], mid[id], next[id], LotsOf(f.makerId, f.makerSource, f, id),
                  LotsOf(f.takerId, f.takerSource, f, id));
      ReplayAny(next, records[1..], id);
      LotsToNonNegative(records[1..], id);
      FilledTwice(ledger[id], next[id], L.Replay(next, records[1..])[id], LotsOfRecord(records[0], id),
                  LotsTo(records[1..], id));
    } else {
      FilledByNothing(ledger[id]);
    }
  }

  function LotsOf(who: int, source: Source, f: Fill, id: int): int {
    if source == Strategy && who == id then f.qty else 0
  }

  lemma NonNegative(a: L.Entry, b: L.Entry, lots: int)
    requires FilledBy(a, b, lots) && a.state.remaining >= 0
    ensures b.state.remaining >= 0
  {
  }

  lemma FilledByNothing(e: L.Entry)
    requires e.state.remaining >= 0
    ensures FilledBy(e, e, 0)
  {
  }

  // ---- a strategy's own sweep ---------------------------------------------------------------

  /** A sweep whose taker is `id` itself: what is left of that order is what its makers' fills leave. */
  ghost predicate OwnAccounts(s: State, s': State, records: seq<Record>, id: int) {
    && Remaining(s', id) == Remaining(s, id) - (LotsTo(records, id) - Lots(records))
    && (id in s'.paperInfo ==> id in s.paperInfo && s'.paperInfo[id] == s.paperInfo[id])
  }

  lemma {:induction false} OwnFills(seq_: nat, maker: Side, px: int, trades: seq<Trade>, id: int)
    requires AllFrom(trades, true)
    ensures var r := FillsOf(seq_, maker, px, trades, id, Strategy);
            LotsTo(r, id) == TradedTo(trades, id) + TradeTotal(trades) && Lots(r) == TradeTotal(trades)
  {
    var r := FillsOf(seq_, maker, px, trades, id, Strategy);
    if trades != [] {
      assert r[1..] == FillsOf(seq_, maker, px, trades[1..], id, Strategy);
      OwnFills(seq_, maker, px, trades[1..], id);
    }
  }

  lemma FillsPositive(seq_: nat, maker: Side, px: int, trades: seq<Trade>, e: Event)
    requires forall i :: 0 <= i < |trades| ==> trades[i].qty > 0
    ensures PositiveFills(FillsOf(seq_, maker, px, trades, e.id, e.source))
  {
  }

  lemma OwnSweepLevel(s: State, e: Event, px: int, left: int)
    requires Inv(s) && left > 0 && px in s.paper.At(e.side.Opposite()) && e.source == Strategy
    ensures var t := SweepLevel(s, e, px, left);
            OwnAccounts(s, t.state, t.records, e.id) && PositiveFills(t.records)
  {
    hide Sweep, Repaper, Remaining, LotsTo, Lots, RemOf, TradedTo, FillsOf;
    var maker := e.side.Opposite();
    var pq := s.paper.At(maker)[px];
    var r := Sweep(pq, left);
    assert PaperLevelInv(s, maker, px);
    SweepRest(pq, left);
    SweepTotals(pq, left);
    SuffixIsThinned(r.2.orders, pq.orders);
    SweepTo(pq, left, e.id);
    SweepSources(pq, left);
    OwnFills(s.seq_, maker, px, r.0, e.id);
    FillsPositive(s.seq_, maker, px, r.0, e);
    LevelAccounts(s, maker, px, r.2, e.id, TradedTo(r.0, e.id));
  }

  lemma {:induction false} OwnSweep(s: State, e: Event, limit: Option<int>, left: int)
    requires Inv(s) && left >= 0 && e.source == Strategy
    ensures var r := SweepPapers(s, e, limit, left);
            OwnAccounts(s, r.state, r.records, e.id) && PositiveFills(r.records)
    decreases |s.paper.At(e.side.Opposite())|
  {
    hide Inv, SweepLevel, OwnAccounts, PositiveFills;
    NothingOwn(s, e.id);
    var maker := e.side.Opposite();
    var best := BestPrice(s.paper.At(maker), maker);
    if left > 0 && best.Some? && Reaches(maker, limit, best.value) {
      var t := SweepLevel(s, e, best.value, left);
      SweepLevelInv(s, e, best.value, left);
      OwnSweepLevel(s, e, best.value, left);
      if !t.done {
        SweepShrinks(s, e, best.value, left);
        OwnSweep(t.state, e, limit, t.left);
        var o := SweepPapers(t.state, e, limit, t.left);
        OwnChain(s, t.state, o.state, t.records, o.records, e.id);
      }
    }
  }

  lemma NothingOwn(s: State, id: int)
    ensures OwnAccounts(s, s, [], id) && PositiveFills([])
  {
  }

  lemma SweepShrinks(s: State, e: Event, px: int, left: int)
    requires px in s.paper.At(e.side.Opposite()) && !SweepLevel(s, e, px, left).done
    ensures var maker := e.side.Opposite();
            && SweepLevel(s, e, px, left).state.paper.At(maker) == s.paper.At(maker) - {px}
            && |s.paper.At(maker) - {px}| < |s.paper.At(maker)|
  {
    var maker := e.side.Opposite();
    assert s.paper.At(maker).Keys == (s.paper.At(maker) - {px}).Keys + {px};
  }

  lemma OwnChain(a: State, b: State, c: State, r: seq<Record>, t: seq<Record>, id: int)
    requires OwnAccounts(a, b, r, id) && OwnAccounts(b, c, t, id) && PositiveFills(r) && PositiveFills(t)
    ensures OwnAccounts(a, c, r + t, id) && PositiveFills(r + t)
  {
    LotsToConcat(r, t, id);
    ReportConcat(r, t, true, 0);
  }

  // ---- how far a sweep gets -----------------------------------------------------------------

  /** Strategy lots that rest within a limit. */
  ghost function ReachedLots(levels: map<int, PaperQueue>, maker: Side, limit: Option<int>): int
    decreases |levels|
  {
    var best := BestPrice(levels, maker);
    if best.None? || !Reaches(maker, limit, best.value) then 0
    else RemainingTotal(levels[best.value].orders) + ReachedLots(levels - {best.value}, maker, limit)
  }

  /** The lots reach through the order `id`, behind all better prices and all that wait before it. */
  ghost predicate SweptAway(levels: map<int, PaperQueue>, maker: Side, limit: Option<int>, left: int, id: int)
    decreases |levels|
  {
    var best := BestPrice(levels, maker);
    && left > 0 && best.Some? && Reaches(maker, limit, best.value)
    && var orders := levels[best.value].orders;
       var i := PositionOf(orders, id);
       if i < |orders| then left >= RemainingTotal(orders[..i + 1])
       else
         && left >= RemainingTotal(orders)
         && SweptAway(levels - {best.value}, maker, limit, left - RemainingTotal(orders), id)
  }

  /** A level is emptied exactly when the lots suffice for it. */
  lemma {:induction false} SweepEmpties(pq: PaperQueue, left: int)
    requires PapersOk(pq.orders) && pq.orders != [] && left > 0
    ensures var r := Sweep(pq, left);
            && (r.2.orders == [] <==> left >= RemainingTotal(pq.orders))
            && r.1 == Max(left - RemainingTotal(pq.orders), 0)
  {
    var r := Sweep(pq, left);
    SweepRest(pq, left);
    SweepTotals(pq, left);
    SuffixOfOk(r.2.orders, pq.orders);
    RemainingPositive(r.2.orders);
  }

  /** An order of the level is gone exactly when the lots reach through it. */
  lemma {:induction false} SweepGone(pq: PaperQueue, left: int, i: nat)
    requires PapersOk(pq.orders) && DistinctIds(pq.orders) && i < |pq.orders| && left > 0
    ensures HasId(Sweep(pq, left).2.orders, pq.orders[i].id) <==> left < RemainingTotal(pq.orders[..i + 1])
    decreases |pq.orders|
  {
    var orders := pq.orders;
    var p := orders[0];
    PapersOkTail(orders);
    assert orders[..i + 1][1..] == orders[1..][..i];
    assert PapersOk(orders[1..][..i]);
    RemainingPositive(orders[1..][..i]);
    if left < p.remaining {
      var rest := [p.(remaining := p.remaining - left)] + orders[1..];
      assert rest[i].id == orders[i].id;
    } else {
      var gone := PaperQueue(orders[1..], pq.phantom + Max(p.remaining, 0));
      if i == 0 {
        SweptNotBack(gone, left - p.remaining, p.id);
      } else if left == p.remaining {
        assert orders[1..][i - 1] == orders[i];
        RemainingPositive(orders[1..][..i]);
      } else {
        assert orders[1..][i - 1] == orders[i];
        SweepGone(gone, left - p.remaining, i - 1);
      }
    }
  }

  /** What a sweep leaves was there before. */
  lemma {:induction false} SweptNotBack(pq: PaperQueue, left: int, id: int)
    requires PapersOk(pq.orders) && left >= 0 && !HasId(pq.orders, id)
    ensures !HasId(Sweep(pq, left).2.orders, id)
  {
    var rest := Sweep(pq, left).2.orders;
    SweepRest(pq, left);
    if rest != [] {
      var d := |pq.orders| - |rest|;
      assert rest == [rest[0]] + pq.orders[d + 1..];
    }
  }

  /** What one level of a sweep leaves of its lots, and of the order `id`. */
  lemma {:induction false} LevelGone(s: State, e: Event, px: int, left: int, id: int)
    requires Inv(s) && left > 0 && px in s.paper.At(e.side.Opposite())
    ensures var orders := s.paper.At(e.side.Opposite())[px].orders;
            var i := PositionOf(orders, id);
            var t := SweepLevel(s, e, px, left);
            && (t.done <==> left < RemainingTotal(orders))
            && t.left == Max(left - RemainingTotal(orders), 0)
            && (i < |orders| ==>
                  && id in s.paperInfo
                  && (id in t.state.paperInfo <==> left < RemainingTotal(orders[..i + 1])))
            && (i == |orders| ==> (id in t.state.paperInfo <==> id in s.paperInfo))
  {
    var maker := e.side.Opposite();
    var pq := s.paper.At(maker)[px];
    var i := PositionOf(pq.orders, id);
    assert PaperLevelInv(s, maker, px);
    SweepEmpties(pq, left);
    if i < |pq.orders| {
      SweepGone(pq, left, i);
      assert PaperOk(s, maker, px, pq.orders[i]);
      IdIn(pq.orders, id);
    }
    hide Inv, Sweep, RemainingTotal, PositionOf;
    IdIn(pq.orders, id);
    IdIn(Sweep(pq, left).2.orders, id);
    PositionIsThere(pq.orders, id);
  }

  lemma IdIn(orders: seq<PaperOrder>, id: int)
    ensures id in Ids(orders) <==> HasId(orders, id)
  {
    if HasId(orders, id) {
      var i :| 0 <= i < |orders| && orders[i].id == id;
      assert orders[i] in orders;
    }
  }

  lemma {:induction false} PositionIsThere(orders: seq<PaperOrder>, id: int)
    ensures PositionOf(orders, id) < |orders| <==> HasId(orders, id)
  {
  }

  lemma {:induction false} ReachedNonNegative(maker: Side, levels: map<int, PaperQueue>, limit: Option<int>)
    requires forall p :: p in levels ==> PapersOk(levels[p].orders)
    ensures ReachedLots(levels, maker, limit) >= 0
    decreases |levels|
  {
    var best := BestPrice(levels, maker);
    if best.Some? && Reaches(maker, limit, best.value) {
      RemainingPositive(levels[best.value].orders);
      ReachedNonNegative(maker, levels - {best.value}, limit);
    }
  }

  lemma AllPapersOk(s: State, maker: Side)
    requires Inv(s)
    ensures forall p :: p in s.paper.At(maker) ==> PapersOk(s.paper.At(maker)[p].orders)
  {
    forall p | p in s.paper.At(maker) ensures PapersOk(s.paper.At(maker)[p].orders) {
      assert PaperLevelInv(s, maker, p);
    }
  }

  lemma {:induction false} ReachedStep(s: State, maker: Side, limit: Option<int>)
    requires Inv(s)
    ensures var levels := s.paper.At(maker);
            var best := BestPrice(levels, maker);
            && ReachedLots(levels, maker, limit) >= 0
            && (best.None? || !Reaches(maker, limit, best.value) ==> ReachedLots(levels, maker, limit) == 0)
            && (best.Some? && Reaches(maker, limit, best.value) ==>
                  var rest := ReachedLots(levels - {best.value}, maker, limit);
                  rest >= 0 && ReachedLots(levels, maker, limit) == RemainingTotal(levels[best.value].orders) + rest)
  {
    var levels := s.paper.At(maker);
    var best := BestPrice(levels, maker);
    AllPapersOk(s, maker);
    hide Inv, PapersOk, RemainingTotal;
    ReachedNonNegative(maker, levels, limit);
    if best.Some? {
      ReachedNonNegative(maker, levels - {best.value}, limit);
    }
  }

  /** A sweep is left with what exceeds the lots within its limit. */
  lemma {:induction false} SweepLeft(s: State, e: Event, limit: Option<int>, left: int)
    requires Inv(s) && left >= 0
    ensures SweepPapers(s, e, limit, left).left
         == Max(left - ReachedLots(s.paper.At(e.side.Opposite()), e.side.Opposite(), limit), 0)
    decreases |s.paper.At(e.side.Opposite())|
  {
    hide Inv, SweepLevel, RemainingTotal, PositionOf, ReachedLots;
    var maker := e.side.Opposite();
    var levels := s.paper.At(maker);
    var best := BestPrice(levels, maker);
    ReachedStep(s, maker, limit);
    if left > 0 && best.Some? && Reaches(maker, limit, best.value) {
      var t := SweepLevel(s, e, best.value, left);
      SweepLevelInv(s, e, best.value, left);
      LevelGone(s, e, best.value, left, 0);
      if !t.done {
        SweepShrinks(s, e, best.value, left);
        SweepLeft(t.state, e, limit, t.left);
      }
    }
  }

  /** A resting order is gone after a sweep exactly when the lots reach through it. */
  lemma {:induction false} SweepAway(s: State, e: Event, limit: Option<int>, left: int, id: int)
    requires Inv(s) && left >= 0 && id in s.paperInfo
    ensures id !in SweepPapers(s, e, limit, left).state.paperInfo
       <==> SweptAway(s.paper.At(e.side.Opposite()), e.side.Opposite(), limit, left, id)
    decreases |s.paper.At(e.side.Opposite())|
  {
    hide Inv, SweepLevel, RemainingTotal, PositionOf;
    var maker := e.side.Opposite();
    var levels := s.paper.At(maker);
    var best := BestPrice(levels, maker);
    if left > 0 && best.Some? && Reaches(maker, limit, best.value) {
      var t := SweepLevel(s, e, best.value, left);
      var orders := levels[best.value].orders;
      SweepLevelInv(s, e, best.value, left);
      LevelGone(s, e, best.value, left, id);
      PrefixLots(s, maker, best.value, id);
      if !t.done {
        SweepShrinks(s, e, best.value, left);
        SweepPapersInv(t.state, e, limit, t.left);
        if id in t.state.paperInfo {
          SweepAway(t.state, e, limit, t.left, id);
        }
      }
    }
  }

  /** A prefix of a level holds no more lots than the level. */
  lemma {:induction false} PrefixLots(s: State, maker: Side, px: int, id: int)
    requires Inv(s) && px in s.paper.At(maker)
    ensures var orders := s.paper.At(maker)[px].orders;
            var i := PositionOf(orders, id);
            i < |orders| ==> RemainingTotal(orders[..i + 1]) <= RemainingTotal(orders)
  {
    var orders := s.paper.At(maker)[px].orders;
    var i := PositionOf(orders, id);
    assert PaperLevelInv(s, maker, px);
    if i < |orders| {
      assert orders == orders[..i + 1] + orders[i + 1..];
      PaperIndex.RemainingTotalConcat(orders[..i + 1], orders[i + 1..]);
      assert PapersOk(orders[i + 1..]);
      RemainingPositive(orders[i + 1..]);
    }
  }

  // ---- the exact condition ------------------------------------------------------------------

  /** An entry that nothing rests for can take these fills without its numbers breaking. */
  ghost predicate Absorbs(e: L.Entry, lots: int) {
    e.state.status == FullyFilled ==> e.state.filled + lots <= e.state.initial
  }

  /**
   * A strategy ADD keeps the agreement: a new id is not "no id" nor that of a historical order, and
   * what is left to rest finds room; an id the ledger knows is refused by both, or it leaves nothing
   * at rest and the old entry absorbs its fills.
   */
  ghost predicate KeepsAdd(caps: Caps, s: State, ledger: L.Orders, e: Event) {
    var room := |s.paperInfo| < caps.paper;
    if e.id in ledger then
      || e.id in s.info || e.id in s.paperInfo
      || ((Remainder(s, e) <= 0 || !room) && Absorbs(ledger[e.id], e.qty - Remainder(s, e)))
    else e.id != UNKNOWN_ID && e.id !in s.info && (Remainder(s, e) <= 0 || room)
  }

  /** The lots that an aggressive trade takes, from the book and from strategy orders. */
  ghost function TradeLots(s: State, e: Event): int {
    var maker := e.side.Opposite();
    e.qty - Max(BookLeft(s, e) - ReachedLots(s.paper.At(maker), maker, None), 0)
  }

  ghost function BookLeft(s: State, e: Event): int {
    DryRun(s.hist.At(e.side.Opposite()), e.side.Opposite(), None, e.qty).1
  }

  /**
   * An aggressive trade keeps the agreement: its id is new to the ledger, or it takes nothing, or
   * nothing rests under the id and the old entry absorbs its fills, or it takes the whole order that
   * rests under its own id and the entry absorbs both sides of that.
   */
  ghost predicate KeepsTrade(s: State, ledger: L.Orders, e: Event) {
    var maker := e.side.Opposite();
    e.id in ledger ==>
      if e.id !in s.paperInfo then Absorbs(ledger[e.id], TradeLots(s, e))
      else
        || TradeLots(s, e) == 0
        || (SweptAway(s.paper.At(maker), maker, None, BookLeft(s, e), e.id)
            && ledger[e.id].state.filled + TradeLots(s, e) + Remaining(s, e.id) <= ledger[e.id].state.initial)
  }

  ghost predicate Keeps(caps: Caps, s: State, ledger: L.Orders, e: Event) {
    e.source == Strategy && e.qty > 0 ==>
      && (e.kind == Add ==> KeepsAdd(caps, s, ledger, e))
      && (e.kind == AggressiveTrade ==> KeepsTrade(s, ledger, e))
  }

  // ---- every other id -----------------------------------------------------------------------

  /** What a strategy ADD does to any other id: nothing, in the engine and in the ledger. */
  lemma AddOthers(caps: Caps, s: State, ledger: L.Orders, e: Event, id: int)
    requires Inv(s) && AgreesOn(s, ledger, id) && e.kind == Add && e.source == Strategy && id != e.id
    ensures var r := OnAdd(caps, s, e);
            AgreesOn(r.0, L.Replay(L.UpdateStrategyOrder(ledger, s.seq_, e), r.1), id)
  {
    var updated := L.UpdateStrategyOrder(ledger, s.seq_, e);
    assert AgreesOn(s, updated, id);
    if e.qty >= 0 && e.id !in s.info && e.id !in s.paperInfo {
      var maker := e.side.Opposite();
      var d := DryRun(s.hist.At(maker), maker, Some(e.price), e.qty);
      var hits := HitRecords(s.seq_, maker, d.0, e.id, e.source);
      QueuesAreHistorical(s, maker);
      DryRunTo(s.seq_, s.hist.At(maker), maker, Some(e.price), e.qty, e, id);
      AddInv(caps, s, e);
      if |s.paperInfo| < caps.paper {
        RestPaperTo(caps, s, e, d.1, id);
      } else {
        NoRoomForPaper(caps, s, e, d.1);
      }
      hide Inv, DryRun, HitRecords, LotsTo, PositiveFills, Remaining, RestPaper;
      if id in updated {
        ReplayEffect(updated, hits, id);
      } else {
        ReplayAbsent(updated, hits, id);
      }
    }
  }

  // ---- the id of the event ------------------------------------------------------------------

  /** Where nothing rests under an id, the ledger's entry for it is not live. */
  lemma NotLive(s: State, ledger: L.Orders, id: int)
    requires AgreesOn(s, ledger, id) && id in ledger && id !in s.paperInfo
    ensures !L.Live(ledger[id]) && ledger[id].state.remaining == 0
  {
  }

  /** Fills of an entry that nothing rests for, before and after: only its numbers are at stake. */
  lemma DeadAfter(s: State, s': State, ledger: L.Orders, after: L.Orders, lots: int, id: int)
    requires AgreesOn(s, ledger, id) && id in ledger && id !in s.paperInfo && id !in s'.paperInfo
    requires id in after && FilledBy(ledger[id], after[id], lots) && lots >= 0
    ensures AgreesOn(s', after, id) <==> Absorbs(ledger[id], lots)
  {
    hide L.FilledLots;
    NotLive(s, ledger, id);
  }

  /** Fills never take an entry away. */
  lemma {:induction false} EntryStays(ledger: L.Orders, records: seq<Record>, id: int)
    requires PositiveFills(records) && id in ledger
    ensures id in L.Replay(ledger, records)
    decreases |records|
  {
    if records != [] {
      EntryStays(L.OnRecord(ledger, records[0]), records[1..], id);
    }
  }

  /** An ADD under an id that the ledger has already. */
  lemma {:induction false} AddKnown(caps: Caps, s: State, ledger: L.Orders, e: Event)
    requires Inv(s) && AgreesOn(s, ledger, e.id) && e.kind == Add && e.source == Strategy && e.qty > 0
    requires e.id in ledger
    ensures var r := OnAdd(caps, s, e);
            AgreesOn(r.0, L.Replay(ledger, r.1), e.id) <==> KeepsAdd(caps, s, ledger, e)
  {
    if e.id !in s.info && e.id !in s.paperInfo {
      var hits := Hits(s, e);
      AddHits(s, e);
      AddLeaves(caps, s, e);
      hide Inv, DryRun, HitRecords, LotsTo, PositiveFills, FilledBy, Absorbs, Remaining, RestPaper, Remainder,
           L.FilledLots;
      ReplayAny(ledger, hits, e.id);
      var s' := OnAdd(caps, s, e).0;
      if e.id !in s'.paperInfo {
        DeadAfter(s, s', ledger, L.Replay(ledger, hits), e.qty - Remainder(s, e), e.id);
      } else {
        StaysDead(s, ledger, L.Replay(ledger, hits), e.qty - Remainder(s, e), e.id);
      }
    }
  }

  /** What is filled up already stays without open lots. */
  lemma StaysDead(s: State, ledger: L.Orders, after: L.Orders, lots: int, id: int)
    requires AgreesOn(s, ledger, id) && id in ledger && id !in s.paperInfo
    requires id in after && FilledBy(ledger[id], after[id], lots) && lots >= 0
    ensures OpenLots(after, id) == 0
  {
    hide L.FilledLots;
    NotLive(s, ledger, id);
  }

  ghost function Hits(s: State, e: Event): seq<Record> {
    var maker := e.side.Opposite();
    HitRecords(s.seq_, maker, DryRun(s.hist.At(maker), maker, Some(e.price), e.qty).0, e.id, e.source)
  }

  lemma AddHits(s: State, e: Event)
    requires Inv(s) && e.source == Strategy && e.qty >= 0
    ensures 0 <= Remainder(s, e) <= e.qty
    ensures PositiveFills(Hits(s, e)) && LotsTo(Hits(s, e), e.id) == e.qty - Remainder(s, e)
  {
    var maker := e.side.Opposite();
    QueuesAreHistorical(s, maker);
    DryRunTo(s.seq_, s.hist.At(maker), maker, Some(e.price), e.qty, e, e.id);
  }

  /** What the engine makes of an ADD that it takes up. */
  lemma AddLeaves(caps: Caps, s: State, e: Event)
    requires Inv(s) && e.kind == Add && e.source == Strategy && e.qty > 0 && e.id !in s.info && e.id !in s.paperInfo
    ensures var r := OnAdd(caps, s, e);
            var rests := Remainder(s, e) > 0 && |s.paperInfo| < caps.paper;
            && r.1 == Hits(s, e)
            && (e.id in r.0.paperInfo <==> rests)
            && Remaining(r.0, e.id) == (if rests then Remainder(s, e) else 0)
            && (rests ==> r.0.paperInfo[e.id] == Place(e.side, e.price))
  {
    AddHits(s, e);
    var maker := e.side.Opposite();
    var d := DryRun(s.hist.At(maker), maker, Some(e.price), e.qty);
    hide DryRun, HitRecords, LotsTo, PositiveFills;
    if |s.paperInfo| < caps.paper {
      RestPaperTo(caps, s, e, d.1, e.id);
    } else {
      NoRoomForPaper(caps, s, e, d.1);
    }
  }

  /** An ADD under an id that is new to the ledger. */
  lemma AddNew(caps: Caps, s: State, ledger: L.Orders, e: Event)
    requires Inv(s) && AgreesOn(s, ledger, e.id) && e.kind == Add && e.source == Strategy && e.qty > 0
    requires e.id !in ledger
    ensures var r := OnAdd(caps, s, e);
            AgreesOn(r.0, L.Replay(L.UpdateStrategyOrder(ledger, s.seq_, e), r.1), e.id)
            <==> KeepsAdd(caps, s, ledger, e)
  {
    hide Inv, Hits, LotsTo, PositiveFills, FilledBy, Remaining, RestPaper, Remainder, OnAdd;
    var started := ledger[e.id := L.Opened(s.seq_, e)];
    assert L.UpdateStrategyOrder(ledger, s.seq_, e) == started;
    NotInPaper(s, ledger, e.id);
    if e.id in s.info {
      AddRefused(caps, s, e);
      RefusedIsOpen(s, ledger, e);
    } else {
      var hits := Hits(s, e);
      AddHits(s, e);
      AddLeaves(caps, s, e);
      EntryStays(started, hits, e.id);
      if e.id != UNKNOWN_ID {
        ReplayAny(started, hits, e.id);
        OpenedAfter(caps, s, OnAdd(caps, s, e).0, e, L.Replay(started, hits));
      }
    }
  }

  lemma AddRefused(caps: Caps, s: State, e: Event)
    requires e.id in s.info
    ensures OnAdd(caps, s, e) == (s, [])
  {
  }

  lemma RefusedIsOpen(s: State, ledger: L.Orders, e: Event)
    requires AgreesOn(s, ledger, e.id) && e.id !in ledger && e.qty > 0
    ensures !AgreesOn(s, L.Replay(ledger[e.id := L.Opened(s.seq_, e)], []), e.id)
  {
  }

  /** The entry that an ADD has opened agrees with the engine if all that is left to rest rests. */
  lemma OpenedAfter(caps: Caps, s: State, s': State, e: Event, after: L.Orders)
    requires e.qty > 0 && e.id != UNKNOWN_ID && 0 <= Remainder(s, e) <= e.qty
    requires e.id in after && FilledBy(L.Opened(s.seq_, e), after[e.id], e.qty - Remainder(s, e))
    requires var rests := Remainder(s, e) > 0 && |s.paperInfo| < caps.paper;
             && (e.id in s'.paperInfo <==> rests)
             && Remaining(s', e.id) == (if rests then Remainder(s, e) else 0)
             && (rests ==> s'.paperInfo[e.id] == Place(e.side, e.price))
    ensures AgreesOn(s', after, e.id) <==> (Remainder(s, e) <= 0 || |s.paperInfo| < caps.paper)
  {
    hide Remainder, Remaining;
    assert L.FilledLots([]) == 0;
  }

  // ---- an aggressive trade under a known id -------------------------------------------------

  lemma {:induction false} NoLotsNoRecords(records: seq<Record>)
    requires PositiveFills(records)
    ensures Lots(records) >= 0 && (Lots(records) == 0 ==> records == [])
  {
    if records != [] {
      NoLotsNoRecords(records[1..]);
    }
  }

  /** The lots that the trade's report names its own id for: as taker all it takes, as maker what it loses. */
  lemma TradeReport(s: State, e: Event)
    requires Inv(s) && e.kind == AggressiveTrade && e.source == Strategy && e.qty > 0
    ensures var r := OnAggressiveTrade(s, e);
            && PositiveFills(r.1)
            && LotsTo(r.1, e.id) == TradeLots(s, e) + (Remaining(s, e.id) - Remaining(r.0, e.id))
            && 0 <= TradeLots(s, e) && (TradeLots(s, e) == 0 ==> r.1 == [])
            && (e.id in r.0.paperInfo ==> e.id in s.paperInfo && r.0.paperInfo[e.id] == s.paperInfo[e.id])
  {
    hide Inv, DryRun, SweepPapers, HitRecords, LotsTo, Lots, Remaining, ReachedLots, PositiveFills;
    var hits := TradeHits(s, e);
    var p := SweepPapers(s, e, None, BookLeft(s, e));
    BookReport(s, e);
    SweepReport(s, e, BookLeft(s, e));
    assert OnAggressiveTrade(s, e) == (p.state.(seq_ := p.state.seq_ + 1), hits + p.records);
    LotsToConcat(hits, p.records, e.id);
    PositiveConcat(hits, p.records);
    CountedRemaining(p.state, e.id);
  }

  ghost function TradeHits(s: State, e: Event): seq<Record> {
    var maker := e.side.Opposite();
    HitRecords(s.seq_, maker, DryRun(s.hist.At(maker), maker, None, e.qty).0, e.id, e.source)
  }

  lemma BookReport(s: State, e: Event)
    requires Inv(s) && e.source == Strategy && e.qty > 0
    ensures var hits := TradeHits(s, e);
            && 0 <= BookLeft(s, e) <= e.qty
            && PositiveFills(hits) && LotsTo(hits, e.id) == e.qty - BookLeft(s, e)
            && (BookLeft(s, e) == e.qty ==> hits == [])
  {
    var maker := e.side.Opposite();
    QueuesAreHistorical(s, maker);
    DryRunTo(s.seq_, s.hist.At(maker), maker, None, e.qty, e, e.id);
    TakerNone(TradeHits(s, e), e.id);
  }

  lemma {:induction false} SweepReport(s: State, e: Event, left: int)
    requires Inv(s) && e.source == Strategy && left >= 0
    ensures var p := SweepPapers(s, e, None, left);
            && PositiveFills(p.records) && 0 <= p.left <= left
            && p.left == Max(left - ReachedLots(s.paper.At(e.side.Opposite()), e.side.Opposite(), None), 0)
            && LotsTo(p.records, e.id) == left - p.left + (Remaining(s, e.id) - Remaining(p.state, e.id))
            && (p.left == left ==> p.records == [])
            && (e.id in p.state.paperInfo ==> e.id in s.paperInfo && p.state.paperInfo[e.id] == s.paperInfo[e.id])
  {
    hide Inv, SweepPapers, LotsTo, Lots, Remaining, ReachedLots, PositiveFills;
    OwnSweep(s, e, None, left);
    SweepConserves(s, e, None, left);
    SweepLeft(s, e, None, left);
    SweepPapersInv(s, e, None, left);
    NoLotsNoRecords(SweepPapers(s, e, None, left).records);
  }

  /** Positive fills that come to nothing are none. */
  lemma {:induction false} TakerNone(records: seq<Record>, id: int)
    requires PositiveFills(records) && forall i :: 0 <= i < |records| ==> NamesTaker(records[i], id)
    ensures LotsTo(records, id) == 0 ==> records == []
  {
    if records != [] {
      LotsToNonNegative(records[1..], id);
      assert NamesTaker(records[0], id);
    }
  }

  ghost predicate NamesTaker(r: Record, id: int) {
    r.Filled? && r.fill.takerId == id && r.fill.takerSource == Strategy
  }

  lemma CountedRemaining(s: State, id: int)
    ensures Remaining(s.(seq_ := s.seq_ + 1), id) == Remaining(s, id)
  {
  }

  /** The numbers of a trade under the id of a resting order. */
  lemma LiveAfter(s: State, s': State, ledger: L.Orders, after: L.Orders, taken: int, id: int)
    requires AgreesOn(s, ledger, id) && id in ledger && id in s.paperInfo && Remaining(s, id) > 0 && taken >= 0
    requires 0 <= Remaining(s', id) <= Remaining(s, id)
    requires id in s'.paperInfo <==> Remaining(s', id) > 0
    requires id in s'.paperInfo ==> s'.paperInfo[id] == s.paperInfo[id]
    requires taken == 0 ==> Remaining(s', id) == Remaining(s, id)
    requires id in after && FilledBy(ledger[id], after[id], taken + (Remaining(s, id) - Remaining(s', id)))
    ensures AgreesOn(s', after, id)
       <==> (taken == 0
             || (id !in s'.paperInfo
                 && ledger[id].state.filled + taken + Remaining(s, id) <= ledger[id].state.initial))
  {
    hide Remaining, L.FilledLots;
  }

  lemma RemainingFalls(s: State, e: Event)
    requires Inv(s) && e.kind == AggressiveTrade && e.source == Strategy && e.qty > 0
    ensures var s' := OnAggressiveTrade(s, e).0;
            && 0 <= Remaining(s', e.id) <= Remaining(s, e.id)
            && (e.id in s'.paperInfo <==> Remaining(s', e.id) > 0)
            && (e.id in s.paperInfo <==> Remaining(s, e.id) > 0)
            && (e.id in s.paperInfo ==>
                  (e.id !in s'.paperInfo
                   <==> SweptAway(s.paper.At(e.side.Opposite()), e.side.Opposite(), None, BookLeft(s, e), e.id)))
  {
    hide Inv, DryRun, SweepPapers, Remaining, SweptAway;
    AggressiveInv(s, e);
    BookReport(s, e);
    var p := SweepPapers(s, e, None, BookLeft(s, e));
    InvRemaining(s, e.id);
    InvRemaining(OnAggressiveTrade(s, e).0, e.id);
    CountedRemaining(p.state, e.id);
    SweepLowers(s, e, None, BookLeft(s, e));
    if e.id in s.paperInfo {
      SweepAway(s, e, None, BookLeft(s, e), e.id);
    }
  }

  lemma InvRemaining(s: State, id: int)
    requires Inv(s)
    ensures id in s.paperInfo <==> Remaining(s, id) > 0
    ensures Remaining(s, id) >= 0
  {
    hide PaperInv, Remaining;
    RestsIffRemaining(s, id);
  }

  /** A sweep never adds to a resting order. */
  lemma {:induction false} SweepLowers(s: State, e: Event, limit: Option<int>, left: int)
    requires Inv(s) && left >= 0
    ensures Remaining(SweepPapers(s, e, limit, left).state, e.id) <= Remaining(s, e.id)
  {
    hide Inv, SweepPapers, Remaining, LotsTo;
    var other := e.(id := e.id + 1);
    SweepPapersTo(s, other, limit, left, e.id);
    LotsToNonNegative(SweepPapers(s, other, limit, left).records, e.id);
    SweepAnyTaker(s, e, other, limit, left);
  }

  /** Who takes does not matter to what a sweep leaves. */
  lemma {:induction false} SweepAnyTaker(s: State, e: Event, f: Event, limit: Option<int>, left: int)
    requires f.side == e.side
    ensures SweepPapers(s, e, limit, left).state == SweepPapers(s, f, limit, left).state
    decreases |s.paper.At(e.side.Opposite())|
  {
    hide Sweep, Repaper, FillsOf;
    var maker := e.side.Opposite();
    var best := BestPrice(s.paper.At(maker), maker);
    if left > 0 && best.Some? && Reaches(maker, limit, best.value) {
      var t := SweepLevel(s, e, best.value, left);
      if !t.done {
        SweepShrinks(s, e, best.value, left);
        SweepAnyTaker(t.state, e, f, limit, t.left);
      }
    }
  }

  lemma {:induction false} TradeKnown(s: State, ledger: L.Orders, e: Event)
    requires Inv(s) && AgreesOn(s, ledger, e.id) && e.kind == AggressiveTrade && e.source == Strategy && e.qty > 0
    requires e.id in ledger
    ensures var r := OnAggressiveTrade(s, e);
            AgreesOn(r.0, L.Replay(ledger, r.1), e.id) <==> KeepsTrade(s, ledger, e)
  {
    hide Inv, AgreesOn, FilledBy, Absorbs, SweptAway, PositiveFills, OnAggressiveTrade, TradeLots, BookLeft, Remaining,
         LotsTo;
    var r := OnAggressiveTrade(s, e);
    var after := L.Replay(ledger, r.1);
    TradeReport(s, e);
    RemainingFalls(s, e);
    OnLedger(s, ledger, e.id);
    ReplayAny(ledger, r.1, e.id);
    if TradeLots(s, e) == 0 {
      NoRecordsTo(e.id);
    }
    if e.id in s.paperInfo {
      LiveAfter(s, r.0, ledger, after, TradeLots(s, e), e.id);
    } else {
      DeadAfter(s, r.0, ledger, after, TradeLots(s, e), e.id);
    }
  }

  lemma {:induction false} NoRecordsTo(id: int)
    ensures LotsTo([], id) == 0
  {
  }

  lemma OnLedger(s: State, ledger: L.Orders, id: int)
    requires AgreesOn(s, ledger, id) && id in ledger
    ensures id != UNKNOWN_ID && ledger[id].state.remaining >= 0
  {
    hide L.FilledLots;
  }

  // ---- every update, every run --------------------------------------------------------------

  /** The state and the ledger after an update. */
  ghost predicate AgreesAfterwards(caps: Caps, s: State, ledger: L.Orders, e: Event, id: int) {
    var r := Apply(caps, s, e);
    AgreesOn(r.0, L.Replay(L.UpdateStrategyOrder(ledger, s.seq_, e), r.1), id)
  }

  /** An ADD without lots does nothing, here or there. */
  lemma AddNothing(caps: Caps, s: State, ledger: L.Orders, e: Event)
    requires e.kind == Add && e.source == Strategy && e.qty <= 0
    ensures OnAdd(caps, s, e) == (s, []) && L.UpdateStrategyOrder(ledger, s.seq_, e) == ledger
  {
    var maker := e.side.Opposite();
    assert DryRun(s.hist.At(maker), maker, Some(e.price), e.qty) == ([], e.qty);
  }

  /** Events of other kinds, and those of the historical feed, are always fresh. */
  lemma OtherEventAgrees(caps: Caps, s: State, ledger: L.Orders, e: Event, id: int)
    requires Agree(s, ledger) && (e.source != Strategy || (e.kind != Add && e.kind != AggressiveTrade))
    ensures AgreesAfterwards(caps, s, ledger, e, id)
  {
    hide Inv, AgreesOn, Apply, L.UpdateStrategyOrder;
    ApplyAgrees(caps, s, ledger, e, id);
  }

  /** Whatever a strategy ADD or an aggressive trade does under its own id, all other ids stay in agreement. */
  lemma OthersAgree(caps: Caps, s: State, ledger: L.Orders, e: Event, id: int)
    requires Agree(s, ledger) && id != e.id
    ensures AgreesAfterwards(caps, s, ledger, e, id)
  {
    assert AgreesOn(s, ledger, id);
    hide Inv, AgreesOn, OnAdd, OnAggressiveTrade;
    if e.source == Strategy && e.kind == Add {
      AddOthers(caps, s, ledger, e, id);
    } else if e.source == Strategy && e.kind == AggressiveTrade {
      AggressiveAgrees(s, ledger, e, id);
    } else {
      OtherEventAgrees(caps, s, ledger, e, id);
    }
  }

  lemma OwnAgrees(caps: Caps, s: State, ledger: L.Orders, e: Event)
    requires Agree(s, ledger)
    ensures AgreesAfterwards(caps, s, ledger, e, e.id) <==> Keeps(caps, s, ledger, e)
  {
    assert AgreesOn(s, ledger, e.id);
    hide Inv, AgreesOn, OnAdd, OnAggressiveTrade, KeepsAdd, KeepsTrade;
    if e.source == Strategy && e.kind == Add {
      OwnAdd(caps, s, ledger, e);
    } else if e.source == Strategy && e.kind == AggressiveTrade {
      OwnTrade(caps, s, ledger, e);
    } else {
      OtherEventAgrees(caps, s, ledger, e, e.id);
    }
  }

  lemma OwnAdd(caps: Caps, s: State, ledger: L.Orders, e: Event)
    requires Inv(s) && AgreesOn(s, ledger, e.id) && e.source == Strategy && e.kind == Add
    ensures AgreesAfterwards(caps, s, ledger, e, e.id) <==> Keeps(caps, s, ledger, e)
  {
    hide Inv, AgreesOn, OnAdd, KeepsAdd;
    if e.qty <= 0 {
      AddNothing(caps, s, ledger, e);
    } else if e.id in ledger {
      AddKnown(caps, s, ledger, e);
    } else {
      AddNew(caps, s, ledger, e);
    }
  }

  lemma OwnTrade(caps: Caps, s: State, ledger: L.Orders, e: Event)
    requires Inv(s) && AgreesOn(s, ledger, e.id) && e.source == Strategy && e.kind == AggressiveTrade
    ensures AgreesAfterwards(caps, s, ledger, e, e.id) <==> Keeps(caps, s, ledger, e)
  {
    hide Inv, AgreesOn;
    if e.qty > 0 && e.id in ledger {
      hide OnAggressiveTrade, KeepsTrade;
      TradeKnown(s, ledger, e);
    } else if e.qty > 0 {
      hide OnAggressiveTrade;
      AggressiveAgrees(s, ledger, e, e.id);
    }
  }

  /**
   * The exact condition for one update, whatever its id: engine and ledger are in agreement after it
   * if and only if it keeps the agreement in the state that it meets.
   */
  lemma {:induction false} StepAgreesExactly(caps: Caps, s: State, ledger: L.Orders, e: Event)
    requires Agree(s, ledger)
    ensures var r := Step(caps, s, e);
            Agree(r.0, L.Replay(ledger, r.1)) <==> Keeps(caps, s, ledger, e)
  {
    StepInv(caps, s, e);
    ReplayOfStep(caps, s, ledger, e);
    hide Inv, AgreesOn, Apply, Keeps, L.UpdateStrategyOrder;
    OwnAgrees(caps, s, ledger, e);
    var after := L.Replay(ledger, Step(caps, s, e).1);
    forall id ensures id == e.id || AgreesAfterwards(caps, s, ledger, e, id)
              ensures AgreesOn(Step(caps, s, e).0, after, id) <==> AgreesAfterwards(caps, s, ledger, e, id) {
      if id != e.id {
        OthersAgree(caps, s, ledger, e, id);
      }
      CountedAgrees(Apply(caps, s, e).0, after, id);
    }
  }

  lemma CountedAgrees(s: State, ledger: L.Orders, id: int)
    ensures AgreesOn(s.(seq_ := s.seq_ + 1), ledger, id) <==> AgreesOn(s, ledger, id)
  {
  }

  /** The strategy's promise is enough. */
  lemma FreshKeeps(caps: Caps, s: State, ledger: L.Orders, e: Event)
    requires Agree(s, ledger) && Fresh(caps, s, ledger, e)
    ensures Keeps(caps, s, ledger, e)
  {
    hide Agree, Keeps;
    StepAgrees(caps, s, ledger, e);
    StepAgreesExactly(caps, s, ledger, e);
  }

  /** After `k` events of a run. */
  ghost predicate AgreeAt(caps: Caps, s: State, ledger: L.Orders, events: seq<Event>, k: nat)
    requires k <= |events|
  {
    var r := Run(caps, s, events[..k]);
    Agree(r.0, L.Replay(ledger, r.1))
  }

  ghost predicate KeepsAt(caps: Caps, s: State, ledger: L.Orders, events: seq<Event>, k: nat)
    requires k < |events|
  {
    var r := Run(caps, s, events[..k]);
    Keeps(caps, r.0, L.Replay(ledger, r.1), events[k])
  }

  lemma AgreeNext(caps: Caps, s: State, ledger: L.Orders, events: seq<Event>, k: nat)
    requires k < |events| && AgreeAt(caps, s, ledger, events, k)
    ensures AgreeAt(caps, s, ledger, events, k + 1) <==> KeepsAt(caps, s, ledger, events, k)
  {
    hide Agree, Keeps, Step;
    var r := Run(caps, s, events[..k]);
    assert events[..k + 1] == events[..k] + [events[k]];
    RunNext(caps, s, events[..k], events[k]);
    StepAgreesExactly(caps, r.0, L.Replay(ledger, r.1), events[k]);
    L.ReplayConcat(ledger, r.1, Step(caps, r.0, events[k]).1);
  }

  lemma {:induction false} AgreeUpTo(caps: Caps, s: State, ledger: L.Orders, events: seq<Event>, k: nat)
    requires Agree(s, ledger) && k <= |events|
    requires forall i :: 0 <= i < |events| ==> KeepsAt(caps, s, ledger, events, i)
    ensures AgreeAt(caps, s, ledger, events, k)
  {
    hide Agree, KeepsAt;
    if k > 0 {
      AgreeUpTo(caps, s, ledger, events, k - 1);
      AgreeNext(caps, s, ledger, events, k - 1);
    } else {
      RunNone(caps, s);
    }
  }

  /** A run keeps engine and ledger in agreement throughout if and only if each of its events does. */
  lemma RunAgreesExactly(caps: Caps, s: State, ledger: L.Orders, events: seq<Event>)
    requires Agree(s, ledger)
    ensures (forall k :: 0 <= k <= |events| ==> AgreeAt(caps, s, ledger, events, k))
       <==> (forall k :: 0 <= k < |events| ==> KeepsAt(caps, s, ledger, events, k))
  {
    hide Agree, AgreeAt, KeepsAt;
    if forall k :: 0 <= k < |events| ==> KeepsAt(caps, s, ledger, events, k) {
      forall k | 0 <= k <= |events| ensures AgreeAt(caps, s, ledger, events, k) {
        AgreeUpTo(caps, s, ledger, events, k);
      }
    }
    if forall k :: 0 <= k <= |events| ==> AgreeAt(caps, s, ledger, events, k) {
      forall k | 0 <= k < |events| ensures KeepsAt(caps, s, ledger, events, k) {
        assert AgreeAt(caps, s, ledger, events, k) && AgreeAt(caps, s, ledger, events, k + 1);
        AgreeNext(caps, s, ledger, events, k);
      }
    }
  }
}
