/**
 * The single-book engine as a state machine on values: what every update does to the historical
 * book and to the overlay of strategy orders, and what it reports.
 */
module Book {
  import opened Types
  import opened PriceHeap
  import opened Level

  /** Where an order is queued. */
  datatype Place = Place(side: Side, price: int)

  /** Where an order id is found: its place and the stamp of its node. */
  datatype Loc = Loc(side: Side, price: int, arrival: nat)

  datatype Caps = Caps(historical: nat, paper: nat)

  datatype State = State(
    hist: Sides<map<int, seq<Order>>>,
    nodes: map<nat, Place>,
    info: map<int, Loc>,
    paper: Sides<map<int, PaperQueue>>,
    paperInfo: map<int, Place>,
    clock: nat,
    seq_: nat)

  const EMPTY: State := State(Sides(map[], map[]), map[], map[], Sides(map[], map[]), map[], 0, 0)

  function QueueAt(hist: Sides<map<int, seq<Order>>>, side: Side, price: int): seq<Order> {
    var levels := hist.At(side);
    if price in levels then levels[price] else []
  }

  function PutQueue(levels: map<int, seq<Order>>, price: int, queue: seq<Order>): map<int, seq<Order>> {
    if queue == [] then levels - {price} else levels[price := queue]
  }

  function PutPapers(levels: map<int, PaperQueue>, price: int, pq: PaperQueue): map<int, PaperQueue> {
    if pq.orders == [] then levels - {price} else levels[price := pq]
  }

  // ---- elementary changes -------------------------------------------------------------------

  function Stamps(queue: seq<Order>): set<nat> {
    set o | o in queue :: o.arrival
  }

  /** Stamps and ids of the orders of a queue that are no longer in its successor. */
  function GoneStamps(queue: seq<Order>, queue': seq<Order>): set<nat> {
    set o | o in queue && o.arrival !in Stamps(queue') :: o.arrival
  }

  function GoneIds(queue: seq<Order>, queue': seq<Order>): set<int> {
    set o | o in queue && o.arrival !in Stamps(queue') :: o.id
  }

  /** The queue at a price becomes `queue'`; orders that left lose their node and their index entry. */
  function Requeue(s: State, side: Side, price: int, queue': seq<Order>): State {
    var queue := QueueAt(s.hist, side, price);
    s.(
      hist := s.hist.With(side, PutQueue(s.hist.At(side), price, queue')),
      nodes := s.nodes - GoneStamps(queue, queue'),
      info := s.info - GoneIds(queue, queue'))
  }

  function Ids(orders: seq<PaperOrder>): set<int> {
    set p | p in orders :: p.id
  }

  /** The strategy orders at a price become `pq'`; those that left are forgotten. */
  function Repaper(s: State, side: Side, price: int, pq': PaperQueue): State
    requires price in s.paper.At(side)
  {
    var pq := s.paper.At(side)[price];
    s.(
      paper := s.paper.With(side, PutPapers(s.paper.At(side), price, pq')),
      paperInfo := s.paperInfo - (Ids(pq.orders) - Ids(pq'.orders)))
  }

  /** A historical order comes to rest, if the node pool has room. */
  function RestHistorical(caps: Caps, s: State, e: Event, qty: int): State {
    if |s.nodes| < caps.historical then
      var o := Order(e.id, qty, e.source, s.clock);
      s.(
        hist := s.hist.With(e.side, s.hist.At(e.side)[e.price := QueueAt(s.hist, e.side, e.price) + [o]]),
        nodes := s.nodes[s.clock := Place(e.side, e.price)],
        info := s.info[e.id := Loc(e.side, e.price, s.clock)],
        clock := s.clock + 1)
    else s
  }

  function PapersAt(s: State, side: Side, price: int): PaperQueue {
    if price in s.paper.At(side) then s.paper.At(side)[price] else PaperQueue([], 0)
  }

  /** A strategy order comes to rest, if the paper pool has room. */
  function RestPaper(caps: Caps, s: State, e: Event, qty: int): State {
    if |s.paperInfo| < caps.paper then
      var pq := PapersAt(s, e.side, e.price);
      var p := PaperOrder(e.id, qty, s.clock);
      s.(
        paper := s.paper.With(e.side, s.paper.At(e.side)[e.price := pq.(orders := pq.orders + [p])]),
        paperInfo := s.paperInfo[e.id := Place(e.side, e.price)],
        clock := s.clock + 1)
    else s
  }

  // ---- reports ------------------------------------------------------------------------------

  function FillOf(seq_: nat, maker: Side, price: int, t: Trade, takerId: int, takerSource: Source): Record {
    Filled(Fill(seq_, price, t.qty, maker, t.id, t.source, takerId, takerSource))
  }

  function FillsOf(seq_: nat, maker: Side, price: int, trades: seq<Trade>, takerId: int,
                   takerSource: Source): (r: seq<Record>)
    ensures |r| == |trades|
  {
    seq(|trades|, i requires 0 <= i < |trades| => FillOf(seq_, maker, price, trades[i], takerId, takerSource))
  }

  /** Only an ADD is known as the aggressor of the shadow fills it causes. */
  function ShadowTaker(e: Event): int {
    if e.kind == Add then e.id else UNKNOWN_ID
  }

  // ---- matching against the historical book -------------------------------------------------

  predicate Reaches(maker: Side, limit: Option<int>, price: int) {
    limit.None? || Crosses(maker, limit.value, price)
  }

  /** Shadow fills of the strategy orders that wait at a price where `traded` lots changed hands. */
  function ShadowAt(s: State, side: Side, price: int, market: seq<Order>, traded: int, e: Event): (State, seq<Record>) {
    if traded <= 0 || price !in s.paper.At(side) then (s, [])
    else
      var r := Shadow(market, s.paper.At(side)[price], traded, 0);
      (Repaper(s, side, price, r.1), FillsOf(s.seq_, side, price, r.0, ShadowTaker(e), e.source))
  }

  datatype Outcome = Outcome(state: State, records: seq<Record>, left: int)

  /** One level of matching; `done` says that the level outlived the trade. */
  datatype LevelOutcome = LevelOutcome(state: State, records: seq<Record>, left: int, done: bool)

  /** A historical order trades at one level: real fills first, then the shadow fills. */
  function TradeLevel(s: State, e: Event, px: int, left: int): LevelOutcome {
    var maker := e.side.Opposite();
    var queue := QueueAt(s.hist, maker, px);
    var c := Consume(queue, left);
    var sh := ShadowAt(Requeue(s, maker, px, c.rest), maker, px, queue, left - c.left, e);
    LevelOutcome(sh.0, FillsOf(s.seq_, maker, px, c.trades, e.id, e.source) + sh.1, c.left, c.rest != [])
  }

  /** A historical order trades level by level, best price first. */
  ghost function MatchHistorical(s: State, e: Event, left: int): Outcome
    decreases |s.hist.At(e.side.Opposite())|
  {
    var maker := e.side.Opposite();
    var levels := s.hist.At(maker);
    var best := BestPrice(levels, maker);
    if left <= 0 || best.None? || !Crosses(maker, e.price, best.value) then Outcome(s, [], left)
    else
      var t := TradeLevel(s, e, best.value, left);
      if t.done then Outcome(t.state, t.records, t.left)
      else
        var r := MatchHistorical(t.state, e, t.left);
        Outcome(r.state, t.records + r.records, r.left)
  }

  /** A fill against the historical book, wherever it is found. */
  datatype Hit = Hit(price: int, trade: Trade)

  function HitsAt(price: int, trades: seq<Trade>): (r: seq<Hit>)
    ensures |r| == |trades|
  {
    seq(|trades|, i requires 0 <= i < |trades| => Hit(price, trades[i]))
  }

  function HitRecords(seq_: nat, maker: Side, hits: seq<Hit>, takerId: int, takerSource: Source): (r: seq<Record>)
    ensures |r| == |hits|
  {
    seq(|hits|, i requires 0 <= i < |hits| => FillOf(seq_, maker, hits[i].price, hits[i].trade, takerId, takerSource))
  }

  /** What a strategy order would trade with the historical book, which it leaves alone. */
  ghost function DryRun(levels: map<int, seq<Order>>, maker: Side, limit: Option<int>, left: int): (seq<Hit>, int)
    decreases |levels|
  {
    var best := BestPrice(levels, maker);
    if left <= 0 || best.None? || !Reaches(maker, limit, best.value) then ([], left)
    else
      var px := best.value;
      var c := Consume(levels[px], left);
      var r := DryRun(levels - {px}, maker, limit, c.left);
      (HitsAt(px, c.trades) + r.0, r.1)
  }

  /** An aggressor takes the resting strategy orders of one level. */
  function SweepLevel(s: State, e: Event, px: int, left: int): LevelOutcome
    requires px in s.paper.At(e.side.Opposite())
  {
    var maker := e.side.Opposite();
    var r := Sweep(s.paper.At(maker)[px], left);
    LevelOutcome(
      Repaper(s, maker, px, r.2), FillsOf(s.seq_, maker, px, r.0, e.id, e.source), r.1, r.2.orders != [])
  }

  /** An aggressor takes resting strategy orders directly, best level first. */
  ghost function SweepPapers(s: State, e: Event, limit: Option<int>, left: int): Outcome
    decreases |s.paper.At(e.side.Opposite())|
  {
    var maker := e.side.Opposite();
    var levels := s.paper.At(maker);
    var best := BestPrice(levels, maker);
    if left <= 0 || best.None? || !Reaches(maker, limit, best.value) then Outcome(s, [], left)
    else
      var t := SweepLevel(s, e, best.value, left);
      if t.done then Outcome(t.state, t.records, t.left)
      else
        var o := SweepPapers(t.state, e, limit, t.left);
        Outcome(o.state, t.records + o.records, o.left)
  }

  // ---- the events ---------------------------------------------------------------------------

  ghost function AddHistorical(caps: Caps, s: State, e: Event): (State, seq<Record>) {
    var m := MatchHistorical(s, e, e.qty);
    var p := SweepPapers(m.state, e, Some(e.price), m.left);
    (if p.left > 0 then RestHistorical(caps, p.state, e, p.left) else p.state, m.records + p.records)
  }

  ghost function AddPaper(caps: Caps, s: State, e: Event): (State, seq<Record>) {
    var maker := e.side.Opposite();
    var d := DryRun(s.hist.At(maker), maker, Some(e.price), e.qty);
    (if d.1 > 0 then RestPaper(caps, s, e, d.1) else s, HitRecords(s.seq_, maker, d.0, e.id, e.source))
  }

  ghost function OnAdd(caps: Caps, s: State, e: Event): (State, seq<Record>) {
    if e.qty < 0 || e.id in s.info || e.id in s.paperInfo then (s, [])
    else if e.source == Strategy then AddPaper(caps, s, e)
    else AddHistorical(caps, s, e)
  }

  /** A valid aggressive trade advances the event counter a second time. */
  ghost function OnAggressiveTrade(s: State, e: Event): (State, seq<Record>) {
    if e.source != Strategy || e.qty <= 0 then (s, [])
    else
      var maker := e.side.Opposite();
      var d := DryRun(s.hist.At(maker), maker, None, e.qty);
      var p := SweepPapers(s, e, None, d.1);
      (p.state.(seq_ := p.state.seq_ + 1), HitRecords(s.seq_, maker, d.0, e.id, e.source) + p.records)
  }

  /** The position of a stamp in a queue, or its length. */
  function IndexOf(queue: seq<Order>, stamp: nat): (i: nat)
    ensures i <= |queue|
    ensures i < |queue| ==> queue[i].arrival == stamp
    ensures forall j :: 0 <= j < i ==> queue[j].arrival != stamp
  {
    if queue == [] || queue[0].arrival == stamp then 0 else 1 + IndexOf(queue[1..], stamp)
  }

  function PositionOf(orders: seq<PaperOrder>, id: int): (i: nat)
    ensures i <= |orders|
    ensures i < |orders| ==> orders[i].id == id
    ensures forall j :: 0 <= j < i ==> orders[j].id != id
  {
    if orders == [] || orders[0].id == id then 0 else 1 + PositionOf(orders[1..], id)
  }

  /** The live quantity of a historical order id, or zero. */
  function LiveQty(s: State, id: int): int {
    if id !in s.info then 0
    else
      var queue := QueueAt(s.hist, s.info[id].side, s.info[id].price);
      var i := IndexOf(queue, s.info[id].arrival);
      if i < |queue| then queue[i].qty else 0
  }

  function LiveSource(s: State, id: int): Source {
    if id !in s.info then Unknown
    else
      var queue := QueueAt(s.hist, s.info[id].side, s.info[id].price);
      var i := IndexOf(queue, s.info[id].arrival);
      if i < |queue| then queue[i].source else Unknown
  }

  /** A historical order's quantity changes by `delta`; at zero the order leaves. */
  function ChangeQty(s: State, id: int, delta: int): State {
    if id !in s.info then s
    else
      var loc := s.info[id];
      var queue := QueueAt(s.hist, loc.side, loc.price);
      var i := IndexOf(queue, loc.arrival);
      if i < |queue| then Requeue(s, loc.side, loc.price, Changed(queue, i, delta)) else s
  }

  /** A strategy order's remainder becomes `remaining`; at zero the order leaves. */
  function SetRemaining(s: State, id: int, remaining: int): State {
    if id !in s.paperInfo then s
    else
      var place := s.paperInfo[id];
      if place.price !in s.paper.At(place.side) then s
      else
        var pq := s.paper.At(place.side)[place.price];
        var i := PositionOf(pq.orders, id);
        if i >= |pq.orders| then s
        else if remaining == 0 then Repaper(s, place.side, place.price, pq.(orders := WithoutAt(pq.orders, i)))
        else Repaper(s, place.side, place.price, pq.(orders := pq.orders[i := pq.orders[i].(remaining := remaining)]))
  }

  /** The live remainder of a strategy order id, or zero. */
  function Remaining(s: State, id: int): int {
    if id !in s.paperInfo then 0
    else
      var pq := PapersAt(s, s.paperInfo[id].side, s.paperInfo[id].price);
      var i := PositionOf(pq.orders, id);
      if i < |pq.orders| then pq.orders[i].remaining else 0
  }

  function OnDelete(s: State, e: Event): State {
    if e.source == Strategy then SetRemaining(s, e.id, 0)
    else ChangeQty(s, e.id, -LiveQty(s, e.id))
  }

  function OnSubtract(s: State, e: Event): State {
    if e.qty <= 0 then s
    else if e.source == Strategy then SetRemaining(s, e.id, Max(Remaining(s, e.id) - e.qty, 0))
    else ChangeQty(s, e.id, -Min(LiveQty(s, e.id), e.qty))
  }

  function OnSet(s: State, e: Event): State {
    if e.source == Strategy then SetRemaining(s, e.id, Max(e.qty, 0))
    else ChangeQty(s, e.id, Max(e.qty, 0) - LiveQty(s, e.id))
  }

  /** A trade against a known resting order: shadow fills first, then the reported passive fill. */
  function OnMatch(s: State, e: Event): (State, seq<Record>) {
    if e.qty <= 0 || e.id !in s.info then (s, [])
    else
      var loc := s.info[e.id];
      var take := Min(LiveQty(s, e.id), e.qty);
      var sh := ShadowAt(s, loc.side, loc.price, QueueAt(s.hist, loc.side, loc.price), take, e);
      var passive := Trade(e.id, LiveSource(s, e.id), take, loc.arrival);
      (ChangeQty(sh.0, e.id, -take),
       sh.1 + [FillOf(s.seq_, loc.side, loc.price, passive, UNKNOWN_ID, e.source)])
  }

  ghost function Apply(caps: Caps, s: State, e: Event): (State, seq<Record>) {
    match e.kind
    case Add => OnAdd(caps, s, e)
    case AggressiveTrade => OnAggressiveTrade(s, e)
    case Delete => (OnDelete(s, e), [])
    case Subtract => (OnSubtract(s, e), [])
    case Set => (OnSet(s, e), [])
    case Match => OnMatch(s, e)
  }

  /** One update: it is logged, applied, and counted. */
  ghost function Step(caps: Caps, s: State, e: Event): (State, seq<Record>) {
    var r := Apply(caps, s, e);
    (r.0.(seq_ := r.0.seq_ + 1), [Applied(s.seq_, e)] + r.1)
  }

  ghost function Run(caps: Caps, s: State, events: seq<Event>): (State, seq<Record>)
    decreases |events|
  {
    if events == [] then (s, [])
    else
      var r := Run(caps, s, events[..|events| - 1]);
      var t := Step(caps, r.0, events[|events| - 1]);
      (t.0, r.1 + t.1)
  }
}
