/**
 * The price heaps of the book: max-heaps of ranks that are cleaned lazily, so they may hold stale
 * and duplicate entries. A heap is kept as a falling sequence with its top first.
 */
module PriceHeap {
  import opened Types

  type Heap = seq<int>

  ghost predicate Falling(heap: Heap) {
    forall i, j :: 0 <= i < j < |heap| ==> heap[i] >= heap[j]
  }

  function Push(heap: Heap, x: int): (r: Heap)
    ensures Falling(heap) ==> Falling(r)
    ensures forall y :: y in r <==> y == x || y in heap
  {
    var k := Position(heap, x);
    heap[..k] + [x] + heap[k..]
  }

  /** How many leading entries of the heap stay above `x`. */
  function Position(heap: Heap, x: int): (k: nat)
    ensures k <= |heap|
    ensures forall j :: 0 <= j < k ==> heap[j] > x
    ensures k < |heap| ==> heap[k] <= x
  {
    if heap == [] || x >= heap[0] then 0 else 1 + Position(heap[1..], x)
  }

  /** Every live price is on the heap; stale and duplicate entries are allowed. */
  ghost predicate Covers<T>(heap: Heap, levels: map<int, T>, side: Side) {
    Falling(heap) && forall p <- levels :: Rank(side, p) in heap
  }

  /** The price that trades first among a nonempty set. */
  ghost predicate IsBest(p: int, prices: set<int>, side: Side) {
    p in prices && forall q :: q in prices ==> Rank(side, q) <= Rank(side, p)
  }

  ghost function Best(prices: set<int>, side: Side): (p: int)
    requires exists q :: q in prices
    ensures IsBest(p, prices, side)
  {
    var q :| q in prices;
    if forall r :: r in prices ==> r == q then q
    else
      var r :| r in prices && r != q;
      assert r in prices - {q};
      var p := Best(prices - {q}, side);
      if Rank(side, q) > Rank(side, p) then q else p
  }

  lemma {:induction false} BestUnique(p: int, prices: set<int>, side: Side)
    requires IsBest(p, prices, side)
    ensures p == Best(prices, side)
  {
  }

  /** What a look at the book's best price returns. */
  ghost function BestPrice<T>(levels: map<int, T>, side: Side): Option<int> {
    if exists p :: p in levels.Keys then Some(Best(levels.Keys, side)) else None
  }

  /** Nothing on the heap stands for a level that is out of sight. */
  ghost predicate Sees<T>(heap: Heap, levels: map<int, T>, visible: map<int, T>, side: Side) {
    && (forall p :: p in visible ==> p in levels)
    && (forall p :: p in levels && Rank(side, p) in heap ==> p in visible)
  }

  /** An entry that stands for nothing in sight may be dropped from the top. */
  lemma DropTop<T>(levels: map<int, T>, visible: map<int, T>, heap: Heap, side: Side)
    requires Covers(heap, visible, side) && Sees(heap, levels, visible, side)
    requires heap != [] && Rank(side, heap[0]) !in visible
    ensures Covers(heap[1..], visible, side) && Sees(heap[1..], levels, visible, side)
  {
    forall p | p in visible ensures Rank(side, p) in heap[1..] {
      assert Rank(side, p) in heap && Rank(side, p) != heap[0];
    }
  }

  /** A live top is the best price in sight. */
  lemma TopIsBest<T>(visible: map<int, T>, heap: Heap, side: Side)
    requires Covers(heap, visible, side) && heap != [] && Rank(side, heap[0]) in visible
    ensures BestPrice(visible, side) == Some(Rank(side, heap[0]))
  {
    assert IsBest(Rank(side, heap[0]), visible.Keys, side);
  }

  /**
   * Looks for the best live price and drops stale tops on the way. A level in the map is never
   * empty, so presence in the map is what makes an entry live. On a copy of the heap some levels
   * may already be out of sight.
   */
  method CleanTop<T>(levels: map<int, T>, ghost visible: map<int, T>, heap: Heap, side: Side)
    returns (price: Option<int>, clean: Heap)
    requires Covers(heap, visible, side) && Sees(heap, levels, visible, side)
    ensures price == BestPrice(visible, side)
    ensures Covers(clean, visible, side) && Sees(clean, levels, visible, side)
    ensures price.Some? ==> price.value in visible && clean != [] && clean[0] == Rank(side, price.value)
    ensures |clean| <= |heap|
  {
    clean := heap;
    while clean != []
      invariant Covers(clean, visible, side) && Sees(clean, levels, visible, side)
      invariant |clean| <= |heap|
    {
      var px := Rank(side, clean[0]);
      if px in levels {
        assert clean[0] in clean;
        TopIsBest(visible, clean, side);
        return Some(px), clean;
      }
      DropTop(levels, visible, clean, side);
      clean := clean[1..];
    }
    assert forall p :: p in visible ==> Rank(side, p) in clean;
    return None, clean;
  }

  /** Pops every entry that stands for this price, which goes out of sight. */
  method PopAll<T>(ghost levels: map<int, T>, ghost visible: map<int, T>, heap: Heap, side: Side, price: int)
    returns (clean: Heap)
    requires Covers(heap, visible, side) && Sees(heap, levels, visible, side)
    requires heap != [] && heap[0] == Rank(side, price)
    ensures Covers(clean, visible - {price}, side) && Sees(clean, levels, visible - {price}, side)
    ensures |clean| < |heap|
  {
    clean := heap;
    while clean != [] && clean[0] == Rank(side, price)
      invariant Falling(clean) && |clean| <= |heap|
      invariant |clean| == |heap| ==> clean == heap
      invariant forall x :: x in clean ==> x in heap && x <= Rank(side, price)
      invariant forall p :: p in visible && p != price ==> Rank(side, p) in clean
    {
      assert forall p :: p in visible && p != price ==> Rank(side, p) in clean[1..];
      clean := clean[1..];
    }
    if clean != [] {
      assert clean[0] in clean;
      assert forall x :: x in clean ==> x <= clean[0];
    }
    assert Rank(side, price) !in clean;
  }

  lemma PushCovers<T>(heap: Heap, levels: map<int, T>, side: Side, price: int, level: T)
    requires Covers(heap, levels, side)
    ensures Covers(Push(heap, Rank(side, price)), levels[price := level], side)
  {
    var pushed := Push(heap, Rank(side, price));
    assert forall p <- levels[price := level] :: Rank(side, p) in pushed;
  }
}
