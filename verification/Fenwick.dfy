/**
 * The Fenwick tree of lot quantities that backs every paper level.
 *
 * Every integer vector is the tree of exactly one quantity sequence, so `SumOf`, `Added` and
 * `Grown` need no representation predicate; the laws below say what they do to prefix sums.
 */
module Fenwick {

  /** The lowest set bit of `i`, the source's `i & -i`. */
  function LowBit(i: nat): (b: nat)
    requires i > 0
    ensures 1 <= b <= i
  {
    if i % 2 == 1 then 1 else 2 * LowBit(i / 2)
  }

  function SumOf(tree: seq<int>, count: nat): int
    requires count == 0 || count < |tree|
  {
    if count == 0 then 0 else tree[count] + SumOf(tree, count - LowBit(count))
  }

  /** The tree after the update walk of `add` has come to node `i`. */
  function AddedFrom(tree: seq<int>, i: nat, delta: int): (r: seq<int>)
    requires i > 0
    ensures |r| == |tree|
    decreases |tree| - i
  {
    if i >= |tree| then tree else AddedFrom(tree[i := tree[i] + delta], i + LowBit(i), delta)
  }

  function Added(tree: seq<int>, index: nat, delta: int): (r: seq<int>) {
    AddedFrom(tree, index + 1, delta)
  }

  /** One node of growth: the new node is set from two queries of the nodes below it. */
  function NextNode(tree: seq<int>): int {
    if tree == [] then 0 else SumOf(tree, |tree| - 1) - SumOf(tree, |tree| - LowBit(|tree|))
  }

  /** The tree made long enough for `n` quantities, the new ones zero. */
  function Grown(tree: seq<int>, n: nat): (r: seq<int>)
    ensures |r| == if |tree| > n then |tree| else n + 1
    decreases n + 1 - |tree|
  {
    if |tree| > n then tree else Grown(tree + [NextNode(tree)], n)
  }

  function PrefixSum(vals: seq<int>, count: nat): int
    requires count <= |vals|
  {
    if count == 0 then 0 else PrefixSum(vals, count - 1) + vals[count - 1]
  }

  // ---- the bit arithmetic -------------------------------------------------------------------

  /** The nodes strictly between `i` and its successor in the update walk start at or after `i`. */
  lemma {:induction false} LowBitGap(i: nat, j: nat)
    requires 0 < i < j < i + LowBit(i)
    ensures j - LowBit(j) >= i
  {
    if i % 2 == 0 && j % 2 == 0 {
      LowBitGap(i / 2, j / 2);
    }
  }

  /** The successor's range contains the whole range of its predecessor. */
  lemma {:induction false} LowBitNext(i: nat)
    requires i > 0
    ensures LowBit(i + LowBit(i)) >= 2 * LowBit(i)
  {
    if i % 2 == 0 {
      LowBitNext(i / 2);
      assert (i + LowBit(i)) / 2 == i / 2 + LowBit(i / 2);
    }
  }

  /** Sums below the first changed node do not see the change. */
  lemma {:induction false} SumOfAgree(t: seq<int>, u: seq<int>, k: nat)
    requires |t| == |u|
    requires k == 0 || k < |t|
    requires forall j :: 0 < j <= k ==> t[j] == u[j]
    ensures SumOf(t, k) == SumOf(u, k)
  {
    if k > 0 {
      SumOfAgree(t, u, k - LowBit(k));
    }
  }

  /** A single node change is seen by `SumOf(_, k)` exactly when the query walk visits the node. */
  lemma {:induction false} SumAfterAddedFrom(tree: seq<int>, pos: nat, i: nat, delta: int, k: nat)
    requires 0 < pos <= i
    requires i - LowBit(i) < pos
    requires k == 0 || k < |tree|
    ensures SumOf(AddedFrom(tree, i, delta), k) == SumOf(tree, k) + AddShare(pos, i, delta, k)
    decreases |tree| - i
  {
    if i >= |tree| {
      NoShareBelow(pos, i, delta, k);
    } else {
      var next := i + LowBit(i);
      var one := tree[i := tree[i] + delta];
      LowBitNext(i);
      SumAfterAddedFrom(one, pos, next, delta, k);
      OneNode(tree, pos, i, delta, k);
    }
  }

  /** What the update walk from node `i` onwards contributes to the query for `k` quantities. */
  ghost function AddShare(pos: nat, i: nat, delta: int, k: nat): int
    requires i > 0
  {
    if k == 0 then 0
    else if k >= i && k - LowBit(k) < pos then delta
    else AddShare(pos, i, delta, k - LowBit(k))
  }

  lemma {:induction false} NoShareBelow(pos: nat, i: nat, delta: int, k: nat)
    requires 0 < i && k < i
    ensures AddShare(pos, i, delta, k) == 0
  {
    if k > 0 {
      NoShareBelow(pos, i, delta, k - LowBit(k));
    }
  }

  lemma {:induction false} OneNode(tree: seq<int>, pos: nat, i: nat, delta: int, k: nat)
    requires 0 < pos <= i < |tree|
    requires i - LowBit(i) < pos
    requires k == 0 || k < |tree|
    ensures SumOf(tree[i := tree[i] + delta], k) + AddShare(pos, i + LowBit(i), delta, k)
         == SumOf(tree, k) + AddShare(pos, i, delta, k)
  {
    if k > 0 {
      var one := tree[i := tree[i] + delta];
      var next := i + LowBit(i);
      if k < i {
        SumOfAgree(tree, one, k);
        NoShareBelow(pos, i, delta, k);
        NoShareBelow(pos, next, delta, k);
      } else if k == i {
        SumOfAgree(tree, one, k - LowBit(k));
        NoShareBelow(pos, next, delta, k);
      } else if k < next {
        LowBitGap(i, k);
        OneNode(tree, pos, i, delta, k - LowBit(k));
      } else if k - LowBit(k) < pos {
        SumOfAgree(tree, one, k - LowBit(k));
      } else {
        OneNode(tree, pos, i, delta, k - LowBit(k));
      }
    }
  }

  lemma {:induction false} FullShare(pos: nat, delta: int, k: nat)
    requires pos > 0
    ensures AddShare(pos, pos, delta, k) == if pos <= k then delta else 0
  {
    if k < pos {
      NoShareBelow(pos, pos, delta, k);
    } else if k - LowBit(k) >= pos {
      FullShare(pos, delta, k - LowBit(k));
    }
  }

  // ---- the laws -----------------------------------------------------------------------------

  /** `add` changes exactly the prefix sums that include the index, by exactly the delta. */
  lemma {:induction false} SumOfAdded(tree: seq<int>, index: nat, delta: int, k: nat)
    requires k == 0 || k < |tree|
    ensures SumOf(Added(tree, index, delta), k) == SumOf(tree, k) + if index < k then delta else 0
  {
    SumAfterAddedFrom(tree, index + 1, index + 1, delta, k);
    FullShare(index + 1, delta, k);
  }

  lemma {:induction false} SumOfPrefixTree(t: seq<int>, u: seq<int>, k: nat)
    requires t <= u
    requires k == 0 || k < |t|
    ensures SumOf(u, k) == SumOf(t, k)
  {
    if k > 0 {
      SumOfPrefixTree(t, u, k - LowBit(k));
    }
  }

  lemma {:induction false} GrownKeeps(tree: seq<int>, n: nat)
    ensures tree <= Grown(tree, n)
    decreases n + 1 - |tree|
  {
    if |tree| <= n {
      GrownKeeps(tree + [NextNode(tree)], n);
    }
  }

  /** `ensure_size` leaves every earlier prefix sum alone and appends zero quantities. */
  lemma {:induction false} SumOfGrown(tree: seq<int>, n: nat, k: nat)
    requires k < |Grown(tree, n)|
    ensures SumOf(Grown(tree, n), k)
         == if k < |tree| then SumOf(tree, k) else if tree == [] then 0 else SumOf(tree, |tree| - 1)
    decreases n + 1 - |tree|
  {
    if k < |tree| {
      GrownKeeps(tree, n);
      SumOfPrefixTree(tree, Grown(tree, n), k);
    } else if |tree| <= n {
      var i := |tree|;
      var one := tree + [NextNode(tree)];
      if i > 0 {
        SumOfPrefixTree(tree, one, i - LowBit(i));
        SumOfPrefixTree(tree, one, i - 1);
        assert SumOf(one, i) == SumOf(tree, i - 1);
      }
      SumOfGrown(one, n, k);
    }
  }

  // ---- prefix sums of the quantities --------------------------------------------------------

  lemma {:induction false} PrefixSumUpdate(vals: seq<int>, index: nat, delta: int, k: nat)
    requires index < |vals| && k <= |vals|
    ensures PrefixSum(vals[index := vals[index] + delta], k) == PrefixSum(vals, k) + if index < k then delta else 0
  {
    if k > 0 {
      PrefixSumUpdate(vals, index, delta, k - 1);
    }
  }

  lemma {:induction false} PrefixSumAppendZeros(vals: seq<int>, zeros: seq<int>, k: nat)
    requires forall i :: 0 <= i < |zeros| ==> zeros[i] == 0
    requires k <= |vals| + |zeros|
    ensures PrefixSum(vals + zeros, k) == PrefixSum(vals, if k <= |vals| then k else |vals|)
  {
    if k > 0 {
      PrefixSumAppendZeros(vals, zeros, k - 1);
    }
  }

  /** What it means for a node vector to be the tree of a quantity sequence. */
  ghost predicate StandsFor(tree: seq<int>, vals: seq<int>) {
    && (if tree == [] then vals == [] else |tree| == |vals| + 1)
    && forall k :: 0 <= k <= |vals| ==> (k == 0 || k < |tree|) && SumOf(tree, k) == PrefixSum(vals, k)
  }

  function Zeros(n: int): (z: seq<int>)
    ensures |z| == if n > 0 then n else 0
  {
    seq(if n > 0 then n else 0, _ => 0)
  }

  lemma {:induction false} GrownStandsFor(tree: seq<int>, vals: seq<int>, n: nat)
    requires StandsFor(tree, vals)
    requires |tree| <= n
    ensures StandsFor(Grown(tree, n), vals + Zeros(n - |vals|))
  {
    var grown := vals + Zeros(n - |vals|);
    forall k | 0 <= k <= |grown| ensures SumOf(Grown(tree, n), k) == PrefixSum(grown, k) {
      SumOfGrown(tree, n, k);
      PrefixSumAppendZeros(vals, Zeros(n - |vals|), k);
    }
  }

  /** The query walk, on the nodes alone: a half-grown tree is queried too. */
  method Query(tree: seq<int>, count: nat) returns (res: int)
    requires count == 0 || count < |tree|
    ensures res == SumOf(tree, count)
  {
    res := 0;
    var i := count;
    while i > 0
      invariant 0 <= i <= count
      invariant res + SumOf(tree, i) == SumOf(tree, count)
    {
      res := res + tree[i];
      i := i - LowBit(i);
    }
  }

  method Grow(tree: seq<int>, n: nat) returns (grown: seq<int>)
    ensures grown == Grown(tree, n)
  {
    grown := tree;
    while |grown| < n + 1
      invariant Grown(grown, n) == Grown(tree, n)
    {
      var i := |grown|;
      var node := 0;
      if i > 0 {
        var prefix := Query(grown, i - 1);
        var prefixParent := Query(grown, i - LowBit(i));
        node := prefix - prefixParent;
      }
      assert node == NextNode(grown);
      grown := grown + [node];
    }
  }

  /** The tree together with the quantity sequence it stands for. */
  class FenwickTree {
    var tree: seq<int>
    ghost var vals: seq<int>

    ghost predicate Valid()
      reads this
    {
      StandsFor(tree, vals)
    }

    constructor ()
      ensures Valid() && vals == [] && tree == []
    {
      tree := [];
      vals := [];
    }

    method EnsureSize(n: nat)
      requires Valid()
      modifies this
      ensures Valid()
      ensures tree == Grown(old(tree), n)
      ensures vals == old(vals) + Zeros(|vals| - |old(vals)|)
      ensures |vals| == if |old(vals)| >= n then |old(vals)| else n
    {
      var needed := n + 1;
      if |tree| >= needed {
        return;
      }
      var grown := Grow(tree, n);
      GrownStandsFor(tree, vals, n);
      tree := grown;
      vals := vals + Zeros(n - |vals|);
    }

    method Add(index: nat, delta: int)
      requires Valid()
      modifies this
      ensures Valid()
      ensures tree == Added(old(tree), index, delta)
      ensures vals == if index < |old(vals)| then old(vals)[index := old(vals)[index] + delta] else old(vals)
    {
      ghost var tree0 := tree;
      var i := index + 1;
      while i < |tree|
        modifies this`tree
        invariant i > 0 && |tree| == |tree0|
        invariant AddedFrom(tree, i, delta) == Added(tree0, index, delta)
      {
        tree := tree[i := tree[i] + delta];
        i := i + LowBit(i);
      }
      if index < |vals| {
        vals := vals[index := vals[index] + delta];
      }
      forall k | 0 <= k <= |vals| ensures SumOf(tree, k) == PrefixSum(vals, k) {
        SumOfAdded(tree0, index, delta, k);
        if index < |vals| {
          PrefixSumUpdate(old(vals), index, delta, k);
        }
      }
    }

    method Sum(count: nat) returns (res: int)
      requires Valid()
      requires count <= |vals|
      ensures res == PrefixSum(vals, count)
    {
      if count > 0 {
        res := Query(tree, count);
      } else {
        res := 0;
      }
    }
  }
}
