/** The slot layout of the Robin Hood table, and what its probes and displacements do to it, on values. */
module Slots {
  import opened Types

  // ---- home slots ---------------------------------------------------------------------------

  const WORD: nat := 0x1_0000_0000_0000_0000

  /** A key as the 64 bits that the standard hash of an integer hands on unchanged. */
  type Word = x: nat | x < WORD

  const MULTIPLIER: nat := 11400714819323198485
  const INVERSE: nat := 17428512612931826493

  function Mixed(key: Word): (h: nat)
    ensures h < WORD
  {
    MULTIPLIER * key % WORD
  }

  /** The multiplier is odd, so mixing loses nothing. */
  lemma MixedInjective(j: Word, k: Word)
    requires Mixed(j) == Mixed(k)
    ensures j == k
  {
    var a := MULTIPLIER * j / WORD;
    var b := MULTIPLIER * k / WORD;
    var q := (a - b) * INVERSE - 10771413168148108919 * (j - k);
    assert MULTIPLIER * INVERSE == 1 + WORD * 10771413168148108919;
    assert MULTIPLIER * (j - k) == WORD * (a - b);
    assert j - k == WORD * q;
  }

  predicate PowerOfTwo(n: nat) {
    n == 1 || (n > 1 && n % 2 == 0 && PowerOfTwo(n / 2))
  }

  function NextPowerOfTwo(i: nat): (n: nat)
    ensures PowerOfTwo(n) && i <= n
  {
    if i <= 1 then 1 else 2 * NextPowerOfTwo((i + 1) / 2)
  }

  lemma {:induction false} NextOfPower(n: nat)
    requires PowerOfTwo(n)
    ensures NextPowerOfTwo(n) == n
  {
    if n > 1 {
      NextOfPower(n / 2);
    }
  }

  function Log2(n: nat): nat {
    if n < 2 then 0 else 1 + Log2(n / 2)
  }

  function ComputeMaxLookups(buckets: nat): (ml: nat)
    ensures ml >= 4
  {
    Max(4, Log2(buckets))
  }

  /**
   * The fibonacci policy's slot: the top bits of the mixed key. A table of one slot uses the shift
   * for two, and the shift cannot fall below zero.
   */
  function Home(key: Word, n: nat): nat
    requires n > 0
  {
    if n >= WORD then Mixed(key) else Mixed(key) / (WORD / Max(n, 2))
  }

  lemma TwiceTimes(h: nat, q: nat)
    ensures 2 * (h * q) == (2 * h) * q
  {
  }

  lemma {:induction false} PowersDivide(a: nat, b: nat) returns (q: nat)
    requires PowerOfTwo(a) && PowerOfTwo(b) && a <= b
    ensures b == a * q
  {
    if a == 1 {
      q := b;
    } else {
      q := PowersDivide(a / 2, b / 2);
      TwiceTimes(a / 2, q);
    }
  }

  lemma {:induction false} PowersMultiply(a: nat, b: nat)
    requires PowerOfTwo(a) && PowerOfTwo(b)
    ensures PowerOfTwo(a * b)
  {
    if a > 1 {
      PowersMultiply(a / 2, b);
      TwiceTimes(a / 2, b);
      TwicePower(a / 2 * b);
    }
  }

  lemma {:induction false} TwicePower(n: nat)
    requires PowerOfTwo(n)
    ensures PowerOfTwo(2 * n)
  {
  }

  lemma WordIsPower()
    ensures PowerOfTwo(WORD)
  {
    assert PowerOfTwo(0x1_0000);
    PowersMultiply(0x1_0000, 0x1_0000);
    PowersMultiply(0x1_0000_0000, 0x1_0000_0000);
  }

  /** The high part of a number below `size * w` is below `size`. */
  lemma DivBelow(h: nat, w: nat, size: nat)
    requires size > 0 && h < size * w
    ensures w > 0 && (size * w) / size == w && h / w < size
  {
    var d := h / w;
    assert h == w * d + h % w;
    if d >= size {
      TimesGrows(w, size, d);
      assert false;
    }
    var e := (size * w) / size;
    assert size * w == size * e + (size * w) % size;
    if e < w {
      TimesGrows(size, e + 1, w);
      assert false;
    }
    if e > w {
      TimesGrows(size, w + 1, e);
      assert false;
    }
  }

  lemma TimesGrows(x: nat, a: nat, b: nat)
    requires a <= b
    ensures x * a <= x * b
  {
  }

  lemma {:induction false} HomeInRange(key: Word, n: nat)
    requires PowerOfTwo(n)
    ensures Home(key, n) < Max(n, 2)
  {
    if n < WORD {
      var size := Max(n, 2);
      WordIsPower();
      var w := PowersDivide(size, WORD);
      hide Mixed, PowerOfTwo;
      DivBelow(Mixed(key), w, size);
    }
  }

  lemma HomeInjective(j: Word, k: Word, n: nat)
    requires n >= WORD && Home(j, n) == Home(k, n)
    ensures j == k
  {
    MixedInjective(j, k);
  }

  // ---- the slots ----------------------------------------------------------------------------

  datatype Item<V> = Item(key: Word, value: V)

  /** A slot: its distance from its item's home slot, or below zero when it is empty. */
  datatype Entry<V> = Entry(dist: int, item: Option<Item<V>>)

  ghost predicate Holds<V>(t: seq<Entry<V>>, i: int) {
    0 <= i < |t| && t[i].item.Some?
  }

  /** The slots, the room behind them for displaced items, and the end sentinel, which holds nothing. */
  ghost predicate Framed<V>(t: seq<Entry<V>>, n: nat, ml: nat) {
    && PowerOfTwo(n) && ml >= 3 && |t| == n + ml
    && t[n + ml - 1] == Entry(0, None)
    && (forall i :: 0 <= i < n + ml - 1 ==> t[i].dist >= -1 && (t[i].dist >= 0 <==> t[i].item.Some?))
    && (n == 1 ==> forall i :: 0 <= i < |t| ==> t[i].item.None?)
  }

  /** The stored distance is the slot minus the home slot, and below the probe limit. */
  ghost predicate Placed<V>(t: seq<Entry<V>>, n: nat, ml: nat)
    requires n > 0
  {
    forall i :: Holds(t, i) ==> t[i].dist < ml && Home(t[i].item.value.key, n) + t[i].dist == i
  }

  ghost predicate Rise<V>(t: seq<Entry<V>>, i: int) {
    0 <= i < |t| ==> t[i].dist <= if i == 0 then 0 else t[i - 1].dist + 1
  }

  /** From slot to slot the distance rises by at most one. */
  ghost predicate Gentle<V>(t: seq<Entry<V>>) {
    forall i :: Rise(t, i)
  }

  ghost predicate Distinct<V>(t: seq<Entry<V>>) {
    forall i, j :: Holds(t, i) && Holds(t, j) && i != j ==> t[i].item.value.key != t[j].item.value.key
  }

  ghost predicate HasKey<V>(t: seq<Entry<V>>, key: Word) {
    exists i :: Holds(t, i) && t[i].item.value.key == key
  }

  /** The items in the slots are the entries of the map. */
  ghost predicate Stores<V>(t: seq<Entry<V>>, m: map<Word, V>) {
    && (forall i :: Holds(t, i) ==> t[i].item.value.key in m && m[t[i].item.value.key] == t[i].item.value.value)
    && (forall key :: key in m ==> HasKey(t, key))
  }

  ghost predicate TableOk<V>(t: seq<Entry<V>>, n: nat, ml: nat) {
    Framed(t, n, ml) && Placed(t, n, ml) && Gentle(t) && Distinct(t)
  }

  /** What is left of the layout when an insertion gives up: the items, but not their places. */
  ghost predicate Loose<V>(t: seq<Entry<V>>, n: nat, ml: nat) {
    Framed(t, n, ml) && Distinct(t)
  }

  // ---- probing ------------------------------------------------------------------------------

  lemma {:induction false} RiseBound<V>(t: seq<Entry<V>>, i: nat, j: nat)
    requires Gentle(t) && i <= j < |t|
    ensures t[j].dist <= t[i].dist + (j - i)
  {
    if i < j {
      RiseBound(t, i, j - 1);
      assert Rise(t, j);
    }
  }

  /** The probe for a key has passed `d` slots without finding it. */
  ghost predicate Probed<V>(t: seq<Entry<V>>, home: nat, d: nat, key: Word) {
    && home + d < |t|
    && forall i :: home <= i < home + d ==> Holds(t, i) && t[i].dist >= i - home && t[i].item.value.key != key
  }

  /** A probe stays inside the slots, and never looks at an item that is not there. */
  lemma ProbeInside<V>(t: seq<Entry<V>>, n: nat, ml: nat, d: nat, key: Word)
    requires TableOk(t, n, ml) && Probed(t, Home(key, n), d, key)
    ensures d <= ml
    ensures t[Home(key, n) + d].dist >= d ==> Holds(t, Home(key, n) + d) && Home(key, n) + d + 1 < |t|
  {
    HomeInRange(key, n);
    if d > 0 {
      assert Holds(t, Home(key, n) + d - 1);
    }
  }

  lemma ProbeStart<V>(t: seq<Entry<V>>, n: nat, ml: nat, key: Word)
    requires TableOk(t, n, ml)
    ensures Probed(t, Home(key, n), 0, key)
  {
    HomeInRange(key, n);
  }

  /** A probe that meets a slot nearer to its home than the key would be ends the search. */
  lemma NotThere<V>(t: seq<Entry<V>>, n: nat, ml: nat, d: nat, key: Word)
    requires TableOk(t, n, ml) && Probed(t, Home(key, n), d, key) && t[Home(key, n) + d].dist < d
    ensures !HasKey(t, key)
  {
    if p :| Holds(t, p) && t[p].item.value.key == key {
      var home := Home(key, n);
      assert t[p].dist == p - home;
      if p >= home + d {
        RiseBound(t, home + d, p);
      }
      assert false;
    }
  }

  // ---- displacing ---------------------------------------------------------------------------

  /**
   * An item is carried along: it belongs at `pos` or later, everything else is in place, and
   * together they are the entries of `m`.
   */
  ghost predicate Carrying<V>(t: seq<Entry<V>>, n: nat, ml: nat, pos: nat, d: nat, item: Item<V>, m: map<Word, V>) {
    && TableOk(t, n, ml) && n > 1
    && d < ml && pos == Home(item.key, n) + d && pos < |t|
    && d <= (if pos == 0 then 0 else t[pos - 1].dist + 1)
    && item.key in m && m[item.key] == item.value
    && Stores(t, m - {item.key})
  }

  /** The carried item has not reached the end sentinel. */
  lemma CarryInside<V>(t: seq<Entry<V>>, n: nat, ml: nat, pos: nat, d: nat, item: Item<V>, m: map<Word, V>)
    requires Carrying(t, n, ml, pos, d, item, m)
    ensures pos + 1 < |t|
    ensures t[pos].dist < 0 <==> t[pos].item.None?
    ensures t[pos].dist >= -1
  {
    HomeInRange(item.key, n);
  }

  /** Putting an item into a slot whose occupant is nearer to its home keeps the distances gentle. */
  lemma PutGentle<V>(t: seq<Entry<V>>, pos: nat, d: nat, item: Item<V>)
    requires Gentle(t) && pos < |t| && t[pos].dist < d
    requires d <= (if pos == 0 then 0 else t[pos - 1].dist + 1)
    ensures Gentle(t[pos := Entry(d, Some(item))])
  {
    var t' := t[pos := Entry(d, Some(item))];
    forall i ensures Rise(t', i) {
      assert Rise(t, i);
    }
  }

  lemma PutPlaced<V>(t: seq<Entry<V>>, n: nat, ml: nat, pos: nat, d: nat, item: Item<V>)
    requires Framed(t, n, ml) && Placed(t, n, ml) && n > 1
    requires d < ml && pos == Home(item.key, n) + d && pos + 1 < |t|
    ensures var t' := t[pos := Entry(d, Some(item))]; Framed(t', n, ml) && Placed(t', n, ml)
  {
    var t' := t[pos := Entry(d, Some(item))];
    forall i | Holds(t', i) ensures t'[i].dist < ml && Home(t'[i].item.value.key, n) + t'[i].dist == i {
      if i != pos {
        assert Holds(t, i);
      }
    }
  }

  lemma PutDistinct<V>(t: seq<Entry<V>>, pos: nat, d: int, item: Item<V>)
    requires Distinct(t) && pos < |t| && !HasKey(t, item.key)
    ensures Distinct(t[pos := Entry(d, Some(item))])
  {
    var t' := t[pos := Entry(d, Some(item))];
    forall i, j | Holds(t', i) && Holds(t', j) && i != j ensures t'[i].item.value.key != t'[j].item.value.key {
      assert i != pos ==> Holds(t, i);
      assert j != pos ==> Holds(t, j);
    }
  }

  /** The item in the slot gives way to another one. */
  lemma PutStores<V>(t: seq<Entry<V>>, pos: nat, d: int, item: Item<V>, m: map<Word, V>)
    requires Distinct(t) && pos < |t| && Stores(t, m) && !HasKey(t, item.key)
    ensures var t' := t[pos := Entry(d, Some(item))];
            var kept := if t[pos].item.Some? then m - {t[pos].item.value.key} else m;
            Stores(t', kept[item.key := item.value])
  {
    var t' := t[pos := Entry(d, Some(item))];
    var kept := if t[pos].item.Some? then m - {t[pos].item.value.key} else m;
    var m' := kept[item.key := item.value];
    forall i | Holds(t', i) ensures t'[i].item.value.key in m' && m'[t'[i].item.value.key] == t'[i].item.value.value {
      if i != pos {
        assert Holds(t, i);
        assert t[i].item.value.key != item.key;
        assert Holds(t, pos) ==> t[i].item.value.key != t[pos].item.value.key;
      }
    }
    forall key | key in m' ensures HasKey(t', key) {
      if key == item.key {
        assert Holds(t', pos);
      } else {
        var i :| Holds(t, i) && t[i].item.value.key == key;
        assert Holds(t', i);
      }
    }
  }

  lemma NotStored<V>(t: seq<Entry<V>>, m: map<Word, V>, key: Word)
    requires Stores(t, m)
    ensures HasKey(t, key) <==> key in m
  {
  }

  /** The carried item lands in an empty slot: the table is whole again. */
  lemma Land<V>(t: seq<Entry<V>>, n: nat, ml: nat, pos: nat, d: nat, item: Item<V>, m: map<Word, V>)
    requires Carrying(t, n, ml, pos, d, item, m) && pos < |t| && t[pos].dist < 0
    ensures var t' := t[pos := Entry(d, Some(item))]; TableOk(t', n, ml) && Stores(t', m)
  {
    hide Home, Gentle, Distinct, Placed, Stores, Framed, HasKey;
    CarryInside(t, n, ml, pos, d, item, m);
    NotStored(t, m - {item.key}, item.key);
    PutGentle(t, pos, d, item);
    PutPlaced(t, n, ml, pos, d, item);
    PutDistinct(t, pos, d, item);
    PutStores(t, pos, d, item, m - {item.key});
    assert (m - {item.key})[item.key := item.value] == m;
  }

  /** The carried item takes the slot of one nearer to its home, which is carried on. */
  lemma SwapOn<V>(t: seq<Entry<V>>, n: nat, ml: nat, pos: nat, d: nat, item: Item<V>, m: map<Word, V>)
    requires Carrying(t, n, ml, pos, d, item, m) && pos < |t| && 0 <= t[pos].dist < d
    ensures t[pos].item.Some?
    ensures Carrying(t[pos := Entry(d, Some(item))], n, ml, pos + 1, t[pos].dist + 1, t[pos].item.value, m)
  {
    CarryInside(t, n, ml, pos, d, item, m);
    var out := t[pos].item.value;
    assert Holds(t, pos);
    var t' := t[pos := Entry(d, Some(item))];
    assert out.key in m - {item.key} && m[out.key] == out.value && Home(out.key, n) + t[pos].dist == pos;
    hide Home, Gentle, Distinct, Placed, Stores, Framed, HasKey;
    NotStored(t, m - {item.key}, item.key);
    PutGentle(t, pos, d, item);
    PutPlaced(t, n, ml, pos, d, item);
    PutDistinct(t, pos, d, item);
    PutStores(t, pos, d, item, m - {item.key});
    assert (m - {item.key} - {out.key})[item.key := item.value] == m - {out.key};
  }

  /** The carried item moves on. */
  lemma MoveOn<V>(t: seq<Entry<V>>, n: nat, ml: nat, pos: nat, d: nat, item: Item<V>, m: map<Word, V>)
    requires Carrying(t, n, ml, pos, d, item, m) && pos < |t| && t[pos].dist >= d && d + 1 < ml
    ensures Carrying(t, n, ml, pos + 1, d + 1, item, m)
  {
    CarryInside(t, n, ml, pos, d, item, m);
  }

  /** Giving up: the carried item goes back for the new one, and no entry is lost or doubled. */
  lemma SwapBack<V>(t: seq<Entry<V>>, n: nat, ml: nat, pos: nat, d: nat, item: Item<V>, m: map<Word, V>, at: nat,
                    key: Word)
    requires Carrying(t, n, ml, pos, d, item, m)
    requires Holds(t, at) && t[at].item.value.key == key
    ensures var t' := t[at := t[at].(item := Some(item))];
            Loose(t', n, ml) && Stores(t', m - {key})
  {
    NotStored(t, m - {item.key}, item.key);
    hide Home, Gentle, Placed, Stores, HasKey;
    PutDistinct(t, at, t[at].dist, item);
    PutStores(t, at, t[at].dist, item, m - {item.key});
    assert key != item.key by { NotStored(t, m - {item.key}, key); KeyHere(t, at, key); }
    assert (m - {item.key} - {key})[item.key := item.value] == m - {key};
  }

  lemma KeyHere<V>(t: seq<Entry<V>>, at: nat, key: Word)
    requires Holds(t, at) && t[at].item.value.key == key
    ensures HasKey(t, key)
  {
  }

  // ---- a table as large as the key space ----------------------------------------------------

  /** Where no two keys share a home slot, nothing is ever displaced. */
  lemma {:induction false} NothingDisplaced<V>(t: seq<Entry<V>>, n: nat, ml: nat, i: nat)
    requires TableOk(t, n, ml) && n >= WORD && i < |t|
    ensures t[i].dist <= 0
  {
    assert Rise(t, i);
    if i > 0 {
      NothingDisplaced(t, n, ml, i - 1);
      if t[i].dist == 1 {
        assert Holds(t, i) && Holds(t, i - 1);
        HomeInjective(t[i].item.value.key, t[i - 1].item.value.key, n);
        assert false;
      }
    }
  }

  lemma HomeIsFree<V>(t: seq<Entry<V>>, n: nat, ml: nat, key: Word)
    requires TableOk(t, n, ml) && n >= WORD && !HasKey(t, key)
    ensures Home(key, n) < |t| && t[Home(key, n)].dist < 0
  {
    HomeInRange(key, n);
    var h := Home(key, n);
    if t[h].dist >= 0 {
      NothingDisplaced(t, n, ml, h);
      assert Holds(t, h);
      HomeInjective(t[h].item.value.key, key, n);
      assert false;
    }
  }

  // ---- a long way from home means a crowd ----------------------------------------------------

  function Pow2(k: nat): (n: nat)
    ensures n > 0
  {
    if k == 0 then 1 else 2 * Pow2(k - 1)
  }

  lemma {:induction false} LogGrows(a: nat, b: nat)
    requires a <= b
    ensures Log2(a) <= Log2(b)
  {
    if a >= 2 {
      LogGrows(a / 2, b / 2);
    }
  }

  lemma {:induction false} LogOfPow(k: nat)
    ensures Log2(Pow2(k)) == k
  {
    if k > 0 {
      LogOfPow(k - 1);
    }
  }

  lemma {:induction false} PowGrows(j: nat, k: nat)
    requires j <= k
    ensures Pow2(j) <= Pow2(k)
  {
    if j < k {
      PowGrows(j, k - 1);
    }
  }

  /** The keys of `k` occupied slots in a row. */
  ghost function KeysFrom<V>(t: seq<Entry<V>>, lo: nat, k: nat): set<Word>
    requires forall i :: lo <= i < lo + k ==> Holds(t, i)
  {
    if k == 0 then {}
    else
      assert Holds(t, lo + k - 1);
      KeysFrom(t, lo, k - 1) + {t[lo + k - 1].item.value.key}
  }

  lemma {:induction false} NotAmong<V>(t: seq<Entry<V>>, lo: nat, k: nat, i: nat)
    requires Distinct(t) && lo + k <= i && Holds(t, i) && forall j :: lo <= j < lo + k ==> Holds(t, j)
    ensures t[i].item.value.key !in KeysFrom(t, lo, k)
  {
    assert Holds(t, i);
    if k > 0 {
      NotAmong(t, lo, k - 1, i);
      assert Holds(t, lo + k - 1);
    }
  }

  lemma {:induction false} KeysAreMany<V>(t: seq<Entry<V>>, lo: nat, k: nat)
    requires Distinct(t) && forall i :: lo <= i < lo + k ==> Holds(t, i)
    ensures |KeysFrom(t, lo, k)| == k
  {
    hide Distinct;
    if k > 0 {
      KeysAreMany(t, lo, k - 1);
      assert Holds(t, lo + k - 1);
      NotAmong(t, lo, k - 1, lo + k - 1);
    }
  }

  lemma {:induction false} KeysAreStored<V>(t: seq<Entry<V>>, lo: nat, k: nat, m: map<Word, V>)
    requires Stores(t, m) && forall i :: lo <= i < lo + k ==> Holds(t, i)
    ensures KeysFrom(t, lo, k) <= m.Keys
  {
    hide Stores;
    if k > 0 {
      KeysAreStored(t, lo, k - 1, m);
      assert Holds(t, lo + k - 1);
      StoredKey(t, lo + k - 1, m);
    }
  }

  lemma StoredKey<V>(t: seq<Entry<V>>, i: nat, m: map<Word, V>)
    requires Stores(t, m) && Holds(t, i)
    ensures t[i].item.value.key in m
  {
  }

  /** As many slots in a row as are occupied, as many entries there are at least. */
  lemma {:induction false} CrowdSize<V>(t: seq<Entry<V>>, lo: nat, k: nat, m: map<Word, V>)
    requires Distinct(t) && Stores(t, m) && forall i :: lo <= i < lo + k ==> Holds(t, i)
    ensures k <= |m|
  {
    KeysAreMany(t, lo, k);
    KeysAreStored(t, lo, k, m);
    SmallerKeys(KeysFrom(t, lo, k), m.Keys);
  }

  /** A probe that has gone `d` slots has passed `d` entries. */
  lemma ProbeCrowd<V>(t: seq<Entry<V>>, home: nat, d: nat, key: Word, m: map<Word, V>)
    requires Distinct(t) && Stores(t, m) && Probed(t, home, d, key)
    ensures d <= |m|
  {
    CrowdSize(t, home, d, m);
  }

  /** An item `d` slots from its home stands behind `d` others, because distances rise one by one. */
  lemma {:induction false} Queued<V>(t: seq<Entry<V>>, n: nat, ml: nat, pos: nat, d: nat)
    requires Framed(t, n, ml) && Gentle(t) && pos + 1 < |t| && t[pos].dist >= d
    ensures d <= pos && forall i :: pos - d <= i <= pos ==> Holds(t, i)
    decreases d
  {
    assert Rise(t, pos);
    if d > 0 {
      Queued(t, n, ml, pos - 1, d - 1);
    }
  }

  /** An item carried `d` slots that meets one as far out has passed more than `d` entries. */
  lemma CarryCrowd<V>(t: seq<Entry<V>>, n: nat, ml: nat, pos: nat, d: nat, item: Item<V>, m: map<Word, V>)
    requires Carrying(t, n, ml, pos, d, item, m) && pos + 1 < |t| && t[pos].dist >= d
    ensures d + 1 < |m|
  {
    Queued(t, n, ml, pos, d);
    CrowdSize(t, pos - d, d + 1, m - {item.key});
    assert m.Keys == (m - {item.key}).Keys + {item.key};
  }

  /** A table whose probe limit does not exceed the entries is below this size. */
  lemma {:induction false} CrowdedIsSmall(n: nat, ml: nat, entries: nat, room: nat)
    requires ml >= Log2(n) && ml < entries && room >= Pow2(entries)
    ensures n < room
  {
    LogOfPow(entries);
    if n >= room {
      LogGrows(Pow2(entries), n);
    }
  }

  // ---- closing the gap after an erase -------------------------------------------------------

  /** One slot is empty; only the slot behind it may stand too far out. */
  ghost predicate Gap<V>(t: seq<Entry<V>>, n: nat, ml: nat, at: nat, m: map<Word, V>) {
    && Framed(t, n, ml) && Placed(t, n, ml) && Distinct(t) && Stores(t, m)
    && at + 1 < |t| && t[at].dist == -1
    && (forall i :: i != at + 1 ==> Rise(t, i))
    && t[at + 1].dist - 1 <= (if at == 0 then 0 else t[at - 1].dist + 1)
  }

  /** An item leaves its slot. */
  lemma OpenGap<V>(t: seq<Entry<V>>, n: nat, ml: nat, at: nat, m: map<Word, V>)
    requires TableOk(t, n, ml) && Stores(t, m) && Holds(t, at)
    ensures t[at].item.value.key in m
    ensures Gap(t[at := Entry(-1, None)], n, ml, at, m - {t[at].item.value.key})
  {
    var key := t[at].item.value.key;
    var t' := t[at := Entry(-1, None)];
    forall i | i != at + 1 ensures Rise(t', i) {
      assert Rise(t, i);
    }
    assert Rise(t, at) && Rise(t, at + 1);
    GapKept(t, n, ml, at, m);
  }

  lemma GapKept<V>(t: seq<Entry<V>>, n: nat, ml: nat, at: nat, m: map<Word, V>)
    requires Framed(t, n, ml) && Placed(t, n, ml) && Distinct(t) && Stores(t, m) && Holds(t, at)
    ensures var t' := t[at := Entry(-1, None)];
            && Framed(t', n, ml) && Placed(t', n, ml) && Distinct(t') && Stores(t', m - {t[at].item.value.key})
  {
    var key := t[at].item.value.key;
    var t' := t[at := Entry(-1, None)];
    assert forall i :: Holds(t', i) ==> Holds(t, i) && i != at;
    forall k | k in m - {key} ensures HasKey(t', k) {
      var i :| Holds(t, i) && t[i].item.value.key == k;
      assert Holds(t', i);
    }
  }

  /** The next item moves into the gap, one slot nearer to its home. */
  lemma ShiftBack<V>(t: seq<Entry<V>>, n: nat, ml: nat, at: nat, m: map<Word, V>)
    requires Gap(t, n, ml, at, m) && t[at + 1].dist > 0
    ensures at + 2 < |t| && Holds(t, at + 1)
    ensures var t' := t[at := Entry(t[at + 1].dist - 1, t[at + 1].item)][at + 1 := Entry(-1, None)];
            Gap(t', n, ml, at + 1, m)
  {
    assert Holds(t, at + 1);
    var one := t[at := Entry(t[at + 1].dist - 1, t[at + 1].item)];
    var t' := one[at + 1 := Entry(-1, None)];
    forall i | i != at + 2 ensures Rise(t', i) {
      assert i != at + 1 ==> Rise(t, i);
    }
    assert Rise(t, at + 2);
    ShiftKept(t, n, ml, at, m);
  }

  lemma ShiftKept<V>(t: seq<Entry<V>>, n: nat, ml: nat, at: nat, m: map<Word, V>)
    requires Framed(t, n, ml) && Placed(t, n, ml) && Distinct(t) && Stores(t, m)
    requires at + 2 < |t| && t[at].dist == -1 && Holds(t, at + 1) && t[at + 1].dist > 0
    ensures var t' := t[at := Entry(t[at + 1].dist - 1, t[at + 1].item)][at + 1 := Entry(-1, None)];
            Framed(t', n, ml) && Placed(t', n, ml) && Distinct(t') && Stores(t', m)
  {
    var t' := t[at := Entry(t[at + 1].dist - 1, t[at + 1].item)][at + 1 := Entry(-1, None)];
    forall i | Holds(t', i) ensures var j := if i == at then at + 1 else i; Holds(t, j) && t'[i].item == t[j].item {
    }
    forall k | k in m ensures HasKey(t', k) {
      var i :| Holds(t, i) && t[i].item.value.key == k;
      assert Holds(t', if i == at + 1 then at else i);
    }
  }

  /** When the item behind the gap is at home the table is whole again. */
  lemma CloseGap<V>(t: seq<Entry<V>>, n: nat, ml: nat, at: nat, m: map<Word, V>)
    requires Gap(t, n, ml, at, m) && t[at + 1].dist <= 0
    ensures TableOk(t, n, ml) && Stores(t, m)
  {
    forall i ensures Rise(t, i) {
      if i == at + 1 {
      }
    }
  }

  // ---- building a table ---------------------------------------------------------------------

  /** An empty table of `n` slots. */
  ghost predicate Blank<V>(t: seq<Entry<V>>, n: nat, ml: nat) {
    && |t| == n + ml && ml >= 3 && t[n + ml - 1] == Entry(0, None)
    && forall i :: 0 <= i < n + ml - 1 ==> t[i] == Entry(-1, None)
  }

  lemma {:induction false} BlankOk<V>(t: seq<Entry<V>>, n: nat, ml: nat)
    requires PowerOfTwo(n) && Blank(t, n, ml)
    ensures TableOk(t, n, ml) && Stores(t, map[])
  {
  }

  /** The first `i` slots of an old table store `m`; the next slot adds its item to them. */
  lemma StoresNext<V>(t: seq<Entry<V>>, i: nat, m: map<Word, V>, all: map<Word, V>)
    requires i < |t| && Distinct(t) && Stores(t[..i], m) && Stores(t, all)
    ensures t[i].item.None? ==> Stores(t[..i + 1], m)
    ensures t[i].item.Some? ==>
              var item := t[i].item.value;
              item.key !in m && Stores(t[..i + 1], m[item.key := item.value]) && |m| + 1 <= |all|
  {
    StoresWithin(t, i, m, all);
    assert t[..i + 1][..i] == t[..i];
    assert forall j :: 0 <= j < i ==> t[..i + 1][j] == t[..i][j];
    if t[i].item.None? {
      forall key | key in m ensures HasKey(t[..i + 1], key) {
        var j :| Holds(t[..i], j) && t[..i][j].item.value.key == key;
        assert Holds(t[..i + 1], j);
      }
    } else {
      StoresOneMore(t, i, m, all);
    }
  }

  lemma StoresWithin<V>(t: seq<Entry<V>>, i: nat, m: map<Word, V>, all: map<Word, V>)
    requires i <= |t| && Stores(t[..i], m) && Stores(t, all)
    ensures forall key :: key in m ==> key in all && all[key] == m[key]
  {
    forall key | key in m ensures key in all && all[key] == m[key] {
      var j :| Holds(t[..i], j) && t[..i][j].item.value.key == key;
      assert Holds(t, j);
    }
  }

  lemma StoresOneMore<V>(t: seq<Entry<V>>, i: nat, m: map<Word, V>, all: map<Word, V>)
    requires i < |t| && Distinct(t) && Stores(t[..i], m) && Stores(t, all) && t[i].item.Some?
    ensures var item := t[i].item.value;
            item.key !in m && Stores(t[..i + 1], m[item.key := item.value]) && |m| + 1 <= |all|
  {
    var item := t[i].item.value;
    assert Holds(t, i);
    if item.key in m {
      var j :| Holds(t[..i], j) && t[..i][j].item.value.key == item.key;
      assert Holds(t, j);
      assert false;
    }
    StoresLonger(t, i, m);
    StoresWithin(t, i, m, all);
    SmallerKeys(m.Keys + {item.key}, all.Keys);
  }

  lemma StoresLonger<V>(t: seq<Entry<V>>, i: nat, m: map<Word, V>)
    requires i < |t| && Stores(t[..i], m) && t[i].item.Some? && t[i].item.value.key !in m
    ensures var item := t[i].item.value; Stores(t[..i + 1], m[item.key := item.value])
  {
    var item := t[i].item.value;
    var m' := m[item.key := item.value];
    forall j | Holds(t[..i + 1], j) ensures j != i ==> Holds(t[..i], j) && t[..i + 1][j] == t[..i][j] {
    }
    forall key | key in m' ensures HasKey(t[..i + 1], key) {
      if key == item.key {
        assert Holds(t[..i + 1], i);
      } else {
        var j :| Holds(t[..i], j) && t[..i][j].item.value.key == key;
        assert Holds(t[..i + 1], j);
      }
    }
  }

  lemma SmallerKeys(a: set<Word>, b: set<Word>)
    requires a <= b
    ensures |a| <= |b|
  {
    var rest := b - a;
    assert b == a + rest;
  }

  lemma SameMap<V>(t: seq<Entry<V>>, m: map<Word, V>, m': map<Word, V>)
    requires Stores(t, m) && Stores(t, m')
    ensures m == m'
  {
    forall key ensures key in m <==> key in m' {
      NotStored(t, m, key);
      NotStored(t, m', key);
    }
    forall key | key in m ensures m[key] == m'[key] {
      var i :| Holds(t, i) && t[i].item.value.key == key;
    }
  }

  // ---- steps of the table's methods ---------------------------------------------------------

  lemma ProbeBounds<V>(t: seq<Entry<V>>, home: nat, d: nat, key: Word)
    requires Probed(t, home, d, key)
    ensures home + d < |t|
  {
  }

  lemma ProbeNext<V>(t: seq<Entry<V>>, home: nat, d: nat, key: Word)
    requires Probed(t, home, d, key) && home + d + 1 < |t|
    requires Holds(t, home + d) && t[home + d].dist >= d && t[home + d].item.value.key != key
    ensures Probed(t, home, d + 1, key)
  {
  }

  lemma FoundIs<V>(t: seq<Entry<V>>, m: map<Word, V>, i: nat, key: Word)
    requires Stores(t, m) && Holds(t, i) && t[i].item.value.key == key
    ensures key in m && t[i].item == Some(Item(key, m[key]))
  {
  }

  /** A table as large as the key space never sends an insertion on. */
  lemma FullSizeIsFree<V>(t: seq<Entry<V>>, n: nat, ml: nat, d: nat, key: Word)
    requires TableOk(t, n, ml) && !HasKey(t, key) && Probed(t, Home(key, n), d, key)
    ensures n >= WORD ==> d == 0 && d != ml && t[Home(key, n)].item.None?
  {
    if n >= WORD {
      HomeIsFree(t, n, ml, key);
    }
  }

  lemma CarryStart<V>(t: seq<Entry<V>>, n: nat, ml: nat, d: nat, item: Item<V>, m: map<Word, V>)
    requires TableOk(t, n, ml) && n > 1 && Stores(t, m) && item.key !in m && d < ml
    requires Probed(t, Home(item.key, n), d, item.key)
    ensures Carrying(t, n, ml, Home(item.key, n) + d, d, item, m[item.key := item.value])
  {
    assert m[item.key := item.value] - {item.key} == m;
    var pos := Home(item.key, n) + d;
    if d > 0 {
      assert Holds(t, pos - 1) && t[pos - 1].dist >= d - 1;
    }
  }

  lemma CarryLimit<V>(t: seq<Entry<V>>, n: nat, ml: nat, pos: nat, d: nat, item: Item<V>, m: map<Word, V>)
    requires Carrying(t, n, ml, pos, d, item, m)
    ensures d < ml
  {
  }

  lemma GapInside<V>(t: seq<Entry<V>>, n: nat, ml: nat, at: nat, m: map<Word, V>)
    requires Gap(t, n, ml, at, m)
    ensures at + 1 < |t|
  {
  }

  lemma EmptyPrefix<V>(t: seq<Entry<V>>)
    ensures Stores(t[..0], map[])
  {
  }

  /** The sentinel holds nothing, so the slots before it hold everything. */
  lemma WholePrefix<V>(t: seq<Entry<V>>, end: nat, m: map<Word, V>)
    requires end + 1 == |t| && t[end].item.None? && Stores(t[..end], m)
    ensures Stores(t, m)
  {
    assert forall i :: Holds(t, i) ==> Holds(t[..end], i);
    forall key | key in m ensures HasKey(t, key) {
      var i :| Holds(t[..end], i) && t[..end][i].item.value.key == key;
      assert Holds(t, i);
    }
  }

  lemma LastIsSentinel<V>(t: seq<Entry<V>>, n: nat, ml: nat)
    requires Loose(t, n, ml)
    ensures n > 0 && |t| == n + ml && t[n + ml - 1].item.None? && Distinct(t)
  {
  }
}
