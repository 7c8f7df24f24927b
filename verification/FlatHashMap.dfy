/**
 * The Robin Hood hash table that every map of the engine is made of. Probing, displacement, growth
 * and backward-shift erasure refine a finite map; `room` only measures how far growth can go.
 */
module FlatHashMaps {
  import opened Types
  import opened Slots

  const MIN_LOOKUPS: nat := 4

  function BucketsFor(buckets: nat, elements: nat): nat {
    Max(buckets, 2 * elements)
  }

  /** The number of slots a rehash makes. */
  function NewSize(buckets: nat): (n: nat)
    ensures PowerOfTwo(n) && n >= 2 && n >= buckets
  {
    Max(2, NextPowerOfTwo(buckets))
  }

  /** How far growth can still go. */
  function Left(room: nat, n: nat): nat {
    if n < room then room - n else 0
  }

  /**
   * A table this large takes the entries without growing: it is half empty, and either its probe
   * limit exceeds any crowd the entries can form, or no two keys share a home slot.
   */
  ghost predicate Suffices(room: nat, entries: nat) {
    room >= 2 * entries && room >= 2 && (room >= Pow2(entries) || room >= WORD)
  }

  /** There is such a table for any number of entries, so an insertion always ends. */
  lemma {:induction false} PowSuffices(entries: nat)
    requires entries > 0
    ensures Suffices(Pow2(entries), entries)
  {
    if entries > 1 {
      PowSuffices(entries - 1);
    }
  }

  /** What suffices for more entries suffices for fewer. */
  lemma SufficesForFewer(room: nat, fewer: nat, entries: nat)
    requires Suffices(room, entries) && fewer <= entries
    ensures Suffices(room, fewer)
  {
    PowGrows(fewer, entries);
  }

  /** Growing at least doubles the table. */
  lemma {:induction false} GrowSize(n: nat)
    requires PowerOfTwo(n)
    ensures var count := if n == 1 then 0 else n;
            NewSize(Max(4, 2 * count)) == Max(4, 2 * count) && Max(4, 2 * count) > n
  {
    TwicePower(n);
    assert PowerOfTwo(4);
    hide PowerOfTwo, NextPowerOfTwo;
    NextOfPower(Max(4, 2 * n));
  }

  class FlatHashMap<V> {
    var entries: array<Entry<V>>
    var numSlotsMinusOne: nat
    var maxLookups: nat
    var numElements: nat
    /** The finite map that the table stands for. */
    ghost var m: map<Word, V>

    ghost function N(): nat
      reads this
    {
      numSlotsMinusOne + 1
    }

    ghost predicate Counted()
      reads this
    {
      numElements == |m| && (numElements > 0 ==> 2 * numElements <= N()) && maxLookups >= Log2(N())
    }

    ghost predicate Valid()
      reads this, entries
    {
      && TableOk(entries[..], N(), maxLookups) && Stores(entries[..], m) && Counted()
    }

    /** All that a rehash needs of the table it replaces. */
    ghost predicate Rehashable()
      reads this, entries
    {
      && Loose(entries[..], N(), maxLookups) && Stores(entries[..], m) && Counted()
    }

    function BucketCount(): nat
      reads this
    {
      if numSlotsMinusOne == 0 then 0 else numSlotsMinusOne + 1
    }

    constructor ()
      ensures Valid() && m == map[] && fresh(entries)
    {
      entries := new Entry[MIN_LOOKUPS](i => if i == MIN_LOOKUPS - 1 then Entry(0, None) else Entry(-1, None));
      numSlotsMinusOne, maxLookups, numElements, m := 0, MIN_LOOKUPS - 1, 0, map[];
      new;
      BlankOk(entries[..], 1, 3);
    }

    /** The slot of a key, if the table has it. */
    method Find(key: Word) returns (at: Option<nat>)
      requires Valid()
      ensures at.Some? <==> key in m
      ensures at.Some? ==> at.value < entries.Length && entries[at.value].item == Some(Item(key, m[key]))
    {
      var index, distance, found := Probe(key);
      if found {
        return Some(index);
      }
      return None;
    }

    /** Walks from the home slot on until the key or a slot nearer to its home turns up. */
    method Probe(key: Word) returns (index: nat, distance: nat, found: bool)
      requires Valid()
      ensures found <==> key in m
      ensures index < entries.Length
      ensures found ==> entries[index].item == Some(Item(key, m[key]))
      ensures !found ==> !HasKey(entries[..], key) && Probed(entries[..], Home(key, N()), distance, key)
      ensures !found ==> index == Home(key, N()) + distance && entries[index].dist < distance && distance <= maxLookups
    {
      hide Home, Gentle, Distinct, Placed, Stores, Framed, HasKey, Probed;
      ghost var t := entries[..];
      ghost var home := Home(key, N());
      ProbeStart(t, N(), maxLookups, key);
      index, distance := Home(key, numSlotsMinusOne + 1), 0;
      ProbeBounds(t, home, 0, key);
      while entries[index].dist >= distance
        invariant index == home + distance && Probed(t, home, distance, key)
        invariant index < entries.Length
        decreases entries.Length - index
      {
        ProbeInside(t, N(), maxLookups, distance, key);
        if entries[index].item.value.key == key {
          FoundIs(t, m, index, key);
          return index, distance, true;
        }
        ProbeNext(t, home, distance, key);
        index, distance := index + 1, distance + 1;
      }
      ProbeInside(t, N(), maxLookups, distance, key);
      NotThere(t, N(), maxLookups, distance, key);
      NotStored(t, m, key);
      found := false;
    }

    /** Adds an entry unless its key is known. */
    method Emplace(key: Word, value: V, ghost room: nat) returns (at: nat, inserted: bool)
      requires Valid() && Suffices(room, if key in m then |m| else |m| + 1)
      modifies this, entries
      ensures Valid() && (entries == old(entries) || fresh(entries)) && old(N()) <= N() <= Max(old(N()), 2 * room)
      ensures inserted <==> key !in old(m)
      ensures m == if inserted then old(m)[key := value] else old(m)
      ensures at < entries.Length && entries[at].item == Some(Item(key, m[key]))
      decreases Left(room, N()), 3
    {
      var index, distance, found := Probe(key);
      if found {
        return index, false;
      }
      NotStored(entries[..], m, key);
      at := EmplaceNewKey(distance, index, key, value, room);
      inserted := true;
    }

    /** A new key takes the slot at which its probe ended; displaced items move on. */
    method EmplaceNewKey(distance: nat, index: nat, key: Word, value: V, ghost room: nat) returns (at: nat)
      requires Valid() && Suffices(room, |m| + 1) && !HasKey(entries[..], key)
      requires Probed(entries[..], Home(key, N()), distance, key) && distance <= maxLookups
      requires index == Home(key, N()) + distance && index < entries.Length && entries[index].dist < distance
      modifies this, entries
      ensures Valid() && (entries == old(entries) || fresh(entries)) && old(N()) <= N() <= Max(old(N()), 2 * room)
      ensures m == old(m)[key := value] && key !in old(m)
      ensures at < entries.Length && entries[at].item == Some(Item(key, value))
      decreases Left(room, N()), 2
    {
      hide Home, Gentle, Distinct, Placed, Stores, Framed, HasKey, Probed;
      NotStored(entries[..], m, key);
      FullSizeIsFree(entries[..], N(), maxLookups, distance, key);
      ProbeCrowd(entries[..], Home(key, N()), distance, key, m);
      if distance == maxLookups && room >= Pow2(|m| + 1) {
        CrowdedIsSmall(N(), maxLookups, |m| + 1, room);
      }
      if numSlotsMinusOne == 0 || distance == maxLookups || 2 * (numElements + 1) > numSlotsMinusOne + 1 {
        Grow(room);
        var inserted;
        at, inserted := Emplace(key, value, room);
        return;
      }
      ghost var m' := m[key := value];
      CarryStart(entries[..], N(), maxLookups, distance, Item(key, value), m);
      CarryInside(entries[..], N(), maxLookups, index, distance, Item(key, value), m');
      if entries[index].item.None? {
        Land(entries[..], N(), maxLookups, index, distance, Item(key, value), m');
        entries[index] := Entry(distance, Some(Item(key, value)));
        m, numElements := m', numElements + 1;
        return index;
      }
      at := Displace(distance, index, key, value, room);
    }

    /** The probe ended at an occupied slot: items are displaced until one lands or the limit is reached. */
    method Displace(distance: nat, index: nat, key: Word, value: V, ghost room: nat) returns (at: nat)
      requires Valid() && Suffices(room, |m| + 1) && key !in m && (N() < room || room >= Pow2(|m| + 1))
      requires 2 * (numElements + 1) <= N()
      requires Carrying(entries[..], N(), maxLookups, index, distance, Item(key, value), m[key := value])
      requires index < entries.Length && 0 <= entries[index].dist < distance
      modifies this, entries
      ensures Valid() && (entries == old(entries) || fresh(entries)) && old(N()) <= N() <= Max(old(N()), 2 * room)
      ensures m == old(m)[key := value]
      ensures at < entries.Length && entries[at].item == Some(Item(key, value))
      decreases Left(room, N()), 2, 0
    {
      hide Home, Gentle, Distinct, Placed, Stores, Framed, HasKey, Carrying;
      ghost var n, ml, m' := N(), maxLookups, m[key := value];
      var newItem := Item(key, value);
      at := index;
      SwapOn(entries[..], n, ml, index, distance, newItem, m');
      var toInsert, d, pos := entries[index].item.value, entries[index].dist + 1, index + 1;
      ghost var t := entries[..];
      entries[index] := Entry(distance, Some(newItem));
      assert entries[..] == t[index := Entry(distance, Some(newItem))];
      var landed, full := false, false;
      while !landed && !full
        modifies entries
        invariant at < pos && 0 <= d && entries[at].item == Some(newItem)
        invariant landed ==> TableOk(entries[..], n, ml) && Stores(entries[..], m')
        invariant !landed ==> Carrying(entries[..], n, ml, pos, d, toInsert, m')
        invariant full ==> !landed && n < room
        decreases !landed && !full, entries.Length - pos
      {
        CarryInside(entries[..], n, ml, pos, d, toInsert, m');
        t := entries[..];
        if entries[pos].item.None? {
          Land(t, n, ml, pos, d, toInsert, m');
          entries[pos] := Entry(d, Some(toInsert));
          assert entries[..] == t[pos := Entry(d, Some(toInsert))];
          landed := true;
        } else if entries[pos].dist < d {
          SwapOn(t, n, ml, pos, d, toInsert, m');
          var out, outDist := entries[pos].item.value, entries[pos].dist;
          entries[pos] := Entry(d, Some(toInsert));
          assert entries[..] == t[pos := Entry(d, Some(toInsert))];
          toInsert, d, pos := out, outDist + 1, pos + 1;
        } else if d + 1 == maxLookups {
          CarryCrowd(t, n, ml, pos, d, toInsert, m');
          if n >= room {
            CrowdedIsSmall(n, ml, |m| + 1, room);
          }
          full := true;
        } else {
          CarryLimit(t, n, ml, pos, d, toInsert, m');
          MoveOn(t, n, ml, pos, d, toInsert, m');
          d, pos := d + 1, pos + 1;
        }
      }
      if landed {
        m, numElements := m', numElements + 1;
      } else {
        t := entries[..];
        SwapBack(t, n, ml, pos, d, toInsert, m', at, key);
        entries[at] := Entry(entries[at].dist, Some(toInsert));
        assert entries[..] == t[at := t[at].(item := Some(toInsert))];
        assert m' - {key} == m;
        Grow(room);
        var inserted;
        at, inserted := Emplace(key, value, room);
      }
    }

    method Grow(ghost room: nat)
      requires Rehashable() && Suffices(room, |m|) && N() < room
      modifies this, entries
      ensures Valid() && fresh(entries) && m == old(m) && old(N()) < N() <= 2 * room
      decreases Left(room, N()), 1
    {
      GrowSize(N());
      Rehash(Max(4, 2 * BucketCount()), room);
    }

    /** Moves every item to a new table; what the old one held is all the new one holds. */
    method Rehash(buckets: nat, ghost room: nat)
      requires Rehashable() && Suffices(room, |m|)
      requires Valid() || (BucketsFor(buckets, numElements) > 0
                           && NewSize(BucketsFor(buckets, numElements)) != BucketCount())
      modifies this, entries
      ensures Valid() && (entries == old(entries) || fresh(entries)) && m == old(m)
      ensures var size := NewSize(BucketsFor(buckets, old(numElements)));
              BucketsFor(buckets, old(numElements)) > 0 && size != old(BucketCount()) ==>
                fresh(entries) && size <= N() <= Max(size, 2 * room)
      decreases Left(room, NewSize(BucketsFor(buckets, numElements))), 6
    {
      var numBuckets := BucketsFor(buckets, numElements);
      if numBuckets == 0 {
        ResetToEmptyState();
        return;
      }
      var size := NewSize(numBuckets);
      if size == BucketCount() {
        return;
      }
      Rebuild(size, room);
    }

    method Rebuild(size: nat, ghost room: nat)
      requires Rehashable() && Suffices(room, |m|) && PowerOfTwo(size) && size >= 2
      modifies this, entries
      ensures Valid() && fresh(entries) && m == old(m) && size <= N() <= Max(size, 2 * room)
      decreases Left(room, size), 5
    {
      hide Gentle, Distinct, Placed, Stores, HasKey, TableOk, Blank;
      LastIsSentinel(entries[..], N(), maxLookups);
      var oldEntries := entries;
      ghost var all := m;
      var oldEnd := numSlotsMinusOne + maxLookups;
      var newEntries := NewEntries(size, ComputeMaxLookups(size));
      BlankOk(newEntries[..], size, ComputeMaxLookups(size));
      entries, numSlotsMinusOne, maxLookups, numElements, m := newEntries, size - 1, ComputeMaxLookups(size), 0, map[];
      Refill(oldEntries, oldEnd, all, room);
    }

    /** Every item of the old slots goes into the new table, which may grow again on the way. */
    method Refill(oldEntries: array<Entry<V>>, oldEnd: nat, ghost all: map<Word, V>, ghost room: nat)
      requires Valid() && m == map[] && oldEntries != entries && Suffices(room, |all|)
      requires oldEnd + 1 == oldEntries.Length && oldEntries[oldEnd].item.None?
      requires Distinct(oldEntries[..]) && Stores(oldEntries[..], all)
      modifies this, entries, oldEntries
      ensures Valid() && (entries == old(entries) || fresh(entries)) && m == all
      ensures old(N()) <= N() <= Max(old(N()), 2 * room)
      decreases Left(room, N()), 4
    {
      hide Gentle, Distinct, Placed, Stores, Framed, HasKey;
      ghost var was := oldEntries[..];
      EmptyPrefix(was);
      for i := 0 to oldEnd
        modifies this, entries, oldEntries
        invariant Valid() && (entries == old(entries) || fresh(entries)) && entries != oldEntries
        invariant old(N()) <= N() <= Max(old(N()), 2 * room)
        invariant Stores(was[..i], m)
        invariant oldEntries[..][i..] == was[i..]
      {
        StoresNext(was, i, m, all);
        assert oldEntries[i] == was[i..][0];
        if oldEntries[i].item.Some? {
          var item := oldEntries[i].item.value;
          SufficesForFewer(room, if item.key in m then |m| else |m| + 1, |all|);
          var at, inserted := Emplace(item.key, item.value, room);
          oldEntries[i] := Entry(-1, None);
        }
        assert was[i + 1..] == was[i..][1..];
      }
      WholePrefix(was, oldEnd, m);
      SameMap(was, m, all);
    }

    method NewEntries(size: nat, lookups: nat) returns (t: array<Entry<V>>)
      requires size > 0 && lookups >= 3
      ensures fresh(t) && Blank(t[..], size, lookups)
    {
      t := new Entry[size + lookups](i => if i == size + lookups - 1 then Entry(0, None) else Entry(-1, None));
    }

    method ResetToEmptyState()
      requires m == map[] && numElements == 0
      modifies this
      ensures Valid() && m == map[] && fresh(entries)
    {
      entries := NewEntries(1, MIN_LOOKUPS - 1);
      numSlotsMinusOne, maxLookups := 0, MIN_LOOKUPS - 1;
      BlankOk(entries[..], 1, 3);
    }

    /** Takes the item at a slot out; the items behind it move back until one is at home. */
    method EraseAt(at: nat)
      requires Valid() && at < entries.Length && entries[at].item.Some?
      modifies this, entries
      ensures Valid() && entries == old(entries)
      ensures m == old(m) - {old(entries[at].item.value.key)}
    {
      hide Home, Gentle, Distinct, Placed, Stores, Framed, HasKey, Gap;
      var current := at;
      ghost var t := entries[..];
      OpenGap(t, N(), maxLookups, at, m);
      m := m - {entries[at].item.value.key};
      entries[current] := Entry(-1, None);
      assert entries[..] == t[at := Entry(-1, None)];
      numElements := numElements - 1;
      GapInside(entries[..], N(), maxLookups, current, m);
      while entries[current + 1].dist > 0
        modifies entries
        invariant current + 1 < entries.Length && Gap(entries[..], N(), maxLookups, current, m)
        decreases entries.Length - current
      {
        t := entries[..];
        ShiftBack(t, N(), maxLookups, current, m);
        entries[current] := Entry(entries[current + 1].dist - 1, entries[current + 1].item);
        entries[current + 1] := Entry(-1, None);
        ghost var moved := Entry(t[current + 1].dist - 1, t[current + 1].item);
        assert entries[..] == t[current := moved][current + 1 := Entry(-1, None)];
        current := current + 1;
      }
      CloseGap(entries[..], N(), maxLookups, current, m);
    }

    method Erase(key: Word) returns (erased: nat)
      requires Valid()
      modifies this, entries
      ensures Valid() && entries == old(entries)
      ensures m == old(m) - {key} && erased == if key in old(m) then 1 else 0
    {
      var found := Find(key);
      if found.None? {
        return 0;
      }
      EraseAt(found.value);
      return 1;
    }
  }
}
