/**
 * The slot allocator that hands out order nodes.
 *
 * A node is known to the engine by the key of its occupant (an arrival stamp or a paper order
 * id); `slotOf` is the pool index stored in the node.
 */
module NodePool {
  import opened Types

  class Pool<Key(==)> {
    var slots: seq<Option<Key>>
    var free: seq<nat>
    var slotOf: map<Key, nat>

    /** Every slot is either in use, by one key, or on the free list, once; none is lost. */
    ghost predicate Valid()
      reads this
    {
      Sound(slots, free, slotOf)
    }

    static ghost predicate Sound(slots: seq<Option<Key>>, free: seq<nat>, slotOf: map<Key, nat>) {
      && |slots| == |slotOf| + |free|
      && (forall i :: 0 <= i < |free| ==> free[i] < |slots| && slots[free[i]] == None)
      && (forall i, j :: 0 <= i < j < |free| ==> free[i] != free[j])
      && (forall i :: 0 <= i < |slots| && slots[i] == None ==> i in free)
      && (forall k <- slotOf :: slotOf[k] < |slots| && slots[slotOf[k]] == Some(k))
      && (forall i :: 0 <= i < |slots| && slots[i] != None ==>
            slots[i].value in slotOf && slotOf[slots[i].value] == i)
    }

    /** The keys that hold a node. */
    ghost function Owners(): set<Key>
      reads this
    {
      slotOf.Keys
    }

    constructor ()
      ensures Valid() && Owners() == {} && slots == []
    {
      slots, free, slotOf := [], [], map[];
    }

    method Acquire(capacity: nat, key: Key) returns (ok: bool)
      requires Valid()
      requires key !in Owners()
      modifies this
      ensures Valid()
      ensures Owners() == if ok then old(Owners()) + {key} else old(Owners())
      ensures !ok ==> capacity <= |old(Owners())|
      ensures |old(slots)| <= capacity ==> (ok <==> |old(Owners())| < capacity) && |slots| <= capacity
      ensures forall k <- old(slotOf) :: k in slotOf && slotOf[k] == old(slotOf)[k]
    {
      hide Sound;
      Counted(slots, free, slotOf);
      if free != [] {
        TakeFree(key);
        return true;
      }
      if |slots| >= capacity {
        return false;
      }
      Extended(slots, free, slotOf, key);
      slotOf := slotOf[key := |slots|];
      slots := slots + [Some(key)];
      return true;
    }

    static lemma Counted(slots: seq<Option<Key>>, free: seq<nat>, slotOf: map<Key, nat>)
      requires Sound(slots, free, slotOf)
      ensures |slots| == |slotOf| + |free| && |slotOf.Keys| == |slotOf|
    {
    }

    static lemma Extended(slots: seq<Option<Key>>, free: seq<nat>, slotOf: map<Key, nat>, key: Key)
      requires Sound(slots, free, slotOf) && key !in slotOf
      ensures Sound(slots + [Some(key)], free, slotOf[key := |slots|])
    {
    }

    /** Hands out the slot freed last. */
    method TakeFree(key: Key)
      requires Valid()
      requires key !in Owners() && free != []
      modifies this
      ensures Valid()
      ensures slotOf == old(slotOf)[key := old(free)[|old(free)| - 1]]
      ensures |slots| == |old(slots)|
    {
      Taken(slots, free, slotOf, key);
      hide Sound;
      var idx := free[|free| - 1];
      free := free[..|free| - 1];
      slots := slots[idx := Some(key)];
      slotOf := slotOf[key := idx];
    }

    static lemma Taken(slots: seq<Option<Key>>, free: seq<nat>, slotOf: map<Key, nat>, key: Key)
      requires Sound(slots, free, slotOf) && key !in slotOf && free != []
      ensures var idx := free[|free| - 1];
              && idx < |slots|
              && Sound(slots[idx := Some(key)], free[..|free| - 1], slotOf[key := idx])
    {
      var idx, rest := free[|free| - 1], free[..|free| - 1];
      forall i | i in free && i != idx ensures i in rest {
        var k :| 0 <= k < |free| && free[k] == i;
        assert rest[k] == i;
      }
    }

    method Release(key: Key)
      requires Valid()
      modifies this
      ensures Valid() && Owners() == old(Owners()) - {key}
      ensures |slots| == |old(slots)|
    {
      if key !in slotOf {
        return;
      }
      Released(slots, free, slotOf, key);
      hide Sound;
      var idx := slotOf[key];
      slots := slots[idx := None];
      free := free + [idx];
      slotOf := slotOf - {key};
    }

    static lemma Released(slots: seq<Option<Key>>, free: seq<nat>, slotOf: map<Key, nat>, key: Key)
      requires Sound(slots, free, slotOf) && key in slotOf
      ensures slotOf[key] < |slots|
      ensures Sound(slots[slotOf[key] := None], free + [slotOf[key]], slotOf - {key})
    {
      var idx := slotOf[key];
      assert slotOf.Keys == (slotOf - {key}).Keys + {key};
      var slots', free' := slots[idx := None], free + [idx];
      forall i | 0 <= i < |slots'| && slots'[i] == None ensures i in free' {
        assert i == idx || i in free;
        assert free'[|free|] == idx;
      }
    }

    /** Takes every node back; the free list is rebuilt in slot order. */
    method Reset()
      requires Valid()
      modifies this
      ensures Valid() && Owners() == {} && |slots| == |old(slots)|
    {
      slots := seq(|slots|, _ => None);
      free := seq(|slots|, i requires 0 <= i => i);
      slotOf := map[];
      forall i | 0 <= i < |slots| ensures i in free {
        assert free[i] == i;
      }
    }
  }
}
