/**
 * Maps built by inserting keys in order, as `HashMap::insert` in a loop or
 * `collect()` over `(key, value)` pairs does: a key that occurs more than
 * once ends up bound to the value of its last occurrence.
 */
module Maps {
  /** The set of keys in a list. */
  function KeySet<K>(keys: seq<K>): set<K> {
    set k | k in keys
  }

  /** No later entry of `keys` repeats `keys[i]`. */
  predicate IsLast<K(==)>(keys: seq<K>, i: nat)
    requires i < |keys|
  {
    forall j :: i < j < |keys| ==> keys[j] != keys[i]
  }

  /** The position of the last occurrence of `k`. */
  function LastIndex<K(==)>(keys: seq<K>, k: K): (i: nat)
    requires k in keys
    ensures i < |keys| && keys[i] == k && IsLast(keys, i)
    decreases |keys|
  {
    var n := |keys| - 1;
    if keys[n] == k then n
    else
      assert k in keys[..n] by {
        var j :| 0 <= j < |keys| && keys[j] == k;
        assert keys[..n][j] == k;
      }
      LastIndex(keys[..n], k)
  }

  /** A position that is a last occurrence is the last index of its key. */
  lemma LastIndexOf<K>(keys: seq<K>, i: nat)
    requires i < |keys| && IsLast(keys, i)
    ensures LastIndex(keys, keys[i]) == i
  {
  }

  /** Without repeated keys every position is a last occurrence. */
  lemma DistinctIsLast<K>(keys: seq<K>, i: nat)
    requires forall j, k :: 0 <= j < k < |keys| ==> keys[j] != keys[k]
    requires i < |keys|
    ensures LastIndex(keys, keys[i]) == i
  {
    LastIndexOf(keys, i);
  }

  /** The map built by inserting `keys[i] ↦ values(i)` for `i` in order. */
  function Insertions<K(==), V>(keys: seq<K>, values: nat -> V): map<K, V>
    decreases |keys|
  {
    if |keys| == 0 then map[]
    else Insertions(keys[..|keys| - 1], values)[keys[|keys| - 1] := values(|keys| - 1)]
  }

  /** One more insertion extends the map built so far. */
  lemma InsertionsSnoc<K, V>(keys: seq<K>, i: nat, values: nat -> V)
    requires i < |keys|
    ensures Insertions(keys[..i + 1], values) == Insertions(keys[..i], values)[keys[i] := values(i)]
  {
    assert keys[..i + 1][..i] == keys[..i];
  }

  /**
   * The inserted map has exactly the listed keys, each bound to the value
   * inserted at its last occurrence.
   */
  lemma {:induction false} InsertionsSpec<K, V>(keys: seq<K>, values: nat -> V)
    ensures Insertions(keys, values).Keys == KeySet(keys)
    ensures forall k :: k in keys ==> Insertions(keys, values)[k] == values(LastIndex(keys, k))
  {
    if |keys| > 0 {
      var n := |keys| - 1;
      var prefix := keys[..n];
      InsertionsSpec(prefix, values);
      assert keys == prefix + [keys[n]];
      assert KeySet(keys) == KeySet(prefix) + {keys[n]};
      forall k | k in keys && k != keys[n]
        ensures Insertions(keys, values)[k] == values(LastIndex(keys, k))
      {
        assert k in prefix;
        var l := LastIndex(prefix, k);
        assert prefix[l] == keys[l];
        assert IsLast(keys, l);
        LastIndexOf(keys, l);
      }
    }
  }

  /** A property of every inserted value holds of every value in the map. */
  lemma {:induction false} InsertionsAll<K, V>(keys: seq<K>, values: nat -> V, p: V -> bool)
    requires forall i :: p(values(i))
    ensures forall k :: k in Insertions(keys, values) ==> p(Insertions(keys, values)[k])
  {
    if |keys| > 0 {
      InsertionsAll(keys[..|keys| - 1], values, p);
    }
  }

  /** The positions that some key resolves to are exactly the last occurrences. */
  lemma LastPositions<K>(keys: seq<K>)
    ensures (set j | 0 <= j < |keys| :: LastIndex(keys, keys[j])) == (set i | 0 <= i < |keys| && IsLast(keys, i))
  {
    forall i | 0 <= i < |keys| && IsLast(keys, i)
      ensures i in (set j | 0 <= j < |keys| :: LastIndex(keys, keys[j]))
    {
      LastIndexOf(keys, i);
    }
  }
}
