/**
 The sharded hash maps behind the cursor store and the pod metadata cache. Each key lives in the shard its hash names;
 together the shards are one map.
 */
module ShardedMap {
  import opened Wrappers

  const SHARD_COUNT: nat := 16

  function Retained<K, V>(m: map<K, V>, keep: set<K>): map<K, V> {
    map k | k in m && k in keep :: m[k]
  }

  lemma RetainedAre<K, V>(m: map<K, V>, keep: set<K>)
    ensures forall k :: k in Retained(m, keep) <==> k in m && k in keep
    ensures forall k :: k in Retained(m, keep) ==> Retained(m, keep)[k] == m[k]
  {
  }

  class ShardedMap<K(!new,==), V(==)> {
    const shards: array<map<K, V>>
    const hash: K -> nat

    function ShardIndex(key: K): (i: nat)
      ensures i < SHARD_COUNT
    {
      hash(key) % SHARD_COUNT
    }

    /** Every key lies in its own shard. */
    ghost predicate Valid()
      reads this, shards
    {
      && shards.Length == SHARD_COUNT
      && forall i, k :: 0 <= i < SHARD_COUNT && k in shards[i] ==> ShardIndex(k) == i
    }

    ghost function Merged(n: nat): map<K, V>
      requires n <= shards.Length
      reads this, shards
    {
      if n == 0 then map[] else Merged(n - 1) + shards[n - 1]
    }

    /** The one map the shards stand for. */
    ghost function View(): map<K, V>
      requires Valid()
      reads this, shards
    {
      Merged(SHARD_COUNT)
    }

    lemma {:induction false} MergedAt(n: nat, k: K)
      requires Valid() && n <= SHARD_COUNT
      ensures k in Merged(n) <==> ShardIndex(k) < n && k in shards[ShardIndex(k)]
      ensures k in Merged(n) ==> Merged(n)[k] == shards[ShardIndex(k)][k]
    {
      if n > 0 { MergedAt(n - 1, k); }
    }

    lemma ViewIsShards()
      requires Valid()
      ensures forall k :: k in View() <==> k in shards[ShardIndex(k)]
      ensures forall k :: k in View() ==> View()[k] == shards[ShardIndex(k)][k]
    {
      forall k
        ensures k in View() <==> k in shards[ShardIndex(k)]
        ensures k in View() ==> View()[k] == shards[ShardIndex(k)][k]
      {
        MergedAt(SHARD_COUNT, k);
      }
    }

    constructor (hash: K -> nat)
      ensures Valid() && fresh(shards) && View() == map[] && this.hash == hash
    {
      this.hash := hash;
      shards := new map<K, V>[SHARD_COUNT](_ => map[]);
      new;
      ViewIsShards();
    }

    method Get(key: K) returns (value: Option<V>)
      requires Valid()
      ensures value == if key in View() then Some(View()[key]) else None
    {
      ViewIsShards();
      var shard := shards[ShardIndex(key)];
      value := if key in shard then Some(shard[key]) else None;
    }

    method Record(key: K, value: V)
      requires Valid()
      modifies shards
      ensures Valid() && View() == old(View())[key := value]
    {
      ViewIsShards();
      var i := ShardIndex(key);
      shards[i] := shards[i][key := value];
      ViewIsShards();
    }

    method Remove(key: K)
      requires Valid()
      modifies shards
      ensures Valid() && View() == old(View()) - {key}
    {
      ViewIsShards();
      var i := ShardIndex(key);
      shards[i] := shards[i] - {key};
      ViewIsShards();
    }

    /** Records unless the entry is already there, looking first under the read lock and again under the write lock.
        In between other tasks may leave `between` in the shard. Either way it acts as one write, on the map as it was
        at the first look or as the others left it. */
    method RecordIfChanged(key: K, value: V, between: map<K, V>) returns (early: bool)
      requires Valid()
      requires forall k :: k in between ==> ShardIndex(k) == ShardIndex(key)
      modifies shards
      ensures Valid() && key in View() && View()[key] == value
      ensures early ==> View() == old(View()) && View() == old(View())[key := value]
      ensures !early ==> forall k :: k != key ==>
                (k in View() <==> if ShardIndex(k) == ShardIndex(key) then k in between else k in old(View()))
                && (k in View() ==>
                      View()[k] == if ShardIndex(k) == ShardIndex(key) then between[k] else old(View())[k])
    {
      ViewIsShards();
      var i := ShardIndex(key);
      if key in shards[i] && shards[i][key] == value { return true; }
      shards[i] := between;
      early := false;
      if !(key in shards[i] && shards[i][key] == value) {
        shards[i] := shards[i][key := value];
      }
      ViewIsShards();
    }

    /** The same when no other task comes in between: one write to the map. */
    method Update(key: K, value: V)
      requires Valid()
      modifies shards
      ensures Valid() && View() == old(View())[key := value]
    {
      ViewIsShards();
      var shard := shards[ShardIndex(key)];
      var _ := RecordIfChanged(key, value, shard);
    }

    method Clear()
      requires Valid()
      modifies shards
      ensures Valid() && View() == map[]
    {
      for n := 0 to SHARD_COUNT
        invariant Valid()
        invariant forall i :: 0 <= i < n ==> shards[i] == map[]
      {
        shards[n] := map[];
      }
      ViewIsShards();
    }

    method Prune(keep: set<K>)
      requires Valid()
      modifies shards
      ensures Valid() && View() == Retained(old(View()), keep)
    {
      ViewIsShards();
      for n := 0 to SHARD_COUNT
        invariant Valid()
        invariant forall i :: 0 <= i < n ==> shards[i] == Retained(old(shards[i]), keep)
        invariant forall i :: n <= i < SHARD_COUNT ==> shards[i] == old(shards[i])
      {
        shards[n] := Retained(shards[n], keep);
      }
      ViewIsShards();
    }
  }
}
