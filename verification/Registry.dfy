/** The registered streams of a run with their cancellation tokens. */
module Registry {
  import opened Wrappers
  import opened Source
  import opened Discovery
  import opened ShardedMap

  datatype PodLocator = PodLocator(context: string, namespace: string, pod: string, uid: string)
  datatype PodMetaSnapshot = PodMetaSnapshot(node: Option<string>, labels: map<string, string>)

  type Token = nat

  // ---- The registry as a value ----

  /** Registered keys and their tokens, and what the registry has done so far: tokens made and cancelled, tasks
      started, remove commands sent to the mux, and the cursors still stored. */
  datatype Books = Books(
    active: set<SourceKey>,
    tokens: map<SourceKey, Token>,
    nextToken: Token,
    cancelled: set<Token>,
    spawned: seq<(SourceKey, Token)>,
    removes: seq<SourceKey>,
    cursors: map<SourceKey, int>)

  /** Each registered key, and no other, has a token: the one its own attach task was started with, not cancelled. */
  ghost predicate Consistent(b: Books) {
    && b.tokens.Keys == b.active
    && b.nextToken == |b.spawned|
    && (forall k :: k in b.tokens ==>
          b.tokens[k] < |b.spawned| && b.spawned[b.tokens[k]] == (k, b.tokens[k]) && b.tokens[k] !in b.cancelled)
    && (forall t :: t in b.cancelled ==> t < b.nextToken)
  }

  function Dropped(b: Books, k: SourceKey): Books {
    b.(active := b.active - {k},
       tokens := b.tokens - {k},
       cancelled := if k in b.tokens then b.cancelled + {b.tokens[k]} else b.cancelled,
       removes := b.removes + [k],
       cursors := b.cursors - {k})
  }

  function Added(b: Books, k: SourceKey): Books {
    if k in b.active then b
    else b.(active := b.active + {k},
            tokens := b.tokens[k := b.nextToken],
            nextToken := b.nextToken + 1,
            spawned := b.spawned + [(k, b.nextToken)])
  }

  function DroppedAll(b: Books, keys: seq<SourceKey>): Books
    decreases |keys|
  {
    if keys == [] then b else Dropped(DroppedAll(b, keys[..|keys| - 1]), keys[|keys| - 1])
  }

  function AddedAll(b: Books, keys: seq<SourceKey>): Books
    decreases |keys|
  {
    if keys == [] then b else Added(AddedAll(b, keys[..|keys| - 1]), keys[|keys| - 1])
  }

  function SetOf(keys: seq<SourceKey>): set<SourceKey> {
    set k | k in keys
  }

  /** The books after the keys of a list were dropped, whatever was registered. */
  ghost predicate DropEffect(b: Books, d: Books, keys: seq<SourceKey>) {
    && d.active == b.active - SetOf(keys) && d.tokens == b.tokens - SetOf(keys)
    && b.cancelled <= d.cancelled
    && d.removes == b.removes + keys && d.cursors == b.cursors - SetOf(keys)
    && d.nextToken == b.nextToken && d.spawned == b.spawned
  }

  lemma DroppedOne(b: Books, k: SourceKey)
    requires Consistent(b)
    ensures Consistent(Dropped(b, k))
  {
  }

  lemma {:induction false} DroppingAll(b: Books, keys: seq<SourceKey>)
    requires Consistent(b)
    ensures Consistent(DroppedAll(b, keys)) && DropEffect(b, DroppedAll(b, keys), keys)
    decreases |keys|
  {
    if keys == [] {
      assert b.tokens - {} == b.tokens && b.cursors - {} == b.cursors;
    } else {
      var rest, k := keys[..|keys| - 1], keys[|keys| - 1];
      DroppingAll(b, rest);
      DroppedOne(DroppedAll(b, rest), k);
      assert keys == rest + [k];
      assert SetOf(keys) == SetOf(rest) + {k};
    }
  }

  /** A registered key that is dropped has its token cancelled. */
  lemma {:induction false} DroppingCancels(b: Books, keys: seq<SourceKey>, k: SourceKey)
    requires Consistent(b) && k in b.tokens && k in keys
    ensures b.tokens[k] in DroppedAll(b, keys).cancelled
    decreases |keys|
  {
    var rest := keys[..|keys| - 1];
    DroppingAll(b, rest);
    if k in rest { DroppingCancels(b, rest, k); }
  }

  /** The books after distinct, unregistered keys were added: each has the next token, and a task. */
  ghost predicate AddEffect(b: Books, a: Books, keys: seq<SourceKey>) {
    && a.active == b.active + SetOf(keys)
    && (forall k :: k in b.tokens ==> k in a.tokens && a.tokens[k] == b.tokens[k])
    && (forall i :: 0 <= i < |keys| ==> keys[i] in a.tokens && a.tokens[keys[i]] == b.nextToken + i)
    && a.nextToken == b.nextToken + |keys|
    && |a.spawned| == |b.spawned| + |keys| && b.spawned <= a.spawned
    && a.cancelled == b.cancelled && a.removes == b.removes && a.cursors == b.cursors
  }

  lemma AddedOne(b: Books, k: SourceKey)
    requires Consistent(b)
    ensures Consistent(Added(b, k))
  {
  }

  lemma {:induction false} AddingAll(b: Books, keys: seq<SourceKey>)
    requires Consistent(b)
    requires forall i, j :: 0 <= i < j < |keys| ==> keys[i] != keys[j]
    requires SetOf(keys) !! b.active
    ensures Consistent(AddedAll(b, keys)) && AddEffect(b, AddedAll(b, keys), keys)
    decreases |keys|
  {
    if keys != [] {
      var rest, k := keys[..|keys| - 1], keys[|keys| - 1];
      assert keys == rest + [k];
      assert SetOf(keys) == SetOf(rest) + {k} && k !in rest;
      AddingAll(b, rest);
      AddedOne(AddedAll(b, rest), k);
      AddEffectGrows(b, AddedAll(b, rest), rest, k);
    }
  }

  lemma AddEffectGrows(b: Books, a: Books, keys: seq<SourceKey>, k: SourceKey)
    requires AddEffect(b, a, keys) && k !in keys && k !in b.active && b.active == b.tokens.Keys
    ensures AddEffect(b, Added(a, k), keys + [k])
  {
    assert SetOf(keys + [k]) == SetOf(keys) + {k};
  }

  // ---- Reconciling ----

  /** The active keys of the pod of this namespace, name and (if given) uid. */
  function KeysOf(policy: Policy, active: set<SourceKey>, pod: Pod, uid: Option<string>): set<SourceKey> {
    set k | k in active && Located(policy, k, OrEmpty(pod.namespace), OrEmpty(pod.name), uid)
  }

  /** How one event moves the registry: a stream that stays keeps its token, the token of one that goes is cancelled,
      and one that comes has a new token. */
  ghost predicate Continues(b: Books, r: Books) {
    && b.cancelled <= r.cancelled && b.spawned <= r.spawned
    && (forall k :: k in b.tokens ==> if k in r.tokens then r.tokens[k] == b.tokens[k] else b.tokens[k] in r.cancelled)
    && (forall k :: k in r.tokens && k !in b.tokens ==> b.nextToken <= r.tokens[k])
  }

  /** What reconciling `current` to `desired` does: the registered keys become the desired ones as far as `current`
      goes, each key that is dropped has its cursor forgotten and is removed from the mux once, and one task is started
      for each that is added. */
  ghost predicate Moves(b: Books, r: Books, current: set<SourceKey>, desired: set<SourceKey>) {
    && Consistent(r) && Continues(b, r)
    && r.active == b.active - current + desired
    && r.cursors == b.cursors - (current - desired)
    && b.removes <= r.removes && Lists(r.removes[|b.removes|..], current - desired)
    && |r.spawned| == |b.spawned| + |desired - current|
  }

  lemma MoveSet(all: set<SourceKey>, current: set<SourceKey>, desired: set<SourceKey>)
    requires current <= all
    ensures all - (current - desired) + (desired - current) == all - current + desired
    ensures desired == {} ==> all - current + desired == all - current
    ensures all == current ==> all - current + desired == desired
  {
  }

  lemma Reconciling(b: Books, toDrop: seq<SourceKey>, toAdd: seq<SourceKey>, current: set<SourceKey>,
                    desired: set<SourceKey>)
    requires Consistent(b) && current <= b.active && desired * b.active <= current
    requires Lists(toDrop, current - desired) && Lists(toAdd, desired - current)
    ensures Moves(b, AddedAll(DroppedAll(b, toDrop), toAdd), current, desired)
    ensures desired == {} ==> AddedAll(DroppedAll(b, toDrop), toAdd).active == b.active - current
    ensures current == b.active ==> AddedAll(DroppedAll(b, toDrop), toAdd).active == desired
  {
    var drop, add := current - desired, desired - current;
    assert SetOf(toDrop) == drop && SetOf(toAdd) == add;
    DroppingAll(b, toDrop);
    forall k | k in drop && k in b.tokens ensures b.tokens[k] in DroppedAll(b, toDrop).cancelled {
      DroppingCancels(b, toDrop, k);
    }
    var d := DroppedAll(b, toDrop);
    AddingAll(d, toAdd);
    DropThenAdd(b, d, AddedAll(d, toAdd), toDrop, toAdd, current, desired);
    MoveSet(b.active, current, desired);
  }

  lemma Removing(b: Books, toDrop: seq<SourceKey>, keys: set<SourceKey>)
    requires Consistent(b) && keys <= b.active && Lists(toDrop, keys)
    ensures Moves(b, DroppedAll(b, toDrop), keys, {})
    ensures DroppedAll(b, toDrop).active == b.active - keys
  {
    assert keys - {} == keys && {} - keys == {};
    assert Lists([], {} - keys);
    Reconciling(b, toDrop, [], keys, {});
  }

  lemma DropThenAdd(b: Books, d: Books, r: Books, toDrop: seq<SourceKey>, toAdd: seq<SourceKey>,
                    current: set<SourceKey>, desired: set<SourceKey>)
    requires Consistent(b) && current <= b.active
    requires Consistent(r) && DropEffect(b, d, toDrop) && AddEffect(d, r, toAdd)
    requires Lists(toDrop, current - desired) && Lists(toAdd, desired - current)
    requires SetOf(toDrop) == current - desired && SetOf(toAdd) == desired - current
    requires forall k :: k in current - desired && k in b.tokens ==> b.tokens[k] in d.cancelled
    ensures Moves(b, r, current, desired)
  {
    var add := desired - current;
    MoveSet(b.active, current, desired);
    ListIsMultiset(toAdd, add);
    assert |toAdd| == |multiset(toAdd)| == |multiset(add)|;
    assert r.removes[|b.removes|..] == toDrop;
    DropThenAddContinues(b, d, r, toDrop, toAdd, current, desired);
  }

  lemma DropThenAddContinues(b: Books, d: Books, r: Books, toDrop: seq<SourceKey>, toAdd: seq<SourceKey>,
                             current: set<SourceKey>, desired: set<SourceKey>)
    requires Consistent(b) && Consistent(r) && DropEffect(b, d, toDrop) && AddEffect(d, r, toAdd)
    requires SetOf(toDrop) == current - desired && SetOf(toAdd) == desired - current
    requires forall k :: k in current - desired && k in b.tokens ==> b.tokens[k] in d.cancelled
    ensures Continues(b, r)
  {
    forall k | k in r.tokens && k !in b.tokens ensures b.nextToken <= r.tokens[k] {
      assert k in SetOf(toAdd);
      var i :| 0 <= i < |toAdd| && toAdd[i] == k;
    }
    forall k | k in b.tokens
      ensures if k in r.tokens then r.tokens[k] == b.tokens[k] else b.tokens[k] in r.cancelled
    {
      if k in SetOf(toDrop) { assert k !in SetOf(toAdd) && k !in r.active; }
    }
  }

  // ---- The registry and what it shares with the run ----

  class WatchCtx {
    const policy: Policy
    const cursor: ShardedMap<SourceKey, int>
    const podMeta: ShardedMap<PodLocator, PodMetaSnapshot>
    var nextToken: Token
    var cancelled: set<Token>
    var spawned: seq<(SourceKey, Token)>
    var removes: seq<SourceKey>

    ghost predicate Valid()
      reads this, cursor, cursor.shards, podMeta, podMeta.shards
    {
      cursor.Valid() && podMeta.Valid() && cursor.shards as object != podMeta.shards as object
    }

    constructor (policy: Policy, cursorHash: SourceKey -> nat, metaHash: PodLocator -> nat)
      ensures Valid() && fresh(cursor.shards) && fresh(podMeta.shards)
      ensures this.policy == policy && cursor.View() == map[] && podMeta.View() == map[]
      ensures cancelled == {} && nextToken == 0 && spawned == [] && removes == []
    {
      this.policy := policy;
      var c := new ShardedMap(cursorHash);
      var m := new ShardedMap(metaHash);
      cursor, podMeta := c, m;
      nextToken, cancelled, spawned, removes := 0, {}, [], [];
    }
  }

  class PodStreamRegistry {
    var active: set<SourceKey>
    var tokens: map<SourceKey, Token>

    constructor ()
      ensures active == {} && tokens == map[]
    {
      active, tokens := {}, map[];
    }

    ghost function State(ctx: WatchCtx): Books
      requires ctx.cursor.Valid()
      reads this, ctx, ctx.cursor, ctx.cursor.shards
    {
      Books(active, tokens, ctx.nextToken, ctx.cancelled, ctx.spawned, ctx.removes, ctx.cursor.View())
    }

    method DropKey(k: SourceKey, ctx: WatchCtx)
      requires ctx.cursor.Valid()
      modifies this, ctx, ctx.cursor.shards
      ensures ctx.cursor.Valid() && State(ctx) == Dropped(old(State(ctx)), k)
    {
      if k in tokens { ctx.cancelled := ctx.cancelled + {tokens[k]}; }
      tokens := tokens - {k};
      ctx.cursor.Remove(k);
      active := active - {k};
      ctx.removes := ctx.removes + [k];
    }

    method DropKeys(keys: seq<SourceKey>, ctx: WatchCtx)
      requires ctx.cursor.Valid()
      modifies this, ctx, ctx.cursor.shards
      ensures ctx.cursor.Valid() && State(ctx) == DroppedAll(old(State(ctx)), keys)
    {
      for i := 0 to |keys|
        invariant ctx.cursor.Valid() && State(ctx) == DroppedAll(old(State(ctx)), keys[..i])
      {
        DropKey(keys[i], ctx);
        assert keys[..i + 1][..i] == keys[..i];
      }
      assert keys[..|keys|] == keys;
    }

    method AddKey(key: SourceKey, ctx: WatchCtx)
      requires ctx.cursor.Valid()
      modifies this, ctx
      ensures ctx.cursor.Valid() && State(ctx) == Added(old(State(ctx)), key)
    {
      if key !in active {
        active := active + {key};
        var token := ctx.nextToken;
        ctx.nextToken := ctx.nextToken + 1;
        tokens := tokens[key := token];
        ctx.spawned := ctx.spawned + [(key, token)];
      }
    }

    method AddKeys(keys: seq<SourceKey>, ctx: WatchCtx)
      requires ctx.cursor.Valid()
      modifies this, ctx
      ensures ctx.cursor.Valid() && State(ctx) == AddedAll(old(State(ctx)), keys)
    {
      for i := 0 to |keys|
        invariant ctx.cursor.Valid() && State(ctx) == AddedAll(old(State(ctx)), keys[..i])
      {
        AddKey(keys[i], ctx);
        assert keys[..i + 1][..i] == keys[..i];
      }
      assert keys[..|keys|] == keys;
    }

    method DropThenAddKeys(toDrop: seq<SourceKey>, toAdd: seq<SourceKey>, ctx: WatchCtx)
      requires ctx.cursor.Valid()
      modifies this, ctx, ctx.cursor.shards
      ensures ctx.cursor.Valid() && State(ctx) == AddedAll(DroppedAll(old(State(ctx)), toDrop), toAdd)
    {
      DropKeys(toDrop, ctx);
      AddKeys(toAdd, ctx);
    }

    method Move(toDrop: seq<SourceKey>, toAdd: seq<SourceKey>, ghost current: set<SourceKey>,
                ghost desired: set<SourceKey>, ctx: WatchCtx)
      requires ctx.cursor.Valid() && Consistent(State(ctx))
      requires current <= active && desired * active <= current
      requires Lists(toDrop, current - desired) && Lists(toAdd, desired - current)
      modifies this, ctx, ctx.cursor.shards
      ensures ctx.cursor.Valid()
      ensures Moves(old(State(ctx)), State(ctx), current, desired)
      ensures desired == {} ==> active == old(active) - current
      ensures current == old(active) ==> active == desired
    {
      Reconciling(State(ctx), toDrop, toAdd, current, desired);
      DropThenAddKeys(toDrop, toAdd, ctx);
    }

    /** Drops and adds as the difference says. */
    method DropAndAdd(current: set<SourceKey>, desired: set<SourceKey>, ctx: WatchCtx)
      requires ctx.cursor.Valid() && Consistent(State(ctx))
      requires current <= active && desired * active <= current
      modifies this, ctx, ctx.cursor.shards
      ensures ctx.cursor.Valid()
      ensures Moves(old(State(ctx)), State(ctx), current, desired)
      ensures desired == {} ==> active == old(active) - current
      ensures current == old(active) ==> active == desired
    {
      var toAdd, toDrop := Reconcile(current, desired);
      Move(toDrop, toAdd, current, desired, ctx);
    }

    method ReconcileSnapshot(snapshot: set<SourceKey>, ctx: WatchCtx)
      requires ctx.cursor.Valid() && Consistent(State(ctx))
      modifies this, ctx, ctx.cursor.shards
      ensures ctx.cursor.Valid() && active == snapshot
      ensures Moves(old(State(ctx)), State(ctx), old(active), snapshot)
    {
      DropAndAdd(active, snapshot, ctx);
    }

    /** Every desired key belongs to the pod. */
    method ReconcilePod(pod: Pod, desired: set<SourceKey>, ctx: WatchCtx)
      requires ctx.cursor.Valid() && Consistent(State(ctx))
      requires forall k :: k in desired ==> Located(ctx.policy, k, OrEmpty(pod.namespace), OrEmpty(pod.name), None)
      modifies this, ctx, ctx.cursor.shards
      ensures ctx.cursor.Valid()
      ensures Moves(old(State(ctx)), State(ctx),
                    KeysOf(ctx.policy, old(active), pod, None), desired)
    {
      DropAndAdd(KeysOf(ctx.policy, active, pod, None), desired, ctx);
    }

    method RemovePod(pod: Pod, ctx: WatchCtx)
      requires ctx.cursor.Valid() && Consistent(State(ctx))
      modifies this, ctx, ctx.cursor.shards
      ensures ctx.cursor.Valid() && active == old(active) - KeysOf(ctx.policy, old(active), pod, pod.uid)
      ensures Moves(old(State(ctx)), State(ctx),
                    KeysOf(ctx.policy, old(active), pod, pod.uid), {})
    {
      var keys := KeysOf(ctx.policy, active, pod, pod.uid);
      var list := Elements(keys);
      Removing(State(ctx), list, keys);
      DropKeys(list, ctx);
    }
  }
}
