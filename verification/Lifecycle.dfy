/** Pod admission, metadata and stream registry, driven by watch events. */
module Lifecycle {
  import opened Wrappers
  import opened Source
  import opened Discovery
  import opened ShardedMap
  import opened Registry

  datatype Event = Init | InitApply(pod: Pod) | InitDone | Apply(pod: Pod) | Delete(pod: Pod)

  // ---- The watch side as a value ----

  datatype Tracked = Tracked(
    active: set<SourceKey>,
    meta: map<PodLocator, PodMetaSnapshot>,
    pending: seq<Pod>)

  function LocatorOf(policy: Policy, pod: Pod): Option<PodLocator> {
    if pod.uid.None? || pod.name.None? || pod.namespace.None? then None
    else Some(PodLocator(policy.context, pod.namespace.value, pod.name.value, pod.uid.value))
  }

  function LocatorOfKey(k: SourceKey): PodLocator {
    PodLocator(k.context, k.namespace, k.pod, k.uid)
  }

  function SnapshotOf(pod: Pod): PodMetaSnapshot {
    PodMetaSnapshot(if pod.spec.None? then None else pod.spec.value.nodeName, pod.labels)
  }

  function MetaUpdated(policy: Policy, meta: map<PodLocator, PodMetaSnapshot>, pod: Pod)
    : map<PodLocator, PodMetaSnapshot>
  {
    var l := LocatorOf(policy, pod);
    if l.None? then meta else meta[l.value := SnapshotOf(pod)]
  }

  function MetaRemoved(policy: Policy, meta: map<PodLocator, PodMetaSnapshot>, pod: Pod)
    : map<PodLocator, PodMetaSnapshot>
  {
    var l := LocatorOf(policy, pod);
    if l.None? then meta else meta - {l.value}
  }

  function MetaUpdatedAll(policy: Policy, meta: map<PodLocator, PodMetaSnapshot>, pods: seq<Pod>)
    : map<PodLocator, PodMetaSnapshot>
    decreases |pods|
  {
    if pods == [] then meta
    else MetaUpdated(policy, MetaUpdatedAll(policy, meta, pods[..|pods| - 1]), pods[|pods| - 1])
  }

  function Locators(keys: set<SourceKey>): set<PodLocator> {
    set k | k in keys :: LocatorOfKey(k)
  }

  function AfterDelete(policy: Policy, s: Tracked, pod: Pod): Tracked {
    s.(meta := MetaRemoved(policy, s.meta, pod),
       active := s.active - KeysOf(policy, s.active, pod, pod.uid))
  }

  function AfterApply(policy: Policy, s: Tracked, pod: Pod): Tracked {
    if !AdmitPod(policy, pod) then AfterDelete(policy, s, pod)
    else s.(meta := MetaUpdated(policy, s.meta, pod),
            active := s.active - KeysOf(policy, s.active, pod, None) + AdmitStreams(policy, pod))
  }

  function AfterSnapshot(policy: Policy, s: Tracked, pods: seq<Pod>): Tracked {
    var snapshot := SnapshotKeys(policy, pods);
    s.(meta := Retained(MetaUpdatedAll(policy, s.meta, pods), Locators(snapshot)), active := snapshot)
  }

  function Step(policy: Policy, s: Tracked, e: Event): Tracked {
    match e
    case Init => s.(pending := [], meta := map[])
    case InitApply(pod) => s.(meta := MetaUpdated(policy, s.meta, pod), pending := s.pending + [pod])
    case InitDone => AfterSnapshot(policy, s.(pending := []), s.pending)
    case Apply(pod) => AfterApply(policy, s, pod)
    case Delete(pod) => AfterDelete(policy, s, pod)
  }

  function Steps(policy: Policy, s: Tracked, events: seq<Event>): Tracked
    decreases |events|
  {
    if events == [] then s else Step(policy, Steps(policy, s, events[..|events| - 1]), events[|events| - 1])
  }

  // ---- The watch task ----

  class PodLifecycle {
    const registry: PodStreamRegistry
    var pendingPods: seq<Pod>

    ghost predicate Valid(ctx: WatchCtx)
      reads this, registry, ctx, ctx.cursor, ctx.cursor.shards, ctx.podMeta, ctx.podMeta.shards
    {
      ctx.Valid() && Consistent(registry.State(ctx))
    }

    ghost function State(ctx: WatchCtx): Tracked
      requires Valid(ctx)
      reads this, registry, ctx, ctx.cursor, ctx.cursor.shards, ctx.podMeta, ctx.podMeta.shards
    {
      Tracked(registry.active, ctx.podMeta.View(), pendingPods)
    }

    constructor (ctx: WatchCtx)
      requires ctx.Valid() && ctx.cancelled == {} && ctx.spawned == [] && ctx.nextToken == 0
      ensures Valid(ctx) && fresh(registry)
      ensures State(ctx) == Tracked({}, ctx.podMeta.View(), [])
    {
      registry := new PodStreamRegistry();
      pendingPods := [];
    }

    method UpdateMeta(pod: Pod, ctx: WatchCtx)
      requires Valid(ctx)
      modifies ctx.podMeta.shards
      ensures Valid(ctx) && registry.State(ctx) == old(registry.State(ctx))
      ensures State(ctx) == old(State(ctx)).(meta := MetaUpdated(ctx.policy, old(State(ctx)).meta, pod))
    {
      var l := LocatorOf(ctx.policy, pod);
      if l.Some? { ctx.podMeta.Update(l.value, SnapshotOf(pod)); }
    }

    method SetAll(snapshot: set<SourceKey>, ctx: WatchCtx)
      requires Valid(ctx)
      modifies registry, ctx, ctx.cursor.shards
      ensures Valid(ctx) && State(ctx) == old(State(ctx)).(active := snapshot)
      ensures Continues(old(registry.State(ctx)), registry.State(ctx))
    {
      registry.ReconcileSnapshot(snapshot, ctx);
    }

    method RemoveMeta(pod: Pod, ctx: WatchCtx)
      requires Valid(ctx)
      modifies ctx.podMeta.shards
      ensures Valid(ctx) && registry.State(ctx) == old(registry.State(ctx))
      ensures State(ctx) == old(State(ctx)).(meta := MetaRemoved(ctx.policy, old(State(ctx)).meta, pod))
    {
      var l := LocatorOf(ctx.policy, pod);
      if l.Some? { ctx.podMeta.Remove(l.value); }
    }

    method DropPod(pod: Pod, ctx: WatchCtx)
      requires Valid(ctx)
      modifies registry, ctx, ctx.cursor.shards
      ensures Valid(ctx) && Continues(old(registry.State(ctx)), registry.State(ctx))
      ensures State(ctx) == old(State(ctx)).(active :=
                old(State(ctx)).active - KeysOf(ctx.policy, old(State(ctx)).active, pod, pod.uid))
    {
      ghost var before := State(ctx);
      registry.RemovePod(pod, ctx);
      assert ctx.Valid() && ctx.podMeta.View() == before.meta;
    }

    method MovePod(pod: Pod, ctx: WatchCtx)
      requires Valid(ctx)
      modifies registry, ctx, ctx.cursor.shards
      ensures Valid(ctx) && Continues(old(registry.State(ctx)), registry.State(ctx))
      ensures State(ctx) == old(State(ctx)).(active :=
                old(State(ctx)).active - KeysOf(ctx.policy, old(State(ctx)).active, pod, None)
                + AdmitStreams(ctx.policy, pod))
    {
      var desired := AdmitStreams(ctx.policy, pod);
      forall k | k in desired ensures Located(ctx.policy, k, OrEmpty(pod.namespace), OrEmpty(pod.name), None) {
        StreamsAreLocated(ctx.policy, pod, k);
      }
      registry.ReconcilePod(pod, desired, ctx);
    }

    method OnDelete(pod: Pod, ctx: WatchCtx)
      requires Valid(ctx)
      modifies registry, ctx, ctx.cursor.shards, ctx.podMeta.shards
      ensures Valid(ctx) && State(ctx) == AfterDelete(ctx.policy, old(State(ctx)), pod)
      ensures Continues(old(registry.State(ctx)), registry.State(ctx))
    {
      RemoveMeta(pod, ctx);
      DropPod(pod, ctx);
    }

    method OnApply(pod: Pod, ctx: WatchCtx)
      requires Valid(ctx)
      modifies registry, ctx, ctx.cursor.shards, ctx.podMeta.shards
      ensures Valid(ctx) && State(ctx) == AfterApply(ctx.policy, old(State(ctx)), pod)
      ensures Continues(old(registry.State(ctx)), registry.State(ctx))
    {
      if !AdmitPod(ctx.policy, pod) {
        OnDelete(pod, ctx);
        return;
      }
      UpdateMeta(pod, ctx);
      MovePod(pod, ctx);
    }

    method OnInitBegin(ctx: WatchCtx)
      requires Valid(ctx)
      modifies this, ctx.podMeta.shards
      ensures Valid(ctx) && State(ctx) == old(State(ctx)).(pending := [], meta := map[])
      ensures State(ctx) == Step(ctx.policy, old(State(ctx)), Event.Init)
      ensures registry.State(ctx) == old(registry.State(ctx))
    {
      pendingPods := [];
      ctx.podMeta.Clear();
    }

    method OnInitApply(pod: Pod, ctx: WatchCtx)
      requires Valid(ctx)
      modifies this, ctx.podMeta.shards
      ensures Valid(ctx) && State(ctx).active == old(State(ctx).active)
      ensures pendingPods == old(pendingPods) + [pod]
      ensures State(ctx).meta == MetaUpdated(ctx.policy, old(State(ctx)).meta, pod)
      ensures State(ctx) == Step(ctx.policy, old(State(ctx)), InitApply(pod))
      ensures registry.State(ctx) == old(registry.State(ctx))
    {
      UpdateMeta(pod, ctx);
      pendingPods := pendingPods + [pod];
    }

    method UpdateAllMeta(pods: seq<Pod>, ctx: WatchCtx)
      requires Valid(ctx)
      modifies ctx.podMeta.shards
      ensures Valid(ctx) && registry.State(ctx) == old(registry.State(ctx))
      ensures State(ctx) == old(State(ctx)).(meta := MetaUpdatedAll(ctx.policy, old(State(ctx)).meta, pods))
    {
      for i := 0 to |pods|
        invariant Valid(ctx) && registry.State(ctx) == old(registry.State(ctx))
        invariant State(ctx) == old(State(ctx)).(meta := MetaUpdatedAll(ctx.policy, old(State(ctx)).meta, pods[..i]))
      {
        UpdateMeta(pods[i], ctx);
        assert pods[..i + 1][..i] == pods[..i];
      }
      assert pods[..|pods|] == pods;
    }

    /** All pods' metadata is stored, and then only that of pods with a stream in `keep` is kept. */
    method RefreshMeta(pods: seq<Pod>, keep: set<PodLocator>, ctx: WatchCtx)
      requires Valid(ctx)
      modifies ctx.podMeta.shards
      ensures Valid(ctx) && registry.State(ctx) == old(registry.State(ctx))
      ensures State(ctx) == old(State(ctx)).(meta :=
                Retained(MetaUpdatedAll(ctx.policy, old(State(ctx)).meta, pods), keep))
    {
      UpdateAllMeta(pods, ctx);
      ctx.podMeta.Prune(keep);
    }

    method OnInitSnapshot(pods: seq<Pod>, ctx: WatchCtx)
      requires Valid(ctx)
      modifies registry, ctx, ctx.cursor.shards, ctx.podMeta.shards
      ensures Valid(ctx) && State(ctx) == AfterSnapshot(ctx.policy, old(State(ctx)), pods)
      ensures Continues(old(registry.State(ctx)), registry.State(ctx))
    {
      var snapshot := CollectSnapshot(ctx.policy, pods);
      ApplySnapshot(pods, snapshot, ctx);
    }

    method ApplySnapshot(pods: seq<Pod>, snapshot: set<SourceKey>, ctx: WatchCtx)
      requires Valid(ctx)
      modifies registry, ctx, ctx.cursor.shards, ctx.podMeta.shards
      ensures Valid(ctx) && Continues(old(registry.State(ctx)), registry.State(ctx))
      ensures State(ctx) == old(State(ctx)).(active := snapshot,
                meta := Retained(MetaUpdatedAll(ctx.policy, old(State(ctx)).meta, pods), Locators(snapshot)))
    {
      RefreshMeta(pods, Locators(snapshot), ctx);
      SetAll(snapshot, ctx);
    }

    method OnInitDone(ctx: WatchCtx)
      requires Valid(ctx)
      modifies this, registry, ctx, ctx.cursor.shards, ctx.podMeta.shards
      ensures Valid(ctx) && State(ctx) == Step(ctx.policy, old(State(ctx)), InitDone)
      ensures Continues(old(registry.State(ctx)), registry.State(ctx))
    {
      var pods := pendingPods;
      pendingPods := [];
      OnInitSnapshot(pods, ctx);
    }

    /** The watch task's loop. A watch error is skipped. */
    method Watch(events: seq<Option<Event>>, ctx: WatchCtx)
      requires Valid(ctx)
      modifies this, registry, ctx, ctx.cursor.shards, ctx.podMeta.shards
      ensures Valid(ctx) && State(ctx) == Steps(ctx.policy, old(State(ctx)), Seen(events))
    {
      for i := 0 to |events|
        invariant Valid(ctx) && State(ctx) == Steps(ctx.policy, old(State(ctx)), Seen(events[..i]))
      {
        assert events[..i + 1][..i] == events[..i];
        if events[i].None? { continue; }
        assert Seen(events[..i + 1]) == Seen(events[..i]) + [events[i].value];
        assert Seen(events[..i + 1])[..|Seen(events[..i])|] == Seen(events[..i]);
        match events[i].value
        case Delete(pod) => OnDelete(pod, ctx);
        case Apply(pod) => OnApply(pod, ctx);
        case Init => OnInitBegin(ctx);
        case InitApply(pod) => OnInitApply(pod, ctx);
        case InitDone => OnInitDone(ctx);
      }
      assert events[..|events|] == events;
    }
  }

  function Seen(events: seq<Option<Event>>): seq<Event>
    decreases |events|
  {
    if events == [] then []
    else
      var before := Seen(events[..|events| - 1]);
      if events[|events| - 1].Some? then before + [events[|events| - 1].value] else before
  }

  lemma {:induction false} SeenAppend(before: seq<Option<Event>>, later: seq<Option<Event>>)
    ensures Seen(before + later) == Seen(before) + Seen(later)
    decreases |later|
  {
    if later == [] {
      assert before + later == before;
    } else {
      var n := |later| - 1;
      SeenAppend(before, later[..n]);
      assert (before + later)[..|before| + n] == before + later[..n];
    }
  }

  /** An error is skipped wherever it comes, and every event is seen, in order. */
  lemma ErrorsAreSkipped(before: seq<Option<Event>>, later: seq<Option<Event>>, e: Event)
    ensures Seen([]) == [] && Seen(before + [None] + later) == Seen(before + later)
    ensures Seen(before + [Some(e)] + later) == Seen(before) + [e] + Seen(later)
  {
    assert [Some(e)][..0] == [] && Seen([Some(e)]) == [e];
    assert Seen([None]) == Seen([None][..0]) == [];
    SeenAppend(before, later);
    SeenAppend(before, [None]);
    SeenAppend(before + [None], later);
    SeenAppend(before, [Some(e)]);
    SeenAppend(before + [Some(e)], later);
  }
}
