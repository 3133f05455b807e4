/**
 What the watch side amounts to over whole event traces: the streams of a plain map from pod names to pods.
 */
module WatchTrace {
  import opened Wrappers
  import opened Source
  import opened Discovery
  import opened Registry
  import opened Lifecycle

  datatype Name = Name(namespace: string, name: string)

  /** The cluster as the events tell it. `listing` collects a relist; `window` is open from Init to InitDone. */
  datatype Plain = Plain(pods: map<Name, Pod>, listing: map<Name, Pod>, window: bool)

  function NameOf(pod: Pod): Name {
    Name(OrEmpty(pod.namespace), OrEmpty(pod.name))
  }

  function NameOfKey(k: SourceKey): Name {
    Name(k.namespace, k.pod)
  }

  /** A late delete of a pod that has been replaced under its name changes nothing. */
  function PlainStep(p: Plain, e: Event): Plain {
    match e
    case Init => Plain(p.pods, map[], true)
    case InitApply(pod) => p.(listing := p.listing[NameOf(pod) := pod])
    case InitDone => Plain(p.listing, map[], false)
    case Apply(pod) => p.(pods := p.pods[NameOf(pod) := pod])
    case Delete(pod) =>
      var n := NameOf(pod);
      if n in p.pods && (pod.uid.None? || p.pods[n].uid == pod.uid) then p.(pods := p.pods - {n}) else p
  }

  function StreamsAt(policy: Policy, pods: map<Name, Pod>, n: Name): set<SourceKey> {
    if n in pods then StreamsOf(policy, pods[n]) else {}
  }

  /** The streams of all pods together. */
  ghost predicate UnionOf(policy: Policy, pods: map<Name, Pod>, keys: set<SourceKey>) {
    forall k :: k in keys <==> k in StreamsAt(policy, pods, NameOfKey(k))
  }

  ghost predicate Named(pods: map<Name, Pod>) {
    forall n :: n in pods ==> NameOf(pods[n]) == n
  }

  ghost predicate ListingIs(pending: seq<Pod>, listing: map<Name, Pod>) {
    && (forall i :: 0 <= i < |pending| ==> NameOf(pending[i]) in listing && listing[NameOf(pending[i])] == pending[i])
    && (forall n :: n in listing ==> listing[n] in pending && NameOf(listing[n]) == n)
  }

  /** The active streams are exactly those of the plain map. */
  ghost predicate Refines(policy: Policy, s: Tracked, p: Plain) {
    && Named(p.pods)
    && UnionOf(policy, p.pods, s.active)
    && ListingIs(s.pending, p.listing)
  }

  /** Every active stream's pod metadata is stored, as the pod now has it. */
  ghost predicate MetaFresh(s: Tracked, p: Plain) {
    forall k :: k in s.active ==>
      && NameOfKey(k) in p.pods
      && LocatorOfKey(k) in s.meta
      && s.meta[LocatorOfKey(k)] == SnapshotOf(p.pods[NameOfKey(k)])
  }

  /** A pod that is turned away does not replace one of another uid whose streams are still active. */
  ghost predicate SameUidIfRejected(policy: Policy, p: Plain, pod: Pod) {
    !AdmitPod(policy, pod) ==>
      forall k :: k in StreamsAt(policy, p.pods, NameOf(pod)) ==> pod.uid.None? || k.uid == pod.uid.value
  }

  /** What is asked of the events: a relist names each pod once and comes between Init and InitDone, and rejected pods
      keep their uid. */
  ghost predicate Regular(policy: Policy, p: Plain, e: Event) {
    match e
    case InitApply(pod) => p.window && NameOf(pod) !in p.listing
    case Apply(pod) => SameUidIfRejected(policy, p, pod)
    case _ => true
  }

  lemma StreamNames(policy: Policy, pod: Pod, k: SourceKey)
    requires k in StreamsOf(policy, pod)
    ensures pod.uid.Some? && pod.name.Some? && pod.namespace.Some?
    ensures k.context == policy.context && NameOfKey(k) == NameOf(pod) && k.uid == pod.uid.value
    ensures LocatorOf(policy, pod) == Some(LocatorOfKey(k))
  {
    StreamsAreLocated(policy, pod, k);
  }

  /** Membership of one key after a delete, an apply and a listing. */
  lemma ActiveAfterDelete(policy: Policy, s: Tracked, pod: Pod, k: SourceKey)
    ensures k in AfterDelete(policy, s, pod).active <==>
            k in s.active && !(k.context == policy.context && NameOfKey(k) == NameOf(pod)
                               && (pod.uid.Some? ==> k.uid == pod.uid.value))
  {
  }

  lemma ActiveAfterApply(policy: Policy, s: Tracked, pod: Pod, k: SourceKey)
    requires AdmitPod(policy, pod)
    ensures k in AfterApply(policy, s, pod).active <==>
            (k in s.active && !(k.context == policy.context && NameOfKey(k) == NameOf(pod)))
            || k in StreamsOf(policy, pod)
  {
  }

  lemma ActiveAfterSnapshot(policy: Policy, s: Tracked, pods: seq<Pod>, k: SourceKey)
    ensures k in AfterSnapshot(policy, s, pods).active <==>
            exists i :: 0 <= i < |pods| && k in StreamsOf(policy, pods[i])
  {
  }

  /** A delete of an old uid leaves the streams of every other uid alone, whatever else holds. */
  lemma LateDeleteKeepsOtherUids(policy: Policy, s: Tracked, pod: Pod, k: SourceKey)
    requires k in s.active && pod.uid.Some? && k.uid != pod.uid.value
    ensures k in Step(policy, s, Delete(pod)).active
    ensures LocatorOfKey(k) in s.meta ==>
              LocatorOfKey(k) in Step(policy, s, Delete(pod)).meta
              && Step(policy, s, Delete(pod)).meta[LocatorOfKey(k)] == s.meta[LocatorOfKey(k)]
  {
  }

  lemma DeleteRefines(policy: Policy, s: Tracked, p: Plain, pod: Pod)
    requires Refines(policy, s, p)
    ensures Refines(policy, Step(policy, s, Delete(pod)), PlainStep(p, Delete(pod)))
  {
    var t, q := Step(policy, s, Delete(pod)), PlainStep(p, Delete(pod));
    forall k ensures k in t.active <==> k in StreamsAt(policy, q.pods, NameOfKey(k)) {
      ActiveAfterDelete(policy, s, pod, k);
      if k in s.active { StreamNames(policy, p.pods[NameOfKey(k)], k); }
    }
  }

  lemma AdmittedApplyRefines(policy: Policy, s: Tracked, p: Plain, pod: Pod)
    requires Refines(policy, s, p) && AdmitPod(policy, pod)
    ensures Refines(policy, Step(policy, s, Apply(pod)), PlainStep(p, Apply(pod)))
  {
    var t, q := Step(policy, s, Apply(pod)), PlainStep(p, Apply(pod));
    forall k ensures k in t.active <==> k in StreamsAt(policy, q.pods, NameOfKey(k)) {
      ActiveAfterApply(policy, s, pod, k);
      if k in s.active { StreamNames(policy, p.pods[NameOfKey(k)], k); }
      if k in StreamsOf(policy, pod) { StreamNames(policy, pod, k); }
    }
  }

  /** A rejected apply refines the plain map exactly when it does not meet active streams of another uid. */
  lemma RejectedApplyRefines(policy: Policy, s: Tracked, p: Plain, pod: Pod)
    requires Refines(policy, s, p) && !AdmitPod(policy, pod)
    ensures Refines(policy, Step(policy, s, Apply(pod)), PlainStep(p, Apply(pod)))
            <==> SameUidIfRejected(policy, p, pod)
  {
    var t, q := Step(policy, s, Apply(pod)), PlainStep(p, Apply(pod));
    forall k ensures k in t.active <==> k in s.active && !(NameOfKey(k) == NameOf(pod)
                                                           && (pod.uid.Some? ==> k.uid == pod.uid.value))
    {
      ActiveAfterDelete(policy, s, pod, k);
      if k in s.active { StreamNames(policy, p.pods[NameOfKey(k)], k); }
    }
    assert StreamsAt(policy, q.pods, NameOf(pod)) == {};
    if SameUidIfRejected(policy, p, pod) {
      forall k ensures k in t.active <==> k in StreamsAt(policy, q.pods, NameOfKey(k)) {
        assert NameOfKey(k) != NameOf(pod) ==>
          StreamsAt(policy, q.pods, NameOfKey(k)) == StreamsAt(policy, p.pods, NameOfKey(k));
      }
    } else {
      var k :| k in StreamsAt(policy, p.pods, NameOf(pod)) && !(pod.uid.None? || k.uid == pod.uid.value);
      StreamNames(policy, p.pods[NameOf(pod)], k);
      assert k in t.active && k !in StreamsAt(policy, q.pods, NameOfKey(k));
    }
  }

  lemma InitDoneRefines(policy: Policy, s: Tracked, p: Plain)
    requires Refines(policy, s, p)
    ensures Refines(policy, Step(policy, s, InitDone), PlainStep(p, InitDone))
  {
    var t, q := Step(policy, s, InitDone), PlainStep(p, InitDone);
    forall k ensures k in t.active <==> k in StreamsAt(policy, q.pods, NameOfKey(k)) {
      ActiveAfterSnapshot(policy, s.(pending := []), s.pending, k);
      if k in t.active {
        var i :| 0 <= i < |s.pending| && k in StreamsOf(policy, s.pending[i]);
        StreamNames(policy, s.pending[i], k);
      }
    }
  }

  lemma StepRefines(policy: Policy, s: Tracked, p: Plain, e: Event)
    requires Refines(policy, s, p) && Regular(policy, p, e)
    ensures Refines(policy, Step(policy, s, e), PlainStep(p, e))
  {
    match e
    case Init => 
    case InitApply(pod) =>
    case InitDone => InitDoneRefines(policy, s, p);
    case Apply(pod) => if AdmitPod(policy, pod) { AdmittedApplyRefines(policy, s, p, pod); }
                       else { RejectedApplyRefines(policy, s, p, pod); }
    case Delete(pod) => DeleteRefines(policy, s, p, pod);
  }

  // ---- Metadata ----

  /** What is stored of a pod: its node and labels, under context, namespace, name and uid, if it has all of these. */
  lemma MetaWritten(policy: Policy, meta: map<PodLocator, PodMetaSnapshot>, pod: Pod)
    ensures match (pod.namespace, pod.name, pod.uid)
            case (Some(namespace), Some(name), Some(uid)) =>
              var node := match pod.spec case None => None case Some(spec) => spec.nodeName;
              MetaUpdated(policy, meta, pod)
              == meta[PodLocator(policy.context, namespace, name, uid) := PodMetaSnapshot(node, pod.labels)]
            case _ => MetaUpdated(policy, meta, pod) == meta
  {
  }

  /** A delete, and an apply that is turned away, forget just the metadata of this very pod. */
  lemma DeletedMetaGoes(policy: Policy, s: Tracked, pod: Pod, e: Event, l: PodLocator)
    requires e == Delete(pod) || (e == Apply(pod) && !AdmitPod(policy, pod))
    ensures var t := Step(policy, s, e);
            && (l in t.meta <==> l in s.meta && !(l.context == policy.context && pod.namespace == Some(l.namespace)
                                                  && pod.name == Some(l.pod) && pod.uid == Some(l.uid)))
            && (l in t.meta ==> t.meta[l] == s.meta[l])
  {
  }

  lemma {:induction false} MetaAfterListing(policy: Policy, meta: map<PodLocator, PodMetaSnapshot>, pods: seq<Pod>,
                                            i: nat, l: PodLocator)
    requires i < |pods| && LocatorOf(policy, pods[i]) == Some(l)
    requires forall j :: 0 <= j < |pods| && LocatorOf(policy, pods[j]) == Some(l) ==>
               SnapshotOf(pods[j]) == SnapshotOf(pods[i])
    ensures var m := MetaUpdatedAll(policy, meta, pods);
            l in m && m[l] == SnapshotOf(pods[i])
    decreases |pods|
  {
    var n := |pods| - 1;
    if LocatorOf(policy, pods[n]) != Some(l) {
      MetaAfterListing(policy, meta, pods[..n], i, l);
    }
  }

  lemma {:induction false} MetaGrows(policy: Policy, meta: map<PodLocator, PodMetaSnapshot>, pods: seq<Pod>, i: nat)
    requires i < |pods| && LocatorOf(policy, pods[i]).Some?
    ensures LocatorOf(policy, pods[i]).value in MetaUpdatedAll(policy, meta, pods)
    decreases |pods|
  {
    var n := |pods| - 1;
    if i < n { MetaGrows(policy, meta, pods[..n], i); }
  }

  /** Whatever came before, a finished relist leaves metadata for exactly the pods with active streams. */
  lemma RelistCacheIsExact(policy: Policy, s: Tracked)
    ensures Step(policy, s, InitDone).meta.Keys == Locators(Step(policy, s, InitDone).active)
  {
    var t := Step(policy, s, InitDone);
    forall l | l in Locators(t.active) ensures l in t.meta {
      var k :| k in t.active && LocatorOfKey(k) == l;
      var i :| 0 <= i < |s.pending| && k in StreamsOf(policy, s.pending[i]);
      StreamNames(policy, s.pending[i], k);
      MetaGrows(policy, s.meta, s.pending, i);
    }
  }

  lemma InitDoneMetaFresh(policy: Policy, s: Tracked, p: Plain)
    requires Refines(policy, s, p)
    ensures MetaFresh(Step(policy, s, InitDone), PlainStep(p, InitDone))
  {
    var t, q := Step(policy, s, InitDone), PlainStep(p, InitDone);
    forall k | k in t.active
      ensures NameOfKey(k) in q.pods && LocatorOfKey(k) in t.meta
              && t.meta[LocatorOfKey(k)] == SnapshotOf(q.pods[NameOfKey(k)])
    {
      var i :| 0 <= i < |s.pending| && k in StreamsOf(policy, s.pending[i]);
      StreamNames(policy, s.pending[i], k);
      forall j | 0 <= j < |s.pending| && LocatorOf(policy, s.pending[j]) == Some(LocatorOfKey(k))
        ensures SnapshotOf(s.pending[j]) == SnapshotOf(s.pending[i])
      {
        assert NameOf(s.pending[j]) == NameOf(s.pending[i]);
      }
      MetaAfterListing(policy, s.meta, s.pending, i, LocatorOfKey(k));
    }
  }

  lemma ChangeMetaFresh(policy: Policy, s: Tracked, p: Plain, e: Event)
    requires Refines(policy, s, p) && MetaFresh(s, p) && (e.Apply? || e.Delete?)
    requires Refines(policy, Step(policy, s, e), PlainStep(p, e))
    ensures MetaFresh(Step(policy, s, e), PlainStep(p, e))
  {
    var t, q := Step(policy, s, e), PlainStep(p, e);
    forall k | k in t.active
      ensures NameOfKey(k) in q.pods && LocatorOfKey(k) in t.meta
              && t.meta[LocatorOfKey(k)] == SnapshotOf(q.pods[NameOfKey(k)])
    {
      StreamNames(policy, q.pods[NameOfKey(k)], k);
      if e.Apply? && AdmitPod(policy, e.pod) {
        ActiveAfterApply(policy, s, e.pod, k);
        if k in StreamsOf(policy, e.pod) { StreamNames(policy, e.pod, k); }
      } else {
        ActiveAfterDelete(policy, s, e.pod, k);
      }
    }
  }

  // ---- Whole traces ----

  const NOTHING := Tracked({}, map[], [])
  const NO_PODS := Plain(map[], map[], false)

  function PlainSteps(p: Plain, events: seq<Event>): Plain
    decreases |events|
  {
    if events == [] then p else PlainStep(PlainSteps(p, events[..|events| - 1]), events[|events| - 1])
  }

  ghost predicate AllRegular(policy: Policy, events: seq<Event>) {
    forall i :: 0 <= i < |events| ==> Regular(policy, PlainSteps(NO_PODS, events[..i]), events[i])
  }

  /** After any regular trace of events the active streams are those of the plain map of pods, and, unless a relist is
      under way, every active stream's metadata is stored and up to date. */
  lemma {:induction false} WatchRefinesPlain(policy: Policy, events: seq<Event>)
    requires AllRegular(policy, events)
    ensures var s, p := Steps(policy, NOTHING, events), PlainSteps(NO_PODS, events);
            Refines(policy, s, p) && (!p.window ==> MetaFresh(s, p))
    decreases |events|
  {
    if events != [] {
      var before, e := events[..|events| - 1], events[|events| - 1];
      forall i | 0 <= i < |before| ensures Regular(policy, PlainSteps(NO_PODS, before[..i]), before[i]) {
        assert before[..i] == events[..i];
      }
      WatchRefinesPlain(policy, before);
      var s, p := Steps(policy, NOTHING, before), PlainSteps(NO_PODS, before);
      StepRefines(policy, s, p, e);
      if e.InitDone? {
        InitDoneMetaFresh(policy, s, p);
      } else if !p.window && (e.Apply? || e.Delete?) {
        ChangeMetaFresh(policy, s, p, e);
      }
    }
  }

  /** So after such a trace a key is active exactly when the pod of its name has that stream. */
  lemma ActiveStreamsAre(policy: Policy, events: seq<Event>, k: SourceKey)
    requires AllRegular(policy, events)
    ensures var pods := PlainSteps(NO_PODS, events).pods;
            k in Steps(policy, NOTHING, events).active
            <==> NameOfKey(k) in pods && HasStream(policy, pods[NameOfKey(k)], k)
  {
    WatchRefinesPlain(policy, events);
    var pods := PlainSteps(NO_PODS, events).pods;
    if NameOfKey(k) in pods { StreamIs(policy, pods[NameOfKey(k)], k); }
  }

  /** A pod that is replaced under its name by one that is turned away: its streams stay. */
  lemma RejectedApplyLeavesStreams(policy: Policy, before: Pod, after: Pod, k: SourceKey)
    requires k in StreamsOf(policy, before) && !AdmitPod(policy, after)
    requires NameOf(after) == NameOf(before) && after.uid.Some? && after.uid != before.uid
    ensures var events := [Apply(before), Apply(after)];
            && k in Steps(policy, NOTHING, events).active
            && !Refines(policy, Steps(policy, NOTHING, events), PlainSteps(NO_PODS, events))
  {
    var events := [Apply(before), Apply(after)];
    var one: seq<Event> := [Apply(before)];
    assert events[..1] == one && one[..0] == [];
    assert Steps(policy, NOTHING, one[..0]) == NOTHING && PlainSteps(NO_PODS, one[..0]) == NO_PODS;
    var s, p := Steps(policy, NOTHING, one), PlainSteps(NO_PODS, one);
    assert s == Step(policy, NOTHING, Apply(before)) && p == PlainStep(NO_PODS, Apply(before));
    StreamNames(policy, before, k);
    AdmittedApplyRefines(policy, NOTHING, NO_PODS, before);
    RejectedApplyRefines(policy, s, p, after);
    ActiveAfterDelete(policy, s, after, k);
  }

  /** Pods that report a status are admitted. */
  const READY_ONLY := Policy(
    "", None, [], None, Some((pod: Pod) => pod.status.Some?), (_: string) => true, [], false, false, None)

  function ExamplePod(uid: string, status: Option<PodStatus>): Pod {
    Pod(Some("web"), Some("shop"), Some(uid), map[], Some(PodSpec(None, ["app"], None, None)), status)
  }

  /** Such a pod: it is replaced by one that has not reported yet. */
  lemma RejectedApplyHappens()
    ensures var events := [Apply(ExamplePod("1", Some(PodStatus(None, None, None)))), Apply(ExamplePod("2", None))];
            && SourceKey("", "shop", "web", "app", "1") in Steps(READY_ONLY, NOTHING, events).active
            && !Refines(READY_ONLY, Steps(READY_ONLY, NOTHING, events), PlainSteps(NO_PODS, events))
  {
    var before, after := ExamplePod("1", Some(PodStatus(None, None, None))), ExamplePod("2", None);
    var k := SourceKey("", "shop", "web", "app", "1");
    CandidatesAre(READY_ONLY, before, "app", Main);
    assert k == KeyOf(READY_ONLY, before, ("app", Main).0);
    assert k in StreamsOf(READY_ONLY, before);
    RejectedApplyLeavesStreams(READY_ONLY, before, after, k);
  }

  // ---- Listing and applying agree ----

  ghost predicate DistinctNames(pods: seq<Pod>) {
    forall i, j :: 0 <= i < j < |pods| ==> NameOf(pods[i]) != NameOf(pods[j])
  }

  function Applies(pods: seq<Pod>): seq<Event> {
    seq(|pods|, i requires 0 <= i < |pods| => Apply(pods[i]))
  }

  function ByName(pods: seq<Pod>): map<Name, Pod>
    decreases |pods|
  {
    if pods == [] then map[]
    else ByName(pods[..|pods| - 1])[NameOf(pods[|pods| - 1]) := pods[|pods| - 1]]
  }

  lemma {:induction false} ByNameHas(pods: seq<Pod>, n: Name)
    requires DistinctNames(pods)
    ensures n in ByName(pods) <==> exists i :: 0 <= i < |pods| && NameOf(pods[i]) == n
    ensures forall i :: 0 <= i < |pods| && NameOf(pods[i]) == n ==> n in ByName(pods) && ByName(pods)[n] == pods[i]
    decreases |pods|
  {
    if pods != [] {
      var rest := pods[..|pods| - 1];
      ByNameHas(rest, n);
      assert forall i :: 0 <= i < |rest| ==> rest[i] == pods[i];
    }
  }

  lemma {:induction false} ApplyEach(pods: seq<Pod>)
    ensures PlainSteps(NO_PODS, Applies(pods)) == Plain(ByName(pods), map[], false)
    decreases |pods|
  {
    if pods != [] {
      var n := |pods| - 1;
      ApplyEach(pods[..n]);
      assert Applies(pods)[..n] == Applies(pods[..n]);
    }
  }

  lemma AppliesAreRegular(policy: Policy, pods: seq<Pod>)
    requires DistinctNames(pods)
    ensures AllRegular(policy, Applies(pods))
  {
    var events := Applies(pods);
    forall i | 0 <= i < |events| ensures Regular(policy, PlainSteps(NO_PODS, events[..i]), events[i]) {
      assert events[..i] == Applies(pods[..i]);
      ApplyEach(pods[..i]);
      ByNameHas(pods[..i], NameOf(pods[i]));
    }
  }

  function Lookup(meta: map<PodLocator, PodMetaSnapshot>, k: SourceKey): PodMetaSnapshot {
    if LocatorOfKey(k) in meta then meta[LocatorOfKey(k)] else PodMetaSnapshot(None, map[])
  }

  /** For pods of pairwise distinct names, applying them one by one in any order and taking them as one listing give the
      same streams, with the same metadata for each. */
  lemma ApplyAgreesWithListing(policy: Policy, pods: seq<Pod>, inAnyOrder: seq<Pod>)
    requires DistinctNames(pods) && DistinctNames(inAnyOrder)
    requires forall pod :: pod in pods <==> pod in inAnyOrder
    ensures var applied, listed := Steps(policy, NOTHING, Applies(inAnyOrder)), AfterSnapshot(policy, NOTHING, pods);
            && applied.active == listed.active
            && forall k :: k in listed.active ==> Lookup(applied.meta, k) == Lookup(listed.meta, k)
  {
    var applied, listed := Steps(policy, NOTHING, Applies(inAnyOrder)), AfterSnapshot(policy, NOTHING, pods);
    ApplyEach(inAnyOrder);
    AppliesAreRegular(policy, inAnyOrder);
    WatchRefinesPlain(policy, Applies(inAnyOrder));
    var p := PlainSteps(NO_PODS, Applies(inAnyOrder));
    forall k
      ensures k in applied.active <==> k in listed.active
      ensures k in listed.active ==> Lookup(applied.meta, k) == Lookup(listed.meta, k)
    {
      ActiveAfterSnapshot(policy, NOTHING, pods, k);
      ByNameHas(inAnyOrder, NameOfKey(k));
      if k in listed.active {
        var i :| 0 <= i < |pods| && k in StreamsOf(policy, pods[i]);
        StreamNames(policy, pods[i], k);
        assert pods[i] in inAnyOrder;
        assert p.pods[NameOfKey(k)] == pods[i];
        ListedMeta(policy, pods, i, k);
      }
      if k in applied.active {
        var j :| 0 <= j < |inAnyOrder| && NameOf(inAnyOrder[j]) == NameOfKey(k);
        assert p.pods[NameOfKey(k)] == inAnyOrder[j];
        assert inAnyOrder[j] in pods;
      }
    }
  }

  lemma ListedMeta(policy: Policy, pods: seq<Pod>, i: nat, k: SourceKey)
    requires DistinctNames(pods) && i < |pods| && k in StreamsOf(policy, pods[i])
    ensures Lookup(AfterSnapshot(policy, NOTHING, pods).meta, k) == SnapshotOf(pods[i])
  {
    StreamNames(policy, pods[i], k);
    forall j | 0 <= j < |pods| && LocatorOf(policy, pods[j]) == Some(LocatorOfKey(k)) ensures j == i {
      assert NameOf(pods[j]) == NameOf(pods[i]);
    }
    MetaAfterListing(policy, map[], pods, i, LocatorOfKey(k));
    assert k in SnapshotKeys(policy, pods);
  }
}
