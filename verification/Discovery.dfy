/**
 From pods to log streams: which pods and containers are admitted, and the difference between known and wanted streams.
 */
module Discovery {
  import opened Wrappers
  import opened Source
  import opened Text

  datatype ContainerState = ContainerState(running: bool, waiting: bool, terminated: bool)
  datatype ContainerStatus = ContainerStatus(name: string, state: Option<ContainerState>)
  datatype PodSpec = PodSpec(
    nodeName: Option<string>,
    containers: seq<string>,
    initContainers: Option<seq<string>>,
    ephemeralContainers: Option<seq<string>>)
  datatype PodStatus = PodStatus(
    containerStatuses: Option<seq<ContainerStatus>>,
    initContainerStatuses: Option<seq<ContainerStatus>>,
    ephemeralContainerStatuses: Option<seq<ContainerStatus>>)
  datatype Pod = Pod(
    name: Option<string>,
    namespace: Option<string>,
    uid: Option<string>,
    labels: map<string, string>,
    spec: Option<PodSpec>,
    status: Option<PodStatus>)

  datatype Bucket = Running | Waiting | Terminated
  datatype Placement = Main | Init | Ephemeral

  /** `podCondition` is the filter on status conditions; `allowedStates` is absent when all are allowed. */
  datatype Policy = Policy(
    context: string,
    podPattern: Option<Pattern>,
    excludePod: seq<Pattern>,
    allowedNamespaces: Option<set<string>>,
    podCondition: Option<Pod -> bool>,
    containerInclude: Pattern,
    containerExclude: seq<Pattern>,
    includeInit: bool,
    includeEphemeral: bool,
    allowedStates: Option<set<Bucket>>)

  function OrEmpty(s: Option<string>): string {
    if s.Some? then s.value else ""
  }

  predicate AdmitPod(policy: Policy, pod: Pod) {
    && pod.name.Some?
    && pod.namespace.Some?
    && (policy.allowedNamespaces.Some? ==> pod.namespace.value in policy.allowedNamespaces.value)
    && !AnyMatch(policy.excludePod, pod.name.value)
    && (policy.podPattern.Some? ==> policy.podPattern.value(pod.name.value))
    && (policy.podCondition.Some? ==> policy.podCondition.value(pod))
  }

  // ---- Containers ----

  function BucketOf(status: Option<ContainerStatus>): Option<Bucket> {
    if status.None? || status.value.state.None? then None
    else if status.value.state.value.running then Some(Running)
    else if status.value.state.value.waiting then Some(Waiting)
    else if status.value.state.value.terminated then Some(Terminated)
    else None
  }

  function FindStatus(statuses: seq<ContainerStatus>, name: string): Option<ContainerStatus> {
    if statuses == [] then None
    else if statuses[0].name == name then Some(statuses[0])
    else FindStatus(statuses[1..], name)
  }

  function StatusList(pod: Pod, placement: Placement): Option<seq<ContainerStatus>> {
    if pod.status.None? then None
    else match placement
      case Main => pod.status.value.containerStatuses
      case Init => pod.status.value.initContainerStatuses
      case Ephemeral => pod.status.value.ephemeralContainerStatuses
  }

  function ContainerStatusOf(pod: Pod, placement: Placement, name: string): Option<ContainerStatus> {
    var list := StatusList(pod, placement);
    if list.None? then None else FindStatus(list.value, name)
  }

  predicate AcceptsByPlacement(policy: Policy, pod: Pod, placement: Placement, name: string) {
    policy.allowedStates.Some? ==>
      var b := BucketOf(ContainerStatusOf(pod, placement, name));
      b.Some? && b.value in policy.allowedStates.value
  }

  /** Whether `pod` has a container of this name at this placement that the policy looks at. */
  predicate HasCandidate(policy: Policy, pod: Pod, name: string, placement: Placement) {
    pod.spec.Some? &&
    match placement
    case Main => name in pod.spec.value.containers
    case Init => policy.includeInit && pod.spec.value.initContainers.Some?
                 && name in pod.spec.value.initContainers.value
    case Ephemeral => policy.includeEphemeral && pod.spec.value.ephemeralContainers.Some?
                      && name in pod.spec.value.ephemeralContainers.value
  }

  function Placed(names: seq<string>, placement: Placement): (r: seq<(string, Placement)>)
    ensures |r| == |names| && forall i :: 0 <= i < |r| ==> r[i] == (names[i], placement)
  {
    seq(|names|, i requires 0 <= i < |names| => (names[i], placement))
  }

  function Candidates(policy: Policy, pod: Pod): seq<(string, Placement)> {
    if pod.spec.None? then []
    else
      var spec := pod.spec.value;
      Placed(spec.containers, Main)
      + (if policy.includeInit && spec.initContainers.Some? then Placed(spec.initContainers.value, Init) else [])
      + (if policy.includeEphemeral && spec.ephemeralContainers.Some?
         then Placed(spec.ephemeralContainers.value, Ephemeral) else [])
  }

  lemma CandidatesAre(policy: Policy, pod: Pod, name: string, placement: Placement)
    ensures (name, placement) in Candidates(policy, pod) <==> HasCandidate(policy, pod, name, placement)
  {
    if pod.spec.Some? {
      var spec := pod.spec.value;
      PlacedAre(spec.containers, Main, name, placement);
      if spec.initContainers.Some? { PlacedAre(spec.initContainers.value, Init, name, placement); }
      if spec.ephemeralContainers.Some? { PlacedAre(spec.ephemeralContainers.value, Ephemeral, name, placement); }
    }
  }

  lemma PlacedAre(names: seq<string>, at: Placement, name: string, placement: Placement)
    ensures (name, placement) in Placed(names, at) <==> at == placement && name in names
  {
    if at == placement && name in names {
      var i :| 0 <= i < |names| && names[i] == name;
      assert Placed(names, at)[i] == (name, placement);
    }
  }

  method CollectCandidates(policy: Policy, pod: Pod) returns (out: seq<(string, Placement)>)
    ensures out == Candidates(policy, pod)
    ensures forall name, placement :: (name, placement) in out <==> HasCandidate(policy, pod, name, placement)
  {
    out := [];
    if pod.spec.Some? {
      var spec := pod.spec.value;
      out := PushAll(out, spec.containers, Main);
      if policy.includeInit && spec.initContainers.Some? {
        out := PushAll(out, spec.initContainers.value, Init);
      }
      if policy.includeEphemeral && spec.ephemeralContainers.Some? {
        out := PushAll(out, spec.ephemeralContainers.value, Ephemeral);
      }
    }
    AllCandidates(policy, pod);
  }

  lemma AllCandidates(policy: Policy, pod: Pod)
    ensures forall name, placement :: (name, placement) in Candidates(policy, pod)
                                      <==> HasCandidate(policy, pod, name, placement)
  {
    forall name, placement
      ensures (name, placement) in Candidates(policy, pod) <==> HasCandidate(policy, pod, name, placement)
    {
      CandidatesAre(policy, pod, name, placement);
    }
  }

  method PushAll(before: seq<(string, Placement)>, names: seq<string>, placement: Placement)
    returns (out: seq<(string, Placement)>)
    ensures out == before + Placed(names, placement)
  {
    out := before;
    for i := 0 to |names|
      invariant out == before + Placed(names, placement)[..i]
    {
      out := out + [(names[i], placement)];
    }
  }

  function KeyOf(policy: Policy, pod: Pod, container: string): SourceKey
    requires pod.uid.Some?
  {
    SourceKey(policy.context, OrEmpty(pod.namespace), OrEmpty(pod.name), container, pod.uid.value)
  }

  /** The streams of a pod that is admitted: none without a uid. */
  function AdmitStreams(policy: Policy, pod: Pod): set<SourceKey> {
    if pod.uid.None? then {}
    else set c | c in Candidates(policy, pod)
                 && AcceptsByPlacement(policy, pod, c.1, c.0)
                 && policy.containerInclude(c.0) && !AnyMatch(policy.containerExclude, c.0)
           :: KeyOf(policy, pod, c.0)
  }

  function StreamsOf(policy: Policy, pod: Pod): set<SourceKey> {
    if AdmitPod(policy, pod) then AdmitStreams(policy, pod) else {}
  }

  /** The key belongs to the pod of this namespace, name and (if given) uid. */
  predicate Located(policy: Policy, k: SourceKey, namespace: string, name: string, uid: Option<string>) {
    && k.context == policy.context && k.namespace == namespace && k.pod == name
    && (uid.Some? ==> k.uid == uid.value)
  }

  lemma StreamsAreLocated(policy: Policy, pod: Pod, k: SourceKey)
    requires k in AdmitStreams(policy, pod)
    ensures pod.uid.Some? && Located(policy, k, OrEmpty(pod.namespace), OrEmpty(pod.name), pod.uid)
  {
  }

  function SnapshotKeys(policy: Policy, pods: seq<Pod>): set<SourceKey> {
    set i, k | 0 <= i < |pods| && k in StreamsOf(policy, pods[i]) :: k
  }

  lemma SnapshotIs(policy: Policy, pods: seq<Pod>)
    ensures forall k :: k in SnapshotKeys(policy, pods) <==>
                        exists i :: 0 <= i < |pods| && HasStream(policy, pods[i], k)
  {
    forall k, i | 0 <= i < |pods| ensures k in StreamsOf(policy, pods[i]) <==> HasStream(policy, pods[i], k) {
      StreamIs(policy, pods[i], k);
    }
  }

  lemma SnapshotAppend(policy: Policy, pods: seq<Pod>, pod: Pod)
    ensures SnapshotKeys(policy, pods + [pod]) == SnapshotKeys(policy, pods) + StreamsOf(policy, pod)
  {
    var all := pods + [pod];
    forall k | k in SnapshotKeys(policy, pods) ensures k in SnapshotKeys(policy, all) {
      var i :| 0 <= i < |pods| && k in StreamsOf(policy, pods[i]);
      assert all[i] == pods[i];
    }
    forall k | k in StreamsOf(policy, pod) ensures k in SnapshotKeys(policy, all) {
      assert all[|pods|] == pod;
    }
  }

  // ---- Which streams those are ----

  /** What a status says; running counts before waiting, and waiting before terminated. */
  ghost predicate Says(status: ContainerStatus, bucket: Bucket) {
    status.state.Some? &&
    var state := status.state.value;
    match bucket
    case Running => state.running
    case Waiting => !state.running && state.waiting
    case Terminated => !state.running && !state.waiting && state.terminated
  }

  /** The first status of this name in the list says so. */
  ghost predicate Listed(list: Option<seq<ContainerStatus>>, name: string, bucket: Bucket) {
    list.Some? && exists i :: FirstOf(list.value, i, name) && Says(list.value[i], bucket)
  }

  ghost predicate Reports(pod: Pod, placement: Placement, name: string, bucket: Bucket) {
    pod.status.Some? &&
    match placement
    case Main => Listed(pod.status.value.containerStatuses, name, bucket)
    case Init => Listed(pod.status.value.initContainerStatuses, name, bucket)
    case Ephemeral => Listed(pod.status.value.ephemeralContainerStatuses, name, bucket)
  }

  predicate FirstOf(statuses: seq<ContainerStatus>, i: int, name: string) {
    0 <= i < |statuses| && statuses[i].name == name && forall j :: 0 <= j < i ==> statuses[j].name != name
  }

  lemma {:induction false} FindsFirst(statuses: seq<ContainerStatus>, name: string)
    ensures forall i :: FirstOf(statuses, i, name) ==> FindStatus(statuses, name) == Some(statuses[i])
    ensures FindStatus(statuses, name).Some? ==> exists i :: FirstOf(statuses, i, name)
    decreases |statuses|
  {
    if statuses != [] && statuses[0].name != name {
      var rest := statuses[1..];
      FindsFirst(rest, name);
      forall i | FirstOf(statuses, i, name) ensures FirstOf(rest, i - 1, name) && rest[i - 1] == statuses[i] {}
      if FindStatus(statuses, name).Some? {
        var i :| FirstOf(rest, i, name);
        assert FirstOf(statuses, i + 1, name);
      }
    } else if statuses != [] {
      assert FirstOf(statuses, 0, name);
    }
  }

  lemma StatesAccepted(policy: Policy, pod: Pod, placement: Placement, name: string)
    ensures AcceptsByPlacement(policy, pod, placement, name)
            <==> (policy.allowedStates.Some? ==>
                    exists b :: b in policy.allowedStates.value && Reports(pod, placement, name, b))
  {
    forall b
      ensures BucketOf(ContainerStatusOf(pod, placement, name)) == Some(b) <==> Reports(pod, placement, name, b)
    {
      StateReported(pod, placement, name, b);
    }
  }

  lemma StateReported(pod: Pod, placement: Placement, name: string, b: Bucket)
    ensures BucketOf(ContainerStatusOf(pod, placement, name)) == Some(b) <==> Reports(pod, placement, name, b)
  {
    var list := StatusList(pod, placement);
    if list.Some? { StateListed(list.value, name, b); }
  }

  lemma StateListed(statuses: seq<ContainerStatus>, name: string, b: Bucket)
    ensures BucketOf(FindStatus(statuses, name)) == Some(b) <==> Listed(Some(statuses), name, b)
  {
    FindsFirst(statuses, name);
    if Listed(Some(statuses), name, b) {
      var i :| FirstOf(statuses, i, name) && Says(statuses[i], b);
      SaysOneBucket(statuses[i], b);
    } else if i :| FirstOf(statuses, i, name) {
      SaysOneBucket(statuses[i], b);
    }
  }

  lemma SaysOneBucket(status: ContainerStatus, b: Bucket)
    ensures BucketOf(Some(status)) == Some(b) <==> Says(status, b)
  {
  }

  /** Name, namespace, the patterns and the condition let the pod in. */
  ghost predicate LetIn(policy: Policy, pod: Pod, namespace: string, name: string) {
    && pod.name == Some(name) && pod.namespace == Some(namespace)
    && (policy.allowedNamespaces.None? || namespace in policy.allowedNamespaces.value)
    && (forall i :: 0 <= i < |policy.excludePod| ==> !policy.excludePod[i](name))
    && (policy.podPattern.None? || policy.podPattern.value(name))
    && (policy.podCondition.None? || policy.podCondition.value(pod))
  }

  /** The pod has the container at this placement, in a state that is allowed. */
  ghost predicate Runs(policy: Policy, pod: Pod, container: string, placement: Placement) {
    && HasCandidate(policy, pod, container, placement)
    && (policy.allowedStates.None?
        || exists b :: b in policy.allowedStates.value && Reports(pod, placement, container, b))
  }

  /** The container is included, and no exclude pattern matches it. */
  ghost predicate Wanted(policy: Policy, container: string) {
    && policy.containerInclude(container)
    && (forall i :: 0 <= i < |policy.containerExclude| ==> !policy.containerExclude[i](container))
  }

  ghost predicate HasStream(policy: Policy, pod: Pod, k: SourceKey) {
    && LetIn(policy, pod, k.namespace, k.pod)
    && k.context == policy.context && pod.uid == Some(k.uid)
    && Wanted(policy, k.container)
    && exists placement :: Runs(policy, pod, k.container, placement)
  }

  lemma StreamIs(policy: Policy, pod: Pod, k: SourceKey)
    ensures k in StreamsOf(policy, pod) <==> HasStream(policy, pod, k)
  {
    forall placement
      ensures Runs(policy, pod, k.container, placement) <==>
              (k.container, placement) in Candidates(policy, pod)
              && AcceptsByPlacement(policy, pod, placement, k.container)
    {
      CandidatesAre(policy, pod, k.container, placement);
      StatesAccepted(policy, pod, placement, k.container);
    }
    if HasStream(policy, pod, k) {
      var placement :| Runs(policy, pod, k.container, placement);
      var c := (k.container, placement);
      assert c in Candidates(policy, pod) && k == KeyOf(policy, pod, c.0);
    }
  }

  method CollectSnapshot(policy: Policy, pods: seq<Pod>) returns (snapshot: set<SourceKey>)
    ensures snapshot == SnapshotKeys(policy, pods)
    ensures forall k :: k in snapshot <==> exists i :: 0 <= i < |pods| && HasStream(policy, pods[i], k)
  {
    snapshot := {};
    ghost var seen: seq<Pod> := [];
    for n := 0 to |pods|
      invariant seen == pods[..n] && snapshot == SnapshotKeys(policy, seen)
    {
      var pod := pods[n];
      SnapshotAppend(policy, seen, pod);
      seen := seen + [pod];
      if !AdmitPod(policy, pod) { continue; }
      snapshot := snapshot + AdmitStreams(policy, pod);
    }
    assert seen == pods;
    SnapshotIs(policy, pods);
  }

  // ---- Reconcile ----

  function Fields(k: SourceKey): seq<string> {
    [k.context, k.namespace, k.pod, k.container, k.uid]
  }

  predicate KeyLe(a: SourceKey, b: SourceKey) {
    FieldsLe(Fields(a), Fields(b))
  }

  lemma KeyOrder()
    ensures TotalOrder(KeyLe)
  {
    forall a, b ensures KeyLe(a, b) || KeyLe(b, a) { FieldsLeTotal(Fields(a), Fields(b)); }
    forall a, b | KeyLe(a, b) && KeyLe(b, a) ensures a == b {
      FieldsLeAntisymmetric(Fields(a), Fields(b));
      assert Fields(a)[0] == Fields(b)[0] && Fields(a)[1] == Fields(b)[1] && Fields(a)[2] == Fields(b)[2]
        && Fields(a)[3] == Fields(b)[3] && Fields(a)[4] == Fields(b)[4];
    }
    forall a, b, c | KeyLe(a, b) && KeyLe(b, c) ensures KeyLe(a, c) {
      FieldsLeTransitive(Fields(a), Fields(b), Fields(c));
    }
  }

  /** The first field that differs decides. */
  lemma KeysByField(a: SourceKey, b: SourceKey)
    ensures KeyLe(a, b) <==>
            if a.context != b.context then StringLe(a.context, b.context)
            else if a.namespace != b.namespace then StringLe(a.namespace, b.namespace)
            else if a.pod != b.pod then StringLe(a.pod, b.pod)
            else if a.container != b.container then StringLe(a.container, b.container)
            else a.uid == b.uid || StringLe(a.uid, b.uid)
  {
    FieldFirst(a.uid, [], b.uid, []);
    FieldFirst(a.container, [a.uid], b.container, [b.uid]);
    FieldFirst(a.pod, [a.container, a.uid], b.pod, [b.container, b.uid]);
    FieldFirst(a.namespace, [a.pod, a.container, a.uid], b.namespace, [b.pod, b.container, b.uid]);
    FieldFirst(a.context, [a.namespace, a.pod, a.container, a.uid],
               b.context, [b.namespace, b.pod, b.container, b.uid]);
    assert Fields(a) == [a.context] + [a.namespace, a.pod, a.container, a.uid];
    assert Fields(b) == [b.context] + [b.namespace, b.pod, b.container, b.uid];
    assert [a.namespace] + [a.pod, a.container, a.uid] == [a.namespace, a.pod, a.container, a.uid];
    assert [b.namespace] + [b.pod, b.container, b.uid] == [b.namespace, b.pod, b.container, b.uid];
    assert [a.pod] + [a.container, a.uid] == [a.pod, a.container, a.uid];
    assert [b.pod] + [b.container, b.uid] == [b.pod, b.container, b.uid];
    assert [a.container] + [a.uid] == [a.container, a.uid] && [b.container] + [b.uid] == [b.container, b.uid];
    assert [a.uid] + [] == [a.uid] && [b.uid] + [] == [b.uid];
  }

  lemma FieldFirst(x: string, xs: seq<string>, y: string, ys: seq<string>)
    ensures FieldsLe([x] + xs, [y] + ys) <==> if x == y then FieldsLe(xs, ys) else StringLe(x, y)
  {
    assert ([x] + xs)[1..] == xs && ([y] + ys)[1..] == ys;
  }

  /** `s` lists the elements of the set once each. */
  ghost predicate Lists(s: seq<SourceKey>, keys: set<SourceKey>) {
    && (forall k :: k in s <==> k in keys)
    && (forall i, j :: 0 <= i < j < |s| ==> s[i] != s[j])
  }

  lemma {:induction false} ListIsMultiset(s: seq<SourceKey>, keys: set<SourceKey>)
    requires Lists(s, keys)
    ensures multiset(s) == multiset(keys)
    decreases |s|
  {
    if s == [] {
      assert keys == {};
    } else {
      var n := |s| - 1;
      forall k ensures k in s[..n] <==> k in keys - {s[n]} {
        if k in keys && k != s[n] { assert k in s; }
      }
      ListIsMultiset(s[..n], keys - {s[n]});
      assert s == s[..n] + [s[n]];
    }
  }

  lemma ListFromMultiset(s: seq<SourceKey>, keys: set<SourceKey>)
    requires multiset(s) == multiset(keys)
    ensures Lists(s, keys)
  {
    forall k ensures k in s <==> k in keys { assert k in s <==> k in multiset(s); }
    forall i, j | 0 <= i < j < |s| ensures s[i] != s[j] {
      assert s == s[..i] + [s[i]] + s[i + 1..j] + [s[j]] + s[j + 1..];
      assert multiset(s)[s[i]] <= 1;
    }
  }

  /** There is only one list in key order, whatever order a hash set yields its elements in. */
  lemma SortedListUnique(s: seq<SourceKey>, t: seq<SourceKey>, keys: set<SourceKey>)
    requires Lists(s, keys) && Lists(t, keys) && Sorted(s, KeyLe) && Sorted(t, KeyLe)
    ensures s == t
  {
    KeyOrder();
    ListIsMultiset(s, keys);
    ListIsMultiset(t, keys);
    SortedUnique(s, t, KeyLe);
  }

  /** The elements of a hash set, in the order it yields them. */
  method Elements(keys: set<SourceKey>) returns (s: seq<SourceKey>)
    ensures Lists(s, keys)
  {
    var rest := keys;
    s := [];
    while rest != {}
      invariant rest <= keys && Lists(s, keys - rest)
    {
      var k :| k in rest;
      rest := rest - {k};
      s := s + [k];
    }
  }

  method SortKeys(keys: seq<SourceKey>, ghost all: set<SourceKey>) returns (s: seq<SourceKey>)
    requires Lists(keys, all)
    ensures Lists(s, all) && Sorted(s, KeyLe)
  {
    KeyOrder();
    SortSorts(keys, KeyLe);
    ListIsMultiset(keys, all);
    s := Sort(keys, KeyLe);
    ListFromMultiset(s, all);
  }

  method Reconcile(active: set<SourceKey>, snapshot: set<SourceKey>)
    returns (toAdd: seq<SourceKey>, toDrop: seq<SourceKey>)
    ensures Lists(toDrop, active - snapshot) && Sorted(toDrop, KeyLe)
    ensures Lists(toAdd, snapshot - active) && Sorted(toAdd, KeyLe)
  {
    toDrop := Elements(active - snapshot);
    toAdd := Elements(snapshot - active);
    toDrop := SortKeys(toDrop, active - snapshot);
    toAdd := SortKeys(toAdd, snapshot - active);
  }
}
