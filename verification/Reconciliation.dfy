/**
  `podsCleaner`, `searchNewPods` and `initializePods` of
  pkg/controller/controller.go, in the order `syncKubervisorService` calls them.
  The API refuses the updates of the pods in `refused`.
 */
module Reconciliation {
  import opened Common
  import opened Pods
  import opened PodControl

  datatype KubeService = KubeService(namespace: string, selector: map<string, string>)

  /** The service's selector without the traffic label. */
  function PodSelector(svc: KubeService): Selector {
    multiset(set k | k in svc.selector && k != TRAFFIC_KEY :: (k, svc.selector[k]))
  }

  predicate Selects(svc: KubeService, p: Pod) {
    forall k | k in svc.selector && k != TRAFFIC_KEY :: k in p.labels && p.labels[k] == svc.selector[k]
  }

  lemma SelectorSelects(svc: KubeService, p: Pod)
    ensures Matches(PodSelector(svc), p.labels) <==> Selects(svc, p)
  {
    var requirements := set k | k in svc.selector && k != TRAFFIC_KEY :: (k, svc.selector[k]);
    assert forall r :: r in multiset(requirements) <==> r in requirements;
    forall k | k in svc.selector && k != TRAFFIC_KEY
      ensures (k, svc.selector[k]) in PodSelector(svc)
    {
      assert (k, svc.selector[k]) in requirements;
    }
  }

  predicate Carries(p: Pod, name: string) {
    NAME_KEY in p.labels && p.labels[NAME_KEY] == name
  }

  predicate BothLabels(p: Pod) {
    TRAFFIC_KEY in p.labels && NAME_KEY in p.labels
  }

  /** Carries the item's name, in any namespace, but the service no longer selects it. */
  predicate Discarded(name: string, svc: KubeService, p: Pod) {
    Carries(p, name) && !Selects(svc, p)
  }

  /** Selected in the service's namespace and not labelled yet. */
  predicate IsNew(svc: KubeService, p: Pod) {
    p.namespace == svc.namespace && Selects(svc, p) && !BothLabels(p)
  }

  /** The pods under these keys are changed, all others stay. */
  function ChangedAt(pods: Store, keys: set<Key>, change: Pod -> Pod): Store {
    map k | k in pods :: if k in keys then change(pods[k]) else pods[k]
  }

  function DiscardedKeys(pods: Store, name: string, svc: KubeService): set<Key> {
    set k | k in pods && Discarded(name, svc, pods[k])
  }

  function NewKeys(pods: Store, svc: KubeService): set<Key> {
    set k | k in pods && IsNew(svc, pods[k])
  }

  function AfterCleaner(pods: Store, name: string, svc: KubeService, refused: set<Key>): Store {
    ChangedAt(pods, DiscardedKeys(pods, name, svc) - refused, Cleaned)
  }

  function AfterInitialize(pods: Store, name: string, svc: KubeService, refused: set<Key>): Store {
    ChangedAt(pods, NewKeys(pods, svc) - refused, p => Initialized(p, name))
  }

  lemma NoKeys(slice: seq<Pod>)
    ensures KeysOf(slice) == {} <==> slice == []
  {
    if slice != [] {
      assert KeyOf(slice[0]) in KeysOf(slice);
    }
  }

  /** Distinct current pods. */
  ghost predicate Current(pods: Store, slice: seq<Pod>) {
    NoDuplicates(slice) && forall p | p in slice :: KeyOf(p) in pods && pods[KeyOf(p)] == p
  }

  /** The next update of a loop over current pods finds its pod unchanged. */
  lemma NextUpdate(pods: Store, slice: seq<Pod>, i: nat, refused: set<Key>, change: Pod -> Pod)
    requires Current(pods, slice) && i < |slice|
    ensures var done, k := ChangedAt(pods, KeysOf(slice[..i]) - refused, change), KeyOf(slice[i]);
            && k in done && done[k] == slice[i]
            && ChangedAt(pods, KeysOf(slice[..i + 1]) - refused, change)
               == if k in refused then done else done[k := change(slice[i])]
    ensures KeysOf(slice[..i + 1]) == KeysOf(slice[..i]) + {KeyOf(slice[i])}
  {
    assert slice[..i + 1] == slice[..i] + [slice[i]];
    assert slice[i] in slice;
    forall p | p in slice[..i]
      ensures KeyOf(p) != KeyOf(slice[i])
    {
      var j :| 0 <= j < i && slice[j] == p;
      assert p in slice;
    }
  }

  class Controller {
    const control: Control

    constructor (control: Control)
      ensures this.control == control
    {
      this.control := control;
    }

    method RemoveAll(slice: seq<Pod>, refused: set<Key>) returns (ok: bool)
      requires Current(control.pods, slice)
      modifies control
      ensures control.pods == ChangedAt(old(control.pods), KeysOf(slice) - refused, Cleaned)
      ensures ok <==> KeysOf(slice) !! refused
    {
      ghost var before := control.pods;
      ok := true;
      for i := 0 to |slice|
        invariant control.pods == ChangedAt(before, KeysOf(slice[..i]) - refused, Cleaned)
        invariant ok <==> KeysOf(slice[..i]) !! refused
      {
        NextUpdate(before, slice, i, refused, Cleaned);
        var updated := control.RemoveBreakerAnnotationAndLabel(slice[i], KeyOf(slice[i]) !in refused);
        ok := ok && updated;
      }
      assert slice[..|slice|] == slice;
    }

    method InitAll(name: string, slice: seq<Pod>, refused: set<Key>) returns (ok: bool)
      requires Current(control.pods, slice)
      modifies control
      ensures control.pods == ChangedAt(old(control.pods), KeysOf(slice) - refused, p => Initialized(p, name))
      ensures ok <==> KeysOf(slice) !! refused
    {
      ghost var before := control.pods;
      ghost var change := p => Initialized(p, name);
      ok := true;
      for i := 0 to |slice|
        invariant control.pods == ChangedAt(before, KeysOf(slice[..i]) - refused, change)
        invariant ok <==> KeysOf(slice[..i]) !! refused
      {
        NextUpdate(before, slice, i, refused, change);
        var updated := control.InitBreakerAnnotationAndLabel(name, slice[i], KeyOf(slice[i]) !in refused);
        ok := ok && updated;
      }
      assert slice[..|slice|] == slice;
    }

    /** `activity` tells that pods were discarded, `ok` that all of them were cleaned. */
    method PodsCleaner(name: string, svc: KubeService, refused: set<Key>) returns (activity: bool, ok: bool)
      requires WellKeyed(control.pods)
      modifies control
      ensures control.pods == AfterCleaner(old(control.pods), name, svc, refused)
      ensures activity <==> DiscardedKeys(old(control.pods), name, svc) != {}
      ensures ok <==> DiscardedKeys(old(control.pods), name, svc) !! refused
    {
      ghost var before := control.pods;
      var previousPods := control.List(Scope(None, multiset{(NAME_KEY, name)}));
      var currentPods := control.List(Scope(None, PodSelector(svc)));
      var discarded := ExcludeFromSlice(previousPods, currentPods);
      DiscardedPods(before, name, svc, previousPods, currentPods);
      ok := RemoveAll(discarded, refused);
      activity := |discarded| != 0;
      NoKeys(discarded);
    }

    method SearchNewPods(svc: KubeService) returns (outPods: seq<Pod>)
      requires WellKeyed(control.pods)
      ensures NoDuplicates(outPods)
      ensures forall p :: p in outPods <==> p in control.pods.Values && IsNew(svc, p)
    {
      var pods := control.List(Scope(Some(svc.namespace), PodSelector(svc)));
      forall p {
        SelectorSelects(svc, p);
      }
      outPods := [];
      for i := 0 to |pods|
        invariant NoDuplicates(outPods)
        invariant forall p :: p in outPods <==> p in pods[..i] && !BothLabels(p)
      {
        var p := pods[i];
        assert pods[..i + 1] == pods[..i] + [p];
        assert p !in pods[..i];
        if TRAFFIC_KEY in p.labels && NAME_KEY in p.labels {
          continue;
        }
        outPods := outPods + [p];
      }
      assert pods[..|pods|] == pods;
    }

    method InitializePods(name: string, svc: KubeService, refused: set<Key>) returns (activity: bool, ok: bool)
      requires WellKeyed(control.pods)
      modifies control
      ensures control.pods == AfterInitialize(old(control.pods), name, svc, refused)
      ensures activity <==> NewKeys(old(control.pods), svc) != {}
      ensures ok <==> NewKeys(old(control.pods), svc) !! refused
    {
      ghost var before := control.pods;
      var pods := SearchNewPods(svc);
      NewPods(before, svc, pods);
      ok := InitAll(name, pods, refused);
      activity := |pods| != 0;
      NoKeys(pods);
    }

    /** The reconciliation of one sync: an error of the cleaner ends it. */
    method Reconcile(name: string, svc: KubeService, refused: set<Key>) returns (ok: bool)
      requires WellKeyed(control.pods)
      modifies control
      ensures var pods := old(control.pods);
              var cleaned := AfterCleaner(pods, name, svc, refused);
              && control.pods == (if DiscardedKeys(pods, name, svc) !! refused
                                  then AfterInitialize(cleaned, name, svc, refused)
                                  else cleaned)
              && (ok <==> DiscardedKeys(pods, name, svc) !! refused && NewKeys(cleaned, svc) !! refused)
      ensures refused == {} ==> ok && control.pods == AfterPass(old(control.pods), name, svc)
    {
      CleanerKeyed(control.pods, name, svc, refused);
      var _, cleaned := PodsCleaner(name, svc, refused);
      if !cleaned {
        return false;
      }
      var _, initialized := InitializePods(name, svc, refused);
      ok := initialized;
    }
  }

  lemma CleanerKeyed(pods: Store, name: string, svc: KubeService, refused: set<Key>)
    requires WellKeyed(pods)
    ensures WellKeyed(AfterCleaner(pods, name, svc, refused))
  {
  }

  lemma DiscardedPod(pods: Store, name: string, svc: KubeService, previousPods: seq<Pod>, currentPods: seq<Pod>, k: Key)
    requires WellKeyed(pods) && k in pods
    requires IsListing(pods, Scope(None, multiset{(NAME_KEY, name)}), previousPods)
    requires IsListing(pods, Scope(None, PodSelector(svc)), currentPods)
    ensures (pods[k] in previousPods && !HasKey(currentPods, k)) <==> Discarded(name, svc, pods[k])
  {
    var p := pods[k];
    assert p in pods.Values;
    SelectorSelects(svc, p);
    assert (NAME_KEY, name) in multiset{(NAME_KEY, name)};
    if HasKey(currentPods, k) {
      var i :| 0 <= i < |currentPods| && KeyOf(currentPods[i]) == k;
      assert currentPods[i] in currentPods;
      ListedByKey(pods, currentPods[i]);
    }
  }

  lemma DiscardedPods(pods: Store, name: string, svc: KubeService, previousPods: seq<Pod>, currentPods: seq<Pod>)
    requires WellKeyed(pods)
    requires IsListing(pods, Scope(None, multiset{(NAME_KEY, name)}), previousPods)
    requires IsListing(pods, Scope(None, PodSelector(svc)), currentPods)
    ensures var discarded := Excluded(previousPods, currentPods);
            Current(pods, discarded) && KeysOf(discarded) == DiscardedKeys(pods, name, svc)
  {
    var discarded := Excluded(previousPods, currentPods);
    ExcludedKeeps(previousPods, currentPods);
    forall p | p in discarded
      ensures KeyOf(p) in pods && pods[KeyOf(p)] == p
    {
      ListedByKey(pods, p);
    }
    forall k | k in pods
      ensures pods[k] in discarded <==> Discarded(name, svc, pods[k])
    {
      DiscardedPod(pods, name, svc, previousPods, currentPods, k);
    }
    assert forall k | k in DiscardedKeys(pods, name, svc) :: pods[k] in discarded && KeyOf(pods[k]) == k;
  }

  lemma NewPods(pods: Store, svc: KubeService, slice: seq<Pod>)
    requires WellKeyed(pods) && NoDuplicates(slice) && forall p :: p in slice <==> p in pods.Values && IsNew(svc, p)
    ensures Current(pods, slice) && KeysOf(slice) == NewKeys(pods, svc)
  {
    forall p | p in slice
      ensures KeyOf(p) in pods && pods[KeyOf(p)] == p
    {
      ListedByKey(pods, p);
    }
    assert forall k | k in NewKeys(pods, svc) :: pods[k] in pods.Values && pods[k] in slice && KeyOf(pods[k]) == k;
  }

  // ---------- the fixed point ----------

  /** One pass without API errors. */
  function AfterPass(pods: Store, name: string, svc: KubeService): Store {
    AfterInitialize(AfterCleaner(pods, name, svc, {}), name, svc, {})
  }

  /** Every selected pod of the namespace has both labels, and every pod with the item's name is selected. */
  predicate Settled(pods: Store, name: string, svc: KubeService) {
    forall k | k in pods :: !Discarded(name, svc, pods[k]) && !IsNew(svc, pods[k])
  }

  /** The service does not select by kubervisor/name, or only by the item's own name. */
  predicate SelectorAllowsName(name: string, svc: KubeService) {
    NAME_KEY in svc.selector ==> svc.selector[NAME_KEY] == name
  }

  /** A settled store gets no update. */
  lemma SettledStays(pods: Store, name: string, svc: KubeService)
    requires Settled(pods, name, svc)
    ensures AfterPass(pods, name, svc) == pods
  {
  }

  lemma PassOnPod(pods: Store, name: string, svc: KubeService, k: Key)
    requires SelectorAllowsName(name, svc) && k in pods
    ensures var p := AfterPass(pods, name, svc)[k];
            && !Discarded(name, svc, p) && !IsNew(svc, p)
            && (Selects(svc, pods[k]) && BothLabels(pods[k]) ==> p == pods[k])
  {
    var cleaned := AfterCleaner(pods, name, svc, {})[k];
    assert Selects(svc, cleaned) ==> Selects(svc, pods[k]);
    if IsNew(svc, cleaned) {
      assert Selects(svc, Initialized(cleaned, name));
    }
  }

  /** One pass settles every store, a second one changes nothing, and labelled pods that are selected are never touched. */
  lemma FixedPoint(pods: Store, name: string, svc: KubeService)
    requires SelectorAllowsName(name, svc)
    ensures var after := AfterPass(pods, name, svc);
            && Settled(after, name, svc)
            && AfterPass(after, name, svc) == after
            && (forall k | k in pods && Selects(svc, pods[k]) && BothLabels(pods[k]) :: after[k] == pods[k])
  {
    forall k | k in pods
      ensures var p := AfterPass(pods, name, svc)[k];
              !Discarded(name, svc, p) && !IsNew(svc, p) && (Selects(svc, pods[k]) && BothLabels(pods[k]) ==> p == pods[k])
    {
      PassOnPod(pods, name, svc, k);
    }
    SettledStays(AfterPass(pods, name, svc), name, svc);
  }

  /** The pod has every label the service selects by, traffic aside. */
  predicate HasServiceLabels(svc: KubeService, p: Pod) {
    forall k | k in svc.selector && k != "kubervisor/traffic" :: (k, svc.selector[k]) in p.labels.Items
  }

  predicate OfItem(name: string, p: Pod) {
    ("kubervisor/name", name) in p.labels.Items
  }

  function Bared(p: Pod): Pod {
    p.(labels := p.labels - {"kubervisor/name"}, annotations := p.annotations - {"breaker/breakAt"} - {"breaker/retryCount"})
  }

  function Labelled(p: Pod, name: string): Pod {
    p.(labels := p.labels["kubervisor/name" := name]["kubervisor/traffic" := "yes"])
  }

  predicate ToBeNamed(svc: KubeService, p: Pod) {
    p.namespace == svc.namespace && HasServiceLabels(svc, p) && ("kubervisor/name" !in p.labels || "kubervisor/traffic" !in p.labels)
  }

  /** The cleaner strips, unless refused, exactly the pods that carry the item's name without the service's labels. */
  lemma CleanerByLabels(pods: Store, name: string, svc: KubeService, refused: set<Key>, k: Key)
    requires k in pods
    ensures var after := AfterCleaner(pods, name, svc, refused);
            && after.Keys == pods.Keys
            && after[k] == if k !in refused && OfItem(name, pods[k]) && !HasServiceLabels(svc, pods[k]) then Bared(pods[k]) else pods[k]
  {
    OperationsWrite(pods[k], name, "", 0);
  }

  /** The initialization names, unless refused, exactly the pods of the namespace with the service's labels that lack one of its own. */
  lemma InitializeByLabels(pods: Store, name: string, svc: KubeService, refused: set<Key>, k: Key)
    requires k in pods
    ensures var after := AfterInitialize(pods, name, svc, refused);
            && after.Keys == pods.Keys
            && after[k] == if k !in refused && ToBeNamed(svc, pods[k]) then Labelled(pods[k], name) else pods[k]
  {
    OperationsWrite(pods[k], name, "", 0);
  }

  /**
    What a pass makes of a pod, by its labels: one that carries the item's name
    without the service's labels is stripped; one of the service's namespace that
    has them, but not both of Kubervisor's, is named; any other stays as it is.
    In particular no pod outside the namespace is ever named.
   */
  lemma PassByLabels(pods: Store, name: string, svc: KubeService, k: Key)
    requires WellKeyed(pods) && k in pods
    ensures k in AfterPass(pods, name, svc)
    ensures AfterPass(pods, name, svc)[k] ==
              if OfItem(name, pods[k]) && !HasServiceLabels(svc, pods[k]) then Bared(pods[k])
              else if k.namespace == svc.namespace && ToBeNamed(svc, pods[k]) then Labelled(pods[k], name)
              else pods[k]
  {
    var p, cleaned := pods[k], AfterCleaner(pods, name, svc, {});
    CleanerByLabels(pods, name, svc, {}, k);
    InitializeByLabels(cleaned, name, svc, {}, k);
    if OfItem(name, p) && !HasServiceLabels(svc, p) {
      var l :| l in svc.selector && l != "kubervisor/traffic" && (l, svc.selector[l]) !in p.labels.Items;
      assert !HasServiceLabels(svc, Bared(p));
    }
  }

  /** A selected pod that carries another item's name is renamed, no longer selected, and stripped by the next pass. */
  lemma NameSelectorUnsettles(name: string, svc: KubeService)
    requires !SelectorAllowsName(name, svc)
    ensures exists pods :: WellKeyed(pods) && !Settled(AfterPass(pods, name, svc), name, svc)
  {
    var p := Pod(svc.namespace, "p", svc.selector - {TRAFFIC_KEY}, map[], Running, []);
    var pods: Store := map[KeyOf(p) := p];
    assert Selects(svc, p) && IsNew(svc, p) && !Discarded(name, svc, p);
    assert AfterCleaner(pods, name, svc, {})[KeyOf(p)] == p;
    assert AfterPass(pods, name, svc)[KeyOf(p)] == Initialized(p, name);
    assert NAME_KEY in svc.selector && NAME_KEY != TRAFFIC_KEY;
    assert Discarded(name, svc, Initialized(p, name));
    assert WellKeyed(pods);
  }

  /** One pass is enough for every cluster exactly when the selector leaves the name label to the item. */
  lemma SettlesIff(name: string, svc: KubeService)
    ensures SelectorAllowsName(name, svc) <==> forall pods | WellKeyed(pods) :: Settled(AfterPass(pods, name, svc), name, svc)
  {
    if SelectorAllowsName(name, svc) {
      forall pods | WellKeyed(pods)
        ensures Settled(AfterPass(pods, name, svc), name, svc)
      {
        FixedPoint(pods, name, svc);
      }
    } else {
      NameSelectorUnsettles(name, svc);
    }
  }
}
