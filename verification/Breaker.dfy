/**
  The breaker of pkg/breaker/breaker.go: one tick cuts pods out of traffic
  under an availability budget.
 */
module Breaker {
  import opened Common
  import opened Pods
  import opened PodControl
  import opened Detector

  /** The scope is the service's namespace and the selector augmented with the Kubervisor name. */
  datatype BreakerConfig = BreakerConfig(
    kubervisorName: string,
    strategyName: string,
    scope: Scope,
    minPodsAvailableCount: Option<nat>,
    minPodsAvailableRatio: Option<nat>)

  function OrZero(n: Option<nat>): nat {
    match n
    case None => 0
    case Some(v) => v
  }

  /** The larger of the count and of the ratio's whole number of pods. */
  function MinAvailable(b: BreakerConfig, n: nat): nat {
    var quota := n * OrZero(b.minPodsAvailableRatio) / 100;
    if quota > OrZero(b.minPodsAvailableCount) then quota else OrZero(b.minPodsAvailableCount)
  }

  /** How many of the detected pods a tick cuts. */
  function RemoveCount(b: BreakerConfig, withTraffic: nat, detected: nat): (count: nat)
    ensures count <= detected
  {
    var spare := withTraffic - MinAvailable(b, withTraffic);
    if spare > detected then detected else if spare < 0 then 0 else spare
  }

  /** The managed pods that are ready and take traffic. */
  function TrafficKeys(pods: Store, scope: Scope): set<Key> {
    set k | k in pods && InScope(scope, pods[k]) && TakesTraffic(pods[k])
  }

  /** Every managed ready pod has a readable traffic label. */
  predicate AllLabelled(pods: Store, scope: Scope) {
    forall k | k in pods :: InScope(scope, pods[k]) ==> Labelled(pods[k])
  }

  /** The cuts in order; the API refuses the attempts in `refused`. */
  function CutAll(pods: Store, b: BreakerConfig, cut: seq<Pod>, now: int, refused: set<nat>): Store {
    if cut == [] then pods
    else
      var n := |cut| - 1;
      AfterBreak(CutAll(pods, b, cut[..n], now, refused), cut[n], b.kubervisorName, b.strategyName, now, n !in refused)
  }

  /** The store after a tick that the detector answered with `detected`. */
  function AfterTick(pods: Store, b: BreakerConfig, detected: Result<seq<Pod>>, now: int, refused: set<nat>): Store {
    if detected.Err? || !AllLabelled(pods, b.scope) then pods
    else CutAll(pods, b, detected.value[..RemoveCount(b, |TrafficKeys(pods, b.scope)|, |detected.value|)], now, refused)
  }

  /** Some managed ready pod has no traffic label that can be read. */
  predicate Unreadable(pods: Store, scope: Scope) {
    exists k :: k in pods && InScope(scope, pods[k]) && IsReady(pods[k]) &&
                !("kubervisor/traffic" in pods[k].labels && pods[k].labels["kubervisor/traffic"] in {"yes", "no", "pause"})
  }

  lemma UnreadableTells(pods: Store, scope: Scope)
    ensures Unreadable(pods, scope) <==> !AllLabelled(pods, scope)
  {
    forall k | k in pods
      ensures TrafficOf(pods[k]).Ok? <==>
        "kubervisor/traffic" in pods[k].labels && pods[k].labels["kubervisor/traffic"] in {"yes", "no", "pause"}
    {
      TrafficIsLabel(pods[k]);
    }
  }

  /** The pods a breaker counts are those of its namespace and selector that run, are ready and carry traffic=yes. */
  lemma TrafficKeysAre(pods: Store, scope: Scope, k: Key)
    ensures k in TrafficKeys(pods, scope) <==>
      && k in pods
      && (scope.namespace.Some? ==> pods[k].namespace == scope.namespace.value)
      && (forall r | r in scope.selector :: r in pods[k].labels.Items)
      && RunsWithTraffic(pods[k])
  {
    if k in pods {
      TakesTrafficAt(pods[k]);
    }
  }

  lemma {:induction false} DistinctKeysCount(s: seq<Pod>)
    requires forall i, j | 0 <= i < j < |s| :: KeyOf(s[i]) != KeyOf(s[j])
    ensures |KeysOf(s)| == |s|
  {
    if s != [] {
      var init, last := s[..|s| - 1], s[|s| - 1];
      DistinctKeysCount(init);
      assert s == init + [last];
      assert KeysOf(s) == KeysOf(init) + {KeyOf(last)};
    }
  }

  lemma CountListed(pods: Store, scope: Scope, listing: seq<Pod>)
    requires WellKeyed(pods) && IsListing(pods, scope, listing)
    ensures WithTraffic(listing).Ok? <==> AllLabelled(pods, scope)
    ensures WithTraffic(listing).Ok? ==> |WithTraffic(listing).value| == |TrafficKeys(pods, scope)|
  {
    WithTrafficKeeps(listing);
    forall p {
      ListedByKey(pods, p);
    }
    forall k | k in pods
      ensures pods[k] in pods.Values && KeyOf(pods[k]) == k
    {
    }
    if WithTraffic(listing).Ok? {
      var kept := WithTraffic(listing).value;
      forall i, j | 0 <= i < j < |kept|
        ensures KeyOf(kept[i]) != KeyOf(kept[j])
      {
        assert kept[i] in kept && kept[j] in kept;
      }
      DistinctKeysCount(kept);
      assert KeysOf(kept) == TrafficKeys(pods, scope);
    }
  }

  /** What a tick computes from its listing. */
  lemma ListedTraffic(pods: Store, scope: Scope, listing: seq<Pod>)
    requires WellKeyed(pods) && IsListing(pods, scope, listing)
    ensures FilteredOut(listing, NotRunning).Ok?
    ensures var ready := FilteredOut(FilteredOut(listing, NotRunning).value, NotReady);
            && (ready.Err? ==> !AllLabelled(pods, scope))
            && (ready.Ok? ==>
                  var counted := FilteredOut(ready.value, NotWithTraffic);
                  && (counted.Ok? <==> AllLabelled(pods, scope))
                  && (counted.Ok? ==> |counted.value| == |TrafficKeys(pods, scope)|))
  {
    PurgeAfterKeepRunning(listing);
    FilteredOutKeeps(listing, NotReady);
    CountListed(pods, scope, listing);
  }

  class BreakerImpl {
    const config: BreakerConfig

    constructor (config: BreakerConfig)
      ensures this.config == config
    {
      this.config := config;
    }

    method ComputeMinAvailablePods(podUnderSelectorCount: nat) returns (min: nat)
      ensures OrZero(config.minPodsAvailableCount) <= min && podUnderSelectorCount * OrZero(config.minPodsAvailableRatio) < 100 * (min + 1)
      ensures min == OrZero(config.minPodsAvailableCount) || 100 * min <= podUnderSelectorCount * OrZero(config.minPodsAvailableRatio)
      ensures min == MinAvailable(config, podUnderSelectorCount)
    {
      var count, ratio: nat := 0, 0;
      if config.minPodsAvailableRatio.Some? {
        ratio := config.minPodsAvailableRatio.value;
      }
      if config.minPodsAvailableCount.Some? {
        count := config.minPodsAvailableCount.value;
      }
      var quota := podUnderSelectorCount * ratio / 100;
      if quota > count {
        return quota;
      }
      return count;
    }

    /** One tick of Run. */
    method Tick(control: Control, detected: Result<seq<Pod>>, now: int, refused: set<nat>)
      requires WellKeyed(control.pods)
      modifies control
      ensures control.pods == AfterTick(old(control.pods), config, detected, now, refused)
      ensures detected.Err? || Unreadable(old(control.pods), config.scope) ==> control.pods == old(control.pods)
    {
      UnreadableTells(control.pods, config.scope);
      if detected.Err? {
        return;
      }
      var podsToCut := detected.value;
      if |podsToCut| == 0 {
        assert podsToCut[..RemoveCount(config, |TrafficKeys(control.pods, config.scope)|, 0)] == [];
        return;
      }
      var allPods := control.List(config.scope);
      var runningPods := KeepRunningPods(allPods);
      ListedTraffic(control.pods, config.scope, allPods);
      var readyPods := PurgeNotReadyPods(runningPods.value);
      if readyPods.Err? {
        return;
      }
      var withTraffic := KeepWithTrafficYesPods(readyPods.value);
      if withTraffic.Err? {
        return;
      }
      var min := ComputeMinAvailablePods(|withTraffic.value|);
      var removeCount := |withTraffic.value| - min;
      if removeCount > |podsToCut| {
        removeCount := |podsToCut|;
      }
      if removeCount < 0 {
        removeCount := 0;
      }
      CutPods(control, podsToCut[..removeCount], now, refused);
    }

    /** The loop of a tick over the pods to cut. */
    method CutPods(control: Control, cut: seq<Pod>, now: int, refused: set<nat>)
      modifies control
      ensures control.pods == CutAll(old(control.pods), config, cut, now, refused)
    {
      for i := 0 to |cut|
        invariant control.pods == CutAll(old(control.pods), config, cut[..i], now, refused)
      {
        assert cut[..i + 1][..i] == cut[..i];
        var _ := control.UpdateBreakerAnnotationAndLabel(config.kubervisorName, config.strategyName, cut[i], now, i !in refused);
      }
      assert cut[..|cut|] == cut;
    }
  }

  // ---------- what cuts do ----------

  /** An accepted break changes one pod, which is out of traffic afterwards. */
  lemma BreakChangesOne(pods: Store, p: Pod, name: string, strategy: string, now: int, up: bool, k: Key)
    requires WellKeyed(pods)
    ensures var after := AfterBreak(pods, p, name, strategy, now, up);
            && WellKeyed(after) && after.Keys == pods.Keys
            && (k in pods && after[k] != pods[k] ==>
                  k == KeyOf(p) && pods[k] == p && Broken(p, name, strategy, now) == Ok(after[k]) && HasTraffic(after[k], No))
  {
    BrokenReads(p, name, strategy, now);
  }

  lemma BreakCount(pods: Store, p: Pod, name: string, strategy: string, now: int, up: bool, scope: Scope)
    requires WellKeyed(pods)
    ensures var after := AfterBreak(pods, p, name, strategy, now, up);
            |TrafficKeys(pods, scope)| <= |TrafficKeys(after, scope)| + 1
  {
    var after := AfterBreak(pods, p, name, strategy, now, up);
    forall k | k in pods && k != KeyOf(p)
      ensures after[k] == pods[k]
    {
      BreakChangesOne(pods, p, name, strategy, now, up, k);
    }
    var kept := TrafficKeys(pods, scope) - {KeyOf(p)};
    assert kept <= TrafficKeys(after, scope);
    SubsetCount(kept, TrafficKeys(after, scope));
  }

  lemma SubsetCount<T>(a: set<T>, b: set<T>)
    requires a <= b
    ensures |a| <= |b|
  {
    assert b == a + (b - a);
    assert |a + (b - a)| == |a| + |b - a|;
  }

  lemma {:induction false} CutKeepsKeys(pods: Store, b: BreakerConfig, cut: seq<Pod>, now: int, refused: set<nat>)
    requires WellKeyed(pods)
    ensures var after := CutAll(pods, b, cut, now, refused); WellKeyed(after) && after.Keys == pods.Keys
  {
    if cut != [] {
      var n := |cut| - 1;
      CutKeepsKeys(pods, b, cut[..n], now, refused);
      var before := CutAll(pods, b, cut[..n], now, refused);
      BreakChangesOne(before, cut[n], b.kubervisorName, b.strategyName, now, n !in refused, KeyOf(cut[n]));
    }
  }

  /** No series of cuts, of whatever pods, costs more pods with traffic than its length. */
  lemma {:induction false} CutCount(pods: Store, b: BreakerConfig, cut: seq<Pod>, now: int, refused: set<nat>, scope: Scope)
    requires WellKeyed(pods)
    ensures |TrafficKeys(pods, scope)| <= |TrafficKeys(CutAll(pods, b, cut, now, refused), scope)| + |cut|
  {
    if cut != [] {
      var n := |cut| - 1;
      CutCount(pods, b, cut[..n], now, refused, scope);
      CutKeepsKeys(pods, b, cut[..n], now, refused);
      BreakCount(CutAll(pods, b, cut[..n], now, refused), cut[n], b.kubervisorName, b.strategyName, now, n !in refused, scope);
    }
  }

  /** A tick never leaves fewer pods with traffic than the breaker's minimum, unless there were fewer. */
  lemma TickFloor(pods: Store, b: BreakerConfig, detected: Result<seq<Pod>>, now: int, refused: set<nat>)
    requires WellKeyed(pods)
    ensures var n, m := |TrafficKeys(pods, b.scope)|, |TrafficKeys(AfterTick(pods, b, detected, now, refused), b.scope)|;
            m >= if n <= MinAvailable(b, n) then n else MinAvailable(b, n)
  {
    if detected.Ok? {
      var n := |TrafficKeys(pods, b.scope)|;
      CutCount(pods, b, detected.value[..RemoveCount(b, n, |detected.value|)], now, refused, b.scope);
    }
  }

  // ---------- which cuts are made ----------

  /** The pod is named by the cut at a place that the API does not refuse. */
  predicate Named(cut: seq<Pod>, refused: set<nat>, p: Pod) {
    exists i: nat :: i < |cut| && i !in refused && cut[i] == p
  }

  /**
    Whatever is detected among pods with traffic - duplicates, foreign and stale
    pods included - and whatever is refused: exactly the current pods that an
    update not refused names, and whose retry count can be read, are broken, once.
   */
  lemma {:induction false} CutWhichever(pods: Store, b: BreakerConfig, cut: seq<Pod>, now: int, refused: set<nat>)
    requires WellKeyed(pods) && forall p | p in cut :: HasTraffic(p, Yes)
    ensures var after := CutAll(pods, b, cut, now, refused);
            && after.Keys == pods.Keys
            && forall k | k in pods :: CutAt(pods[k], after[k], b, now, Named(cut, refused, pods[k]))
  {
    if cut != [] {
      var n := |cut| - 1;
      var init, last := cut[..n], cut[n];
      assert cut == init + [last];
      assert last in cut;
      CutWhichever(pods, b, init, now, refused);
      CutKeepsKeys(pods, b, init, now, refused);
      CutKeepsKeys(pods, b, cut, now, refused);
      forall k | k in pods
        ensures CutAt(pods[k], CutAll(pods, b, cut, now, refused)[k], b, now, Named(cut, refused, pods[k]))
      {
        NamedInit(cut, refused, pods[k]);
        CutNext(pods, CutAll(pods, b, init, now, refused), b, last, now, n !in refused, Named(init, refused, pods[k]), k);
      }
    }
  }

  /** The pod is broken exactly if it was named and its retry count can be read. */
  predicate CutAt(before: Pod, after: Pod, b: BreakerConfig, now: int, named: bool) {
    if named && RetryCount(before).Ok?
    then Broken(before, b.kubervisorName, b.strategyName, now) == Ok(after)
    else after == before
  }

  lemma CutNext(pods: Store, done: Store, b: BreakerConfig, last: Pod, now: int, up: bool, named: bool, k: Key)
    requires WellKeyed(pods) && WellKeyed(done) && k in pods && k in done && HasTraffic(last, Yes)
    requires CutAt(pods[k], done[k], b, now, named)
    ensures var after := AfterBreak(done, last, b.kubervisorName, b.strategyName, now, up);
            k in after && CutAt(pods[k], after[k], b, now, named || (up && last == pods[k]))
  {
    BrokenReads(last, b.kubervisorName, b.strategyName, now);
    BrokenReads(pods[k], b.kubervisorName, b.strategyName, now);
  }

  lemma NamedInit(cut: seq<Pod>, refused: set<nat>, p: Pod)
    requires cut != []
    ensures var n := |cut| - 1; Named(cut, refused, p) <==> Named(cut[..n], refused, p) || (n !in refused && cut[n] == p)
  {
    var n := |cut| - 1;
    if Named(cut[..n], refused, p) {
      var i: nat :| i < n && i !in refused && cut[..n][i] == p;
      assert cut[i] == p;
    }
    if Named(cut, refused, p) && !(n !in refused && cut[n] == p) {
      var i: nat :| i < |cut| && i !in refused && cut[i] == p;
      assert cut[..n][i] == p;
    }
  }

  // ---------- the exact cut ----------

  ghost predicate Cuttable(pods: Store, scope: Scope, cut: seq<Pod>) {
    && NoDuplicates(cut)
    && forall p | p in cut :: KeyOf(p) in pods && pods[KeyOf(p)] == p && InScope(scope, p) && TakesTraffic(p) && RetryCount(p).Ok?
  }

  lemma AcceptedBreak(pods: Store, p: Pod, b: BreakerConfig, now: int)
    requires KeyOf(p) in pods && pods[KeyOf(p)] == p && RetryCount(p).Ok?
    ensures var broken := Broken(p, b.kubervisorName, b.strategyName, now);
            broken.Ok? && AfterBreak(pods, p, b.kubervisorName, b.strategyName, now, true) == pods[KeyOf(p) := broken.value]
  {
  }

  lemma LastIsNew(cut: seq<Pod>)
    requires cut != [] && forall i, j | 0 <= i < j < |cut| :: KeyOf(cut[i]) != KeyOf(cut[j])
    ensures KeysOf(cut) == KeysOf(cut[..|cut| - 1]) + {KeyOf(cut[|cut| - 1])}
    ensures KeyOf(cut[|cut| - 1]) !in KeysOf(cut[..|cut| - 1])
  {
    assert cut == cut[..|cut| - 1] + [cut[|cut| - 1]];
  }

  lemma CuttableKeys(pods: Store, scope: Scope, cut: seq<Pod>)
    requires Cuttable(pods, scope, cut)
    ensures forall i, j | 0 <= i < j < |cut| :: KeyOf(cut[i]) != KeyOf(cut[j])
  {
    forall i, j | 0 <= i < j < |cut|
      ensures KeyOf(cut[i]) != KeyOf(cut[j])
    {
      assert cut[i] in cut && cut[j] in cut;
    }
  }

  /** Distinct current pods with traffic: all of them are cut, and nothing else changes. */
  lemma {:induction false} CutExactly(pods: Store, b: BreakerConfig, cut: seq<Pod>, now: int)
    requires Cuttable(pods, b.scope, cut)
    ensures CutFrom(pods, CutAll(pods, b, cut, now, {}), b, now, KeysOf(cut))
  {
    if cut != [] {
      var n := |cut| - 1;
      var last := cut[n];
      assert forall p | p in cut[..n] :: p in cut;
      CutExactly(pods, b, cut[..n], now);
      CuttableKeys(pods, b.scope, cut);
      LastIsNew(cut);
      assert last in cut;
      AcceptedBreak(CutAll(pods, b, cut[..n], now, {}), last, b, now);
    }
  }

  lemma CutTakesTraffic(pods: Store, scope: Scope, cut: seq<Pod>)
    requires Cuttable(pods, scope, cut)
    ensures KeysOf(cut) <= TrafficKeys(pods, scope) && |KeysOf(cut)| == |cut|
  {
    CuttableKeys(pods, scope, cut);
    DistinctKeysCount(cut);
  }

  lemma CutLeaves(pods: Store, b: BreakerConfig, cut: seq<Pod>, now: int)
    requires Cuttable(pods, b.scope, cut)
    ensures var after := CutAll(pods, b, cut, now, {});
            && TrafficKeys(after, b.scope) == TrafficKeys(pods, b.scope) - KeysOf(cut)
            && |TrafficKeys(after, b.scope)| == |TrafficKeys(pods, b.scope)| - |cut|
  {
    var after := CutAll(pods, b, cut, now, {});
    CutExactly(pods, b, cut, now);
    CutTakesTraffic(pods, b.scope, cut);
    forall k | k in KeysOf(cut)
      ensures !TakesTraffic(after[k])
    {
      BrokenReads(pods[k], b.kubervisorName, b.strategyName, now);
    }
    assert TrafficKeys(after, b.scope) == TrafficKeys(pods, b.scope) - KeysOf(cut);
    assert |TrafficKeys(pods, b.scope) - KeysOf(cut)| == |TrafficKeys(pods, b.scope)| - |KeysOf(cut)|;
  }

  /** What the discrete detector answers on an up-to-date listing (GetPodsOutOfBounds). */
  ghost predicate DetectedOn(pods: Store, scope: Scope, c: DiscreteConfig, vector: seq<Sample>, detected: seq<Pod>) {
    && NoDuplicates(detected)
    && forall p :: p in detected <==> p in pods.Values && InScope(scope, p) && OutOfBounds(c, vector, p)
  }

  lemma DetectedCuttable(pods: Store, b: BreakerConfig, detected: seq<Pod>, count: nat)
    requires WellKeyed(pods) && NoDuplicates(detected) && count <= |detected|
    requires forall p | p in detected :: p in pods.Values && InScope(b.scope, p) && TakesTraffic(p) && RetryCount(p).Ok?
    ensures Cuttable(pods, b.scope, detected[..count])
    ensures forall k | k in KeysOf(detected[..count]) :: k in pods && pods[k] in detected
    ensures |KeysOf(detected[..count])| == count
  {
    var cut := detected[..count];
    forall p | p in cut
      ensures p in detected && KeyOf(p) in pods && pods[KeyOf(p)] == p
    {
      ListedByKey(pods, p);
    }
    CuttableKeys(pods, b.scope, cut);
    DistinctKeysCount(cut);
  }

  /** The managed pods that are out of bounds. */
  function OutKeys(pods: Store, scope: Scope, c: DiscreteConfig, vector: seq<Sample>): set<Key> {
    set k | k in pods && InScope(scope, pods[k]) && OutOfBounds(c, vector, pods[k])
  }

  lemma TickCuts(pods: Store, b: BreakerConfig, detected: seq<Pod>, now: int)
    requires AllLabelled(pods, b.scope)
    ensures var n := |TrafficKeys(pods, b.scope)|;
            var spare := if n <= MinAvailable(b, n) then 0 else n - MinAvailable(b, n);
            var count := if |detected| <= spare then |detected| else spare;
            AfterTick(pods, b, Ok(detected), now, {}) == CutAll(pods, b, detected[..count], now, {})
  {
  }

  /**
    With the built-in detector on the same pods and no failing update, a tick
    over n pods with traffic cuts exactly min(|out of bounds|, max(0, n - minimum))
    of them and changes no other pod.
   */
  lemma ExactCut(pods: Store, b: BreakerConfig, c: DiscreteConfig, vector: seq<Sample>, detected: seq<Pod>, now: int)
    requires WellKeyed(pods) && AllLabelled(pods, b.scope) && DetectedOn(pods, b.scope, c, vector, detected)
    requires forall p | p in detected :: RetryCount(p).Ok?
    ensures
      var n := |TrafficKeys(pods, b.scope)|;
      var after := AfterTick(pods, b, Ok(detected), now, {});
      var spare := if n <= MinAvailable(b, n) then 0 else n - MinAvailable(b, n);
      var count := if |detected| <= spare then |detected| else spare;
      var cut := KeysOf(detected[..count]);
      && |cut| == count && cut <= TrafficKeys(pods, b.scope)
      && CutFrom(pods, after, b, now, cut)
      && cut <= OutKeys(pods, b.scope, c, vector)
      && |TrafficKeys(after, b.scope)| == n - count
  {
    var n := |TrafficKeys(pods, b.scope)|;
    TickCuts(pods, b, detected, now);
    CutDetected(pods, b, detected, RemoveCount(b, n, |detected|), now);
    OutOfBoundsKeys(pods, b.scope, c, vector, detected);
  }

  /** The first of distinct detected pods with traffic are cut, and nothing else changes. */
  lemma CutDetected(pods: Store, b: BreakerConfig, detected: seq<Pod>, count: nat, now: int)
    requires WellKeyed(pods) && NoDuplicates(detected) && count <= |detected|
    requires forall p | p in detected :: p in pods.Values && InScope(b.scope, p) && TakesTraffic(p) && RetryCount(p).Ok?
    ensures var after, cut := CutAll(pods, b, detected[..count], now, {}), KeysOf(detected[..count]);
            && |cut| == count && cut <= TrafficKeys(pods, b.scope)
            && WellKeyed(after) && CutFrom(pods, after, b, now, cut)
            && (forall k | k in cut :: pods[k] in detected)
            && |TrafficKeys(after, b.scope)| == |TrafficKeys(pods, b.scope)| - count
  {
    DetectedCuttable(pods, b, detected, count);
    CutKeepsKeys(pods, b, detected[..count], now, {});
    CutExactly(pods, b, detected[..count], now);
    CutLeaves(pods, b, detected[..count], now);
  }

  /** What GetPodsOutOfBounds promises on an up-to-date namespaced listing is what the breaker needs. */
  lemma DetectedOnListing(pods: Store, scope: Scope, listing: seq<Pod>, c: DiscreteConfig, vector: seq<Sample>, detected: seq<Pod>)
    requires WellKeyed(pods) && IsListing(pods, scope, listing) && scope.namespace.Some?
    ensures DistinctNames(listing)
    ensures (forall p | p in listing :: Labelled(p)) ==> AllLabelled(pods, scope)
    ensures NoDuplicates(detected) && (forall p :: p in detected <==> p in listing && OutOfBounds(c, vector, p)) ==>
      DetectedOn(pods, scope, c, vector, detected)
  {
    forall p, q | p in listing && q in listing && p.name == q.name
      ensures p == q
    {
      ListedByKey(pods, p);
      ListedByKey(pods, q);
    }
    assert forall k | k in pods && InScope(scope, pods[k]) :: pods[k] in pods.Values && pods[k] in listing;
  }

  /** The names of the managed ready pods that do not take traffic. */
  function CutNames(pods: Store, scope: Scope): set<string> {
    set k | k in pods && InScope(scope, pods[k]) && IsReady(pods[k]) && !HasTraffic(pods[k], Yes) :: pods[k].name
  }

  lemma CutNamesListed(pods: Store, scope: Scope, listing: seq<Pod>)
    requires WellKeyed(pods) && IsListing(pods, scope, listing)
    ensures OutOfTraffic(listing) == CutNames(pods, scope)
  {
    forall p | p in listing
      ensures KeyOf(p) in pods && pods[KeyOf(p)] == p
    {
      ListedByKey(pods, p);
    }
    assert forall k | k in pods && InScope(scope, pods[k]) :: pods[k] in pods.Values && pods[k] in listing;
  }

  /** Detection and cut of one tick of a breaker with the built-in detector, when no update fails. */
  method DiscreteTick(breaker: BreakerImpl, control: Control, c: DiscreteConfig, analysis: Result<seq<Sample>>, now: int)
    requires WellKeyed(control.pods) && breaker.config.scope.namespace.Some? && Readable(control.pods, breaker.config.scope)
    modifies control
    ensures analysis.Err? || DividesByZero(c, analysis.value, CutNames(old(control.pods), breaker.config.scope)) ==>
      control.pods == old(control.pods)
    ensures analysis.Ok? && !DividesByZero(c, analysis.value, CutNames(old(control.pods), breaker.config.scope)) ==>
      var b := breaker.config;
      var n := |TrafficKeys(old(control.pods), b.scope)|;
      var out := OutKeys(old(control.pods), b.scope, c, analysis.value);
      var spare := if n <= MinAvailable(b, n) then 0 else n - MinAvailable(b, n);
      exists cut :: cut <= out && |cut| == (if |out| <= spare then |out| else spare) &&
                    CutFrom(old(control.pods), control.pods, b, now, cut)
  {
    ghost var pods := control.pods;
    var scope := breaker.config.scope;
    var listing := control.List(scope);
    CutNamesListed(pods, scope, listing);
    DetectedOnListing(pods, scope, listing, c, if analysis.Ok? then analysis.value else [], []);
    forall p | p in listing
      ensures Labelled(p) && RetryCount(p).Ok?
    {
      ListedByKey(pods, p);
    }
    var detected := GetPodsOutOfBounds(c, listing, analysis);
    breaker.Tick(control, detected, now, {});
    if detected.Ok? {
      DetectedOnListing(pods, scope, listing, c, analysis.value, detected.value);
      ExactCut(pods, breaker.config, c, analysis.value, detected.value, now);
      OutOfBoundsKeys(pods, scope, c, analysis.value, detected.value);
    }
  }

  lemma OutOfBoundsKeys(pods: Store, scope: Scope, c: DiscreteConfig, vector: seq<Sample>, detected: seq<Pod>)
    requires WellKeyed(pods) && DetectedOn(pods, scope, c, vector, detected)
    ensures KeysOf(detected) == OutKeys(pods, scope, c, vector)
    ensures |KeysOf(detected)| == |detected|
    ensures forall i | 0 <= i <= |detected| :: KeysOf(detected[..i]) <= KeysOf(detected)
  {
    forall p | p in detected
      ensures KeyOf(p) in pods && pods[KeyOf(p)] == p
    {
      ListedByKey(pods, p);
    }
    forall i, j | 0 <= i < j < |detected|
      ensures KeyOf(detected[i]) != KeyOf(detected[j])
    {
      assert detected[i] in detected && detected[j] in detected;
    }
    DistinctKeysCount(detected);
    assert forall k | k in OutKeys(pods, scope, c, vector) ::
      pods[k] in pods.Values && pods[k] in detected && KeyOf(pods[k]) == k;
  }

  /** The pods under these keys are broken and all others are as they were. */
  predicate CutFrom(pods: Store, after: Store, b: BreakerConfig, now: int, cut: set<Key>) {
    && after.Keys == pods.Keys
    && (forall k | k in pods && k in cut :: Broken(pods[k], b.kubervisorName, b.strategyName, now) == Ok(after[k]))
    && (forall k | k in pods && k !in cut :: after[k] == pods[k])
  }

  // ---------- repeated cuts ----------

  /** Every pod with traffic is out of bounds and was found. */
  ghost predicate AllDetected(pods: Store, scope: Scope, detected: seq<Pod>) {
    && NoDuplicates(detected)
    && forall p :: p in detected <==> p in pods.Values && InScope(scope, p) && TakesTraffic(p)
  }

  /** Labels and retry annotations of the managed pods can be read. */
  predicate Readable(pods: Store, scope: Scope) {
    forall k | k in pods && InScope(scope, pods[k]) :: Labelled(pods[k]) && RetryCount(pods[k]).Ok?
  }

  lemma AllDetectedCount(pods: Store, scope: Scope, detected: seq<Pod>)
    requires WellKeyed(pods) && AllDetected(pods, scope, detected)
    ensures |detected| == |TrafficKeys(pods, scope)|
  {
    forall p | p in detected
      ensures KeyOf(p) in pods && pods[KeyOf(p)] == p
    {
      ListedByKey(pods, p);
    }
    forall i, j | 0 <= i < j < |detected|
      ensures KeyOf(detected[i]) != KeyOf(detected[j])
    {
      assert detected[i] in detected && detected[j] in detected;
    }
    DistinctKeysCount(detected);
    forall k | k in TrafficKeys(pods, scope)
      ensures k in KeysOf(detected)
    {
      assert pods[k] in pods.Values && pods[k] in detected;
    }
    assert KeysOf(detected) == TrafficKeys(pods, scope);
  }

  lemma CutStaysReadable(pods: Store, after: Store, b: BreakerConfig, now: int, cut: set<Key>)
    requires Readable(pods, b.scope) && CutFrom(pods, after, b, now, cut)
    requires forall k | k in cut :: k in pods && InScope(b.scope, pods[k])
    ensures Readable(after, b.scope)
  {
    forall k | k in after && InScope(b.scope, after[k])
      ensures Labelled(after[k]) && RetryCount(after[k]).Ok?
    {
      BrokenReads(pods[k], b.kubervisorName, b.strategyName, now);
    }
  }

  /** One tick that finds all pods with traffic leaves exactly the minimum. */
  lemma FullCut(pods: Store, b: BreakerConfig, detected: seq<Pod>, now: int)
    requires WellKeyed(pods) && Readable(pods, b.scope) && AllDetected(pods, b.scope, detected)
    requires MinAvailable(b, |TrafficKeys(pods, b.scope)|) <= |TrafficKeys(pods, b.scope)|
    ensures var after := AfterTick(pods, b, Ok(detected), now, {});
            && WellKeyed(after) && Readable(after, b.scope)
            && |TrafficKeys(after, b.scope)| == MinAvailable(b, |TrafficKeys(pods, b.scope)|)
  {
    AllDetectedCount(pods, b.scope, detected);
    var count := RemoveCount(b, |TrafficKeys(pods, b.scope)|, |detected|);
    forall p | p in detected
      ensures RetryCount(p).Ok?
    {
      ListedByKey(pods, p);
    }
    CutDetected(pods, b, detected, count, now);
    var after := CutAll(pods, b, detected[..count], now, {});
    CutStaysReadable(pods, after, b, now, KeysOf(detected[..count]));
  }

  /** Ticks one after the other, each with what was detected and when. */
  function AfterTicks(pods: Store, b: BreakerConfig, ticks: seq<(seq<Pod>, int)>): Store {
    if ticks == [] then pods
    else
      var (detected, now) := ticks[|ticks| - 1];
      AfterTick(AfterTicks(pods, b, ticks[..|ticks| - 1]), b, Ok(detected), now, {})
  }

  /** Each tick finds every pod that still takes traffic. */
  ghost predicate AllDetectedAtEach(pods: Store, b: BreakerConfig, ticks: seq<(seq<Pod>, int)>) {
    forall i | 0 <= i < |ticks| :: AllDetected(AfterTicks(pods, b, ticks[..i]), b.scope, ticks[i].0)
  }

  lemma ShareBelow(n: nat, ratio: nat, m: nat)
    requires ratio < 100
    ensures 100 * m <= n * ratio ==> m < n || m == 0
  {
    MultiplesOrdered(ratio, 99, n);
    assert n * ratio == ratio * n;
  }

  /** Below 100 percent the minimum is less than the pods there are, down to the count. */
  lemma MinimumFalls(b: BreakerConfig, n: nat)
    requires OrZero(b.minPodsAvailableRatio) < 100 && OrZero(b.minPodsAvailableCount) <= n
    ensures OrZero(b.minPodsAvailableCount) <= MinAvailable(b, n) <= n
    ensures MinAvailable(b, n) < n || n == OrZero(b.minPodsAvailableCount)
  {
    ShareBelow(n, OrZero(b.minPodsAvailableRatio), MinAvailable(b, n));
  }

  /** Down to the minimum count, one pod at least each tick; the ratio only bounds each tick. */
  lemma {:induction false} Convergence(pods: Store, b: BreakerConfig, ticks: seq<(seq<Pod>, int)>)
    requires WellKeyed(pods) && Readable(pods, b.scope) && AllDetectedAtEach(pods, b, ticks)
    requires OrZero(b.minPodsAvailableRatio) < 100
    requires OrZero(b.minPodsAvailableCount) <= |TrafficKeys(pods, b.scope)|
    ensures
      var after := AfterTicks(pods, b, ticks);
      var least, n, m := OrZero(b.minPodsAvailableCount), |TrafficKeys(pods, b.scope)|, |TrafficKeys(after, b.scope)|;
      && WellKeyed(after) && Readable(after, b.scope)
      && least <= m
      && (m == least || m + |ticks| <= n)
      && (n <= least + |ticks| ==> m == least)
      && (ticks != [] ==> var before := |TrafficKeys(AfterTicks(pods, b, ticks[..|ticks| - 1]), b.scope)|;
            m < before || m == before == least)
  {
    if ticks != [] {
      var init := ticks[..|ticks| - 1];
      forall i | 0 <= i < |init|
        ensures AllDetected(AfterTicks(pods, b, init[..i]), b.scope, init[i].0)
      {
        assert init[..i] == ticks[..i];
      }
      Convergence(pods, b, init);
      var before := AfterTicks(pods, b, init);
      MinimumFalls(b, |TrafficKeys(before, b.scope)|);
      FullCut(before, b, ticks[|ticks| - 1].0, ticks[|ticks| - 1].1);
    }
  }
}
