/**
  Pods, their Kubervisor labels and annotations (pkg/labeling), what each
  operation of pkg/pod/control.go makes of a pod, and the slice helpers of
  pkg/pod/tools.go. A nil map and an empty map are the same value here.

  Times are milliseconds. The breakAt annotation keeps whole seconds; its text
  is the decimal count of seconds rather than its calendar rendering.
 */
module Pods {
  import opened Common
  import opened Decimal

  const NAME_KEY := "kubervisor/name"
  const STRATEGY_KEY := "kubervisor/strategy"
  const TRAFFIC_KEY := "kubervisor/traffic"
  const BREAK_AT_KEY := "breaker/breakAt"
  const RETRY_COUNT_KEY := "breaker/retryCount"

  datatype Phase = Pending | Running | Succeeded | Failed | UnknownPhase
  datatype PodCondition = PodCondition(kind: string, status: ConditionStatus)

  datatype Pod = Pod(
    namespace: string,
    name: string,
    labels: map<string, string>,
    annotations: map<string, string>,
    phase: Phase,
    conditions: seq<PodCondition>)

  datatype Key = Key(namespace: string, name: string)

  function KeyOf(p: Pod): Key {
    Key(p.namespace, p.name)
  }

  function KeysOf(pods: seq<Pod>): set<Key> {
    set p | p in pods :: KeyOf(p)
  }

  /** The requirements of a label selector built from equalities; a key may occur twice. */
  type Selector = multiset<(string, string)>

  predicate Matches(sel: Selector, labels: map<string, string>) {
    forall r | r in sel :: r.0 in labels && labels[r.0] == r.1
  }

  // ---------- labels and annotations ----------

  datatype Traffic = Yes | No | Paused

  function TrafficValue(t: Traffic): string {
    match t
    case Yes => "yes"
    case No => "no"
    case Paused => "pause"
  }

  function ToLabelTraffic(value: string): Result<Traffic> {
    if value == "yes" then Ok(Yes)
    else if value == "no" then Ok(No)
    else if value == "pause" then Ok(Paused)
    else Err("Unknown value for LabelTraffic")
  }

  function TrafficOf(p: Pod): Result<Traffic> {
    if TRAFFIC_KEY in p.labels then ToLabelTraffic(p.labels[TRAFFIC_KEY]) else Err("no traffic label")
  }

  predicate HasTraffic(p: Pod, t: Traffic) {
    TrafficOf(p) == Ok(t)
  }

  function FormatStamp(ms: int): string {
    Itoa(ms / 1000)
  }

  function BreakAt(p: Pod): Result<int> {
    if BREAK_AT_KEY !in p.annotations then Err("No breakAt annotation")
    else
      match Atoi(p.annotations[BREAK_AT_KEY])
      case None => Err("bad breakAt annotation")
      case Some(seconds) => Ok(1000 * seconds)
  }

  function RetryCount(p: Pod): Result<int> {
    if RETRY_COUNT_KEY !in p.annotations then Ok(0)
    else
      match Atoi(p.annotations[RETRY_COUNT_KEY])
      case None => Err("bad retryCount annotation")
      case Some(n) => Ok(n)
  }

  // ---------- the operations of pod control on one pod ----------

  function SetTraffic(p: Pod, t: Traffic): Pod {
    p.(labels := p.labels[TRAFFIC_KEY := TrafficValue(t)])
  }

  function Initialized(p: Pod, name: string): Pod {
    SetTraffic(p.(labels := p.labels[NAME_KEY := name]), Yes)
  }

  function Broken(p: Pod, name: string, strategy: string, now: int): Result<Pod> {
    match RetryCount(p)
    case Err(e) => Err(e)
    case Ok(n) =>
      Ok(p.(labels := p.labels[NAME_KEY := name][STRATEGY_KEY := strategy][TRAFFIC_KEY := TrafficValue(No)],
            annotations := p.annotations[BREAK_AT_KEY := FormatStamp(now)][RETRY_COUNT_KEY := Itoa(n + 1)]))
  }

  function Cleaned(p: Pod): Pod {
    p.(labels := p.labels - {NAME_KEY}, annotations := p.annotations - {BREAK_AT_KEY, RETRY_COUNT_KEY})
  }

  lemma SetTrafficReads(p: Pod, t: Traffic)
    ensures TrafficOf(SetTraffic(p, t)) == Ok(t)
    ensures RetryCount(SetTraffic(p, t)) == RetryCount(p) && BreakAt(SetTraffic(p, t)) == BreakAt(p)
    ensures KeyOf(SetTraffic(p, t)) == KeyOf(p) && IsReady(SetTraffic(p, t)) == IsReady(p)
  {
  }

  /** After a break the pod is out of traffic, one more break is counted and the time is known to the second. */
  lemma BrokenReads(p: Pod, name: string, strategy: string, now: int)
    ensures Broken(p, name, strategy, now).Ok? <==> RetryCount(p).Ok?
    ensures Broken(p, name, strategy, now).Ok? ==>
      var b := Broken(p, name, strategy, now).value;
      && TrafficOf(b) == Ok(No)
      && (NAME_KEY, name) in b.labels.Items && (STRATEGY_KEY, strategy) in b.labels.Items
      && RetryCount(b) == Ok(RetryCount(p).value + 1)
      && BreakAt(b) == Ok(1000 * (now / 1000))
      && KeyOf(b) == KeyOf(p) && IsReady(b) == IsReady(p)
  {
    if RetryCount(p).Ok? {
      AtoiItoa(RetryCount(p).value + 1);
      AtoiItoa(now / 1000);
    }
  }

  /** What each operation writes, and that it writes nothing else, whatever the pod carried before. */
  lemma OperationsWrite(p: Pod, name: string, strategy: string, now: int)
    ensures Initialized(p, name) == p.(labels := p.labels["kubervisor/name" := name]["kubervisor/traffic" := "yes"])
    ensures SetTraffic(p, Yes) == p.(labels := p.labels["kubervisor/traffic" := "yes"])
    ensures SetTraffic(p, Paused) == p.(labels := p.labels["kubervisor/traffic" := "pause"])
    ensures Cleaned(p) == p.(labels := p.labels - {"kubervisor/name"},
                             annotations := p.annotations - {"breaker/breakAt"} - {"breaker/retryCount"})
    ensures Broken(p, name, strategy, now).Ok? ==>
      var b := Broken(p, name, strategy, now).value;
      && b.labels == p.labels["kubervisor/name" := name]["kubervisor/strategy" := strategy]["kubervisor/traffic" := "no"]
      && b.annotations.Keys == p.annotations.Keys + {"breaker/breakAt", "breaker/retryCount"}
      && (forall k | k in p.annotations && k !in {"breaker/breakAt", "breaker/retryCount"} :: b.annotations[k] == p.annotations[k])
      && b == p.(labels := b.labels, annotations := b.annotations)
  {
    assert p.annotations - {"breaker/breakAt"} - {"breaker/retryCount"} == p.annotations - {BREAK_AT_KEY, RETRY_COUNT_KEY};
  }

  // ---------- tools ----------

  function ReadyCondition(conditions: seq<PodCondition>): bool {
    if conditions == [] then false
    else if conditions[0].kind == "Ready" then conditions[0].status == True
    else ReadyCondition(conditions[1..])
  }

  /** A running pod whose first Ready condition is true. */
  function IsReady(p: Pod): bool {
    p.phase == Running && ReadyCondition(p.conditions)
  }

  /** Position i holds the first condition of type Ready. */
  predicate FirstReadyAt(conditions: seq<PodCondition>, i: nat) {
    i < |conditions| && conditions[i].kind == "Ready" && forall j | 0 <= j < i :: conditions[j].kind != "Ready"
  }

  lemma {:induction false} ReadyConditionAt(conditions: seq<PodCondition>)
    ensures ReadyCondition(conditions) <==> exists i: nat :: FirstReadyAt(conditions, i) && conditions[i].status == True
  {
    if conditions != [] {
      var rest := conditions[1..];
      ReadyConditionAt(rest);
      if conditions[0].kind == "Ready" {
        assert FirstReadyAt(conditions, 0);
      } else {
        assert forall j: nat | FirstReadyAt(rest, j) :: FirstReadyAt(conditions, j + 1);
        assert forall i: nat | FirstReadyAt(conditions, i) :: i > 0 && FirstReadyAt(rest, i - 1);
      }
    }
  }

  method ScanReady(p: Pod) returns (ready: bool)
    ensures ready == IsReady(p)
    ensures ready <==> p.phase == Running && exists i: nat :: FirstReadyAt(p.conditions, i) && p.conditions[i].status == True
  {
    ReadyConditionAt(p.conditions);
    if p.phase == Running {
      for i := 0 to |p.conditions|
        invariant ReadyCondition(p.conditions) == ReadyCondition(p.conditions[i..])
      {
        if p.conditions[i].kind == "Ready" {
          return p.conditions[i].status == True;
        }
      }
    }
    return false;
  }

  /** The pods that `exclude` does not exclude, or its first error. */
  function FilteredOut(slice: seq<Pod>, exclude: Pod -> Result<bool>): Result<seq<Pod>> {
    if slice == [] then Ok([])
    else
      var last := slice[|slice| - 1];
      match FilteredOut(slice[..|slice| - 1], exclude)
      case Err(e) => Err(e)
      case Ok(kept) =>
        match exclude(last)
        case Err(e) => Err(e)
        case Ok(out) => Ok(if out then kept else kept + [last])
  }

  lemma {:induction false} FirstErrorStays(slice: seq<Pod>, exclude: Pod -> Result<bool>, n: nat)
    requires n <= |slice| && FilteredOut(slice[..n], exclude).Err?
    ensures FilteredOut(slice, exclude) == Err(FilteredOut(slice[..n], exclude).error)
  {
    if n == |slice| {
      assert slice[..n] == slice;
    } else {
      var init := slice[..|slice| - 1];
      assert init[..n] == slice[..n];
      FirstErrorStays(init, exclude, n);
    }
  }

  /** A filter that fails returns the error of the first pod the predicate fails on. */
  lemma FirstError(slice: seq<Pod>, exclude: Pod -> Result<bool>, i: nat)
    requires i < |slice| && exclude(slice[i]).Err? && forall j | 0 <= j < i :: exclude(slice[j]).Ok?
    ensures FilteredOut(slice, exclude) == Err(exclude(slice[i]).error)
  {
    FilteredOutKeeps(slice[..i], exclude);
    assert slice[..i + 1][..i] == slice[..i];
    FirstErrorStays(slice, exclude, i + 1);
  }

  method FilterOut(slice: seq<Pod>, exclude: Pod -> Result<bool>) returns (r: Result<seq<Pod>>)
    ensures r == FilteredOut(slice, exclude)
  {
    var kept: seq<Pod> := [];
    for i := 0 to |slice|
      invariant FilteredOut(slice[..i], exclude) == Ok(kept)
    {
      assert slice[..i + 1][..i] == slice[..i];
      var out := exclude(slice[i]);
      if out.Err? {
        FirstErrorStays(slice, exclude, i + 1);
        return Err(out.error);
      }
      if !out.value {
        kept := kept + [slice[i]];
      }
    }
    assert slice[..|slice|] == slice;
    return Ok(kept);
  }

  function NotReady(p: Pod): Result<bool> {
    Ok(!IsReady(p))
  }

  function NotRunning(p: Pod): Result<bool> {
    Ok(p.phase != Running)
  }

  function NotWithTraffic(p: Pod): Result<bool> {
    match TrafficOf(p)
    case Err(e) => Err(e)
    case Ok(t) => Ok(t != Yes)
  }

  method PurgeNotReadyPods(pods: seq<Pod>) returns (r: Result<seq<Pod>>)
    ensures r == FilteredOut(pods, NotReady)
  {
    r := FilterOut(pods, NotReady);
  }

  method KeepRunningPods(pods: seq<Pod>) returns (r: Result<seq<Pod>>)
    ensures r == FilteredOut(pods, NotRunning)
  {
    r := FilterOut(pods, NotRunning);
  }

  method KeepWithTrafficYesPods(pods: seq<Pod>) returns (r: Result<seq<Pod>>)
    ensures r == FilteredOut(pods, NotWithTraffic)
  {
    r := FilterOut(pods, NotWithTraffic);
  }

  ghost predicate NoDuplicates<T>(s: seq<T>) {
    forall i, j | 0 <= i < j < |s| :: s[i] != s[j]
  }

  /** What a filter keeps, and when it fails. */
  lemma {:induction false} FilteredOutKeeps(slice: seq<Pod>, exclude: Pod -> Result<bool>)
    ensures FilteredOut(slice, exclude).Err? <==> exists p :: p in slice && exclude(p).Err?
    ensures FilteredOut(slice, exclude).Ok? ==>
      var kept := FilteredOut(slice, exclude).value;
      && (forall p :: p in kept <==> p in slice && exclude(p) == Ok(false))
      && (NoDuplicates(slice) ==> NoDuplicates(kept))
  {
    if slice != [] {
      var init := slice[..|slice| - 1];
      FilteredOutKeeps(init, exclude);
      assert slice == init + [slice[|slice| - 1]];
    }
  }

  /** kept is slice with some elements left out. */
  predicate Subsequence<T(==)>(kept: seq<T>, slice: seq<T>) {
    || kept == []
    || (slice != [] &&
         (|| Subsequence(kept, slice[..|slice| - 1])
          || (kept[|kept| - 1] == slice[|slice| - 1] && Subsequence(kept[..|kept| - 1], slice[..|slice| - 1]))))
  }

  /** The order of the pods that are kept stays. */
  lemma {:induction false} FilterKeepsOrder(slice: seq<Pod>, exclude: Pod -> Result<bool>)
    requires FilteredOut(slice, exclude).Ok?
    ensures Subsequence(FilteredOut(slice, exclude).value, slice)
  {
    if slice != [] {
      var init, last := slice[..|slice| - 1], slice[|slice| - 1];
      FilterKeepsOrder(init, exclude);
      var kept := FilteredOut(init, exclude).value;
      assert (kept + [last])[..|kept|] == kept;
    }
  }

  /** Purging the pods that are not ready makes keeping the running ones redundant. */
  lemma {:induction false} PurgeAfterKeepRunning(pods: seq<Pod>)
    ensures FilteredOut(pods, NotRunning).Ok?
    ensures FilteredOut(FilteredOut(pods, NotRunning).value, NotReady) == FilteredOut(pods, NotReady)
  {
    if pods != [] {
      var init, last := pods[..|pods| - 1], pods[|pods| - 1];
      PurgeAfterKeepRunning(init);
      var running := FilteredOut(init, NotRunning).value;
      assert (running + [last])[..|running|] == running;
    }
  }

  /** The pods a breaker counts: ready and labelled to receive traffic. */
  predicate TakesTraffic(p: Pod) {
    IsReady(p) && HasTraffic(p, Yes)
  }

  predicate Labelled(p: Pod) {
    IsReady(p) ==> TrafficOf(p).Ok?
  }

  /** `KeepWithTrafficYesPods(PurgeNotReadyPods(pods))`. */
  function WithTraffic(pods: seq<Pod>): Result<seq<Pod>> {
    match FilteredOut(pods, NotReady)
    case Err(e) => Err(e)
    case Ok(ready) => FilteredOut(ready, NotWithTraffic)
  }

  /** What takes traffic, read off the pod itself. */
  predicate RunsWithTraffic(p: Pod) {
    && p.phase == Running
    && (exists i: nat :: i < |p.conditions| && FirstReadyAt(p.conditions, i) && p.conditions[i].status == True)
    && "kubervisor/traffic" in p.labels && p.labels["kubervisor/traffic"] == "yes"
  }

  lemma TrafficIsLabel(p: Pod)
    ensures TrafficOf(p).Ok? <==>
      "kubervisor/traffic" in p.labels && p.labels["kubervisor/traffic"] in {"yes", "no", "pause"}
    ensures HasTraffic(p, Yes) <==> ("kubervisor/traffic", "yes") in p.labels.Items
    ensures HasTraffic(p, No) <==> ("kubervisor/traffic", "no") in p.labels.Items
    ensures HasTraffic(p, Paused) <==> ("kubervisor/traffic", "pause") in p.labels.Items
  {
  }

  lemma TakesTrafficAt(p: Pod)
    ensures TakesTraffic(p) <==> RunsWithTraffic(p)
  {
    ReadyConditionAt(p.conditions);
    TrafficIsLabel(p);
  }

  lemma WithTrafficKeeps(pods: seq<Pod>)
    ensures WithTraffic(pods).Ok? <==> forall p | p in pods :: Labelled(p)
    ensures WithTraffic(pods).Ok? ==>
      var kept := WithTraffic(pods).value;
      && (forall p :: p in kept <==> p in pods && TakesTraffic(p))
      && (forall p :: p in kept <==> p in pods && RunsWithTraffic(p))
      && (NoDuplicates(pods) ==> NoDuplicates(kept))
  {
    forall p {
      TakesTrafficAt(p);
    }
    FilteredOutKeeps(pods, NotReady);
    if FilteredOut(pods, NotReady).Ok? {
      FilteredOutKeeps(FilteredOut(pods, NotReady).value, NotWithTraffic);
    }
  }

  // ---------- ExcludeFromSlice ----------

  predicate HasKey(slice: seq<Pod>, k: Key) {
    exists i :: 0 <= i < |slice| && KeyOf(slice[i]) == k
  }

  /** The pods of one slice whose namespace and name do not occur in another, in order. */
  function Excluded(fromSlice: seq<Pod>, inSlice: seq<Pod>): seq<Pod> {
    if fromSlice == [] then []
    else
      var last := fromSlice[|fromSlice| - 1];
      Excluded(fromSlice[..|fromSlice| - 1], inSlice) + if HasKey(inSlice, KeyOf(last)) then [] else [last]
  }

  method ExcludeFromSlice(fromSlice: seq<Pod>, inSlice: seq<Pod>) returns (output: seq<Pod>)
    ensures output == Excluded(fromSlice, inSlice)
  {
    output := [];
    for i := 0 to |fromSlice|
      invariant output == Excluded(fromSlice[..i], inSlice)
    {
      assert fromSlice[..i + 1][..i] == fromSlice[..i];
      var found := false;
      for j := 0 to |inSlice|
        invariant !found
        invariant forall k | 0 <= k < j :: KeyOf(inSlice[k]) != KeyOf(fromSlice[i])
      {
        if fromSlice[i].name == inSlice[j].name && fromSlice[i].namespace == inSlice[j].namespace {
          found := true;
          break;
        }
      }
      if !found {
        output := output + [fromSlice[i]];
      }
    }
    assert fromSlice[..|fromSlice|] == fromSlice;
  }

  lemma {:induction false} ExcludedKeeps(fromSlice: seq<Pod>, inSlice: seq<Pod>)
    ensures forall p :: p in Excluded(fromSlice, inSlice) <==> p in fromSlice && !HasKey(inSlice, KeyOf(p))
    ensures NoDuplicates(fromSlice) ==> NoDuplicates(Excluded(fromSlice, inSlice))
  {
    if fromSlice != [] {
      var init := fromSlice[..|fromSlice| - 1];
      ExcludedKeeps(init, inSlice);
      assert fromSlice == init + [fromSlice[|fromSlice| - 1]];
    }
  }
}
