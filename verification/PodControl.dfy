/**
  pkg/pod/control.go over the pods of a cluster. An update is accepted only if
  the stored pod is still the one it was computed from; the API may refuse any
  call (`up` is false).
 */
module PodControl {
  import opened Common
  import opened Decimal
  import opened Pods

  type Store = map<Key, Pod>

  ghost predicate WellKeyed(pods: Store) {
    forall k | k in pods :: KeyOf(pods[k]) == k
  }

  predicate Accepts(pods: Store, read: Pod, up: bool) {
    up && KeyOf(read) in pods && pods[KeyOf(read)] == read
  }

  function Updated(pods: Store, read: Pod, p: Pod, up: bool): Store {
    if Accepts(pods, read, up) then pods[KeyOf(read) := p] else pods
  }

  function Deleted(pods: Store, k: Key, up: bool): Store {
    if up then pods - {k} else pods
  }

  /** A namespace, or all of them, and a label selector. */
  datatype Scope = Scope(namespace: Option<string>, selector: Selector)

  predicate InScope(scope: Scope, p: Pod) {
    (scope.namespace.Some? ==> p.namespace == scope.namespace.value) && Matches(scope.selector, p.labels)
  }

  /** An up-to-date listing: every pod of the store in scope once, in any order. */
  ghost predicate IsListing(pods: Store, scope: Scope, listing: seq<Pod>) {
    && NoDuplicates(listing)
    && forall p :: p in listing <==> p in pods.Values && InScope(scope, p)
  }

  lemma ListedByKey(pods: Store, p: Pod)
    requires WellKeyed(pods)
    ensures p in pods.Values <==> KeyOf(p) in pods && pods[KeyOf(p)] == p
  {
    if p in pods.Values {
      var k :| k in pods && pods[k] == p;
    }
  }

  class Control {
    var pods: Store

    constructor (pods: Store)
      ensures this.pods == pods
    {
      this.pods := pods;
    }

    method List(scope: Scope) returns (listing: seq<Pod>)
      requires WellKeyed(pods)
      ensures IsListing(pods, scope, listing)
    {
      listing := [];
      var left := pods.Keys;
      while left != {}
        invariant left <= pods.Keys
        invariant forall p :: p in listing <==> KeyOf(p) in pods && KeyOf(p) !in left && pods[KeyOf(p)] == p && InScope(scope, p)
        invariant NoDuplicates(listing)
      {
        var k :| k in left;
        left := left - {k};
        if InScope(scope, pods[k]) {
          listing := listing + [pods[k]];
        }
      }
      forall p {
        ListedByKey(pods, p);
      }
    }

    method Update(read: Pod, p: Pod, up: bool) returns (ok: bool)
      requires KeyOf(p) == KeyOf(read)
      modifies this
      ensures pods == Updated(old(pods), read, p, up) && ok == Accepts(old(pods), read, up)
    {
      ok := up && KeyOf(read) in pods && pods[KeyOf(read)] == read;
      if ok {
        pods := pods[KeyOf(read) := p];
      }
    }

    method InitBreakerAnnotationAndLabel(name: string, inputPod: Pod, up: bool) returns (ok: bool)
      modifies this
      ensures pods == Updated(old(pods), inputPod, Initialized(inputPod, name), up) && ok == Accepts(old(pods), inputPod, up)
    {
      var labels := inputPod.labels;
      labels := labels[NAME_KEY := name];
      labels := labels[TRAFFIC_KEY := "yes"];
      ok := Update(inputPod, inputPod.(labels := labels), up);
    }

    method UpdateBreakerAnnotationAndLabel(name: string, strategy: string, inputPod: Pod, now: int, up: bool) returns (ok: bool)
      modifies this
      ensures pods == AfterBreak(old(pods), inputPod, name, strategy, now, up)
      ensures ok == (Accepts(old(pods), inputPod, up) && RetryCount(inputPod).Ok?)
    {
      var labels, annotations := inputPod.labels, inputPod.annotations;
      labels := labels[NAME_KEY := name];
      labels := labels[STRATEGY_KEY := strategy];
      labels := labels[TRAFFIC_KEY := "no"];
      var retryCount := RetryCount(inputPod);
      if retryCount.Err? {
        return false;
      }
      annotations := annotations[BREAK_AT_KEY := FormatStamp(now)];
      annotations := annotations[RETRY_COUNT_KEY := Itoa(retryCount.value + 1)];
      ok := Update(inputPod, inputPod.(labels := labels, annotations := annotations), up);
    }

    method UpdateActivationLabelsAndAnnotations(inputPod: Pod, up: bool) returns (ok: bool)
      modifies this
      ensures pods == Updated(old(pods), inputPod, SetTraffic(inputPod, Yes), up) && ok == Accepts(old(pods), inputPod, up)
    {
      ok := Update(inputPod, inputPod.(labels := inputPod.labels[TRAFFIC_KEY := "yes"]), up);
    }

    method UpdatePauseLabelsAndAnnotations(inputPod: Pod, up: bool) returns (ok: bool)
      modifies this
      ensures pods == Updated(old(pods), inputPod, SetTraffic(inputPod, Paused), up) && ok == Accepts(old(pods), inputPod, up)
    {
      ok := Update(inputPod, inputPod.(labels := inputPod.labels[TRAFFIC_KEY := "pause"]), up);
    }

    method RemoveBreakerAnnotationAndLabel(inputPod: Pod, up: bool) returns (ok: bool)
      modifies this
      ensures pods == Updated(old(pods), inputPod, Cleaned(inputPod), up) && ok == Accepts(old(pods), inputPod, up)
    {
      var labels, annotations := inputPod.labels, inputPod.annotations;
      labels := labels - {NAME_KEY};
      annotations := annotations - {BREAK_AT_KEY};
      annotations := annotations - {RETRY_COUNT_KEY};
      assert annotations == inputPod.annotations - {BREAK_AT_KEY, RETRY_COUNT_KEY};
      ok := Update(inputPod, inputPod.(labels := labels, annotations := annotations), up);
    }

    method KillPod(inputPod: Pod, up: bool) returns (ok: bool)
      modifies this
      ensures pods == Deleted(old(pods), KeyOf(inputPod), up) && ok == (up && KeyOf(inputPod) in old(pods))
    {
      ok := up && KeyOf(inputPod) in pods;
      if ok {
        pods := pods - {KeyOf(inputPod)};
      }
    }
  }

  function AfterBreak(pods: Store, p: Pod, name: string, strategy: string, now: int, up: bool): Store {
    match Broken(p, name, strategy, now)
    case Err(_) => pods
    case Ok(b) => Updated(pods, p, b, up)
  }

  // ---------- any sequence of operations on one pod ----------

  datatype Operation =
    | Init(name: string)
    | Break(name: string, strategy: string, now: int)
    | Activate
    | Pause
    | Remove

  function Operated(p: Pod, op: Operation): Result<Pod> {
    match op
    case Init(name) => Ok(Initialized(p, name))
    case Break(name, strategy, now) => Broken(p, name, strategy, now)
    case Activate => Ok(SetTraffic(p, Yes))
    case Pause => Ok(SetTraffic(p, Paused))
    case Remove => Ok(Cleaned(p))
  }

  function AllOperated(p: Pod, ops: seq<Operation>): Result<Pod> {
    if ops == [] then Ok(p)
    else
      match AllOperated(p, ops[..|ops| - 1])
      case Err(e) => Err(e)
      case Ok(q) => Operated(q, ops[|ops| - 1])
  }

  /** Breaks since the last removal. */
  function BreaksCounted(ops: seq<Operation>): nat {
    if ops == [] then 0
    else if ops[|ops| - 1].Remove? then 0
    else BreaksCounted(ops[..|ops| - 1]) + if ops[|ops| - 1].Break? then 1 else 0
  }

  const LABEL_KEYS: set<string> := {NAME_KEY, STRATEGY_KEY, TRAFFIC_KEY}
  const ANNOTATION_KEYS: set<string> := {BREAK_AT_KEY, RETRY_COUNT_KEY}

  predicate Untouched(p: Pod) {
    p.labels.Keys !! LABEL_KEYS && p.annotations.Keys !! ANNOTATION_KEYS
  }

  /** The pod without anything Kubervisor writes. */
  function Bare(p: Pod): Pod {
    p.(labels := p.labels - LABEL_KEYS, annotations := p.annotations - ANNOTATION_KEYS)
  }

  lemma OperatedBare(p: Pod, op: Operation)
    requires Operated(p, op).Ok?
    ensures Bare(Operated(p, op).value) == Bare(p)
  {
    var q := Operated(p, op).value;
    assert q.labels - LABEL_KEYS == p.labels - LABEL_KEYS;
    assert q.annotations - ANNOTATION_KEYS == p.annotations - ANNOTATION_KEYS;
  }

  /** No operation fails, the retry annotation counts the breaks, and everything else is as it was. */
  lemma {:induction false} OperationsCount(p: Pod, ops: seq<Operation>)
    requires Untouched(p)
    ensures AllOperated(p, ops).Ok?
    ensures var q := AllOperated(p, ops).value; Bare(q) == p && RetryCount(q) == Ok(BreaksCounted(ops))
  {
    if ops == [] {
      assert Bare(p).labels == p.labels && Bare(p).annotations == p.annotations;
    } else {
      var init, op := ops[..|ops| - 1], ops[|ops| - 1];
      OperationsCount(p, init);
      var q := AllOperated(p, init).value;
      if op.Break? {
        BrokenReads(q, op.name, op.strategy, op.now);
      }
      OperatedBare(q, op);
    }
  }

  /** Removal gives back the original pod, except for the traffic and strategy labels it leaves behind. */
  lemma LabelRoundTrip(p: Pod, ops: seq<Operation>)
    requires Untouched(p)
    ensures AllOperated(p, ops).Ok?
    ensures var q := Cleaned(AllOperated(p, ops).value);
            && q.(labels := q.labels - {STRATEGY_KEY, TRAFFIC_KEY}) == p
            && q.labels.Keys - p.labels.Keys <= {STRATEGY_KEY, TRAFFIC_KEY}
            && q.annotations == p.annotations
  {
    OperationsCount(p, ops);
    var b := AllOperated(p, ops).value;
    var q := Cleaned(b);
    assert q.labels - {STRATEGY_KEY, TRAFFIC_KEY} == b.labels - LABEL_KEYS;
    assert q.annotations == b.annotations - ANNOTATION_KEYS;
    assert forall k | k in q.labels.Keys - p.labels.Keys :: k in LABEL_KEYS;
  }
}
