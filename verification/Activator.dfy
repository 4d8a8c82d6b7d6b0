/**
  The activator of pkg/activate/activator.go: puts broken pods back in traffic
  with a linear back-off, and pauses or kills those that used up their retries.
 */
module Activator {
  import opened Common
  import opened Pods
  import opened PodControl
  import opened Breaker

  datatype Mode = Periodic | RetryAndKill | RetryAndPause | OtherMode

  /** Defaulted values; the period in milliseconds. */
  datatype ActivatorStrategy = ActivatorStrategy(mode: Mode, period: Option<nat>, maxRetryCount: nat, maxPauseCount: nat)

  datatype Decision = Wait | Reactivate | Kill | PutAside

  /** The decision on a broken pod while `paused` pods of the service are paused. */
  function Decide(s: ActivatorStrategy, p: Pod, now: int, paused: nat): Result<Decision> {
    match (BreakAt(p), RetryCount(p))
    case (Err(e), _) => Err(e)
    case (_, Err(e)) => Err(e)
    case (Ok(breakAt), Ok(retryCount)) =>
      if s.period == None then Err("b.activatorStrategyConfig.Period is nil")
      else
        match s.mode
        case Periodic => Ok(if breakAt + s.period.value < now then Reactivate else Wait)
        case RetryAndKill =>
          Ok(if retryCount > s.maxRetryCount then Kill
             else if breakAt + retryCount * s.period.value < now then Reactivate
             else Wait)
        case RetryAndPause =>
          Ok(if retryCount > s.maxRetryCount then if paused >= s.maxPauseCount then Kill else PutAside
             else if breakAt + retryCount * s.period.value < now then Reactivate
             else Wait)
        case OtherMode => Ok(Wait)
  }

  function WithLabel(scope: Scope, t: Traffic): Scope {
    scope.(selector := scope.selector + multiset{(TRAFFIC_KEY, TrafficValue(t))})
  }

  function PausedKeys(pods: Store, scope: Scope): set<Key> {
    set k | k in pods && InScope(WithLabel(scope, Paused), pods[k])
  }

  /** The store after a strategy was applied to a listed pod. */
  function AfterStrategy(pods: Store, scope: Scope, s: ActivatorStrategy, p: Pod, now: int, up: bool): Store {
    match Decide(s, p, now, |PausedKeys(pods, scope)|)
    case Err(_) => pods
    case Ok(Wait) => pods
    case Ok(Reactivate) => Updated(pods, p, SetTraffic(p, Yes), up)
    case Ok(PutAside) => Updated(pods, p, SetTraffic(p, Paused), up)
    case Ok(Kill) => Deleted(pods, KeyOf(p), up)
  }

  /** The store after the loop of one tick over a listing. */
  function AfterAll(pods: Store, scope: Scope, s: ActivatorStrategy, listing: seq<Pod>, now: int, refused: set<nat>): Store {
    if listing == [] then pods
    else
      var n := |listing| - 1;
      AfterStrategy(AfterAll(pods, scope, s, listing[..n], now, refused), scope, s, listing[n], now, n !in refused)
  }

  lemma LabelSelects(scope: Scope, t: Traffic, p: Pod)
    ensures InScope(WithLabel(scope, t), p) <==> InScope(scope, p) && HasTraffic(p, t)
  {
    var r := (TRAFFIC_KEY, TrafficValue(t));
    assert forall x :: x in WithLabel(scope, t).selector <==> x in scope.selector || x == r;
    assert Matches(WithLabel(scope, t).selector, p.labels) ==> r in WithLabel(scope, t).selector;
  }

  lemma AfterStrategyKeyed(pods: Store, scope: Scope, s: ActivatorStrategy, p: Pod, now: int, up: bool)
    requires WellKeyed(pods)
    ensures WellKeyed(AfterStrategy(pods, scope, s, p, now, up))
  {
  }

  lemma PausedCount(pods: Store, scope: Scope, listing: seq<Pod>)
    requires WellKeyed(pods) && IsListing(pods, WithLabel(scope, Paused), listing)
    ensures |listing| == |PausedKeys(pods, scope)|
  {
    forall p {
      ListedByKey(pods, p);
    }
    forall i, j | 0 <= i < j < |listing|
      ensures KeyOf(listing[i]) != KeyOf(listing[j])
    {
      assert listing[i] in listing && listing[j] in listing;
    }
    DistinctKeysCount(listing);
    forall k | k in PausedKeys(pods, scope)
      ensures k in KeysOf(listing)
    {
      assert pods[k] in pods.Values && pods[k] in listing;
    }
    assert KeysOf(listing) == PausedKeys(pods, scope);
  }

  class ActivatorImpl {
    const scope: Scope
    const strategy: ActivatorStrategy

    constructor (scope: Scope, strategy: ActivatorStrategy)
      ensures this.scope == scope && this.strategy == strategy
    {
      this.scope, this.strategy := scope, strategy;
    }

    method ApplyActivatorStrategy(control: Control, p: Pod, now: int, up: bool)
      requires WellKeyed(control.pods)
      modifies control
      ensures WellKeyed(control.pods)
      ensures control.pods == AfterStrategy(old(control.pods), scope, strategy, p, now, up)
    {
      AfterStrategyKeyed(control.pods, scope, strategy, p, now, up);
      var breakAt := BreakAt(p);
      if breakAt.Err? {
        return;
      }
      var retryCount := RetryCount(p);
      if retryCount.Err? {
        return;
      }
      if strategy.period == None {
        return;
      }
      var retryPeriod := strategy.period.value;
      match strategy.mode
      case Periodic =>
        var retryTime := breakAt.value + retryPeriod;
        if retryTime < now {
          var _ := control.UpdateActivationLabelsAndAnnotations(p, up);
        }
      case RetryAndKill =>
        if retryCount.value > strategy.maxRetryCount {
          var _ := control.KillPod(p, up);
          return;
        }
        var retryTime := breakAt.value + retryCount.value * retryPeriod;
        if retryTime < now {
          var _ := control.UpdateActivationLabelsAndAnnotations(p, up);
        }
      case RetryAndPause =>
        if retryCount.value > strategy.maxRetryCount {
          var list := control.List(WithLabel(scope, Paused));
          PausedCount(control.pods, scope, list);
          if |list| >= strategy.maxPauseCount {
            var _ := control.KillPod(p, up);
            return;
          }
          var _ := control.UpdatePauseLabelsAndAnnotations(p, up);
          return;
        }
        var retryTime := breakAt.value + retryCount.value * retryPeriod;
        if retryTime < now {
          var _ := control.UpdateActivationLabelsAndAnnotations(p, up);
        }
      case OtherMode =>
    }

    /** One tick of Run over the pods listed out of traffic. */
    method Tick(control: Control, now: int, refused: set<nat>) returns (listing: seq<Pod>)
      requires WellKeyed(control.pods)
      modifies control
      ensures IsListing(old(control.pods), WithLabel(scope, No), listing)
      ensures control.pods == AfterAll(old(control.pods), scope, strategy, listing, now, refused)
    {
      listing := control.List(WithLabel(scope, No));
      for i := 0 to |listing|
        invariant WellKeyed(control.pods)
        invariant control.pods == AfterAll(old(control.pods), scope, strategy, listing[..i], now, refused)
      {
        assert listing[..i + 1][..i] == listing[..i];
        ApplyActivatorStrategy(control, listing[i], now, i !in refused);
      }
      assert listing[..|listing|] == listing;
    }
  }
}
