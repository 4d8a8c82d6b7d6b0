/**
  What activators do in runs, told from the pods' labels and annotations and the
  activators' configuration: when a pod is put back, paused, deleted or left
  alone in each of the modes.
 */
module ActivatorRuns {
  import opened Common
  import opened Pods
  import opened PodControl
  import opened Breaker
  import opened Activator
  import opened FleetRuns

  /** The same pod with another traffic label. */
  function Relabelled(p: Pod, traffic: string): Pod {
    p.(labels := p.labels["kubervisor/traffic" := traffic])
  }

  predicate LeftAlone(f: Fleet, g: Fleet, k: Key) {
    k in f.pods && k in g.pods && g.pods[k] == f.pods[k]
  }

  predicate BackInTraffic(f: Fleet, g: Fleet, k: Key) {
    k in f.pods && k in g.pods && g.pods[k] == Relabelled(f.pods[k], "yes")
  }

  predicate PutOnPause(f: Fleet, g: Fleet, k: Key) {
    k in f.pods && k in g.pods && g.pods[k] == Relabelled(f.pods[k], "pause")
  }

  /** A managed pod out of traffic, of whose annotations the time of its break and its retry count can be read. */
  predicate BrokenPod(sv: Service, f: Fleet, k: Key) {
    && k in f.pods && InScope(sv.scope, f.pods[k]) && ("kubervisor/traffic", "no") in f.pods[k].labels.Items
    && BreakAt(f.pods[k]).Ok? && RetryCount(f.pods[k]).Ok?
  }

  /** How a pod is found after a step that decided on it. */
  predicate Treatment(before: Pod, after: Store, k: Key, up: bool, d: Decision) {
    if !up || d == Wait then k in after && after[k] == before
    else if d == Reactivate then k in after && after[k] == Relabelled(before, "yes")
    else if d == PutAside then k in after && after[k] == Relabelled(before, "pause")
    else k !in after
  }

  lemma DecidedStrategy(pods: Store, scope: Scope, s: ActivatorStrategy, k: Key, now: int, up: bool, d: Decision)
    requires WellKeyed(pods) && k in pods && Decide(s, pods[k], now, |PausedKeys(pods, scope)|) == Ok(d)
    ensures Treatment(pods[k], AfterStrategy(pods, scope, s, pods[k], now, up), k, up, d)
  {
    OperationsWrite(pods[k], "", "", 0);
  }

  /** What becomes of a pod that a step decides on. */
  lemma DecidedStep(sv: Service, f: Fleet, i: nat, k: Key, up: bool, d: Decision)
    requires WellKeyed(f.pods) && i < |sv.activators|
    requires k in f.pods && InScope(sv.scope, f.pods[k]) && ("kubervisor/traffic", "no") in f.pods[k].labels.Items
    requires Decide(sv.activators[i], f.pods[k], f.now, |PausedKeys(f.pods, sv.scope)|) == Ok(d)
    ensures Treatment(f.pods[k], Step(sv, f, ActivatorStep(i, k, up)).pods, k, up, d)
  {
    TrafficIsLabel(f.pods[k]);
    LabelSelects(sv.scope, No, f.pods[k]);
    DecidedStrategy(f.pods, sv.scope, sv.activators[i], k, f.now, up, d);
  }

  // ---------- one accepted step, mode by mode ----------

  /** Periodic: back in traffic exactly if the period has passed since the break, however often it was retried. */
  lemma PeriodicStep(sv: Service, f: Fleet, i: nat, k: Key)
    requires WellKeyed(f.pods) && BrokenPod(sv, f, k)
    requires i < |sv.activators| && sv.activators[i].mode == Periodic && sv.activators[i].period.Some?
    ensures var g := Step(sv, f, ActivatorStep(i, k, true));
            if BreakAt(f.pods[k]).value + sv.activators[i].period.value < f.now then BackInTraffic(f, g, k) else LeftAlone(f, g, k)
  {
    var due := BreakAt(f.pods[k]).value + sv.activators[i].period.value < f.now;
    DecidedStep(sv, f, i, k, true, if due then Reactivate else Wait);
  }

  /** With retries left: back in traffic exactly if the back-off, the period times the breaks counted, has passed. */
  lemma RetryStep(sv: Service, f: Fleet, i: nat, k: Key)
    requires WellKeyed(f.pods) && BrokenPod(sv, f, k)
    requires i < |sv.activators| && sv.activators[i].mode in {RetryAndKill, RetryAndPause} && sv.activators[i].period.Some?
    requires RetryCount(f.pods[k]).value <= sv.activators[i].maxRetryCount
    ensures var g := Step(sv, f, ActivatorStep(i, k, true));
            if BreakAt(f.pods[k]).value + RetryCount(f.pods[k]).value * sv.activators[i].period.value < f.now
            then BackInTraffic(f, g, k)
            else LeftAlone(f, g, k)
  {
    var due := BreakAt(f.pods[k]).value + RetryCount(f.pods[k]).value * sv.activators[i].period.value < f.now;
    DecidedStep(sv, f, i, k, true, if due then Reactivate else Wait);
  }

  /** Without: deleted, or in RetryAndPause paused as long as fewer than MaxPauseCount pods are. */
  lemma ExhaustedStep(sv: Service, f: Fleet, i: nat, k: Key)
    requires WellKeyed(f.pods) && BrokenPod(sv, f, k)
    requires i < |sv.activators| && sv.activators[i].mode in {RetryAndKill, RetryAndPause} && sv.activators[i].period.Some?
    requires RetryCount(f.pods[k]).value > sv.activators[i].maxRetryCount
    ensures var g := Step(sv, f, ActivatorStep(i, k, true));
            if sv.activators[i].mode == RetryAndPause && |PausedKeys(f.pods, sv.scope)| < sv.activators[i].maxPauseCount
            then PutOnPause(f, g, k)
            else k !in g.pods
  {
    var pause := sv.activators[i].mode == RetryAndPause && |PausedKeys(f.pods, sv.scope)| < sv.activators[i].maxPauseCount;
    DecidedStep(sv, f, i, k, true, if pause then PutAside else Kill);
  }

  /** The paused pods that count are the managed ones labelled traffic=pause. */
  lemma PausedKeysAre(pods: Store, scope: Scope, k: Key)
    ensures k in PausedKeys(pods, scope) <==>
      && k in pods
      && (scope.namespace.Some? ==> pods[k].namespace == scope.namespace.value)
      && (forall r | r in scope.selector :: r in pods[k].labels.Items)
      && ("kubervisor/traffic", "pause") in pods[k].labels.Items
  {
    if k in pods {
      LabelSelects(scope, Paused, pods[k]);
      TrafficIsLabel(pods[k]);
    }
  }

  /**
    An unreadable annotation, a missing period, an unknown mode or a refused
    update: the pod is left alone, as is every other pod in any case.
   */
  lemma OtherStep(sv: Service, f: Fleet, i: nat, k: Key, up: bool, j: Key)
    requires WellKeyed(f.pods) && j in f.pods && i < |sv.activators|
    requires j != k || !up || BreakAt(f.pods[k]).Err? || RetryCount(f.pods[k]).Err? || sv.activators[i].period == None
             || sv.activators[i].mode == OtherMode
    ensures LeftAlone(f, Step(sv, f, ActivatorStep(i, k, up)), j)
  {
    if Enabled(sv, f, ActivatorStep(i, k, up)) {
      StrategyOnKey(f.pods, sv.scope, sv.activators[i], k, f.now, up);
    }
  }

  // ---------- whole runs ----------

  /** The step of an activator out of retries for the pod under k; pauses are made by RetryAndPause only, within its budget. */
  predicate OutOfRetries(sv: Service, f: Fleet, a: Action, k: Key, paused: bool) {
    && a.ActivatorStep? && a.key == k && a.activator < |sv.activators| && k in f.pods
    && ("kubervisor/traffic", "no") in f.pods[k].labels.Items
    && var s := sv.activators[a.activator];
    && RetryCount(f.pods[k]).Ok? && RetryCount(f.pods[k]).value > s.maxRetryCount
    && (if paused then s.mode == RetryAndPause && |PausedKeys(f.pods, sv.scope)| < s.maxPauseCount
        else s.mode == RetryAndKill || (s.mode == RetryAndPause && |PausedKeys(f.pods, sv.scope)| >= s.maxPauseCount))
  }

  predicate IsPaused(f: Fleet, k: Key) {
    k in f.pods && ("kubervisor/traffic", "pause") in f.pods[k].labels.Items
  }

  lemma TickDeparture(sv: Service, f: Fleet, a: Action, k: Key)
    requires WellKeyed(f.pods) && k in f.pods && a.BreakerTick?
    ensures k in Step(sv, f, a).pods && (IsPaused(Step(sv, f, a), k) ==> IsPaused(f, k))
  {
    if a.breaker < |sv.breakers| && a.detected.Ok? {
      var b := sv.breakers[a.breaker];
      var cut := a.detected.value[..RemoveCount(b, |TrafficKeys(f.pods, b.scope)|, |a.detected.value|)];
      CutAllOnKey(f.pods, b, cut, f.now, a.refused, k);
      TrafficIsLabel(Step(sv, f, a).pods[k]);
    }
  }

  lemma ActivatorDeparture(sv: Service, f: Fleet, i: nat, k: Key, up: bool)
    requires WellKeyed(f.pods) && Enabled(sv, f, ActivatorStep(i, k, up))
    ensures var a := ActivatorStep(i, k, up);
            var g := Step(sv, f, a);
            && (k !in g.pods ==> OutOfRetries(sv, f, a, k, false))
            && (IsPaused(g, k) && !IsPaused(f, k) ==> OutOfRetries(sv, f, a, k, true))
  {
    LabelSelects(sv.scope, No, f.pods[k]);
    TrafficIsLabel(f.pods[k]);
    match Decide(sv.activators[i], f.pods[k], f.now, |PausedKeys(f.pods, sv.scope)|)
    case Err(_) =>
    case Ok(d) => DecidedStep(sv, f, i, k, up, d);
  }

  lemma StepDeparture(sv: Service, f: Fleet, a: Action, k: Key)
    requires WellKeyed(f.pods) && k in f.pods
    ensures var g := Step(sv, f, a);
            && (k !in g.pods ==> OutOfRetries(sv, f, a, k, false))
            && (IsPaused(g, k) && !IsPaused(f, k) ==> OutOfRetries(sv, f, a, k, true))
  {
    match a
    case Pass(_) =>
    case BreakerTick(_, _, _) => TickDeparture(sv, f, a, k);
    case ActivatorStep(i, j, up) =>
      if Enabled(sv, f, a) {
        if k == j {
          ActivatorDeparture(sv, f, i, k, up);
        } else {
          OtherStep(sv, f, i, j, up, k);
        }
      }
  }

  /**
    In every run, whatever is detected and refused: a step that deletes or pauses
    a pod finds more breaks counted than that activator's MaxRetryCount.
   */
  lemma DeparturesAreExhausted(sv: Service, f: Fleet, actions: seq<Action>, k: Key)
    requires WellKeyed(f.pods) && actions != []
    ensures var before, after := Run(sv, f, FleetRuns.Init(actions)), Run(sv, f, actions);
            k in before.pods ==>
              && (k !in after.pods ==> OutOfRetries(sv, before, Last(actions), k, false))
              && (IsPaused(after, k) && !IsPaused(before, k) ==> OutOfRetries(sv, before, Last(actions), k, true))
  {
    RunKeyed(sv, f, FleetRuns.Init(actions));
    if k in Run(sv, f, FleetRuns.Init(actions)).pods {
      StepDeparture(sv, Run(sv, f, FleetRuns.Init(actions)), Last(actions), k);
    }
  }

  /** Periodic activators never delete or pause a pod. */
  lemma {:induction false} PeriodicKeeps(sv: Service, f: Fleet, actions: seq<Action>, k: Key)
    requires WellKeyed(f.pods) && k in f.pods && forall s | s in sv.activators :: s.mode == Periodic
    ensures var g := Run(sv, f, actions); k in g.pods && (IsPaused(g, k) ==> IsPaused(f, k))
  {
    if actions != [] {
      PeriodicKeeps(sv, f, FleetRuns.Init(actions), k);
      DeparturesAreExhausted(sv, f, actions, k);
    }
  }
}
