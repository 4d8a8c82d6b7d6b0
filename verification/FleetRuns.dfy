/**
  Breakers and activators of one service over an unbounded fleet, in any
  interleaving: a run is any sequence of breaker ticks, activator steps and
  passing time, with any detector answers and any API refusals. Listings are
  up to date and each breaker tick, and each activator step on one pod, is atomic.
 */
module FleetRuns {
  import opened Common
  import opened Pods
  import opened PodControl
  import opened Breaker
  import opened Activator

  datatype Service = Service(scope: Scope, breakers: seq<BreakerConfig>, activators: seq<ActivatorStrategy>)

  /** All workers of a service share its selector. */
  predicate ValidService(sv: Service) {
    forall b | b in sv.breakers :: b.scope == sv.scope
  }

  datatype Fleet = Fleet(pods: Store, now: int)

  datatype Action =
    | Pass(ms: nat)
    | BreakerTick(breaker: nat, detected: Result<seq<Pod>>, refused: set<nat>)
    | ActivatorStep(activator: nat, key: Key, up: bool)

  predicate Enabled(sv: Service, f: Fleet, a: Action) {
    match a
    case Pass(_) => true
    case BreakerTick(i, _, _) => i < |sv.breakers|
    case ActivatorStep(i, k, _) => i < |sv.activators| && k in f.pods && InScope(WithLabel(sv.scope, No), f.pods[k])
  }

  /** One step; an action that is not enabled changes nothing. */
  function Step(sv: Service, f: Fleet, a: Action): Fleet {
    if !Enabled(sv, f, a) then f
    else
      match a
      case Pass(ms) => f.(now := f.now + ms)
      case BreakerTick(i, detected, refused) =>
        f.(pods := AfterTick(f.pods, sv.breakers[i], detected, f.now, refused))
      case ActivatorStep(i, k, up) =>
        f.(pods := AfterStrategy(f.pods, sv.scope, sv.activators[i], f.pods[k], f.now, up))
  }

  function Run(sv: Service, f: Fleet, actions: seq<Action>): Fleet {
    if actions == [] then f else Step(sv, Run(sv, f, Init(actions)), Last(actions))
  }

  function Init(actions: seq<Action>): seq<Action>
    requires actions != []
  {
    actions[..|actions| - 1]
  }

  function Last(actions: seq<Action>): Action
    requires actions != []
  {
    actions[|actions| - 1]
  }

  // ---------- single steps ----------

  /** A series of cuts leaves a pod as it is or takes it out of traffic with more breaks counted. */
  lemma {:induction false} CutAllOnKey(pods: Store, b: BreakerConfig, cut: seq<Pod>, now: int, refused: set<nat>, k: Key)
    requires WellKeyed(pods) && k in pods
    ensures var after := CutAll(pods, b, cut, now, refused);
            && k in after
            && (after[k] != pods[k] ==>
                  && HasTraffic(after[k], No)
                  && RetryCount(pods[k]).Ok? && RetryCount(after[k]).Ok?
                  && RetryCount(pods[k]).value < RetryCount(after[k]).value)
  {
    CutKeepsKeys(pods, b, cut, now, refused);
    if cut != [] {
      var n := |cut| - 1;
      CutAllOnKey(pods, b, cut[..n], now, refused, k);
      CutKeepsKeys(pods, b, cut[..n], now, refused);
      var before := CutAll(pods, b, cut[..n], now, refused);
      BreakChangesOne(before, cut[n], b.kubervisorName, b.strategyName, now, n !in refused, k);
      BrokenReads(cut[n], b.kubervisorName, b.strategyName, now);
    }
  }

  lemma StrategyOnKey(pods: Store, scope: Scope, s: ActivatorStrategy, k: Key, now: int, up: bool)
    requires WellKeyed(pods) && k in pods
    ensures var after := AfterStrategy(pods, scope, s, pods[k], now, up);
            && WellKeyed(after)
            && (forall j | j in pods && j != k :: j in after && after[j] == pods[j])
            && (forall j | j in after :: j in pods)
            && (k in after ==> after[k] == pods[k] || after[k] == SetTraffic(pods[k], Yes) || after[k] == SetTraffic(pods[k], Paused))
  {
  }

  lemma StepKeyed(sv: Service, f: Fleet, a: Action)
    requires WellKeyed(f.pods)
    ensures WellKeyed(Step(sv, f, a).pods)
  {
    if Enabled(sv, f, a) {
      match a
      case Pass(_) =>
      case BreakerTick(i, detected, refused) =>
        if detected.Ok? {
          var b := sv.breakers[i];
          CutKeepsKeys(f.pods, b, detected.value[..RemoveCount(b, |TrafficKeys(f.pods, b.scope)|, |detected.value|)], f.now, refused);
        }
      case ActivatorStep(i, k, up) => StrategyOnKey(f.pods, sv.scope, sv.activators[i], k, f.now, up);
    }
  }

  lemma {:induction false} RunKeyed(sv: Service, f: Fleet, actions: seq<Action>)
    requires WellKeyed(f.pods)
    ensures WellKeyed(Run(sv, f, actions).pods)
  {
    if actions != [] {
      RunKeyed(sv, f, Init(actions));
      StepKeyed(sv, Run(sv, f, Init(actions)), Last(actions));
    }
  }

  // ---------- an activator tick is a run of its steps ----------

  function TickSteps(activator: nat, listing: seq<Pod>, refused: set<nat>): seq<Action> {
    if listing == [] then []
    else
      var n := |listing| - 1;
      TickSteps(activator, listing[..n], refused) + [ActivatorStep(activator, KeyOf(listing[n]), n !in refused)]
  }

  /** Pods of the listing that are yet to come are as they were listed. */
  ghost predicate StillListed(pods: Store, before: Store, listing: seq<Pod>) {
    WellKeyed(pods) && forall p | p in before.Values && p !in listing :: KeyOf(p) in pods && pods[KeyOf(p)] == p
  }

  lemma NextListed(pods: Store, before: Store, scope: Scope, s: ActivatorStrategy, listing: seq<Pod>, p: Pod, now: int, up: bool)
    requires WellKeyed(before) && StillListed(pods, before, listing) && p in before.Values && p !in listing
    ensures KeyOf(p) in pods && pods[KeyOf(p)] == p
    ensures StillListed(AfterStrategy(pods, scope, s, p, now, up), before, listing + [p])
  {
    StrategyOnKey(pods, scope, s, KeyOf(p), now, up);
    forall q | q in before.Values && q !in listing + [p]
      ensures q !in listing && KeyOf(q) != KeyOf(p)
    {
      assert p in listing + [p];
      ListedByKey(before, p);
      ListedByKey(before, q);
    }
  }

  lemma {:induction false} TickIsRun(sv: Service, f: Fleet, i: nat, listing: seq<Pod>, refused: set<nat>)
    requires WellKeyed(f.pods) && i < |sv.activators|
    requires NoDuplicates(listing) && forall p | p in listing :: p in f.pods.Values && InScope(WithLabel(sv.scope, No), p)
    ensures Run(sv, f, TickSteps(i, listing, refused)) == f.(pods := AfterAll(f.pods, sv.scope, sv.activators[i], listing, f.now, refused))
    ensures StillListed(AfterAll(f.pods, sv.scope, sv.activators[i], listing, f.now, refused), f.pods, listing)
  {
    forall p {
      ListedByKey(f.pods, p);
    }
    if listing != [] {
      var n := |listing| - 1;
      var init, last := listing[..n], listing[n];
      assert listing == init + [last];
      TickIsRun(sv, f, i, init, refused);
      var steps := TickSteps(i, listing, refused);
      assert Init(steps) == TickSteps(i, init, refused);
      assert Last(steps) == ActivatorStep(i, KeyOf(last), n !in refused);
      var g := Run(sv, f, Init(steps));
      assert last in listing && last !in init;
      NextListed(g.pods, f.pods, sv.scope, sv.activators[i], init, last, f.now, n !in refused);
    }
  }

  // ---------- traffic floor ----------

  function Min(a: nat, b: nat): nat {
    if a <= b then a else b
  }

  lemma StepFloor(sv: Service, f: Fleet, a: Action, least: nat)
    requires ValidService(sv) && WellKeyed(f.pods)
    requires forall b | b in sv.breakers :: least <= OrZero(b.minPodsAvailableCount)
    ensures Min(|TrafficKeys(f.pods, sv.scope)|, least) <= |TrafficKeys(Step(sv, f, a).pods, sv.scope)|
  {
    if Enabled(sv, f, a) {
      match a
      case Pass(_) =>
      case BreakerTick(i, detected, refused) =>
        assert sv.breakers[i] in sv.breakers;
        TickFloor(f.pods, sv.breakers[i], detected, f.now, refused);
      case ActivatorStep(i, k, up) =>
        StrategyOnKey(f.pods, sv.scope, sv.activators[i], k, f.now, up);
        LabelSelects(sv.scope, No, f.pods[k]);
        var after := Step(sv, f, a).pods;
        assert TrafficKeys(f.pods, sv.scope) <= TrafficKeys(after, sv.scope);
        SubsetCount(TrafficKeys(f.pods, sv.scope), TrafficKeys(after, sv.scope));
    }
  }

  /**
    Whatever the detectors answer and the API refuses, the number of managed
    ready pods with traffic never drops below the smallest minimum of the
    breakers, nor below its initial value if that is less.
   */
  lemma {:induction false} TrafficFloor(sv: Service, f: Fleet, actions: seq<Action>, least: nat)
    requires ValidService(sv) && WellKeyed(f.pods)
    requires forall b | b in sv.breakers :: least <= OrZero(b.minPodsAvailableCount)
    ensures Min(|TrafficKeys(f.pods, sv.scope)|, least) <= |TrafficKeys(Run(sv, f, actions).pods, sv.scope)|
  {
    if actions != [] {
      TrafficFloor(sv, f, Init(actions), least);
      RunKeyed(sv, f, Init(actions));
      StepFloor(sv, Run(sv, f, Init(actions)), Last(actions), least);
    }
  }

  // ---------- pause budget ----------

  function Max(a: nat, b: nat): nat {
    if a <= b then b else a
  }

  lemma CutsPauseNone(pods: Store, b: BreakerConfig, cut: seq<Pod>, now: int, refused: set<nat>, scope: Scope)
    requires WellKeyed(pods)
    ensures PausedKeys(CutAll(pods, b, cut, now, refused), scope) <= PausedKeys(pods, scope)
  {
    var after := CutAll(pods, b, cut, now, refused);
    CutKeepsKeys(pods, b, cut, now, refused);
    forall k | k in PausedKeys(after, scope)
      ensures k in PausedKeys(pods, scope)
    {
      CutAllOnKey(pods, b, cut, now, refused, k);
      LabelSelects(scope, Paused, after[k]);
    }
  }

  lemma NewlyPaused(pods: Store, scope: Scope, s: ActivatorStrategy, k: Key, now: int, up: bool, j: Key)
    requires WellKeyed(pods) && k in pods && j in PausedKeys(AfterStrategy(pods, scope, s, pods[k], now, up), scope)
    ensures j in PausedKeys(pods, scope) || (j == k && Decide(s, pods[k], now, |PausedKeys(pods, scope)|) == Ok(PutAside))
  {
    var after := AfterStrategy(pods, scope, s, pods[k], now, up);
    StrategyOnKey(pods, scope, s, k, now, up);
    if j == k && after[k] == SetTraffic(pods[k], Yes) {
      LabelSelects(scope, Paused, after[k]);
      SetTrafficReads(pods[k], Yes);
    }
  }

  /** The only pod a step can add to the paused ones is the one it decides to put aside. */
  lemma PausedAfterStrategy(pods: Store, scope: Scope, s: ActivatorStrategy, k: Key, now: int, up: bool)
    requires WellKeyed(pods) && k in pods
    ensures var aside := Decide(s, pods[k], now, |PausedKeys(pods, scope)|) == Ok(PutAside);
            PausedKeys(AfterStrategy(pods, scope, s, pods[k], now, up), scope) <= PausedKeys(pods, scope) + if aside then {k} else {}
  {
    forall j | j in PausedKeys(AfterStrategy(pods, scope, s, pods[k], now, up), scope)
      ensures j in PausedKeys(pods, scope) || (j == k && Decide(s, pods[k], now, |PausedKeys(pods, scope)|) == Ok(PutAside))
    {
      NewlyPaused(pods, scope, s, k, now, up, j);
    }
  }

  lemma AsideBelowBudget(s: ActivatorStrategy, p: Pod, now: int, paused: nat)
    requires Decide(s, p, now, paused) == Ok(PutAside)
    ensures s.mode == RetryAndPause && paused < s.maxPauseCount
  {
  }

  lemma OneMoreWithinBudget<T>(paused: set<T>, after: set<T>, more: set<T>, budget: nat)
    requires after <= paused + more && |more| <= 1 && (more != {} ==> |paused| < budget)
    ensures |after| <= Max(|paused|, budget)
  {
    SubsetCount(after, paused + more);
    assert |paused + more| <= |paused| + |more|;
  }

  lemma StrategyPauses(pods: Store, scope: Scope, s: ActivatorStrategy, k: Key, now: int, up: bool, budget: nat)
    requires WellKeyed(pods) && k in pods && (s.mode == RetryAndPause ==> s.maxPauseCount <= budget)
    ensures |PausedKeys(AfterStrategy(pods, scope, s, pods[k], now, up), scope)| <= Max(|PausedKeys(pods, scope)|, budget)
  {
    var paused, after := PausedKeys(pods, scope), PausedKeys(AfterStrategy(pods, scope, s, pods[k], now, up), scope);
    PausedAfterStrategy(pods, scope, s, k, now, up);
    if Decide(s, pods[k], now, |paused|) == Ok(PutAside) {
      AsideBelowBudget(s, pods[k], now, |paused|);
      OneMoreWithinBudget(paused, after, {k}, budget);
    } else {
      OneMoreWithinBudget(paused, after, {}, budget);
    }
  }

  /** However many exhausted pods compete, paused pods never exceed the largest MaxPauseCount, nor their initial number if that is more. */
  lemma {:induction false} PauseBudget(sv: Service, f: Fleet, actions: seq<Action>, budget: nat)
    requires WellKeyed(f.pods)
    requires forall s | s in sv.activators && s.mode == RetryAndPause :: s.maxPauseCount <= budget
    ensures |PausedKeys(Run(sv, f, actions).pods, sv.scope)| <= Max(|PausedKeys(f.pods, sv.scope)|, budget)
  {
    if actions != [] {
      PauseBudget(sv, f, Init(actions), budget);
      RunKeyed(sv, f, Init(actions));
      var g := Run(sv, f, Init(actions));
      if Enabled(sv, g, Last(actions)) {
        match Last(actions)
        case Pass(_) =>
        case BreakerTick(i, detected, refused) =>
          if detected.Ok? {
            var b := sv.breakers[i];
            var cut := detected.value[..RemoveCount(b, |TrafficKeys(g.pods, b.scope)|, |detected.value|)];
            CutsPauseNone(g.pods, b, cut, g.now, refused, sv.scope);
            SubsetCount(PausedKeys(CutAll(g.pods, b, cut, g.now, refused), sv.scope), PausedKeys(g.pods, sv.scope));
          }
        case ActivatorStep(i, k, up) =>
          assert sv.activators[i] in sv.activators;
          StrategyPauses(g.pods, sv.scope, sv.activators[i], k, g.now, up, budget);
      }
    }
  }

  // ---------- what happens to one pod ----------

  /** A successful transition: the pod under k is another one, or gone. */
  predicate Changed(f: Fleet, g: Fleet, k: Key) {
    k in f.pods && (k in g.pods ==> g.pods[k] != f.pods[k])
  }

  predicate Reactivated(f: Fleet, g: Fleet, k: Key) {
    k in f.pods && k in g.pods && !HasTraffic(f.pods[k], Yes) && HasTraffic(g.pods[k], Yes)
  }

  function One(b: bool): nat {
    if b then 1 else 0
  }

  function Changes(sv: Service, f: Fleet, actions: seq<Action>, k: Key): nat {
    if actions == [] then 0
    else Changes(sv, f, Init(actions), k) + One(Changed(Run(sv, f, Init(actions)), Run(sv, f, actions), k))
  }

  function Reactivations(sv: Service, f: Fleet, actions: seq<Action>, k: Key): nat {
    if actions == [] then 0
    else Reactivations(sv, f, Init(actions), k) + One(Reactivated(Run(sv, f, Init(actions)), Run(sv, f, actions), k))
  }

  /** Every activator gives up after at most `most` retries. */
  predicate Retrying(sv: Service, most: nat) {
    forall s | s in sv.activators :: s.mode in {RetryAndKill, RetryAndPause} && s.maxRetryCount <= most
  }

  // The ways in which a step f, g can treat the pod under k, read through its labels and annotations.

  predicate Untouched(f: Fleet, g: Fleet, k: Key) {
    k in f.pods ==> k in g.pods && g.pods[k] == f.pods[k]
  }

  predicate Killed(f: Fleet, g: Fleet, k: Key) {
    k in f.pods && k !in g.pods && HasTraffic(f.pods[k], No)
  }

  predicate SetAside(f: Fleet, g: Fleet, k: Key) {
    && k in f.pods && k in g.pods && HasTraffic(f.pods[k], No) && HasTraffic(g.pods[k], Paused)
    && RetryCount(g.pods[k]) == RetryCount(f.pods[k])
  }

  /** Retries are left and the linear back-off has passed. */
  predicate PutBack(f: Fleet, g: Fleet, k: Key, most: nat, period: nat) {
    && k in f.pods && k in g.pods && HasTraffic(f.pods[k], No) && HasTraffic(g.pods[k], Yes)
    && RetryCount(g.pods[k]) == RetryCount(f.pods[k])
    && BreakAt(f.pods[k]).Ok? && RetryCount(f.pods[k]).Ok?
    && RetryCount(f.pods[k]).value <= most
    && (0 <= RetryCount(f.pods[k]).value ==> BreakAt(f.pods[k]).value + RetryCount(f.pods[k]).value * period < f.now)
  }

  /** One break or more, from whatever traffic state. */
  predicate BrokenAnew(f: Fleet, g: Fleet, k: Key) {
    && k in f.pods && k in g.pods && HasTraffic(g.pods[k], No)
    && RetryCount(f.pods[k]).Ok? && RetryCount(g.pods[k]).Ok?
    && RetryCount(f.pods[k]).value < RetryCount(g.pods[k]).value
  }

  /** One break of a pod that took traffic. */
  predicate BrokenOnce(f: Fleet, g: Fleet, k: Key) {
    && k in f.pods && k in g.pods && HasTraffic(f.pods[k], Yes) && HasTraffic(g.pods[k], No)
    && RetryCount(f.pods[k]).Ok? && RetryCount(g.pods[k]) == Ok(RetryCount(f.pods[k]).value + 1)
    && BreakAt(g.pods[k]) == Ok(1000 * (f.now / 1000))
  }

  predicate Paced(sv: Service, period: nat) {
    forall s | s in sv.activators && s.period.Some? :: period <= s.period.value
  }

  lemma LongerPeriod(n: nat, period: nat, actual: nat)
    requires period <= actual
    ensures n * period <= n * actual
  {
    assert n * actual == n * period + n * (actual - period);
    assert 0 <= n * (actual - period);
  }

  /** What a retrying activator decides on a broken pod. */
  lemma RetryDecision(s: ActivatorStrategy, p: Pod, now: int, paused: nat, most: nat, period: nat)
    requires s.mode in {RetryAndKill, RetryAndPause} && s.maxRetryCount <= most && (s.period.Some? ==> period <= s.period.value)
    requires Decide(s, p, now, paused) == Ok(Reactivate)
    ensures BreakAt(p).Ok? && RetryCount(p).Ok? && RetryCount(p).value <= most
    ensures 0 <= RetryCount(p).value ==> BreakAt(p).value + RetryCount(p).value * period < now
  {
    if 0 <= RetryCount(p).value {
      LongerPeriod(RetryCount(p).value, period, s.period.value);
    }
  }

  /** What a retrying activator does to the pod it is applied to. */
  lemma RetryOnKey(f: Fleet, scope: Scope, s: ActivatorStrategy, k: Key, up: bool, most: nat, period: nat)
    requires WellKeyed(f.pods) && k in f.pods && HasTraffic(f.pods[k], No)
    requires s.mode in {RetryAndKill, RetryAndPause} && s.maxRetryCount <= most && (s.period.Some? ==> period <= s.period.value)
    ensures var g := f.(pods := AfterStrategy(f.pods, scope, s, f.pods[k], f.now, up));
            Untouched(f, g, k) || Killed(f, g, k) || SetAside(f, g, k) || PutBack(f, g, k, most, period)
  {
    var p := f.pods[k];
    var decision := Decide(s, p, f.now, |PausedKeys(f.pods, scope)|);
    SetTrafficReads(p, Yes);
    SetTrafficReads(p, Paused);
    if decision == Ok(Reactivate) {
      RetryDecision(s, p, f.now, |PausedKeys(f.pods, scope)|, most, period);
    }
  }

  lemma ActivatorOnKey(sv: Service, f: Fleet, a: Action, k: Key, most: nat, period: nat)
    requires WellKeyed(f.pods) && Retrying(sv, most) && Paced(sv, period) && a.ActivatorStep?
    ensures var g := Step(sv, f, a);
            && (k in g.pods ==> k in f.pods)
            && (Untouched(f, g, k) || Killed(f, g, k) || SetAside(f, g, k) || PutBack(f, g, k, most, period))
  {
    if Enabled(sv, f, a) {
      var s := sv.activators[a.activator];
      assert s in sv.activators;
      StrategyOnKey(f.pods, sv.scope, s, a.key, f.now, a.up);
      if k == a.key {
        LabelSelects(sv.scope, No, f.pods[k]);
        RetryOnKey(f, sv.scope, s, k, a.up, most, period);
      }
    }
  }

  /** Breaker ticks and activator steps with any detector. */
  lemma StepOnKey(sv: Service, f: Fleet, a: Action, k: Key, most: nat, period: nat)
    requires WellKeyed(f.pods) && Retrying(sv, most) && Paced(sv, period)
    ensures var g := Step(sv, f, a);
            && (k in g.pods ==> k in f.pods)
            && (Untouched(f, g, k) || Killed(f, g, k) || SetAside(f, g, k) || PutBack(f, g, k, most, period) || BrokenAnew(f, g, k))
  {
    match a
    case Pass(_) =>
    case BreakerTick(i, detected, refused) =>
      if i < |sv.breakers| && detected.Ok? {
        var b := sv.breakers[i];
        var cut := detected.value[..RemoveCount(b, |TrafficKeys(f.pods, b.scope)|, |detected.value|)];
        CutKeepsKeys(f.pods, b, cut, f.now, refused);
        if k in f.pods {
          CutAllOnKey(f.pods, b, cut, f.now, refused, k);
        }
      }
    case ActivatorStep(_, _, _) => ActivatorOnKey(sv, f, a, k, most, period);
  }

  // ---------- reactivation bound ----------

  /** Breaks counted on the pod cover its reactivations and its present stay out of traffic. */
  predicate Covered(f: Fleet, k: Key, reactivations: nat) {
    k in f.pods && RetryCount(f.pods[k]).Ok? ==> reactivations + One(HasTraffic(f.pods[k], No)) <= RetryCount(f.pods[k]).value
  }

  lemma KeyCovered(f: Fleet, g: Fleet, k: Key, r: nat, most: nat)
    requires Covered(f, k, r) && r <= most && (k in g.pods ==> k in f.pods)
    requires Untouched(f, g, k) || Killed(f, g, k) || SetAside(f, g, k) || PutBack(f, g, k, most, 0) || BrokenAnew(f, g, k)
    ensures var r' := r + One(Reactivated(f, g, k)); Covered(g, k, r') && r' <= most
  {
  }

  /**
    When all activators retry a bounded number of times, a pod that starts
    unbroken is put back in traffic at most that often, whatever is detected.
   */
  lemma {:induction false} ReactivationBound(sv: Service, f: Fleet, actions: seq<Action>, k: Key, most: nat)
    requires WellKeyed(f.pods) && Retrying(sv, most)
    requires k in f.pods ==> !HasTraffic(f.pods[k], No) && (RetryCount(f.pods[k]).Ok? ==> 0 <= RetryCount(f.pods[k]).value)
    ensures Covered(Run(sv, f, actions), k, Reactivations(sv, f, actions, k))
    ensures Reactivations(sv, f, actions, k) <= most
  {
    if actions != [] {
      ReactivationBound(sv, f, Init(actions), k, most);
      RunKeyed(sv, f, Init(actions));
      var g := Run(sv, f, Init(actions));
      StepOnKey(sv, g, Last(actions), k, most, 0);
      KeyCovered(g, Step(sv, g, Last(actions)), k, Reactivations(sv, f, Init(actions), k), most);
    }
  }

  // ---------- progress ----------

  /** A retrying activator is to act on this broken pod: its retries are used up, or its back-off has passed. */
  predicate Due(s: ActivatorStrategy, p: Pod, now: int) {
    && s.mode in {RetryAndKill, RetryAndPause} && s.period.Some? && BreakAt(p).Ok? && RetryCount(p).Ok?
    && (RetryCount(p).value > s.maxRetryCount || BreakAt(p).value + RetryCount(p).value * s.period.value < now)
  }

  /** What it then does. */
  function DueDecision(s: ActivatorStrategy, retryCount: int, paused: nat): Decision {
    if retryCount <= s.maxRetryCount then Reactivate
    else if s.mode == RetryAndPause && paused < s.maxPauseCount then PutAside
    else Kill
  }

  lemma DecideWhenDue(s: ActivatorStrategy, p: Pod, now: int, paused: nat)
    requires Due(s, p, now)
    ensures Decide(s, p, now, paused) == Ok(DueDecision(s, RetryCount(p).value, paused))
  {
  }

  /** How a due pod is found after a step. */
  predicate Treated(before: Pod, after: Store, k: Key, d: Decision) {
    match d
    case Reactivate => k in after && after[k] == SetTraffic(before, Yes)
    case PutAside => k in after && after[k] == SetTraffic(before, Paused)
    case Kill => k !in after
    case Wait => false
  }

  lemma DueStep(sv: Service, f: Fleet, i: nat, k: Key)
    requires WellKeyed(f.pods) && i < |sv.activators| && k in f.pods
    requires InScope(sv.scope, f.pods[k]) && HasTraffic(f.pods[k], No) && Due(sv.activators[i], f.pods[k], f.now)
    ensures Treated(f.pods[k], Step(sv, f, ActivatorStep(i, k, true)).pods, k,
                    DueDecision(sv.activators[i], RetryCount(f.pods[k]).value, |PausedKeys(f.pods, sv.scope)|))
  {
    LabelSelects(sv.scope, No, f.pods[k]);
    DecideWhenDue(sv.activators[i], f.pods[k], f.now, |PausedKeys(f.pods, sv.scope)|);
  }

  lemma {:induction false} UnchangedPod(sv: Service, f: Fleet, actions: seq<Action>, k: Key)
    requires k in f.pods && Changes(sv, f, actions, k) == 0
    ensures k in Run(sv, f, actions).pods && Run(sv, f, actions).pods[k] == f.pods[k]
  {
    if actions != [] {
      UnchangedPod(sv, f, Init(actions), k);
    }
  }

  /**
    Whatever happens meanwhile, a pod that was broken has changed once a retrying
    activator that finds it due has made an accepted step.
   */
  lemma BrokenPodLeaves(sv: Service, f: Fleet, actions: seq<Action>, i: nat, k: Key)
    requires WellKeyed(f.pods) && k in f.pods && InScope(sv.scope, f.pods[k]) && HasTraffic(f.pods[k], No)
    requires i < |sv.activators| && actions != [] && Last(actions) == ActivatorStep(i, k, true)
    requires Due(sv.activators[i], f.pods[k], Run(sv, f, Init(actions)).now)
    ensures 1 <= Changes(sv, f, actions, k)
    ensures Changes(sv, f, Init(actions), k) == 0 ==>
      Treated(f.pods[k], Run(sv, f, actions).pods, k,
              DueDecision(sv.activators[i], RetryCount(f.pods[k]).value, |PausedKeys(Run(sv, f, Init(actions)).pods, sv.scope)|))
  {
    if Changes(sv, f, Init(actions), k) == 0 {
      UnchangedPod(sv, f, Init(actions), k);
      RunKeyed(sv, f, Init(actions));
      DueStep(sv, Run(sv, f, Init(actions)), i, k);
      TreatedChanges(f.pods[k]);
    }
  }

  lemma TreatedChanges(p: Pod)
    requires HasTraffic(p, No)
    ensures SetTraffic(p, Yes) != p && SetTraffic(p, Paused) != p
  {
    SetTrafficReads(p, Yes);
    SetTrafficReads(p, Paused);
  }

  /** What is left of a listing of due pods after a tick in which every update is accepted. */
  lemma {:induction false} AllTreated(pods: Store, scope: Scope, s: ActivatorStrategy, listing: seq<Pod>, now: int)
    requires WellKeyed(pods) && NoDuplicates(listing)
    requires forall p | p in listing :: p in pods.Values && HasTraffic(p, No) && Due(s, p, now)
    ensures var after := AfterAll(pods, scope, s, listing, now, {});
            && WellKeyed(after)
            && (forall k | k in after :: k in pods && if pods[k] in listing then !HasTraffic(after[k], No) else after[k] == pods[k])
            && (forall k | k in pods && pods[k] !in listing :: k in after)
  {
    if listing != [] {
      var init, p := listing[..|listing| - 1], listing[|listing| - 1];
      assert listing == init + [p];
      assert p in listing && p !in init;
      AllTreated(pods, scope, s, init, now);
      ListedByKey(pods, p);
      var before := AfterAll(pods, scope, s, init, now, {});
      TreatedOne(before, scope, s, KeyOf(p), now);
    }
  }

  lemma TreatedOne(pods: Store, scope: Scope, s: ActivatorStrategy, k: Key, now: int)
    requires WellKeyed(pods) && k in pods && Due(s, pods[k], now)
    ensures var after := AfterStrategy(pods, scope, s, pods[k], now, true);
            && WellKeyed(after)
            && (k in after ==> !HasTraffic(after[k], No))
            && (forall j | j != k :: (j in after <==> j in pods) && (j in after ==> after[j] == pods[j]))
  {
    StrategyOnKey(pods, scope, s, k, now, true);
    DecideWhenDue(s, pods[k], now, |PausedKeys(pods, scope)|);
    SetTrafficReads(pods[k], Yes);
    SetTrafficReads(pods[k], Paused);
  }

  predicate NoneBroken(pods: Store, scope: Scope) {
    forall k | k in pods :: !(InScope(scope, pods[k]) && HasTraffic(pods[k], No))
  }

  /**
    After one tick of a retrying activator that finds all broken pods due and
    whose updates are accepted, no managed pod is left with traffic=no, and no
    other pod has changed.
   */
  lemma TickClears(sv: Service, f: Fleet, i: nat, listing: seq<Pod>)
    requires WellKeyed(f.pods) && i < |sv.activators| && IsListing(f.pods, WithLabel(sv.scope, No), listing)
    requires forall p | p in listing :: Due(sv.activators[i], p, f.now)
    ensures var after := Run(sv, f, TickSteps(i, listing, {})).pods;
            && NoneBroken(after, sv.scope)
            && (forall k | k in f.pods && !(InScope(sv.scope, f.pods[k]) && HasTraffic(f.pods[k], No)) ::
                  k in after && after[k] == f.pods[k])
  {
    forall p
      ensures p in listing <==> p in f.pods.Values && InScope(sv.scope, p) && HasTraffic(p, No)
    {
      LabelSelects(sv.scope, No, p);
    }
    TickIsRun(sv, f, i, listing, {});
    AllTreated(f.pods, sv.scope, sv.activators[i], listing, f.now);
    assert forall k | k in f.pods :: f.pods[k] in f.pods.Values;
  }

  // ---------- termination ----------

  predicate TrafficOnly(a: Action) {
    a.BreakerTick? && a.detected.Ok? ==> forall p | p in a.detected.value :: HasTraffic(p, Yes)
  }

  /** The detectors only name pods that take traffic, as the built-in ones do. */
  predicate CutsOnlyTraffic(actions: seq<Action>) {
    forall a | a in actions :: TrafficOnly(a)
  }

  /** Then a tick breaks a pod at most once, and only from traffic=yes. */
  lemma {:induction false} CutAllOnce(pods: Store, b: BreakerConfig, cut: seq<Pod>, now: int, refused: set<nat>, k: Key)
    requires WellKeyed(pods) && k in pods && forall p | p in cut :: HasTraffic(p, Yes)
    ensures var after := CutAll(pods, b, cut, now, refused);
            && k in after
            && (after[k] == pods[k] || (HasTraffic(pods[k], Yes) && Broken(pods[k], b.kubervisorName, b.strategyName, now) == Ok(after[k])))
  {
    CutKeepsKeys(pods, b, cut, now, refused);
    if cut != [] {
      var n := |cut| - 1;
      assert forall p | p in cut[..n] :: p in cut;
      assert cut[n] in cut;
      CutAllOnce(pods, b, cut[..n], now, refused, k);
      CutKeepsKeys(pods, b, cut[..n], now, refused);
      BreakChangesOne(CutAll(pods, b, cut[..n], now, refused), cut[n], b.kubervisorName, b.strategyName, now, n !in refused, k);
      BrokenReads(pods[k], b.kubervisorName, b.strategyName, now);
    }
  }

  lemma BrokenOnceReads(f: Fleet, g: Fleet, k: Key, name: string, strategy: string)
    requires k in f.pods && k in g.pods && HasTraffic(f.pods[k], Yes)
    requires Broken(f.pods[k], name, strategy, f.now) == Ok(g.pods[k])
    ensures BrokenOnce(f, g, k)
  {
    BrokenReads(f.pods[k], name, strategy, f.now);
  }

  lemma TickOnKey(sv: Service, f: Fleet, a: Action, k: Key)
    requires WellKeyed(f.pods) && a.BreakerTick? && TrafficOnly(a)
    ensures var g := Step(sv, f, a); (k in g.pods ==> k in f.pods) && (Untouched(f, g, k) || BrokenOnce(f, g, k))
  {
    if a.breaker < |sv.breakers| && a.detected.Ok? {
      var b := sv.breakers[a.breaker];
      var cut := a.detected.value[..RemoveCount(b, |TrafficKeys(f.pods, b.scope)|, |a.detected.value|)];
      assert forall p | p in cut :: p in a.detected.value;
      CutKeepsKeys(f.pods, b, cut, f.now, a.refused);
      if k in f.pods {
        CutAllOnce(f.pods, b, cut, f.now, a.refused, k);
        var g := Step(sv, f, a);
        if g.pods[k] != f.pods[k] {
          BrokenOnceReads(f, g, k, b.kubervisorName, b.strategyName);
        }
      }
    }
  }

  /** Every step when only pods with traffic are cut. */
  lemma TrafficStepOnKey(sv: Service, f: Fleet, a: Action, k: Key, most: nat, period: nat)
    requires WellKeyed(f.pods) && Retrying(sv, most) && Paced(sv, period) && TrafficOnly(a)
    ensures var g := Step(sv, f, a);
            && (k in g.pods ==> k in f.pods)
            && (Untouched(f, g, k) || Killed(f, g, k) || SetAside(f, g, k) || PutBack(f, g, k, most, period) || BrokenOnce(f, g, k))
  {
    match a
    case Pass(_) =>
    case BreakerTick(_, _, _) => TickOnKey(sv, f, a, k);
    case ActivatorStep(_, _, _) => ActivatorOnKey(sv, f, a, k, most, period);
  }

  /** Transitions a pod may still undergo: a measure that every transition decreases. */
  function Left(f: Fleet, k: Key, most: nat): int {
    if k !in f.pods || RetryCount(f.pods[k]).Err? then 0
    else
      var c := RetryCount(f.pods[k]).value;
      if HasTraffic(f.pods[k], Yes) then 2 * (most + 1 - c)
      else if HasTraffic(f.pods[k], No) then 2 * (most + 1 - c) + 1
      else 0
  }

  predicate Bounded(f: Fleet, k: Key, most: nat) {
    k in f.pods ==>
      && RetryCount(f.pods[k]).Ok?
      && (HasTraffic(f.pods[k], Yes) ==> 0 <= RetryCount(f.pods[k]).value <= most)
      && (HasTraffic(f.pods[k], No) ==> 1 <= RetryCount(f.pods[k]).value <= most + 1)
  }

  lemma KeyLeft(f: Fleet, g: Fleet, k: Key, most: nat)
    requires Bounded(f, k, most) && (k in g.pods ==> k in f.pods)
    requires Untouched(f, g, k) || Killed(f, g, k) || SetAside(f, g, k) || PutBack(f, g, k, most, 0) || BrokenOnce(f, g, k)
    ensures Bounded(g, k, most) && 0 <= Left(g, k, most)
    ensures Left(g, k, most) + One(Changed(f, g, k)) <= Left(f, k, most)
  {
  }

  predicate Fresh(f: Fleet, k: Key) {
    k in f.pods ==> HasTraffic(f.pods[k], Yes) && RetryCount(f.pods[k]) == Ok(0)
  }

  lemma {:induction false} LeftDecreases(sv: Service, f: Fleet, actions: seq<Action>, k: Key, most: nat)
    requires WellKeyed(f.pods) && Retrying(sv, most) && CutsOnlyTraffic(actions) && Fresh(f, k)
    ensures var g := Run(sv, f, actions);
            && Bounded(g, k, most) && 0 <= Left(g, k, most)
            && Changes(sv, f, actions, k) + Left(g, k, most) <= 2 * most + 2
  {
    if actions != [] {
      assert forall a | a in Init(actions) :: a in actions;
      assert Last(actions) in actions;
      LeftDecreases(sv, f, Init(actions), k, most);
      RunKeyed(sv, f, Init(actions));
      var g := Run(sv, f, Init(actions));
      TrafficStepOnKey(sv, g, Last(actions), k, most, 0);
      KeyLeft(g, Step(sv, g, Last(actions)), k, most);
    }
  }

  predicate TakenOut(f: Fleet, g: Fleet, k: Key) {
    k in f.pods && k in g.pods && HasTraffic(f.pods[k], Yes) && HasTraffic(g.pods[k], No)
  }

  /** The pod is paused or deleted. */
  predicate Departed(f: Fleet, g: Fleet, k: Key) {
    k in f.pods && !HasTraffic(f.pods[k], Paused) && (k in g.pods ==> HasTraffic(g.pods[k], Paused))
  }

  function Breaks(sv: Service, f: Fleet, actions: seq<Action>, k: Key): nat {
    if actions == [] then 0
    else Breaks(sv, f, Init(actions), k) + One(TakenOut(Run(sv, f, Init(actions)), Run(sv, f, actions), k))
  }

  function Departures(sv: Service, f: Fleet, actions: seq<Action>, k: Key): nat {
    if actions == [] then 0
    else Departures(sv, f, Init(actions), k) + One(Departed(Run(sv, f, Init(actions)), Run(sv, f, actions), k))
  }

  /** How often a pod changed, and in which ways. */
  datatype Tally = Tally(changes: nat, breaks: nat, reactivations: nat, departures: nat)

  function TallyOf(sv: Service, f: Fleet, actions: seq<Action>, k: Key): Tally {
    Tally(Changes(sv, f, actions, k), Breaks(sv, f, actions, k), Reactivations(sv, f, actions, k), Departures(sv, f, actions, k))
  }

  function Counting(t: Tally, f: Fleet, g: Fleet, k: Key): Tally {
    Tally(t.changes + One(Changed(f, g, k)), t.breaks + One(TakenOut(f, g, k)),
          t.reactivations + One(Reactivated(f, g, k)), t.departures + One(Departed(f, g, k)))
  }

  lemma TallyGrows(sv: Service, f: Fleet, actions: seq<Action>, k: Key)
    requires actions != []
    ensures TallyOf(sv, f, actions, k)
         == Counting(TallyOf(sv, f, Init(actions), k), Run(sv, f, Init(actions)), Step(sv, Run(sv, f, Init(actions)), Last(actions)), k)
  {
  }

  predicate WithinLimits(t: Tally, most: nat) {
    && t.changes == t.breaks + t.reactivations + t.departures
    && t.breaks <= most + 1 && t.reactivations <= most && t.departures <= 1
  }

  /** The pod's state tells its breaks, reactivations and departures. */
  predicate Split(f: Fleet, k: Key, t: Tally) {
    k in f.pods ==>
      && TrafficOf(f.pods[k]).Ok?
      && (HasTraffic(f.pods[k], Yes) ==> RetryCount(f.pods[k]) == Ok(t.breaks) && t.breaks == t.reactivations && t.departures == 0)
      && (HasTraffic(f.pods[k], No) ==> RetryCount(f.pods[k]) == Ok(t.breaks) && t.breaks == t.reactivations + 1 && t.departures == 0)
  }

  lemma KeySplit(f: Fleet, g: Fleet, k: Key, most: nat, t: Tally)
    requires Split(f, k, t) && WithinLimits(t, most) && Bounded(g, k, most) && (k in g.pods ==> k in f.pods)
    requires Untouched(f, g, k) || Killed(f, g, k) || SetAside(f, g, k) || PutBack(f, g, k, most, 0) || BrokenOnce(f, g, k)
    ensures Split(g, k, Counting(t, f, g, k)) && WithinLimits(Counting(t, f, g, k), most)
  {
  }

  lemma StepSplit(sv: Service, f: Fleet, a: Action, k: Key, most: nat, t: Tally)
    requires WellKeyed(f.pods) && Retrying(sv, most) && TrafficOnly(a) && Bounded(f, k, most)
    requires Split(f, k, t) && WithinLimits(t, most)
    ensures Split(Step(sv, f, a), k, Counting(t, f, Step(sv, f, a), k)) && WithinLimits(Counting(t, f, Step(sv, f, a), k), most)
  {
    var g := Step(sv, f, a);
    TrafficStepOnKey(sv, f, a, k, most, 0);
    KeyLeft(f, g, k, most);
    KeySplit(f, g, k, most, t);
  }

  lemma {:induction false} TransitionsSplit(sv: Service, f: Fleet, actions: seq<Action>, k: Key, most: nat)
    requires WellKeyed(f.pods) && Retrying(sv, most) && CutsOnlyTraffic(actions) && Fresh(f, k)
    ensures Split(Run(sv, f, actions), k, TallyOf(sv, f, actions, k)) && WithinLimits(TallyOf(sv, f, actions, k), most)
  {
    if actions != [] {
      var init, last := Init(actions), Last(actions);
      assert forall a | a in init :: a in actions;
      assert last in actions;
      TransitionsSplit(sv, f, init, k, most);
      RunKeyed(sv, f, init);
      LeftDecreases(sv, f, init, k, most);
      StepSplit(sv, Run(sv, f, init), last, k, most, TallyOf(sv, f, init, k));
      TallyGrows(sv, f, actions, k);
    }
  }

  /** A fresh pod undergoes at most MaxRetryCount + 1 breaks, MaxRetryCount reactivations and one pause or deletion, and nothing else. */
  lemma Termination(sv: Service, f: Fleet, actions: seq<Action>, k: Key, most: nat)
    requires WellKeyed(f.pods) && Retrying(sv, most) && CutsOnlyTraffic(actions) && Fresh(f, k)
    ensures Changes(sv, f, actions, k) == Breaks(sv, f, actions, k) + Reactivations(sv, f, actions, k) + Departures(sv, f, actions, k)
    ensures Breaks(sv, f, actions, k) <= most + 1 && Reactivations(sv, f, actions, k) <= most && Departures(sv, f, actions, k) <= 1
    ensures Changes(sv, f, actions, k) <= 2 * most + 2
  {
    TransitionsSplit(sv, f, actions, k, most);
  }

  // ---------- back-off ----------

  /** The last break after a step: this one, if it takes the pod out of traffic. */
  function BreakTime(f: Fleet, g: Fleet, k: Key, last: int): int {
    if k in f.pods && k in g.pods && HasTraffic(f.pods[k], Yes) && HasTraffic(g.pods[k], No) then f.now else last
  }

  /** When the pod under k was last taken out of traffic. */
  function LastBreak(sv: Service, f: Fleet, actions: seq<Action>, k: Key): int {
    if actions == [] then 0
    else
      var before, after := Run(sv, f, Init(actions)), Run(sv, f, actions);
      BreakTime(before, after, k, LastBreak(sv, f, Init(actions), k))
  }

  /** Total time between the breaks of the pod and the reactivations that ended them. */
  function Outage(sv: Service, f: Fleet, actions: seq<Action>, k: Key): int {
    if actions == [] then 0
    else
      var before, after := Run(sv, f, Init(actions)), Run(sv, f, actions);
      Outage(sv, f, Init(actions), k) + Waited(before, after, k, LastBreak(sv, f, Init(actions), k))
  }

  /** period + 2 * period + ... + n * period. */
  function BackOff(period: nat, n: nat): nat {
    if n == 0 then 0 else BackOff(period, n - 1) + RetryWait(period, n)
  }

  /** How long the n-th break lasts at least. */
  function RetryWait(period: nat, n: nat): nat {
    n * period
  }

  lemma {:induction false} BackOffSum(period: nat, n: nat)
    ensures 2 * BackOff(period, n) == period * n * (n + 1)
  {
    if n != 0 {
      BackOffSum(period, n - 1);
      assert period * n * (n + 1) == period * (n - 1) * n + 2 * (n * period);
    }
  }

  /** The pod's annotations tell how often it was reactivated and, to the second, when it was last broken. */
  predicate Tracked(f: Fleet, k: Key, reactivations: nat, lastBreak: int) {
    k in f.pods ==>
      && TrafficOf(f.pods[k]).Ok?
      && (HasTraffic(f.pods[k], Yes) ==> RetryCount(f.pods[k]) == Ok(reactivations))
      && (HasTraffic(f.pods[k], No) ==>
            RetryCount(f.pods[k]) == Ok(reactivations + 1) && BreakAt(f.pods[k]) == Ok(1000 * (lastBreak / 1000)))
  }

  lemma KeyTracked(f: Fleet, g: Fleet, k: Key, r: nat, last: int, most: nat, period: nat)
    requires Tracked(f, k, r, last) && (k in g.pods ==> k in f.pods)
    requires Untouched(f, g, k) || Killed(f, g, k) || SetAside(f, g, k) || PutBack(f, g, k, most, period) || BrokenOnce(f, g, k)
    ensures Tracked(g, k, r + One(Reactivated(f, g, k)), BreakTime(f, g, k, last))
    ensures Reactivated(f, g, k) ==> RetryWait(period, r + 1) - 998 <= f.now - last
  {
  }

  /** The time a reactivated pod was out of traffic. */
  function Waited(f: Fleet, g: Fleet, k: Key, lastBreak: int): int {
    if Reactivated(f, g, k) then f.now - lastBreak else 0
  }

  datatype Ledger = Ledger(reactivations: nat, lastBreak: int, outage: int)

  function LedgerOf(sv: Service, f: Fleet, actions: seq<Action>, k: Key): Ledger {
    Ledger(Reactivations(sv, f, actions, k), LastBreak(sv, f, actions, k), Outage(sv, f, actions, k))
  }

  function Entered(l: Ledger, f: Fleet, g: Fleet, k: Key): Ledger {
    Ledger(l.reactivations + One(Reactivated(f, g, k)), BreakTime(f, g, k, l.lastBreak), l.outage + Waited(f, g, k, l.lastBreak))
  }

  lemma LedgerGrows(sv: Service, f: Fleet, actions: seq<Action>, k: Key)
    requires actions != []
    ensures LedgerOf(sv, f, actions, k)
         == Entered(LedgerOf(sv, f, Init(actions), k), Run(sv, f, Init(actions)), Step(sv, Run(sv, f, Init(actions)), Last(actions)), k)
  {
  }

  /** So far, reactivations have come no earlier than the back-off allows. */
  predicate BackedOff(f: Fleet, k: Key, period: nat, l: Ledger) {
    Tracked(f, k, l.reactivations, l.lastBreak) && BackOff(period, l.reactivations) - 998 * l.reactivations <= l.outage
  }

  lemma KeyBackedOff(f: Fleet, g: Fleet, k: Key, period: nat, l: Ledger)
    requires BackedOff(f, k, period, l)
    requires Tracked(g, k, l.reactivations + One(Reactivated(f, g, k)), BreakTime(f, g, k, l.lastBreak))
    requires Reactivated(f, g, k) ==> RetryWait(period, l.reactivations + 1) - 998 <= f.now - l.lastBreak
    ensures BackedOff(g, k, period, Entered(l, f, g, k))
  {
    assert BackOff(period, l.reactivations + 1) == BackOff(period, l.reactivations) + RetryWait(period, l.reactivations + 1);
  }

  lemma StepBackedOff(sv: Service, f: Fleet, a: Action, k: Key, most: nat, period: nat, l: Ledger)
    requires WellKeyed(f.pods) && Retrying(sv, most) && Paced(sv, period) && TrafficOnly(a) && BackedOff(f, k, period, l)
    ensures BackedOff(Step(sv, f, a), k, period, Entered(l, f, Step(sv, f, a), k))
  {
    TrafficStepOnKey(sv, f, a, k, most, period);
    KeyTracked(f, Step(sv, f, a), k, l.reactivations, l.lastBreak, most, period);
    KeyBackedOff(f, Step(sv, f, a), k, period, l);
  }

  lemma {:induction false} OutageGrows(sv: Service, f: Fleet, actions: seq<Action>, k: Key, most: nat, period: nat)
    requires WellKeyed(f.pods) && Retrying(sv, most) && Paced(sv, period) && CutsOnlyTraffic(actions) && Fresh(f, k)
    ensures BackedOff(Run(sv, f, actions), k, period, LedgerOf(sv, f, actions, k))
  {
    if actions != [] {
      var init, last := Init(actions), Last(actions);
      assert forall a | a in init :: a in actions;
      assert last in actions;
      OutageGrows(sv, f, init, k, most, period);
      RunKeyed(sv, f, init);
      StepBackedOff(sv, Run(sv, f, init), last, k, most, period, LedgerOf(sv, f, init, k));
      LedgerGrows(sv, f, actions, k);
    }
  }

  /**
    A fresh pod put back in traffic r times has been out of traffic for
    period * r * (r + 1) / 2 (BackOffSum) less at most 998 milliseconds each
    time: the breakAt annotation loses up to 999, and the check is strict.
   */
  lemma BackOffTotal(sv: Service, f: Fleet, actions: seq<Action>, k: Key, most: nat, period: nat)
    requires WellKeyed(f.pods) && Retrying(sv, most) && Paced(sv, period) && CutsOnlyTraffic(actions) && Fresh(f, k)
    ensures BackOff(period, Reactivations(sv, f, actions, k)) - 998 * Reactivations(sv, f, actions, k) <= Outage(sv, f, actions, k)
  {
    OutageGrows(sv, f, actions, k, most, period);
  }
}
