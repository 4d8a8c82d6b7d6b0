/**
  The built-in discrete anomaly detector: `buildCounters`
  (pkg/anomalydetector/prometheus.go) and `GetPodsOutOfBounds`
  (pkg/anomalydetector/discretevalueanalyser.go).
 */
module Detector {
  import opened Common
  import opened Pods

  datatype Sample = Sample(metric: map<string, string>, value: real)
  datatype Counter = Counter(ok: nat, ko: nat)

  /** `negative` is what the platform makes of a negative sample that is converted to an unsigned integer. */
  datatype DiscreteConfig = DiscreteConfig(
    negative: real -> nat,
    podNameKey: string,
    key: string,
    goodValues: seq<string>,
    badValues: seq<string>,
    tolerance: nat,
    minActivity: nat)

  function Label(s: Sample, key: string): string {
    if key in s.metric then s.metric[key] else ""
  }

  /** `valueCheckerFunc`: the good values include; without any, the bad ones exclude. */
  predicate IsGood(c: DiscreteConfig, value: string) {
    if c.goodValues == [] && c.badValues != [] then value !in c.badValues else value in c.goodValues
  }

  /** `uint(sample.Value)`. */
  function Amount(c: DiscreteConfig, s: Sample): (amount: nat)
    ensures 0.0 <= s.value ==> amount as real <= s.value < amount as real + 1.0
  {
    if s.value < 0.0 then c.negative(s.value) else s.value.Floor
  }

  function AmountWeight(c: DiscreteConfig): Sample -> nat {
    s => Amount(c, s)
  }

  // ---------- sums over a vector of samples ----------

  function Total(vector: seq<Sample>, weight: Sample -> nat): nat {
    if vector == [] then 0 else Total(vector[..|vector| - 1], weight) + weight(vector[|vector| - 1])
  }

  function OkWeight(c: DiscreteConfig, pod: string): Sample -> nat {
    s => if Label(s, c.podNameKey) == pod && IsGood(c, Label(s, c.key)) then Amount(c, s) else 0
  }

  function KoWeight(c: DiscreteConfig, pod: string): Sample -> nat {
    s => if Label(s, c.podNameKey) == pod && !IsGood(c, Label(s, c.key)) then Amount(c, s) else 0
  }

  /** What a pod's samples add up to. */
  function CounterOf(c: DiscreteConfig, vector: seq<Sample>, pod: string): Counter {
    Counter(Total(vector, OkWeight(c, pod)), Total(vector, KoWeight(c, pod)))
  }

  predicate Reports(c: DiscreteConfig, vector: seq<Sample>, pod: string) {
    exists s :: s in vector && Label(s, c.podNameKey) == pod
  }

  /** One more sample counts for the pod it names, and for no other. */
  lemma SampleCounts(c: DiscreteConfig, vector: seq<Sample>, s: Sample, pod: string)
    ensures var before, after := CounterOf(c, vector, pod), CounterOf(c, vector + [s], pod);
            after == if Label(s, c.podNameKey) != pod then before
                     else if IsGood(c, Label(s, c.key)) then before.(ok := before.ok + Amount(c, s))
                     else before.(ko := before.ko + Amount(c, s))
    ensures Reports(c, vector + [s], pod) <==> Reports(c, vector, pod) || Label(s, c.podNameKey) == pod
  {
    assert (vector + [s])[..|vector|] == vector;
    assert s in vector + [s];
  }

  /** The map the accumulation has reached, pod by pod. */
  ghost predicate Counted(c: DiscreteConfig, vector: seq<Sample>, counters: map<string, Counter>, pod: string) {
    && (pod in counters <==> Reports(c, vector, pod))
    && CounterOf(c, vector, pod) == if pod in counters then counters[pod] else Counter(0, 0)
  }

  method BuildCounters(c: DiscreteConfig, vector: seq<Sample>) returns (counters: map<string, Counter>)
    ensures forall pod :: Counted(c, vector, counters, pod)
  {
    counters := map[];
    for i := 0 to |vector|
      invariant forall pod :: Counted(c, vector[..i], counters, pod)
    {
      var sample := vector[i];
      var podName := Label(sample, c.podNameKey);
      assert Counted(c, vector[..i], counters, podName);
      var counter := if podName in counters then counters[podName] else Counter(0, 0);
      if IsGood(c, Label(sample, c.key)) {
        counter := counter.(ok := counter.ok + Amount(c, sample));
      } else {
        counter := counter.(ko := counter.ko + Amount(c, sample));
      }
      var updated := counters[podName := counter];
      ghost var seen := vector[..i + 1];
      assert seen == vector[..i] + [sample];
      forall pod
        ensures Counted(c, seen, updated, pod)
      {
        assert Counted(c, vector[..i], counters, pod);
        SampleCounts(c, vector[..i], sample, pod);
      }
      counters := updated;
    }
    assert vector[..|vector|] == vector;
  }

  lemma {:induction false} TotalWithout(vector: seq<Sample>, i: nat, weight: Sample -> nat)
    requires i < |vector|
    ensures Total(vector, weight) == Total(vector[..i] + vector[i + 1..], weight) + weight(vector[i])
  {
    var init := vector[..|vector| - 1];
    if i == |vector| - 1 {
      assert vector[..i] + vector[i + 1..] == init;
    } else {
      TotalWithout(init, i, weight);
      var rest := vector[..i] + vector[i + 1..];
      assert rest[..|rest| - 1] == init[..i] + init[i + 1..];
      assert rest[|rest| - 1] == vector[|vector| - 1];
    }
  }

  lemma SameWithoutOne<T>(init: seq<T>, x: T, front: seq<T>, back: seq<T>)
    requires multiset(init + [x]) == multiset(front + [x] + back)
    ensures multiset(init) == multiset(front + back)
  {
    calc {
      multiset(init);
      multiset(init + [x]) - multiset{x};
      multiset(front + [x] + back) - multiset{x};
      multiset(front) + multiset{x} + multiset(back) - multiset{x};
      multiset(front + back);
    }
  }

  /** Sums do not depend on the order of the samples. */
  lemma {:induction false} TotalPermuted(v: seq<Sample>, w: seq<Sample>, weight: Sample -> nat)
    requires multiset(v) == multiset(w)
    ensures Total(v, weight) == Total(w, weight)
  {
    if v == [] {
      assert |multiset(w)| == |w|;
    } else {
      var init, x := v[..|v| - 1], v[|v| - 1];
      assert x in multiset(v);
      var i :| 0 <= i < |w| && w[i] == x;
      assert v == init + [x] && w == w[..i] + [x] + w[i + 1..];
      SameWithoutOne(init, x, w[..i], w[i + 1..]);
      TotalPermuted(init, w[..i] + w[i + 1..], weight);
      TotalWithout(w, i, weight);
    }
  }

  lemma {:induction false} TotalAdds(v: seq<Sample>, w: seq<Sample>, weight: Sample -> nat)
    ensures Total([], weight) == 0
    ensures |w| == 1 ==> Total(w, weight) == weight(w[0])
    ensures Total(v + w, weight) == Total(v, weight) + Total(w, weight)
  {
    if w == [] {
      assert v + w == v;
    } else {
      var init := w[..|w| - 1];
      TotalAdds(v, init, weight);
      assert (v + w)[..|v + w| - 1] == v + init;
    }
  }

  lemma {:induction false} TotalAlike(vector: seq<Sample>, f: Sample -> nat, g: Sample -> nat)
    requires forall s | s in vector :: f(s) == g(s)
    ensures Total(vector, f) == Total(vector, g)
  {
    if vector != [] {
      var init := vector[..|vector| - 1];
      assert forall s | s in init :: s in vector;
      TotalAlike(init, f, g);
    }
  }

  // ---------- which samples are good ----------

  /** The sample carries this label value; a missing label reads as the empty string. */
  predicate Carries(s: Sample, key: string, value: string) {
    if key in s.metric then s.metric[key] == value else value == ""
  }

  /** Its key label is one of these values. */
  predicate OneOf(s: Sample, key: string, values: seq<string>) {
    exists i :: 0 <= i < |values| && Carries(s, key, values[i])
  }

  /** The amounts of the samples that name the pod and whose value is, or is not, one of these. */
  function Amounts(c: DiscreteConfig, pod: string, values: seq<string>, within: bool): Sample -> nat {
    s => if Carries(s, c.podNameKey, pod) && OneOf(s, c.key, values) == within then Amount(c, s) else 0
  }

  /**
    A pod's good samples are those with a good value, and the others are bad. If
    only bad values are configured, its bad samples are those with a bad value.
    If none are, all are bad.
   */
  lemma CountersByLabels(c: DiscreteConfig, vector: seq<Sample>, pod: string)
    ensures var Counter(ok, ko) := CounterOf(c, vector, pod);
            if c.goodValues != [] || c.badValues == [] then
              && ok == Total(vector, Amounts(c, pod, c.goodValues, true))
              && ko == Total(vector, Amounts(c, pod, c.goodValues, false))
            else
              && ok == Total(vector, Amounts(c, pod, c.badValues, false))
              && ko == Total(vector, Amounts(c, pod, c.badValues, true))
    ensures c.goodValues == [] && c.badValues == [] ==> CounterOf(c, vector, pod).ok == 0
  {
    forall s: Sample
      ensures OneOf(s, c.key, c.goodValues) <==> Label(s, c.key) in c.goodValues
      ensures OneOf(s, c.key, c.badValues) <==> Label(s, c.key) in c.badValues
      ensures Carries(s, c.podNameKey, pod) <==> Label(s, c.podNameKey) == pod
    {
    }
    var onlyBad := c.goodValues == [] && c.badValues != [];
    var values := if onlyBad then c.badValues else c.goodValues;
    TotalAlike(vector, OkWeight(c, pod), Amounts(c, pod, values, !onlyBad));
    TotalAlike(vector, KoWeight(c, pod), Amounts(c, pod, values, onlyBad));
    if c.goodValues == [] && c.badValues == [] {
      TotalNothing(vector, OkWeight(c, pod));
    }
  }

  lemma {:induction false} TotalNothing(vector: seq<Sample>, weight: Sample -> nat)
    requires forall s | s in vector :: weight(s) == 0
    ensures Total(vector, weight) == 0
  {
    if vector != [] {
      var init := vector[..|vector| - 1];
      assert forall s | s in init :: s in vector;
      TotalNothing(init, weight);
    }
  }

  // ---------- conservation ----------

  function PerPodTotal(c: DiscreteConfig, vector: seq<Sample>, names: seq<string>): nat {
    if names == [] then 0
    else
      var counter := CounterOf(c, vector, names[0]);
      counter.ok + counter.ko + PerPodTotal(c, vector, names[1..])
  }

  /** One more sample adds its amount to the one pod it names. */
  lemma {:induction false} OneMoreSample(c: DiscreteConfig, vector: seq<Sample>, s: Sample, names: seq<string>)
    requires NoDuplicates(names)
    ensures PerPodTotal(c, vector + [s], names)
         == PerPodTotal(c, vector, names) + if Label(s, c.podNameKey) in names then Amount(c, s) else 0
  {
    if names != [] {
      assert (vector + [s])[..|vector|] == vector;
      OneMoreSample(c, vector, s, names[1..]);
      assert names == [names[0]] + names[1..];
      assert forall j | 0 <= j < |names[1..]| :: names[1..][j] == names[j + 1];
    }
  }

  lemma {:induction false} NothingCounted(c: DiscreteConfig, names: seq<string>)
    ensures PerPodTotal(c, [], names) == 0
  {
    if names != [] {
      NothingCounted(c, names[1..]);
    }
  }

  /** The per-pod sums conserve the vector's total, for any enumeration of the pods it names. */
  lemma {:induction false} CountersConserve(c: DiscreteConfig, vector: seq<Sample>, names: seq<string>)
    requires NoDuplicates(names) && forall pod | Reports(c, vector, pod) :: pod in names
    ensures PerPodTotal(c, vector, names) == Total(vector, AmountWeight(c))
  {
    if vector == [] {
      NothingCounted(c, names);
    } else {
      var init, last := vector[..|vector| - 1], vector[|vector| - 1];
      assert vector == init + [last];
      assert Reports(c, vector, Label(last, c.podNameKey));
      forall pod | Reports(c, init, pod)
        ensures pod in names
      {
        assert Reports(c, vector, pod);
      }
      CountersConserve(c, init, names);
      OneMoreSample(c, init, last, names);
    }
  }

  // ---------- pods out of bounds ----------

  /** Some activity, and enough of it, and a share of bad values above the tolerance. */
  predicate Excessive(c: DiscreteConfig, counter: Counter) {
    var sum := counter.ok + counter.ko;
    1 <= sum && sum >= c.minActivity && 100 * counter.ko >= (c.tolerance + 1) * sum
  }

  lemma MultiplesOrdered(a: nat, b: nat, n: nat)
    requires a <= b
    ensures a * n <= b * n
  {
    assert (b - a) * n >= 0;
    assert b * n == a * n + (b - a) * n;
  }

  /** The truncated percentage is above the tolerance. */
  lemma RatioAbove(ko: nat, sum: nat, tolerance: nat)
    requires 1 <= sum
    ensures ko * 100 / sum > tolerance <==> 100 * ko >= (tolerance + 1) * sum
  {
    var n := ko * 100;
    var q := n / sum;
    assert n == q * sum + n % sum;
    if tolerance + 1 <= q {
      MultiplesOrdered(tolerance + 1, q, sum);
    } else {
      MultiplesOrdered(q + 1, tolerance + 1, sum);
      assert (q + 1) * sum == q * sum + sum;
    }
  }

  /** The pods the detector is to return. */
  predicate OutOfBounds(c: DiscreteConfig, vector: seq<Sample>, p: Pod) {
    TakesTraffic(p) && Excessive(c, CounterOf(c, vector, p.name))
  }

  /** Whatever the order of the samples, the same pods are out of bounds. */
  lemma OutOfBoundsPermuted(c: DiscreteConfig, v: seq<Sample>, w: seq<Sample>, p: Pod)
    requires multiset(v) == multiset(w)
    ensures OutOfBounds(c, v, p) == OutOfBounds(c, w, p)
  {
    TotalPermuted(v, w, OkWeight(c, p.name));
    TotalPermuted(v, w, KoWeight(c, p.name));
  }

  /** A value the configuration calls good: one of the good values, or none of the bad ones if only those are given. */
  predicate CalledGood(c: DiscreteConfig, s: Sample) {
    if c.goodValues != [] then OneOf(s, c.key, c.goodValues) else c.badValues != [] && !OneOf(s, c.key, c.badValues)
  }

  lemma SamplesAre(c: DiscreteConfig, vector: seq<Sample>, pod: string)
    ensures (forall s | s in vector && Carries(s, c.podNameKey, pod) :: CalledGood(c, s)) ==> CounterOf(c, vector, pod).ko == 0
    ensures (forall s | s in vector && Carries(s, c.podNameKey, pod) :: !CalledGood(c, s)) ==> CounterOf(c, vector, pod).ok == 0
    ensures CounterOf(c, vector, pod).ok + CounterOf(c, vector, pod).ko == Total(vector, Amounts(c, pod, [], false))
  {
    CountersByLabels(c, vector, pod);
    var onlyBad := c.goodValues == [] && c.badValues != [];
    var values := if onlyBad then c.badValues else c.goodValues;
    if forall s | s in vector && Carries(s, c.podNameKey, pod) :: CalledGood(c, s) {
      TotalNothing(vector, Amounts(c, pod, values, onlyBad));
    }
    if forall s | s in vector && Carries(s, c.podNameKey, pod) :: !CalledGood(c, s) {
      TotalNothing(vector, Amounts(c, pod, values, !onlyBad));
    }
    TotalSplit(vector, Amounts(c, pod, values, true), Amounts(c, pod, values, false), Amounts(c, pod, [], false));
  }

  lemma {:induction false} TotalSplit(vector: seq<Sample>, f: Sample -> nat, g: Sample -> nat, sum: Sample -> nat)
    requires forall s | s in vector :: sum(s) == f(s) + g(s)
    ensures Total(vector, sum) == Total(vector, f) + Total(vector, g)
  {
    if vector != [] {
      var init := vector[..|vector| - 1];
      assert forall s | s in init :: s in vector;
      TotalSplit(init, f, g, sum);
    }
  }

  /**
    In terms of labels and configuration: a pod with only good values is never
    out of bounds; one with only bad values is, if it takes traffic, there is
    enough activity, and less than everything is tolerated.
   */
  lemma GoodAndBadPods(c: DiscreteConfig, vector: seq<Sample>, p: Pod)
    ensures (forall s | s in vector && Carries(s, c.podNameKey, p.name) :: CalledGood(c, s)) ==> !OutOfBounds(c, vector, p)
    ensures
      && (forall s | s in vector && Carries(s, c.podNameKey, p.name) :: !CalledGood(c, s))
      && RunsWithTraffic(p) && c.tolerance < 100
      && 1 <= Total(vector, Amounts(c, p.name, [], false)) && c.minActivity <= Total(vector, Amounts(c, p.name, [], false))
      ==> OutOfBounds(c, vector, p)
  {
    SamplesAre(c, vector, p.name);
    TakesTrafficAt(p);
    var sum := Total(vector, Amounts(c, p.name, [], false));
    if c.tolerance < 100 {
      MultiplesOrdered(c.tolerance + 1, 100, sum);
    }
  }

  /** Exactly what is out of bounds: the share of bad samples of a pod that takes traffic. */
  lemma OutOfBoundsAre(c: DiscreteConfig, vector: seq<Sample>, p: Pod)
    ensures var values := if c.goodValues != [] || c.badValues == [] then c.goodValues else c.badValues;
            var all := Total(vector, Amounts(c, p.name, [], false));
            var bad := Total(vector, Amounts(c, p.name, values, c.goodValues == [] && c.badValues != []));
            OutOfBounds(c, vector, p) <==>
              RunsWithTraffic(p) && 1 <= all && c.minActivity <= all && 100 * bad >= (c.tolerance + 1) * all
  {
    CountersByLabels(c, vector, p.name);
    SamplesAre(c, vector, p.name);
    TakesTrafficAt(p);
  }

  ghost predicate DistinctNames(pods: seq<Pod>) {
    forall p, q | p in pods && q in pods && p.name == q.name :: p == q
  }

  method IndexPods(pods: seq<Pod>) returns (r: Result<(map<string, Pod>, map<string, Pod>)>)
    requires DistinctNames(pods)
    ensures r.Ok? <==> forall p | p in pods :: TrafficOf(p).Ok?
    ensures r.Ok? ==>
      && (forall n :: n in r.value.0 <==> exists p :: p in pods && p.name == n)
      && (forall n | n in r.value.0 :: r.value.0[n] in pods && r.value.0[n].name == n)
      && (forall n :: n in r.value.1 <==> exists p :: p in pods && p.name == n && !HasTraffic(p, Yes))
  {
    var podByName: map<string, Pod>, podWithNoTraffic: map<string, Pod> := map[], map[];
    for i := 0 to |pods|
      invariant forall p | p in pods[..i] :: TrafficOf(p).Ok?
      invariant forall n :: n in podByName <==> exists p :: p in pods[..i] && p.name == n
      invariant forall n | n in podByName :: podByName[n] in pods && podByName[n].name == n
      invariant forall n :: n in podWithNoTraffic <==> exists p :: p in pods[..i] && p.name == n && !HasTraffic(p, Yes)
    {
      var p := pods[i];
      assert pods[..i + 1] == pods[..i] + [p];
      podByName := podByName[p.name := p];
      var traffic := TrafficOf(p);
      if traffic.Err? {
        return Err(traffic.error);
      }
      if traffic.value != Yes {
        podWithNoTraffic := podWithNoTraffic[p.name := p];
      }
    }
    assert pods[..|pods|] == pods;
    return Ok((podByName, podWithNoTraffic));
  }

  /** The analysis divides by zero: it is to look at pods without activity, and finds one that is not known to be out of traffic. */
  ghost predicate DividesByZero(c: DiscreteConfig, vector: seq<Sample>, outOfTraffic: set<string>) {
    c.minActivity == 0 && exists pod :: Idle(c, vector, pod) && pod !in outOfTraffic
  }

  predicate Idle(c: DiscreteConfig, vector: seq<Sample>, pod: string) {
    Reports(c, vector, pod) && CounterOf(c, vector, pod) == Counter(0, 0)
  }

  /** The ready pods of a listing that do not take traffic. */
  function OutOfTraffic(listing: seq<Pod>): set<string> {
    set p | p in listing && IsReady(p) && !HasTraffic(p, Yes) :: p.name
  }

  const DIVISION := "integer divide by zero"

  /** `order` is the order in which Go's map iteration yields the counters; the error stands for the run-time panic. */
  method PickPods(c: DiscreteConfig, counters: map<string, Counter>, order: seq<string>,
                  podByName: map<string, Pod>, podWithNoTraffic: map<string, Pod>)
    returns (r: Result<seq<Pod>>)
    requires NoDuplicates(order) && forall n :: n in order <==> n in counters
    requires forall n | n in podByName :: podByName[n].name == n
    ensures r.Err? <==> c.minActivity == 0 && exists n :: n in counters && n !in podWithNoTraffic && counters[n] == Counter(0, 0)
    ensures r.Ok? ==> NoDuplicates(r.value) && forall p :: p in r.value <==>
      p.name in counters && p.name !in podWithNoTraffic && Excessive(c, counters[p.name]) && p.name in podByName && podByName[p.name] == p
  {
    var result: seq<Pod> := [];
    for i := 0 to |order|
      invariant c.minActivity == 0 ==> forall j | 0 <= j < i :: order[j] in podWithNoTraffic || counters[order[j]] != Counter(0, 0)
      invariant NoDuplicates(result)
      invariant forall p :: p in result <==>
        p.name in order[..i] && p.name !in podWithNoTraffic && Excessive(c, counters[p.name]) &&
        p.name in podByName && podByName[p.name] == p
    {
      var podName := order[i];
      assert order[..i + 1] == order[..i] + [podName];
      assert podName in order;
      var counter := counters[podName];
      if podName in podWithNoTraffic {
        continue;
      }
      var sum := counter.ok + counter.ko;
      if sum >= c.minActivity {
        if sum == 0 {
          return Err(DIVISION);
        }
        RatioAbove(counter.ko, sum, c.tolerance);
        var ratio := counter.ko * 100 / sum;
        if ratio > c.tolerance {
          if podName in podByName {
            result := result + [podByName[podName]];
          }
        }
      }
    }
    assert order[..|order|] == order;
    if c.minActivity == 0 {
      forall n | n in counters
        ensures n in podWithNoTraffic || counters[n] != Counter(0, 0)
      {
        assert n in order;
      }
    }
    return Ok(result);
  }

  method Enumerate(counters: map<string, Counter>) returns (order: seq<string>)
    ensures NoDuplicates(order) && forall n :: n in order <==> n in counters
  {
    order := [];
    var left := counters.Keys;
    while left != {}
      invariant left <= counters.Keys
      invariant NoDuplicates(order) && forall n :: n in order <==> n in counters && n !in left
    {
      var n :| n in left;
      left := left - {n};
      order := order + [n];
    }
  }

  /** `listing` is what the namespaced lister returns and `analysis` what the query does. */
  method GetPodsOutOfBounds(c: DiscreteConfig, listing: seq<Pod>, analysis: Result<seq<Sample>>) returns (r: Result<seq<Pod>>)
    requires DistinctNames(listing)
    ensures r.Ok? <==>
      analysis.Ok? && (forall p | p in listing :: Labelled(p)) && !DividesByZero(c, analysis.value, OutOfTraffic(listing))
    ensures r.Ok? ==> NoDuplicates(r.value) && forall p :: p in r.value <==> p in listing && OutOfBounds(c, analysis.value, p)
  {
    var purged := PurgeNotReadyPods(listing);
    FilteredOutKeeps(listing, NotReady);
    var indexed := IndexPods(purged.value);
    if indexed.Err? {
      return Err(indexed.error);
    }
    if analysis.Err? {
      return Err(analysis.error);
    }
    var (podByName, podWithNoTraffic) := indexed.value;
    assert podWithNoTraffic.Keys == OutOfTraffic(listing);
    var counters := BuildCounters(c, analysis.value);
    var order := Enumerate(counters);
    r := PickPods(c, counters, order, podByName, podWithNoTraffic);
    CountersTell(c, analysis.value, counters, podWithNoTraffic.Keys);
    if r.Ok? {
      forall p
        ensures p in r.value <==> p in listing && OutOfBounds(c, analysis.value, p)
      {
        Picked(c, listing, analysis.value, counters, podByName, p);
      }
    }
  }

  /** What makes the detector pick a pod, of what it has indexed and counted. */
  lemma Picked(c: DiscreteConfig, listing: seq<Pod>, vector: seq<Sample>,
               counters: map<string, Counter>, podByName: map<string, Pod>, p: Pod)
    requires DistinctNames(listing) && Counted(c, vector, counters, p.name)
    requires p.name in podByName <==> exists q :: q in listing && IsReady(q) && q.name == p.name
    requires p.name in podByName ==> podByName[p.name] in listing && IsReady(podByName[p.name]) && podByName[p.name].name == p.name
    ensures (&& p.name in counters && p.name !in OutOfTraffic(listing) && Excessive(c, counters[p.name])
             && p.name in podByName && podByName[p.name] == p)
       <==> p in listing && OutOfBounds(c, vector, p)
  {
    if p in listing && OutOfBounds(c, vector, p) {
      assert forall q | q in listing && q.name == p.name :: q == p;
    }
  }

  lemma CountersTell(c: DiscreteConfig, vector: seq<Sample>, counters: map<string, Counter>, outOfTraffic: set<string>)
    requires forall pod :: Counted(c, vector, counters, pod)
    ensures DividesByZero(c, vector, outOfTraffic) <==>
      c.minActivity == 0 && exists n :: n in counters && n !in outOfTraffic && counters[n] == Counter(0, 0)
  {
    forall pod
      ensures Idle(c, vector, pod) <==> pod in counters && counters[pod] == Counter(0, 0)
    {
      assert Counted(c, vector, counters, pod);
    }
  }
}
