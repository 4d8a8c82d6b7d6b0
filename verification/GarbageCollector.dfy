/**
  The orphan collector of pkg/controller/gc.go: counts, per pod, the ticks in
  which the pod names a service that does not exist, and cleans the pod up when
  the count reaches a threshold.
 */
module GarbageCollector {
  import opened Common
  import opened Pods
  import opened PodControl

  // ---------- "namespace/name" keys ----------

  function KeyText(namespace: string, name: string): string {
    namespace + "/" + name
  }

  function TextOf(k: Key): string {
    KeyText(k.namespace, k.name)
  }

  /** `strings.Split(s, "/")`. */
  function Split(s: string): (tokens: seq<string>)
    ensures tokens != []
  {
    if s == [] then [""]
    else if s[0] == '/' then [""] + Split(s[1..])
    else
      var rest := Split(s[1..]);
      [[s[0]] + rest[0]] + rest[1..]
  }

  predicate SlashFree(s: string) {
    '/' !in s
  }

  /** Splitting the join splits each side. */
  lemma {:induction false} SplitJoin(a: string, b: string)
    ensures |Split(a + "/" + b)| == |Split(a)| + |Split(b)|
    ensures SlashFree(a) ==> Split(a + "/" + b) == [a] + Split(b)
  {
    var s := a + "/" + b;
    if a == [] {
      assert s[1..] == b;
    } else {
      assert s[1..] == a[1..] + "/" + b;
      SplitJoin(a[1..], b);
      if SlashFree(a) {
        assert a[0] in a && SlashFree(a[1..]);
        assert ([a[1..]] + Split(b))[1..] == Split(b);
        assert [a[0]] + a[1..] == a;
      }
    }
  }

  lemma {:induction false} SplitOne(s: string)
    ensures |Split(s)| == 1 <==> SlashFree(s)
    ensures SlashFree(s) ==> Split(s) == [s]
  {
    if s != [] {
      SplitOne(s[1..]);
      assert s == [s[0]] + s[1..];
    }
  }

  /** Building a key and splitting it again is a round trip exactly for slash-free namespaces and names; other keys are ignored. */
  lemma KeyRoundTrip(k: Key)
    ensures Split(TextOf(k)) == [k.namespace, k.name] <==> SlashFree(k.namespace) && SlashFree(k.name)
    ensures |Split(TextOf(k))| == 2 <==> SlashFree(k.namespace) && SlashFree(k.name)
  {
    SplitJoin(k.namespace, k.name);
    SplitOne(k.namespace);
    SplitOne(k.name);
  }

  // ---------- one tick ----------

  predicate Orphan(p: Pod, services: set<string>) {
    NAME_KEY in p.labels && KeyText(p.namespace, p.labels[NAME_KEY]) !in services
  }

  function Count(counters: map<string, nat>, key: string): nat {
    if key in counters then counters[key] else 0
  }

  function CountMisses(counters: map<string, nat>, pods: seq<Pod>, services: set<string>): map<string, nat> {
    if pods == [] then counters
    else
      var before := CountMisses(counters, pods[..|pods| - 1], services);
      var p := pods[|pods| - 1];
      var key := TextOf(KeyOf(p));
      if Orphan(p, services) then before[key := Count(before, key) + 1] else before
  }

  predicate Missed(key: string, pods: seq<Pod>, services: set<string>) {
    exists p :: p in pods && TextOf(KeyOf(p)) == key && Orphan(p, services)
  }

  ghost predicate DistinctTexts(pods: seq<Pod>) {
    forall i, j | 0 <= i < j < |pods| :: TextOf(KeyOf(pods[i])) != TextOf(KeyOf(pods[j]))
  }

  lemma {:induction false} CountMissesAt(counters: map<string, nat>, pods: seq<Pod>, services: set<string>, key: string)
    requires DistinctTexts(pods)
    ensures Count(CountMisses(counters, pods, services), key) == Count(counters, key) + if Missed(key, pods, services) then 1 else 0
    ensures key in CountMisses(counters, pods, services) <==> key in counters || Missed(key, pods, services)
  {
    if pods != [] {
      var init, last := pods[..|pods| - 1], pods[|pods| - 1];
      assert pods == init + [last];
      CountMissesAt(counters, init, services, key);
      assert Missed(key, pods, services) <==> Missed(key, init, services) || (TextOf(KeyOf(last)) == key && Orphan(last, services));
    }
  }

  /** The pod a key is split into. */
  function Target(key: string): Option<Key> {
    var tokens := Split(key);
    if |tokens| == 2 then Some(Key(tokens[0], tokens[1])) else None
  }

  /** The keys a clean-up takes: due, well-formed, with a pod that can be looked up and updated. */
  function Due(counters: map<string, nat>, pods: Store, threshold: nat, failing: set<string>): set<string> {
    set key | key in counters && counters[key] >= threshold && Target(key).Some? && Target(key).value in pods && key !in failing
  }

  function CleanedStore(pods: Store, due: set<string>): Store {
    map k | k in pods :: if TextOf(k) in due then Cleaned(pods[k]) else pods[k]
  }

  lemma TargetIsText(key: string, k: Key)
    ensures Target(key) == Some(k) ==> TextOf(k) == key
    ensures TextOf(k) == key && Target(key).Some? ==> Target(key) == Some(k)
  {
    JoinSplit(key);
    KeyRoundTrip(k);
  }

  /** Two tokens joined give the string back. */
  lemma {:induction false} JoinSplit(s: string)
    ensures |Split(s)| == 1 ==> Split(s)[0] == s
    ensures |Split(s)| == 2 ==> Split(s)[0] + "/" + Split(s)[1] == s
  {
    if s != [] {
      JoinSplit(s[1..]);
    }
  }

  /** Cleaning one more pod of the store. */
  lemma CleanOne(pods: Store, done: set<string>, key: string, k: Key)
    requires WellKeyed(pods) && k in pods && Target(key) == Some(k) && key !in done
    ensures var now := CleanedStore(pods, done);
            && k in now && now[k] == pods[k] && KeyOf(pods[k]) == k
            && CleanedStore(pods, done + {key}) == now[k := Cleaned(pods[k])]
  {
    TargetIsText(key, k);
    forall j | j in pods && TextOf(j) == key
      ensures j == k
    {
      TargetIsText(key, j);
    }
  }

  class Collector {
    const missCountBeforeGC: nat
    var counters: map<string, nat>

    constructor (missCountBeforeGC: nat)
      requires 1 <= missCountBeforeGC
      ensures this.missCountBeforeGC == missCountBeforeGC && counters == map[]
    {
      this.missCountBeforeGC := missCountBeforeGC;
      counters := map[];
    }

    method UpdateCounters(services: Result<seq<Key>>, pods: Result<seq<Pod>>)
      modifies this
      ensures counters == if services.Ok? && pods.Ok?
                          then CountMisses(old(counters), pods.value, set k | k in services.value :: TextOf(k))
                          else old(counters)
    {
      if services.Err? {
        return;
      }
      var names: set<string> := {};
      for i := 0 to |services.value|
        invariant names == set k | k in services.value[..i] :: TextOf(k)
      {
        assert services.value[..i + 1] == services.value[..i] + [services.value[i]];
        assert (set k | k in services.value[..i + 1] :: TextOf(k))
            == (set k | k in services.value[..i] :: TextOf(k)) + {TextOf(services.value[i])};
        var name := services.value[i].namespace + "/" + services.value[i].name;
        names := names + {name};
      }
      assert services.value[..|services.value|] == services.value;

      if pods.Err? {
        return;
      }
      for i := 0 to |pods.value|
        invariant counters == CountMisses(old(counters), pods.value[..i], names)
      {
        assert pods.value[..i + 1][..i] == pods.value[..i];
        var pod := pods.value[i];
        if NAME_KEY in pod.labels {
          if pod.namespace + "/" + pod.labels[NAME_KEY] !in names {
            var key := pod.namespace + "/" + pod.name;
            var count := if key in counters then counters[key] else 0;
            count := count + 1;
            counters := counters[key := count];
          }
        }
      }
      assert pods.value[..|pods.value|] == pods.value;
    }

    /** Lookup or clean-up of the keys in `failing` fails. */
    method CleanPods(control: Control, failing: set<string>)
      requires WellKeyed(control.pods)
      modifies this, control
      ensures counters == old(counters) - Due(old(counters), old(control.pods), missCountBeforeGC, failing)
      ensures control.pods == CleanedStore(old(control.pods), Due(old(counters), old(control.pods), missCountBeforeGC, failing))
    {
      ghost var due, before := Due(counters, control.pods, missCountBeforeGC, failing), control.pods;
      var toClean: seq<string> := [];
      var left := counters.Keys;
      while left != {}
        invariant left <= counters.Keys && counters == old(counters)
        invariant forall key :: key in toClean <==> key in due && key !in left
        invariant control.pods == CleanedStore(before, due - left)
      {
        var key :| key in left;
        ghost var done := due - left;
        left := left - {key};
        assert due - left == if key in due then done + {key} else done;
        if counters[key] >= missCountBeforeGC {
          var token := Split(key);
          if |token| != 2 {
            continue;
          }
          var k := Key(token[0], token[1]);
          if k !in control.pods || key in failing {
            continue;
          }
          CleanOne(before, done, key, k);
          var ok := control.RemoveBreakerAnnotationAndLabel(control.pods[k], true);
          toClean := toClean + [key];
        }
      }
      assert due - left == due;
      for i := 0 to |toClean|
        invariant counters == old(counters) - set key | key in toClean[..i]
        invariant control.pods == CleanedStore(old(control.pods), due)
      {
        assert toClean[..i + 1] == toClean[..i] + [toClean[i]];
        counters := counters - {toClean[i]};
      }
      assert (set key | key in toClean[..|toClean|]) == due;
    }

    /** updateCounters, then cleanPods. */
    method Tick(control: Control, t: TickInput)
      requires WellKeyed(control.pods) && control.pods == t.store
      modifies this, control
      ensures counters == AfterTick(old(counters), missCountBeforeGC, t)
      ensures control.pods == CleanedStore(t.store, CleanedAt(old(counters), missCountBeforeGC, t))
    {
      UpdateCounters(t.services, t.pods);
      CleanPods(control, t.failing);
    }
  }

  /** What one tick meets: the listings, the store behind them, and the keys whose lookup or clean-up fails. */
  datatype TickInput = TickInput(services: Result<seq<Key>>, pods: Result<seq<Pod>>, store: Store, failing: set<string>)

  function ServiceTexts(t: TickInput): set<string>
    requires t.services.Ok?
  {
    set k | k in t.services.value :: TextOf(k)
  }

  function Counted(counters: map<string, nat>, t: TickInput): map<string, nat> {
    if t.services.Ok? && t.pods.Ok? then CountMisses(counters, t.pods.value, ServiceTexts(t)) else counters
  }

  function CleanedAt(counters: map<string, nat>, threshold: nat, t: TickInput): set<string> {
    Due(Counted(counters, t), t.store, threshold, t.failing)
  }

  function AfterTick(counters: map<string, nat>, threshold: nat, t: TickInput): map<string, nat> {
    Counted(counters, t) - CleanedAt(counters, threshold, t)
  }

  // ---------- runs ----------

  function AfterTicks(threshold: nat, ticks: seq<TickInput>): map<string, nat> {
    if ticks == [] then map[]
    else AfterTick(AfterTicks(threshold, ticks[..|ticks| - 1]), threshold, ticks[|ticks| - 1])
  }

  predicate MissedAt(t: TickInput, key: string) {
    t.services.Ok? && t.pods.Ok? && Missed(key, t.pods.value, ServiceTexts(t))
  }

  predicate CleanedAtEnd(threshold: nat, ticks: seq<TickInput>, key: string)
    requires ticks != []
  {
    key in CleanedAt(AfterTicks(threshold, ticks[..|ticks| - 1]), threshold, ticks[|ticks| - 1])
  }

  /** Ticks that missed the key since it was last cleaned. */
  function MissesSinceCleaned(threshold: nat, ticks: seq<TickInput>, key: string): nat {
    if ticks == [] || CleanedAtEnd(threshold, ticks, key) then 0
    else MissesSinceCleaned(threshold, ticks[..|ticks| - 1], key) + if MissedAt(ticks[|ticks| - 1], key) then 1 else 0
  }

  ghost predicate Listed(t: TickInput) {
    t.pods.Ok? ==> DistinctTexts(t.pods.value)
  }

  /** In every run, whatever fails, a counter is the number of misses since the last clean-up. */
  lemma {:induction false} CounterCountsMisses(threshold: nat, ticks: seq<TickInput>, key: string)
    requires 1 <= threshold && forall t | t in ticks :: Listed(t)
    ensures Count(AfterTicks(threshold, ticks), key) == MissesSinceCleaned(threshold, ticks, key)
  {
    if ticks != [] {
      var init, last := ticks[..|ticks| - 1], ticks[|ticks| - 1];
      assert forall t | t in init :: t in ticks;
      assert last in ticks;
      CounterCountsMisses(threshold, init, key);
      if MissedAt(last, key) || (last.services.Ok? && last.pods.Ok?) {
        CountMissesAt(AfterTicks(threshold, init), last.pods.value, ServiceTexts(last), key);
      }
    }
  }

  /** All calls of the tick succeed, on the pods of a cluster with slash-free names. */
  ghost predicate Succeeds(t: TickInput) {
    && t.services.Ok? && t.pods.Ok? && t.failing == {}
    && WellKeyed(t.store)
    && IsListing(t.store, Scope(None, multiset{}), t.pods.value)
    && forall k | k in t.store :: SlashFree(k.namespace) && SlashFree(k.name)
  }

  lemma SuccessIsListed(t: TickInput)
    requires Succeeds(t)
    ensures Listed(t)
    ensures forall p | p in t.pods.value :: KeyOf(p) in t.store && Target(TextOf(KeyOf(p))) == Some(KeyOf(p))
  {
    forall p | p in t.pods.value
      ensures KeyOf(p) in t.store && t.store[KeyOf(p)] == p && Target(TextOf(KeyOf(p))) == Some(KeyOf(p))
    {
      ListedByKey(t.store, p);
      KeyRoundTrip(KeyOf(p));
    }
    forall i, j | 0 <= i < j < |t.pods.value|
      ensures TextOf(KeyOf(t.pods.value[i])) != TextOf(KeyOf(t.pods.value[j]))
    {
      assert t.pods.value[i] in t.pods.value && t.pods.value[j] in t.pods.value;
    }
  }

  /**
    In every run of successful ticks all counters stay below the threshold, a
    pod is cleaned exactly at the miss that reaches it, and its service is
    missing at that moment.
   */
  lemma {:induction false} OrphanCollection(threshold: nat, ticks: seq<TickInput>, key: string)
    requires 1 <= threshold && forall t | t in ticks :: Succeeds(t)
    ensures Count(AfterTicks(threshold, ticks), key) == MissesSinceCleaned(threshold, ticks, key) < threshold
    ensures ticks != [] ==>
      var init, last := ticks[..|ticks| - 1], ticks[|ticks| - 1];
      && (CleanedAtEnd(threshold, ticks, key) <==> MissedAt(last, key) && MissesSinceCleaned(threshold, init, key) + 1 == threshold)
  {
    forall t | t in ticks
      ensures Listed(t)
    {
      SuccessIsListed(t);
    }
    CounterCountsMisses(threshold, ticks, key);
    if ticks != [] {
      var init, last := ticks[..|ticks| - 1], ticks[|ticks| - 1];
      assert forall t | t in init :: t in ticks;
      assert last in ticks;
      OrphanCollection(threshold, init, key);
      SuccessIsListed(last);
      CountMissesAt(AfterTicks(threshold, init), last.pods.value, ServiceTexts(last), key);
    }
  }

  // ---------- which pods are collected ----------

  /** The cluster's pod under k carries the name of a service of its namespace that is not among those listed. */
  predicate NamesMissing(t: TickInput, k: Key) {
    && t.services.Ok?
    && k in t.store && "kubervisor/name" in t.store[k].labels
    && Key(k.namespace, t.store[k].labels["kubervisor/name"]) !in t.services.value
  }

  /** All calls succeed, and the services have slash-free namespaces and names. */
  ghost predicate Regular(t: TickInput) {
    Succeeds(t) && forall s | s in t.services.value :: SlashFree(s.namespace) && SlashFree(s.name)
  }

  /** A key's text tells its namespace and its name, if the namespace has no slash. */
  lemma TextTells(j: Key, k: Key)
    requires TextOf(j) == TextOf(k) && SlashFree(j.namespace) && SlashFree(k.namespace)
    ensures j == k
  {
    SplitJoin(j.namespace, j.name);
    SplitJoin(k.namespace, k.name);
    assert Split(TextOf(j))[0] == j.namespace && Split(TextOf(k))[0] == k.namespace;
    assert TextOf(j)[|j.namespace| + 1..] == j.name;
    assert TextOf(k)[|k.namespace| + 1..] == k.name;
  }

  /** The pods that a tick counts are those that name a missing service. */
  lemma MissedNames(t: TickInput, k: Key)
    requires Regular(t) && SlashFree(k.namespace)
    ensures MissedAt(t, TextOf(k)) <==> NamesMissing(t, k)
  {
    if k in t.store && NAME_KEY in t.store[k].labels {
      var wanted := Key(k.namespace, t.store[k].labels[NAME_KEY]);
      forall s | s in t.services.value && TextOf(s) == TextOf(wanted)
        ensures s == wanted
      {
        TextTells(s, wanted);
      }
      assert wanted in t.services.value <==> TextOf(wanted) in ServiceTexts(t);
      assert t.store[k] in t.store.Values && t.store[k] in t.pods.value;
    }
    forall p | p in t.pods.value && TextOf(KeyOf(p)) == TextOf(k)
      ensures KeyOf(p) == k && k in t.store && p == t.store[k]
    {
      ListedByKey(t.store, p);
      TextTells(KeyOf(p), k);
    }
  }

  lemma AllSucceed(ticks: seq<TickInput>)
    requires forall t | t in ticks :: Regular(t)
    ensures forall t | t in ticks :: Succeeds(t)
  {
  }

  /** What is cleaned at the last tick of a run is a pod of the cluster that names a missing service. */
  lemma CleanedNamesMissing(threshold: nat, ticks: seq<TickInput>, key: string)
    requires 1 <= threshold && ticks != [] && forall t | t in ticks :: Regular(t)
    requires CleanedAtEnd(threshold, ticks, key)
    ensures exists k :: TextOf(k) == key && NamesMissing(ticks[|ticks| - 1], k)
  {
    var last := ticks[|ticks| - 1];
    AllSucceed(ticks);
    OrphanCollection(threshold, ticks, key);
    assert last in ticks;
    var p :| p in last.pods.value && TextOf(KeyOf(p)) == key && Orphan(p, ServiceTexts(last));
    SuccessIsListed(last);
    MissedNames(last, KeyOf(p));
  }

  /** A pod that at every tick carries no name, or that of a listed service, is never counted and never cleaned. */
  lemma {:induction false} ServedNeverCleaned(threshold: nat, ticks: seq<TickInput>, k: Key)
    requires 1 <= threshold && SlashFree(k.namespace)
    requires forall t | t in ticks :: Regular(t) && !NamesMissing(t, k)
    ensures Count(AfterTicks(threshold, ticks), TextOf(k)) == 0
    ensures ticks != [] ==> !CleanedAtEnd(threshold, ticks, TextOf(k))
  {
    AllSucceed(ticks);
    OrphanCollection(threshold, ticks, TextOf(k));
    if ticks != [] {
      var init, last := ticks[..|ticks| - 1], ticks[|ticks| - 1];
      assert forall t | t in init :: t in ticks;
      assert last in ticks;
      MissedNames(last, k);
      ServedNeverCleaned(threshold, init, k);
      OrphanCollection(threshold, init, TextOf(k));
    }
  }

  /** A pod that names a missing service at each of these ticks, counting from zero: the counter is their number, up to the threshold. */
  lemma {:induction false} OrphanCounted(threshold: nat, before: seq<TickInput>, ticks: seq<TickInput>, k: Key)
    requires 1 <= threshold && SlashFree(k.namespace) && |ticks| < threshold
    requires forall t | t in before + ticks :: Regular(t)
    requires Count(AfterTicks(threshold, before), TextOf(k)) == 0 && forall t | t in ticks :: NamesMissing(t, k)
    ensures Count(AfterTicks(threshold, before + ticks), TextOf(k)) == |ticks|
  {
    var all := before + ticks;
    if ticks == [] {
      assert all == before;
    } else {
      var init, last := ticks[..|ticks| - 1], ticks[|ticks| - 1];
      assert all[..|all| - 1] == before + init && all[|all| - 1] == last;
      assert forall t | t in before + init :: t in all;
      assert last in all && last in ticks;
      OrphanCounted(threshold, before, init, k);
      MissedNames(last, k);
      OneMoreMiss(threshold, all, TextOf(k));
    }
  }

  /** A miss at the last tick of a run raises the counter or reaches the threshold. */
  lemma OneMoreMiss(threshold: nat, ticks: seq<TickInput>, key: string)
    requires 1 <= threshold && ticks != [] && forall t | t in ticks :: Regular(t)
    requires MissedAt(ticks[|ticks| - 1], key)
    ensures var count := Count(AfterTicks(threshold, ticks[..|ticks| - 1]), key);
            if count + 1 == threshold then CleanedAtEnd(threshold, ticks, key)
            else Count(AfterTicks(threshold, ticks), key) == count + 1
  {
    var init := ticks[..|ticks| - 1];
    assert forall t | t in init :: t in ticks;
    AllSucceed(ticks);
    OrphanCollection(threshold, ticks, key);
    OrphanCollection(threshold, init, key);
  }

  /** It is cleaned at the tick that makes it `threshold` in a row. */
  lemma OrphanCleaned(threshold: nat, before: seq<TickInput>, ticks: seq<TickInput>, k: Key)
    requires 1 <= threshold && SlashFree(k.namespace) && |ticks| == threshold
    requires forall t | t in before + ticks :: Regular(t)
    requires Count(AfterTicks(threshold, before), TextOf(k)) == 0 && forall t | t in ticks :: NamesMissing(t, k)
    ensures CleanedAtEnd(threshold, before + ticks, TextOf(k))
  {
    var all, init, last := before + ticks, ticks[..|ticks| - 1], ticks[|ticks| - 1];
    assert all[..|all| - 1] == before + init && all[|all| - 1] == last;
    assert forall t | t in before + init :: t in all;
    assert last in all && last in ticks;
    OrphanCounted(threshold, before, init, k);
    MissedNames(last, k);
    OneMoreMiss(threshold, all, TextOf(k));
  }

  /** A tick takes the name label and the annotations from the pods it cleans, and changes no other pod. */
  lemma CleanedStoreIs(pods: Store, due: set<string>, k: Key)
    requires k in pods
    ensures var after := CleanedStore(pods, due);
            && after.Keys == pods.Keys
            && after[k] == if k.namespace + "/" + k.name in due
                           then pods[k].(labels := pods[k].labels - {"kubervisor/name"},
                                         annotations := pods[k].annotations - {"breaker/breakAt"} - {"breaker/retryCount"})
                           else pods[k]
  {
    OperationsWrite(pods[k], "", "", 0);
  }

  /** A pod is due exactly if it has been counted up to the threshold and its lookup and update do not fail. */
  lemma DueIs(counters: map<string, nat>, pods: Store, threshold: nat, failing: set<string>, k: Key)
    requires SlashFree(k.namespace) && SlashFree(k.name)
    ensures TextOf(k) in Due(counters, pods, threshold, failing) <==>
      k in pods && TextOf(k) in counters && threshold <= counters[TextOf(k)] && TextOf(k) !in failing
  {
    KeyRoundTrip(k);
  }
}
