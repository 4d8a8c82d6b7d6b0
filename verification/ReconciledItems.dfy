/**
  Several items reconciled in turn over the same pods. The cleaner of an item
  looks at the pods that carry its name in every namespace, so it strips the pods
  of an item of the same name elsewhere that its own service does not select.
 */
module ReconciledItems {
  import opened Pods
  import opened PodControl
  import opened Reconciliation

  datatype Item = Item(name: string, svc: KubeService)

  function Pass(pods: Store, item: Item): Store {
    AfterPass(pods, item.name, item.svc)
  }

  /** One pass of each item, in order. */
  function Round(pods: Store, items: seq<Item>): Store {
    if items == [] then pods else Pass(Round(pods, items[..|items| - 1]), items[|items| - 1])
  }

  function Rounds(pods: Store, items: seq<Item>, n: nat): Store {
    if n == 0 then pods else Round(Rounds(pods, items, n - 1), items)
  }

  predicate AllSettled(pods: Store, items: seq<Item>) {
    forall item | item in items :: Settled(pods, item.name, item.svc)
  }

  /** Each item alone settles in one pass (SettlesIff). */
  predicate LeaveNames(items: seq<Item>) {
    forall item | item in items :: SelectorAllowsName(item.name, item.svc)
  }

  /** x gives a name to pods that y, of the same name, takes away from those its own service does not select. */
  predicate Fights(x: Item, y: Item) {
    && x.name == y.name
    && NAME_KEY !in x.svc.selector
    && exists k :: k in y.svc.selector && Unmet(x, y, k)
  }

  /** A requirement of y's service that x's does not make. */
  predicate Unmet(x: Item, y: Item, k: string)
    requires k in y.svc.selector
  {
    k != TRAFFIC_KEY && k != NAME_KEY && (k in x.svc.selector ==> x.svc.selector[k] != y.svc.selector[k])
  }

  predicate Peaceful(items: seq<Item>) {
    forall x, y | x in items && y in items :: !Fights(x, y)
  }

  // ---------- what a pass does to one pod ----------

  function Stripped(p: Pod, item: Item): Pod {
    if Discarded(item.name, item.svc, p) then Cleaned(p) else p
  }

  function Passed(p: Pod, item: Item): Pod {
    var q := Stripped(p, item);
    if IsNew(item.svc, q) then Initialized(q, item.name) else q
  }

  function Rounded(p: Pod, items: seq<Item>): Pod {
    if items == [] then p else Passed(Rounded(p, items[..|items| - 1]), items[|items| - 1])
  }

  lemma PassAt(pods: Store, item: Item, k: Key)
    requires k in pods
    ensures k in Pass(pods, item) && Pass(pods, item)[k] == Passed(pods[k], item)
  {
    assert AfterCleaner(pods, item.name, item.svc, {})[k] == Stripped(pods[k], item);
  }

  lemma {:induction false} RoundAt(pods: Store, items: seq<Item>)
    ensures Round(pods, items).Keys == pods.Keys
    ensures forall k | k in pods :: Round(pods, items)[k] == Rounded(pods[k], items)
  {
    if items != [] {
      var init, last := items[..|items| - 1], items[|items| - 1];
      RoundAt(pods, init);
      forall k | k in pods
        ensures Round(pods, items)[k] == Rounded(pods[k], items)
      {
        PassAt(Round(pods, init), last, k);
      }
    }
  }

  predicate DiscardedByNone(p: Pod, items: seq<Item>) {
    forall item | item in items :: !Discarded(item.name, item.svc, p)
  }

  predicate NewToNone(p: Pod, items: seq<Item>) {
    forall item | item in items :: !IsNew(item.svc, p)
  }

  // ---------- without a fight, two rounds are enough ----------

  /** A pod that x names is selected by every item of that name, unless such an item was about to strip it. */
  lemma NamedIsSelected(x: Item, y: Item, p: Pod)
    requires !Fights(x, y) && SelectorAllowsName(x.name, x.svc) && SelectorAllowsName(y.name, y.svc)
    requires IsNew(x.svc, p) && !Discarded(y.name, y.svc, p)
    ensures !Discarded(y.name, y.svc, Initialized(p, x.name))
  {
    var q := Initialized(p, x.name);
    if Carries(q, y.name) && NAME_KEY in x.svc.selector {
      assert Selects(y.svc, p);
    } else if Carries(q, y.name) {
      forall k | k in y.svc.selector && k != TRAFFIC_KEY
        ensures k in q.labels && q.labels[k] == y.svc.selector[k]
      {
        assert k != NAME_KEY ==> !Unmet(x, y, k);
      }
    }
  }

  /** A pass leaves a pod that none of these items discards, and the passing item neither. */
  lemma PassKeeps(items: seq<Item>, x: Item, p: Pod)
    requires SelectorAllowsName(x.name, x.svc) && LeaveNames(items) && forall y | y in items :: !Fights(x, y)
    requires DiscardedByNone(p, items)
    ensures DiscardedByNone(Passed(p, x), items + [x])
    ensures !IsNew(x.svc, Passed(p, x))
  {
    var q := Stripped(p, x);
    assert !Discarded(x.name, x.svc, q);
    forall y | y in items + [x]
      ensures !Discarded(y.name, y.svc, Passed(p, x))
    {
      assert y in items || y == x;
      if IsNew(x.svc, q) {
        NamedIsSelected(x, y, q);
      }
    }
  }

  /** After one round nothing is about to be stripped. */
  lemma {:induction false} FirstRound(p: Pod, items: seq<Item>)
    requires LeaveNames(items) && Peaceful(items)
    ensures DiscardedByNone(Rounded(p, items), items)
  {
    if items != [] {
      var init, last := items[..|items| - 1], items[|items| - 1];
      assert items == init + [last];
      FirstRound(p, init);
      PassKeeps(init, last, Rounded(p, init));
    }
  }

  /** From then on pods are only named, and only once. */
  lemma {:induction false} SecondRound(p: Pod, all: seq<Item>, items: seq<Item>)
    requires LeaveNames(all) && Peaceful(all) && DiscardedByNone(p, all) && forall item | item in items :: item in all
    ensures DiscardedByNone(Rounded(p, items), all) && NewToNone(Rounded(p, items), items)
  {
    if items != [] {
      var init, last := items[..|items| - 1], items[|items| - 1];
      assert items == init + [last];
      SecondRound(p, all, init);
      var q := Rounded(p, init);
      assert last in items;
      PassKeeps(all, last, q);
      forall y | y in items
        ensures !IsNew(y.svc, Passed(q, last))
      {
        assert y in init || y == last;
      }
    }
  }

  /** A settled store stays as it is. */
  lemma {:induction false} SettledRound(pods: Store, items: seq<Item>)
    requires AllSettled(pods, items)
    ensures Round(pods, items) == pods
  {
    if items != [] {
      var init, last := items[..|items| - 1], items[|items| - 1];
      assert items == init + [last];
      SettledRound(pods, init);
      SettledStays(pods, last.name, last.svc);
    }
  }

  /** Any number of items settle every cluster in two rounds, in whatever order, if none fights another. */
  lemma SettleTogether(pods: Store, items: seq<Item>)
    requires LeaveNames(items) && Peaceful(items)
    ensures var after := Rounds(pods, items, 2); AllSettled(after, items) && Round(after, items) == after
  {
    var first := Round(pods, items);
    var second := Round(first, items);
    assert Rounds(pods, items, 1) == Round(Rounds(pods, items, 0), items) == first;
    RoundAt(pods, items);
    RoundAt(first, items);
    forall item, k | item in items && k in second
      ensures !Discarded(item.name, item.svc, second[k]) && !IsNew(item.svc, second[k])
    {
      FirstRound(pods[k], items);
      SecondRound(first[k], items, items);
    }
    SettledRound(second, items);
  }

  // ---------- a fight never ends ----------

  /** What x's service selects, and no label more. */
  function Contested(x: Item): Pod {
    Pod(x.svc.namespace, "p", x.svc.selector - {TRAFFIC_KEY}, map[], Running, [])
  }

  /** The same pod after it was named and stripped. */
  function Robbed(x: Item): Pod {
    SetTraffic(Contested(x), Yes)
  }

  function Named(x: Item): Pod {
    Initialized(Contested(x), x.name)
  }

  lemma ContestedPasses(x: Item, y: Item)
    requires Fights(x, y)
    ensures Passed(Contested(x), x) == Passed(Robbed(x), x) == Named(x)
    ensures Passed(Contested(x), y) == Contested(x) && Passed(Named(x), y) == Robbed(x)
    ensures IsNew(x.svc, Robbed(x)) && Discarded(y.name, y.svc, Named(x))
  {
    var p, q := Contested(x), Robbed(x);
    var k :| k in y.svc.selector && Unmet(x, y, k);
    assert !Selects(y.svc, p) && !Selects(y.svc, q) && !Selects(y.svc, Named(x));
    assert Selects(x.svc, p) && Selects(x.svc, q);
    assert Initialized(q, x.name).labels == Named(x).labels;
    assert Cleaned(Named(x)).labels == q.labels;
    assert Cleaned(Named(x)).annotations == q.annotations;
  }

  lemma RoundTwo(p: Pod, x: Item, y: Item)
    ensures Rounded(p, [x, y]) == Passed(Passed(p, x), y)
  {
    assert [x, y][..1] == [x] && [x][..0] == [];
    assert Rounded(p, []) == p;
    assert Rounded(p, [x]) == Passed(p, x);
  }

  /** A single pod that every round after the first leaves as it is. */
  lemma {:induction false} RoundsOfOne(p: Pod, q: Pod, items: seq<Item>, n: nat)
    requires Rounded(p, items) == q && Rounded(q, items) == q && 1 <= n
    ensures var pods := Rounds(map[KeyOf(p) := p], items, n); KeyOf(p) in pods && pods[KeyOf(p)] == q
  {
    var start: Store := map[KeyOf(p) := p];
    var before := Rounds(start, items, n - 1);
    if n == 1 {
      assert before == start;
    } else {
      RoundsOfOne(p, q, items, n - 1);
    }
    RoundAt(before, items);
  }

  lemma ContestedRounds(x: Item, y: Item)
    requires Fights(x, y)
    ensures Rounded(Contested(x), [x, y]) == Robbed(x) == Rounded(Robbed(x), [x, y])
    ensures Rounded(Contested(x), [y, x]) == Named(x) == Rounded(Named(x), [y, x])
  {
    ContestedPasses(x, y);
    RoundTwo(Contested(x), x, y);
    RoundTwo(Robbed(x), x, y);
    RoundTwo(Contested(x), y, x);
    RoundTwo(Named(x), y, x);
  }

  /** There is a cluster that two fighting items never settle, however many rounds they make. */
  lemma FightNeverEnds(x: Item, y: Item)
    requires Fights(x, y) || Fights(y, x)
    ensures exists pods :: WellKeyed(pods) && forall n: nat | 1 <= n :: !AllSettled(Rounds(pods, [x, y], n), [x, y])
  {
    var contested := if Fights(x, y) then Contested(x) else Contested(y);
    var k := KeyOf(contested);
    var start: Store := map[k := contested];
    assert x in [x, y] && y in [x, y];
    forall n: nat | 1 <= n
      ensures !AllSettled(Rounds(start, [x, y], n), [x, y])
    {
      if Fights(x, y) {
        ContestedRounds(x, y);
        RoundsOfOne(contested, Robbed(x), [x, y], n);
        ContestedPasses(x, y);
      } else {
        ContestedRounds(y, x);
        RoundsOfOne(contested, Named(y), [x, y], n);
        ContestedPasses(y, x);
      }
    }
    assert WellKeyed(start);
  }

  /** Two items that settle alone settle every cluster together exactly if they do not fight. */
  lemma SettleTogetherIff(x: Item, y: Item)
    requires LeaveNames([x, y])
    ensures (forall pods | WellKeyed(pods) :: AllSettled(Rounds(pods, [x, y], 2), [x, y])) <==> !Fights(x, y) && !Fights(y, x)
  {
    if Fights(x, y) || Fights(y, x) {
      FightNeverEnds(x, y);
    } else {
      assert Peaceful([x, y]);
      forall pods | WellKeyed(pods)
        ensures AllSettled(Rounds(pods, [x, y], 2), [x, y])
      {
        SettleTogether(pods, [x, y]);
      }
    }
  }
}
