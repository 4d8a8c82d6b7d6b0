/**
  Comparing a running item with a specification (pkg/controller/item/types.go).
  A nil slice and an empty one are equal here, as they are to
  `apiequality.Semantic.DeepEqual`; a selector is the multiset of its equality
  requirements, which its sorted slice determines.
 */
module ItemConfig {
  import opened Common
  import opened Pods

  datatype ActivatorSpec = ActivatorSpec(mode: string, period: Option<real>, maxRetryCount: Option<nat>, maxPauseCount: Option<nat>)

  datatype DetectionSpec =
    | DiscreteValueOutOfList(service: string, promQL: string, key: string, podNameKey: string,
                             goodValues: seq<string>, badValues: seq<string>, tolerance: Option<nat>, minActivity: Option<nat>)
    | ContinuousValueDeviation(service: string, promQL: string, podNameKey: string, maxDeviation: Option<real>)
    | CustomService(uri: string)

  datatype BreakerSpec = BreakerSpec(
    name: string,
    evaluationPeriod: Option<real>,
    minPodsAvailableCount: Option<nat>,
    minPodsAvailableRatio: Option<nat>,
    detection: DetectionSpec,
    activator: Option<ActivatorSpec>)

  datatype ServiceSpec = ServiceSpec(breakers: seq<BreakerSpec>, defaultActivator: ActivatorSpec)

  // ---------- selectors ----------

  predicate AlphaNumeric(c: char) {
    'a' <= c <= 'z' || 'A' <= c <= 'Z' || '0' <= c <= '9'
  }

  /** A label value: at most 63 characters, alphanumeric at both ends, dashes, dots and underscores inside. */
  predicate ValidLabelValue(s: string) {
    s == "" || (|s| <= 63 && AlphaNumeric(s[0]) && AlphaNumeric(s[|s| - 1])
                && forall c | c in s :: AlphaNumeric(c) || c in {'-', '_', '.'})
  }

  /** The selector, or everything, augmented with the Kubervisor name. */
  function SelectorWithBreakerName(input: Option<Selector>, name: string): Option<Selector> {
    if !ValidLabelValue(name) then None
    else Some((if input.Some? then input.value else multiset{}) + multiset{(NAME_KEY, name)})
  }

  /** The requirements of a selector; of none given, nothing. */
  function Requirements(input: Option<Selector>): Selector {
    match input
    case None => multiset{}
    case Some(sel) => sel
  }

  /** For a name that is a label value, an augmented selector requires what the input does, once each, and that name. */
  lemma AugmentedRequires(input: Option<Selector>, name: string)
    ensures SelectorWithBreakerName(input, name).Some? <==> ValidLabelValue(name)
    ensures SelectorWithBreakerName(input, name).Some? ==>
      forall r :: SelectorWithBreakerName(input, name).value[r]
               == Requirements(input)[r] + if r == ("kubervisor/name", name) then 1 else 0
  {
  }

  /** Augmented selectors agree exactly if the selectors do. */
  lemma AugmentedAgree(a: Option<Selector>, b: Option<Selector>, name: string)
    requires ValidLabelValue(name)
    ensures SelectorWithBreakerName(a, name) == SelectorWithBreakerName(b, name) <==> Requirements(a) == Requirements(b)
  {
    AugmentedRequires(a, name);
    AugmentedRequires(b, name);
    if SelectorWithBreakerName(a, name) == SelectorWithBreakerName(b, name) {
      forall r
        ensures Requirements(a)[r] == Requirements(b)[r]
      {
        assert SelectorWithBreakerName(a, name).value[r] == SelectorWithBreakerName(b, name).value[r];
      }
    }
  }

  // ---------- the parts of an item ----------

  datatype ActivatorPart = ActivatorPart(config: ActivatorSpec, kubervisorName: string, selector: Selector) {
    predicate CompareConfig(spec: ActivatorSpec, specSelector: Option<Selector>) {
      config == spec && SelectorWithBreakerName(specSelector, kubervisorName) == Some(selector)
    }
  }

  datatype BreakerPart = BreakerPart(strategyName: string, config: BreakerSpec, kubervisorName: string, selector: Selector) {
    predicate CompareConfig(spec: BreakerSpec, specSelector: Option<Selector>) {
      config == spec && SelectorWithBreakerName(specSelector, kubervisorName) == Some(selector)
    }
  }

  datatype BreakerActivatorPair = BreakerActivatorPair(breaker: BreakerPart, activator: Option<ActivatorPart>) {
    predicate CompareConfig(spec: BreakerSpec, specSelector: Option<Selector>) {
      if activator.Some? != spec.activator.Some? then false
      else if activator.Some? && !activator.value.CompareConfig(spec.activator.value, specSelector) then false
      else breaker.CompareConfig(spec, specSelector)
    }
  }

  datatype Item = Item(name: string, selector: Selector, defaultActivator: ActivatorPart, breakers: seq<BreakerActivatorPair>)

  function PairOf(name: string, selector: Selector, spec: BreakerSpec): BreakerActivatorPair {
    BreakerActivatorPair(
      BreakerPart(spec.name, spec, name, selector),
      if spec.activator.Some? then Some(ActivatorPart(spec.activator.value, name, selector)) else None)
  }

  /** `item.New`, for detectors that can be built. */
  function NewItem(name: string, spec: ServiceSpec, selector: Option<Selector>): Option<Item> {
    match SelectorWithBreakerName(selector, name)
    case None => None
    case Some(augmented) =>
      Some(Item(name, augmented, ActivatorPart(spec.defaultActivator, name, augmented),
                seq(|spec.breakers|, i requires 0 <= i < |spec.breakers| => PairOf(name, augmented, spec.breakers[i]))))
  }

  // ---------- the comparison ----------

  /** The first pair whose breaker has this strategy name. */
  function FindByName(breakers: seq<BreakerActivatorPair>, strategyName: string): Option<BreakerActivatorPair> {
    if breakers == [] then None
    else if breakers[0].breaker.strategyName == strategyName then Some(breakers[0])
    else FindByName(breakers[1..], strategyName)
  }

  predicate FirstNamed(breakers: seq<BreakerActivatorPair>, strategyName: string, i: int) {
    && 0 <= i < |breakers| && breakers[i].breaker.strategyName == strategyName
    && forall j | 0 <= j < i :: breakers[j].breaker.strategyName != strategyName
  }

  method GetBreakerByStrategyName(item: Item, strategyName: string) returns (pair: Option<BreakerActivatorPair>)
    ensures pair == FindByName(item.breakers, strategyName)
    ensures pair == None <==> forall b | b in item.breakers :: b.breaker.strategyName != strategyName
    ensures pair.Some? ==> exists i :: FirstNamed(item.breakers, strategyName, i) && item.breakers[i] == pair.value
  {
    for i := 0 to |item.breakers|
      invariant FindByName(item.breakers, strategyName) == FindByName(item.breakers[i..], strategyName)
      invariant forall j | 0 <= j < i :: item.breakers[j].breaker.strategyName != strategyName
    {
      if item.breakers[i].breaker.strategyName == strategyName {
        assert FirstNamed(item.breakers, strategyName, i);
        return Some(item.breakers[i]);
      }
    }
    return None;
  }

  predicate BreakerMatches(item: Item, spec: BreakerSpec, selector: Option<Selector>) {
    var pair := FindByName(item.breakers, spec.name);
    pair.Some? && pair.value.CompareConfig(spec, selector)
  }

  /** True if the specification differs from the item's configuration. */
  method CompareWithSpec(item: Item, spec: ServiceSpec, selector: Option<Selector>) returns (differs: bool)
    ensures !differs <==>
      && item.defaultActivator.CompareConfig(spec.defaultActivator, selector)
      && |spec.breakers| == |item.breakers|
      && forall i | 0 <= i < |spec.breakers| :: BreakerMatches(item, spec.breakers[i], selector)
  {
    if !item.defaultActivator.CompareConfig(spec.defaultActivator, selector) {
      return true;
    }
    if |spec.breakers| != |item.breakers| {
      return true;
    }
    for i := 0 to |spec.breakers|
      invariant forall j | 0 <= j < i :: BreakerMatches(item, spec.breakers[j], selector)
    {
      var breaker := GetBreakerByStrategyName(item, spec.breakers[i].name);
      if breaker == None {
        return true;
      }
      if !breaker.value.CompareConfig(spec.breakers[i], selector) {
        return true;
      }
    }
    return false;
  }

  predicate UniqueNames(breakers: seq<BreakerSpec>) {
    forall i, j | 0 <= i < j < |breakers| :: breakers[i].name != breakers[j].name
  }

  lemma {:induction false} FindMapped(name: string, augmented: Selector, breakers: seq<BreakerSpec>,
                                      pairs: seq<BreakerActivatorPair>, strategyName: string)
    requires |pairs| == |breakers| && forall i | 0 <= i < |pairs| :: pairs[i] == PairOf(name, augmented, breakers[i])
    ensures match FindByName(pairs, strategyName)
            case None => forall b | b in breakers :: b.name != strategyName
            case Some(p) => exists b :: b in breakers && b.name == strategyName && p == PairOf(name, augmented, b)
  {
    if pairs != [] {
      FindMapped(name, augmented, breakers[1..], pairs[1..], strategyName);
      assert breakers == [breakers[0]] + breakers[1..];
    }
  }

  /** A breaker of the new list matches the item exactly when it is in the old list, under equal selectors. */
  lemma MatchesOld(name: string, previous: ServiceSpec, oldSelector: Option<Selector>, b: BreakerSpec, selector: Option<Selector>)
    requires ValidLabelValue(name) && UniqueNames(previous.breakers)
    ensures BreakerMatches(NewItem(name, previous, oldSelector).value, b, selector)
      <==> b in previous.breakers && SelectorWithBreakerName(selector, name) == SelectorWithBreakerName(oldSelector, name)
  {
    var item := NewItem(name, previous, oldSelector).value;
    FindMapped(name, item.selector, previous.breakers, item.breakers, b.name);
    if b in previous.breakers {
      assert forall o | o in previous.breakers && o.name == b.name :: o == b;
    }
  }

  /** Distinct elements of a list of the same length, all from another list: the two are permutations of each other. */
  lemma {:induction false} Pigeonhole<T>(small: seq<T>, large: seq<T>)
    requires |small| == |large| && NoDuplicates(small) && forall x | x in small :: x in large
    ensures multiset(small) == multiset(large)
  {
    if small == [] {
      assert small == large;
    } else {
      var init, x := small[..|small| - 1], small[|small| - 1];
      assert small == init + [x];
      assert x in small;
      var i :| 0 <= i < |large| && large[i] == x;
      var rest := large[..i] + large[i + 1..];
      assert large == large[..i] + [x] + large[i + 1..];
      forall y | y in init
        ensures y in rest
      {
        assert y in small && y != x;
      }
      Pigeonhole(init, rest);
    }
  }

  lemma {:induction false} PermutationMembers<T>(s: seq<T>, t: seq<T>, x: T)
    requires multiset(s) == multiset(t)
    ensures x in s <==> x in t
  {
    assert x in multiset(s) <==> x in s;
    assert x in multiset(t) <==> x in t;
  }

  /** What CompareWithSpec computes, for an item built from a specification with unique breaker names. */
  lemma SameConfiguration(name: string, previous: ServiceSpec, oldSelector: Option<Selector>, spec: ServiceSpec, selector: Option<Selector>)
    requires ValidLabelValue(name) && UniqueNames(previous.breakers) && UniqueNames(spec.breakers)
    ensures
      var item := NewItem(name, previous, oldSelector).value;
      (&& item.defaultActivator.CompareConfig(spec.defaultActivator, selector)
       && |spec.breakers| == |item.breakers|
       && forall i | 0 <= i < |spec.breakers| :: BreakerMatches(item, spec.breakers[i], selector))
      <==>
      (&& spec.defaultActivator == previous.defaultActivator
       && Requirements(selector) == Requirements(oldSelector)
       && multiset(spec.breakers) == multiset(previous.breakers))
  {
    AugmentedAgree(selector, oldSelector, name);
    var item := NewItem(name, previous, oldSelector).value;
    forall i | 0 <= i < |spec.breakers|
      ensures BreakerMatches(item, spec.breakers[i], selector)
        <==> spec.breakers[i] in previous.breakers && SelectorWithBreakerName(selector, name) == SelectorWithBreakerName(oldSelector, name)
    {
      MatchesOld(name, previous, oldSelector, spec.breakers[i], selector);
    }
    if |spec.breakers| == |previous.breakers| && forall b | b in spec.breakers :: b in previous.breakers {
      Pigeonhole(spec.breakers, previous.breakers);
    }
    if multiset(spec.breakers) == multiset(previous.breakers) {
      assert |multiset(spec.breakers)| == |multiset(previous.breakers)|;
      forall i | 0 <= i < |spec.breakers|
        ensures spec.breakers[i] in previous.breakers
      {
        PermutationMembers(spec.breakers, previous.breakers, spec.breakers[i]);
      }
    }
  }

  /** A new specification is the item's own exactly when only the order of the breakers differs. */
  method CompareWithNewSpec(name: string, previous: ServiceSpec, oldSelector: Option<Selector>,
                            spec: ServiceSpec, selector: Option<Selector>)
    returns (differs: bool)
    requires ValidLabelValue(name) && UniqueNames(previous.breakers) && UniqueNames(spec.breakers)
    ensures !differs <==>
      && spec.defaultActivator == previous.defaultActivator
      && Requirements(selector) == Requirements(oldSelector)
      && multiset(spec.breakers) == multiset(previous.breakers)
  {
    var item := NewItem(name, previous, oldSelector);
    SameConfiguration(name, previous, oldSelector, spec, selector);
    differs := CompareWithSpec(item.value, spec, selector);
  }
}
