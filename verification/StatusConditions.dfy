/** The status conditions of pkg/controller/utils.go. */
module StatusConditions {
  import opened Common

  /** The declared condition types, and whatever else a stored status may hold. */
  datatype ConditionType = InitFailed | Running | ServiceNotAvailable | Failed | OtherType(text: string)

  datatype Condition = Condition(
    kind: ConditionType,
    status: ConditionStatus,
    lastProbeTime: int,
    lastTransitionTime: Option<int>,
    reason: string,
    message: string)

  datatype PodCounts = PodCounts(managed: nat, breaked: nat, paused: nat, unknown: nat, lastProbeTime: int)

  datatype Status = Status(conditions: seq<Condition>, startTime: Option<int>, podCounts: Option<PodCounts>)

  /** The three updates the controller makes. */
  datatype Update =
    | ServiceError(message: string, time: int)
    | InitFailure(message: string, time: int)
    | NowRunning(message: string, time: int)
  {
    function Kind(): ConditionType {
      match this
      case ServiceError(_, _) => ServiceNotAvailable
      case InitFailure(_, _) => InitFailed
      case NowRunning(_, _) => Running
    }

    function Reason(): string {
      match this
      case ServiceError(_, _) => "Kubernetes service not found"
      case InitFailure(_, _) => "KubervisorService initialization failed"
      case NowRunning(_, _) => "KubervisorService running"
    }

    function NewCondition(): Condition {
      Condition(Kind(), True, time, None, Reason(), message)
    }
  }

  function Probed(c: Condition, status: ConditionStatus, time: int): Condition {
    c.(lastProbeTime := time, status := status)
  }

  function Refreshed(u: Update, c: Condition): Condition {
    Probed(c, if c.kind == u.Kind() then True else False, u.time)
  }

  predicate HasKind(conditions: seq<Condition>, kind: ConditionType) {
    conditions != [] && (HasKind(conditions[..|conditions| - 1], kind) || conditions[|conditions| - 1].kind == kind)
  }

  function RefreshedAll(u: Update, conditions: seq<Condition>): (r: seq<Condition>)
    ensures |r| == |conditions|
    ensures forall i | 0 <= i < |r| :: r[i] == Refreshed(u, conditions[i])
  {
    if conditions == [] then []
    else RefreshedAll(u, conditions[..|conditions| - 1]) + [Refreshed(u, conditions[|conditions| - 1])]
  }

  function Updated(s: Status, u: Update): Status {
    s.(conditions := RefreshedAll(u, s.conditions) + if HasKind(s.conditions, u.Kind()) then [] else [u.NewCondition()])
  }

  /** The condition that an update reports. */
  predicate Reports(c: Condition, u: Update) {
    match u
    case ServiceError(message, time) =>
      c == Condition(ServiceNotAvailable, True, time, None, "Kubernetes service not found", message)
    case InitFailure(message, time) =>
      c == Condition(InitFailed, True, time, None, "KubervisorService initialization failed", message)
    case NowRunning(message, time) =>
      c == Condition(Running, True, time, None, "KubervisorService running", message)
  }

  /** The type of that condition. */
  predicate IsKind(kind: ConditionType, u: Update) {
    match u
    case ServiceError(_, _) => kind == ServiceNotAvailable
    case InitFailure(_, _) => kind == InitFailed
    case NowRunning(_, _) => kind == Running
  }

  /**
    What one update leaves: the conditions that were there, in place, probed now
    and true exactly if they are of the reported type, with their own reason,
    message and transition time; and, if none of them was, the reported one.
   */
  lemma UpdateLeaves(s: Status, u: Update)
    ensures var n, after := |s.conditions|, Updated(s, u).conditions;
            && Updated(s, u) == s.(conditions := after)
            && n <= |after|
            && (forall i | 0 <= i < n ::
                  after[i] == s.conditions[i].(lastProbeTime := u.time, status := if IsKind(s.conditions[i].kind, u) then True else False))
            && (if exists i :: 0 <= i < n && IsKind(s.conditions[i].kind, u) then |after| == n
                else |after| == n + 1 && Reports(after[n], u))
  {
    HasKindAt(s.conditions, u.Kind());
    var refreshed := RefreshedAll(u, s.conditions);
    assert forall i | 0 <= i < |refreshed| :: Updated(s, u).conditions[i] == Refreshed(u, s.conditions[i]);
  }

  lemma NextRefreshed(u: Update, before: seq<Condition>, i: nat, conditions: seq<Condition>)
    requires i < |before| && conditions == RefreshedAll(u, before[..i]) + before[i..]
    ensures conditions[i] == before[i]
    ensures conditions[i := Refreshed(u, before[i])] == RefreshedAll(u, before[..i + 1]) + before[i + 1..]
    ensures HasKind(before[..i + 1], u.Kind()) <==> HasKind(before[..i], u.Kind()) || before[i].kind == u.Kind()
  {
    assert before[..i + 1][..i] == before[..i];
    assert RefreshedAll(u, before[..i + 1]) == RefreshedAll(u, before[..i]) + [Refreshed(u, before[i])];
  }

  /** `UpdateStatusCondition` on a copy, as each of the wrappers calls it. */
  method UpdateStatusCondition(status: Status, u: Update) returns (newStatus: Status)
    ensures newStatus == Updated(status, u)
  {
    var conditions := status.conditions;
    var found := false;
    for i := 0 to |status.conditions|
      invariant conditions == RefreshedAll(u, status.conditions[..i]) + status.conditions[i..]
      invariant found <==> HasKind(status.conditions[..i], u.Kind())
    {
      NextRefreshed(u, status.conditions, i, conditions);
      if conditions[i].kind == u.Kind() {
        found := true;
        conditions := conditions[i := Probed(conditions[i], True, u.time)];
      } else {
        conditions := conditions[i := Probed(conditions[i], False, u.time)];
      }
    }
    assert status.conditions[..|status.conditions|] == status.conditions;
    assert conditions == RefreshedAll(u, status.conditions);
    if found {
      assert conditions + [] == conditions;
    } else {
      conditions := conditions + [u.NewCondition()];
    }
    newStatus := status.(conditions := conditions);
  }

  lemma {:induction false} HasKindAt(conditions: seq<Condition>, kind: ConditionType)
    ensures HasKind(conditions, kind) <==> exists i :: 0 <= i < |conditions| && conditions[i].kind == kind
  {
    if conditions != [] {
      var init := conditions[..|conditions| - 1];
      HasKindAt(init, kind);
      if HasKind(init, kind) {
        var i :| 0 <= i < |init| && init[i].kind == kind;
        assert conditions[i].kind == kind;
      }
    }
  }

  // ---------- any sequence of updates ----------

  predicate UniqueKinds(conditions: seq<Condition>) {
    forall i, j | 0 <= i < j < |conditions| :: conditions[i].kind != conditions[j].kind
  }

  function AllUpdated(s: Status, updates: seq<Update>): Status {
    if updates == [] then s
    else Updated(AllUpdated(s, updates[..|updates| - 1]), updates[|updates| - 1])
  }

  /** The conditions of `before` are still there, in place, with all that an update does not write. */
  predicate KeepsOrder(before: seq<Condition>, after: seq<Condition>) {
    |before| <= |after| && forall i | 0 <= i < |before| ::
      after[i] == before[i].(status := after[i].status, lastProbeTime := after[i].lastProbeTime)
  }

  /** All conditions were probed now, and the one that is true has this type. */
  predicate OnlyTrue(conditions: seq<Condition>, kind: ConditionType, time: int) {
    && (forall i | 0 <= i < |conditions| :: conditions[i].lastProbeTime == time)
    && (exists i :: 0 <= i < |conditions| && conditions[i].kind == kind)
    && forall i | 0 <= i < |conditions| :: conditions[i].status == if conditions[i].kind == kind then True else False
  }

  lemma UniqueAfter(s: Status, u: Update)
    requires UniqueKinds(s.conditions)
    ensures UniqueKinds(Updated(s, u).conditions) && KeepsOrder(s.conditions, Updated(s, u).conditions)
  {
    HasKindAt(s.conditions, u.Kind());
    var refreshed := RefreshedAll(u, s.conditions);
    assert forall i | 0 <= i < |refreshed| :: Updated(s, u).conditions[i] == Refreshed(u, s.conditions[i]);
  }

  lemma TrueAfter(s: Status, u: Update)
    ensures OnlyTrue(Updated(s, u).conditions, u.Kind(), u.time)
  {
    var n, t := |s.conditions|, Updated(s, u).conditions;
    HasKindAt(s.conditions, u.Kind());
    if HasKind(s.conditions, u.Kind()) {
      var i :| 0 <= i < n && s.conditions[i].kind == u.Kind();
      assert t[i].kind == u.Kind();
    } else {
      assert t[n].kind == u.Kind();
    }
  }

  /** Types stay unique and in order, the last update names the only true condition, and the rest of the status is untouched. */
  lemma {:induction false} ConditionsInvariant(s: Status, updates: seq<Update>)
    requires UniqueKinds(s.conditions)
    ensures var t := AllUpdated(s, updates);
            && UniqueKinds(t.conditions)
            && KeepsOrder(s.conditions, t.conditions)
            && (updates != [] ==> OnlyTrue(t.conditions, updates[|updates| - 1].Kind(), updates[|updates| - 1].time))
            && t.startTime == s.startTime && t.podCounts == s.podCounts
  {
    if updates != [] {
      ConditionsInvariant(s, updates[..|updates| - 1]);
      UniqueAfter(AllUpdated(s, updates[..|updates| - 1]), updates[|updates| - 1]);
      TrueAfter(AllUpdated(s, updates[..|updates| - 1]), updates[|updates| - 1]);
    }
  }
}
