/**
  When an elector makes its calls: `acquire` and `renewUntilFunc` of
  pkg/leaderelection on top of the vendored `wait.JitterUntil` and `wait.Poll`,
  with timers that fire on time. While it acquires, an elector waits retryPeriod
  or more after a call. While it renews, `Poll` wakes it at the multiples of
  retryPeriod that it is not busy at, and once more when renewDeadline is over,
  which can be right after a call. A restarted elector makes its first call at
  least a second after the last one of its predecessor.
 */
module CallSchedule {
  import opened LeaderElection
  import opened LeaseProtocol
  import opened LeaseSteps

  /** Why a call starts: `acquire` calls, or the k-th tick or the end of the poll begun at `began`. */
  datatype Wake = Jitter | Tick(began: int, k: nat) | Timeout(began: int)

  function TickAt(c: Config, began: int, k: nat): int {
    began + k * c.retryPeriod
  }

  /** After this call the elector starts its next poll. */
  predicate PollNext(wake: Wake, call: CallRecord) {
    wake.Timeout? || call.succeeded
  }

  /** Whether a call made for `wake` can be followed by one that starts at `start` for `next`. */
  ghost predicate Follows(c: Config, wake: Wake, call: CallRecord, next: Wake, start: int) {
    match next
    case Jitter =>
      wake.Jitter? && !call.succeeded && call.end + c.retryPeriod <= start <= call.end + c.retryPeriod + JitteredRetry(c.retryPeriod)
    case Tick(began, k) =>
      && 1 <= k && start == TickAt(c, began, k) && start <= began + c.renewDeadline
      && if k == 1 then PollNext(wake, call) && call.end <= began
         else wake.Tick? && wake.began == began && wake.k < k && !call.succeeded && TickAt(c, began, k - 1) <= call.end <= start
    case Timeout(began) =>
      && wake.Tick? && wake.began == began && !call.succeeded
      && start == (if call.end <= began + c.renewDeadline then began + c.renewDeadline else call.end)
      && forall j: nat | TickAt(c, began, j) < began + c.renewDeadline :: TickAt(c, began, j) <= call.end
  }

  ghost predicate Explains(c: Config, wakes: seq<Wake>, calls: seq<CallRecord>) {
    && |wakes| == |calls|
    && (wakes != [] ==> wakes[0] == Jitter)
    && forall i | 0 < i < |calls| :: Follows(c, wakes[i - 1], calls[i - 1], wakes[i], calls[i].start)
  }

  ghost predicate Explained(c: Config, calls: seq<CallRecord>) {
    exists wakes :: Explains(c, wakes, calls)
  }

  /** From `start` to w, every elector's calls were made on schedule. */
  ghost predicate Scheduled(c: Config, start: World, w: World) {
    forall n | n in w.electors && n in start.electors ::
      && Explained(c, w.electors[n].calls)
      && (w.electors[n].calls != [] ==> start.electors[n].lastStart + c.second <= w.electors[n].calls[0].start)
  }

  /** A state that some run leads to in which all calls are on schedule. */
  ghost predicate OnSchedule(c: Config, w: World)
    requires 1 <= c.second
  {
    exists start :: Init(c, start) && Leads(c, start, w) && Scheduled(c, start, w)
  }

  // ---------- how close two calls can be ----------

  predicate Spaced(calls: seq<CallRecord>, distance: int) {
    forall i | 0 < i < |calls| :: calls[i - 1].start + distance <= calls[i].start
  }

  /** The rest of renewDeadline after its last tick; if there is none, a call at the deadline is followed by another at once. */
  function LeastDistance(c: Config): int
    requires 1 <= c.retryPeriod && 0 <= c.renewDeadline
  {
    if c.renewDeadline % c.retryPeriod == 0 then 1 else c.renewDeadline % c.retryPeriod
  }

  lemma LastTick(r: int, deadline: int, k: nat)
    requires 1 <= r && 0 <= deadline && k * r <= deadline
    ensures k <= deadline / r && k * r + deadline % r <= deadline
  {
    var m := deadline / r;
    assert deadline == m * r + deadline % r;
    assert (m + 1) * r == m * r + r;
    if m < k {
      Multiples(m + 1, k, r);
    } else {
      Multiples(k, m, r);
    }
  }

  lemma Multiples(i: nat, k: nat, r: nat)
    requires i <= k
    ensures i * r <= k * r
  {
    assert k * r == i * r + (k - i) * r;
    assert 0 <= (k - i) * r;
  }

  lemma TickStart(c: Config, wakes: seq<Wake>, calls: seq<CallRecord>, i: nat)
    requires Explains(c, wakes, calls) && i < |calls| && wakes[i].Tick?
    ensures calls[i].start == TickAt(c, wakes[i].began, wakes[i].k) <= wakes[i].began + c.renewDeadline
  {
    assert 0 < i && Follows(c, wakes[i - 1], calls[i - 1], wakes[i], calls[i].start);
  }

  lemma FollowsApart(c: Config, wake: Wake, call: CallRecord, next: Wake, start: int)
    requires 1 <= c.retryPeriod && 0 <= c.renewDeadline && Follows(c, wake, call, next, start)
    requires call.start < start && call.start <= call.end
    requires wake.Tick? ==> call.start == TickAt(c, wake.began, wake.k) <= wake.began + c.renewDeadline
    ensures call.start + LeastDistance(c) <= start
  {
    match next
    case Jitter =>
    case Tick(began, k) =>
      if k != 1 {
        Multiples(wake.k + 1, k, c.retryPeriod);
        assert (wake.k + 1) * c.retryPeriod == wake.k * c.retryPeriod + c.retryPeriod;
      }
    case Timeout(began) => LastTick(c.retryPeriod, c.renewDeadline, wake.k);
  }

  /** Consecutive calls start at least LeastDistance apart. */
  lemma StartsApart(c: Config, wakes: seq<Wake>, calls: seq<CallRecord>)
    requires 1 <= c.retryPeriod && 0 <= c.renewDeadline && Explains(c, wakes, calls)
    requires Spaced(calls, 1) && forall i | 0 <= i < |calls| :: calls[i].start <= calls[i].end
    ensures Spaced(calls, LeastDistance(c))
  {
    forall i | 0 < i < |calls|
      ensures calls[i - 1].start + LeastDistance(c) <= calls[i].start
    {
      if wakes[i - 1].Tick? {
        TickStart(c, wakes, calls, i - 1);
      }
      FollowsApart(c, wakes[i - 1], calls[i - 1], wakes[i], calls[i].start);
    }
  }

  // ---------- scheduled runs are runs of electors that keep that distance ----------

  /** What every run keeps of the calls made since `start`. */
  ghost predicate CallsOk(c: Config, start: World, w: World) {
    w.electors.Keys == start.electors.Keys && forall n | n in w.electors :: ElectorCalls(c, start.electors[n], w, n, w.electors[n])
  }

  ghost predicate ElectorCalls(c: Config, first: Elector, w: World, n: string, e: Elector) {
    && (e.calls == [] ==> e.call.Idle? && e.lastStart == first.lastStart)
    && (e.calls != [] ==> e.calls[|e.calls| - 1].start == e.lastStart)
    && (!e.call.Idle? ==> e.lastStart <= Clock(c, w, n))
    && Spaced(e.calls, c.gap)
    && forall i | 0 <= i < |e.calls| :: e.calls[i].start <= e.calls[i].end
  }

  lemma StartedCalls(c: Config, first: Elector, w: World, n: string, e: Elector)
    requires ElectorCalls(c, first, w, n, e) && e.lastStart + c.gap <= Clock(c, w, n)
    ensures ElectorCalls(c, first, w, n, Started(e, Clock(c, w, n))) && SameStarts(e.calls, Started(e, Clock(c, w, n)).calls)
  {
  }

  lemma ReturnedCalls(c: Config, first: Elector, w: World, n: string, e: Elector, succeeded: bool)
    requires ElectorCalls(c, first, w, n, e) && !e.call.Idle?
    ensures ElectorCalls(c, first, w, n, Returned(e, Clock(c, w, n), succeeded))
    ensures SameStarts(e.calls, Returned(e, Clock(c, w, n), succeeded).calls)
  {
  }

  /** What a step of n can do to its calls. */
  lemma StepKinds(c: Config, w: World, n: string, stage: Stage)
    requires 1 <= c.second && n in w.electors
    ensures var e, w' := w.electors[n], ElectorStep(c, w, n, w.electors[n], stage);
            && w'.electors.Keys == w.electors.Keys && w'.time == w.time
            && (forall m | m in w.electors && m != n :: w'.electors[m] == w.electors[m])
            && var e' := w'.electors[n];
            && (|| (e'.calls == e.calls && e'.lastStart == e.lastStart && (e.call.Idle? <==> e'.call.Idle?))
                || (MayBegin(c, w, n) && e' == Started(e, Clock(c, w, n)))
                || (!e.call.Idle? && e'.call.Idle? && e'.lastStart == e.lastStart &&
                    exists ok :: e'.calls == Returned(e, Clock(c, w, n), ok).calls))
  {
    var e, e' := w.electors[n], ElectorStep(c, w, n, w.electors[n], stage).electors[n];
    if !e.call.Idle? && e'.call.Idle? {
      assert e'.calls == Returned(e, Clock(c, w, n), stage == Ack).calls;
    }
  }

  lemma StepCalls(c: Config, first: Elector, w: World, n: string, stage: Stage)
    requires 1 <= c.second && n in w.electors && ElectorCalls(c, first, w, n, w.electors[n])
    ensures var w' := ElectorStep(c, w, n, w.electors[n], stage);
            && n in w'.electors && ElectorCalls(c, first, w', n, w'.electors[n])
            && SameStarts(w.electors[n].calls, w'.electors[n].calls)
  {
    var e, e' := w.electors[n], ElectorStep(c, w, n, w.electors[n], stage).electors[n];
    StepKinds(c, w, n, stage);
    if e.call.Idle? && !e'.call.Idle? {
      StartedCalls(c, first, w, n, e);
    } else if !e.call.Idle? && e'.call.Idle? {
      var ok :| e'.calls == Returned(e, Clock(c, w, n), ok).calls;
      ReturnedCalls(c, first, w, n, e, ok);
    }
  }

  predicate SameStarts(before: seq<CallRecord>, after: seq<CallRecord>) {
    |before| <= |after| && forall i | 0 <= i < |before| :: after[i].start == before[i].start
  }

  lemma StepCallsOk(c: Config, start: World, w: World, a: Action)
    requires 1 <= c.second && CallsOk(c, start, w)
    ensures CallsOk(c, start, Step(c, w, a))
    ensures forall n | n in w.electors :: SameStarts(w.electors[n].calls, Step(c, w, a).electors[n].calls)
  {
    match a
    case Pass(_) =>
    case Apply(_) =>
    case Act(n, stage) =>
      if n in w.electors {
        StepKinds(c, w, n, stage);
        StepCalls(c, start.electors[n], w, n, stage);
      }
  }

  /** All calls since `start` are `distance` apart, the first one from the last before it. */
  ghost predicate AllSpaced(start: World, w: World, distance: int) {
    w.electors.Keys == start.electors.Keys && forall n | n in w.electors :: ElectorSpaced(start.electors[n], w.electors[n], distance)
  }

  predicate ElectorSpaced(first: Elector, e: Elector, distance: int) {
    && (e.calls != [] ==> first.lastStart + distance <= e.calls[0].start)
    && Spaced(e.calls, distance)
  }

  lemma SpacedBefore(first: Elector, e: Elector, e': Elector, distance: int)
    requires SameStarts(e.calls, e'.calls) && ElectorSpaced(first, e', distance)
    ensures ElectorSpaced(first, e, distance)
  {
  }

  lemma SpacedBegin(c: Config, first: Elector, w: World, n: string, e: Elector, distance: int)
    requires ElectorCalls(c, first, w, n, e) && ElectorSpaced(first, Started(e, Clock(c, w, n)), distance)
    ensures e.lastStart + distance <= Clock(c, w, n)
  {
    var calls := Started(e, Clock(c, w, n)).calls;
    assert calls[|calls| - 1].start == Clock(c, w, n);
    assert e.calls != [] ==> calls[|calls| - 2] == e.calls[|e.calls| - 1];
  }

  /** Only the start of a call depends on the distance. */
  lemma SameStep(c: Config, w: World, a: Action, distance: int)
    requires 1 <= c.second && c.gap <= distance
    requires a.Act? && a.stage == Begin && MayBegin(c, w, a.node) ==> w.electors[a.node].lastStart + distance <= Clock(c, w, a.node)
    ensures Step(c.(gap := distance), w, a) == Step(c, w, a)
  {
    var d := c.(gap := distance);
    match a
    case Pass(_) =>
    case Apply(q) =>
      TruncSame(c, d, q.record.acquire);
      TruncSame(c, d, q.record.renew);
    case Act(n, stage) =>
  }

  /** A step that keeps that distance is allowed to electors that have to keep it. */
  lemma SpacedStep(c: Config, start: World, w: World, a: Action, distance: int)
    requires 1 <= c.second && CallsOk(c, start, w) && c.gap <= distance && AllSpaced(start, Step(c, w, a), distance)
    ensures AllSpaced(start, w, distance)
    ensures Step(c.(gap := distance), w, a) == Step(c, w, a)
  {
    StepCallsOk(c, start, w, a);
    forall n | n in w.electors
      ensures ElectorSpaced(start.electors[n], w.electors[n], distance)
    {
      SpacedBefore(start.electors[n], w.electors[n], Step(c, w, a).electors[n], distance);
    }
    if a.Act? && a.stage == Begin && MayBegin(c, w, a.node) {
      assert Step(c, w, a).electors[a.node] == Started(w.electors[a.node], Clock(c, w, a.node));
      SpacedBegin(c, start.electors[a.node], w, a.node, w.electors[a.node], distance);
    }
    SameStep(c, w, a, distance);
  }

  lemma {:induction false} SpacedRun(c: Config, start: World, actions: seq<Action>, distance: int)
    requires 1 <= c.second && Init(c, start)
    ensures CallsOk(c, start, Run(c, start, actions))
    ensures c.gap <= distance && AllSpaced(start, Run(c, start, actions), distance) ==>
      Run(c.(gap := distance), start, actions) == Run(c, start, actions)
  {
    if actions != [] {
      var init, last := actions[..|actions| - 1], actions[|actions| - 1];
      SpacedRun(c, start, init, distance);
      var w := Run(c, start, init);
      StepCallsOk(c, start, w, last);
      if c.gap <= distance && AllSpaced(start, Step(c, w, last), distance) {
        SpacedStep(c, start, w, last, distance);
      }
    }
  }

  /** A scheduled run is a run of electors whose calls are a second apart, if the last tick is a second before the deadline. */
  lemma ScheduledRun(c: Config, start: World, actions: seq<Action>)
    requires ValidConfig(c) && 1 <= c.retryPeriod && c.gap <= c.second <= c.renewDeadline % c.retryPeriod
    requires Init(c, start) && Scheduled(c, start, Run(c, start, actions))
    ensures Run(c.(gap := c.second), start, actions) == Run(c, start, actions)
  {
    SpacedRun(c, start, actions, c.second);
    var w := Run(c, start, actions);
    forall n | n in w.electors
      ensures ElectorSpaced(start.electors[n], w.electors[n], c.second)
    {
      var calls := w.electors[n].calls;
      assert ElectorCalls(c, start.electors[n], w, n, w.electors[n]);
      var wakes :| Explains(c, wakes, calls);
      StartsApart(c, wakes, calls);
    }
  }
}
