/**
  What the whole-second timestamps of the stored record cost. A renewal within
  the second of the record it renews stores the same record again: other
  electors do not see it. The lemmas here find the exact conditions on the
  distance `gap` between the calls of one elector, and on the durations, under
  which the lease and its windows are safe; CallSchedule finds which
  configurations keep such a distance.
 */
module LeaseGranularity {
  import opened Common
  import opened LeaderElection
  import opened LeaseProtocol
  import opened LeaseSteps

  // ---------- two electors ----------

  /** b starts its first call so long before a's that it may call again when its lease runs out. */
  function Ahead(c: Config): nat {
    if c.gap <= c.leaseDuration then 0 else c.gap - c.leaseDuration
  }

  function FirstRecord(c: Config): Record
    requires 1 <= c.second
  {
    Candidate(c, "a", 0)
  }

  function FirstWrite(c: Config): Request
    requires 1 <= c.second
  {
    Request("a", 0, FirstRecord(c), 0)
  }

  /** The time when a's clock shows 0. */
  function Zero(c: Config): int {
    -c.offset("a")
  }

  function FirstHistory(c: Config): seq<Entry>
    requires 1 <= c.second
  {
    [Entry(FirstRecord(c), Zero(c), Some(FirstWrite(c)))]
  }

  /** When b's first call begins, on b's clock. */
  function Start(c: Config): int {
    Zero(c) - Ahead(c) + c.offset("b")
  }

  /** b's first call: it has seen a's record when a's clock showed 0. */
  function Watching(c: Config): Elector
    requires 1 <= c.second
  {
    var now := Zero(c) + c.offset("b");
    Elector(Idle, Observation(FirstRecord(c), true), now, 1, [], [CallRecord(Start(c), now, false)], Start(c))
  }

  /** a has created the record at its time 0 and missed the answer. */
  function Unanswered(): Elector {
    NewElector(0).(calls := [CallRecord(0, 0, false)])
  }

  function BeginsWatching(c: Config): Elector {
    Started(NewElector(Start(c) - c.gap), Start(c))
  }

  /** ... and b has observed it. */
  function Observed(c: Config): World
    requires 1 <= c.second
  {
    Two(Zero(c), FirstHistory(c), {FirstWrite(c)}, Unanswered(), Watching(c))
  }

  lemma CreateUnanswered(c: Config, b: Elector)
    requires ValidConfig(c)
    ensures Leads(c, Two(Zero(c), [], {}, NewElector(-c.gap), b), Two(Zero(c), FirstHistory(c), {FirstWrite(c)}, Unanswered(), b))
  {
    var q := FirstWrite(c);
    var a, a1 := NewElector(-c.gap), Started(NewElector(-c.gap), 0).(call := Waiting(FirstWrite(c)));
    var w, w1 := Two(Zero(c), [], {}, a, b), Two(Zero(c), [], {q}, a1, b);
    CreateCall(c, w, "a");
    PutTwo(Zero(c), [], {}, a, b, a1);
    assert Send(w, "a", Started(a, 0), q) == w1;
    var w2 := Two(Zero(c), FirstHistory(c), {q}, a1, b);
    Applies(c, w1, q);
    assert Stored(c, FirstRecord(c)) == FirstRecord(c);
    LeadsOn(c, w, w1, w2);
    GivesUp(c, w2, "a");
    assert Returned(a1, Clock(c, w2, "a"), false) == Unanswered();
    PutTwo(Zero(c), FirstHistory(c), {q}, a1, b, Unanswered());
    LeadsOn(c, w, w2, Two(Zero(c), FirstHistory(c), {q}, Unanswered(), b));
  }

  lemma Watches(c: Config)
    requires ValidConfig(c)
    ensures Leads(c, Two(Zero(c), FirstHistory(c), {FirstWrite(c)}, Unanswered(), BeginsWatching(c)), Observed(c))
  {
    var h, p, b := FirstHistory(c), {FirstWrite(c)}, BeginsWatching(c);
    var w := Two(Zero(c), h, p, Unanswered(), b);
    FindsAndDecides(c, w, "b");
    var f := b.(call := Fetched(Start(c), FirstRecord(c), 1));
    assert Returned(Observe(f, FirstRecord(c), 1, Clock(c, w, "b")), Clock(c, w, "b"), false) == Watching(c);
    PutTwo(Zero(c), h, p, Unanswered(), b, f);
    PutTwo(Zero(c), h, p, Unanswered(), f, Watching(c));
  }

  lemma ObservedReachable(c: Config)
    requires ValidConfig(c)
    ensures Reachable(c, Observed(c))
  {
    var a, b := NewElector(-c.gap), NewElector(Start(c) - c.gap);
    var w := Two(Zero(c) - Ahead(c), [], {}, a, b);
    Begins(c, w, "b");
    PutTwo(w.time, [], {}, a, b, BeginsWatching(c));
    var w1 := Two(w.time, [], {}, a, BeginsWatching(c));
    var w2 := Two(Zero(c), [], {}, a, BeginsWatching(c));
    LeadsPass(c, w1, Ahead(c));
    LeadsOn(c, w, w1, w2);
    CreateUnanswered(c, BeginsWatching(c));
    Watches(c);
    LeadsOn(c, w2, Two(Zero(c), FirstHistory(c), {FirstWrite(c)}, Unanswered(), BeginsWatching(c)), Observed(c));
    LeadsOn(c, w, w2, Observed(c));
    assert Init(c, w);
  }

  /** a renews at its time t. */
  function Renewal(c: Config, t: nat): Request
    requires 1 <= c.second
  {
    Request("a", t, Successor(c, "a", t, FirstRecord(c)), 1)
  }

  function Renewing(c: Config, t: nat): Elector
    requires 1 <= c.second
  {
    Elector(Waiting(Renewal(c, t)), Observation(FirstRecord(c), true), t, 1, [],
            [CallRecord(0, 0, false), CallRecord(t, t, false)], t)
  }

  /** The renewal has reached the server `delay` later. */
  function Renewed(c: Config, t: nat, delay: nat): World
    requires 1 <= c.second
  {
    var at := Zero(c) + t + delay;
    Two(at, FirstHistory(c) + [Entry(FirstRecord(c), at, Some(Renewal(c, t)))], {FirstWrite(c), Renewal(c, t)},
        Renewing(c, t), Watching(c))
  }

  function Sent(c: Config, t: nat): World
    requires 1 <= c.second
  {
    Two(Zero(c) + t, FirstHistory(c), {FirstWrite(c), Renewal(c, t)}, Renewing(c, t), Watching(c))
  }

  lemma SendsRenewal(c: Config, t: nat)
    requires ValidConfig(c) && c.gap <= t
    ensures Leads(c, Observed(c).(time := Zero(c) + t), Sent(c, t))
  {
    var w := Observed(c).(time := Zero(c) + t);
    ClaimCall(c, w, "a");
    assert Clock(c, w, "a") == t;
    assert Claiming(c, w, "a").calls == Renewing(c, t).calls;
    PutTwo(w.time, FirstHistory(c), {FirstWrite(c)}, Unanswered(), Watching(c), Renewing(c, t));
    assert {FirstWrite(c)} + {Renewal(c, t)} == {FirstWrite(c), Renewal(c, t)};
  }

  /** Within the second of its first record, a renews unseen. */
  lemma RenewsUnseen(c: Config, t: nat, delay: nat)
    requires ValidConfig(c) && c.gap <= t < c.second
    ensures Leads(c, Observed(c), Renewed(c, t, delay))
  {
    var w := Observed(c).(time := Zero(c) + t);
    LeadsPass(c, Observed(c), t);
    SendsRenewal(c, t);
    LeadsOn(c, Observed(c), w, Sent(c, t));
    var w' := Sent(c, t).(time := Zero(c) + t + delay);
    LeadsPass(c, Sent(c, t), delay);
    LeadsOn(c, Observed(c), Sent(c, t), w');
    Applies(c, w', Renewal(c, t));
    assert Stored(c, Renewal(c, t).record) == FirstRecord(c);
    LeadsOn(c, Observed(c), w', Renewed(c, t, delay));
  }

  lemma RenewedReachable(c: Config, t: nat, delay: nat)
    requires ValidConfig(c) && c.gap <= t < c.second
    ensures Reachable(c, Renewed(c, t, delay))
  {
    ObservedReachable(c);
    RenewsUnseen(c, t, delay);
    LeadsReachable(c, Observed(c), Renewed(c, t, delay));
  }

  lemma LeadsReachable(c: Config, w: World, w': World)
    requires 1 <= c.second && Reachable(c, w) && Leads(c, w, w')
    ensures Reachable(c, w')
  {
    var start :| Init(c, start) && Leads(c, start, w);
    LeadsOn(c, start, w, w');
  }

  /** ... and b, which saw the first record stand, takes over. */
  lemma TakesOverUnseen(c: Config, t: nat, delay: nat)
    requires ValidConfig(c) && c.gap <= t < c.second && c.leaseDuration <= t + delay
    ensures var w := Claimed(c, Renewed(c, t, delay), "b");
            && Reachable(c, w) && |w.history| == 3
            && w.history[1] == Entry(FirstRecord(c), Zero(c) + t + delay, Some(Renewal(c, t)))
            && w.history[2].record.holder == "b" && w.history[2].at == Zero(c) + t + delay
            && ClaimedAt(c, w.history[2]) == Zero(c) + t + delay
  {
    var w := Renewed(c, t, delay);
    RenewedReachable(c, t, delay);
    ClaimSucceeds(c, w, "b");
    LeadsReachable(c, w, Claimed(c, w, "b"));
  }

  // ---------- exclusion ----------

  /** The lease is respected in every run of every set of electors. */
  ghost predicate LeaseSafe(c: Config)
    requires 1 <= c.second
  {
    forall w | Reachable(c, w) :: Exclusive(c, w.history)
  }

  /** A run that takes a lease over which was renewed at that very moment. */
  lemma LostRenewal(c: Config)
    requires ValidConfig(c) && c.gap < c.second
    ensures exists w :: Reachable(c, w) && !Exclusive(c, w.history)
  {
    TakesOverUnseen(c, c.gap, c.leaseDuration);
    var w := Claimed(c, Renewed(c, c.gap, c.leaseDuration), "b");
    assert w.history[1].record.holder == "a" && w.history[1].at == w.history[2].at;
    assert !Exclusive(c, w.history);
  }

  /** Lease exclusion holds exactly when the calls of one elector read its clock at least a second apart. */
  lemma LeaseSafeIff(c: Config)
    requires ValidConfig(c)
    ensures LeaseSafe(c) <==> c.second <= c.gap
  {
    if c.second <= c.gap {
      forall w | Reachable(c, w)
        ensures Exclusive(c, w.history)
      {
        var start :| Init(c, start) && Leads(c, start, w);
        var actions :| w == Run(c, start, actions);
        LeaseExclusion(c, start, actions);
      }
    } else {
      LostRenewal(c);
    }
  }

  // ---------- order of the records ----------

  ghost predicate RecordsOrdered(c: Config)
    requires 1 <= c.second
  {
    forall w | Reachable(c, w) :: StrictlyOrdered(w.history)
  }

  ghost predicate RecordsUnique(c: Config)
    requires 1 <= c.second
  {
    forall w | Reachable(c, w) :: NoneRecurs(w.history)
  }

  /** (LeaderTransitions, RenewTime) strictly increases, and no record recurs, exactly when calls are a second apart. */
  lemma RecordsOrderedIff(c: Config)
    requires ValidConfig(c)
    ensures RecordsOrdered(c) <==> c.second <= c.gap
    ensures RecordsUnique(c) <==> c.second <= c.gap
  {
    if c.second <= c.gap {
      forall w | Reachable(c, w)
        ensures StrictlyOrdered(w.history) && NoneRecurs(w.history)
      {
        var start :| Init(c, start) && Leads(c, start, w);
        var actions :| w == Run(c, start, actions);
        LockHistory(c, start, actions);
      }
    } else {
      var w := Renewed(c, c.gap, 0);
      RenewedReachable(c, c.gap, 0);
      assert w.history[0].record == w.history[1].record;
      assert !NoneRecurs(w.history) && !StrictlyOrdered(w.history);
    }
  }

  // ---------- windows of the claims ----------

  /** The intervals of renewDeadline that holders count on, from their exact clock readings, never meet. */
  ghost predicate ClaimedWindowsSafe(c: Config)
    requires 1 <= c.second
  {
    forall w | Reachable(c, w) :: DisjointWindows(w.history, e => ClaimedAt(c, e), c.renewDeadline)
  }

  /** a renews unseen in the last tick of a second, and b takes over when its lease on the first record is over. */
  lemma LateClaim(c: Config)
    requires ValidConfig(c) && c.gap < c.second && c.leaseDuration < c.renewDeadline + c.second
    ensures !ClaimedWindowsSafe(c)
  {
    var delay := if c.leaseDuration < c.second - 1 then 0 else c.leaseDuration - (c.second - 1);
    TakesOverUnseen(c, c.second - 1, delay);
    var h := Claimed(c, Renewed(c, c.second - 1, delay), "b").history;
    assert ClaimedAt(c, h[1]) == Zero(c) + c.second - 1;
    assert h[1].record.holder == "a" && h[2].record.holder == "b";
    assert ClaimedAt(c, h[2]) <= ClaimedAt(c, h[1]) + c.renewDeadline;
    assert !DisjointWindows(h, e => ClaimedAt(c, e), c.renewDeadline);
  }

  /** renewDeadline < leaseDuration keeps them apart exactly if calls are a second apart; else a second's margin is needed. */
  lemma ClaimedWindowsIff(c: Config)
    requires ValidConfig(c)
    ensures ClaimedWindowsSafe(c) <==> c.second <= c.gap || c.renewDeadline + c.second <= c.leaseDuration
  {
    if c.second <= c.gap || c.renewDeadline + c.second <= c.leaseDuration {
      forall w | Reachable(c, w)
        ensures DisjointWindows(w.history, e => ClaimedAt(c, e), c.renewDeadline)
      {
        var start :| Init(c, start) && Leads(c, start, w);
        var actions :| w == Run(c, start, actions);
        ValidityWindows(c, start, actions);
      }
    } else {
      LateClaim(c);
    }
  }

  // ---------- windows of the stored timestamps ----------

  /** Whatever the offsets of the clocks, windows of renewDeadline from the stored RenewTime never meet. */
  ghost predicate StoredWindowsSafe(c: Config)
    requires 1 <= c.second
  {
    forall offset: string -> int, w | Reachable(c.(offset := offset), w) ::
      DisjointWindows(w.history, e => RenewedAt(c.(offset := offset), e), c.renewDeadline)
  }

  /** b's clock is set so that its takeover happens in the last tick of a second. */
  function LateOffset(c: Config): string -> int {
    n => if n == "b" then c.second - 1 - c.leaseDuration else 0
  }

  lemma MeetingWindows(c: Config)
    requires ValidConfig(c) && c.leaseDuration < c.renewDeadline + c.second
    ensures !StoredWindowsSafe(c)
  {
    var d := c.(offset := LateOffset(c));
    var w := Observed(d).(time := Zero(d) + d.leaseDuration);
    ObservedReachable(d);
    LeadsPass(d, Observed(d), d.leaseDuration);
    LeadsReachable(d, Observed(d), w);
    var w' := Claimed(d, w, "b");
    ClaimSucceeds(d, w, "b");
    LeadsReachable(d, w, w');
    assert Clock(d, w, "b") == d.second - 1;
    assert RenewedAt(d, w'.history[0]) == 0 && RenewedAt(d, w'.history[1]) == d.leaseDuration - (d.second - 1);
    assert !DisjointWindows(w'.history, e => RenewedAt(d, e), c.renewDeadline);
  }

  /** The stored timestamps cost one second, however far apart calls are: renewDeadline < leaseDuration is not enough. */
  lemma StoredWindowsIff(c: Config)
    requires ValidConfig(c)
    ensures StoredWindowsSafe(c) <==> c.renewDeadline + c.second <= c.leaseDuration
  {
    if c.renewDeadline + c.second <= c.leaseDuration {
      forall offset: string -> int, w | Reachable(c.(offset := offset), w)
        ensures DisjointWindows(w.history, e => RenewedAt(c.(offset := offset), e), c.renewDeadline)
      {
        var d := c.(offset := offset);
        var start :| Init(d, start) && Leads(d, start, w);
        var actions :| w == Run(d, start, actions);
        ValidityWindows(d, start, actions);
      }
    } else {
      MeetingWindows(c);
    }
  }
}
