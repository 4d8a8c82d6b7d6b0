/**
  Which configurations keep the lease and its records safe when electors call on
  schedule, on clocks finer than a second. For what rests on the distance between
  calls these are the configurations whose renewDeadline is a second or more past
  its last tick; ScheduledRace has the runs that show the others fail.
 */
module ScheduledLease {
  import opened Common
  import opened LeaderElection
  import opened LeaseProtocol
  import opened LeaseSteps
  import opened LeaseGranularity
  import opened CallSchedule
  import ScheduledRace

  /** The lease is respected. */
  ghost predicate ScheduledLeaseSafe(c: Config)
    requires 1 <= c.second
  {
    forall w | OnSchedule(c, w) :: Exclusive(c, w.history)
  }

  /** (LeaderTransitions, RenewTime) strictly increases. */
  ghost predicate ScheduledRecordsOrdered(c: Config)
    requires 1 <= c.second
  {
    forall w | OnSchedule(c, w) :: StrictlyOrdered(w.history)
  }

  ghost predicate ScheduledRecordsUnique(c: Config)
    requires 1 <= c.second
  {
    forall w | OnSchedule(c, w) :: NoneRecurs(w.history)
  }

  /** Windows of renewDeadline from the holders' clock readings never meet. */
  ghost predicate ScheduledClaimsApart(c: Config)
    requires 1 <= c.second
  {
    forall w | OnSchedule(c, w) :: DisjointWindows(w.history, e => ClaimedAt(c, e), c.renewDeadline)
  }

  /** Nor do, for any clock offsets, those from the stored RenewTime. */
  ghost predicate ScheduledWindowsApart(c: Config)
    requires 1 <= c.second
  {
    forall offset: string -> int, w | OnSchedule(c.(offset := offset), w) ::
      DisjointWindows(w.history, e => RenewedAt(c.(offset := offset), e), c.renewDeadline)
  }

  lemma InitAlike(c: Config, w: World)
    requires 1 <= c.second && Init(c, w)
    ensures Init(c.(gap := c.second), w)
  {
    if w.history != [] {
      TruncSame(c, c.(gap := c.second), w.history[0].record.acquire);
      TruncSame(c, c.(gap := c.second), w.history[0].record.renew);
    }
  }

  /** A state reached on schedule is one that electors reach whose calls are a second apart. */
  lemma PacedOnSchedule(c: Config, w: World)
    requires ScheduledRace.Schedulable(c) && c.second <= c.renewDeadline % c.retryPeriod && OnSchedule(c, w)
    ensures Reachable(c.(gap := c.second), w)
  {
    var start :| Init(c, start) && Leads(c, start, w) && Scheduled(c, start, w);
    var actions :| w == Run(c, start, actions);
    ScheduledRun(c, start, actions);
    InitAlike(c, start);
    assert Leads(c.(gap := c.second), start, w);
  }

  /** The race, as soon as b's lease on the record of the last tick is over. */
  lemma RaceFails(c: Config)
    requires ScheduledRace.Schedulable(c) && c.renewDeadline % c.retryPeriod < c.second
    ensures !ScheduledLeaseSafe(c) && !ScheduledRecordsOrdered(c) && !ScheduledRecordsUnique(c)
  {
    var delay := c.second + c.renewDeadline + c.leaseDuration;
    var w := ScheduledRace.Overtaken(c, delay);
    ScheduledRace.RaceOnSchedule(c, delay);
    ScheduledRace.RaceHistory(c, delay);
    assert w.history[2].record.holder == "a" && w.history[2].at == w.history[3].at;
    assert !Exclusive(c, w.history);
    assert w.history[1].record == w.history[2].record;
    assert !NoneRecurs(w.history) && !StrictlyOrdered(w.history);
  }

  /** The lease is respected exactly if renewDeadline ends a second or more after the last multiple of retryPeriod in it. */
  lemma ScheduledSafeIff(c: Config)
    requires ScheduledRace.Schedulable(c)
    ensures ScheduledLeaseSafe(c) <==> c.second <= c.renewDeadline % c.retryPeriod
  {
    if c.second <= c.renewDeadline % c.retryPeriod {
      var d := c.(gap := c.second);
      LeaseSafeIff(d);
      forall w | OnSchedule(c, w)
        ensures Exclusive(c, w.history)
      {
        PacedOnSchedule(c, w);
        assert Exclusive(d, w.history);
      }
    } else {
      RaceFails(c);
    }
  }

  /** The same condition decides whether the order of the records is strict, and whether a record can recur. */
  lemma ScheduledRecordsIff(c: Config)
    requires ScheduledRace.Schedulable(c)
    ensures ScheduledRecordsOrdered(c) <==> c.second <= c.renewDeadline % c.retryPeriod
    ensures ScheduledRecordsUnique(c) <==> c.second <= c.renewDeadline % c.retryPeriod
  {
    if c.second <= c.renewDeadline % c.retryPeriod {
      RecordsOrderedIff(c.(gap := c.second));
      forall w | OnSchedule(c, w)
        ensures StrictlyOrdered(w.history) && NoneRecurs(w.history)
      {
        PacedOnSchedule(c, w);
      }
    } else {
      RaceFails(c);
    }
  }

  // ---------- windows of the claims ----------

  lemma SafeClaims(c: Config, w: World)
    requires ScheduledRace.Schedulable(c) && OnSchedule(c, w)
    requires c.second <= c.renewDeadline % c.retryPeriod || c.renewDeadline + c.second <= c.leaseDuration
    ensures DisjointWindows(w.history, e => ClaimedAt(c, e), c.renewDeadline)
  {
    if c.second <= c.renewDeadline % c.retryPeriod {
      var d := c.(gap := c.second);
      PacedOnSchedule(c, w);
      ClaimedWindowsIff(d);
      assert DisjointWindows(w.history, e => ClaimedAt(d, e), d.renewDeadline);
    } else {
      assert Reachable(c, w);
      ClaimedWindowsIff(c);
    }
  }

  /** The race, with b's claim as early as a's renewDeadline after its last one. */
  lemma ClaimsMeet(c: Config)
    requires ScheduledRace.Schedulable(c)
    requires c.renewDeadline % c.retryPeriod < c.second && c.leaseDuration < c.renewDeadline + c.second
    ensures !ScheduledClaimsApart(c)
  {
    var delay := c.second - 1 + c.renewDeadline;
    var w := ScheduledRace.Overtaken(c, delay);
    ScheduledRace.RaceOnSchedule(c, delay);
    ScheduledRace.RaceHistory(c, delay);
    var h := w.history;
    assert h[2].record.holder == "a" && h[3].record.holder == "b";
    assert ClaimedAt(c, h[2]) + c.renewDeadline == ClaimedAt(c, h[3]);
    assert !DisjointWindows(h, e => ClaimedAt(c, e), c.renewDeadline);
  }

  /** Claims stay renewDeadline apart exactly if that condition holds or leaseDuration has a second's margin. */
  lemma ScheduledClaimsIff(c: Config)
    requires ScheduledRace.Schedulable(c)
    ensures ScheduledClaimsApart(c) <==>
      c.second <= c.renewDeadline % c.retryPeriod || c.renewDeadline + c.second <= c.leaseDuration
  {
    if c.second <= c.renewDeadline % c.retryPeriod || c.renewDeadline + c.second <= c.leaseDuration {
      forall w | OnSchedule(c, w)
        ensures DisjointWindows(w.history, e => ClaimedAt(c, e), c.renewDeadline)
      {
        SafeClaims(c, w);
      }
    } else {
      ClaimsMeet(c);
    }
  }

  // ---------- windows of the stored timestamps ----------

  lemma CreationOnSchedule(c: Config)
    requires ScheduledRace.Schedulable(c)
    ensures OnSchedule(c, ScheduledRace.TakenOver(c))
    ensures var h := ScheduledRace.TakenOver(c).history;
            && |h| == 2 && h[0].record.holder == "a" && h[1].record.holder == "b"
            && h[0].record.renew == 0 && h[1].record.renew == Trunc(c, c.leaseDuration - c.offset("a") + c.offset("b"))
  {
    ScheduledRace.CreationRace(c);
  }

  lemma StoredMeet(c: Config)
    requires ScheduledRace.Schedulable(c) && c.leaseDuration < c.renewDeadline + c.second
    ensures !ScheduledWindowsApart(c)
  {
    var d := c.(offset := LateOffset(c));
    var h := ScheduledRace.TakenOver(d).history;
    CreationOnSchedule(d);
    assert RenewedAt(d, h[0]) == 0 && RenewedAt(d, h[1]) == c.leaseDuration - (c.second - 1);
    assert !DisjointWindows(h, e => RenewedAt(d, e), c.renewDeadline);
  }

  /** Counted from the stored RenewTime, only the margin helps. */
  lemma ScheduledWindowsIff(c: Config)
    requires ScheduledRace.Schedulable(c)
    ensures ScheduledWindowsApart(c) <==> c.renewDeadline + c.second <= c.leaseDuration
  {
    if c.renewDeadline + c.second <= c.leaseDuration {
      StoredWindowsIff(c);
      forall offset: string -> int, w | OnSchedule(c.(offset := offset), w)
        ensures DisjointWindows(w.history, e => RenewedAt(c.(offset := offset), e), c.renewDeadline)
      {
        assert Reachable(c.(offset := offset), w);
      }
    } else {
      StoredMeet(c);
    }
  }

  // ---------- configurations ----------

  /** In milliseconds; whatever the offsets of the clocks. */
  function Milliseconds(lease: int, deadline: int, retry: nat, offset: string -> int): Config {
    Config(lease, deadline, retry, 1000, 1, offset)
  }

  /** The durations the controller runs with are safe in every respect. */
  lemma ControllerIsSafe(offset: string -> int)
    ensures var c := Milliseconds(15000, 5000, 3000, offset);
            && NewLeaderElector(c, true) == None
            && ScheduledLeaseSafe(c) && ScheduledRecordsOrdered(c) && ScheduledRecordsUnique(c)
            && ScheduledClaimsApart(c) && ScheduledWindowsApart(c)
  {
    var c := Milliseconds(15000, 5000, 3000, offset);
    ScheduledSafeIff(c);
    ScheduledRecordsIff(c);
    ScheduledClaimsIff(c);
    ScheduledWindowsIff(c);
  }

  /** 15, 10 and 2 seconds are accepted as well: the lease can be lost and records recur, and only the windows stay apart. */
  lemma AcceptedUnsafe(offset: string -> int)
    ensures var c := Milliseconds(15000, 10000, 2000, offset);
            && NewLeaderElector(c, true) == None
            && !ScheduledLeaseSafe(c) && !ScheduledRecordsOrdered(c) && !ScheduledRecordsUnique(c)
            && ScheduledClaimsApart(c) && ScheduledWindowsApart(c)
  {
    var c := Milliseconds(15000, 10000, 2000, offset);
    ScheduledSafeIff(c);
    ScheduledRecordsIff(c);
    ScheduledClaimsIff(c);
    ScheduledWindowsIff(c);
  }
}
