/**
  Runs on schedule in which a renewal goes unseen. The holder a misses the answer
  to the renewal at its last tick; its call at the deadline renews again within
  the same second, which stores the same record. b has seen that record at the
  tick and takes over when its lease is over.
 */
module ScheduledRace {
  import opened Common
  import opened LeaderElection
  import opened LeaseProtocol
  import opened LeaseSteps
  import opened CallSchedule

  // ---------- a run on schedule ----------

  /** The real time when a's clock shows 0: its last tick before the deadline. */
  function Zero(c: Config): int {
    -c.offset("a")
  }

  function LastTickNumber(c: Config): nat
    requires 1 <= c.retryPeriod && 0 <= c.renewDeadline
  {
    c.renewDeadline / c.retryPeriod
  }

  /** When a's poll begins, on its clock. */
  function PollStart(c: Config): int
    requires 1 <= c.retryPeriod && 0 <= c.renewDeadline
  {
    -(LastTickNumber(c) * c.retryPeriod)
  }

  predicate Schedulable(c: Config) {
    ValidConfig(c) && 1 <= c.retryPeriod && c.gap == 1 && 1 < c.second
  }

  function First(c: Config): Request
    requires Schedulable(c)
  {
    Request("a", PollStart(c) - 1, Candidate(c, "a", PollStart(c) - 1), 0)
  }

  function FirstEntry(c: Config): Entry
    requires Schedulable(c)
  {
    Entry(Stored(c, First(c).record), Zero(c) + PollStart(c) - 1, Some(First(c)))
  }

  /** a holds the lock and knows it. */
  function Holder(c: Config): Elector
    requires Schedulable(c)
  {
    var start := PollStart(c) - 1;
    Elector(Idle, Observation(First(c).record, false), PollStart(c), 1, [], [CallRecord(start, PollStart(c), true)], start)
  }

  function Restarted(c: Config): Elector
    requires Schedulable(c)
  {
    NewElector(PollStart(c) - 1 - c.second)
  }

  /** When b first calls, on its clock. */
  function Arrival(c: Config): int {
    Zero(c) + c.offset("b")
  }

  function Newcomer(c: Config): Elector {
    NewElector(Arrival(c) - c.second)
  }

  function Beginning(c: Config): World
    requires Schedulable(c)
  {
    Two(Zero(c) + PollStart(c) - 1, [], {}, Restarted(c), Newcomer(c))
  }

  /** a creates the record and its poll begins. */
  lemma Acquires(c: Config)
    requires Schedulable(c)
    ensures Leads(c, Beginning(c), Two(Zero(c) + PollStart(c), [FirstEntry(c)], {First(c)}, Holder(c), Newcomer(c)))
  {
    var t, q, a, b := Zero(c) + PollStart(c) - 1, First(c), Restarted(c), Newcomer(c);
    var a1 := Started(a, PollStart(c) - 1).(call := Waiting(q));
    var w := Beginning(c);
    CreateCall(c, w, "a");
    PutTwo(t, [], {}, a, b, a1);
    var w1 := Two(t, [], {q}, a1, b);
    Applies(c, w1, q);
    var w2 := Two(t, [FirstEntry(c)], {q}, a1, b);
    LeadsOn(c, w, w1, w2);
    var w3 := w2.(time := t + 1);
    LeadsPass(c, w2, 1);
    LeadsOn(c, w, w2, w3);
    Acknowledged(c, w3, "a", q);
    assert Returned(Adopted(a1, q, Clock(c, w3, "a")), Clock(c, w3, "a"), true) == Holder(c);
    PutTwo(t + 1, [FirstEntry(c)], {q}, a1, b, Holder(c));
    LeadsOn(c, w, w3, Two(t + 1, [FirstEntry(c)], {q}, Holder(c), b));
  }

  /** If there are ticks before the last one, a is busy with a failing call all the while. */
  function Busy(c: Config): Elector
    requires Schedulable(c)
  {
    if LastTickNumber(c) == 1 then Holder(c)
    else
      var start := PollStart(c) + c.retryPeriod;
      Holder(c).(lastStart := start, calls := Holder(c).calls + [CallRecord(start, 0, false)])
  }

  lemma OneTick(c: Config)
    requires Schedulable(c)
    ensures 1 <= LastTickNumber(c) && PollStart(c) + c.retryPeriod <= 0
    ensures LastTickNumber(c) == 1 ==> PollStart(c) + c.retryPeriod == 0
  {
    assert 1 * c.retryPeriod <= c.renewDeadline;
    LastTick(c.retryPeriod, c.renewDeadline, 1);
    Multiples(1, LastTickNumber(c), c.retryPeriod);
  }

  lemma StaysBusy(c: Config)
    requires Schedulable(c)
    ensures Leads(c, Two(Zero(c) + PollStart(c), [FirstEntry(c)], {First(c)}, Holder(c), Newcomer(c)),
                  Two(Zero(c), [FirstEntry(c)], {First(c)}, Busy(c), Newcomer(c)))
  {
    OneTick(c);
    var r, h, p, b := c.retryPeriod, [FirstEntry(c)], {First(c)}, Newcomer(c);
    var w := Two(Zero(c) + PollStart(c), h, p, Holder(c), b);
    var w1 := Two(Zero(c) + PollStart(c) + r, h, p, Holder(c), b);
    LeadsPass(c, w, r);
    if LastTickNumber(c) != 1 {
      var delay := -PollStart(c) - r;
      GetCallFails(c, w1, "a", delay);
      PutTwo(Zero(c), h, p, Holder(c), b, Busy(c));
      LeadsOn(c, w, w1, Two(Zero(c), h, p, Busy(c), b));
    }
  }

  // ---------- the renewal at the last tick, and the one at the deadline ----------

  /** The record a stores at the last tick. */
  function Renewed(c: Config): Record
    requires Schedulable(c)
  {
    Record("a", First(c).record.leaseSeconds, Trunc(c, PollStart(c) - 1), 0, 0)
  }

  function RenewalAt(c: Config, t: int, version: nat): Request
    requires Schedulable(c)
  {
    Request("a", t, Renewed(c).(renew := t), version)
  }

  lemma StoredAlike(c: Config, t: int, version: nat)
    requires Schedulable(c) && 0 <= t < c.second
    ensures Stored(c, RenewalAt(c, t, version).record) == Renewed(c)
  {
    TruncIdempotent(c, PollStart(c) - 1);
  }

  function Second(c: Config): Entry
    requires Schedulable(c)
  {
    Entry(Renewed(c), Zero(c), Some(RenewalAt(c, 0, 1)))
  }

  // ---------- how b waits ----------

  /**
    An elector whose first call, at `from` on its clock, was blocked, and that
    calls again `delay` later: it spends the time in between on a failing call
    if that is longer than two retry periods.
   */
  function Waiter(c: Config, b: Elector, from: int, delay: nat): Elector {
    if delay < 2 * c.retryPeriod then b
    else
      var start := from + c.retryPeriod;
      b.(calls := b.calls + [CallRecord(start, from + delay - c.retryPeriod, false)], lastStart := start)
  }

  lemma JitterCovers(c: Config)
    ensures c.retryPeriod <= JitteredRetry(c.retryPeriod)
  {
    assert c.retryPeriod as real <= 1.2 * c.retryPeriod as real;
  }

  lemma WaiterOnSchedule(c: Config, b: Elector, from: int, delay: nat)
    requires 1 <= c.retryPeriod <= delay && b.calls == [CallRecord(from, from, false)]
    ensures Explained(c, Waiter(c, b, from, delay).calls + [CallRecord(from + delay, from + delay, false)])
  {
    JitterCovers(c);
    var calls := Waiter(c, b, from, delay).calls + [CallRecord(from + delay, from + delay, false)];
    if delay < 2 * c.retryPeriod {
      assert Explains(c, [Jitter, Jitter], calls);
    } else {
      assert Explains(c, [Jitter, Jitter, Jitter], calls);
    }
  }

  /** b, which called last at `from`, waits from `now` on, while a does nothing. */
  lemma Waits(c: Config, h: seq<Entry>, p: set<Request>, a: Elector, b: Elector, from: int, now: int, delay: nat)
    requires Schedulable(c) && c.retryPeriod <= delay && b.call.Idle? && b.lastStart == from + c.offset("b")
    requires now <= from + if delay < 2 * c.retryPeriod then delay else c.retryPeriod
    ensures Leads(c, Two(now, h, p, a, b), Two(from + delay, h, p, a, Waiter(c, b, from + c.offset("b"), delay)))
  {
    var r := c.retryPeriod;
    var w := Two(now, h, p, a, b);
    if delay < 2 * r {
      LeadsPass(c, w, from + delay - now);
    } else {
      var b', w1 := Waiter(c, b, from + c.offset("b"), delay), Two(from + r, h, p, a, b);
      LeadsPass(c, w, from + r - now);
      GetCallFails(c, w1, "b", delay - 2 * r);
      var w2 := Two(from + delay - r, h, p, a, b');
      PutTwo(w2.time, h, p, a, b, b');
      LeadsOn(c, w, w1, w2);
      LeadsPass(c, w2, r);
      LeadsOn(c, w, w2, Two(from + delay, h, p, a, b'));
    }
  }

  // ---------- the race ----------

  /** When a's call at the deadline begins: in the last tick of the second in which it renewed. */
  function Late(c: Config): int {
    c.second - 1
  }

  /** a waits for the answer to the renewal at the last tick. */
  function Unanswered(c: Config): Elector
    requires Schedulable(c)
  {
    Elector(Waiting(RenewalAt(c, 0, 1)), Observation(FirstEntry(c).record, true), 0, 1, [],
            Busy(c).calls + [CallRecord(0, 0, false)], 0)
  }

  function History(c: Config): seq<Entry>
    requires Schedulable(c)
  {
    [FirstEntry(c), Second(c)]
  }

  function Sent(c: Config): set<Request>
    requires Schedulable(c)
  {
    {First(c), RenewalAt(c, 0, 1)}
  }

  lemma ClaimsAtTick(c: Config)
    requires Schedulable(c)
    ensures Leads(c, Two(Zero(c), [FirstEntry(c)], {First(c)}, Busy(c), Newcomer(c)),
                  Two(Zero(c), History(c), Sent(c), Unanswered(c), Newcomer(c)))
  {
    OneTick(c);
    var h, p, q, b := [FirstEntry(c)], {First(c)}, RenewalAt(c, 0, 1), Newcomer(c);
    var w := Two(Zero(c), h, p, Busy(c), b);
    ClaimSucceeds(c, w, "a");
    assert Claim(c, w, "a") == q;
    assert Claiming(c, w, "a") == Unanswered(c);
    StoredAlike(c, 0, 1);
    PutTwo(Zero(c), h, p, Busy(c), b, Unanswered(c));
    assert h + [Second(c)] == History(c);
    assert p + {q} == Sent(c);
  }

  /** b has seen the record of the last tick. */
  function Watching(c: Config): Elector
    requires Schedulable(c)
  {
    Elector(Idle, Observation(Renewed(c), true), Arrival(c), 2, [], [CallRecord(Arrival(c), Arrival(c), false)], Arrival(c))
  }

  lemma Arrives(c: Config)
    requires Schedulable(c)
    ensures Leads(c, Two(Zero(c), History(c), Sent(c), Unanswered(c), Newcomer(c)),
                  Two(Zero(c), History(c), Sent(c), Unanswered(c), Watching(c)))
  {
    var w := Two(Zero(c), History(c), Sent(c), Unanswered(c), Newcomer(c));
    BlockedCall(c, w, "b");
    assert [] + [CallRecord(Arrival(c), Arrival(c), false)] == Watching(c).calls;
    PutTwo(Zero(c), History(c), Sent(c), Unanswered(c), Newcomer(c), Watching(c));
  }

  /** a renews again when the deadline is over. */
  function Renewing(c: Config): Elector
    requires Schedulable(c)
  {
    var d := Late(c);
    Elector(Waiting(RenewalAt(c, d, 2)), Observation(Renewed(c), true), d, 2, [],
            Busy(c).calls + [CallRecord(0, d, false)] + [CallRecord(d, d, false)], d)
  }

  function Pending(c: Config): set<Request>
    requires Schedulable(c)
  {
    Sent(c) + {RenewalAt(c, Late(c), 2)}
  }

  /** a after it gave up on the answer. */
  function GivenUp(c: Config): Elector
    requires Schedulable(c)
  {
    Unanswered(c).(call := Idle, calls := Busy(c).calls + [CallRecord(0, Late(c), false)])
  }

  lemma GivesUpLate(c: Config, b: Elector)
    requires Schedulable(c)
    ensures Leads(c, Two(Zero(c) + Late(c), History(c), Sent(c), Unanswered(c), b),
                  Two(Zero(c) + Late(c), History(c), Sent(c), GivenUp(c), b))
  {
    var w := Two(Zero(c) + Late(c), History(c), Sent(c), Unanswered(c), b);
    GivesUp(c, w, "a");
    EndedLast(Busy(c).calls, 0, Late(c), false);
    PutTwo(w.time, History(c), Sent(c), Unanswered(c), b, GivenUp(c));
  }

  lemma ClaimsLate(c: Config, b: Elector)
    requires Schedulable(c)
    ensures Leads(c, Two(Zero(c) + Late(c), History(c), Sent(c), GivenUp(c), b),
                  Two(Zero(c) + Late(c), History(c), Pending(c), Renewing(c), b))
  {
    var w := Two(Zero(c) + Late(c), History(c), Sent(c), GivenUp(c), b);
    ClaimCall(c, w, "a");
    assert Clock(c, w, "a") == Late(c) && Current(w) == Renewed(c);
    assert Claim(c, w, "a") == RenewalAt(c, Late(c), 2);
    assert Claiming(c, w, "a") == Renewing(c);
    PutTwo(w.time, History(c), Sent(c), GivenUp(c), b, Renewing(c));
  }

  /** Whatever b is doing, a gives up and renews at the deadline. */
  lemma RenewsLate(c: Config, b: Elector)
    requires Schedulable(c)
    ensures Leads(c, Two(Zero(c) + Late(c), History(c), Sent(c), Unanswered(c), b),
                  Two(Zero(c) + Late(c), History(c), Pending(c), Renewing(c), b))
  {
    var t, h := Zero(c) + Late(c), History(c);
    GivesUpLate(c, b);
    ClaimsLate(c, b);
    LeadsOn(c, Two(t, h, Sent(c), Unanswered(c), b), Two(t, h, Sent(c), GivenUp(c), b), Two(t, h, Pending(c), Renewing(c), b));
  }

  function Calling(c: Config): Elector
    requires Schedulable(c)
  {
    Started(Watching(c), Arrival(c) + c.retryPeriod)
  }

  lemma CallsBefore(c: Config)
    requires Schedulable(c) && c.retryPeriod <= Late(c)
    ensures Leads(c, Two(Zero(c), History(c), Sent(c), Unanswered(c), Watching(c)),
                  Two(Zero(c) + Late(c), History(c), Sent(c), Unanswered(c), Calling(c)))
  {
    var t, r, h, p, a, b := Zero(c), c.retryPeriod, History(c), Sent(c), Unanswered(c), Watching(c);
    var w, w1, w2 := Two(t, h, p, a, b), Two(t + r, h, p, a, b), Two(t + r, h, p, a, Calling(c));
    LeadsPass(c, w, r);
    Begins(c, w1, "b");
    PutTwo(t + r, h, p, a, b, Calling(c));
    LeadsOn(c, w, w1, w2);
    LeadsPass(c, w2, Late(c) - r);
    LeadsOn(c, w, w2, Two(t + Late(c), h, p, a, Calling(c)));
  }

  /** b's call is in progress while a renews. */
  lemma CallsMeanwhile(c: Config)
    requires Schedulable(c) && c.retryPeriod <= Late(c)
    ensures Leads(c, Two(Zero(c), History(c), Sent(c), Unanswered(c), Watching(c)),
                  Two(Zero(c) + Late(c), History(c), Pending(c), Renewing(c), Calling(c)))
  {
    CallsBefore(c);
    RenewsLate(c, Calling(c));
    LeadsOn(c, Two(Zero(c), History(c), Sent(c), Unanswered(c), Watching(c)),
            Two(Zero(c) + Late(c), History(c), Sent(c), Unanswered(c), Calling(c)),
            Two(Zero(c) + Late(c), History(c), Pending(c), Renewing(c), Calling(c)));
  }

  lemma ReturnsLater(c: Config, delay: nat)
    requires Schedulable(c) && c.retryPeriod <= Late(c) && Late(c) + c.renewDeadline <= delay && 2 * c.retryPeriod <= delay
    ensures Leads(c, Two(Zero(c) + Late(c), History(c), Pending(c), Renewing(c), Calling(c)),
                  Two(Zero(c) + delay, History(c), Pending(c), Renewing(c), Waiter(c, Watching(c), Arrival(c), delay)))
  {
    DeadlineAfterTick(c);
    var r, h, p, a := c.retryPeriod, History(c), Pending(c), Renewing(c);
    var b, b' := Calling(c), Waiter(c, Watching(c), Arrival(c), delay);
    var w, w1 := Two(Zero(c) + Late(c), h, p, a, b), Two(Zero(c) + delay - r, h, p, a, b);
    LeadsPass(c, w, delay - r - Late(c));
    GetFailed(c, w1, "b");
    EndedLast(Watching(c).calls, Arrival(c) + r, Arrival(c) + delay - r, false);
    PutTwo(w1.time, h, p, a, b, b');
    var w2 := Two(Zero(c) + delay - r, h, p, a, b');
    LeadsOn(c, w, w1, w2);
    LeadsPass(c, w2, r);
    LeadsOn(c, w, w2, Two(Zero(c) + delay, h, p, a, b'));
  }

  lemma DeadlineAfterTick(c: Config)
    requires Schedulable(c)
    ensures c.retryPeriod <= c.renewDeadline
  {
  }

  /** a renews before b calls again. */
  lemma RenewsFirst(c: Config, delay: nat)
    requires Schedulable(c) && Late(c) + c.renewDeadline <= delay
    requires Late(c) < c.retryPeriod || delay < 2 * c.retryPeriod
    ensures Leads(c, Two(Zero(c), History(c), Sent(c), Unanswered(c), Watching(c)),
                  Two(Zero(c) + delay, History(c), Pending(c), Renewing(c), Waiter(c, Watching(c), Arrival(c), delay)))
  {
    DeadlineAfterTick(c);
    var t, h := Zero(c), History(c);
    var w, w1 := Two(t, h, Sent(c), Unanswered(c), Watching(c)), Two(t + Late(c), h, Sent(c), Unanswered(c), Watching(c));
    var w2 := Two(t + Late(c), h, Pending(c), Renewing(c), Watching(c));
    LeadsPass(c, w, Late(c));
    RenewsLate(c, Watching(c));
    LeadsOn(c, w, w1, w2);
    Waits(c, h, Pending(c), Renewing(c), Watching(c), t, t + Late(c), delay);
    LeadsOn(c, w, w2, Two(t + delay, h, Pending(c), Renewing(c), Waiter(c, Watching(c), Arrival(c), delay)));
  }

  lemma Meet(c: Config, delay: nat)
    requires Schedulable(c) && Late(c) + c.renewDeadline <= delay
    ensures Leads(c, Two(Zero(c), History(c), Sent(c), Unanswered(c), Watching(c)),
                  Two(Zero(c) + delay, History(c), Pending(c), Renewing(c), Waiter(c, Watching(c), Arrival(c), delay)))
  {
    if Late(c) < c.retryPeriod || delay < 2 * c.retryPeriod {
      RenewsFirst(c, delay);
    } else {
      var w := Two(Zero(c), History(c), Sent(c), Unanswered(c), Watching(c));
      var w1 := Two(Zero(c) + Late(c), History(c), Pending(c), Renewing(c), Calling(c));
      var w2 := Two(Zero(c) + delay, History(c), Pending(c), Renewing(c), Waiter(c, Watching(c), Arrival(c), delay));
      CallsMeanwhile(c);
      ReturnsLater(c, delay);
      LeadsOn(c, w, w1, w2);
    }
  }

  /** a's second renewal has just been applied. */
  function Raced(c: Config, delay: nat): World
    requires Schedulable(c)
  {
    var at := Zero(c) + delay;
    Two(at, History(c) + [Entry(Renewed(c), at, Some(RenewalAt(c, Late(c), 2)))], Pending(c), Renewing(c),
        Waiter(c, Watching(c), Arrival(c), delay))
  }

  /** b, whose lease on the record of the last tick is over, takes over nevertheless. */
  function Overtaken(c: Config, delay: nat): World
    requires Schedulable(c)
  {
    Claimed(c, Raced(c, delay), "b")
  }

  lemma Races(c: Config, delay: nat)
    requires Schedulable(c) && Late(c) + c.renewDeadline <= delay && c.leaseDuration <= delay
    ensures Leads(c, Two(Zero(c) + delay, History(c), Pending(c), Renewing(c), Waiter(c, Watching(c), Arrival(c), delay)), Raced(c, delay))
    ensures Leads(c, Raced(c, delay), Overtaken(c, delay))
  {
    DeadlineAfterTick(c);
    var w := Two(Zero(c) + delay, History(c), Pending(c), Renewing(c), Waiter(c, Watching(c), Arrival(c), delay));
    Applies(c, w, RenewalAt(c, Late(c), 2));
    StoredAlike(c, Late(c), 2);
    ClaimSucceeds(c, Raced(c, delay), "b");
  }

  lemma LeadsToTick(c: Config)
    requires Schedulable(c)
    ensures Leads(c, Beginning(c), Two(Zero(c), History(c), Sent(c), Unanswered(c), Watching(c)))
  {
    var w1 := Two(Zero(c) + PollStart(c), [FirstEntry(c)], {First(c)}, Holder(c), Newcomer(c));
    var w2 := Two(Zero(c), [FirstEntry(c)], {First(c)}, Busy(c), Newcomer(c));
    var w3 := Two(Zero(c), History(c), Sent(c), Unanswered(c), Newcomer(c));
    Acquires(c);
    StaysBusy(c);
    LeadsOn(c, Beginning(c), w1, w2);
    ClaimsAtTick(c);
    LeadsOn(c, Beginning(c), w2, w3);
    Arrives(c);
    LeadsOn(c, Beginning(c), w3, Two(Zero(c), History(c), Sent(c), Unanswered(c), Watching(c)));
  }

  lemma LeadsToRace(c: Config, delay: nat)
    requires Schedulable(c) && Late(c) + c.renewDeadline <= delay && c.leaseDuration <= delay
    ensures Leads(c, Beginning(c), Overtaken(c, delay))
  {
    var w1 := Two(Zero(c), History(c), Sent(c), Unanswered(c), Watching(c));
    var w2 := Two(Zero(c) + delay, History(c), Pending(c), Renewing(c), Waiter(c, Watching(c), Arrival(c), delay));
    LeadsToTick(c);
    Meet(c, delay);
    LeadsOn(c, Beginning(c), w1, w2);
    Races(c, delay);
    LeadsOn(c, Beginning(c), w2, Raced(c, delay));
    LeadsOn(c, Beginning(c), Raced(c, delay), Overtaken(c, delay));
  }

  // ---------- it is on schedule ----------

  /** No tick of the poll is later than 0, and the deadline is over at LeastDistance. */
  lemma TicksBefore(c: Config)
    requires Schedulable(c)
    ensures forall j: nat | TickAt(c, PollStart(c), j) < PollStart(c) + c.renewDeadline :: TickAt(c, PollStart(c), j) <= 0
    ensures PollStart(c) + c.renewDeadline == c.renewDeadline % c.retryPeriod
    ensures TickAt(c, PollStart(c), LastTickNumber(c)) == 0
  {
    var p, m, r := PollStart(c), LastTickNumber(c), c.retryPeriod;
    assert c.renewDeadline == m * r + c.renewDeadline % r;
    forall j: nat | TickAt(c, p, j) < p + c.renewDeadline
      ensures TickAt(c, p, j) <= 0
    {
      LastTick(r, c.renewDeadline, j);
      Multiples(j, m, r);
    }
  }

  lemma DeadlineFollows(c: Config)
    requires Schedulable(c) && c.renewDeadline % c.retryPeriod < c.second
    ensures Follows(c, Tick(PollStart(c), LastTickNumber(c)), CallRecord(0, Late(c), false), Timeout(PollStart(c)), Late(c))
  {
    TicksBefore(c);
  }

  lemma TickFollows(c: Config)
    requires Schedulable(c) && LastTickNumber(c) != 1
    ensures var p, r := PollStart(c), c.retryPeriod;
            && Follows(c, Jitter, CallRecord(p - 1, p, true), Tick(p, 1), p + r)
            && Follows(c, Tick(p, 1), CallRecord(p + r, 0, false), Tick(p, LastTickNumber(c)), 0)
  {
    var m, r := LastTickNumber(c), c.retryPeriod;
    OneTick(c);
    TicksBefore(c);
    assert TickAt(c, PollStart(c), m - 1) + r == 0 by {
      assert (m - 1) * r == m * r - r;
    }
  }

  lemma HolderOnSchedule(c: Config)
    requires Schedulable(c) && c.renewDeadline % c.retryPeriod < c.second
    ensures Explained(c, Renewing(c).calls)
  {
    var p, m, d, calls := PollStart(c), LastTickNumber(c), Late(c), Renewing(c).calls;
    OneTick(c);
    DeadlineFollows(c);
    if m == 1 {
      assert calls == [CallRecord(p - 1, p, true), CallRecord(0, d, false), CallRecord(d, d, false)];
      assert Explains(c, [Jitter, Tick(p, 1), Timeout(p)], calls);
    } else {
      TickFollows(c);
      assert calls == [CallRecord(p - 1, p, true), CallRecord(p + c.retryPeriod, 0, false),
                       CallRecord(0, d, false), CallRecord(d, d, false)];
      assert Explains(c, [Jitter, Tick(p, 1), Tick(p, m), Timeout(p)], calls);
    }
  }

  /** The race is a run on schedule, if a's deadline is less than a second after its last tick. */
  lemma RaceOnSchedule(c: Config, delay: nat)
    requires Schedulable(c) && c.renewDeadline % c.retryPeriod < c.second
    requires Late(c) + c.renewDeadline <= delay && c.leaseDuration <= delay
    ensures OnSchedule(c, Overtaken(c, delay))
  {
    LeadsToRace(c, delay);
    HolderOnSchedule(c);
    DeadlineAfterTick(c);
    WaiterOnSchedule(c, Watching(c), Arrival(c), delay);
    var w := Raced(c, delay);
    var b := Claiming(c, w, "b");
    assert b.calls == w.electors["b"].calls + [CallRecord(Arrival(c) + delay, Arrival(c) + delay, false)];
    PutTwo(w.time, w.history, Pending(c), Renewing(c), w.electors["b"], b);
    assert Init(c, Beginning(c)) && Scheduled(c, Beginning(c), Overtaken(c, delay));
  }

  /** What the race leaves: a's renewal of the same record, and b's claim. */
  lemma RaceHistory(c: Config, delay: nat)
    requires Schedulable(c)
    ensures var h := Overtaken(c, delay).history;
            && |h| == 4
            && h[1].record == h[2].record == Renewed(c) && h[2].at == Zero(c) + delay && ClaimedAt(c, h[2]) == Zero(c) + Late(c)
            && h[3].record.holder == "b" && h[3].at == ClaimedAt(c, h[3]) == Zero(c) + delay
  {
  }

  // ---------- a creation and a takeover on schedule ----------

  /** a's `Create` at its time 0. */
  function CreateAt(c: Config): Request
    requires 1 <= c.second
  {
    Request("a", 0, Candidate(c, "a", 0), 0)
  }

  function Created(c: Config): seq<Entry>
    requires 1 <= c.second
  {
    [Entry(CreateAt(c).record, Zero(c), Some(CreateAt(c)))]
  }

  /** a still waits for the answer. */
  function Creating(c: Config): Elector
    requires 1 <= c.second
  {
    Started(NewElector(-c.second), 0).(call := Waiting(CreateAt(c)))
  }

  /** b has seen the new record. */
  function Seeing(c: Config): Elector
    requires 1 <= c.second
  {
    Elector(Idle, Observation(CreateAt(c).record, true), Arrival(c), 1, [], [CallRecord(Arrival(c), Arrival(c), false)], Arrival(c))
  }

  function Before(c: Config): World {
    Two(Zero(c), [], {}, NewElector(-c.second), Newcomer(c))
  }

  lemma Creates(c: Config)
    requires Schedulable(c)
    ensures Leads(c, Before(c), Two(Zero(c), Created(c), {CreateAt(c)}, Creating(c), Newcomer(c)))
  {
    var w := Before(c);
    CreateCall(c, w, "a");
    PutTwo(Zero(c), [], {}, NewElector(-c.second), Newcomer(c), Creating(c));
    var w1 := Two(Zero(c), [], {CreateAt(c)}, Creating(c), Newcomer(c));
    Applies(c, w1, CreateAt(c));
    assert Stored(c, CreateAt(c).record) == CreateAt(c).record;
    LeadsOn(c, w, w1, Two(Zero(c), Created(c), {CreateAt(c)}, Creating(c), Newcomer(c)));
  }

  lemma Sees(c: Config)
    requires Schedulable(c)
    ensures Leads(c, Two(Zero(c), Created(c), {CreateAt(c)}, Creating(c), Newcomer(c)),
                  Two(Zero(c), Created(c), {CreateAt(c)}, Creating(c), Seeing(c)))
  {
    var w := Two(Zero(c), Created(c), {CreateAt(c)}, Creating(c), Newcomer(c));
    BlockedCall(c, w, "b");
    assert [] + [CallRecord(Arrival(c), Arrival(c), false)] == Seeing(c).calls;
    PutTwo(Zero(c), Created(c), {CreateAt(c)}, Creating(c), Newcomer(c), Seeing(c));
  }

  /** The lease on the new record is over. */
  function Expired(c: Config): World
    requires Schedulable(c)
  {
    Two(Zero(c) + c.leaseDuration, Created(c), {CreateAt(c)}, Creating(c), Waiter(c, Seeing(c), Arrival(c), c.leaseDuration))
  }

  function TakenOver(c: Config): World
    requires Schedulable(c)
  {
    Claimed(c, Expired(c), "b")
  }

  lemma LeadsToTakeover(c: Config)
    requires Schedulable(c)
    ensures Leads(c, Before(c), TakenOver(c))
  {
    var w1 := Two(Zero(c), Created(c), {CreateAt(c)}, Creating(c), Newcomer(c));
    var w2 := Two(Zero(c), Created(c), {CreateAt(c)}, Creating(c), Seeing(c));
    Creates(c);
    Sees(c);
    LeadsOn(c, Before(c), w1, w2);
    Waits(c, Created(c), {CreateAt(c)}, Creating(c), Seeing(c), Zero(c), Zero(c), c.leaseDuration);
    LeadsOn(c, Before(c), w2, Expired(c));
    ClaimSucceeds(c, Expired(c), "b");
    LeadsOn(c, Before(c), Expired(c), TakenOver(c));
  }

  lemma CreationRace(c: Config)
    requires Schedulable(c)
    ensures OnSchedule(c, TakenOver(c))
    ensures var q := Claim(c, Expired(c), "b");
            TakenOver(c).history == Created(c) + [Entry(Stored(c, q.record), Zero(c) + c.leaseDuration, Some(q))]
  {
    LeadsToTakeover(c);
    WaiterOnSchedule(c, Seeing(c), Arrival(c), c.leaseDuration);
    var w := Expired(c);
    var b, now := Claiming(c, w, "b"), Arrival(c) + c.leaseDuration;
    assert b.calls == w.electors["b"].calls + [CallRecord(now, now, false)];
    PutTwo(w.time, w.history, {CreateAt(c)}, Creating(c), w.electors["b"], b);
    assert Explains(c, [Jitter], Creating(c).calls);
    assert Init(c, Before(c)) && Scheduled(c, Before(c), TakenOver(c));
  }
}
