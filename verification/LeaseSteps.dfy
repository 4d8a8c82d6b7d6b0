/**
  The steps of LeaseProtocol one by one: the state each leads to when it is
  enabled, and how runs are put together from them.
 */
module LeaseSteps {
  import opened Common
  import opened LeaderElection
  import opened LeaseProtocol

  lemma {:induction false} RunConcat(c: Config, w: World, xs: seq<Action>, ys: seq<Action>)
    requires 1 <= c.second
    ensures Run(c, w, xs + ys) == Run(c, Run(c, w, xs), ys)
  {
    if ys == [] {
      assert xs + ys == xs;
    } else {
      RunConcat(c, w, xs, ys[..|ys| - 1]);
      assert (xs + ys)[..|xs + ys| - 1] == xs + ys[..|ys| - 1];
    }
  }

  lemma RunOne(c: Config, w: World, a: Action)
    requires 1 <= c.second
    ensures Run(c, w, [a]) == Step(c, w, a)
  {
    assert [a][..0] == [];
    assert Run(c, w, []) == w;
  }

  /** Some run leads from w to w'. */
  ghost predicate Leads(c: Config, w: World, w': World)
    requires 1 <= c.second
  {
    exists actions :: w' == Run(c, w, actions)
  }

  lemma LeadsRun(c: Config, w: World, w': World, more: seq<Action>)
    requires 1 <= c.second && Leads(c, w, w')
    ensures Leads(c, w, Run(c, w', more))
  {
    var actions :| w' == Run(c, w, actions);
    RunConcat(c, w, actions, more);
  }

  lemma LeadsOn(c: Config, w: World, w': World, w'': World)
    requires 1 <= c.second && Leads(c, w, w') && Leads(c, w', w'')
    ensures Leads(c, w, w'')
  {
    var more :| w'' == Run(c, w', more);
    LeadsRun(c, w, w', more);
  }

  lemma LeadsStep(c: Config, w: World, a: Action)
    requires 1 <= c.second
    ensures Leads(c, w, w) && Leads(c, w, Step(c, w, a))
  {
    assert w == Run(c, w, []);
    RunOne(c, w, a);
  }

  lemma LeadsPass(c: Config, w: World, ticks: nat)
    requires 1 <= c.second
    ensures Leads(c, w, w.(time := w.time + ticks))
  {
    LeadsStep(c, w, Pass(ticks));
  }

  /** A state that some run from some start leads to. */
  ghost predicate Reachable(c: Config, w: World)
    requires 1 <= c.second
  {
    exists start :: Init(c, start) && Leads(c, start, w)
  }

  lemma ReachableInv(c: Config, w: World)
    requires ValidConfig(c) && Reachable(c, w)
    ensures Inv(c, w)
  {
    var start :| Init(c, start) && Leads(c, start, w);
    var actions :| w == Run(c, start, actions);
    InitInv(c, start);
    RunInv(c, start, actions);
  }

  /** The record that n has seen last, of those the lock has had, was held by n. */
  predicate SeenHolding(w: World, n: string)
    requires n in w.electors
  {
    var seen := w.electors[n].seen;
    0 < seen <= |w.history| && w.history[seen - 1].record.holder == n
  }

  /** An elector observes itself as the holder exactly if it did hold the lock with the record it has seen last. */
  lemma ObservesItself(c: Config, w: World, n: string)
    requires ValidConfig(c) && Reachable(c, w) && n in w.electors
    ensures w.electors[n].observed.record.holder == n <==> SeenHolding(w, n)
  {
    ReachableInv(c, w);
    assert ElectorOk(c, w, n, w.electors[n]);
  }

  // ---------- enabled steps ----------

  function Current(w: World): Record
    requires w.history != []
  {
    w.history[|w.history| - 1].record
  }

  predicate MayBegin(c: Config, w: World, n: string) {
    n in w.electors && w.electors[n].call.Idle? && w.electors[n].lastStart + c.gap <= Clock(c, w, n)
  }

  lemma Begins(c: Config, w: World, n: string)
    requires 1 <= c.second && MayBegin(c, w, n)
    ensures Leads(c, w, Put(w, n, Started(w.electors[n], Clock(c, w, n))))
  {
    LeadsStep(c, w, Act(n, Begin));
  }

  lemma PutPut(w: World, n: string, e1: Elector, e2: Elector)
    ensures Put(Put(w, n, e1), n, e2) == Put(w, n, e2)
  {
    assert w.electors[n := e1][n := e2] == w.electors[n := e2];
  }

  /** `Get` finds the current record, and the elector decides at once. */
  lemma FindsAndDecides(c: Config, w: World, n: string)
    requires 1 <= c.second && n in w.electors && w.electors[n].call.Began? && w.history != []
    ensures Leads(c, w, Deciding(c, w, n))
  {
    var e := w.electors[n].(call := Fetched(w.electors[n].call.now, Current(w), |w.history|));
    LeadsStep(c, w, Act(n, GetFound));
    LeadsStep(c, Put(w, n, e), Act(n, Decide));
    LeadsOn(c, w, Put(w, n, e), Step(c, Put(w, n, e), Act(n, Decide)));
  }

  function Deciding(c: Config, w: World, n: string): World
    requires 1 <= c.second && n in w.electors && w.electors[n].call.Began? && w.history != []
  {
    var e := w.electors[n].(call := Fetched(w.electors[n].call.now, Current(w), |w.history|));
    DecideStep(c, Put(w, n, e), n, e)
  }

  lemma Applies(c: Config, w: World, q: Request)
    requires 1 <= c.second && q in w.pending && q.version == |w.history|
    ensures Leads(c, w, w.(history := w.history + [Entry(Stored(c, q.record), w.time, Some(q))]))
  {
    LeadsStep(c, w, Apply(q));
  }

  lemma GivesUp(c: Config, w: World, n: string)
    requires 1 <= c.second && n in w.electors && w.electors[n].call.Waiting?
    ensures Leads(c, w, Put(w, n, Returned(w.electors[n], Clock(c, w, n), false)))
  {
    LeadsStep(c, w, Act(n, GiveUp));
  }

  lemma Acknowledged(c: Config, w: World, n: string, q: Request)
    requires 1 <= c.second && n in w.electors && w.electors[n].call == Waiting(q)
    requires q.version < |w.history| && w.history[q.version].request == Some(q)
    ensures Leads(c, w, Put(w, n, Returned(Adopted(w.electors[n], q, Clock(c, w, n)), Clock(c, w, n), true)))
  {
    LeadsStep(c, w, Act(n, Ack));
  }

  // ---------- calls ----------

  lemma EndedLast(calls: seq<CallRecord>, start: int, end: int, succeeded: bool)
    ensures Ended(calls + [CallRecord(start, start, false)], end, succeeded) == calls + [CallRecord(start, end, succeeded)]
  {
  }

  lemma GetFailed(c: Config, w: World, n: string)
    requires 1 <= c.second && n in w.electors && w.electors[n].call.Began?
    ensures Leads(c, w, Put(w, n, Returned(w.electors[n], Clock(c, w, n), false)))
  {
    LeadsStep(c, w, Act(n, GetFails));
  }

  /** A call whose `Get` fails after a while. */
  lemma GetCallFails(c: Config, w: World, n: string, delay: nat)
    requires 1 <= c.second && MayBegin(c, w, n)
    ensures var e, now := w.electors[n], Clock(c, w, n);
            Leads(c, w, Put(w.(time := w.time + delay), n, e.(lastStart := now, calls := e.calls + [CallRecord(now, now + delay, false)])))
  {
    var e := Started(w.electors[n], Clock(c, w, n));
    var w1, w2 := Put(w, n, e), Put(w.(time := w.time + delay), n, e);
    Begins(c, w, n);
    LeadsPass(c, w1, delay);
    LeadsOn(c, w, w1, w2);
    GetFailed(c, w2, n);
    LeadsOn(c, w, w2, Put(w2, n, Returned(e, Clock(c, w2, n), false)));
    EndedLast(w.electors[n].calls, Clock(c, w, n), Clock(c, w2, n), false);
    PutPut(w.(time := w.time + delay), n, e, Returned(e, Clock(c, w2, n), false));
  }

  /** A call that observes a record whose holder's lease has not run out. */
  lemma BlockedCall(c: Config, w: World, n: string)
    requires ValidConfig(c) && MayBegin(c, w, n) && w.history != [] && Current(w).holder != n
    requires !SameAsObserved(w.electors[n].observed, Current(w))
    ensures var e, now := w.electors[n], Clock(c, w, n);
            Leads(c, w, Put(w, n, e.(observed := Observation(Current(w), true), observedTime := now, seen := |w.history|,
                                     calls := e.calls + [CallRecord(now, now, false)], lastStart := now)))
  {
    var e := Started(w.electors[n], Clock(c, w, n));
    Begins(c, w, n);
    FindsAndDecides(c, Put(w, n, e), n);
    LeadsOn(c, w, Put(w, n, e), Deciding(c, Put(w, n, e), n));
    var f := e.(call := Fetched(e.call.now, Current(w), |w.history|));
    EndedLast(w.electors[n].calls, Clock(c, w, n), Clock(c, w, n), false);
    PutPut(w, n, e, f);
    PutPut(w, n, f, Returned(Observe(f, Current(w), |w.history|, Clock(c, w, n)), Clock(c, w, n), false));
  }

  function Creation(c: Config, w: World, n: string): Request
    requires 1 <= c.second
  {
    Request(n, Clock(c, w, n), Candidate(c, n, Clock(c, w, n)), 0)
  }

  /** A call that finds no record sends a `Create`. */
  lemma CreateCall(c: Config, w: World, n: string)
    requires 1 <= c.second && MayBegin(c, w, n) && w.history == []
    ensures Leads(c, w, Send(w, n, Started(w.electors[n], Clock(c, w, n)), Creation(c, w, n)))
  {
    var e := Started(w.electors[n], Clock(c, w, n));
    Begins(c, w, n);
    LeadsStep(c, Put(w, n, e), Act(n, GetNotFound));
    LeadsOn(c, w, Put(w, n, e), Step(c, Put(w, n, e), Act(n, GetNotFound)));
    PutPut(w, n, e, e.(call := Waiting(Creation(c, w, n))));
  }

  /** The claim n makes on the current record. */
  function Claim(c: Config, w: World, n: string): Request
    requires 1 <= c.second && w.history != []
  {
    Request(n, Clock(c, w, n), Successor(c, n, Clock(c, w, n), Current(w)), |w.history|)
  }

  /** n may call, and the record is its own, or it has seen it stand for leaseDuration. */
  predicate MayClaim(c: Config, w: World, n: string) {
    && MayBegin(c, w, n) && w.history != []
    && (Current(w).holder != n ==>
          SameAsObserved(w.electors[n].observed, Current(w)) && w.electors[n].observedTime + c.leaseDuration <= Clock(c, w, n))
  }

  /** The elector that has sent that claim. */
  function Claiming(c: Config, w: World, n: string): Elector
    requires 1 <= c.second && n in w.electors && w.history != []
  {
    Observe(Started(w.electors[n], Clock(c, w, n)), Current(w), |w.history|, Clock(c, w, n)).(call := Waiting(Claim(c, w, n)))
  }

  /** A call that finds the record and claims it. */
  lemma ClaimCall(c: Config, w: World, n: string)
    requires 1 <= c.second && MayClaim(c, w, n)
    ensures Leads(c, w, Send(w, n, Claiming(c, w, n), Claim(c, w, n)))
  {
    var e := Started(w.electors[n], Clock(c, w, n));
    Begins(c, w, n);
    FindsAndDecides(c, Put(w, n, e), n);
    LeadsOn(c, w, Put(w, n, e), Deciding(c, Put(w, n, e), n));
    var f := e.(call := Fetched(e.call.now, Current(w), |w.history|));
    PutPut(w, n, e, f);
    PutPut(w, n, f, Claiming(c, w, n));
  }

  function Claimed(c: Config, w: World, n: string): World
    requires 1 <= c.second && n in w.electors && w.history != []
  {
    var q := Claim(c, w, n);
    Send(w, n, Claiming(c, w, n), q).(history := w.history + [Entry(Stored(c, q.record), w.time, Some(q))])
  }

  /** Any elector renews its own record, and takes over one that it has seen stand for leaseDuration. */
  lemma ClaimSucceeds(c: Config, w: World, n: string)
    requires 1 <= c.second && MayClaim(c, w, n)
    ensures Leads(c, w, Claimed(c, w, n))
    ensures Current(Claimed(c, w, n)).holder == n
  {
    var sent := Send(w, n, Claiming(c, w, n), Claim(c, w, n));
    ClaimCall(c, w, n);
    Applies(c, sent, Claim(c, w, n));
    LeadsOn(c, w, sent, Claimed(c, w, n));
  }

  // ---------- two electors ----------

  function Two(time: int, history: seq<Entry>, pending: set<Request>, a: Elector, b: Elector): World {
    World(time, history, pending, map["a" := a, "b" := b])
  }

  lemma PutTwo(time: int, history: seq<Entry>, pending: set<Request>, a: Elector, b: Elector, e: Elector)
    ensures Put(Two(time, history, pending, a, b), "a", e) == Two(time, history, pending, e, b)
    ensures Put(Two(time, history, pending, a, b), "b", e) == Two(time, history, pending, a, e)
  {
    assert map["a" := a, "b" := b]["a" := e] == map["a" := e, "b" := b];
    assert map["a" := a, "b" := b]["b" := e] == map["a" := a, "b" := e];
  }

  function NewElector(lastStart: int): Elector {
    Elector(Idle, Observation(ZERO_RECORD, true), 0, 0, [], [], lastStart)
  }
}
