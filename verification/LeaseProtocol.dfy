/**
  N electors and one lock record as a transition system. A call of
  `tryAcquireOrRenew` is split into reading the clock, `Get`, observing and
  deciding, the write reaching the server, and the answer reaching the elector,
  so that electors interleave between those steps.

  Environment: `Get` returns the record of one moment between request and reply;
  a write is applied only if no other write was accepted since the `Get` it is
  based on (a `Create`: only if there is no record); any call may fail, any
  answer may be lost, and a write its elector gave up on may still be applied.
 */
module LeaseProtocol {
  import opened Common
  import opened LeaderElection

  datatype Call =
    | Idle
    | Began(now: int)
    | Fetched(now: int, record: Record, version: nat)
    | Waiting(request: Request)

  /** When a call began and ended on its elector's clock, and whether it succeeded; one in progress has not ended yet. */
  datatype CallRecord = CallRecord(start: int, end: int, succeeded: bool)

  /**
    `seen` is the version of the lock's history that `observed` stands for; 0
    before any. `reports` and `calls` are all leaders reported and all calls made
    so far; `lastStart` is from before the run if there are none.
   */
  datatype Elector = Elector(
    call: Call,
    observed: Observation,
    observedTime: int,
    seen: nat,
    reports: seq<string>,
    calls: seq<CallRecord>,
    lastStart: int)

  /** `history` is every accepted write in order, its last entry the current record; `pending` every write ever sent. */
  datatype World = World(time: int, history: seq<Entry>, pending: set<Request>, electors: map<string, Elector>)

  /** What one elector can do, and what can happen to its call. */
  datatype Stage = Begin | GetFails | GetNotFound | GetFound | Decide | Ack | GiveUp | Report

  datatype Action =
    | Pass(ticks: nat)
    | Apply(request: Request)
    | Act(node: string, stage: Stage)

  function Clock(c: Config, w: World, n: string): int {
    w.time + c.offset(n)
  }

  function Put(w: World, n: string, e: Elector): World {
    w.(electors := w.electors[n := e])
  }

  function Reported(e: Elector): string {
    if e.reports == [] then "" else e.reports[|e.reports| - 1]
  }

  /** Step 2 of a call: remember a record that differs from the observed one, with the local time. */
  function Observe(e: Elector, fetched: Record, version: nat, clock: int): Elector {
    if SameAsObserved(e.observed, fetched) then e
    else e.(observed := Observation(fetched, true), observedTime := clock, seen := version)
  }

  /** The elector remembers its own record after an accepted write. */
  function Adopted(e: Elector, q: Request, clock: int): Elector {
    e.(observed := Observation(q.record, false), observedTime := clock, seen := q.version + 1)
  }

  function Started(e: Elector, clock: int): Elector {
    e.(call := Began(clock), lastStart := clock, calls := e.calls + [CallRecord(clock, clock, false)])
  }

  function Returned(e: Elector, clock: int, succeeded: bool): Elector {
    e.(call := Idle, calls := Ended(e.calls, clock, succeeded))
  }

  function Ended(calls: seq<CallRecord>, clock: int, succeeded: bool): seq<CallRecord> {
    if calls == [] then calls
    else
      var n := |calls| - 1;
      calls[n := calls[n].(end := clock, succeeded := succeeded)]
  }

  function Send(w: World, n: string, e: Elector, q: Request): World {
    Put(w, n, e.(call := Waiting(q))).(pending := w.pending + {q})
  }

  function DecideStep(c: Config, w: World, n: string, e: Elector): World
    requires 1 <= c.second && e.call.Fetched?
  {
    var Fetched(now, record, version) := e.call;
    var seen := Observe(e, record, version, Clock(c, w, n));
    if Blocked(c, n, seen.observedTime, now, record)
    then Put(w, n, Returned(seen, Clock(c, w, n), false))
    else Send(w, n, seen, Request(n, now, Successor(c, n, now, record), version))
  }

  function ElectorStep(c: Config, w: World, n: string, e: Elector, stage: Stage): World
    requires 1 <= c.second
  {
    match stage
    case Begin =>
      if e.call.Idle? && e.lastStart + c.gap <= Clock(c, w, n)
      then Put(w, n, Started(e, Clock(c, w, n)))
      else w
    case GetFails =>
      if e.call.Began? then Put(w, n, Returned(e, Clock(c, w, n), false)) else w
    case GetNotFound =>
      if e.call.Began? && w.history == []
      then Send(w, n, e, Request(n, e.call.now, Candidate(c, n, e.call.now), 0))
      else w
    case GetFound =>
      if e.call.Began? && w.history != []
      then Put(w, n, e.(call := Fetched(e.call.now, w.history[|w.history| - 1].record, |w.history|)))
      else w
    case Decide =>
      if e.call.Fetched? then DecideStep(c, w, n, e) else w
    case Ack =>
      if e.call.Waiting? && e.call.request.version < |w.history| && w.history[e.call.request.version].request == Some(e.call.request)
      then Put(w, n, Returned(Adopted(e, e.call.request, Clock(c, w, n)), Clock(c, w, n), true))
      else w
    case GiveUp =>
      if e.call.Waiting? then Put(w, n, Returned(e, Clock(c, w, n), false)) else w
    case Report =>
      if e.call.Idle? && e.observed.record.holder != Reported(e)
      then Put(w, n, e.(reports := e.reports + [e.observed.record.holder]))
      else w
  }

  /** One step of the system; an action that is not enabled changes nothing. */
  function Step(c: Config, w: World, a: Action): World
    requires 1 <= c.second
  {
    match a
    case Pass(ticks) => w.(time := w.time + ticks)
    case Apply(q) =>
      if q in w.pending && q.version == |w.history|
      then w.(history := w.history + [Entry(Stored(c, q.record), w.time, Some(q))])
      else w
    case Act(n, stage) =>
      if n in w.electors then ElectorStep(c, w, n, w.electors[n], stage) else w
  }

  function Run(c: Config, w: World, actions: seq<Action>): World
    requires 1 <= c.second
  {
    if actions == [] then w
    else Step(c, Run(c, w, actions[..|actions| - 1]), actions[|actions| - 1])
  }

  /**
    Where runs start: no call in progress, nothing observed, and no record or one
    stored before the run. A record that one of the electors wrote before the run
    carries a time that elector's clock had shown.
   */
  ghost predicate Init(c: Config, w: World)
    requires 1 <= c.second
  {
    && w.pending == {}
    && "" !in w.electors
    && |w.history| <= 1
    && (forall n | n in w.electors :: FreshElector(w.electors[n]))
    && (w.history != [] ==>
          && w.history[0].request == None
          && w.history[0].at <= w.time
          && OlderRecord(c, w, w.history[0]))
  }

  predicate FreshElector(e: Elector) {
    e.call == Idle && e.observed == Observation(ZERO_RECORD, true) && e.seen == 0 && e.reports == [] && e.calls == []
  }

  predicate OlderRecord(c: Config, w: World, first: Entry)
    requires 1 <= c.second
  {
    var r := first.record;
    && Stored(c, r) == r
    && (r.holder in w.electors ==> r.renew <= w.electors[r.holder].lastStart)
    && (r.holder != "" ==> r.renew <= first.at + c.offset(r.holder))
  }

  // ---------- the invariant ----------

  /** Calls of one elector read its clock in different seconds. */
  predicate Paced(c: Config) {
    c.second <= c.gap
  }

  /** Order of stored timestamps of one elector: they advance, by a second at least if its calls are that far apart. */
  predicate Newer(c: Config, t: int, u: int) {
    t <= u && (Paced(c) ==> t < u)
  }

  /** Order of the lock's records: more transitions, or the same tenure and renewed later. */
  predicate Later(c: Config, earlier: Record, later: Record) {
    || earlier.transitions < later.transitions
    || (earlier.transitions == later.transitions && earlier.holder == later.holder && Newer(c, earlier.renew, later.renew))
  }

  ghost predicate HistoryOk(c: Config, w: World)
    requires 1 <= c.second
  {
    && (forall j, k | 0 <= j < k < |w.history| :: w.history[j].at <= w.history[k].at)
    && (forall k | 0 <= k < |w.history| :: w.history[k].at <= w.time)
    && (forall k | 0 <= k < |w.history| :: EntryOk(c, w, k))
    && (forall k | 0 < k < |w.history| :: Later(c, w.history[k - 1].record, w.history[k].record))
  }

  ghost predicate EntryOk(c: Config, w: World, k: nat)
    requires 1 <= c.second && k < |w.history|
  {
    match w.history[k].request
    case None => k == 0 && OlderRecord(c, w, w.history[0])
    case Some(q) =>
      && q in w.pending && q.version == k
      && w.history[k].record == Stored(c, q.record) && q.now <= w.history[k].at + c.offset(q.node)
  }

  ghost predicate PendingOk(c: Config, w: World)
    requires 1 <= c.second
  {
    forall q | q in w.pending :: RequestOk(c, w, q)
  }

  /**
    Every write sent is the code's candidate, and a takeover waited out the lease
    since a record equal to the one it replaces was accepted.
   */
  ghost predicate RequestOk(c: Config, w: World, q: Request)
    requires 1 <= c.second
  {
    && q.node in w.electors && q.node != ""
    && q.now <= w.electors[q.node].lastStart
    && q.now <= Clock(c, w, q.node)
    && q.version <= |w.history|
    && if q.version == 0 then q.record == Candidate(c, q.node, q.now)
       else
         var basis := w.history[q.version - 1];
         && q.record == Successor(c, q.node, q.now, basis.record)
         && (basis.record.holder == q.node ==>
               && Newer(c, basis.record.renew, Trunc(c, q.now))
               && (basis.request.Some? ==> basis.request.value.now < q.now))
         && (basis.record.holder != q.node && basis.record != ZERO_RECORD ==> WaitedOut(c, w, q))
  }

  /** The record that q replaces was once accepted, and leaseDuration passed before q's clock was read. */
  ghost predicate WaitedOut(c: Config, w: World, q: Request)
    requires q.version <= |w.history|
  {
    exists s :: 0 <= s < q.version && w.history[s].record == w.history[q.version - 1].record &&
                w.history[s].at + c.leaseDuration <= q.now - c.offset(q.node)
  }

  ghost predicate ElectorsOk(c: Config, w: World)
    requires 1 <= c.second
  {
    "" !in w.electors && forall n | n in w.electors :: ElectorOk(c, w, n, w.electors[n])
  }

  ghost predicate ElectorOk(c: Config, w: World, n: string, e: Elector)
    requires 1 <= c.second
  {
    && CallOk(c, w, n, e)
    && ObservationOk(c, w, n, e)
    && NoRepeat(e.reports)
  }

  /** No record of the lock written by n, and no write n sent, is more recent than `now`. */
  ghost predicate Recent(c: Config, w: World, n: string, now: int)
    requires 1 <= c.second
  {
    && (forall q | q in w.pending && q.node == n :: q.now < now && Newer(c, Trunc(c, q.now), Trunc(c, now)))
    && (forall k | 0 <= k < |w.history| && w.history[k].record.holder == n :: Newer(c, w.history[k].record.renew, Trunc(c, now)))
  }

  ghost predicate CallOk(c: Config, w: World, n: string, e: Elector)
    requires 1 <= c.second
  {
    match e.call
    case Idle => true
    case Began(now) => now == e.lastStart && now <= Clock(c, w, n) && Recent(c, w, n, now)
    case Fetched(now, record, version) =>
      && now == e.lastStart && now <= Clock(c, w, n) && Recent(c, w, n, now)
      && 1 <= version <= |w.history|
      && w.history[version - 1].record == record
      && e.seen <= version
    case Waiting(q) => q in w.pending && q.node == n && e.seen <= q.version
  }

  ghost predicate ObservationOk(c: Config, w: World, n: string, e: Elector)
    requires 1 <= c.second
  {
    && e.seen <= |w.history|
    && if e.seen == 0 then e.observed == Observation(ZERO_RECORD, true)
       else if e.observed.decoded then
         && e.observed.record == w.history[e.seen - 1].record
         && w.history[e.seen - 1].at <= e.observedTime - c.offset(n)
       else
         && Stored(c, e.observed.record) == w.history[e.seen - 1].record
         && e.observed.record.holder == n
  }

  ghost predicate NoRepeat(reports: seq<string>) {
    && (reports != [] ==> reports[0] != "")
    && forall i | 0 < i < |reports| :: reports[i - 1] != reports[i]
  }

  ghost predicate Inv(c: Config, w: World)
    requires 1 <= c.second
  {
    HistoryOk(c, w) && PendingOk(c, w) && ElectorsOk(c, w)
  }

  // ---------- the invariant holds in every run ----------

  lemma InitInv(c: Config, w: World)
    requires 1 <= c.second && Init(c, w)
    ensures Inv(c, w)
  {
  }

  lemma {:induction false} LaterChain(c: Config, w: World, j: nat, k: nat)
    requires 1 <= c.second && HistoryOk(c, w) && j < k < |w.history|
    ensures Later(c, w.history[j].record, w.history[k].record)
    decreases k
  {
    assert Later(c, w.history[k - 1].record, w.history[k].record);
    if j < k - 1 {
      LaterChain(c, w, j, k - 1);
    }
  }

  /** No record recurs in the lock's history if calls are a second apart. */
  lemma RecordsDiffer(c: Config, w: World, j: nat, k: nat)
    requires 1 <= c.second && Paced(c) && HistoryOk(c, w)
    requires j < |w.history| && k < |w.history| && w.history[j].record == w.history[k].record
    ensures j == k
  {
    if j < k {
      LaterChain(c, w, j, k);
    } else if k < j {
      LaterChain(c, w, k, j);
    }
  }

  /** w' is w later on: time, writes and clock readings have only been added to. */
  ghost predicate Grown(w: World, w': World) {
    && w.time <= w'.time
    && w.history <= w'.history
    && w.pending <= w'.pending
    && w'.electors.Keys == w.electors.Keys
    && forall m | m in w.electors :: w.electors[m].lastStart <= w'.electors[m].lastStart
  }

  lemma KeepHistory(c: Config, w: World, w': World)
    requires 1 <= c.second && HistoryOk(c, w) && Grown(w, w') && w'.history == w.history
    ensures HistoryOk(c, w')
  {
    forall k | 0 <= k < |w'.history|
      ensures EntryOk(c, w', k)
    {
      assert EntryOk(c, w, k);
    }
  }

  lemma KeepRequest(c: Config, w: World, w': World, q: Request)
    requires 1 <= c.second && RequestOk(c, w, q) && Grown(w, w')
    ensures RequestOk(c, w', q)
  {
    if 0 < q.version {
      assert forall s | 0 <= s < q.version :: w'.history[s] == w.history[s];
    }
  }

  /** An elector that did nothing is not disturbed by the others, whose writes carry their own names. */
  lemma KeepElector(c: Config, w: World, w': World, n: string, e: Elector)
    requires 1 <= c.second && ElectorOk(c, w, n, e) && Grown(w, w')
    requires forall q | q in w'.pending && q !in w.pending :: q.node != n
    requires forall k | |w.history| <= k < |w'.history| && w'.history[k].record.holder == n ::
      exists q :: q in w.pending && q.node == n && w'.history[k].record.renew == Trunc(c, q.now)
    ensures ElectorOk(c, w', n, e)
  {
    assert forall k | 0 <= k < |w.history| :: w'.history[k] == w.history[k];
    if e.call.Began? || e.call.Fetched? {
      var now := e.call.now;
      forall k | 0 <= k < |w'.history| && w'.history[k].record.holder == n
        ensures Newer(c, w'.history[k].record.renew, Trunc(c, now))
      {
        if |w.history| <= k {
          var q :| q in w.pending && q.node == n && w'.history[k].record.renew == Trunc(c, q.now);
        }
      }
      assert Recent(c, w', n, now);
    }
  }

  /** A step of n that writes nothing to the lock leaves all else in order. */
  lemma KeepOthers(c: Config, w: World, w': World, n: string)
    requires 1 <= c.second && Inv(c, w) && Grown(w, w') && w'.history == w.history
    requires forall q | q in w'.pending && q !in w.pending :: q.node == n
    ensures HistoryOk(c, w')
    ensures forall q | q in w.pending :: RequestOk(c, w', q)
    ensures forall m | m in w.electors && m != n :: ElectorOk(c, w', m, w.electors[m])
  {
    KeepHistory(c, w, w');
    forall q | q in w.pending
      ensures RequestOk(c, w', q)
    {
      KeepRequest(c, w, w', q);
    }
    forall m | m in w.electors && m != n
      ensures ElectorOk(c, w', m, w.electors[m])
    {
      KeepElector(c, w, w', m, w.electors[m]);
    }
  }

  /** A step of elector n that leaves the lock and all sent writes as they were. */
  lemma Frame(c: Config, w: World, e: Elector, n: string)
    requires 1 <= c.second && Inv(c, w) && n in w.electors
    requires w.electors[n].lastStart <= e.lastStart
    requires ElectorOk(c, Put(w, n, e), n, e)
    ensures Inv(c, Put(w, n, e))
  {
    KeepOthers(c, w, Put(w, n, e), n);
  }

  /** A call that begins reads a clock later than all its elector has written. */
  lemma BeginsRecent(c: Config, w: World, n: string)
    requires ValidConfig(c) && Inv(c, w) && n in w.electors && w.electors[n].lastStart + c.gap <= Clock(c, w, n)
    ensures Recent(c, w, n, Clock(c, w, n))
  {
    var now := Clock(c, w, n);
    forall q | q in w.pending && q.node == n
      ensures q.now < now && Newer(c, Trunc(c, q.now), Trunc(c, now))
    {
      assert RequestOk(c, w, q);
      TruncMonotone(c, q.now, now);
    }
    forall k | 0 <= k < |w.history| && w.history[k].record.holder == n
      ensures Newer(c, w.history[k].record.renew, Trunc(c, now))
    {
      assert EntryOk(c, w, k);
      match w.history[k].request
      case None => TruncMonotone(c, w.history[k].record.renew, now);
      case Some(q) => assert RequestOk(c, w, q);
    }
  }

  lemma BeginInv(c: Config, w: World, n: string)
    requires ValidConfig(c) && Inv(c, w) && n in w.electors
    ensures Inv(c, Step(c, w, Act(n, Begin)))
  {
    var e, now := w.electors[n], Clock(c, w, n);
    if e.call.Idle? && e.lastStart + c.gap <= now {
      BeginsRecent(c, w, n);
      assert ElectorOk(c, w, n, e);
      Frame(c, w, Started(e, now), n);
    }
  }

  lemma SenderOk(c: Config, w: World, n: string, e: Elector, q: Request)
    requires 1 <= c.second && n in w.electors
    requires ObservationOk(c, w, n, e) && NoRepeat(e.reports) && q.node == n && e.seen <= q.version
    ensures ElectorOk(c, Send(w, n, e, q), n, e.(call := Waiting(q)))
  {
  }

  lemma SendInv(c: Config, w: World, n: string, e: Elector, q: Request)
    requires 1 <= c.second && Inv(c, w) && n in w.electors
    requires e.lastStart == w.electors[n].lastStart && ObservationOk(c, w, n, e) && NoRepeat(e.reports)
    requires q.node == n && RequestOk(c, w, q) && e.seen <= q.version
    ensures Inv(c, Send(w, n, e, q))
  {
    var w' := Send(w, n, e, q);
    KeepOthers(c, w, w', n);
    KeepRequest(c, w, w', q);
    SenderOk(c, w, n, e, q);
  }

  /** The heart of the protocol: an elector that is not blocked by another's lease has waited it out. */
  lemma LeaseWaitedOut(c: Config, w: World, n: string, e: Elector)
    requires ValidConfig(c) && Inv(c, w) && n in w.electors && n != "" && e.call.Fetched? && ElectorOk(c, w, n, e)
    requires e.lastStart == w.electors[n].lastStart
    requires !Blocked(c, n, Observe(e, e.call.record, e.call.version, Clock(c, w, n)).observedTime, e.call.now, e.call.record)
    ensures RequestOk(c, w, Request(n, e.call.now, Successor(c, n, e.call.now, e.call.record), e.call.version))
  {
    var Fetched(now, record, version) := e.call;
    if record.holder != n && record != ZERO_RECORD {
      assert SameAsObserved(e.observed, record);
      assert w.history[e.seen - 1].record == record;
    } else if record.holder == n {
      assert EntryOk(c, w, version - 1);
      assert w.history[version - 1].request.Some? ==> RequestOk(c, w, w.history[version - 1].request.value);
    }
  }

  lemma ObserveOk(c: Config, w: World, n: string, e: Elector)
    requires 1 <= c.second && HistoryOk(c, w) && e.call.Fetched? && ElectorOk(c, w, n, e)
    ensures ObservationOk(c, w, n, Observe(e, e.call.record, e.call.version, Clock(c, w, n)))
  {
  }

  lemma DecideInv(c: Config, w: World, n: string)
    requires ValidConfig(c) && Inv(c, w) && n in w.electors
    ensures Inv(c, Step(c, w, Act(n, Decide)))
  {
    var e := w.electors[n];
    assert ElectorOk(c, w, n, e);
    if e.call.Fetched? {
      var Fetched(now, record, version) := e.call;
      var seen := Observe(e, record, version, Clock(c, w, n));
      ObserveOk(c, w, n, e);
      if Blocked(c, n, seen.observedTime, now, record) {
        Frame(c, w, Returned(seen, Clock(c, w, n), false), n);
      } else {
        LeaseWaitedOut(c, w, n, e);
        SendInv(c, w, n, seen, Request(n, now, Successor(c, n, now, record), version));
      }
    }
  }

  lemma GetNotFoundInv(c: Config, w: World, n: string)
    requires ValidConfig(c) && Inv(c, w) && n in w.electors
    ensures Inv(c, Step(c, w, Act(n, GetNotFound)))
  {
    var e := w.electors[n];
    assert ElectorOk(c, w, n, e);
    if e.call.Began? && w.history == [] {
      SendInv(c, w, n, e, Request(n, e.call.now, Candidate(c, n, e.call.now), 0));
    }
  }

  lemma AppliedHistory(c: Config, w: World, q: Request)
    requires 1 <= c.second && HistoryOk(c, w) && q in w.pending && q.version == |w.history| && RequestOk(c, w, q)
    ensures HistoryOk(c, Step(c, w, Apply(q)))
  {
    var w' := Step(c, w, Apply(q));
    var k := |w.history|;
    forall j | 0 <= j < |w'.history|
      ensures EntryOk(c, w', j)
    {
      assert j < k ==> EntryOk(c, w, j);
    }
    assert 0 < k ==> Later(c, w.history[k - 1].record, w'.history[k].record);
  }

  lemma ApplyInv(c: Config, w: World, q: Request)
    requires ValidConfig(c) && Inv(c, w)
    ensures Inv(c, Step(c, w, Apply(q)))
  {
    if q in w.pending && q.version == |w.history| {
      var w' := Step(c, w, Apply(q));
      AppliedHistory(c, w, q);
      forall p | p in w'.pending
        ensures RequestOk(c, w', p)
      {
        KeepRequest(c, w, w', p);
      }
      forall m | m in w'.electors
        ensures ElectorOk(c, w', m, w'.electors[m])
      {
        KeepElector(c, w, w', m, w.electors[m]);
      }
    }
  }

  lemma AckInv(c: Config, w: World, n: string)
    requires ValidConfig(c) && Inv(c, w) && n in w.electors
    ensures Inv(c, Step(c, w, Act(n, Ack)))
  {
    var e := w.electors[n];
    assert ElectorOk(c, w, n, e);
    if e.call.Waiting? && e.call.request.version < |w.history| && w.history[e.call.request.version].request == Some(e.call.request) {
      assert EntryOk(c, w, e.call.request.version);
      assert RequestOk(c, w, e.call.request);
      Frame(c, w, Step(c, w, Act(n, Ack)).electors[n], n);
    }
  }

  lemma QuietElector(c: Config, w: World, n: string, e: Elector, stage: Stage)
    requires 1 <= c.second && HistoryOk(c, w) && ElectorOk(c, w, n, e)
    requires stage in {GetFails, GetFound, GiveUp, Report} && ElectorStep(c, w, n, e, stage) != w
    ensures var w' := ElectorStep(c, w, n, e, stage);
            && n in w'.electors && w' == Put(w, n, w'.electors[n])
            && w'.electors[n].lastStart == e.lastStart && ElectorOk(c, w', n, w'.electors[n])
  {
  }

  /** The steps that neither send nor apply a write, nor adopt one. */
  lemma QuietInv(c: Config, w: World, n: string, stage: Stage)
    requires ValidConfig(c) && Inv(c, w) && n in w.electors
    requires stage in {GetFails, GetFound, GiveUp, Report}
    ensures Inv(c, Step(c, w, Act(n, stage)))
  {
    assert ElectorOk(c, w, n, w.electors[n]);
    if Step(c, w, Act(n, stage)) != w {
      QuietElector(c, w, n, w.electors[n], stage);
      Frame(c, w, Step(c, w, Act(n, stage)).electors[n], n);
    }
  }

  lemma PassInv(c: Config, w: World, ticks: nat)
    requires ValidConfig(c) && Inv(c, w)
    ensures Inv(c, Step(c, w, Pass(ticks)))
  {
    var w' := Step(c, w, Pass(ticks));
    KeepHistory(c, w, w');
    forall q | q in w'.pending
      ensures RequestOk(c, w', q)
    {
      KeepRequest(c, w, w', q);
    }
    forall m | m in w'.electors
      ensures ElectorOk(c, w', m, w'.electors[m])
    {
      KeepElector(c, w, w', m, w.electors[m]);
    }
  }

  lemma StepInv(c: Config, w: World, a: Action)
    requires ValidConfig(c) && Inv(c, w)
    ensures Inv(c, Step(c, w, a))
  {
    match a
    case Pass(ticks) => PassInv(c, w, ticks);
    case Apply(q) => ApplyInv(c, w, q);
    case Act(n, stage) =>
      if n in w.electors {
        match stage
        case Begin => BeginInv(c, w, n);
        case GetNotFound => GetNotFoundInv(c, w, n);
        case Decide => DecideInv(c, w, n);
        case Ack => AckInv(c, w, n);
        case _ => QuietInv(c, w, n, stage);
      }
  }

  lemma {:induction false} RunInv(c: Config, w: World, actions: seq<Action>)
    requires ValidConfig(c) && Inv(c, w)
    ensures Inv(c, Run(c, w, actions))
  {
    if actions != [] {
      RunInv(c, w, actions[..|actions| - 1]);
      StepInv(c, Run(c, w, actions[..|actions| - 1]), actions[|actions| - 1]);
    }
  }

  // ---------- what every run keeps ----------

  /** When another node's write replaces a holder's record, every earlier write is at least leaseDuration old. */
  ghost predicate Exclusive(c: Config, h: seq<Entry>) {
    forall j, k | 0 <= j < k < |h| && h[k - 1].record.holder != h[k].record.holder && h[k - 1].record.holder != "" ::
      h[j].at + c.leaseDuration <= h[k].at
  }

  lemma InvExclusive(c: Config, w: World)
    requires ValidConfig(c) && Paced(c) && Inv(c, w)
    ensures Exclusive(c, w.history)
  {
    WrittenHolders(c, w);
    var h := w.history;
    forall j, k | 0 <= j < k < |h| && h[k - 1].record.holder != h[k].record.holder && h[k - 1].record.holder != ""
      ensures w.history[j].at + c.leaseDuration <= w.history[k].at
    {
      assert w.history[j].at <= w.history[k - 1].at;
      TakeoverIsLate(c, w, k - 1, k);
      ClaimedBeforeAccepted(c, w, k);
    }
  }

  /** Lease exclusion, for every run of any number of electors whose calls are a second apart. */
  lemma LeaseExclusion(c: Config, w: World, actions: seq<Action>)
    requires ValidConfig(c) && Paced(c) && Init(c, w)
    ensures Exclusive(c, Run(c, w, actions).history)
  {
    InitInv(c, w);
    RunInv(c, w, actions);
    InvExclusive(c, Run(c, w, actions));
  }

  /** The exact clock reading, in real time, that the holder of entry e based its record on. */
  function ClaimedAt(c: Config, e: Entry): int {
    match e.request
    case None => e.record.renew - c.offset(e.record.holder)
    case Some(q) => q.now - c.offset(q.node)
  }

  /** RenewTime in real time, as stored: rounded down to the holder's second. */
  function RenewedAt(c: Config, e: Entry): int {
    e.record.renew - c.offset(e.record.holder)
  }

  /** No two entries of different non-empty holders have windows of this length that meet. */
  ghost predicate DisjointWindows(h: seq<Entry>, start: Entry -> int, length: int) {
    forall j, k | 0 <= j < k < |h| && h[j].record.holder != h[k].record.holder && h[j].record.holder != "" && h[k].record.holder != "" ::
      start(h[j]) + length < start(h[k])
  }

  /** No elector writes the record of an object that carries none. */
  lemma WrittenHolders(c: Config, w: World)
    requires 1 <= c.second && Inv(c, w)
    ensures forall k | 0 < k < |w.history| :: w.history[k].record.holder != ""
  {
    forall k | 0 < k < |w.history|
      ensures w.history[k].record.holder != ""
    {
      assert EntryOk(c, w, k);
      assert RequestOk(c, w, w.history[k].request.value);
    }
  }

  /** A record and an equal one accepted later: the stored RenewTime of all between is the same. */
  lemma SameBetween(c: Config, w: World, i: nat, j: nat, k: nat)
    requires 1 <= c.second && HistoryOk(c, w) && i <= j <= k < |w.history| && w.history[i].record == w.history[k].record
    ensures RenewedAt(c, w.history[j]) == RenewedAt(c, w.history[i])
  {
    if i < j < k {
      LaterChain(c, w, i, j);
      LaterChain(c, w, j, k);
    }
  }

  lemma ClaimedBeforeAccepted(c: Config, w: World, k: nat)
    requires 1 <= c.second && Inv(c, w) && k < |w.history| && w.history[k].record.holder != ""
    ensures RenewedAt(c, w.history[k]) <= ClaimedAt(c, w.history[k]) <= w.history[k].at
    ensures ClaimedAt(c, w.history[k]) < RenewedAt(c, w.history[k]) + c.second
  {
    assert EntryOk(c, w, k);
    if w.history[k].request.Some? {
      assert RequestOk(c, w, w.history[k].request.value);
    }
  }

  /** A takeover is claimed leaseDuration after every record before it was renewed; after it was accepted, if calls are a second apart. */
  lemma TakeoverIsLate(c: Config, w: World, j: nat, k: nat)
    requires ValidConfig(c) && Inv(c, w) && j < k < |w.history|
    requires w.history[j].record.holder != "" && w.history[k - 1].record.holder != w.history[k].record.holder
    ensures RenewedAt(c, w.history[j]) + c.leaseDuration <= ClaimedAt(c, w.history[k])
    ensures Paced(c) ==> w.history[j].at + c.leaseDuration <= ClaimedAt(c, w.history[k])
  {
    WrittenHolders(c, w);
    assert EntryOk(c, w, k);
    var q := w.history[k].request.value;
    assert RequestOk(c, w, q);
    var s :| 0 <= s < k && w.history[s].record == w.history[k - 1].record && w.history[s].at + c.leaseDuration <= q.now - c.offset(q.node);
    ClaimedBeforeAccepted(c, w, j);
    if s < j {
      SameBetween(c, w, s, j, k - 1);
      ClaimedBeforeAccepted(c, w, s);
    }
    if Paced(c) {
      RecordsDiffer(c, w, s, k - 1);
    }
  }

  /** Every claim of a tenure, its renewals included, comes that late after every record of an earlier holder. */
  lemma {:induction false} TenureStartsLate(c: Config, w: World, j: nat, k: nat)
    requires ValidConfig(c) && Inv(c, w) && j < k < |w.history|
    requires w.history[j].record.holder != w.history[k].record.holder && w.history[j].record.holder != ""
    ensures RenewedAt(c, w.history[j]) + c.leaseDuration <= ClaimedAt(c, w.history[k])
    ensures Paced(c) ==> w.history[j].at + c.leaseDuration <= ClaimedAt(c, w.history[k])
    decreases k
  {
    if w.history[k - 1].record.holder != w.history[k].record.holder {
      TakeoverIsLate(c, w, j, k);
    } else {
      TenureStartsLate(c, w, j, k - 1);
      assert EntryOk(c, w, k) && EntryOk(c, w, k - 1);
      assert RequestOk(c, w, w.history[k].request.value);
      assert RequestOk(c, w, w.history[k - 1].request.value);
    }
  }

  /**
    The intervals in which holders count on their lease never meet: with a second's margin whatever the
    calls, counted from the clock readings or from the stored RenewTime; without it if calls are a second apart.
   */
  lemma ValidityWindows(c: Config, w: World, actions: seq<Action>)
    requires ValidConfig(c) && Init(c, w)
    ensures Paced(c) || c.renewDeadline + c.second <= c.leaseDuration ==>
      DisjointWindows(Run(c, w, actions).history, e => ClaimedAt(c, e), c.renewDeadline)
    ensures c.renewDeadline + c.second <= c.leaseDuration ==>
      DisjointWindows(Run(c, w, actions).history, e => RenewedAt(c, e), c.renewDeadline)
  {
    InitInv(c, w);
    RunInv(c, w, actions);
    var w' := Run(c, w, actions);
    var h := w'.history;
    forall j, k | 0 <= j < k < |h| && h[j].record.holder != h[k].record.holder && h[j].record.holder != "" && h[k].record.holder != ""
      ensures Paced(c) || c.renewDeadline + c.second <= c.leaseDuration ==> ClaimedAt(c, h[j]) + c.renewDeadline < ClaimedAt(c, h[k])
      ensures c.renewDeadline + c.second <= c.leaseDuration ==> RenewedAt(c, h[j]) + c.renewDeadline < RenewedAt(c, h[k])
    {
      TenureStartsLate(c, w', j, k);
      ClaimedBeforeAccepted(c, w', j);
      ClaimedBeforeAccepted(c, w', k);
    }
  }

  // ---------- the lock's history ----------

  function HolderChanges(h: seq<Entry>): nat {
    if |h| <= 1 then 0
    else HolderChanges(h[..|h| - 1]) + if h[|h| - 2].record.holder != h[|h| - 1].record.holder then 1 else 0
  }

  /** Index of the first record of the tenure that entry k belongs to. */
  function TenureStart(h: seq<Entry>, k: nat): (s: nat)
    requires k < |h|
    ensures s <= k
  {
    if k == 0 || h[k - 1].record.holder != h[k].record.holder then k else TenureStart(h, k - 1)
  }

  lemma {:induction false} Transitions(c: Config, w: World, k: nat)
    requires ValidConfig(c) && Inv(c, w) && k < |w.history|
    ensures w.history[k].record.transitions == w.history[0].record.transitions + HolderChanges(w.history[..k + 1])
  {
    if 0 < k {
      Transitions(c, w, k - 1);
      assert w.history[..k + 1][..k] == w.history[..k];
      assert EntryOk(c, w, k);
      assert RequestOk(c, w, w.history[k].request.value);
    }
  }

  lemma {:induction false} Acquired(c: Config, w: World, k: nat)
    requires ValidConfig(c) && Inv(c, w) && k < |w.history|
    ensures var first := w.history[TenureStart(w.history, k)];
            first.request.Some? ==> w.history[k].record.acquire == first.record.renew
    ensures Trunc(c, w.history[k].record.acquire) == w.history[k].record.acquire
  {
    assert EntryOk(c, w, k);
    if w.history[k].request.Some? {
      var q := w.history[k].request.value;
      assert RequestOk(c, w, q);
      TruncIdempotent(c, q.record.acquire);
      if 0 < k && w.history[k - 1].record.holder == q.node {
        Acquired(c, w, k - 1);
        assert EntryOk(c, w, k - 1);
        assert w.history[k].record.acquire == Trunc(c, w.history[k - 1].record.acquire);
      }
    }
  }

  predicate TransitionsCounted(h: seq<Entry>) {
    forall k | 0 <= k < |h| :: h[k].record.transitions == h[0].record.transitions + HolderChanges(h[..k + 1])
  }

  predicate TenuresKept(h: seq<Entry>) {
    forall k | 0 <= k < |h| && h[TenureStart(h, k)].request.Some? :: h[k].record.acquire == h[TenureStart(h, k)].record.renew
  }

  /** (LeaderTransitions, RenewTime) strictly increases. */
  predicate StrictlyOrdered(h: seq<Entry>) {
    forall j, k | 0 <= j < k < |h| ::
      || h[j].record.transitions < h[k].record.transitions
      || (h[j].record.transitions == h[k].record.transitions && h[j].record.renew < h[k].record.renew)
  }

  predicate NoneRecurs(h: seq<Entry>) {
    forall j, k | 0 <= j < k < |h| :: h[j].record != h[k].record
  }

  lemma HistoryKept(c: Config, w: World)
    requires ValidConfig(c) && Inv(c, w)
    ensures TransitionsCounted(w.history) && TenuresKept(w.history)
  {
    forall k | 0 <= k < |w.history|
      ensures w.history[k].record.transitions == w.history[0].record.transitions + HolderChanges(w.history[..k + 1])
    {
      Transitions(c, w, k);
    }
    forall k | 0 <= k < |w.history| && w.history[TenureStart(w.history, k)].request.Some?
      ensures w.history[k].record.acquire == w.history[TenureStart(w.history, k)].record.renew
    {
      Acquired(c, w, k);
    }
  }

  /** Transition counts, acquisition times and order of the lock's records, in every run. */
  lemma LockHistory(c: Config, w: World, actions: seq<Action>)
    requires ValidConfig(c) && Init(c, w)
    ensures var h := Run(c, w, actions).history;
            && TransitionsCounted(h) && TenuresKept(h)
            && (forall j, k | 0 <= j < k < |h| :: Later(c, h[j].record, h[k].record))
            && (Paced(c) ==> StrictlyOrdered(h) && NoneRecurs(h))
  {
    InitInv(c, w);
    RunInv(c, w, actions);
    var w' := Run(c, w, actions);
    HistoryKept(c, w');
    forall j, k | 0 <= j < k < |w'.history|
      ensures Later(c, w'.history[j].record, w'.history[k].record)
    {
      LaterChain(c, w', j, k);
    }
  }

  // ---------- what each elector sees ----------

  lemma ElectorMovesForward(c: Config, w: World, n: string, stage: Stage)
    requires 1 <= c.second && n in w.electors && CallOk(c, w, n, w.electors[n])
    ensures var w' := ElectorStep(c, w, n, w.electors[n], stage);
            && w'.electors.Keys == w.electors.Keys && w'.history == w.history
            && (forall m | m in w.electors && m != n :: w'.electors[m] == w.electors[m])
            && w.electors[n].seen <= w'.electors[n].seen && w.electors[n].reports <= w'.electors[n].reports
  {
  }

  lemma SeenMovesForward(c: Config, w: World, a: Action, n: string)
    requires ValidConfig(c) && Inv(c, w) && n in w.electors
    ensures n in Step(c, w, a).electors && w.electors[n].seen <= Step(c, w, a).electors[n].seen
    ensures w.history <= Step(c, w, a).history
    ensures w.electors[n].reports <= Step(c, w, a).electors[n].reports
  {
    match a
    case Pass(_) =>
    case Apply(_) =>
    case Act(m, stage) =>
      if m in w.electors {
        assert ElectorOk(c, w, m, w.electors[m]);
        ElectorMovesForward(c, w, m, stage);
      }
  }

  lemma {:induction false} RunMovesForward(c: Config, w: World, actions: seq<Action>, n: string)
    requires ValidConfig(c) && Inv(c, w) && n in w.electors
    ensures var w' := Run(c, w, actions);
            && n in w'.electors && w.history <= w'.history
            && w.electors[n].seen <= w'.electors[n].seen && w.electors[n].reports <= w'.electors[n].reports
  {
    if actions != [] {
      RunMovesForward(c, w, actions[..|actions| - 1], n);
      RunInv(c, w, actions[..|actions| - 1]);
      SeenMovesForward(c, Run(c, w, actions[..|actions| - 1]), actions[|actions| - 1], n);
    }
  }

  /** An elector's observed record is a record of the lock's history and only moves forward through it; reports never repeat. */
  lemma ObservationMovesForward(c: Config, w: World, actions: seq<Action>, more: seq<Action>, n: string)
    requires ValidConfig(c) && Init(c, w) && n in w.electors
    ensures n in Run(c, w, actions).electors
    ensures var w1, w2 := Run(c, w, actions), Run(c, Run(c, w, actions), more);
            && n in w2.electors
            && w1.history <= w2.history
            && w1.electors[n].seen <= w2.electors[n].seen <= |w2.history|
            && w1.electors[n].reports <= w2.electors[n].reports
            && (0 < w2.electors[n].seen ==> RecordSeen(c, w2, w2.electors[n]))
            && NoRepeat(w2.electors[n].reports)
  {
    InitInv(c, w);
    RunInv(c, w, actions);
    RunMovesForward(c, w, actions, n);
    var w1 := Run(c, w, actions);
    RunInv(c, w1, more);
    RunMovesForward(c, w1, more, n);
    var w2 := Run(c, w1, more);
    assert ElectorOk(c, w2, n, w2.electors[n]);
  }

  ghost predicate RecordSeen(c: Config, w: World, e: Elector)
    requires 1 <= c.second
  {
    && 0 < e.seen <= |w.history|
    && w.history[e.seen - 1].record == if e.observed.decoded then e.observed.record else Stored(c, e.observed.record)
  }
}
