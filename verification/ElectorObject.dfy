/**
  The elector as the object it is in pkg/leaderelection: fields updated by
  `tryAcquireOrRenew` and `maybeReportTransition`. A call in which the other
  electors do anything between its steps is proved to be a run of LeaseProtocol.
 */
module ElectorObject {
  import opened Common
  import opened LeaderElection
  import opened LeaseProtocol
  import opened LeaseSteps

  /** What `Get` returns. */
  datatype Answer = Failed | NotFound | Found(record: Record)

  /** The fate of a write: its answer comes back, or is lost, or the write never reaches the server. */
  datatype Reply = Delivered | Lost | Refused

  /**
    What surrounds one call: the real times when it reads the clock, has the
    reply to `Get`, reaches the server with a write and returns from it; and the
    writes of others that are accepted between `Get` and its own write, and
    between that and its return.
   */
  datatype Surroundings = Surroundings(
    start: int, fetchedAt: int, appliedAt: int, answeredAt: int,
    getReaches: bool, reply: Reply, rivals: seq<Entry>, later: seq<Entry>)

  /** The record on the server, and the version of it that this client got last. */
  class Lock {
    var history: seq<Entry>
    var version: nat

    constructor (history: seq<Entry>)
      ensures this.history == history
    {
      this.history, version := history, 0;
    }

    method Get(reaches: bool) returns (answer: Answer)
      modifies this`version
      ensures answer ==
        if !reaches then Failed
        else if history == [] then NotFound
        else Found(history[|history| - 1].record)
      ensures reaches ==> version == |history|
    {
      if !reaches {
        return Failed;
      }
      version := |history|;
      if history == [] {
        return NotFound;
      }
      return Found(history[|history| - 1].record);
    }

    /** `Create` and `Update`: the latter only over the record the request is based on. */
    method Write(c: Config, q: Request, at: int, reply: Reply) returns (accepted: bool)
      requires 1 <= c.second
      modifies this`history
      ensures history == if reply != Refused && q.version == |old(history)|
                         then old(history) + [Entry(Stored(c, q.record), at, Some(q))]
                         else old(history)
      ensures accepted == (reply == Delivered && q.version == |old(history)|)
    {
      if reply == Refused || q.version != |history| {
        return false;
      }
      history := history + [Entry(Stored(c, q.record), at, Some(q))];
      return reply == Delivered;
    }

    /** Writes of other electors. */
    method Others(entries: seq<Entry>)
      modifies this`history
      ensures history == old(history) + entries
    {
      history := history + entries;
    }
  }

  // ---------- what a call leaves ----------

  function CreateRequest(c: Config, n: string, s: Surroundings): Request
    requires 1 <= c.second
  {
    Request(n, s.start + c.offset(n), Candidate(c, n, s.start + c.offset(n)), 0)
  }

  function UpdateRequest(c: Config, n: string, s: Surroundings, h: seq<Entry>): Request
    requires 1 <= c.second && h != []
  {
    Request(n, s.start + c.offset(n), Successor(c, n, s.start + c.offset(n), h[|h| - 1].record), |h|)
  }

  /** The elector after it has looked at the record it fetched. */
  function Looked(c: Config, n: string, e: Elector, s: Surroundings, h: seq<Entry>): Elector
    requires h != []
  {
    Observe(Started(e, s.start + c.offset(n)), h[|h| - 1].record, |h|, s.fetchedAt + c.offset(n))
  }

  /** The elector's lease check on the record it fetched. */
  predicate Gate(c: Config, n: string, e: Elector, s: Surroundings, h: seq<Entry>)
    requires h != []
  {
    Blocked(c, n, Looked(c, n, e, s, h).observedTime, s.start + c.offset(n), h[|h| - 1].record)
  }

  predicate Accepted(s: Surroundings) {
    s.reply != Refused && s.rivals == []
  }

  function Written(c: Config, q: Request, s: Surroundings, h: seq<Entry>): seq<Entry>
    requires 1 <= c.second
  {
    if Accepted(s) then h + [Entry(Stored(c, q.record), s.appliedAt, Some(q))] else h + s.rivals
  }

  /** Where a write leaves its elector and the lock's history, which was h when the record was fetched. */
  function AfterWrite(c: Config, n: string, e: Elector, q: Request, s: Surroundings, h: seq<Entry>): (Elector, seq<Entry>)
    requires 1 <= c.second
  {
    (Back(c, n, e, q, s), Written(c, q, s, h) + s.later)
  }

  /** Elector e when it is back from a write. */
  function Back(c: Config, n: string, e: Elector, q: Request, s: Surroundings): Elector {
    var returned := s.answeredAt + c.offset(n);
    if Accepted(s) && s.reply == Delivered then Returned(Adopted(e, q, returned), returned, true) else Returned(e, returned, false)
  }

  /** The elector and the lock's history after a call that found history h. */
  function AfterCall(c: Config, n: string, e: Elector, s: Surroundings, h: seq<Entry>): (Elector, seq<Entry>)
    requires 1 <= c.second
  {
    if !s.getReaches then (Returned(Started(e, s.start + c.offset(n)), s.fetchedAt + c.offset(n), false), h)
    else if h == [] then AfterWrite(c, n, Started(e, s.start + c.offset(n)), CreateRequest(c, n, s), s, h)
    else if Gate(c, n, e, s, h) then (Returned(Looked(c, n, e, s, h), s.fetchedAt + c.offset(n), false), h + s.rivals)
    else AfterWrite(c, n, Looked(c, n, e, s, h), UpdateRequest(c, n, s, h), s, h)
  }

  /** The server's history after a write that reaches it when its history is h. */
  function Taken(c: Config, q: Request, s: Surroundings, h: seq<Entry>): seq<Entry>
    requires 1 <= c.second
  {
    if Accepted(s) then h + [Entry(Stored(c, q.record), s.appliedAt, Some(q))] else h
  }

  /** ... which has the writes of others in it that came first. */
  lemma WrittenIsTaken(c: Config, q: Request, s: Surroundings, h: seq<Entry>)
    requires 1 <= c.second
    ensures Written(c, q, s, h) == Taken(c, q, s, h + s.rivals)
  {
    assert s.rivals == [] ==> h + s.rivals == h;
  }

  /** The call's write is accepted and answered. */
  predicate Succeeds(c: Config, n: string, e: Elector, s: Surroundings, h: seq<Entry>) {
    s.getReaches && Accepted(s) && s.reply == Delivered && (h == [] || !Gate(c, n, e, s, h))
  }

  // ---------- a call is a run ----------

  /** What the other electors, the server and time do between the steps of one call. */
  datatype Interleaving = Interleaving(
    beforeGet: seq<Action>, beforeDecision: seq<Action>, beforeWrite: seq<Action>, beforeAnswer: seq<Action>,
    getReaches: bool, reply: Reply)

  predicate Others(n: string, actions: seq<Action>) {
    forall a | a in actions :: a.Act? ==> a.node != n
  }

  predicate AllOthers(n: string, i: Interleaving) {
    Others(n, i.beforeGet) && Others(n, i.beforeDecision) && Others(n, i.beforeWrite) && Others(n, i.beforeAnswer)
  }

  /** What others do leaves n as it is, and adds to the history and the writes sent. */
  lemma {:induction false} OthersRun(c: Config, w: World, n: string, actions: seq<Action>)
    requires 1 <= c.second && Others(n, actions)
    ensures var w' := Run(c, w, actions);
            && (n in w.electors ==> n in w'.electors && w'.electors[n] == w.electors[n])
            && w.history <= w'.history && w.pending <= w'.pending
  {
    if actions != [] {
      var init, last := actions[..|actions| - 1], actions[|actions| - 1];
      assert forall a | a in init :: a in actions;
      OthersRun(c, w, n, init);
      assert last in actions;
      OthersStep(c, Run(c, w, init), n, last);
    }
  }

  lemma OthersStep(c: Config, w: World, n: string, a: Action)
    requires 1 <= c.second && (a.Act? ==> a.node != n)
    ensures var w' := Step(c, w, a);
            && (n in w.electors ==> n in w'.electors && w'.electors[n] == w.electors[n])
            && w.history <= w'.history && w.pending <= w'.pending
  {
  }

  /** Elector n is about to get the record; others have gone on. */
  function Getting(c: Config, w: World, n: string, i: Interleaving): World
    requires 1 <= c.second
  {
    Run(c, Step(c, w, Act(n, Begin)), i.beforeGet)
  }

  /** Elector n is about to decide on the record it has got. */
  function Got(c: Config, w: World, n: string, i: Interleaving): World
    requires 1 <= c.second
  {
    Run(c, Step(c, Getting(c, w, n, i), Act(n, GetFound)), i.beforeDecision)
  }

  /** Elector n has decided; in this state it may have sent a write. */
  function Decided(c: Config, w: World, n: string, i: Interleaving): World
    requires 1 <= c.second
  {
    var getting := Getting(c, w, n, i);
    if !i.getReaches then Step(c, getting, Act(n, GetFails))
    else if getting.history == [] then Step(c, getting, Act(n, GetNotFound))
    else Step(c, Got(c, w, n, i), Act(n, Decide))
  }

  /** The write q reaches the server, or does not. */
  function Arrived(c: Config, sent: World, q: Request, i: Interleaving): World
    requires 1 <= c.second
  {
    var w := Run(c, sent, i.beforeWrite);
    if i.reply == Refused then w else Step(c, w, Apply(q))
  }

  /** The call returns from its write. */
  function Answered(c: Config, sent: World, n: string, q: Request, i: Interleaving): World
    requires 1 <= c.second
  {
    var w := Run(c, Arrived(c, sent, q, i), i.beforeAnswer);
    if i.reply == Delivered && |Run(c, sent, i.beforeWrite).history| == q.version
    then Step(c, w, Act(n, Ack))
    else Step(c, w, Act(n, GiveUp))
  }

  /** The state after a call of n. */
  function Called(c: Config, w: World, n: string, i: Interleaving): World
    requires 1 <= c.second
  {
    var decided := Decided(c, w, n, i);
    if n in decided.electors && decided.electors[n].call.Waiting?
    then Answered(c, decided, n, decided.electors[n].call.request, i)
    else decided
  }

  /** What elector n finds around that call. */
  function SurroundingsOf(c: Config, w: World, n: string, i: Interleaving): Surroundings
    requires 1 <= c.second && n in w.electors
  {
    var decided := Decided(c, w, n, i);
    var h := Getting(c, w, n, i).history;
    var rest := (longer: seq<Entry>, k: nat) => if k <= |longer| then longer[k..] else [];
    if n in decided.electors && decided.electors[n].call.Waiting? then
      var q := decided.electors[n].call.request;
      var before := Run(c, decided, i.beforeWrite);
      var arrived := Arrived(c, decided, q, i);
      var back := Run(c, arrived, i.beforeAnswer);
      Surroundings(w.time, decided.time, before.time, back.time, i.getReaches, i.reply,
                   rest(before.history, |h|), rest(back.history, |arrived.history|))
    else
      Surroundings(w.time, decided.time, decided.time, decided.time, i.getReaches, i.reply, rest(decided.history, |h|), [])
  }

  lemma CalledLeads(c: Config, w: World, n: string, i: Interleaving)
    requires 1 <= c.second
    ensures Leads(c, w, Called(c, w, n, i))
  {
    var begun, getting, decided := Step(c, w, Act(n, Begin)), Getting(c, w, n, i), Decided(c, w, n, i);
    LeadsStep(c, w, Act(n, Begin));
    LeadsRun(c, w, begun, i.beforeGet);
    if !i.getReaches {
      LeadsMore(c, w, getting, Act(n, GetFails));
    } else if getting.history == [] {
      LeadsMore(c, w, getting, Act(n, GetNotFound));
    } else {
      LeadsMore(c, w, getting, Act(n, GetFound));
      LeadsRun(c, w, Step(c, getting, Act(n, GetFound)), i.beforeDecision);
      LeadsMore(c, w, Got(c, w, n, i), Act(n, Decide));
    }
    if n in decided.electors && decided.electors[n].call.Waiting? {
      var q := decided.electors[n].call.request;
      LeadsRun(c, w, decided, i.beforeWrite);
      LeadsMore(c, w, Run(c, decided, i.beforeWrite), Apply(q));
      LeadsRun(c, w, Arrived(c, decided, q, i), i.beforeAnswer);
      var back := Run(c, Arrived(c, decided, q, i), i.beforeAnswer);
      LeadsMore(c, w, back, Act(n, Ack));
      LeadsMore(c, w, back, Act(n, GiveUp));
    }
  }

  lemma LeadsMore(c: Config, w: World, w': World, a: Action)
    requires 1 <= c.second && Leads(c, w, w')
    ensures Leads(c, w, Step(c, w', a))
  {
    LeadsStep(c, w', a);
    LeadsOn(c, w, w', Step(c, w', a));
  }

  ghost predicate Shows(w: World, n: string, r: (Elector, seq<Entry>)) {
    n in w.electors && w.electors[n] == r.0 && w.history == r.1
  }

  lemma ArrivedShows(c: Config, sent: World, n: string, q: Request, i: Interleaving, s: Surroundings, h: seq<Entry>)
    requires 1 <= c.second && Others(n, i.beforeWrite) && n in sent.electors && q in sent.pending && q.version == |h| && h <= sent.history
    requires var before := Run(c, sent, i.beforeWrite);
             && |h| <= |before.history| && s.rivals == before.history[|h|..] && s.appliedAt == before.time && s.reply == i.reply
    ensures Shows(Arrived(c, sent, q, i), n, (sent.electors[n], Written(c, q, s, h)))
    ensures Accepted(s) <==> i.reply != Refused && |Run(c, sent, i.beforeWrite).history| == q.version
  {
    OthersRun(c, sent, n, i.beforeWrite);
    assert Run(c, sent, i.beforeWrite).history == h + s.rivals;
  }

  lemma ReturnShows(c: Config, w: World, n: string, e: Elector, q: Request, s: Surroundings, h: seq<Entry>)
    requires 1 <= c.second && Shows(w, n, (e.(call := Waiting(q)), Written(c, q, s, h) + s.later))
    requires q.version == |h| && w.time == s.answeredAt
    ensures Shows(Step(c, w, Act(n, if Accepted(s) && s.reply == Delivered then Ack else GiveUp)), n, AfterWrite(c, n, e, q, s, h))
  {
    if Accepted(s) {
      assert w.history[|h|] == Entry(Stored(c, q.record), s.appliedAt, Some(q));
    }
  }

  /** From the write on. */
  lemma WriteRuns(c: Config, sent: World, n: string, e: Elector, q: Request, i: Interleaving, s: Surroundings, h: seq<Entry>)
    requires 1 <= c.second && Others(n, i.beforeWrite) && Others(n, i.beforeAnswer)
    requires n in sent.electors && sent.electors[n] == e.(call := Waiting(q)) && q in sent.pending && q.version == |h| && h <= sent.history
    requires var before := Run(c, sent, i.beforeWrite);
             && |h| <= |before.history| && s.rivals == before.history[|h|..] && s.appliedAt == before.time && s.reply == i.reply
    requires var arrived, back := Arrived(c, sent, q, i), Run(c, Arrived(c, sent, q, i), i.beforeAnswer);
             && |arrived.history| <= |back.history| && s.later == back.history[|arrived.history|..] && s.answeredAt == back.time
    ensures Shows(Answered(c, sent, n, q, i), n, AfterWrite(c, n, e, q, s, h))
  {
    ArrivedShows(c, sent, n, q, i, s, h);
    var arrived := Arrived(c, sent, q, i);
    var back := Run(c, arrived, i.beforeAnswer);
    OthersRun(c, arrived, n, i.beforeAnswer);
    assert back.history == arrived.history + s.later;
    ReturnShows(c, back, n, e, q, s, h);
  }

  /** A call that others interleave with takes exactly the steps of the transition system. */
  lemma CallRuns(c: Config, w: World, n: string, i: Interleaving)
    requires 1 <= c.second && MayBegin(c, w, n) && AllOthers(n, i)
    ensures Leads(c, w, Called(c, w, n, i))
    ensures Shows(Called(c, w, n, i), n, AfterCall(c, n, w.electors[n], SurroundingsOf(c, w, n, i), Getting(c, w, n, i).history))
  {
    CalledLeads(c, w, n, i);
    if !i.getReaches {
      OthersRun(c, Step(c, w, Act(n, Begin)), n, i.beforeGet);
    } else if Getting(c, w, n, i).history == [] {
      CreateRuns(c, w, n, i);
    } else {
      FoundRuns(c, w, n, i);
    }
  }

  /** The `Create` that is sent if there is no record. */
  lemma SentShows(c: Config, w: World, n: string, i: Interleaving, s: Surroundings)
    requires 1 <= c.second && MayBegin(c, w, n) && AllOthers(n, i) && i.getReaches && Getting(c, w, n, i).history == []
    requires s.start == w.time
    ensures var decided, q := Decided(c, w, n, i), CreateRequest(c, n, s);
            && n in decided.electors && q in decided.pending
            && decided.electors[n] == Started(w.electors[n], w.time + c.offset(n)).(call := Waiting(q))
  {
    OthersRun(c, Step(c, w, Act(n, Begin)), n, i.beforeGet);
  }

  lemma CreateRuns(c: Config, w: World, n: string, i: Interleaving)
    requires 1 <= c.second && MayBegin(c, w, n) && AllOthers(n, i) && i.getReaches && Getting(c, w, n, i).history == []
    ensures Shows(Called(c, w, n, i), n, AfterCall(c, n, w.electors[n], SurroundingsOf(c, w, n, i), []))
  {
    var s, decided := SurroundingsOf(c, w, n, i), Decided(c, w, n, i);
    var q, e := CreateRequest(c, n, s), Started(w.electors[n], w.time + c.offset(n));
    SentShows(c, w, n, i, s);
    SentRuns(c, w, n, i, e, q);
  }

  /** From a write that was sent on. */
  lemma SentRuns(c: Config, w: World, n: string, i: Interleaving, e: Elector, q: Request)
    requires 1 <= c.second && n in w.electors && AllOthers(n, i)
    requires var decided, h := Decided(c, w, n, i), Getting(c, w, n, i).history;
             && n in decided.electors && decided.electors[n] == e.(call := Waiting(q)) && q in decided.pending
             && q.version == |h| && h <= decided.history
    ensures Shows(Called(c, w, n, i), n, AfterWrite(c, n, e, q, SurroundingsOf(c, w, n, i), Getting(c, w, n, i).history))
  {
    var decided := Decided(c, w, n, i);
    OthersRun(c, decided, n, i.beforeWrite);
    OthersRun(c, Arrived(c, decided, q, i), n, i.beforeAnswer);
    WriteRuns(c, decided, n, e, q, i, SurroundingsOf(c, w, n, i), Getting(c, w, n, i).history);
  }

  lemma GotShows(c: Config, w: World, n: string, i: Interleaving)
    requires 1 <= c.second && MayBegin(c, w, n) && AllOthers(n, i) && i.getReaches && Getting(c, w, n, i).history != []
    ensures var h, now := Getting(c, w, n, i).history, w.time + c.offset(n);
            && n in Got(c, w, n, i).electors && h <= Got(c, w, n, i).history
            && Got(c, w, n, i).electors[n] == Started(w.electors[n], now).(call := Fetched(now, h[|h| - 1].record, |h|))
  {
    OthersRun(c, Step(c, w, Act(n, Begin)), n, i.beforeGet);
    OthersRun(c, Step(c, Getting(c, w, n, i), Act(n, GetFound)), n, i.beforeDecision);
  }

  /** The decision on the record that was got. */
  lemma DecidedShows(c: Config, w: World, n: string, i: Interleaving, s: Surroundings)
    requires 1 <= c.second && MayBegin(c, w, n) && AllOthers(n, i) && i.getReaches && Getting(c, w, n, i).history != []
    requires s.start == w.time && s.fetchedAt == Got(c, w, n, i).time
    ensures var h, e, decided := Getting(c, w, n, i).history, w.electors[n], Decided(c, w, n, i);
            && n in decided.electors && decided.time == s.fetchedAt && decided.history == Got(c, w, n, i).history && h <= decided.history
            && var looked, q := Looked(c, n, e, s, h), UpdateRequest(c, n, s, h);
            && (if Gate(c, n, e, s, h) then decided.electors[n] == Returned(looked, s.fetchedAt + c.offset(n), false)
                else decided.electors[n] == looked.(call := Waiting(q)) && q in decided.pending)
  {
    GotShows(c, w, n, i);
  }

  lemma FoundRuns(c: Config, w: World, n: string, i: Interleaving)
    requires 1 <= c.second && MayBegin(c, w, n) && AllOthers(n, i) && i.getReaches && Getting(c, w, n, i).history != []
    ensures Shows(Called(c, w, n, i), n, AfterCall(c, n, w.electors[n], SurroundingsOf(c, w, n, i), Getting(c, w, n, i).history))
  {
    var e, s, h := w.electors[n], SurroundingsOf(c, w, n, i), Getting(c, w, n, i).history;
    var decided := Decided(c, w, n, i);
    DecidedShows(c, w, n, i, s.(fetchedAt := Got(c, w, n, i).time));
    assert s.fetchedAt == Got(c, w, n, i).time;
    if !Gate(c, n, e, s, h) {
      SentRuns(c, w, n, i, Looked(c, n, e, s, h), UpdateRequest(c, n, s, h));
    }
  }

  class LeaderElector {
    const config: Config
    const identity: string
    var observedRecord: Observation
    var observedTime: int
    var reportedLeader: string
    /** The leaders handed to OnNewLeader, in order. */
    var notified: seq<string>
    ghost var seen: nat
    ghost var calls: seq<CallRecord>
    ghost var lastStart: int

    ghost predicate Valid()
      reads this
    {
      ValidConfig(config) && reportedLeader == if notified == [] then "" else notified[|notified| - 1]
    }

    ghost function View(): Elector
      reads this
    {
      Elector(Idle, observedRecord, observedTime, seen, notified, calls, lastStart)
    }

    constructor (config: Config, identity: string, clock: int)
      requires ValidConfig(config)
      ensures Valid() && this.config == config && this.identity == identity
      ensures FreshElector(View()) && lastStart == clock - config.gap
    {
      this.config, this.identity := config, identity;
      observedRecord, observedTime := Observation(ZERO_RECORD, true), 0;
      reportedLeader, notified := "", [];
      seen, calls, lastStart := 0, [], clock - config.gap;
    }

    /** This elector's state in a world, between or during calls. */
    ghost predicate StandsIn(w: World)
      reads this
    {
      identity in w.electors && w.electors[identity].(call := Idle) == View()
    }

    /** In every reachable world of this elector: the record of the lock that it has seen last is its own. */
    method IsLeader() returns (leads: bool)
      requires Valid()
      ensures forall w | Reachable(config, w) && StandsIn(w) :: leads <==> SeenHolding(w, identity)
    {
      leads := observedRecord.record.holder == identity;
      forall w | Reachable(config, w) && StandsIn(w)
        ensures leads <==> SeenHolding(w, identity)
      {
        ObservesItself(config, w, identity);
      }
    }

    /** The elector observes its own record, which it has just written at this place of the history. */
    predicate Remembers(s: Surroundings, lock: Lock, place: nat)
      reads this, lock
      requires 1 <= config.second
    {
      && observedRecord.record.holder == identity && observedRecord.record.renew == s.start + config.offset(identity)
      && observedTime == s.answeredAt + config.offset(identity)
      && place < |lock.history| && lock.history[place].record == Stored(config, observedRecord.record)
    }

    method TryAcquireOrRenew(lock: Lock, s: Surroundings) returns (succeeded: bool)
      requires Valid()
      modifies this`observedRecord, this`observedTime, this`seen, this`calls, this`lastStart, lock
      ensures Valid()
      ensures View() == AfterCall(config, identity, old(View()), s, old(lock.history)).0
      ensures lock.history == AfterCall(config, identity, old(View()), s, old(lock.history)).1
      ensures succeeded <==> Succeeds(config, identity, old(View()), s, old(lock.history))
      ensures succeeded ==> Remembers(s, lock, |old(lock.history)|)
    {
      ghost var before, h := View(), lock.history;
      var offset := config.offset(identity);
      var now := s.start + offset;
      var candidate := Candidate(config, identity, now);
      lastStart, calls := now, Started(before, now).calls;
      assert View() == Started(before, now).(call := Idle);

      var answer := lock.Get(s.getReaches);
      if answer == Failed {
        calls := Ended(calls, s.fetchedAt + offset, false);
        return false;
      }
      lock.Others(s.rivals);
      assert View() == Started(before, now).(call := Idle);
      if answer == NotFound {
        succeeded := Create(lock, candidate, s, before, h);
        return;
      }

      succeeded := RenewOrTakeOver(lock, answer.record, candidate, s, before, h);
    }

    /** The rest of a call that found no record. */
    method Create(lock: Lock, candidate: Record, s: Surroundings, ghost before: Elector, ghost h: seq<Entry>)
      returns (succeeded: bool)
      requires Valid() && s.getReaches && lock.history == h + s.rivals && h == []
      requires View() == Started(before, s.start + config.offset(identity)).(call := Idle)
      requires candidate == Candidate(config, identity, s.start + config.offset(identity))
      modifies this`observedRecord, this`observedTime, this`seen, this`calls, lock`history
      ensures Valid()
      ensures View() == AfterCall(config, identity, before, s, h).0
      ensures lock.history == AfterCall(config, identity, before, s, h).1
      ensures succeeded <==> Succeeds(config, identity, before, s, h)
      ensures succeeded ==> Remembers(s, lock, |h|)
    {
      var now := s.start + config.offset(identity);
      WrittenIsTaken(config, CreateRequest(config, identity, s), s, h);
      succeeded := Claim(lock, Request(identity, now, candidate, 0), s, Started(before, now));
    }

    /** The rest of a call that found a record: observe it, and claim it unless it is another's unexpired lease. */
    method RenewOrTakeOver(lock: Lock, current: Record, initial: Record, s: Surroundings, ghost before: Elector, ghost h: seq<Entry>)
      returns (succeeded: bool)
      requires Valid() && s.getReaches && lock.history == h + s.rivals && h != [] && lock.version == |h| && current == h[|h| - 1].record
      requires View() == Started(before, s.start + config.offset(identity)).(call := Idle)
      requires initial == Candidate(config, identity, s.start + config.offset(identity))
      modifies this`observedRecord, this`observedTime, this`seen, this`calls, lock`history
      ensures Valid()
      ensures View() == AfterCall(config, identity, before, s, h).0
      ensures lock.history == AfterCall(config, identity, before, s, h).1
      ensures succeeded <==> Succeeds(config, identity, before, s, h)
      ensures succeeded ==> Remembers(s, lock, |h|)
    {
      var candidate, now := initial, s.start + config.offset(identity);
      if !SameAsObserved(observedRecord, current) {
        observedRecord := Observation(current, true);
        observedTime := s.fetchedAt + config.offset(identity);
        seen := lock.version;
      }
      assert View() == Looked(config, identity, before, s, h).(call := Idle);
      if observedTime + config.leaseDuration > now && current.holder != identity {
        calls := Ended(calls, s.fetchedAt + config.offset(identity), false);
        return false;
      }
      if current.holder == identity {
        candidate := candidate.(acquire := current.acquire, transitions := current.transitions);
      } else {
        candidate := candidate.(transitions := current.transitions + 1);
      }
      WrittenIsTaken(config, UpdateRequest(config, identity, s, h), s, h);
      succeeded := Claim(lock, Request(identity, now, candidate, lock.version), s, Looked(config, identity, before, s, h));
    }

    /** The `Create` or `Update` of a call, and what an accepted one leaves in the fields. */
    method Claim(lock: Lock, q: Request, s: Surroundings, ghost e: Elector) returns (succeeded: bool)
      requires Valid() && View() == e.(call := Idle) && (q.version == |lock.history| <==> s.rivals == [])
      modifies this`observedRecord, this`observedTime, this`seen, this`calls, lock`history
      ensures Valid()
      ensures View() == Back(config, identity, e, q, s)
      ensures lock.history == Taken(config, q, s, old(lock.history)) + s.later
      ensures succeeded <==> Accepted(s) && s.reply == Delivered
      ensures succeeded ==> observedRecord == Observation(q.record, false) && observedTime == s.answeredAt + config.offset(identity)
    {
      var returned := s.answeredAt + config.offset(identity);
      succeeded := lock.Write(config, q, s.appliedAt, s.reply);
      lock.Others(s.later);
      if succeeded {
        observedRecord := Observation(q.record, false);
        observedTime := returned;
        seen := q.version + 1;
      }
      calls := Ended(calls, returned, succeeded);
    }

    /** The Report step. */
    method MaybeReportTransition(ghost w: World)
      requires Valid() && identity in w.electors && w.electors[identity] == View()
      modifies this`reportedLeader, this`notified
      ensures Valid()
      ensures Step(config, w, Act(identity, Report)).electors[identity] == View()
      ensures reportedLeader == observedRecord.record.holder
    {
      if observedRecord.record.holder == reportedLeader {
        return;
      }
      reportedLeader := observedRecord.record.holder;
      notified := notified + [reportedLeader];
    }
  }
}
