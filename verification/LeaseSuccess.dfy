/**
  What a successful call of an elector means in every reachable state: its own
  write is in the lock's history, and the elector remembers having made it.
 */
module LeaseSuccess {
  import opened Common
  import opened LeaderElection
  import opened LeaseProtocol
  import opened LeaseSteps

  predicate LastSucceeded(e: Elector) {
    e.call.Idle? && e.calls != [] && e.calls[|e.calls| - 1].succeeded
  }

  /** The write of n's last call was accepted, and n observes the record it wrote since that call returned. */
  predicate HasWritten(w: World, n: string, e: Elector) {
    && 0 < e.seen <= |w.history|
    && w.history[e.seen - 1].request.Some?
    && var q := w.history[e.seen - 1].request.value;
    && q.node == n && q.now == e.lastStart
    && e.observed.record == q.record && e.observed.record.holder == n
    && e.calls != [] && e.observedTime == e.calls[|e.calls| - 1].end
  }

  predicate CallInProgress(n: string, e: Elector) {
    match e.call
    case Idle => true
    case Began(now) => now == e.lastStart
    case Fetched(now, _, _) => now == e.lastStart
    case Waiting(q) => q.node == n && q.now == e.lastStart && q.record.holder == n
  }

  predicate SuccessOk(w: World, n: string, e: Elector) {
    && CallInProgress(n, e)
    && (!e.call.Idle? ==> e.calls != [])
    && (LastSucceeded(e) ==> HasWritten(w, n, e))
  }

  ghost predicate AllSuccessOk(w: World) {
    forall n | n in w.electors :: SuccessOk(w, n, w.electors[n])
  }

  lemma ElectorStepSuccess(c: Config, w: World, n: string, stage: Stage)
    requires 1 <= c.second && n in w.electors && SuccessOk(w, n, w.electors[n])
    ensures var w' := ElectorStep(c, w, n, w.electors[n], stage);
            && w'.electors.Keys == w.electors.Keys && w'.history == w.history
            && (forall m | m in w.electors && m != n :: w'.electors[m] == w.electors[m])
            && SuccessOk(w', n, w'.electors[n])
  {
  }

  lemma StepSuccess(c: Config, w: World, a: Action)
    requires 1 <= c.second && AllSuccessOk(w)
    ensures AllSuccessOk(Step(c, w, a))
  {
    match a
    case Pass(_) =>
    case Apply(_) =>
    case Act(n, stage) =>
      if n in w.electors {
        ElectorStepSuccess(c, w, n, stage);
      }
  }

  lemma {:induction false} RunSuccess(c: Config, w: World, actions: seq<Action>)
    requires 1 <= c.second && AllSuccessOk(w)
    ensures AllSuccessOk(Run(c, w, actions))
  {
    if actions != [] {
      RunSuccess(c, w, actions[..|actions| - 1]);
      StepSuccess(c, Run(c, w, actions[..|actions| - 1]), actions[|actions| - 1]);
    }
  }

  /**
    In every reachable state: an elector whose last call succeeded holds the
    lock with the record it has seen last, which that call wrote, and counts
    its lease from the end of that call.
   */
  lemma SuccessHolds(c: Config, w: World, n: string)
    requires 1 <= c.second && Reachable(c, w) && n in w.electors && LastSucceeded(w.electors[n])
    ensures HasWritten(w, n, w.electors[n])
  {
    var start :| Init(c, start) && Leads(c, start, w);
    var actions :| w == Run(c, start, actions);
    assert AllSuccessOk(start);
    RunSuccess(c, start, actions);
  }
}
