/**
  The lock record of pkg/leaderelection and what one elector does with it:
  the durations a configuration must satisfy, one call of `tryAcquireOrRenew`,
  and the reporting of leaders.

  Times are integers in an arbitrary tick. The record is stored as JSON, whose
  timestamps keep whole seconds only, so `Stored` rounds both timestamps down;
  the copy an elector keeps in memory after its own write is not rounded.
 */
module LeaderElection {
  import opened Common

  /**
    `second` is the number of ticks in a second and `gap` the least number of
    ticks that separate the clock readings of two calls made by one elector.
    `offset(n)` is what node n's clock shows when real time is 0: all clocks run
    at the same rate.
   */
  datatype Config = Config(
    leaseDuration: int,
    renewDeadline: int,
    retryPeriod: nat,
    second: int,
    gap: int,
    offset: string -> int)

  datatype Record = Record(holder: string, leaseSeconds: int, acquire: int, renew: int, transitions: int)

  /** What `Get` decodes from an object that carries no record yet. */
  const ZERO_RECORD := Record("", 0, 0, 0, 0)

  /** `observedRecord`: `decoded` tells a record that came from `Get` from one kept after a write. */
  datatype Observation = Observation(record: Record, decoded: bool)

  /** A `Create` (version 0) or an `Update` of the record `Get` returned as that version. */
  datatype Request = Request(node: string, now: int, record: Record, version: nat)

  /** One accepted write, at a real time. Only a record older than the run has no request. */
  datatype Entry = Entry(record: Record, at: int, request: Option<Request>)

  // ---------- NewLeaderElector ----------

  function JitteredRetry(retryPeriod: nat): int {
    (1.2 * retryPeriod as real).Floor
  }

  /** The checks on the durations; floor(1.2 * retryPeriod) < renewDeadline is 6 * retryPeriod < 5 * renewDeadline. */
  function NewLeaderElector(c: Config, hasLock: bool): (err: Option<string>)
    ensures err == None <==> hasLock && c.renewDeadline < c.leaseDuration && 6 * c.retryPeriod < 5 * c.renewDeadline
  {
    if c.leaseDuration <= c.renewDeadline then Some("leaseDuration must be greater than renewDeadline")
    else if c.renewDeadline <= JitteredRetry(c.retryPeriod) then Some("renewDeadline must be greater than retryPeriod*JitterFactor")
    else if !hasLock then Some("lock must not be nil")
    else None
  }

  /** A configuration `NewLeaderElector` accepts, on clocks that advance. */
  predicate ValidConfig(c: Config) {
    1 <= c.second && 1 <= c.gap && NewLeaderElector(c, true) == None
  }

  // ---------- the record ----------

  /** t rounded down to a whole second. */
  function Trunc(c: Config, t: int): (r: int)
    requires 1 <= c.second
    ensures t - c.second < r <= t
    decreases t < 0, if t < 0 then -t else t
  {
    if t < 0 then Trunc(c, t + c.second) - c.second
    else if t < c.second then 0
    else Trunc(c, t - c.second) + c.second
  }

  /** What is stored is a number of whole seconds. */
  lemma {:induction false} TruncWhole(c: Config, t: int)
    requires 1 <= c.second
    ensures exists n: int :: Trunc(c, t) == Seconds(c, n)
    decreases t < 0, if t < 0 then -t else t
  {
    if t < 0 {
      TruncWhole(c, t + c.second);
      var n :| Trunc(c, t + c.second) == Seconds(c, n);
      assert Seconds(c, n - 1) == Seconds(c, n) - c.second;
    } else if t < c.second {
      assert Seconds(c, 0) == 0;
    } else {
      TruncWhole(c, t - c.second);
      var n :| Trunc(c, t - c.second) == Seconds(c, n);
      assert Seconds(c, n + 1) == Seconds(c, n) + c.second;
    }
  }

  function Seconds(c: Config, n: int): int {
    n * c.second
  }

  /** Only the length of a second matters. */
  lemma {:induction false} TruncSame(c: Config, d: Config, t: int)
    requires 1 <= c.second == d.second
    ensures Trunc(c, t) == Trunc(d, t)
    decreases t < 0, if t < 0 then -t else t
  {
    if t < 0 {
      TruncSame(c, d, t + c.second);
    } else if c.second <= t {
      TruncSame(c, d, t - c.second);
    }
  }

  /** A timestamp already rounded is stored as it is. */
  lemma {:induction false} TruncIdempotent(c: Config, t: int)
    requires 1 <= c.second
    ensures Trunc(c, Trunc(c, t)) == Trunc(c, t)
    decreases t < 0, if t < 0 then -t else t
  {
    if t < 0 {
      TruncIdempotent(c, t + c.second);
    } else if c.second <= t {
      TruncIdempotent(c, t - c.second);
    }
  }

  lemma {:induction false} TruncMonotone(c: Config, t: int, u: int)
    requires 1 <= c.second && t <= u
    ensures Trunc(c, t) <= Trunc(c, u)
    decreases u < 0, if u < 0 then -u else u
  {
    if u < 0 {
      TruncMonotone(c, t + c.second, u + c.second);
    } else if c.second <= u && c.second <= t {
      TruncMonotone(c, t - c.second, u - c.second);
    }
  }

  function Stored(c: Config, r: Record): Record
    requires 1 <= c.second
  {
    r.(acquire := Trunc(c, r.acquire), renew := Trunc(c, r.renew))
  }

  /** `LeaseDuration / time.Second` of a non-negative duration. */
  function WholeSeconds(duration: int, second: int): int
    requires 1 <= second
    decreases duration
  {
    if duration < second then 0 else 1 + WholeSeconds(duration - second, second)
  }

  /** The record's leaseDurationSeconds are the whole seconds of leaseDuration. */
  lemma {:induction false} WholeSecondsCount(duration: nat, second: int)
    requires 1 <= second
    ensures var n := WholeSeconds(duration, second); 0 <= n && n * second <= duration < n * second + second
    decreases duration
  {
    if second <= duration {
      WholeSecondsCount(duration - second, second);
      var n := WholeSeconds(duration - second, second);
      assert (n + 1) * second == n * second + second;
    }
  }

  /** What an elector writes: its own name, lease and time, and what it keeps of its own tenure or counts up for a new one. */
  lemma SuccessorIs(c: Config, me: string, now: int, current: Record)
    requires 1 <= c.second && 0 <= c.leaseDuration
    ensures var r := Successor(c, me, now, current);
            && r.holder == me && r.renew == now
            && r.leaseSeconds * c.second <= c.leaseDuration < r.leaseSeconds * c.second + c.second
            && (if current.holder == me then r.acquire == current.acquire && r.transitions == current.transitions
                else r.acquire == now && r.transitions == current.transitions + 1)
    ensures var r := Candidate(c, me, now);
            && r.holder == me && r.renew == r.acquire == now && r.transitions == 0
            && r.leaseSeconds * c.second <= c.leaseDuration < r.leaseSeconds * c.second + c.second
  {
    WholeSecondsCount(c.leaseDuration, c.second);
  }

  function Candidate(c: Config, me: string, now: int): Record
    requires 1 <= c.second
  {
    Record(me, WholeSeconds(c.leaseDuration, c.second), now, now, 0)
  }

  /** The record that replaces `current`: a renewal keeps its tenure, a takeover starts one. */
  function Successor(c: Config, me: string, now: int, current: Record): Record
    requires 1 <= c.second
  {
    var initial := Candidate(c, me, now);
    if current.holder == me
    then initial.(acquire := current.acquire, transitions := current.transitions)
    else initial.(transitions := current.transitions + 1)
  }

  predicate SameAsObserved(o: Observation, fetched: Record) {
    o.decoded && o.record == fetched
  }

  /** The lease of another holder has not run out since it was last seen to change. */
  predicate Blocked(c: Config, me: string, observedTime: int, now: int, fetched: Record) {
    observedTime + c.leaseDuration > now && fetched.holder != me
  }
}
