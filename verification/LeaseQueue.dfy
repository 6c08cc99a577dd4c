/**
 * The lease-stamped work queue behind the outbox relay and the notification sender.
 * A tick claims rows in one statement (fresh token, lease end), reads them back in
 * a second, then delivers them one by one and marks each by its id alone. Ticks of
 * several workers interleave, stall, crash, and lose writes.
 */
module LeaseQueue {
  import opened Base

  type Id = nat
  type Millis = int

  datatype Status = Pending | Done | Failed    // Done: PUBLISHED or SENT

  datatype Row = Row(
    status: Status, attempts: nat, maxAttempts: nat, createdAt: Millis, nextAttemptAt: Millis,
    lockedUntil: Option<Millis>, lockedBy: Option<Id>)

  /** A claimed row as the worker read it. */
  datatype Snapshot = Snapshot(id: Id, attempts: nat, maxAttempts: nat)

  /** Transient carries the delay until the next attempt. */
  datatype Outcome = Accepted | Transient(delay: int) | Permanent

  datatype Phase = Stamped | Idle | Sent(outcome: Outcome)

  datatype Claim = Claim(lease: Millis, phase: Phase, batch: seq<Snapshot>)

  /**
   * `accepted` (confirmed by the broker, or accepted by the provider under the row's
   * id), `rejected` (refused for good since the last redrive) and `tries` (deliveries since the row was
   * written or redriven) only remember the past.
   */
  datatype Queue = Queue(
    now: Millis, rows: map<Id, Row>, claims: map<Id, Claim>,
    accepted: set<Id>, rejected: set<Id>, tries: map<Id, nat>)

  datatype Config = Config(leaseMs: nat)

  datatype Action =
    | Tick(to: Millis)
    | Enqueue(id: Id, maxAttempts: nat)
    | Stamp(token: Id, ids: set<Id>, clock: Millis, leaseClock: Millis)
    | Fetch(token: Id, batch: seq<Snapshot>)
    | Deliver(token: Id, outcome: Outcome)
    | Mark(token: Id, clock: Millis)
    | MarkLost(token: Id, delay: int)
    | Crash(token: Id)
    | Redrive(ids: set<Id>, clock: Millis)
    | Sweep(ids: set<Id>)

  predicate Claimable(r: Row, clock: Millis) {
    r.status == Pending && r.nextAttemptAt <= clock && (r.lockedUntil.None? || r.lockedUntil.value < clock)
  }

  function Unlocked(r: Row): Row { r.(lockedUntil := None, lockedBy := None) }

  /** What a worker writes for a delivery outcome: by id, whatever the row's status is by then. */
  function Marked(r: Row, s: Snapshot, outcome: Outcome, clock: Millis): Row {
    match outcome
    case Accepted => Unlocked(r).(status := Done)
    case Permanent => Unlocked(r).(status := Failed, attempts := s.attempts + 1)
    case Transient(delay) =>
      if s.attempts + 1 >= s.maxAttempts then Unlocked(r).(status := Failed, attempts := s.attempts + 1)
      else Unlocked(r).(attempts := s.attempts + 1, nextAttemptAt := clock + delay)
  }

  predicate Working(c: Claim) { c.phase == Stamped || c.batch != [] }

  predicate Allowed(cfg: Config, q: Queue, a: Action) {
    match a
    case Tick(to) => q.now <= to
    case Enqueue(id, maxAttempts) => id !in q.rows && id !in q.tries && 1 <= maxAttempts
    case Stamp(token, ids, clock, leaseClock) =>
      && token !in q.claims && (forall id | id in q.rows :: q.rows[id].lockedBy != Some(token))
      && clock <= leaseClock <= q.now
      && forall id | id in ids :: id in q.rows && Claimable(q.rows[id], clock)
    case Fetch(token, batch) =>
      && token in q.claims && q.claims[token].phase == Stamped
      && (forall i, j | 0 <= i < j < |batch| :: batch[i].id != batch[j].id)
      && (forall s | s in batch ::
           s.id in q.rows && s == Snapshot(s.id, q.rows[s.id].attempts, q.rows[s.id].maxAttempts)
                                  && q.rows[s.id].lockedBy == Some(token) && q.rows[s.id].status == Pending)
      && (forall id | id in q.rows && q.rows[id].lockedBy == Some(token) && q.rows[id].status == Pending ::
            exists s :: s in batch && s.id == id)
    case Deliver(token, _) => token in q.claims && q.claims[token].phase == Idle && q.claims[token].batch != []
    case Mark(token, clock) =>
      token in q.claims && q.claims[token].phase.Sent? && q.claims[token].batch != [] && clock <= q.now
    case MarkLost(token, _) => token in q.claims && q.claims[token].phase.Sent? && q.claims[token].batch != []
    case Crash(token) => token in q.claims
    case Redrive(ids, clock) => clock <= q.now && forall id | id in ids :: id in q.rows && q.rows[id].status == Failed
    case Sweep(ids) =>
      forall id | id in ids :: id in q.rows && q.rows[id].status != Pending && q.rows[id].lockedUntil.None?
  }

  function Step(cfg: Config, q: Queue, a: Action): Queue
    requires Allowed(cfg, q, a)
  {
    match a
    case Tick(to) => q.(now := to)
    case Enqueue(id, maxAttempts) =>
      q.(rows := q.rows[id := Row(Pending, 0, maxAttempts, q.now, q.now, None, None)], tries := q.tries[id := 0])
    case Stamp(token, ids, _, leaseClock) =>
      q.(rows := map id | id in q.rows ::
                   if id in ids
                   then q.rows[id].(lockedUntil := Some(leaseClock + cfg.leaseMs), lockedBy := Some(token))
                   else q.rows[id],
         claims := q.claims[token := Claim(leaseClock + cfg.leaseMs, Stamped, [])])
    case Fetch(token, batch) => q.(claims := q.claims[token := q.claims[token].(phase := Idle, batch := batch)])
    case Deliver(token, outcome) =>
      var id := q.claims[token].batch[0].id;
      q.(claims := q.claims[token := q.claims[token].(phase := Sent(outcome))],
         accepted := if outcome == Accepted then q.accepted + {id} else q.accepted,
         rejected := if outcome == Permanent then q.rejected + {id} else q.rejected,
         tries := if id in q.tries then q.tries[id := q.tries[id] + 1] else q.tries)
    case Mark(token, clock) =>
      var c := q.claims[token];
      var s := c.batch[0];
      // Updating a row that is gone fails, and with it the rest of the tick.
      if s.id !in q.rows then q.(claims := q.claims - {token}) else
      q.(rows := q.rows[s.id := Marked(q.rows[s.id], s, c.phase.outcome, clock)],
         claims := q.claims[token := c.(phase := Idle, batch := c.batch[1..])])
    case MarkLost(token, delay) =>
      // A lost success mark is handled like a failed delivery; any other lost write ends the tick.
      var c := q.claims[token];
      if c.phase.outcome == Accepted then q.(claims := q.claims[token := c.(phase := Sent(Transient(delay)))])
      else q.(claims := q.claims - {token})
    case Crash(token) => q.(claims := q.claims - {token})
    case Redrive(ids, clock) =>
      q.(rows := map id | id in q.rows ::
                   if id in ids
                   then Unlocked(q.rows[id]).(status := Pending, attempts := 0, nextAttemptAt := clock)
                   else q.rows[id],
         rejected := q.rejected - ids,
         tries := map id | id in q.tries :: if id in ids then 0 else q.tries[id])
    case Sweep(ids) => q.(rows := q.rows - ids)
  }

  ghost predicate AllowedRun(cfg: Config, q: Queue, acts: seq<Action>)
    decreases |acts|
  {
    acts == [] || (Allowed(cfg, q, acts[0]) && AllowedRun(cfg, Step(cfg, q, acts[0]), acts[1..]))
  }

  ghost function Run(cfg: Config, q: Queue, acts: seq<Action>): Queue
    requires AllowedRun(cfg, q, acts)
    decreases |acts|
  {
    if acts == [] then q else Run(cfg, Step(cfg, q, acts[0]), acts[1..])
  }

  // ---- what holds on every run ----

  ghost predicate RowOk(q: Queue, id: Id) {
    id in q.rows ==>
      && id in q.tries && 1 <= q.rows[id].maxAttempts
      && (q.rows[id].status == Done ==> id in q.accepted)
      && (q.rows[id].status == Pending ==> q.rows[id].attempts < q.rows[id].maxAttempts)
  }

  ghost predicate ClaimOk(q: Queue, token: Id) {
    token in q.claims ==>
      var c := q.claims[token];
      && (c.phase == Stamped ==> c.batch == [])
      && (forall i | 0 <= i < |c.batch| ::
            && c.batch[i].id in q.tries
            && (c.batch[i].id in q.rows ==> c.batch[i].maxAttempts == q.rows[c.batch[i].id].maxAttempts))
      && (c.phase == Sent(Accepted) && c.batch != [] ==> c.batch[0].id in q.accepted)
  }

  ghost predicate Inv(q: Queue) {
    && (forall id :: RowOk(q, id))
    && (forall token :: ClaimOk(q, token))
  }

  lemma {:induction false} StepKeepsInv(cfg: Config, q: Queue, a: Action)
    requires Inv(q) && Allowed(cfg, q, a)
    ensures Inv(Step(cfg, q, a))
  {
    var u := Step(cfg, q, a);
    forall id ensures RowOk(u, id) {
      assert RowOk(q, id);
      if a.Mark? {
        assert ClaimOk(q, a.token);
      }
    }
    forall token ensures ClaimOk(u, token) {
      assert ClaimOk(q, token);
      if a.Fetch? && token == a.token {
        forall i | 0 <= i < |a.batch|
          ensures a.batch[i].id in u.rows && a.batch[i].maxAttempts == u.rows[a.batch[i].id].maxAttempts
                  && a.batch[i].id in u.tries
        {
          assert a.batch[i] in a.batch && RowOk(q, a.batch[i].id);
        }
      }
    }
  }

  /**
   * With or without stalls: a PUBLISHED row was confirmed by the broker, a SENT row
   * accepted by the provider under its own id, and a PENDING row has attempts left.
   */
  lemma {:induction false} DoneMeansAccepted(cfg: Config, q: Queue, acts: seq<Action>)
    requires Inv(q) && AllowedRun(cfg, q, acts)
    ensures var end := Run(cfg, q, acts);
            && Inv(end)
            && forall id | id in end.rows ::
                 && (end.rows[id].status == Done ==> id in end.accepted)
                 && (end.rows[id].status == Pending ==> end.rows[id].attempts < end.rows[id].maxAttempts)
    decreases |acts|
  {
    if acts != [] {
      StepKeepsInv(cfg, q, acts[0]);
      DoneMeansAccepted(cfg, Step(cfg, q, acts[0]), acts[1..]);
    } else {
      forall id | id in q.rows ensures RowOk(q, id) {}
    }
  }

  /** The claim's next write would fail the row: a refusal, or a failure that uses up the attempts it read. */
  predicate WouldFail(c: Claim) {
    c.phase.Sent? && c.batch != [] && match c.phase.outcome
      case Accepted => false
      case Permanent => true
      case Transient(_) => c.batch[0].maxAttempts <= c.batch[0].attempts + 1
  }

  /** Exactly how a delivered row stops being delivered: a claim that still lists it writes a failure over it. */
  lemma {:induction false} DoneIsLostIff(cfg: Config, q: Queue, a: Action, id: Id)
    requires Inv(q) && Allowed(cfg, q, a) && id in q.rows && q.rows[id].status == Done
    ensures id in Step(cfg, q, a).rows && Step(cfg, q, a).rows[id].status != Done <==>
            a.Mark? && WouldFail(q.claims[a.token]) && q.claims[a.token].batch[0].id == id
  {
    if a.Mark? {
      assert ClaimOk(q, a.token);
    }
  }

  // ---- what holds while every claimed row is handled within its lease ----

  ghost predicate InLease(q: Queue) {
    forall token | token in q.claims && Working(q.claims[token]) :: q.now <= q.claims[token].lease
  }

  ghost predicate LeasedRun(cfg: Config, q: Queue, acts: seq<Action>)
    requires AllowedRun(cfg, q, acts)
    decreases |acts|
  {
    InLease(q) && (acts != [] ==> LeasedRun(cfg, Step(cfg, q, acts[0]), acts[1..]))
  }

  /** The row behind a snapshot is as it was read and still locked by the claim. */
  ghost predicate Owned(q: Queue, token: Id, s: Snapshot)
    requires token in q.claims
  {
    && s.id in q.rows
    && q.rows[s.id].status == Pending && q.rows[s.id].attempts == s.attempts
    && q.rows[s.id].maxAttempts == s.maxAttempts
    && q.rows[s.id].lockedBy == Some(token) && q.rows[s.id].lockedUntil == Some(q.claims[token].lease)
  }

  /** The claim still owns every row it has not handled yet. */
  ghost predicate Holds(q: Queue, token: Id) {
    token in q.claims ==>
      var c := q.claims[token];
      && (c.phase == Stamped ==> c.batch == [])
      && (forall i, j | 0 <= i < j < |c.batch| :: c.batch[i].id != c.batch[j].id)
      && (forall i | 0 <= i < |c.batch| :: Owned(q, token, c.batch[i]))
      && (c.phase == Sent(Permanent) && c.batch != [] ==> c.batch[0].id in q.rejected)
  }

  ghost predicate LockOk(q: Queue, id: Id) {
    id in q.rows && q.rows[id].lockedBy.Some? && q.rows[id].lockedBy.value in q.claims ==>
      q.rows[id].lockedUntil == Some(q.claims[q.rows[id].lockedBy.value].lease)
  }

  ghost predicate FailedOk(q: Queue, id: Id) {
    id in q.rows && q.rows[id].status == Failed ==> q.rows[id].maxAttempts <= q.rows[id].attempts || id in q.rejected
  }

  ghost predicate Exclusive(q: Queue) {
    && (forall token :: Holds(q, token))
    && (forall id :: LockOk(q, id))
    && (forall id :: FailedOk(q, id))
  }

  /** Nobody else's step disturbs a row that a claim within its lease still has to handle. */
  lemma {:induction false} OwnedStays(cfg: Config, q: Queue, a: Action, token: Id, i: nat)
    requires Inv(q) && Exclusive(q) && InLease(q) && Allowed(cfg, q, a)
    requires token in q.claims && token in Step(cfg, q, a).claims && i < |q.claims[token].batch|
    requires a.Mark? && a.token == token ==> i > 0
    ensures Owned(Step(cfg, q, a), token, q.claims[token].batch[i])
  {
    assert Holds(q, token) && ClaimOk(q, token);
    assert Owned(q, token, q.claims[token].batch[i]);
    if a.Mark? {
      assert Holds(q, a.token);
      assert Owned(q, a.token, q.claims[a.token].batch[0]);
    }
  }

  lemma {:induction false} StepKeepsHolds(cfg: Config, q: Queue, a: Action, token: Id)
    requires Inv(q) && Exclusive(q) && InLease(q) && Allowed(cfg, q, a)
    ensures Holds(Step(cfg, q, a), token)
  {
    var u := Step(cfg, q, a);
    assert Holds(q, token);
    if token in u.claims && token in q.claims {
      if a.Fetch? && a.token == token {
        forall i | 0 <= i < |a.batch| ensures Owned(u, token, a.batch[i]) {
          assert a.batch[i] in a.batch && LockOk(q, a.batch[i].id);
        }
      } else {
        var was := q.claims[token].batch;
        var skip := if a.Mark? && a.token == token then 1 else 0;
        assert u.claims[token].batch == was[skip..];
        forall i | 0 <= i < |was[skip..]| ensures Owned(u, token, was[skip..][i]) {
          OwnedStays(cfg, q, a, token, skip + i);
          assert was[skip..][i] == was[skip + i];
        }
        if a.Redrive? && was != [] {
          assert Owned(q, token, was[0]);
        }
      }
    }
  }

  lemma {:induction false} StepKeepsLocks(cfg: Config, q: Queue, a: Action, id: Id)
    requires Inv(q) && Exclusive(q) && Allowed(cfg, q, a)
    ensures LockOk(Step(cfg, q, a), id) && FailedOk(Step(cfg, q, a), id)
  {
    assert LockOk(q, id) && FailedOk(q, id);
    if a.Mark? {
      assert Holds(q, a.token) && Owned(q, a.token, q.claims[a.token].batch[0]);
    }
  }

  /**
   * Lease exclusion: no row is ever in two workers' unhandled batches, a delivered
   * row stays delivered until it is swept, and a FAILED row was refused for good or
   * has used up its attempts.
   */
  lemma {:induction false} LeasesExclude(cfg: Config, q: Queue, acts: seq<Action>)
    requires Inv(q) && Exclusive(q) && AllowedRun(cfg, q, acts) && LeasedRun(cfg, q, acts)
    ensures var end := Run(cfg, q, acts);
            && Inv(end) && Exclusive(end)
            && (forall t, t' | t in end.claims && t' in end.claims && t != t' ::
                  forall i, j | 0 <= i < |end.claims[t].batch| && 0 <= j < |end.claims[t'].batch| ::
                    end.claims[t].batch[i].id != end.claims[t'].batch[j].id)
            && (forall id | id in q.rows && id in end.rows && q.rows[id].status == Done :: end.rows[id].status == Done)
            && (forall id | id in end.rows && end.rows[id].status == Failed ::
                  end.rows[id].maxAttempts <= end.rows[id].attempts || id in end.rejected)
    decreases |acts|
  {
    if acts == [] {
      forall t, t', i, j | t in q.claims && t' in q.claims && t != t' && 0 <= i < |q.claims[t].batch|
        && 0 <= j < |q.claims[t'].batch|
        ensures q.claims[t].batch[i].id != q.claims[t'].batch[j].id
      {
        assert Holds(q, t) && Holds(q, t');
        assert Owned(q, t, q.claims[t].batch[i]) && Owned(q, t', q.claims[t'].batch[j]);
      }
      forall id | id in q.rows ensures FailedOk(q, id) {}
    } else {
      var a := acts[0];
      var u := Step(cfg, q, a);
      StepKeepsInv(cfg, q, a);
      forall token ensures Holds(u, token) {
        StepKeepsHolds(cfg, q, a, token);
      }
      forall id ensures LockOk(u, id) && FailedOk(u, id) {
        StepKeepsLocks(cfg, q, a, id);
      }
      LeasesExclude(cfg, u, acts[1..]);
      var end := Run(cfg, u, acts[1..]);
      forall id | id in q.rows && id in end.rows && q.rows[id].status == Done ensures end.rows[id].status == Done {
        assert RowOk(q, id) && RowOk(u, id);
        IdsAreNotReused(cfg, u, acts[1..], id);
        if a.Mark? {
          assert Holds(q, a.token) && Owned(q, a.token, q.claims[a.token].batch[0]);
        }
      }
    }
  }

  lemma {:induction false} IdsAreNotReused(cfg: Config, q: Queue, acts: seq<Action>, id: Id)
    requires AllowedRun(cfg, q, acts) && id in q.tries
    ensures id in Run(cfg, q, acts).rows ==> id in q.rows
    decreases |acts|
  {
    if acts != [] {
      IdsAreNotReused(cfg, Step(cfg, q, acts[0]), acts[1..], id);
    }
  }

  // ---- how often a row is delivered ----

  /** The step forgets a delivery of the row: its worker dies, or fails to write that the delivery failed. */
  predicate Forgets(q: Queue, a: Action, id: Id) {
    && (a.Crash? || a.MarkLost?) && a.token in q.claims
    && var c := q.claims[a.token];
       && c.phase.Sent? && c.batch != [] && c.batch[0].id == id
       && (a.MarkLost? ==> c.phase.outcome != Accepted)
  }

  predicate Redrives(a: Action, id: Id) { a.Redrive? && id in a.ids }

  function ForgottenAfter(q: Queue, a: Action, id: Id, n: nat): nat {
    if id !in q.rows || Redrives(a, id) then 0 else if Forgets(q, a, id) then n + 1 else n
  }

  /** Deliveries forgotten along the run, since the row was written or last redriven; n were forgotten before. */
  ghost function Forgotten(cfg: Config, q: Queue, acts: seq<Action>, id: Id, n: nat): nat
    requires AllowedRun(cfg, q, acts)
    decreases |acts|
  {
    if acts == [] then n else Forgotten(cfg, Step(cfg, q, acts[0]), acts[1..], id, ForgottenAfter(q, acts[0], id, n))
  }

  /** The row has been delivered but not marked yet. */
  ghost predicate InFlight(q: Queue, id: Id)
    requires id in q.rows
  {
    && q.rows[id].lockedBy.Some? && q.rows[id].lockedBy.value in q.claims
    && var c := q.claims[q.rows[id].lockedBy.value];
       c.phase.Sent? && c.batch != [] && c.batch[0].id == id
  }

  /** Every delivery since the last redrive is an attempt, in flight, or forgotten. */
  ghost predicate TriesOk(q: Queue, id: Id, n: nat)
    requires Inv(q)
  {
    id in q.rows ==>
      assert RowOk(q, id);
      if q.rows[id].status == Pending then q.tries[id] == q.rows[id].attempts + n + if InFlight(q, id) then 1 else 0
      else q.tries[id] <= q.rows[id].maxAttempts + n
  }

  lemma {:induction false} StepKeepsTries(cfg: Config, q: Queue, a: Action, id: Id, n: nat)
    requires Inv(q) && Exclusive(q) && InLease(q) && Allowed(cfg, q, a) && TriesOk(q, id, n)
    ensures Inv(Step(cfg, q, a)) && TriesOk(Step(cfg, q, a), id, ForgottenAfter(q, a, id, n))
  {
    StepKeepsInv(cfg, q, a);
    assert RowOk(q, id) && LockOk(q, id);
    if (a.Deliver? || a.Mark? || a.MarkLost?) {
      assert Holds(q, a.token) && Owned(q, a.token, q.claims[a.token].batch[0]);
    }
    if a.Crash? && q.claims[a.token].batch != [] {
      assert Holds(q, a.token) && Owned(q, a.token, q.claims[a.token].batch[0]);
    }
    if id in q.rows && InFlight(q, id) {
      assert Holds(q, q.rows[id].lockedBy.value);
    }
  }

  /**
   * The retry bound: within leases a row is delivered at most maxAttempts times between
   * redrives, plus once for each delivery that its worker did not live, or fail, to record.
   */
  lemma {:induction false} TriesAreBounded(cfg: Config, q: Queue, acts: seq<Action>, id: Id, n: nat)
    requires Inv(q) && Exclusive(q) && TriesOk(q, id, n)
    requires AllowedRun(cfg, q, acts) && LeasedRun(cfg, q, acts)
    ensures var end := Run(cfg, q, acts);
            id in end.rows ==>
              && id in end.tries
              && end.tries[id] <= end.rows[id].maxAttempts + Forgotten(cfg, q, acts, id, n)
    decreases |acts|
  {
    if acts == [] {
      assert RowOk(q, id);
    } else {
      var u := Step(cfg, q, acts[0]);
      StepKeepsInv(cfg, q, acts[0]);
      LeasesExclude(cfg, q, acts[..1]);
      assert acts[..1][1..] == [];
      StepKeepsTries(cfg, q, acts[0], id, n);
      TriesAreBounded(cfg, u, acts[1..], id, ForgottenAfter(q, acts[0], id, n));
    }
  }

  ghost predicate Init(q: Queue) {
    q.rows == map[] && q.claims == map[] && q.tries == map[] && q.accepted == {} && q.rejected == {}
  }

  lemma {:induction false} InitIsGood(q: Queue)
    requires Init(q)
    ensures Inv(q) && Exclusive(q) && InLease(q) && forall id :: TriesOk(q, id, 0)
  {
  }

  // ---- runs composed ----

  ghost predicate Reaches(cfg: Config, q: Queue, u: Queue) {
    exists acts :: AllowedRun(cfg, q, acts) && Run(cfg, q, acts) == u
  }

  lemma {:induction false} ReachesSelf(cfg: Config, q: Queue)
    ensures Reaches(cfg, q, q)
  {
    assert AllowedRun(cfg, q, []) && Run(cfg, q, []) == q;
  }

  lemma {:induction false} RunConcat(cfg: Config, q: Queue, before: seq<Action>, after: seq<Action>)
    requires AllowedRun(cfg, q, before) && AllowedRun(cfg, Run(cfg, q, before), after)
    ensures AllowedRun(cfg, q, before + after)
    ensures Run(cfg, q, before + after) == Run(cfg, Run(cfg, q, before), after)
    decreases |before|
  {
    if before == [] {
      assert before + after == after;
    } else {
      RunConcat(cfg, Step(cfg, q, before[0]), before[1..], after);
      assert (before + after)[1..] == before[1..] + after;
    }
  }

  lemma {:induction false} ReachesTrans(cfg: Config, q: Queue, u: Queue, v: Queue)
    requires Reaches(cfg, q, u) && Reaches(cfg, u, v)
    ensures Reaches(cfg, q, v)
  {
    var before :| AllowedRun(cfg, q, before) && Run(cfg, q, before) == u;
    var after :| AllowedRun(cfg, u, after) && Run(cfg, u, after) == v;
    RunConcat(cfg, q, before, after);
  }

  lemma {:induction false} ReachesStep(cfg: Config, q: Queue, u: Queue, a: Action)
    requires Reaches(cfg, q, u) && Allowed(cfg, u, a)
    ensures Reaches(cfg, q, Step(cfg, u, a))
  {
    var acts := [a];
    assert acts[1..] == [] && AllowedRun(cfg, Step(cfg, u, a), []);
    assert AllowedRun(cfg, u, acts) && Run(cfg, u, acts) == Step(cfg, u, a);
    ReachesTrans(cfg, q, u, Step(cfg, u, a));
  }

  /** A worker's claim of the only row, both queries in a row. */
  lemma {:induction false} ClaimTheRow(cfg: Config, start: Queue, q: Queue, token: Id) returns (u: Queue)
    requires Reaches(cfg, start, q) && q.rows.Keys == {0} && Claimable(q.rows[0], q.now)
    requires token !in q.claims && q.rows[0].lockedBy != Some(token)
    ensures Reaches(cfg, start, u)
    ensures var lease := q.now + cfg.leaseMs;
            && u == q.(rows := q.rows[0 := q.rows[0].(lockedUntil := Some(lease), lockedBy := Some(token))],
                       claims := q.claims[token :=
                         Claim(lease, Idle, [Snapshot(0, q.rows[0].attempts, q.rows[0].maxAttempts)])])
  {
    var s := Snapshot(0, q.rows[0].attempts, q.rows[0].maxAttempts);
    var stamped := Step(cfg, q, Stamp(token, {0}, q.now, q.now));
    ReachesStep(cfg, start, q, Stamp(token, {0}, q.now, q.now));
    assert s in [s];
    u := Step(cfg, stamped, Fetch(token, [s]));
    ReachesStep(cfg, start, stamped, Fetch(token, [s]));
  }

  lemma {:induction false} TwoWorkersClaimOneRow(cfg: Config, maxAttempts: nat) returns (start: Queue, stalled: Queue)
    requires 1 <= maxAttempts
    ensures Init(start) && Reaches(cfg, start, stalled)
    ensures var late := cfg.leaseMs + 1; var s := Snapshot(0, 0, maxAttempts);
            && stalled.now == late && stalled.tries == map[0 := 0]
            && stalled.rows == map[0 := Row(Pending, 0, maxAttempts, 0, 0, Some(late + cfg.leaseMs), Some(2))]
            && stalled.claims == map[1 := Claim(cfg.leaseMs, Idle, [s]), 2 := Claim(late + cfg.leaseMs, Idle, [s])]
  {
    start := Queue(0, map[], map[], {}, {}, map[]);
    var enqueued := Step(cfg, start, Enqueue(0, maxAttempts));
    ReachesSelf(cfg, start);
    ReachesStep(cfg, start, start, Enqueue(0, maxAttempts));
    var claimed := ClaimTheRow(cfg, start, enqueued, 1);
    var late := Step(cfg, claimed, Tick(cfg.leaseMs + 1));
    ReachesStep(cfg, start, claimed, Tick(cfg.leaseMs + 1));
    stalled := ClaimTheRow(cfg, start, late, 2);
  }

  /**
   * Why the leases matter: a worker that stalls past its lease fails a row that
   * another worker has delivered and marked in the meantime.
   */
  lemma {:induction false} StaleWorkerFailsADoneRow(cfg: Config) returns (start: Queue, delivered: Queue, end: Queue)
    ensures Init(start) && Reaches(cfg, start, delivered) && Reaches(cfg, delivered, end)
    ensures 0 in delivered.rows && delivered.rows[0].status == Done && 0 in delivered.accepted
    ensures 0 in end.rows && end.rows[0].status == Failed && 0 in end.accepted
  {
    var stalled;
    start, stalled := TwoWorkersClaimOneRow(cfg, 1);
    var late := cfg.leaseMs + 1;
    var sent := Step(cfg, stalled, Deliver(2, Accepted));
    delivered := Step(cfg, sent, Mark(2, late));
    var resent := Step(cfg, delivered, Deliver(1, Transient(0)));
    end := Step(cfg, resent, Mark(1, late));
    ReachesStep(cfg, start, stalled, Deliver(2, Accepted));
    ReachesStep(cfg, start, sent, Mark(2, late));
    ReachesSelf(cfg, delivered);
    ReachesStep(cfg, delivered, delivered, Deliver(1, Transient(0)));
    ReachesStep(cfg, delivered, resent, Mark(1, late));
  }
}
