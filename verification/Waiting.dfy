/**
 * When a queue row may be claimed again: not before the backoff it was rescheduled with,
 * not before the lease it was claimed under - and at once when it is new or redriven.
 */
module Waiting {
  import opened Base
  import opened LeaseQueue

  predicate Claims(a: Action, id: Id) { a.Stamp? && id in a.ids }

  /** The step writes the outcome of a delivery of the row. */
  predicate Marks(q: Queue, a: Action, id: Id) {
    a.Mark? && a.token in q.claims && q.claims[a.token].batch != [] && q.claims[a.token].batch[0].id == id
  }

  /** Nobody marks or redrives the row along the run; it may be claimed, delivered and swept. */
  ghost predicate Unmarked(cfg: Config, q: Queue, acts: seq<Action>, id: Id)
    requires AllowedRun(cfg, q, acts)
    decreases |acts|
  {
    acts != [] ==>
      !Marks(q, acts[0], id) && !Redrives(acts[0], id) && Unmarked(cfg, Step(cfg, q, acts[0]), acts[1..], id)
  }

  /** The row is not due before `due`, and if it is locked at all, it is locked until `lease` or longer. */
  ghost predicate Waits(q: Queue, id: Id, due: Millis, lease: Option<Millis>) {
    && id in q.tries
    && (id in q.rows ==>
          && due <= q.rows[id].nextAttemptAt
          && (lease.Some? ==> q.rows[id].lockedUntil.Some? && lease.value <= q.rows[id].lockedUntil.value))
  }

  lemma {:induction false} UnmarkedRowWaits(
      cfg: Config, q: Queue, acts: seq<Action>, id: Id, due: Millis, lease: Option<Millis>)
    requires AllowedRun(cfg, q, acts) && Unmarked(cfg, q, acts, id) && Waits(q, id, due, lease)
    ensures Waits(Run(cfg, q, acts), id, due, lease)
    decreases |acts|
  {
    if acts != [] {
      UnmarkedRowWaits(cfg, Step(cfg, q, acts[0]), acts[1..], id, due, lease);
    }
  }

  /** The delivery of row `id` has failed, with attempts left, and `a` records that with this delay. */
  predicate Reschedules(q: Queue, a: Action, id: Id, delay: int) {
    && Marks(q, a, id) && id in q.rows
    && q.claims[a.token].phase == Sent(Transient(delay))
    && q.claims[a.token].batch[0].attempts + 1 < q.claims[a.token].batch[0].maxAttempts
  }

  /**
   * Until somebody marks or redrives it again, a rescheduled row is claimed by no worker
   * whose clock reads less than its backoff's end.
   */
  lemma {:induction false} BackoffIsWaited(
      cfg: Config, q: Queue, mark: Action, delay: int, acts: seq<Action>, claim: Action, id: Id)
    requires Inv(q) && Allowed(cfg, q, mark) && Reschedules(q, mark, id, delay)
    requires AllowedRun(cfg, Step(cfg, q, mark), acts) && Unmarked(cfg, Step(cfg, q, mark), acts, id)
    requires Allowed(cfg, Run(cfg, Step(cfg, q, mark), acts), claim) && Claims(claim, id)
    ensures mark.clock + delay <= claim.clock
  {
    assert RowOk(q, id);
    UnmarkedRowWaits(cfg, Step(cfg, q, mark), acts, id, mark.clock + delay, None);
  }

  /** And a claimed row by none whose clock has not passed its lease. */
  lemma {:induction false} LeaseIsWaited(
      cfg: Config, q: Queue, first: Action, acts: seq<Action>, second: Action, id: Id)
    requires Inv(q) && Allowed(cfg, q, first) && Claims(first, id)
    requires AllowedRun(cfg, Step(cfg, q, first), acts) && Unmarked(cfg, Step(cfg, q, first), acts, id)
    requires Allowed(cfg, Run(cfg, Step(cfg, q, first), acts), second) && Claims(second, id)
    ensures first.leaseClock + cfg.leaseMs < second.clock
  {
    assert RowOk(q, id);
    UnmarkedRowWaits(cfg, Step(cfg, q, first), acts, id, q.rows[id].nextAttemptAt,
      Some(first.leaseClock + cfg.leaseMs));
  }

  // ---- nobody else can mark it, if rows were handled within their leases ----

  /** Unlocked, and in nobody's batch. */
  ghost predicate Free(q: Queue, id: Id) {
    && id in q.tries && (id in q.rows ==> q.rows[id].lockedBy == None)
    && forall token | token in q.claims :: forall i | 0 <= i < |q.claims[token].batch| ::
         q.claims[token].batch[i].id != id
  }

  lemma {:induction false} MarkedRowIsFree(cfg: Config, q: Queue, a: Action, id: Id)
    requires Inv(q) && Exclusive(q) && Allowed(cfg, q, a) && Marks(q, a, id) && id in q.rows
    ensures Free(Step(cfg, q, a), id)
  {
    var u := Step(cfg, q, a);
    assert RowOk(q, id) && Holds(q, a.token) && Owned(q, a.token, q.claims[a.token].batch[0]);
    forall token, i | token in u.claims && 0 <= i < |u.claims[token].batch| ensures u.claims[token].batch[i].id != id {
      assert Holds(q, token);
      if token == a.token {
        assert u.claims[token].batch[i] == q.claims[token].batch[i + 1];
      } else {
        assert Owned(q, token, q.claims[token].batch[i]);
      }
    }
  }

  lemma {:induction false} FreeStaysUnmarked(cfg: Config, q: Queue, acts: seq<Action>, id: Id)
    requires AllowedRun(cfg, q, acts) && Free(q, id)
    requires forall k | 0 <= k < |acts| :: !Claims(acts[k], id) && !Redrives(acts[k], id)
    ensures Unmarked(cfg, q, acts, id)
    decreases |acts|
  {
    if acts != [] {
      var a := acts[0];
      assert !Claims(a, id) && !Redrives(a, id);
      FreeStaysFree(cfg, q, a, id);
      forall k | 0 <= k < |acts[1..]| ensures !Claims(acts[1..][k], id) && !Redrives(acts[1..][k], id) {
        assert acts[1..][k] == acts[k + 1];
      }
      FreeStaysUnmarked(cfg, Step(cfg, q, a), acts[1..], id);
    }
  }

  lemma {:induction false} FreeStaysFree(cfg: Config, q: Queue, a: Action, id: Id)
    requires Allowed(cfg, q, a) && Free(q, id) && !Claims(a, id) && !Redrives(a, id)
    ensures Free(Step(cfg, q, a), id) && !Marks(q, a, id)
  {
    var u := Step(cfg, q, a);
    forall token, i | token in u.claims && 0 <= i < |u.claims[token].batch| ensures u.claims[token].batch[i].id != id {
      if a.Fetch? && token == a.token {
        assert a.batch[i] in a.batch;
      } else if a.Mark? && token == a.token {
        assert u.claims[token].batch[i] == q.claims[token].batch[i + 1];
      }
    }
  }

  /**
   * While rows are handled within their leases, the next claim of a rescheduled row comes
   * when its backoff is over, or somebody has redriven it.
   */
  lemma {:induction false} NextClaimWaits(
      cfg: Config, q: Queue, mark: Action, delay: int, acts: seq<Action>, claim: Action, id: Id)
    requires Inv(q) && Exclusive(q) && Allowed(cfg, q, mark) && Reschedules(q, mark, id, delay)
    requires AllowedRun(cfg, Step(cfg, q, mark), acts)
    requires forall k | 0 <= k < |acts| :: !Claims(acts[k], id) && !Redrives(acts[k], id)
    requires Allowed(cfg, Run(cfg, Step(cfg, q, mark), acts), claim) && Claims(claim, id)
    ensures mark.clock + delay <= claim.clock
  {
    MarkedRowIsFree(cfg, q, mark, id);
    FreeStaysUnmarked(cfg, Step(cfg, q, mark), acts, id);
    BackoffIsWaited(cfg, q, mark, delay, acts, claim, id);
  }

  /** Worker 2 has sent the row and failed; worker 1 still has it in its batch. */
  predicate BothHoldIt(q: Queue) {
    var s := Snapshot(0, 0, 3);
    && q.rows.Keys == {0} && q.claims.Keys == {1, 2}
    && q.rows[0].status == Pending && q.rows[0].maxAttempts == 3
    && q.claims[1].phase == Idle && q.claims[1].batch == [s]
    && q.claims[2].phase == Sent(Transient(1000)) && q.claims[2].batch == [s]
  }

  lemma {:induction false} StaleMarkOverwrites(cfg: Config, sent: Queue) returns (end: Queue)
    requires BothHoldIt(sent)
    ensures Allowed(cfg, sent, Mark(2, sent.now)) && Reschedules(sent, Mark(2, sent.now), 0, 1000)
    ensures var acts := [Deliver(1, Transient(0)), Mark(1, sent.now)];
            var rescheduled := Step(cfg, sent, Mark(2, sent.now));
            && AllowedRun(cfg, rescheduled, acts) && end == Run(cfg, rescheduled, acts)
            && end.now == sent.now && ClaimableNow(cfg, end, 0)
  {
    var rescheduled := Step(cfg, sent, Mark(2, sent.now));
    var resent := Step(cfg, rescheduled, Deliver(1, Transient(0)));
    end := Step(cfg, resent, Mark(1, sent.now));
    var acts := [Deliver(1, Transient(0)), Mark(1, sent.now)];
    assert acts[1..] == [Mark(1, sent.now)] && acts[1..][1..] == [];
    assert AllowedRun(cfg, resent, acts[1..]) && Run(cfg, resent, acts[1..]) == end;
  }

  /**
   * Past a lease it may not be waited: worker 2 has rescheduled the row by a thousand
   * milliseconds, then stalled worker 1 records its own failure with no delay at all.
   */
  lemma {:induction false} StaleMarkEndsBackoffEarly(cfg: Config) returns (start: Queue, sent: Queue, end: Queue)
    ensures Init(start) && Reaches(cfg, start, sent) && Allowed(cfg, sent, Mark(2, sent.now))
    ensures Reschedules(sent, Mark(2, sent.now), 0, 1000)
    ensures var acts := [Deliver(1, Transient(0)), Mark(1, sent.now)];
            var rescheduled := Step(cfg, sent, Mark(2, sent.now));
            && AllowedRun(cfg, rescheduled, acts) && end == Run(cfg, rescheduled, acts)
            && end.now == sent.now && ClaimableNow(cfg, end, 0)
  {
    var stalled;
    start, stalled := TwoWorkersClaimOneRow(cfg, 3);
    sent := Step(cfg, stalled, Deliver(2, Transient(1000)));
    ReachesStep(cfg, start, stalled, Deliver(2, Transient(1000)));
    assert BothHoldIt(sent);
    end := StaleMarkOverwrites(cfg, sent);
  }

  // ---- and when it need not wait ----

  /** A worker that looks at its clock now may claim the row, under any unused token. */
  ghost predicate ClaimableNow(cfg: Config, q: Queue, id: Id) {
    forall token | token !in q.claims && (forall x | x in q.rows :: q.rows[x].lockedBy != Some(token)) ::
      Allowed(cfg, q, Stamp(token, {id}, q.now, q.now))
  }

  lemma {:induction false} NewRowIsClaimable(cfg: Config, q: Queue, id: Id, maxAttempts: nat)
    requires Allowed(cfg, q, Enqueue(id, maxAttempts))
    ensures var u := Step(cfg, q, Enqueue(id, maxAttempts));
            ClaimableNow(cfg, u, id) && u.rows[id].attempts == 0 && u.rows[id].maxAttempts == maxAttempts
  {
  }

  /** A redriven row starts over, at once and with all its attempts. */
  lemma {:induction false} RedrivenRowIsClaimable(cfg: Config, q: Queue, ids: set<Id>, clock: Millis, id: Id)
    requires Allowed(cfg, q, Redrive(ids, clock)) && id in ids
    ensures var u := Step(cfg, q, Redrive(ids, clock)); ClaimableNow(cfg, u, id) && u.rows[id].attempts == 0
  {
  }

  /** A rescheduled or abandoned row is claimable again once its backoff and any lease on it are over. */
  lemma {:induction false} WaitingEnds(cfg: Config, q: Queue, id: Id)
    requires id in q.rows && q.rows[id].status == Pending && q.rows[id].nextAttemptAt <= q.now
    requires q.rows[id].lockedUntil.Some? ==> q.rows[id].lockedUntil.value < q.now
    ensures ClaimableNow(cfg, q, id)
  {
  }
}
