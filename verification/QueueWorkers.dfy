/**
 * The outbox relay and the notification sender as they run: claim, read back,
 * deliver, mark. Between separate queries `Yield` lets everybody else act (they leave
 * this worker's own batch in memory alone); `quiet` singles out executions without
 * interference or lost queries.
 */
module QueueWorkers {
  import opened Base
  import opened LeaseQueue
  import Backoff

  /** What the claim orders by: the relay by creation, the sender by next attempt. */
  datatype SortColumn = CreatedAt | NextAttemptAt

  function KeyOf(column: SortColumn, r: Row): Millis {
    match column case CreatedAt => r.createdAt case NextAttemptAt => r.nextAttemptAt
  }

  class Database {
    var q: Queue
    const cfg: Config
    ghost const quiet: bool

    constructor (cfg: Config, ghost quiet: bool, q: Queue)
      ensures this.cfg == cfg && this.quiet == quiet && this.q == q
    {
      this.cfg, this.quiet, this.q := cfg, quiet, q;
    }

    twostate predicate Advanced()
      reads this
    {
      Reaches(cfg, old(q), q) && old(q.now) <= q.now
    }

    method Yield(ghost mine: set<Id>)
      modifies this
      ensures Advanced()
      ensures forall token | token in mine && token in old(q.claims) ::
                token in q.claims && q.claims[token] == old(q.claims)[token]
      ensures quiet ==> q == old(q)
    {
      ReachesSelf(cfg, q);
    }

    /** Whether the next query is lost (timeout, lost connection). */
    method Faults() returns (failed: bool)
      ensures quiet ==> !failed
    {
      failed := false;
    }

    /** UPDATE ... SET lockedUntil, lockedBy ... ORDER BY ... LIMIT, with a token nobody has used. */
    method StampRows(limit: nat, column: SortColumn, now: Millis, leaseClock: Millis) returns (token: Id, ids: set<Id>)
      requires now <= leaseClock <= q.now
      modifies this
      ensures ids <= ClaimableIds(old(q), now) && |ids| == Backoff.Min(|ClaimableIds(old(q), now)|, limit)
      ensures AreFirst(old(q), ClaimableIds(old(q), now), ids, column)
      ensures Allowed(cfg, old(q), Stamp(token, ids, now, leaseClock))
              && q == Step(cfg, old(q), Stamp(token, ids, now, leaseClock))
    {
      ids := TakeFirst(q, ClaimableIds(q, now), limit, column);
      token := FreshToken();
      q := q.(rows := map id | id in q.rows ::
                        if id in ids
                        then q.rows[id].(lockedUntil := Some(leaseClock + cfg.leaseMs), lockedBy := Some(token))
                        else q.rows[id],
              claims := q.claims[token := Claim(leaseClock + cfg.leaseMs, Stamped, [])]);
    }

    /** SELECT ... WHERE lockedBy = token AND status = 'PENDING' ORDER BY ... */
    method ReadClaim(token: Id, column: SortColumn) returns (batch: seq<Snapshot>)
      requires token in q.claims && q.claims[token].phase == Stamped
      modifies this
      ensures Distinct(batch) && BatchIds(batch) == LockedIds(old(q), token) && |batch| == |LockedIds(old(q), token)|
      ensures InOrder(old(q), batch, column)
      ensures Allowed(cfg, old(q), Fetch(token, batch)) && q == Step(cfg, old(q), Fetch(token, batch))
    {
      batch := ReadBack(LockedIds(q, token), column);
      forall s | s in batch ensures s.id in LockedIds(q, token) {
        assert s.id in BatchIds(batch);
      }
      forall id | id in q.rows && q.rows[id].lockedBy == Some(token) && q.rows[id].status == Pending
        ensures exists s :: s in batch && s.id == id
      {
        assert id in LockedIds(q, token) && id in BatchIds(batch);
      }
      q := q.(claims := q.claims[token := q.claims[token].(phase := Idle, batch := batch)]);
    }

    /** Both queries of claimBatch; a lost query ends the tick and leaves stamped rows to their lease. */
    method ClaimBatch(limit: nat, column: SortColumn) returns (failed: bool, token: Id, batch: seq<Snapshot>)
      modifies this
      ensures Advanced()
      ensures !failed ==>
                token in q.claims && q.claims[token].phase == Idle && q.claims[token].batch == batch && Distinct(batch)
      ensures !failed ==> InOrder(q, batch, column)
      ensures quiet ==>
                !failed && ClaimedFrom(cfg, old(q), q, limit, token, batch) && FirstInOrder(old(q), batch, column)
    {
      var now := q.now;
      var leaseClock := q.now;
      Yield({});
      token, batch := 0, [];
      failed := Faults();
      if failed {
        return;
      }
      ghost var before := q;
      var ids;
      token, ids := StampRows(limit, column, now, leaseClock);
      ReachesStep(cfg, old(q), before, Stamp(token, ids, now, leaseClock));
      label stamped:
      Yield({token});
      ghost var read := q;
      ReachesTrans(cfg, old(q), old@stamped(q), read);
      failed := Faults();
      if failed {
        ReachesStep(cfg, old(q), read, Crash(token));
        EndTick(token);
        return;
      }
      batch := ReadClaim(token, column);
      ReachesStep(cfg, old(q), read, Fetch(token, batch));
      assert q.rows == read.rows;
      if quiet {
        ClaimFindsTheDue(before, before.now);
        QuietClaim(cfg, before, ids, limit, token, batch);
        StampKeepsOrder(cfg, before, ids, column, token, batch);
      }
    }

    // UPDATE ... WHERE id = ?, by id alone. It fails if the row is gone or the query is lost.

    method MarkDone(token: Id) returns (lost: bool)
      requires token in q.claims && q.claims[token].phase == Sent(Accepted) && q.claims[token].batch != []
      modifies this
      ensures MarkedOrLost(token, lost)
    {
      var s := q.claims[token].batch[0];
      lost := Faults();
      if lost || s.id !in q.rows {
        return true;
      }
      var row := q.rows[s.id].(status := Done, lockedUntil := None, lockedBy := None);
      q := q.(rows := q.rows[s.id := row],
        claims := q.claims[token := q.claims[token].(phase := Idle, batch := q.claims[token].batch[1..])]);
    }

    method MarkRefused(token: Id) returns (lost: bool)
      requires token in q.claims && q.claims[token].phase == Sent(Permanent) && q.claims[token].batch != []
      modifies this
      ensures MarkedOrLost(token, lost)
    {
      var s := q.claims[token].batch[0];
      lost := Faults();
      if lost || s.id !in q.rows {
        return true;
      }
      var row := q.rows[s.id].(status := Failed, attempts := s.attempts + 1, lockedUntil := None, lockedBy := None);
      q := q.(rows := q.rows[s.id := row],
        claims := q.claims[token := q.claims[token].(phase := Idle, batch := q.claims[token].batch[1..])]);
    }

    method ScheduleRetry(token: Id, delay: int) returns (lost: bool)
      requires token in q.claims && q.claims[token].phase == Sent(Transient(delay)) && q.claims[token].batch != []
      modifies this
      ensures MarkedOrLost(token, lost)
    {
      var s := q.claims[token].batch[0];
      lost := Faults();
      if lost || s.id !in q.rows {
        return true;
      }
      var attempts := s.attempts + 1;
      var row := q.rows[s.id].(attempts := attempts, lockedUntil := None, lockedBy := None);
      if attempts >= s.maxAttempts {
        row := row.(status := Failed);
      } else {
        row := row.(nextAttemptAt := q.now + delay);
      }
      q := q.(rows := q.rows[s.id := row],
        claims := q.claims[token := q.claims[token].(phase := Idle, batch := q.claims[token].batch[1..])]);
    }

    twostate predicate MarkedOrLost(token: Id, lost: bool)
      reads this
      requires token in old(q).claims && old(q).claims[token].phase.Sent? && old(q).claims[token].batch != []
    {
      && (lost ==> q == old(q))
      && (!lost ==> old(q).claims[token].batch[0].id in old(q).rows && q == Step(cfg, old(q), Mark(token, old(q).now)))
      && (quiet && old(q).claims[token].batch[0].id in old(q).rows ==> !lost)
    }

    /** A delivery: nothing is written yet, the outcome is in the worker's memory, and time passes. */
    method Deliver(token: Id, outcome: Outcome)
      requires token in q.claims && q.claims[token].phase == Idle && q.claims[token].batch != []
      modifies this
      ensures Advanced()
      ensures token in q.claims && q.claims[token] == old(q).claims[token].(phase := Sent(outcome))
      ensures quiet ==> q == Step(cfg, old(q), LeaseQueue.Deliver(token, outcome))
    {
      ReachesSelf(cfg, q);
      ReachesStep(cfg, old(q), q, LeaseQueue.Deliver(token, outcome));
      q := Step(cfg, q, LeaseQueue.Deliver(token, outcome));
      label delivered:
      Yield({token});
      ReachesTrans(cfg, old(q), old@delivered(q), q);
    }

    /** The success mark was lost: the worker goes on as if the delivery had failed. */
    method Forget(token: Id, delay: int)
      requires token in q.claims && q.claims[token].phase == Sent(Accepted) && q.claims[token].batch != []
      modifies this
      ensures Advanced() && q == Step(cfg, old(q), MarkLost(token, delay))
    {
      ReachesSelf(cfg, q);
      ReachesStep(cfg, q, q, MarkLost(token, delay));
      q := q.(claims := q.claims[token := q.claims[token].(phase := Sent(Transient(delay)))]);
    }

    /** A lost write ends the tick: the rest of the batch is left to its lease. */
    method EndTick(token: Id)
      requires token in q.claims
      modifies this
      ensures q == Step(cfg, old(q), Crash(token))
    {
      q := q.(claims := q.claims - {token});
    }

    /** markPublished / markSent; if it throws, the delivery counts as failed. */
    method MarkDoneOrForget(token: Id, delay: int) returns (lost: bool)
      requires token in q.claims && q.claims[token].phase == Sent(Accepted) && q.claims[token].batch != []
      modifies this
      ensures Advanced() && token in q.claims
      ensures q.claims[token] == if lost then old(q).claims[token].(phase := Sent(Transient(delay)))
                                 else old(q).claims[token].(phase := Idle, batch := old(q).claims[token].batch[1..])
      ensures !lost ==> WrittenAs(q, old(q).claims[token].batch[0], Accepted)
      ensures quiet && old(q).claims[token].batch[0].id in old(q).rows ==>
                !lost && q == Step(cfg, old(q), Mark(token, old(q).now))
    {
      ReachesSelf(cfg, q);
      lost := MarkDone(token);
      if lost {
        Forget(token, delay);
      } else {
        ReachesStep(cfg, old(q), old(q), Mark(token, old(q.now)));
      }
    }

    /** markFailed, and the end of the tick if it throws. */
    method RefuseOrEndTick(token: Id) returns (failed: bool)
      requires token in q.claims && q.claims[token].phase == Sent(Permanent) && q.claims[token].batch != []
      modifies this
      ensures Advanced()
      ensures !failed ==>
                token in q.claims
                && q.claims[token] == old(q).claims[token].(phase := Idle, batch := old(q).claims[token].batch[1..])
      ensures if failed then token !in q.claims else WrittenAs(q, old(q).claims[token].batch[0], Permanent)
      ensures quiet && old(q).claims[token].batch[0].id in old(q).rows ==>
                !failed && q == Step(cfg, old(q), Mark(token, old(q).now))
    {
      ReachesSelf(cfg, q);
      failed := MarkRefused(token);
      if failed {
        ReachesStep(cfg, old(q), q, Crash(token));
        EndTick(token);
      } else {
        ReachesStep(cfg, old(q), old(q), Mark(token, old(q.now)));
      }
    }

    /** scheduleRetry, and the end of the tick if it throws. */
    method RetryOrEndTick(token: Id, delay: int) returns (failed: bool)
      requires token in q.claims && q.claims[token].phase == Sent(Transient(delay)) && q.claims[token].batch != []
      modifies this
      ensures Advanced()
      ensures !failed ==>
                token in q.claims
                && q.claims[token] == old(q).claims[token].(phase := Idle, batch := old(q).claims[token].batch[1..])
      ensures if failed then token !in q.claims else WrittenAs(q, old(q).claims[token].batch[0], Transient(delay))
      ensures quiet && old(q).claims[token].batch[0].id in old(q).rows ==>
                !failed && q == Step(cfg, old(q), Mark(token, old(q).now))
    {
      ReachesSelf(cfg, q);
      failed := ScheduleRetry(token, delay);
      if failed {
        ReachesStep(cfg, old(q), q, Crash(token));
        EndTick(token);
      } else {
        ReachesStep(cfg, old(q), old(q), Mark(token, old(q.now)));
      }
    }

    method FreshToken() returns (token: Id)
      ensures token !in q.claims && forall id | id in q.rows :: q.rows[id].lockedBy != Some(token)
    {
      ghost var used := q.claims.Keys + set id | id in q.rows && q.rows[id].lockedBy.Some? :: q.rows[id].lockedBy.value;
      FreshIdExists(used);
      ghost var unused :| unused !in used;
      assert forall id | id in q.rows :: q.rows[id].lockedBy != Some(unused);
      token :| token !in q.claims && forall id | id in q.rows :: q.rows[id].lockedBy != Some(token);
    }

    method ReadBack(ids: set<Id>, column: SortColumn) returns (batch: seq<Snapshot>)
      requires ids <= q.rows.Keys
      ensures Distinct(batch) && BatchIds(batch) == ids && |batch| == |ids|
      ensures forall s | s in batch :: s.id in q.rows && s == SnapshotOf(q, s.id)
      ensures InOrder(q, batch, column)
    {
      batch := [];
      var rest := ids;
      while rest != {}
        invariant rest <= ids && |batch| + |rest| == |ids| && ReadSoFar(q, ids, rest, batch, column)
        decreases |rest|
      {
        var id := First(q, rest, column);
        ReadOneMore(q, ids, rest, batch, column, id);
        batch := batch + [SnapshotOf(q, id)];
        rest := rest - {id};
      }
    }
  }

  lemma {:induction false} AddSnapshot(batch: seq<Snapshot>, s: Snapshot)
    requires Distinct(batch) && s.id !in BatchIds(batch)
    ensures Distinct(batch + [s]) && BatchIds(batch + [s]) == BatchIds(batch) + {s.id}
  {
    forall i | 0 <= i < |batch| ensures batch[i].id != s.id {
      assert batch[i] in batch;
    }
    forall id | id in BatchIds(batch) + {s.id} ensures id in BatchIds(batch + [s]) {
      if id in BatchIds(batch) {
        var t :| t in batch && t.id == id;
        assert t in batch + [s];
      } else {
        assert s in batch + [s];
      }
    }
  }

  /** The row as a worker leaves it that has just written this outcome. */
  ghost predicate WrittenAs(q: Queue, s: Snapshot, outcome: Outcome) {
    && s.id in q.rows
    && var r := q.rows[s.id];
       && r.lockedUntil == None && r.lockedBy == None
       && match outcome
          case Accepted => r.status == Done
          case Permanent => r.status == Failed && r.attempts == s.attempts + 1
          case Transient(delay) =>
            && r.attempts == s.attempts + 1
            && if s.maxAttempts <= r.attempts then r.status == Failed else r.nextAttemptAt == q.now + delay
  }

  /** The batch follows the column, smallest first. */
  ghost predicate InOrder(q: Queue, batch: seq<Snapshot>, column: SortColumn) {
    && (forall s | s in batch :: s.id in q.rows)
    && forall i, j | 0 <= i < j < |batch| :: KeyOf(column, q.rows[batch[i].id]) <= KeyOf(column, q.rows[batch[j].id])
  }

  ghost predicate BeforeAll(q: Queue, batch: seq<Snapshot>, rest: set<Id>, column: SortColumn) {
    forall s, id | s in batch && s.id in q.rows && id in rest && id in q.rows ::
      KeyOf(column, q.rows[s.id]) <= KeyOf(column, q.rows[id])
  }

  ghost predicate ReadSoFar(q: Queue, ids: set<Id>, rest: set<Id>, batch: seq<Snapshot>, column: SortColumn) {
    && Distinct(batch) && BatchIds(batch) == ids - rest
    && (forall s | s in batch :: s.id in q.rows && s == SnapshotOf(q, s.id))
    && InOrder(q, batch, column) && BeforeAll(q, batch, rest, column)
  }

  lemma {:induction false} ReadOneMore(
      q: Queue, ids: set<Id>, rest: set<Id>, batch: seq<Snapshot>, column: SortColumn, id: Id)
    requires rest <= ids <= q.rows.Keys && ReadSoFar(q, ids, rest, batch, column)
    requires id in rest && forall other | other in rest :: KeyOf(column, q.rows[id]) <= KeyOf(column, q.rows[other])
    ensures ReadSoFar(q, ids, rest - {id}, batch + [SnapshotOf(q, id)], column)
  {
    AddSnapshot(batch, SnapshotOf(q, id));
    AddInOrder(q, batch, SnapshotOf(q, id), column);
  }

  lemma {:induction false} AddInOrder(q: Queue, batch: seq<Snapshot>, s: Snapshot, column: SortColumn)
    requires InOrder(q, batch, column) && s.id in q.rows && BeforeAll(q, batch, {s.id}, column)
    ensures InOrder(q, batch + [s], column)
  {
    forall i | 0 <= i < |batch| ensures KeyOf(column, q.rows[batch[i].id]) <= KeyOf(column, q.rows[s.id]) {
      assert batch[i] in batch;
    }
  }

  /** No matching row outside comes before one inside. */
  ghost predicate AreFirst(q: Queue, matching: set<Id>, ids: set<Id>, column: SortColumn) {
    forall x, y | x in ids && y in matching && y !in ids && x in q.rows && y in q.rows ::
      KeyOf(column, q.rows[x]) <= KeyOf(column, q.rows[y])
  }

  lemma {:induction false} FirstExists(q: Queue, ids: set<Id>, column: SortColumn) returns (first: Id)
    requires ids != {} && ids <= q.rows.Keys
    ensures first in ids && forall id | id in ids :: KeyOf(column, q.rows[first]) <= KeyOf(column, q.rows[id])
    decreases |ids|
  {
    first :| first in ids;
    if ids != {first} {
      var other := FirstExists(q, ids - {first}, column);
      if KeyOf(column, q.rows[other]) < KeyOf(column, q.rows[first]) {
        first := other;
      }
    }
  }

  method First(q: Queue, ids: set<Id>, column: SortColumn) returns (first: Id)
    requires ids != {} && ids <= q.rows.Keys
    ensures first in ids && forall id | id in ids :: KeyOf(column, q.rows[first]) <= KeyOf(column, q.rows[id])
  {
    ghost var witnessed := FirstExists(q, ids, column);
    first :| first in ids && forall id | id in ids :: KeyOf(column, q.rows[first]) <= KeyOf(column, q.rows[id]);
  }

  method TakeFirst(q: Queue, matching: set<Id>, limit: nat, column: SortColumn) returns (ids: set<Id>)
    requires matching <= q.rows.Keys
    ensures ids <= matching && |ids| == Backoff.Min(|matching|, limit) && AreFirst(q, matching, ids, column)
  {
    ids := {};
    var rest := matching;
    while rest != {} && |ids| < limit
      invariant ids !! rest && ids + rest == matching && |ids| + |rest| == |matching| && |ids| <= limit
      invariant AreFirst(q, matching, ids, column)
      decreases |rest|
    {
      var id := First(q, rest, column);
      ids, rest := ids + {id}, rest - {id};
    }
  }

  method TakeUpTo(matching: set<Id>, limit: nat) returns (ids: set<Id>)
    ensures ids <= matching && |ids| == Backoff.Min(|matching|, limit)
  {
    ids := {};
    var rest := matching;
    while rest != {} && |ids| < limit
      invariant ids !! rest && ids + rest == matching && |ids| + |rest| == |matching| && |ids| <= limit
      decreases |rest|
    {
      var id :| id in rest;
      ids, rest := ids + {id}, rest - {id};
    }
  }

  function BatchIds(batch: seq<Snapshot>): set<Id> { set s | s in batch :: s.id }

  ghost predicate Distinct(batch: seq<Snapshot>) {
    forall i, j | 0 <= i < j < |batch| :: batch[i].id != batch[j].id
  }

  function SnapshotOf(q: Queue, id: Id): Snapshot
    requires id in q.rows
  {
    Snapshot(id, q.rows[id].attempts, q.rows[id].maxAttempts)
  }

  function ClaimableIds(q: Queue, clock: Millis): set<Id> {
    set id | id in q.rows && Claimable(q.rows[id], clock)
  }

  /** Pending, due, and under no lease that still runs: the rows a claim at this time is meant to find. */
  function DueIds(q: Queue, clock: Millis): set<Id> {
    set id | id in q.rows && q.rows[id].status == Pending && q.rows[id].nextAttemptAt <= clock
             && (q.rows[id].lockedUntil == None || q.rows[id].lockedUntil.value < clock)
  }

  lemma {:induction false} ClaimFindsTheDue(q: Queue, clock: Millis)
    ensures ClaimableIds(q, clock) == DueIds(q, clock)
  {
  }

  function LockedIds(q: Queue, token: Id): set<Id> {
    set id | id in q.rows && q.rows[id].lockedBy == Some(token) && q.rows[id].status == Pending
  }

  /** An undisturbed claim: as many claimable rows as fit, stamped and read; nothing else changes. */
  ghost predicate ClaimedFrom(cfg: Config, was: Queue, q: Queue, limit: nat, token: Id, batch: seq<Snapshot>) {
    var lease := was.now + cfg.leaseMs;
    && BatchIds(batch) <= DueIds(was, was.now) && |batch| == Backoff.Min(|DueIds(was, was.now)|, limit)
    && (forall s | s in batch :: s.id in was.rows && s == SnapshotOf(was, s.id))
    && token !in was.claims
    && q == was.(rows := map id | id in was.rows ::
                           if id in BatchIds(batch)
                           then was.rows[id].(lockedUntil := Some(lease), lockedBy := Some(token))
                           else was.rows[id],
                 claims := was.claims[token := Claim(lease, Idle, batch)])
  }

  lemma {:induction false} QuietClaim(
      cfg: Config, was: Queue, ids: set<Id>, limit: nat, token: Id, batch: seq<Snapshot>)
    requires ids <= DueIds(was, was.now) && |ids| == Backoff.Min(|DueIds(was, was.now)|, limit)
    requires Allowed(cfg, was, Stamp(token, ids, was.now, was.now))
    requires var stamped := Step(cfg, was, Stamp(token, ids, was.now, was.now));
             && Allowed(cfg, stamped, Fetch(token, batch))
             && BatchIds(batch) == LockedIds(stamped, token) && |batch| == |LockedIds(stamped, token)|
    ensures BatchIds(batch) == ids
    ensures var claimed := Step(cfg, Step(cfg, was, Stamp(token, ids, was.now, was.now)), Fetch(token, batch));
            ClaimedFrom(cfg, was, claimed, limit, token, batch)
  {
    var stamped := Step(cfg, was, Stamp(token, ids, was.now, was.now));
    assert LockedIds(stamped, token) == ids;
    forall s | s in batch ensures s.id in was.rows && s == SnapshotOf(was, s.id) {
      assert s.id in BatchIds(batch);
    }
  }

  ghost predicate OldestFirst(was: Queue, batch: seq<Snapshot>) {
    && (forall s | s in batch :: s.id in was.rows)
    && (forall i, j | 0 <= i < j < |batch| :: was.rows[batch[i].id].createdAt <= was.rows[batch[j].id].createdAt)
    && (forall x, y | x in BatchIds(batch) && y in DueIds(was, was.now) && y !in BatchIds(batch) ::
          x in was.rows ==> was.rows[x].createdAt <= was.rows[y].createdAt)
  }

  ghost predicate SoonestFirst(was: Queue, batch: seq<Snapshot>) {
    && (forall s | s in batch :: s.id in was.rows)
    && (forall i, j | 0 <= i < j < |batch| ::
          was.rows[batch[i].id].nextAttemptAt <= was.rows[batch[j].id].nextAttemptAt)
    && (forall x, y | x in BatchIds(batch) && y in DueIds(was, was.now) && y !in BatchIds(batch) ::
          x in was.rows ==> was.rows[x].nextAttemptAt <= was.rows[y].nextAttemptAt)
  }

  /**
   * The claimed rows are the first of the due ones, and in order: the oldest, or those
   * whose attempt is due longest.
   */
  ghost predicate FirstInOrder(was: Queue, batch: seq<Snapshot>, column: SortColumn) {
    match column case CreatedAt => OldestFirst(was, batch) case NextAttemptAt => SoonestFirst(was, batch)
  }

  lemma {:induction false} StampKeepsOrder(
      cfg: Config, was: Queue, ids: set<Id>, column: SortColumn, token: Id, batch: seq<Snapshot>)
    requires Allowed(cfg, was, Stamp(token, ids, was.now, was.now)) && BatchIds(batch) == ids
    requires AreFirst(was, DueIds(was, was.now), ids, column)
    requires InOrder(Step(cfg, was, Stamp(token, ids, was.now, was.now)), batch, column)
    ensures FirstInOrder(was, batch, column)
  {
    var stamped := Step(cfg, was, Stamp(token, ids, was.now, was.now));
    forall id | id in was.rows ensures KeyOf(column, stamped.rows[id]) == KeyOf(column, was.rows[id]) {}
  }

  /** One row handled without disturbance: delivered, then marked. */
  function Handled(cfg: Config, q: Queue, token: Id, outcome: Outcome): Queue
    requires token in q.claims && q.claims[token].phase == Idle && q.claims[token].batch != []
  {
    Step(cfg, Step(cfg, q, Deliver(token, outcome)), Mark(token, q.now))
  }

  function AcceptedIds(batch: seq<Snapshot>, outcomes: seq<Outcome>): set<Id>
    requires |outcomes| <= |batch|
  {
    set k | 0 <= k < |outcomes| && outcomes[k] == Accepted :: batch[k].id
  }

  /**
   * The first |outcomes| rows of the batch are marked by their outcomes, having been
   * delivered once; every other row is as it was.
   */
  ghost predicate Delivered(was: Queue, q: Queue, batch: seq<Snapshot>, outcomes: seq<Outcome>) {
    && |outcomes| <= |batch| && q.now == was.now && q.rows.Keys == was.rows.Keys
    && MarkedRows(was, q, batch, outcomes)
    && OthersStay(was, q, BatchIds(batch[..|outcomes|]))
    && q.tries == TriedOnce(was, BatchIds(batch[..|outcomes|]))
    && q.accepted == was.accepted + AcceptedIds(batch, outcomes)
  }

  ghost predicate MarkedRows(was: Queue, q: Queue, batch: seq<Snapshot>, outcomes: seq<Outcome>)
    requires |outcomes| <= |batch| && q.rows.Keys == was.rows.Keys
  {
    forall k | 0 <= k < |outcomes| ::
      batch[k].id in was.rows && q.rows[batch[k].id] == Marked(was.rows[batch[k].id], batch[k], outcomes[k], was.now)
  }

  ghost predicate OthersStay(was: Queue, q: Queue, ids: set<Id>)
    requires q.rows.Keys == was.rows.Keys
  {
    forall id | id in was.rows && id !in ids :: q.rows[id] == was.rows[id]
  }

  function TriedOnce(was: Queue, ids: set<Id>): map<Id, nat> {
    map id | id in was.tries :: was.tries[id] + if id in ids then 1 else 0
  }

  lemma {:induction false} DeliveredOneMore(
      cfg: Config, was: Queue, q: Queue, token: Id, batch: seq<Snapshot>, outcomes: seq<Outcome>, outcome: Outcome)
    requires Distinct(batch) && |outcomes| < |batch| && Delivered(was, q, batch, outcomes)
             && batch[|outcomes|].id in was.rows
    requires token in q.claims && q.claims[token].phase == Idle && q.claims[token].batch == batch[|outcomes|..]
    ensures Delivered(was, Handled(cfg, q, token, outcome), batch, outcomes + [outcome])
  {
    assert q.claims[token].batch[0] == batch[|outcomes|];
    HandledIs(cfg, q, token, outcome);
    DeliveredByValue(was, q, Handled(cfg, q, token, outcome), batch, outcomes, outcome);
  }

  lemma {:induction false} DeliveredByValue(
      was: Queue, q: Queue, u: Queue, batch: seq<Snapshot>, outcomes: seq<Outcome>, outcome: Outcome)
    requires Distinct(batch) && |outcomes| < |batch| && Delivered(was, q, batch, outcomes)
             && batch[|outcomes|].id in was.rows
    requires var s := batch[|outcomes|];
             && u.now == q.now && u.rows == q.rows[s.id := Marked(q.rows[s.id], s, outcome, q.now)]
             && u.accepted == q.accepted + (if outcome == Accepted then {s.id} else {})
             && u.tries == if s.id in q.tries then q.tries[s.id := q.tries[s.id] + 1] else q.tries
    ensures Delivered(was, u, batch, outcomes + [outcome])
  {
    var done, s := BatchIds(batch[..|outcomes|]), batch[|outcomes|];
    OneMoreId(batch, |outcomes|);
    assert |outcomes + [outcome]| == |outcomes| + 1;
    assert BatchIds(batch[..|outcomes + [outcome]|]) == done + {s.id};
    OneMoreMarked(was, q, u, batch, outcomes, outcome);
    OneMoreOther(was, q, u, done, s.id);
    OneMoreAccepted(was.accepted, batch, outcomes, outcome);
  }

  lemma {:induction false} OneMoreMarked(
      was: Queue, q: Queue, u: Queue, batch: seq<Snapshot>, outcomes: seq<Outcome>, outcome: Outcome)
    requires Distinct(batch) && |outcomes| < |batch| && q.rows.Keys == was.rows.Keys && q.now == was.now
    requires MarkedRows(was, q, batch, outcomes) && OthersStay(was, q, BatchIds(batch[..|outcomes|]))
    requires var s := batch[|outcomes|];
             s.id in was.rows && u.rows == q.rows[s.id := Marked(q.rows[s.id], s, outcome, q.now)]
    ensures MarkedRows(was, u, batch, outcomes + [outcome])
  {
    OneMoreId(batch, |outcomes|);
  }

  lemma {:induction false} OneMoreOther(was: Queue, q: Queue, u: Queue, ids: set<Id>, id: Id)
    requires q.rows.Keys == was.rows.Keys && OthersStay(was, q, ids) && q.tries == TriedOnce(was, ids) && id !in ids
    requires id in q.rows && id in u.rows && u.rows == q.rows[id := u.rows[id]]
    requires u.tries == if id in q.tries then q.tries[id := q.tries[id] + 1] else q.tries
    ensures OthersStay(was, u, ids + {id}) && u.tries == TriedOnce(was, ids + {id})
  {
  }

  lemma {:induction false} OneMoreId(batch: seq<Snapshot>, n: nat)
    requires Distinct(batch) && n < |batch|
    ensures BatchIds(batch[..n + 1]) == BatchIds(batch[..n]) + {batch[n].id}
    ensures batch[n].id !in BatchIds(batch[..n])
  {
    assert batch[..n + 1] == batch[..n] + [batch[n]];
    AddSnapshot(batch[..n], batch[n]);
  }

  lemma {:induction false} OneMoreAccepted(
      accepted: set<Id>, batch: seq<Snapshot>, outcomes: seq<Outcome>, outcome: Outcome)
    requires |outcomes| < |batch|
    ensures accepted + AcceptedIds(batch, outcomes + [outcome]) ==
            accepted + AcceptedIds(batch, outcomes) + if outcome == Accepted then {batch[|outcomes|].id} else {}
  {
    var all := outcomes + [outcome];
    forall id | id in AcceptedIds(batch, outcomes) ensures id in AcceptedIds(batch, all) {
      var k :| 0 <= k < |outcomes| && outcomes[k] == Accepted && batch[k].id == id;
      assert all[k] == Accepted;
    }
    assert all[|outcomes|] == outcome;
  }

  /** The stamp leaves no trace on the rows that were handled. */
  lemma {:induction false} DeliveredFromClaim(
      cfg: Config, was: Queue, claimed: Queue, q: Queue, limit: nat, token: Id, batch: seq<Snapshot>,
      outcomes: seq<Outcome>)
    requires ClaimedFrom(cfg, was, claimed, limit, token, batch) && |outcomes| == |batch|
             && Delivered(claimed, q, batch, outcomes)
    ensures Delivered(was, q, batch, outcomes)
  {
    assert batch[..|outcomes|] == batch;
  }

  lemma {:induction false} HandledIs(cfg: Config, q: Queue, token: Id, outcome: Outcome)
    requires token in q.claims && q.claims[token].phase == Idle && q.claims[token].batch != []
             && q.claims[token].batch[0].id in q.rows
    ensures var u := Handled(cfg, q, token, outcome); var s := q.claims[token].batch[0];
            && u.now == q.now && u.rows == q.rows[s.id := Marked(q.rows[s.id], s, outcome, q.now)]
            && u.accepted == q.accepted + (if outcome == Accepted then {s.id} else {})
            && u.tries == if s.id in q.tries then q.tries[s.id := q.tries[s.id] + 1] else q.tries
  {
  }

  class OutboxRelayWorker {
    const database: Database
    const batchSize: nat
    const backoffBase: nat
    const backoffCap: nat
    ghost var published: seq<(Id, bool)>   // every publish so far, and whether it was confirmed

    constructor (database: Database, batchSize: nat, backoffBase: nat, backoffCap: nat)
      requires backoffBase >= 1 && backoffCap >= 1
      ensures this.database == database && this.batchSize == batchSize && published == []
      ensures this.backoffBase == backoffBase && this.backoffCap == backoffCap
    {
      this.database, this.batchSize, this.backoffBase, this.backoffCap := database, batchSize, backoffBase, backoffCap;
      published := [];
    }

    /** The broker confirms the message or does not. */
    method PublishWithConfirm(row: Snapshot) returns (confirmed: bool)
      modifies `published
      ensures published == old(published) + [(row.id, confirmed)]
    {
      confirmed := *;
      published := published + [(row.id, confirmed)];
    }

    /**
     * The row is published once. Confirmed, it is marked PUBLISHED; unconfirmed, or with
     * its mark lost, it is scheduled again by the backoff; a lost reschedule ends the tick.
     */
    method PublishRow(token: Id, row: Snapshot) returns (failed: bool, ghost outcome: Outcome, ghost written: Outcome)
      requires backoffBase >= 1 && backoffCap >= 1
      requires token in database.q.claims && database.q.claims[token].phase == Idle
      requires database.q.claims[token].batch != [] && database.q.claims[token].batch[0] == row
      modifies database, this`published
      ensures database.Advanced() && published == old(published) + [(row.id, outcome == Accepted)]
      ensures outcome.Accepted? || written == outcome
      ensures written.Accepted? || (written.Transient? && WithinBackoff(row, written.delay))
      ensures if failed then token !in database.q.claims else WrittenAs(database.q, row, written)
      ensures !failed ==>
                && token in database.q.claims && database.q.claims[token].phase == Idle
                && database.q.claims[token].batch == old(database.q).claims[token].batch[1..]
      ensures database.quiet && row.id in old(database.q).rows ==>
                !failed && written == outcome && database.q == Handled(database.cfg, old(database.q), token, outcome)
    {
      var delay := Backoff.DrawDelay(backoffBase, backoffCap, row.attempts + 1);
      var confirmed := PublishWithConfirm(row);
      outcome := if confirmed then Accepted else Transient(delay);
      written := outcome;
      database.Deliver(token, if confirmed then Accepted else Transient(delay));
      ghost var before := database.q;
      if confirmed {
        var lost := database.MarkDoneOrForget(token, delay);
        ReachesTrans(database.cfg, old(database.q), before, database.q);
        if !lost {
          return false, outcome, written;
        }
        written := Transient(delay);
        before := database.q;
        database.Yield({token});
        ReachesTrans(database.cfg, old(database.q), before, database.q);
        before := database.q;
      }
      failed := database.RetryOrEndTick(token, delay);
      ReachesTrans(database.cfg, old(database.q), before, database.q);
    }

    predicate WithinBackoff(row: Snapshot, delay: int) {
      0 <= delay < Backoff.Min(backoffCap, backoffBase * Backoff.Pow2(row.attempts))
    }

    /**
     * One tick: the batch is published in creation order, each row once. Undisturbed, the
     * batch holds the oldest claimable rows that fit, each is marked by the broker's answer,
     * and every other row is as it was.
     */
    method ProcessBatch() returns (failed: bool, claimed: nat, ghost batch: seq<Snapshot>, ghost outcomes: seq<Outcome>)
      requires backoffBase >= 1 && backoffCap >= 1
      modifies database, this`published
      ensures database.Advanced()
      ensures !failed ==> claimed == |batch| == |outcomes|
      ensures |outcomes| <= |batch|
              && |published| - |old(published)| == |outcomes| + if failed && batch != [] then 1 else 0
      ensures published[..|old(published)| + |outcomes|] == old(published) + Publishes(batch, outcomes)
      ensures database.quiet ==>
                var was := old(database.q);
                && !failed && Distinct(batch) && FirstInOrder(was, batch, CreatedAt)
                && BatchIds(batch) <= DueIds(was, was.now)
                && claimed == Backoff.Min(|DueIds(was, was.now)|, batchSize)
                && Delivered(was, database.q, batch, outcomes)
    {
      ghost var was := database.q;
      claimed, outcomes := 0, [];
      var token, rows;
      failed, token, rows := database.ClaimBatch(batchSize, CreatedAt);
      if failed {
        batch := [];
        assert published[..|published|] == published;
        return;
      }
      batch := rows;
      ghost var start := database.q;
      failed, outcomes := PublishAll(token, rows);
      ReachesTrans(database.cfg, was, start, database.q);
      claimed := if failed then 0 else |rows|;
      if database.quiet {
        DeliveredFromClaim(database.cfg, was, start, database.q, batchSize, token, rows, outcomes);
      }
    }

    method PublishAll(token: Id, rows: seq<Snapshot>) returns (failed: bool, ghost outcomes: seq<Outcome>)
      requires backoffBase >= 1 && backoffCap >= 1 && Distinct(rows)
      requires token in database.q.claims && database.q.claims[token].phase == Idle
               && database.q.claims[token].batch == rows
      modifies database, this`published
      ensures database.Advanced()
      ensures |outcomes| <= |rows| && (!failed ==> |outcomes| == |rows|) && (failed ==> rows != [])
      ensures |published| == |old(published)| + |outcomes| + if failed then 1 else 0
      ensures published[..|old(published)| + |outcomes|] == old(published) + Publishes(rows, outcomes)
      ensures database.quiet && BatchIds(rows) <= old(database.q).rows.Keys ==>
                !failed && Delivered(old(database.q), database.q, rows, outcomes)
    {
      ghost var was := database.q;
      ReachesSelf(database.cfg, was);
      failed, outcomes := false, [];
      NothingDelivered(was, rows);
      for i := 0 to |rows|
        invariant Reaches(database.cfg, was, database.q) && was.now <= database.q.now && !failed
        invariant token in database.q.claims && database.q.claims[token].phase == Idle
                  && database.q.claims[token].batch == rows[i..]
        invariant |outcomes| == i && published == old(published) + Publishes(rows, outcomes)
        invariant database.quiet && BatchIds(rows) <= was.rows.Keys ==> Delivered(was, database.q, rows, outcomes)
      {
        ghost var before, publishedBefore := database.q, published;
        ghost var outcome, written;
        assert rows[i] in rows && rows[i].id in BatchIds(rows);
        failed, outcome, written := PublishRow(token, rows[i]);
        ReachesTrans(database.cfg, was, before, database.q);
        if failed {
          assert published[..|publishedBefore|] == publishedBefore;
          return;
        }
        if database.quiet && BatchIds(rows) <= was.rows.Keys {
          DeliveredOneMore(database.cfg, was, before, token, rows, outcomes, outcome);
        }
        OneMorePublish(rows, outcomes, outcome);
        outcomes := outcomes + [outcome];
      }
      assert published[..|published|] == published;
    }
  }

  lemma {:induction false} NothingDelivered(was: Queue, batch: seq<Snapshot>)
    ensures Delivered(was, was, batch, [])
  {
    assert batch[..0] == [];
  }

  lemma {:induction false} OneMorePublish(batch: seq<Snapshot>, outcomes: seq<Outcome>, outcome: Outcome)
    requires |outcomes| < |batch|
    ensures Publishes(batch, outcomes + [outcome]) == Publishes(batch, outcomes) +
              [(batch[|outcomes|].id, outcome == Accepted)]
  {
  }

  /** One publish per handled row, in the batch's order. */
  function Publishes(batch: seq<Snapshot>, outcomes: seq<Outcome>): (r: seq<(Id, bool)>)
    requires |outcomes| <= |batch|
    ensures |r| == |outcomes|
  {
    seq(|outcomes|, k requires 0 <= k < |outcomes| => (batch[k].id, outcomes[k] == Accepted))
  }
}
