/**
 * Recovery tooling: resets FAILED queue rows in bounded batches, and shovels the
 * order consumer's dead-letter queue back to its exchange.
 */
module Redrive {
  import opened Base
  import L = LeaseQueue
  import W = QueueWorkers
  import C = Consumer
  import N = NotificationConsumer
  import R = Retention
  import Backoff

  type Id = nat

  /** WHERE status = 'FAILED' AND the filter on columns that never change. */
  function FailedIds(q: L.Queue, selected: Id -> bool): set<Id> {
    set id | id in q.rows && q.rows[id].status == L.Failed && selected(id)
  }

  function DlqIds(s: C.State): set<nat> { set i | 0 <= i < |s.insts| && s.insts[i].place == C.Dlq }

  /** What a dry run reports: every message goes back before the next get, so the oldest is got again. */
  function DryRunCount(s: C.State, bound: nat): nat { if DlqIds(s) == {} then 0 else bound }

  /** The report is the number of dead letters a redrive would move exactly when the limit does not exceed the queue. */
  lemma {:induction false} DryRunCountsIff(s: C.State, bound: nat)
    ensures DryRunCount(s, bound) == Backoff.Min(|DlqIds(s)|, bound) <==> DlqIds(s) == {} || bound <= |DlqIds(s)|
  {
  }

  /** One dead letter, reported twice. */
  lemma {:induction false} DryRunOvercounts(msg: C.Message) returns (s: C.State)
    ensures |DlqIds(s)| == 1 && DryRunCount(s, 2) == 2
  {
    s := C.State(0, [C.Instance(msg, C.Dlq, 0)], map[], map[], []);
    assert DlqIds(s) == {0};
  }

  /** Two redrives in the same millisecond are one. */
  lemma {:induction false} RedriveTwice(cfg: L.Config, q: L.Queue, a: set<Id>, b: set<Id>, clock: L.Millis)
    requires L.Allowed(cfg, q, L.Redrive(a, clock))
    requires L.Allowed(cfg, L.Step(cfg, q, L.Redrive(a, clock)), L.Redrive(b, clock))
    ensures L.Allowed(cfg, q, L.Redrive(a + b, clock)) && a !! b
    ensures L.Step(cfg, L.Step(cfg, q, L.Redrive(a, clock)), L.Redrive(b, clock)) ==
              L.Step(cfg, q, L.Redrive(a + b, clock))
  {
    var once := L.Step(cfg, q, L.Redrive(a, clock));
    forall id | id in b ensures id !in a && id in q.rows && q.rows[id].status == L.Failed {
      assert id in once.rows && once.rows[id].status == L.Failed;
    }
  }

  class RedriveService {
    constructor () {}

    /** UPDATE ... SET status = 'PENDING', attempts = 0, ... WHERE ... LIMIT. */
    method ResetBatch(database: W.Database, selected: Id -> bool, limit: nat, clock: L.Millis)
      returns (affected: nat, ghost ids: set<Id>)
      requires clock <= database.q.now
      modifies database
      ensures ids <= FailedIds(old(database.q), selected)
              && affected == |ids| == Backoff.Min(|FailedIds(old(database.q), selected)|, limit)
      ensures L.Allowed(database.cfg, old(database.q), L.Redrive(ids, clock))
      ensures database.q == L.Step(database.cfg, old(database.q), L.Redrive(ids, clock))
    {
      var chosen := W.TakeUpTo(
        (set id | id in database.q.rows && database.q.rows[id].status == L.Failed && selected(id)), limit);
      ids := chosen;
      affected := |chosen|;
      var q := database.q;
      database.q := q.(
        rows := map id | id in q.rows ::
          if id in chosen then q.rows[id].(status := L.Pending, attempts := 0, nextAttemptAt := clock,
               lockedUntil := None, lockedBy := None)
          else q.rows[id],
        rejected := q.rejected - chosen,
        tries := map id | id in q.tries :: if id in chosen then 0 else q.tries[id]);
    }

    method ResetNext(
        database: W.Database, selected: Id -> bool, limit: nat, clock: L.Millis, ghost was: L.Queue,
        ghost done: set<Id>)
      returns (affected: nat, ghost ids: set<Id>)
      requires clock <= database.q.now && L.Reaches(database.cfg, was, database.q)
      requires database.quiet ==> Undisturbed(database.cfg, was, database.q, selected, done, clock)
      modifies database
      ensures L.Reaches(database.cfg, was, database.q) && database.q.now == old(database.q).now
      ensures database.quiet ==>
                && Undisturbed(database.cfg, was, database.q, selected, ids, clock)
                && |ids| == |done| + affected && affected == Backoff.Min(|FailedIds(was, selected)| - |done|, limit)
    {
      ghost var now;
      affected, now := ResetBatch(database, selected, limit, clock);
      L.ReachesStep(database.cfg, was, old(database.q), L.Redrive(now, clock));
      if database.quiet {
        OneMoreBatch(database.cfg, was, old(database.q), selected, done, now, clock);
      }
      ids := done + now;
    }

    /**
     * Resets FAILED rows only, each at most once per batch. Undisturbed it resets
     * min(matching, batchSize * maxBatches) rows, in effect in one step, and leaves no
     * match if it stops early. A dry run counts and changes nothing.
     */
    method RedriveFailedRows(database: W.Database, selected: Id -> bool, dryRun: bool, batchSize: nat, maxBatches: nat)
      returns (matched: nat, redriven: nat, ghost ids: set<Id>)
      modifies database
      ensures database.Advanced()
      ensures dryRun ==>
                database.q == old(database.q) && redriven == 0 && matched == |FailedIds(old(database.q), selected)|
      ensures !dryRun ==> matched == 0
      ensures database.quiet && !dryRun ==>
                var was := old(database.q);
                && ids <= FailedIds(was, selected)
                && redriven == |ids| == Backoff.Min(|FailedIds(was, selected)|, batchSize * maxBatches)
                && L.Allowed(database.cfg, was, L.Redrive(ids, was.now))
                && database.q == L.Step(database.cfg, was, L.Redrive(ids, was.now))
                && (redriven < batchSize * maxBatches ==> FailedIds(database.q, selected) == {})
    {
      ids := {};
      matched, redriven := 0, 0;
      ghost var was := database.q;
      L.ReachesSelf(database.cfg, was);
      if dryRun {
        matched := |set id | id in database.q.rows && database.q.rows[id].status == L.Failed && selected(id)|;
        return;
      }
      var clock := database.q.now;
      assert L.Step(database.cfg, was, L.Redrive({}, clock)) == was;
      var batch := 0;
      while batch < maxBatches
        invariant batch <= maxBatches && L.Reaches(database.cfg, was, database.q) && clock <= database.q.now
        invariant database.quiet ==> Undisturbed(database.cfg, was, database.q, selected, ids, clock)
        invariant database.quiet ==> redriven == |ids| == batchSize * batch
      {
        var affected;
        affected, ids := ResetNext(database, selected, batchSize, clock, was, ids);
        R.FullBatch(batchSize, batch, maxBatches);
        redriven := redriven + affected;
        if affected < batchSize {
          return;
        }
        label updated:
        database.Yield({});
        L.ReachesTrans(database.cfg, was, old@updated(database.q), database.q);
        batch := batch + 1;
      }
    }

    /** channel.get on the dead-letter queue: its oldest message, if any. */
    method Get(backend: N.Backend) returns (i: Option<nat>)
      ensures i.None? <==> DlqIds(backend.s) == {}
      ensures i.Some? ==> i.value in DlqIds(backend.s) && forall k | k in DlqIds(backend.s) :: i.value <= k
    {
      var k := 0;
      while k < |backend.s.insts| && backend.s.insts[k].place != C.Dlq
        invariant k <= |backend.s.insts| && forall j | 0 <= j < k :: backend.s.insts[j].place != C.Dlq
      {
        k := k + 1;
      }
      if k < |backend.s.insts| {
        assert k in DlqIds(backend.s);
        i := Some(k);
      } else {
        i := None;
      }
    }

    /**
     * Undisturbed, the shovel moves min(limit, dead letters) messages, oldest first, each
     * replaced by a copy in the main queue before it is acknowledged. A dry run puts every
     * message back before it gets the next, so it inspects the same oldest message over
     * and over: its count is the limit whenever the queue is not empty.
     */
    method RedriveConsumerDlq(backend: N.Backend, limit: int, dryRun: bool)
      returns (failed: bool, inspected: nat, redriven: nat, ghost moved: set<nat>)
      modifies backend
      ensures backend.Advanced()
      ensures dryRun ==> redriven == 0
      ensures backend.quiet ==>
                var was := old(backend.s);
                var bound := if limit < 0 then 0 else limit;
                && !failed
                && (dryRun ==> backend.s == was && inspected == DryRunCount(was, bound))
                && (!dryRun ==>
                      && redriven == inspected == |moved| == Backoff.Min(|DlqIds(was)|, bound)
                      && Shovelled(was, backend.s, moved))
    {
      ghost var was := backend.s;
      C.ReachesSelf(backend.cfg, was);
      NothingShovelled(was);
      failed, inspected, redriven, moved := false, 0, 0, {};
      var bound := if limit < 0 then 0 else limit;
      for i := 0 to bound
        invariant C.Reaches(backend.cfg, was, backend.s)
        invariant dryRun ==> redriven == 0
        invariant backend.quiet && dryRun ==> backend.s == was && inspected == i && (i > 0 ==> DlqIds(was) != {})
        invariant backend.quiet && !dryRun ==> redriven == inspected == |moved| == i && Shovelled(was, backend.s, moved)
      {
        var head := Get(backend);
        if head.None? {
          return;
        }
        inspected := inspected + 1;
        if !dryRun {
          failed := backend.Faults();
          if failed {
            return;
          }
          // The copy is confirmed; the ack may still be lost with the channel.
          failed := backend.Faults();
          ghost var before := backend.s;
          backend.Act(was, C.Redrive(head.value, !failed));
          if failed {
            return;
          }
          if backend.quiet {
            ShovelOne(backend.cfg, was, before, moved, head.value);
          }
          redriven, moved := redriven + 1, moved + {head.value};
        }
        label handled:
        backend.Yield(0);
        C.ReachesTrans(backend.cfg, was, old@handled(backend.s), backend.s);
      }
    }
  }

  /** A moved dead letter stands behind a copy of itself in the main queue; any other instance is as it was. */
  ghost predicate InstMoved(was: C.State, s: C.State, moved: set<nat>, i: nat)
    requires i < |was.insts| <= |s.insts|
  {
    if i in moved then
      && s.insts[i].place.Redriven? && s.insts[i].msg == was.insts[i].msg
      && |was.insts| <= s.insts[i].place.copy < |s.insts|
      && s.insts[s.insts[i].place.copy] == was.insts[i].(place := C.Main)
    else s.insts[i] == was.insts[i]
  }

  ghost predicate Shovelled(was: C.State, s: C.State, moved: set<nat>) {
    && moved <= DlqIds(was) && |s.insts| == |was.insts| + |moved|
    && s.processed == was.processed && s.log == was.log && s.handlers == was.handlers
    && (forall i | 0 <= i < |was.insts| :: InstMoved(was, s, moved, i))
    && (forall k | |was.insts| <= k < |s.insts| :: s.insts[k].place == C.Main)
    && DlqIds(s) == DlqIds(was) - moved && |DlqIds(s)| + |moved| == |DlqIds(was)|
  }

  lemma {:induction false} ShovelOne(cfg: C.Config, was: C.State, s: C.State, moved: set<nat>, i: nat)
    requires Shovelled(was, s, moved) && i in DlqIds(s)
    ensures Shovelled(was, C.Step(cfg, s, C.Redrive(i, true)), moved + {i}) && i !in moved
  {
    var u := C.Step(cfg, s, C.Redrive(i, true));
    assert i in DlqIds(was) && i !in moved;
    forall k | 0 <= k < |was.insts| ensures InstMoved(was, u, moved + {i}, k) {
      assert InstMoved(was, s, moved, k);
    }
    assert DlqIds(u) == DlqIds(s) - {i};
  }

  lemma {:induction false} NothingShovelled(s: C.State)
    ensures Shovelled(s, s, {})
  {
  }

  ghost predicate Undisturbed(
      cfg: L.Config, was: L.Queue, q: L.Queue, selected: Id -> bool, ids: set<Id>, clock: L.Millis) {
    && ids <= FailedIds(was, selected) && FailedIds(q, selected) == FailedIds(was, selected) - ids
    && |FailedIds(q, selected)| == |FailedIds(was, selected)| - |ids|
    && L.Allowed(cfg, was, L.Redrive(ids, clock)) && q == L.Step(cfg, was, L.Redrive(ids, clock))
  }

  lemma {:induction false} OneMoreBatch(
      cfg: L.Config, was: L.Queue, q: L.Queue, selected: Id -> bool, ids: set<Id>, now: set<Id>, clock: L.Millis)
    requires Undisturbed(cfg, was, q, selected, ids, clock) && now <= FailedIds(q, selected)
    requires L.Allowed(cfg, q, L.Redrive(now, clock))
    ensures Undisturbed(cfg, was, L.Step(cfg, q, L.Redrive(now, clock)), selected, ids + now, clock)
    ensures |ids + now| == |ids| + |now|
  {
    var u := L.Step(cfg, q, L.Redrive(now, clock));
    RedriveTwice(cfg, was, ids, now, clock);
    assert FailedIds(u, selected) == FailedIds(q, selected) - now;
    assert FailedIds(q, selected) == FailedIds(u, selected) + now;
  }
}
