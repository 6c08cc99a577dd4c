/**
 * The notification sender as it runs: the relay's claim-deliver-mark loop plus the
 * circuit breaker's two fields. The ghost history `lived` is what the breaker's law
 * speaks about; every method keeps the fields equal to its replay.
 */
module NotificationSender {
  import opened Base
  import opened LeaseQueue
  import opened QueueWorkers
  import Backoff
  import B = Breaker

  datatype Answer = Sent | PermanentError | TransientError(retryAfter: Option<int>)

  function EventOf(outcome: Outcome, now: Millis): B.Event {
    match outcome
    case Accepted => B.Success
    case Permanent => B.Permanent
    case Transient(_) => B.Failure(now, now)
  }

  function EventsOf(outcomes: seq<Outcome>, now: Millis): seq<B.Event> {
    seq(|outcomes|, k requires 0 <= k < |outcomes| => EventOf(outcomes[k], now))
  }

  lemma {:induction false} EventsOfOneMore(outcomes: seq<Outcome>, outcome: Outcome, now: Millis)
    ensures EventsOf(outcomes + [outcome], now) == EventsOf(outcomes, now) + [EventOf(outcome, now)]
  {
  }

  /** The batch so far, with the history it added. */
  ghost predicate SentSoFar(
      was: Queue, q: Queue, batch: seq<Snapshot>, outcomes: seq<Outcome>, livedBefore: seq<B.Event>,
      lived: seq<B.Event>) {
    Delivered(was, q, batch, outcomes) && lived == livedBefore + EventsOf(outcomes, was.now)
  }

  lemma {:induction false} OneMoreSent(
      cfg: Config, was: Queue, q: Queue, token: Id, batch: seq<Snapshot>, outcomes: seq<Outcome>, outcome: Outcome,
      livedBefore: seq<B.Event>, lived: seq<B.Event>)
    requires Distinct(batch) && |outcomes| < |batch| && batch[|outcomes|].id in was.rows
    requires SentSoFar(was, q, batch, outcomes, livedBefore, lived)
    requires token in q.claims && q.claims[token].phase == Idle && q.claims[token].batch == batch[|outcomes|..]
    ensures SentSoFar(was, Handled(cfg, q, token, outcome), batch, outcomes + [outcome], livedBefore,
              lived + [EventOf(outcome, q.now)])
  {
    DeliveredOneMore(cfg, was, q, token, batch, outcomes, outcome);
    EventsOfOneMore(outcomes, outcome, was.now);
  }

  lemma {:induction false} OneMoreEvent(cfg: B.Config, h: seq<B.Event>, e: B.Event)
    requires B.WellTimed(cfg, h) && B.EventOk(B.Replay(cfg, h), e)
    ensures B.WellTimed(cfg, h + [e]) && B.Replay(cfg, h + [e]) == B.After(cfg, B.Replay(cfg, h), e)
  {
    assert (h + [e])[..|h|] == h;
  }

  lemma {:induction false} PauseEndIsNatural(cfg: B.Config, h: seq<B.Event>)
    requires B.WellTimed(cfg, h)
    ensures 0 <= B.Replay(cfg, h).pausedUntil
    decreases |h|
  {
    if B.Replay(cfg, h).pausedUntil != 0 {
      var k := B.PauseHasACause(cfg, h);
      B.PrefixIsWellTimed(cfg, h, k);
    }
  }

  class NotificationSenderWorker {
    const database: Database
    const breaker: B.Config
    const batchSize: nat
    const backoffBase: nat
    const backoffCap: nat
    var consecutiveTransient: nat
    var pausedUntil: Millis
    ghost var lived: seq<B.Event>
    ghost var answered: seq<(Id, Answer)>   // every send so far, with the provider's answer

    constructor (database: Database, breaker: B.Config, batchSize: nat, backoffBase: nat, backoffCap: nat)
      requires backoffBase >= 1 && backoffCap >= 1 && 0 <= database.q.now
      ensures Valid() && lived == [] && answered == []
      ensures this.database == database && this.breaker == breaker && this.batchSize == batchSize
    {
      this.database, this.breaker, this.batchSize := database, breaker, batchSize;
      this.backoffBase, this.backoffCap := backoffBase, backoffCap;
      consecutiveTransient, pausedUntil, lived, answered := 0, 0, [], [];
    }

    ghost predicate Valid()
      reads this, database
    {
      && backoffBase >= 1 && backoffCap >= 1 && 0 <= database.q.now
      && B.WellTimed(breaker, lived) && B.Replay(breaker, lived) == B.State(consecutiveTransient, pausedUntil)
    }

    predicate IsPaused()
      reads this, database
    {
      database.q.now < pausedUntil
    }

    method TripBreaker(ghost mine: set<Id>)
      requires Valid()
      modifies `consecutiveTransient, `pausedUntil, `lived, database
      ensures Valid() && database.Advanced()
      ensures forall token | token in mine && token in old(database.q).claims ::
                token in database.q.claims && database.q.claims[token] == old(database.q).claims[token]
      ensures |lived| == |old(lived)| + 1 && old(lived) < lived && lived[|lived| - 1].Failure?
      ensures database.quiet ==>
                database.q == old(database.q) && lived == old(lived) + [B.Failure(database.q.now, database.q.now)]
    {
      consecutiveTransient := consecutiveTransient + 1;
      var checked := database.q.now;
      ghost var paused := checked;
      if consecutiveTransient >= breaker.threshold && !(checked < pausedUntil) {
        database.Yield(mine);
        paused := database.q.now;
        pausedUntil := database.q.now + breaker.pauseMs;
      } else {
        ReachesSelf(database.cfg, database.q);
      }
      OneMoreEvent(breaker, lived, B.Failure(checked, paused));
      lived := lived + [B.Failure(checked, paused)];
    }

    method ResetBreaker()
      requires Valid()
      modifies `consecutiveTransient, `pausedUntil, `lived
      ensures Valid() && lived == old(lived) + [B.Success]
    {
      PauseEndIsNatural(breaker, lived);
      if consecutiveTransient > 0 || pausedUntil > 0 {
        consecutiveTransient, pausedUntil := 0, 0;
      }
      OneMoreEvent(breaker, lived, B.Success);
      lived := lived + [B.Success];
    }

    /** The provider's answer; rendering and recipient errors are permanent ones. */
    method Send(row: Snapshot) returns (answer: Answer)
      modifies `answered
      ensures answered == old(answered) + [(row.id, answer)]
    {
      answer := *;
      answered := answered + [(row.id, answer)];
    }

    predicate WithinBackoff(row: Snapshot, delay: int) {
      0 <= delay < Backoff.Min(backoffCap, backoffBase * Backoff.Pow2(row.attempts))
    }

    /** What an answer is taken as; a provider-suggested delay goes before the backoff. */
    predicate TakenAs(row: Snapshot, answer: Answer, outcome: Outcome) {
      match answer
      case Sent => outcome == Accepted
      case PermanentError => outcome == Permanent
      case TransientError(Some(retryAfter)) => outcome == Transient(retryAfter)
      case TransientError(None) => outcome.Transient? && WithinBackoff(row, outcome.delay)
    }

    /** The history grows by what was written: a success, a refusal, or a failure. */
    twostate predicate LivedOneMore(written: Outcome)
      reads this
    {
      && old(lived) < lived && |lived| == |old(lived)| + 1
      && var e := lived[|lived| - 1];
         (e.Success? <==> written.Accepted?) && (e.Permanent? <==> written.Permanent?)
           && (e.Failure? <==> written.Transient?)
    }

    /** The row is written and leaves the batch, or the tick has ended. */
    twostate predicate LeftBatch(token: Id, failed: bool, written: Outcome)
      requires token in old(database.q).claims && old(database.q).claims[token].batch != []
      reads database
    {
      if failed then token !in database.q.claims else
      && token in database.q.claims && database.q.claims[token].phase == Idle
      && database.q.claims[token].batch == old(database.q).claims[token].batch[1..]
      && WrittenAs(database.q, old(database.q).claims[token].batch[0], written)
    }

    method FailRow(token: Id, delay: int) returns (failed: bool)
      requires Valid()
      requires token in database.q.claims && database.q.claims[token].phase == LeaseQueue.Sent(Transient(delay))
      requires database.q.claims[token].batch != []
      modifies `consecutiveTransient, `pausedUntil, `lived, database
      ensures Valid() && database.Advanced() && LivedOneMore(Transient(delay))
              && LeftBatch(token, failed, Transient(delay))
      ensures database.quiet && old(database.q).claims[token].batch[0].id in old(database.q).rows ==>
                && !failed && lived == old(lived) + [B.Failure(old(database.q).now, old(database.q).now)]
                && database.q == Step(database.cfg, old(database.q), Mark(token, old(database.q).now))
    {
      TripBreaker({token});
      ghost var before := database.q;
      failed := database.RetryOrEndTick(token, delay);
      ReachesTrans(database.cfg, old(database.q), before, database.q);
    }

    /** What one row's send does to the row, the batch and the history. */
    twostate predicate RowSent(token: Id, failed: bool, outcome: Outcome, written: Outcome)
      requires token in old(database.q).claims && old(database.q).claims[token].batch != []
      requires old(database.q).claims[token].phase == Idle
      reads this, database
    {
      && (outcome.Accepted? || written == outcome)
      && LivedOneMore(written) && LeftBatch(token, failed, written)
      && (database.quiet && old(database.q).claims[token].batch[0].id in old(database.q).rows ==>
            && !failed && written == outcome && database.q == Handled(database.cfg, old(database.q), token, outcome)
            && lived == old(lived) + [EventOf(outcome, old(database.q).now)])
    }

    /** Marked SENT, and the breaker closes; a lost mark counts as a failed send. */
    method AcceptRow(token: Id, delay: int) returns (failed: bool, ghost written: Outcome)
      requires Valid()
      requires token in database.q.claims && database.q.claims[token].phase == Idle
               && database.q.claims[token].batch != []
      modifies `consecutiveTransient, `pausedUntil, `lived, database
      ensures Valid() && database.Advanced() && RowSent(token, failed, Accepted, written)
      ensures written == Accepted || written == Transient(delay)
    {
      database.Deliver(token, Accepted);
      ghost var before := database.q;
      var lost := database.MarkDoneOrForget(token, delay);
      ReachesTrans(database.cfg, old(database.q), before, database.q);
      failed, written := false, Accepted;
      if !lost {
        ResetBreaker();
      } else {
        before, written := database.q, Transient(delay);
        failed := FailRow(token, delay);
        ReachesTrans(database.cfg, old(database.q), before, database.q);
      }
    }

    /** Marked FAILED for good; the breaker is left alone. */
    method RefuseRow(token: Id) returns (failed: bool)
      requires Valid()
      requires token in database.q.claims && database.q.claims[token].phase == Idle
               && database.q.claims[token].batch != []
      modifies `consecutiveTransient, `pausedUntil, `lived, database
      ensures Valid() && database.Advanced() && RowSent(token, failed, Permanent, Permanent)
    {
      database.Deliver(token, Permanent);
      ghost var before := database.q;
      OneMoreEvent(breaker, lived, B.Permanent);
      lived := lived + [B.Permanent];
      failed := database.RefuseOrEndTick(token);
      ReachesTrans(database.cfg, old(database.q), before, database.q);
    }

    /** The breaker counts a failure, and the row is scheduled again or has used up its attempts. */
    method RetryRow(token: Id, delay: int) returns (failed: bool)
      requires Valid()
      requires token in database.q.claims && database.q.claims[token].phase == Idle
               && database.q.claims[token].batch != []
      modifies `consecutiveTransient, `pausedUntil, `lived, database
      ensures Valid() && database.Advanced() && RowSent(token, failed, Transient(delay), Transient(delay))
    {
      database.Deliver(token, Transient(delay));
      ghost var before := database.q;
      failed := FailRow(token, delay);
      ReachesTrans(database.cfg, old(database.q), before, database.q);
    }

    /**
     * One send, and what its answer leads to: SENT and a closed breaker; FAILED for good;
     * or one more failure and another attempt, which a lost SENT mark gets as well.
     */
    method SendRow(token: Id, row: Snapshot) returns (failed: bool, ghost outcome: Outcome, ghost written: Outcome)
      requires Valid()
      requires token in database.q.claims && database.q.claims[token].phase == Idle
      requires database.q.claims[token].batch != [] && database.q.claims[token].batch[0] == row
      modifies this, database
      ensures Valid() && database.Advanced() && RowSent(token, failed, outcome, written)
      ensures written == outcome || (written.Transient? && WithinBackoff(row, written.delay))
      ensures AnsweredAs(old(answered), answered, [row], [outcome])
    {
      var answer := Send(row);
      var delay := Backoff.DrawDelay(backoffBase, backoffCap, row.attempts + 1);
      match answer
      case Sent =>
        outcome := Accepted;
        failed, written := AcceptRow(token, delay);
      case PermanentError =>
        outcome, written := Permanent, Permanent;
        failed := RefuseRow(token);
      case TransientError(retryAfter) =>
        outcome := Transient(retryAfter.GetOr(delay));
        written := outcome;
        failed := RetryRow(token, retryAfter.GetOr(delay));
    }

    /** One send per handled row, in the batch's order, each outcome as it was answered. */
    ghost predicate AnsweredAs(
        before: seq<(Id, Answer)>, after: seq<(Id, Answer)>, batch: seq<Snapshot>, outcomes: seq<Outcome>) {
      && |outcomes| <= |batch| && |after| == |before| + |outcomes| && before <= after
      && forall k | 0 <= k < |outcomes| ::
           after[|before| + k].0 == batch[k].id && TakenAs(batch[k], after[|before| + k].1, outcomes[k])
    }

    method ProcessBatch() returns (failed: bool, claimed: nat, ghost batch: seq<Snapshot>, ghost outcomes: seq<Outcome>)
      requires Valid()
      modifies this, database
      ensures Valid() && database.Advanced() && old(lived) <= lived
              && |lived| - |old(lived)| == |answered| - |old(answered)|
      ensures AnsweredAs(old(answered), answered, batch, outcomes)
      ensures !failed ==> claimed == |batch| == |outcomes|
      ensures database.quiet ==>
                var was := old(database.q);
                && !failed && Distinct(batch) && FirstInOrder(was, batch, NextAttemptAt)
                && BatchIds(batch) <= DueIds(was, was.now)
                && claimed == Backoff.Min(|DueIds(was, was.now)|, batchSize)
                && Delivered(was, database.q, batch, outcomes) && lived == old(lived) + EventsOf(outcomes, was.now)
    {
      ghost var was := database.q;
      claimed, outcomes := 0, [];
      var token, rows;
      failed, token, rows := database.ClaimBatch(batchSize, NextAttemptAt);
      batch := rows;
      if failed {
        return;
      }
      ghost var start := database.q;
      failed, outcomes := SendAll(token, rows);
      ReachesTrans(database.cfg, was, start, database.q);
      claimed := if failed then 0 else |rows|;
      if database.quiet {
        DeliveredFromClaim(database.cfg, was, start, database.q, batchSize, token, rows, outcomes);
      }
    }

    method SendAll(token: Id, rows: seq<Snapshot>) returns (failed: bool, ghost outcomes: seq<Outcome>)
      requires Valid() && Distinct(rows)
      requires token in database.q.claims && database.q.claims[token].phase == Idle
               && database.q.claims[token].batch == rows
      modifies this, database
      ensures Valid() && database.Advanced() && old(lived) <= lived
              && |lived| - |old(lived)| == |answered| - |old(answered)|
      ensures AnsweredAs(old(answered), answered, rows, outcomes) && (!failed ==> |outcomes| == |rows|)
      ensures database.quiet && BatchIds(rows) <= old(database.q).rows.Keys ==>
                !failed && SentSoFar(old(database.q), database.q, rows, outcomes, old(lived), lived)
    {
      ghost var was, livedBefore, answeredBefore := database.q, lived, answered;
      ReachesSelf(database.cfg, was);
      NothingDelivered(was, rows);
      failed, outcomes := false, [];
      for i := 0 to |rows|
        invariant Valid() && livedBefore <= lived && |lived| - |livedBefore| == |answered| - |answeredBefore|
        invariant Reaches(database.cfg, was, database.q) && was.now <= database.q.now && !failed
        invariant token in database.q.claims && database.q.claims[token].phase == Idle
                  && database.q.claims[token].batch == rows[i..]
        invariant |outcomes| == i && AnsweredAs(answeredBefore, answered, rows, outcomes)
        invariant database.quiet && BatchIds(rows) <= was.rows.Keys ==>
                    SentSoFar(was, database.q, rows, outcomes, livedBefore, lived)
      {
        ghost var before, livedAt, answeredAt := database.q, lived, answered;
        ghost var outcome, written;
        assert rows[i] in rows && rows[i].id in BatchIds(rows);
        failed, outcome, written := SendRow(token, rows[i]);
        ReachesTrans(database.cfg, was, before, database.q);
        AnsweredOneMore(answeredBefore, answeredAt, answered, rows, outcomes, outcome);
        if database.quiet && BatchIds(rows) <= was.rows.Keys {
          OneMoreSent(database.cfg, was, before, token, rows, outcomes, outcome, livedBefore, livedAt);
        }
        outcomes := outcomes + [outcome];
        if failed {
          return;
        }
      }
    }

    lemma {:induction false} AnsweredOneMore(
        before: seq<(Id, Answer)>, at: seq<(Id, Answer)>, after: seq<(Id, Answer)>, batch: seq<Snapshot>,
        outcomes: seq<Outcome>, outcome: Outcome)
      requires |outcomes| < |batch| && AnsweredAs(before, at, batch, outcomes)
               && AnsweredAs(at, after, [batch[|outcomes|]], [outcome])
      ensures AnsweredAs(before, after, batch, outcomes + [outcome])
    {
      assert after[|at|] == after[|at| + 0];
    }

    /**
     * One tick. Undisturbed: a paused sender does nothing; otherwise a batch starts now,
     * and the history grows by it and by what its sends lived through. A tick that fails
     * outside a single send counts as one more failure.
     */
    method RunTick() returns (claimed: nat, ghost batch: seq<Snapshot>, ghost outcomes: seq<Outcome>)
      requires Valid()
      modifies this, database
      ensures Valid() && database.Advanced() && old(lived) <= lived
      ensures database.quiet && old(IsPaused()) ==> claimed == 0 && database.q == old(database.q) && lived == old(lived)
      ensures database.quiet && !old(IsPaused()) ==>
                var was := old(database.q);
                && Distinct(batch) && FirstInOrder(was, batch, NextAttemptAt)
                && BatchIds(batch) <= DueIds(was, was.now)
                && claimed == Backoff.Min(|DueIds(was, was.now)|, batchSize)
                && Delivered(was, database.q, batch, outcomes)
                && lived == old(lived) + [B.Batch(was.now)] + EventsOf(outcomes, was.now)
    {
      claimed, batch, outcomes := 0, [], [];
      ghost var was := database.q;
      database.Yield({});
      var failed := database.Faults();
      if !failed {
        if IsPaused() {
          return;
        }
        OneMoreEvent(breaker, lived, B.Batch(database.q.now));
        lived := lived + [B.Batch(database.q.now)];
        ghost var before := database.q;
        failed, claimed, batch, outcomes := ProcessBatch();
        ReachesTrans(database.cfg, was, before, database.q);
      }
      if failed {
        ghost var before := database.q;
        TripBreaker({});
        ReachesTrans(database.cfg, was, before, database.q);
        claimed := 0;
      }
    }
  }
}
