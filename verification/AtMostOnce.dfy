/**
 * What the fenced reservation protocol guarantees on every run: one order per
 * reservation row, one answer per key while the row lives, and nothing reclaimed
 * or swept too early.
 */
module AtMostOnce {
  import opened Base
  import opened Idempotency

  /**
   * Two orders committed under reservations come from different rows. If the rows
   * are of the same user and key, the first had expired, at least the retention
   * period after it was last acquired, and had been swept before the second was inserted.
   */
  lemma {:induction false} OneOrderPerReservation(cfg: Config, start: Table, acts: seq<Action>, i: nat, j: nat)
    requires Init(cfg, start) && AllowedRun(cfg, start, acts)
    requires i < j < |Run(cfg, start, acts).commits|
    ensures var t := Run(cfg, start, acts);
            var c, d := t.commits[i], t.commits[j];
            && c.row != d.row && c.order != d.order
            && c.row in t.births && d.row in t.births
            && (t.births[c.row].user == t.births[d.row].user && t.births[c.row].key == t.births[d.row].key ==>
                  && c.row in t.tombs
                  && AcquiredOf(t.tombs[c.row].row) + cfg.retentionMs <= t.tombs[c.row].row.expiresAt
                  && t.tombs[c.row].row.expiresAt < t.births[d.row].at)
  {
    InitKeepsInv(cfg, start);
    RunIsLater(cfg, start, acts);
    var t := Run(cfg, start, acts);
    var c, d := t.commits[i], t.commits[j];
    assert c in t.commits && d in t.commits;
    assert Apart(t, c, d) && CommitOk(t, c) && CommitOk(t, d) && RowOk(cfg, t, c.row);
  }

  /** A stored row is COMPLETED exactly when an order was committed under it, and it answers with that commit. */
  lemma {:induction false} CommittedIffCompleted(cfg: Config, start: Table, acts: seq<Action>, id: Id)
    requires Init(cfg, start) && AllowedRun(cfg, start, acts)
    requires id in Run(cfg, start, acts).rows
    ensures var t := Run(cfg, start, acts);
            && (t.rows[id].status == Completed <==> exists c :: c in t.commits && c.row == id)
            && (forall c | c in t.commits && c.row == id :: ReplayOf(t.rows[id]) == c.response)
            && (forall c, d | c in t.commits && d in t.commits && c.row == id && d.row == id :: c == d)
  {
    InitKeepsInv(cfg, start);
    RunIsLater(cfg, start, acts);
    var t := Run(cfg, start, acts);
    assert RowOk(cfg, t, id);
    assert Last(t, id) == t.rows[id];
    if t.rows[id].status == Completed {
      assert Committed(t, id);
    }
    forall c | c in t.commits && c.row == id
      ensures t.rows[id].status == Completed && ReplayOf(t.rows[id]) == c.response
    {
      assert CommitOk(t, c);
    }
    forall c, d | c in t.commits && d in t.commits && c.row == id && d.row == id ensures c == d {
      var i :| 0 <= i < |t.commits| && t.commits[i] == c;
      var j :| 0 <= j < |t.commits| && t.commits[j] == d;
      CommitsDiffer(t, i, j);
    }
  }

  lemma {:induction false} CommitsDiffer(t: Table, i: nat, j: nat)
    requires CommitsOk(t) && i < |t.commits| && j < |t.commits|
    ensures t.commits[i].row == t.commits[j].row ==> i == j
  {
    assert i < j ==> Apart(t, t.commits[i], t.commits[j]);
    assert j < i ==> Apart(t, t.commits[j], t.commits[i]);
  }

  /**
   * Once committed, the row under that key is the only one, never changes until it
   * is swept, and every later request judges it the same way: the commit's own
   * response for the same request, a mismatch for any other.
   */
  lemma {:induction false} OneAnswerUntilSwept(
      cfg: Config, t: Table, c: Commit, acts: seq<Action>, fingerprint: string, clock: Millis)
    requires Inv(cfg, t) && c in t.commits && c.row in t.rows && AllowedRun(cfg, t, acts)
    requires c.row in Run(cfg, t, acts).rows
    ensures var u := Run(cfg, t, acts);
            && u.rows[c.row] == t.rows[c.row]
            && Judge(cfg, u.rows[c.row], fingerprint, clock)
               == (if fingerprint == t.births[c.row].fingerprint then ReplayWith(c.response) else Mismatch)
            && (forall id | id in u.rows && SameKey(u.rows[id], u.rows[c.row].user, u.rows[c.row].key) :: id == c.row)
  {
    RunIsLater(cfg, t, acts);
    var u := Run(cfg, t, acts);
    assert CommitOk(t, c) && RowOk(cfg, t, c.row);
    forall id | id in u.rows && SameKey(u.rows[id], u.rows[c.row].user, u.rows[c.row].key) ensures id == c.row {
      assert !Clash(u, id, c.row);
    }
  }

  lemma {:induction false} RunOne(cfg: Config, t: Table, a: Action, rest: seq<Action>)
    requires Allowed(cfg, t, a) && AllowedRun(cfg, Step(cfg, t, a), rest)
    ensures AllowedRun(cfg, t, [a] + rest) && Run(cfg, t, [a] + rest) == Run(cfg, Step(cfg, t, a), rest)
  {
    assert ([a] + rest)[1..] == rest;
  }

  // ---- reclaim and retention ----

  /** Sweeping takes a reservation in progress only once it could have been reclaimed anyway. */
  ghost predicate SweepSparesLiveReservations(cfg: Config) {
    forall start: Table, acts, ids, cutoff, id {:trigger Sweeping(cfg, start, acts, ids, cutoff, id)} ::
      Sweeping(cfg, start, acts, ids, cutoff, id) ==> IsReclaimable(cfg, Run(cfg, start, acts).rows[id], cutoff)
  }

  ghost predicate Sweeping(cfg: Config, start: Table, acts: seq<Action>, ids: set<Id>, cutoff: Millis, id: Id) {
    && Init(cfg, start) && AllowedRun(cfg, start, acts)
    && Allowed(cfg, Run(cfg, start, acts), Sweep(ids, cutoff))
    && id in ids && Run(cfg, start, acts).rows[id].status == Processing
  }

  /** That holds in every reachable state exactly when the reclaim window fits in the retention window. */
  lemma {:induction false} SweepSafeIffReclaimWithinRetention(cfg: Config)
    ensures SweepSparesLiveReservations(cfg) <==> cfg.reclaimMs <= cfg.retentionMs
  {
    if cfg.reclaimMs <= cfg.retentionMs {
      forall start: Table, acts, ids, cutoff, id | Sweeping(cfg, start, acts, ids, cutoff, id)
        ensures IsReclaimable(cfg, Run(cfg, start, acts).rows[id], cutoff)
      {
        InitKeepsInv(cfg, start);
        RunIsLater(cfg, start, acts);
        assert RowOk(cfg, Run(cfg, start, acts), id);
      }
    } else {
      var start := Table(0, map[], map[], map[], []);
      var a0, a1 := Insert(0, 1, 1, "f", 0, 0, 0), Tick(cfg.retentionMs + 1);
      var t1 := Step(cfg, start, a0);
      RunOne(cfg, t1, a1, []);
      RunOne(cfg, start, a0, [a1]);
      assert Sweeping(cfg, start, [a0] + [a1], {0}, cfg.retentionMs + 1, 0);
    }
  }

  /**
   * A stuck row that is judged reclaimable can in fact be reclaimed if and only if it
   * has an acquisition time: SQL never matches `<` on a null column.
   */
  lemma {:induction false} ReclaimSucceedsIff(cfg: Config, t: Table, id: Id, clock: Millis)
    requires Inv(cfg, t) && clock <= t.now && id in t.rows && t.rows[id].status == Processing
    requires IsReclaimable(cfg, t.rows[id], clock)
    ensures t.rows[id].acquiredAt.Some? <==>
            exists a: Action :: a.Claim? && a.id == id && a.mode == FromStuck && Allowed(cfg, t, a)
              && Step(cfg, t, a) != t
  {
    var r := t.rows[id];
    if r.acquiredAt.Some? {
      var a := Claim(id, r.fenceToken, r.fingerprint, FromStuck, clock, clock, clock);
      assert RowOk(cfg, t, id);
      assert Step(cfg, t, a).rows[id].fenceToken == r.fenceToken + 1;
    }
  }

  /** A table to start from in which such a row is judged reclaimable and cannot be reclaimed. */
  lemma {:induction false} LegacyRowBlocksItsKey(cfg: Config) returns (t: Table)
    ensures Init(cfg, t) && 0 in t.rows && Judge(cfg, t.rows[0], "f", t.now) == TryClaim(FromStuck)
    ensures forall a: Action | a.Claim? && a.id == 0 && Allowed(cfg, t, a) :: Step(cfg, t, a) == t
  {
    var row := Row(1, 1, "f", Processing, 1, None, 0, cfg.retentionMs, None, None, None, None, None);
    t := Table(cfg.reclaimMs + 1, map[0 := row], map[0 := Birth(1, 1, "f", 0)], map[], []);
  }

  /** The action makes somebody the row's owner: it inserts the row, or it is a claim that moves the fence. */
  predicate Acquires(cfg: Config, t: Table, a: Action, id: Id)
    requires Allowed(cfg, t, a)
  {
    || (a.Insert? && a.id == id)
    || (a.Claim? && a.id == id && id in t.rows && t.rows[id].fenceToken < Step(cfg, t, a).rows[id].fenceToken)
  }

  /**
   * An owner has its time: whoever acquires a row at clock reading `acquired`, by insert or
   * claim, no later claim takes it as stuck unless its request looked at the clock more
   * than reclaimMs after that - whatever happened to the row in between.
   */
  lemma {:induction false} OwnersHaveTheirTime(
      cfg: Config, t: Table, first: Action, acts: seq<Action>, second: Action, id: Id)
    requires Inv(cfg, t) && Allowed(cfg, t, first) && Acquires(cfg, t, first, id)
    requires AllowedRun(cfg, Step(cfg, t, first), acts)
    requires var end := Run(cfg, Step(cfg, t, first), acts);
             Allowed(cfg, end, second) && Acquires(cfg, end, second, id) && second.Claim? && second.mode == FromStuck
    ensures first.acquired + cfg.reclaimMs < second.cutoffClock
  {
    var u := Step(cfg, t, first);
    StepKeepsInv(cfg, t, first);
    RunIsLater(cfg, u, acts);
    assert Evolves(u.rows[id], Run(cfg, u, acts).rows[id]);
  }

  /**
   * Only the fence's owner, or a claim of an owner that is overdue, changes a PROCESSING
   * row; otherwise it can only be swept.
   */
  lemma {:induction false} OnlyItsOwnerEndsIt(cfg: Config, t: Table, a: Action, id: Id)
    requires Inv(cfg, t) && Allowed(cfg, t, a) && id in t.rows && t.rows[id].status == Processing
    ensures var u := Step(cfg, t, a); var r := t.rows[id];
            id in u.rows && u.rows[id] != r ==>
              match a
              case Finalize(x, token, _, _) => x == id && token == r.fenceToken && u.rows[id].status == Completed
              case MarkFailed(x, token, _) => x == id && token == r.fenceToken && u.rows[id].status == Failed
              case Claim(x, expected, _, mode, cutoffClock, _, _) =>
                && x == id && expected == r.fenceToken && mode == FromStuck
                && r.acquiredAt.Some? && r.acquiredAt.value + cfg.reclaimMs < cutoffClock
                && u.rows[id].status == Processing && u.rows[id].fenceToken == r.fenceToken + 1
              case _ => false
  {
    assert RowOk(cfg, t, id);
  }

  /** And the owner can: its finalize completes the row with its answer, its failure frees the key. */
  lemma {:induction false} ItsOwnerCanEndIt(
      cfg: Config, t: Table, id: Id, token: nat, order: Id, response: Response, error: string)
    requires Inv(cfg, t) && id in t.rows && t.rows[id].status == Processing && t.rows[id].fenceToken == token
    requires forall c | c in t.commits :: c.order != order
    ensures var done := Step(cfg, t, Finalize(id, token, order, response));
            && done.rows.Keys == t.rows.Keys && done.rows[id].status == Completed
            && ReplayOf(done.rows[id]) == response && done.commits == t.commits + [Commit(id, order, response)]
    ensures var freed := Step(cfg, t, Action.MarkFailed(id, token, error));
            && freed.rows.Keys == t.rows.Keys && freed.rows[id].lastError == Some(error) && freed.commits == t.commits
            && forall clock :: Judge(cfg, freed.rows[id], t.rows[id].fingerprint, clock) == TryClaim(FromFailed)
  {
  }

  /** A key is never held for longer than the retention time: then a sweep may remove its row. */
  lemma {:induction false} KeysExpire(cfg: Config, start: Table, acts: seq<Action>, id: Id, now: Millis)
    requires Init(cfg, start) && AllowedRun(cfg, start, acts) && id in Run(cfg, start, acts).rows
    requires Run(cfg, start, acts).now + cfg.retentionMs < now
    ensures var late := Step(cfg, Run(cfg, start, acts), Tick(now)); Allowed(cfg, late, Sweep({id}, now))
  {
    InitKeepsInv(cfg, start);
    RunIsLater(cfg, start, acts);
    assert RowOk(cfg, Run(cfg, start, acts), id);
  }

  predicate Touches(a: Action, id: Id) { (a.Finalize? || a.MarkFailed?) && a.id == id }

  /**
   * A PROCESSING row without an acquisition time is judged reclaimable once it is
   * old, but no claim ever succeeds on it: it stays as it is, and its key busy,
   * until its own holder finishes or the sweep removes it.
   */
  lemma {:induction false} LegacyRowIsNeverReclaimed(cfg: Config, t: Table, acts: seq<Action>, id: Id)
    requires Inv(cfg, t) && AllowedRun(cfg, t, acts)
    requires id in t.rows && t.rows[id].status == Processing && t.rows[id].acquiredAt == None
    requires forall k | 0 <= k < |acts| :: !Touches(acts[k], id)
    ensures id in Run(cfg, t, acts).rows ==> Run(cfg, t, acts).rows[id] == t.rows[id]
    decreases |acts|
  {
    if acts != [] {
      var u := Step(cfg, t, acts[0]);
      StepKeepsInv(cfg, t, acts[0]);
      if id in u.rows {
        assert u.rows[id] == t.rows[id];
        forall k | 0 <= k < |acts[1..]| ensures !Touches(acts[1..][k], id) {
          assert !Touches(acts[k + 1], id);
        }
        LegacyRowIsNeverReclaimed(cfg, u, acts[1..], id);
      } else {
        RunIsLater(cfg, u, acts[1..]);
        assert id in u.births && id in u.tombs;
      }
    }
  }
}
