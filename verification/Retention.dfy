/**
 * The daily retention run: seven policies, each a predicate on one table, swept in
 * bounded batches. Between two DELETE statements the table may change; `quiet`
 * singles out runs in which it does not.
 */
module Retention {
  import opened Base
  import L = LeaseQueue
  import I = Idempotency
  import C = Consumer
  import S = Shop
  import Backoff

  type Millis = int

  function Matching<R>(rows: map<nat, R>, where: R -> bool): set<nat> {
    set id | id in rows && where(rows[id])
  }

  class Table<R> {
    var rows: map<nat, R>
    ghost const quiet: bool
    ghost var deleted: seq<(nat, R)>   // every row a DELETE has taken out, as it was then

    constructor (rows: map<nat, R>, ghost quiet: bool)
      ensures this.rows == rows && this.quiet == quiet && deleted == []
    {
      this.rows, this.quiet, deleted := rows, quiet, [];
    }

    method Yield()
      modifies `rows
      ensures quiet ==> rows == old(rows)
    {
    }

    /** DELETE ... WHERE ... LIMIT. */
    method DeleteBatch(where: R -> bool, limit: nat) returns (affected: nat, ghost ids: set<nat>)
      modifies this
      ensures ids <= Matching(old(rows), where) && rows == old(rows) - ids
              && deleted == old(deleted) + Rows(old(rows), ids)
      ensures affected == |ids| == Backoff.Min(|Matching(old(rows), where)|, limit)
    {
      var chosen := {};
      var rest := Matching(rows, where);
      while rest != {} && |chosen| < limit
        invariant chosen !! rest && chosen + rest == Matching(rows, where)
        invariant |chosen| + |rest| == |Matching(rows, where)| && |chosen| <= limit
        decreases |rest|
      {
        var id :| id in rest;
        chosen, rest := chosen + {id}, rest - {id};
      }
      ids := chosen;
      affected := |chosen|;
      deleted := deleted + Rows(rows, chosen);
      rows := rows - chosen;
    }
  }

  datatype NotificationRecord = NotificationRecord(row: L.Row, sentAt: Option<Millis>)

  datatype Windows = Windows(
    outboxPublished: nat, outboxFailed: nat, processed: nat, notificationSent: nat, notificationFailed: nat,
    uploadTokenExpired: nat)

  // The policies' WHERE clauses; a comparison with a null timestamp never holds.

  function PublishedEvents(cutoff: Millis): L.Row -> bool {
    (r: L.Row) => r.status == L.Done && r.lockedUntil.None? && r.createdAt < cutoff
  }

  function FailedEvents(cutoff: Millis): L.Row -> bool {
    (r: L.Row) => r.status == L.Failed && r.lockedUntil.None? && r.createdAt < cutoff
  }

  function SentNotifications(cutoff: Millis): NotificationRecord -> bool {
    (r: NotificationRecord) => r.row.status == L.Done && r.row.lockedUntil.None? && r.sentAt.Some?
      && r.sentAt.value < cutoff
  }

  function FailedNotifications(cutoff: Millis): NotificationRecord -> bool {
    (r: NotificationRecord) => r.row.status == L.Failed && r.row.lockedUntil.None? && r.row.createdAt < cutoff
  }

  function OlderThan(cutoff: Millis): Millis -> bool { (at: Millis) => at < cutoff }

  function ExpiredKeys(cutoff: Millis): I.Row -> bool { (r: I.Row) => r.expiresAt < cutoff }

  class Stores {
    const outbox: Table<L.Row>
    const notifications: Table<NotificationRecord>
    const processed: Table<Millis>        // processedAt
    const keys: Table<I.Row>
    const tokens: Table<Millis>           // expiresAt

    constructor (outbox: Table<L.Row>, notifications: Table<NotificationRecord>, processed: Table<Millis>,
                 keys: Table<I.Row>, tokens: Table<Millis>)
      ensures this.outbox == outbox && this.notifications == notifications && this.processed == processed
      ensures this.keys == keys && this.tokens == tokens
    {
      this.outbox, this.notifications, this.processed, this.keys, this.tokens := outbox, notifications, processed,
        keys, tokens;
    }

    ghost predicate Separate() { processed != tokens }

    ghost predicate Quiet() { outbox.quiet && notifications.quiet && processed.quiet && keys.quiet && tokens.quiet }
  }

  /** What the run may delete from the two queue tables: unleased, not pending, old for its status. */
  function OldEvents(windows: Windows, now: Millis): L.Row -> bool {
    (r: L.Row) => r.lockedUntil.None? && match r.status
      case Pending => false
      case Done => r.createdAt < now - windows.outboxPublished
      case Failed => r.createdAt < now - windows.outboxFailed
  }

  function OldNotifications(windows: Windows, now: Millis): NotificationRecord -> bool {
    (r: NotificationRecord) => r.row.lockedUntil.None? && match r.row.status
      case Pending => false
      case Done => r.sentAt.Some? && r.sentAt.value < now - windows.notificationSent
      case Failed => r.row.createdAt < now - windows.notificationFailed
  }

  /** What a table keyed by a time is to keep. */
  function NotBefore(was: map<nat, Millis>, cutoff: Millis): map<nat, Millis> {
    map id | id in was && cutoff <= was[id] :: was[id]
  }

  function Unexpired(was: map<nat, I.Row>, now: Millis): map<nat, I.Row> {
    map id | id in was && now <= was[id].expiresAt :: was[id]
  }

  lemma {:induction false} OldAreGone(was: map<nat, Millis>, cutoff: Millis)
    ensures was - Matching(was, OlderThan(cutoff)) == NotBefore(was, cutoff)
  {
    assert forall id | id in was :: OlderThan(cutoff)(was[id]) <==> was[id] < cutoff;
  }

  lemma {:induction false} ExpiredAreGone(was: map<nat, I.Row>, now: Millis)
    ensures was - Matching(was, ExpiredKeys(now)) == Unexpired(was, now)
  {
    assert forall id | id in was :: ExpiredKeys(now)(was[id]) <==> was[id].expiresAt < now;
  }

  lemma {:induction false} KeptTwice<R(!new)>(
      was: map<nat, R>, once: map<nat, R>, rows: map<nat, R>,
      first: R -> bool, second: R -> bool, either: R -> bool)
    requires Kept(was, once, first) && Kept(once, rows, second)
    requires forall r :: either(r) <==> first(r) || second(r)
    ensures Kept(was, rows, either)
  {
    assert Matching(was, either) == Matching(was, first) + Matching(once, second);
  }

  /** Exactly the rows that do not match survive, unchanged. */
  ghost predicate Kept<R>(was: map<nat, R>, rows: map<nat, R>, where: R -> bool) {
    rows == was - Matching(was, where)
  }

  lemma {:induction false} SameSizeSubset(a: set<nat>, b: set<nat>)
    requires a <= b && |a| == |b|
    ensures a == b
  {
    assert b == (b - a) + a;
    assert |b - a| == 0;
  }

  class RetentionWorker {
    const dryRun: bool
    const batchSize: nat
    const maxBatches: nat

    constructor (dryRun: bool, batchSize: nat, maxBatches: nat)
      ensures this.dryRun == dryRun && this.batchSize == batchSize && this.maxBatches == maxBatches
    {
      this.dryRun, this.batchSize, this.maxBatches := dryRun, batchSize, maxBatches;
    }

    predicate Fits(n: nat) { n <= batchSize * maxBatches }

    /** One DELETE of the loop. */
    method SweepNext<R>(table: Table<R>, where: R -> bool, ghost was: map<nat, R>, ghost done: set<nat>)
      returns (affected: nat, ghost ids: set<nat>)
      requires table.quiet ==> SweptSoFar(was, where, table.rows, done)
      modifies table
      ensures old(table.deleted) <= table.deleted && |table.deleted| == |old(table.deleted)| + affected
      ensures forall k | |old(table.deleted)| <= k < |table.deleted| :: where(table.deleted[k].1)
      ensures table.quiet ==>
                && SweptSoFar(was, where, table.rows, ids) && |ids| == |done| + affected
                && affected == Backoff.Min(|Matching(was, where)| - |done|, batchSize)
    {
      ghost var now;
      affected, now := table.DeleteBatch(where, batchSize);
      ids := done + now;
      forall k | |old(table.deleted)| <= k < |table.deleted| ensures where(table.deleted[k].1) {
        assert table.deleted[k] in Rows(old(table.rows), now);
      }
      if table.quiet {
        OneMoreSweep(was, where, old(table.rows), done, now);
      }
    }

    /**
     * Deletes only rows that match when they are deleted, and counts exactly those. On
     * a table nobody else touches the count is min(matching, batchSize * maxBatches), so
     * stopping early leaves no match. A dry run counts and deletes nothing.
     */
    method SweepPolicy<R>(table: Table<R>, where: R -> bool)
      returns (wouldDelete: nat, deletedCount: nat, ghost ids: set<nat>)
      modifies table
      ensures dryRun ==>
                table.rows == old(table.rows) && deletedCount == 0 && wouldDelete == |Matching(old(table.rows), where)|
      ensures !dryRun ==> wouldDelete == 0
      ensures old(table.deleted) <= table.deleted && |table.deleted| == |old(table.deleted)| + deletedCount
      ensures forall k | |old(table.deleted)| <= k < |table.deleted| :: where(table.deleted[k].1)
      ensures table.quiet && !dryRun ==>
                && ids <= Matching(old(table.rows), where) && table.rows == old(table.rows) - ids
                && deletedCount == |ids| == Backoff.Min(|Matching(old(table.rows), where)|, batchSize * maxBatches)
                && (deletedCount < batchSize * maxBatches ==> Matching(table.rows, where) == {})
    {
      ids := {};
      wouldDelete, deletedCount := 0, 0;
      if dryRun {
        wouldDelete := |Matching(table.rows, where)|;
        return;
      }
      ghost var was := table.rows;
      var batch := 0;
      while batch < maxBatches
        invariant batch <= maxBatches
        invariant old(table.deleted) <= table.deleted && |table.deleted| == |old(table.deleted)| + deletedCount
        invariant forall k | |old(table.deleted)| <= k < |table.deleted| :: where(table.deleted[k].1)
        invariant table.quiet ==> SweptSoFar(was, where, table.rows, ids) && |ids| == deletedCount == batchSize * batch
      {
        var affected;
        affected, ids := SweepNext(table, where, was, ids);
        FullBatch(batchSize, batch, maxBatches);
        deletedCount := deletedCount + affected;
        if affected < batchSize {
          return;
        }
        table.Yield();
        batch := batch + 1;
      }
    }

    /** A sweep of a quiet table whose matching rows fit the batches. */
    method SweepAll<R>(table: Table<R>, where: R -> bool)
      modifies table
      ensures !dryRun && table.quiet && Fits(|Matching(old(table.rows), where)|) ==>
                Kept(old(table.rows), table.rows, where)
      ensures dryRun ==> table.rows == old(table.rows)
    {
      ghost var was := table.rows;
      var wouldDelete, deletedCount;
      ghost var ids;
      wouldDelete, deletedCount, ids := SweepPolicy(table, where);
      if !dryRun && table.quiet && Fits(|Matching(was, where)|) {
        SameSizeSubset(ids, Matching(was, where));
      }
    }

    method SweepOutbox(table: Table<L.Row>, windows: Windows, now: Millis)
      modifies table
      ensures dryRun ==> table.rows == old(table.rows)
      ensures var was := old(table.rows);
              && !dryRun && table.quiet
              && Fits(|Matching(was, PublishedEvents(now - windows.outboxPublished))|)
              && Fits(|Matching(was, FailedEvents(now - windows.outboxFailed))|) ==>
                Kept(was, table.rows, OldEvents(windows, now))
    {
      var first, second := PublishedEvents(now - windows.outboxPublished), FailedEvents(now - windows.outboxFailed);
      ghost var was := table.rows;
      SweepAll(table, first);
      ghost var once := table.rows;
      if !dryRun && table.quiet && Fits(|Matching(was, first)|) {
        assert Matching(once, second) == Matching(was, second);
      }
      SweepAll(table, second);
      if !dryRun && table.quiet && Fits(|Matching(was, first)|) && Fits(|Matching(was, second)|) {
        KeptTwice(was, once, table.rows, first, second, OldEvents(windows, now));
      }
    }

    method SweepNotifications(table: Table<NotificationRecord>, windows: Windows, now: Millis)
      modifies table
      ensures dryRun ==> table.rows == old(table.rows)
      ensures var was := old(table.rows);
              && !dryRun && table.quiet
              && Fits(|Matching(was, SentNotifications(now - windows.notificationSent))|)
              && Fits(|Matching(was, FailedNotifications(now - windows.notificationFailed))|) ==>
                Kept(was, table.rows, OldNotifications(windows, now))
    {
      var first, second := SentNotifications(now - windows.notificationSent),
        FailedNotifications(now - windows.notificationFailed);
      ghost var was := table.rows;
      SweepAll(table, first);
      ghost var once := table.rows;
      if !dryRun && table.quiet && Fits(|Matching(was, first)|) {
        assert Matching(once, second) == Matching(was, second);
      }
      SweepAll(table, second);
      if !dryRun && table.quiet && Fits(|Matching(was, first)|) && Fits(|Matching(was, second)|) {
        KeptTwice(was, once, table.rows, first, second, OldNotifications(windows, now));
      }
    }

    /**
     * All policies. On quiet tables, where the rows a policy matches fit its batches, what
     * survives is exactly: events and notifications that are pending, leased, or young for
     * their status; dedup rows and tokens inside their windows; and unexpired keys.
     */
    method RunOnce(stores: Stores, windows: Windows, now: Millis)
      requires stores.Separate()
      modifies stores.outbox, stores.notifications, stores.processed, stores.keys, stores.tokens
      ensures var was := old(stores.outbox.rows);
              && !dryRun && stores.Quiet()
              && Fits(|Matching(was, PublishedEvents(now - windows.outboxPublished))|)
              && Fits(|Matching(was, FailedEvents(now - windows.outboxFailed))|) ==>
                Kept(was, stores.outbox.rows, OldEvents(windows, now))
      ensures var was := old(stores.notifications.rows);
              && !dryRun && stores.Quiet()
              && Fits(|Matching(was, SentNotifications(now - windows.notificationSent))|)
              && Fits(|Matching(was, FailedNotifications(now - windows.notificationFailed))|) ==>
                Kept(was, stores.notifications.rows, OldNotifications(windows, now))
      ensures var was := old(stores.processed.rows);
              !dryRun && stores.Quiet() && Fits(|Matching(was, OlderThan(now - windows.processed))|) ==>
                stores.processed.rows == NotBefore(was, now - windows.processed)
      ensures var was := old(stores.keys.rows);
              !dryRun && stores.Quiet() && Fits(|Matching(was, ExpiredKeys(now))|) ==>
                stores.keys.rows == Unexpired(was, now)
      ensures var was := old(stores.tokens.rows);
              !dryRun && stores.Quiet() && Fits(|Matching(was, OlderThan(now - windows.uploadTokenExpired))|) ==>
                stores.tokens.rows == NotBefore(was, now - windows.uploadTokenExpired)
    {
      ghost var processed, keys, tokens := stores.processed.rows, stores.keys.rows, stores.tokens.rows;
      SweepOutbox(stores.outbox, windows, now);
      SweepAll(stores.processed, OlderThan(now - windows.processed));
      SweepNotifications(stores.notifications, windows, now);
      SweepAll(stores.keys, ExpiredKeys(now));
      SweepAll(stores.tokens, OlderThan(now - windows.uploadTokenExpired));
      OldAreGone(processed, now - windows.processed);
      OldAreGone(tokens, now - windows.uploadTokenExpired);
      ExpiredAreGone(keys, now);
    }
  }

  /** The rows with these ids, each once, in some order. */
  ghost function Rows<R>(rows: map<nat, R>, ids: set<nat>): (taken: seq<(nat, R)>)
    requires ids <= rows.Keys
    ensures |taken| == |ids| && forall e | e in taken :: e.0 in ids && rows[e.0] == e.1
    ensures forall i, j | 0 <= i < j < |taken| :: taken[i].0 != taken[j].0
  {
    if ids == {} then [] else
    var id :| id in ids;
    [(id, rows[id])] + Rows(rows, ids - {id})
  }

  ghost predicate SweptSoFar<R>(was: map<nat, R>, where: R -> bool, rows: map<nat, R>, ids: set<nat>) {
    && ids <= Matching(was, where) && rows == was - ids
    && Matching(rows, where) == Matching(was, where) - ids && |Matching(rows, where)| == |Matching(was, where)| - |ids|
  }

  lemma {:induction false} OneMoreSweep<R>(
      was: map<nat, R>, where: R -> bool, rows: map<nat, R>, ids: set<nat>, now: set<nat>)
    requires SweptSoFar(was, where, rows, ids) && now <= Matching(rows, where)
    ensures SweptSoFar(was, where, rows - now, ids + now) && |ids + now| == |ids| + |now|
  {
    assert was - ids - now == was - (ids + now);
    Leftover(was, where, ids + now);
  }

  lemma {:induction false} Leftover<R>(was: map<nat, R>, where: R -> bool, ids: set<nat>)
    requires ids <= Matching(was, where)
    ensures Matching(was - ids, where) == Matching(was, where) - ids
    ensures |Matching(was - ids, where)| == |Matching(was, where)| - |ids|
  {
    assert Matching(was, where) == Matching(was - ids, where) + ids;
  }

  lemma {:induction false} FullBatch(batchSize: nat, batch: nat, maxBatches: nat)
    requires batch < maxBatches
    ensures batchSize * batch + batchSize == batchSize * (batch + 1) <= batchSize * maxBatches
  {
    assert batchSize * maxBatches == batchSize * (batch + 1) + batchSize * (maxBatches - batch - 1);
  }

  /** Each policy deletes no more than the machine of its table lets a sweep delete. */
  lemma {:induction false} EventPoliciesAreSweeps(
      cfg: L.Config, windows: Windows, now: Millis, events: L.Queue, ids: set<nat>)
    requires ids <= Matching(events.rows, OldEvents(windows, now))
    ensures L.Allowed(cfg, events, L.Sweep(ids))
  {
    forall id | id in ids ensures events.rows[id].status != L.Pending && events.rows[id].lockedUntil.None? {
      assert OldEvents(windows, now)(events.rows[id]);
    }
  }

  lemma {:induction false} NotificationPoliciesAreSweeps(
      cfg: L.Config, windows: Windows, now: Millis, mail: L.Queue, records: map<nat, NotificationRecord>, ids: set<nat>)
    requires mail.rows.Keys == records.Keys && forall id | id in mail.rows :: records[id].row == mail.rows[id]
    requires ids <= Matching(records, OldNotifications(windows, now))
    ensures L.Allowed(cfg, mail, L.Sweep(ids))
  {
    forall id | id in ids ensures mail.rows[id].status != L.Pending && mail.rows[id].lockedUntil.None? {
      assert OldNotifications(windows, now)(records[id]);
    }
  }

  lemma {:induction false} WindowPoliciesAreSweeps(
      cfg: C.Config, idemCfg: I.Config, shopCfg: S.Config, windows: Windows, now: Millis,
      consumer: C.State, keys: I.Table, shop: S.Db, processed: set<nat>, expired: set<nat>, tokens: set<nat>)
    requires cfg.window == windows.processed && now <= consumer.now && now <= keys.now && now <= shop.now
    requires processed <= Matching(consumer.processed, OlderThan(now - windows.processed))
    requires expired <= Matching(keys.rows, ExpiredKeys(now))
    requires forall k | k in tokens ::
               k < |shop.tokens| && OlderThan(now - windows.uploadTokenExpired)(shop.tokens[k].expiresAt)
    ensures C.Allowed(cfg, consumer, C.Sweep(processed, now))
    ensures I.Allowed(idemCfg, keys, I.Sweep(expired, now))
    ensures S.Allowed(shopCfg, shop, S.SweepTokens(tokens, now - windows.uploadTokenExpired))
  {
    forall id | id in expired ensures id in keys.rows && keys.rows[id].expiresAt < now {
      assert ExpiredKeys(now)(keys.rows[id]);
    }
  }
}
