/** The self-scheduled worker that expires abandoned payments and sends reminders. */
module PaymentLifecycle {
  import opened Base
  import opened Shop
  import opened ShopServices

  /** The one window the candidate query filters with, before the exact per-method check. */
  function CoarseWindow(cfg: Config): nat {
    if 0 < cfg.gatewayExpiryAfterMs < cfg.expiryAfterMs then cfg.gatewayExpiryAfterMs else cfg.expiryAfterMs
  }

  predicate CoarseMatch(cfg: Config, pay: Payment, clock: Millis) {
    && Eligible(pay.status)
    && (ReceiptMethod(pay.payMethod) || (pay.payMethod == Gateway && cfg.gatewayExpiryAfterMs > 0))
    && pay.createdAt <= clock - CoarseWindow(cfg)
  }

  /** Old enough for its own method's window. */
  predicate IsDue(cfg: Config, pay: Payment, clock: Millis) {
    && (pay.status == Unpaid || pay.status == WaitingVerification)
    && match pay.payMethod
       case BankTransfer => pay.createdAt + cfg.expiryAfterMs <= clock
       case Qris => pay.createdAt + cfg.expiryAfterMs <= clock
       case Gateway => 0 < cfg.gatewayExpiryAfterMs && pay.createdAt + cfg.gatewayExpiryAfterMs <= clock
       case Cod => false
  }

  /** Open, payable by receipt, old enough for the stage, and not reminded in it; second only after first. */
  predicate IsDueFor(cfg: Config, pay: Payment, stage: Stage, clock: Millis) {
    && (pay.status == Unpaid || pay.status == WaitingVerification)
    && (pay.payMethod == BankTransfer || pay.payMethod == Qris)
    && match stage
       case First => pay.firstReminderAt == None && pay.createdAt + cfg.firstReminderAfterMs <= clock
       case Second =>
         && pay.firstReminderAt != None && pay.secondReminderAt == None
         && pay.createdAt + cfg.secondReminderAfterMs <= clock
  }

  function CoarseSet(cfg: Config, db: Db): set<nat> {
    set i: nat | i < |db.payments| && CoarseMatch(cfg, db.payments[i], db.now)
  }

  function DueSet(cfg: Config, db: Db): set<nat> {
    set i: nat | i < |db.payments| && IsDue(cfg, db.payments[i], db.now)
  }

  function RemindSet(cfg: Config, db: Db, stage: Stage): set<nat> {
    set i: nat | i < |db.payments| && IsDueFor(cfg, db.payments[i], stage, db.now)
  }

  /** The reminder query's WHERE clause. */
  function RemindQuery(cfg: Config, db: Db, stage: Stage): set<nat> {
    set i: nat | i < |db.payments| && ReminderDue(cfg, db.payments[i], stage, db.now)
  }

  lemma {:induction false} QueryFindsTheDue(cfg: Config, db: Db, stage: Stage)
    ensures RemindQuery(cfg, db, stage) == RemindSet(cfg, db, stage)
  {
    forall i | 0 <= i < |db.payments|
      ensures ReminderDue(cfg, db.payments[i], stage, db.now) <==> IsDueFor(cfg, db.payments[i], stage, db.now)
    {
    }
  }

  function Reminded(pay: Payment, stage: Stage, clock: Millis): Payment {
    if stage == First then pay.(firstReminderAt := Some(clock)) else pay.(secondReminderAt := Some(clock))
  }

  /** Exactly the payments in `done` became EXPIRED; the rest are as they were. */
  ghost predicate ExpiredExactly(was: seq<Payment>, payments: seq<Payment>, done: set<nat>) {
    && |payments| == |was|
    && forall p | 0 <= p < |was| :: payments[p] == if p in done then was[p].(status := Expired) else was[p]
  }

  predicate Handled(candidates: seq<nat>, due: set<nat>, done: set<nat>) {
    forall p | p in candidates && p in due :: p in done
  }

  lemma {:induction false} ExpiredOneMore(was: seq<Payment>, payments: seq<Payment>, done: set<nat>, p: nat)
    requires ExpiredExactly(was, payments, done) && p < |was| && p !in done
    ensures ExpiredExactly(was, payments[p := payments[p].(status := Expired)], done + {p})
  {
  }

  ghost predicate ExpiredSoFar(cfg: Config, was: Db, db: Db, handled: seq<nat>, done: set<nat>) {
    && db.now == was.now && ExpiredExactly(was.payments, db.payments, done)
    && done <= DueSet(cfg, was) && Handled(handled, DueSet(cfg, was), done)
  }

  lemma {:induction false} OneMoreCandidate(
      cfg: Config, was: Db, before: Db, db: Db, handled: seq<nat>, done: set<nat>, p: nat, did: bool)
    requires ExpiredSoFar(cfg, was, before, handled, done) && p < |before.payments| && p !in done
    requires did <==> IsDue(cfg, before.payments[p], before.now)
    requires db.now == before.now
    requires db.payments == if did then before.payments[p := before.payments[p].(status := Expired)]
             else before.payments
    ensures ExpiredSoFar(cfg, was, db, handled + [p], if did then done + {p} else done)
  {
    assert before.payments[p] == was.payments[p];
    if did {
      ExpiredOneMore(was.payments, before.payments, done, p);
    }
  }

  /** Exactly the first i selected payments have been visited. */
  ghost predicate Selected(due: seq<nat>, i: nat, done: set<nat>) {
    i <= |due| && (forall p :: p in done <==> p in due[..i]) && forall k | i <= k < |due| :: due[k] !in done
  }

  lemma {:induction false} OneMoreSelected(due: seq<nat>, i: nat, done: set<nat>)
    requires Selected(due, i, done) && i < |due|
    requires forall k, m | 0 <= k < m < |due| :: due[k] != due[m]
    ensures Selected(due, i + 1, done + {due[i]})
  {
    assert due[..i + 1] == due[..i] + [due[i]];
  }

  /** After the first i candidates: at most as many expired, none of them still to come. */
  ghost predicate Expiring(was: Db, db: Db, candidates: seq<nat>, i: nat, done: set<nat>) {
    && |was.payments| <= |db.payments|
    && |done| <= i <= |candidates| && (forall k | i <= k < |candidates| :: candidates[k] !in done)
    && (forall p | p in done :: p < |db.payments| && db.payments[p].status == Expired)
  }

  lemma {:induction false} OneMoreExpiring(
      was: Db, before: Db, db: Db, candidates: seq<nat>, i: nat, done: set<nat>, did: bool)
    requires Expiring(was, before, candidates, i, done) && i < |candidates| && |before.payments| <= |db.payments|
    requires forall k, m | 0 <= k < m < |candidates| :: candidates[k] != candidates[m]
    requires forall q | 0 <= q < |before.payments| && before.payments[q].status == Expired ::
               db.payments[q].status == Expired
    requires did ==> candidates[i] < |db.payments| && db.payments[candidates[i]].status == Expired
    ensures Expiring(was, db, candidates, i + 1, if did then done + {candidates[i]} else done)
  {
  }

  ghost predicate RemindedExactly(
      was: seq<Payment>, payments: seq<Payment>, done: set<nat>, stage: Stage, clock: Millis) {
    && |payments| == |was|
    && forall p | 0 <= p < |was| :: payments[p] == if p in done then Reminded(was[p], stage, clock) else was[p]
  }

  lemma {:induction false} RemindedOneMore(
      cfg: Config, was: Db, before: Db, db: Db, stage: Stage, done: set<nat>, p: nat)
    requires RemindedExactly(was.payments, before.payments, done, stage, was.now) && p < |was.payments| && p !in done
    requires IsDueFor(cfg, was.payments[p], stage, was.now)
    requires db.payments == before.payments[p := Reminded(before.payments[p], stage, was.now)]
    ensures RemindedExactly(was.payments, db.payments, done + {p}, stage, was.now)
  {
  }

  lemma {:induction false} OldestExists(payments: seq<Payment>, ids: set<nat>) returns (oldest: nat)
    requires ids != {} && forall i | i in ids :: i < |payments|
    ensures oldest in ids && forall i | i in ids :: payments[oldest].createdAt <= payments[i].createdAt
    decreases |ids|
  {
    oldest :| oldest in ids;
    if ids != {oldest} {
      var other := OldestExists(payments, ids - {oldest});
      if payments[other].createdAt < payments[oldest].createdAt {
        oldest := other;
      }
    }
  }

  /** ORDER BY createdAt ASC ... LIMIT: the oldest matching rows, all of them when they fit. */
  method TakeOldest(payments: seq<Payment>, matching: set<nat>, limit: nat) returns (ids: seq<nat>)
    requires forall i | i in matching :: i < |payments|
    ensures forall i, j | 0 <= i < j < |ids| :: ids[i] != ids[j]
    ensures forall i | i in ids :: i in matching
    ensures |ids| <= limit
    ensures |matching| <= limit ==> forall i | i in matching :: i in ids
    ensures forall i, j | i in ids && j in matching && j !in ids :: payments[i].createdAt <= payments[j].createdAt
  {
    ids := [];
    var rest := matching;
    while rest != {} && |ids| < limit
      invariant rest <= matching && |rest| + |ids| == |matching| && |ids| <= limit
      invariant forall i, j | 0 <= i < j < |ids| :: ids[i] != ids[j]
      invariant forall i | i in matching :: i in ids <==> i !in rest
      invariant forall i | i in ids :: i in matching
      invariant forall i, j | i in ids && j in rest :: payments[i].createdAt <= payments[j].createdAt
      decreases |rest|
    {
      ghost var oldest := OldestExists(payments, rest);
      var next :| next in rest && forall j | j in rest :: payments[next].createdAt <= payments[j].createdAt;
      ids := ids + [next];
      rest := rest - {next};
    }
  }

  class LifecycleWorker {
    const database: Database
    const batchSize: nat

    constructor (database: Database, batchSize: nat)
      ensures this.database == database && this.batchSize == batchSize
    {
      this.database, this.batchSize := database, batchSize;
    }

    /** One transaction; a lost race or a failed transaction expires nothing. */
    method ExpirePayment(p: nat, readClock: Millis) returns (expired: bool)
      requires Linked(database.db) && p < |database.db.payments| && readClock <= database.db.now
      requires ExpiryWindow(database.cfg, database.db.payments[p].payMethod).Some?
      requires ExpiryWindow(database.cfg, database.db.payments[p].payMethod).value
               <= readClock - database.db.payments[p].createdAt
      modifies database
      ensures database.Advanced() && Grows(old(database.db), database.db)
      ensures expired ==> database.db.payments[p].status == Expired
      ensures database.quiet ==>
                && (expired <==> Eligible(old(database.db).payments[p].status))
                && database.db == ExpireTx(old(database.db), p, old(database.db).now)
                && database.db.now == old(database.db).now
                && database.db.payments ==
                   if expired
                   then old(database.db).payments[p := old(database.db).payments[p].(status := Expired)]
                                           else old(database.db).payments
    {
      database.Yield();
      ReachesGrows(database.cfg, old(database.db), database.db);
      var failed := database.Faults();
      if failed {
        return false;
      }
      var tx := database.db;
      ghost var before := tx;
      if tx.payments[p].status != Unpaid && tx.payments[p].status != WaitingVerification {
        return false;
      }
      var o := tx.payments[p].order;
      tx := tx.(payments := tx.payments[p := tx.payments[p].(status := Expired)]);
      var cancelled;
      tx, cancelled := CancelInTx(tx, o);
      tx := tx.(outbox := tx.outbox + [Event(PaymentExpired, p, tx.now)]);
      TakeStep(database.cfg, old(database.db), before, Expire(p, readClock, before.now));
      database.db := tx;
      ReachesGrows(database.cfg, old(database.db), database.db);
      return true;
    }

    /** The loop body: the exact per-method check on a fresh clock, then the transaction. */
    method ExpireIfDue(p: nat, ghost start: Db) returns (expired: bool)
      requires Linked(start) && Linked(database.db) && Reaches(database.cfg, start, database.db)
               && p < |database.db.payments|
      modifies database
      ensures Linked(database.db) && Reaches(database.cfg, start, database.db)
              && |old(database.db).payments| <= |database.db.payments|
      ensures forall q | 0 <= q < |old(database.db).payments| && old(database.db).payments[q].status == Expired ::
                database.db.payments[q].status == Expired
      ensures expired ==> database.db.payments[p].status == Expired
      ensures database.quiet ==>
                var was := old(database.db);
                && (expired <==> IsDue(database.cfg, was.payments[p], was.now))
                && database.db.now == was.now
                && database.db.payments ==
                   if expired then was.payments[p := was.payments[p].(status := Expired)]
                   else was.payments
    {
      var window := ExpiryWindow(database.cfg, database.db.payments[p].payMethod);
      var readClock := database.db.now;
      if window.None? || readClock - database.db.payments[p].createdAt < window.value {
        return false;
      }
      expired := ExpirePayment(p, readClock);
      ReachesTrans(database.cfg, start, old(database.db), database.db);
    }

    method ExpireNext(candidates: seq<nat>, i: nat, ghost was: Db, ghost done: set<nat>) returns (expired: bool)
      requires Linked(was) && i < |candidates| && candidates[i] < |was.payments|
      requires Linked(database.db) && Reaches(database.cfg, was, database.db)
               && Expiring(was, database.db, candidates, i, done)
      requires database.quiet ==> ExpiredSoFar(database.cfg, was, database.db, candidates[..i], done)
      requires forall k, m | 0 <= k < m < |candidates| :: candidates[k] != candidates[m]
      modifies database
      ensures Linked(database.db) && Reaches(database.cfg, was, database.db)
      ensures Expiring(was, database.db, candidates, i + 1, if expired then done + {candidates[i]} else done)
      ensures database.quiet ==>
                ExpiredSoFar(database.cfg, was, database.db, candidates[..i + 1],
                             if expired then done + {candidates[i]} else done)
    {
      ghost var before := database.db;
      expired := ExpireIfDue(candidates[i], was);
      OneMoreExpiring(was, before, database.db, candidates, i, done, expired);
      if database.quiet {
        assert candidates[..i + 1] == candidates[..i] + [candidates[i]];
        OneMoreCandidate(database.cfg, was, before, database.db, candidates[..i], done, candidates[i], expired);
      }
    }

    method ExpireAll(candidates: seq<nat>) returns (expired: nat, ghost done: set<nat>)
      requires Linked(database.db) && forall k | 0 <= k < |candidates| :: candidates[k] < |database.db.payments|
      requires forall i, j | 0 <= i < j < |candidates| :: candidates[i] != candidates[j]
      modifies database
      ensures database.Advanced() && expired == |done| <= |candidates|
      ensures forall p | p in done :: p < |database.db.payments| && database.db.payments[p].status == Expired
      ensures database.quiet ==>
                var was := old(database.db);
                && ExpiredExactly(was.payments, database.db.payments, done)
                && done <= DueSet(database.cfg, was) && Handled(candidates, DueSet(database.cfg, was), done)
    {
      ghost var was := database.db;
      ReachesSelf(database.cfg, was);
      expired, done := 0, {};
      for i := 0 to |candidates|
        invariant Linked(database.db) && Reaches(database.cfg, was, database.db)
        invariant Expiring(was, database.db, candidates, i, done) && expired == |done|
        invariant database.quiet ==> ExpiredSoFar(database.cfg, was, database.db, candidates[..i], done)
      {
        assert candidates[i] !in done;
        var did := ExpireNext(candidates, i, was, done);
        if did {
          expired, done := expired + 1, done + {candidates[i]};
        }
      }
      assert candidates[..|candidates|] == candidates;
    }

    /**
     * Expires candidates that are due. Undisturbed and with candidates that fit the
     * batch, exactly the due payments expire and their number is returned.
     */
    method RunExpiry() returns (expired: nat, ghost done: set<nat>)
      requires Linked(database.db)
      modifies database
      ensures database.Advanced()
      ensures expired == |done| && expired <= batchSize
      ensures forall p | p in done :: p < |database.db.payments| && database.db.payments[p].status == Expired
      ensures database.quiet ==>
                var was := old(database.db);
                && done <= DueSet(database.cfg, was)
                && (|CoarseSet(database.cfg, was)| <= batchSize ==> done == DueSet(database.cfg, was))
                && ExpiredExactly(was.payments, database.db.payments, done)
    {
      ghost var was := database.db;
      database.Yield();
      ghost var t1 := database.db;
      ReachesGrows(database.cfg, was, t1);
      var candidates := TakeOldest(database.db.payments, CoarseSet(database.cfg, database.db), batchSize);
      forall k | 0 <= k < |candidates| ensures candidates[k] < |database.db.payments| {
        assert candidates[k] in candidates;
      }
      expired, done := ExpireAll(candidates);
      ReachesTrans(database.cfg, was, t1, database.db);
      assert DueSet(database.cfg, was) <= CoarseSet(database.cfg, was);
    }

    /** Claims the reminder slot by its timestamp; token and event are written in the same transaction. */
    method SendReminder(p: nat, stage: Stage) returns (sent: bool)
      requires Linked(database.db)
      requires p in if stage == First then database.db.dueFirst else database.db.dueSecond
      modifies database
      ensures database.Advanced() && Grows(old(database.db), database.db)
      ensures database.quiet ==>
                && p < |old(database.db).payments|
                && (sent <==>
                     Eligible(old(database.db).payments[p].status) && SlotFree(old(database.db).payments[p], stage))
                && database.db == RemindTx(old(database.db), p, stage, old(database.db).now)
                && database.db.now == old(database.db).now
                && database.db.payments ==
                   if sent
                   then old(database.db).payments[p :=
                     Reminded(old(database.db).payments[p], stage, old(database.db).now)]
                                           else old(database.db).payments
    {
      assert p < |database.db.payments|;
      database.Yield();
      ReachesGrows(database.cfg, old(database.db), database.db);
      var failed := database.Faults();
      if failed {
        return false;
      }
      ghost var before := database.db;
      var tx;
      tx, sent := FillReminder(database.db, p, stage);
      if sent {
        TakeStep(database.cfg, old(database.db), before, Remind(p, stage, before.now));
        database.db := tx;
        ReachesGrows(database.cfg, old(database.db), database.db);
      }
    }

    /** The reminder transaction on its own copy: the slot's compare-and-swap, token and event. */
    static method FillReminder(db: Db, p: nat, stage: Stage) returns (tx: Db, sent: bool)
      requires p < |db.payments|
      ensures sent <==> Eligible(db.payments[p].status) && SlotFree(db.payments[p], stage)
      ensures tx == RemindTx(db, p, stage, db.now)
    {
      tx := db;
      var pay := tx.payments[p];
      if !Eligible(pay.status) || (if stage == First then pay.firstReminderAt.Some? else pay.secondReminderAt.Some?) {
        return tx, false;
      }
      pay := if stage == First then pay.(firstReminderAt := Some(tx.now)) else pay.(secondReminderAt := Some(tx.now));
      tx := tx.(payments := tx.payments[p := pay]);
      tx := tx.(tokens := tx.tokens + [Token(p, tx.now + UPLOAD_TOKEN_TTL_MS, None, false)]);
      tx := tx.(outbox := tx.outbox + [Event(Reminder(stage), p, tx.now)]);
      return tx, true;
    }

    method RemindNext(p: nat, stage: Stage, ghost was: Db) returns (sent: bool)
      requires Linked(was) && Linked(database.db) && Reaches(database.cfg, was, database.db)
      requires was.dueFirst <= database.db.dueFirst && was.dueSecond <= database.db.dueSecond
      requires p in if stage == First then was.dueFirst else was.dueSecond
      modifies database
      ensures Linked(database.db) && Reaches(database.cfg, was, database.db)
      ensures was.dueFirst <= database.db.dueFirst && was.dueSecond <= database.db.dueSecond
      ensures database.quiet ==>
                var before := old(database.db);
                && p < |before.payments| && database.db.now == before.now
                && (sent <==> Eligible(before.payments[p].status) && SlotFree(before.payments[p], stage))
                && database.db.payments ==
                     if sent then before.payments[p := Reminded(before.payments[p], stage, before.now)]
                        else before.payments
    {
      sent := SendReminder(p, stage);
      ReachesTrans(database.cfg, was, old(database.db), database.db);
    }

    method RemindAll(due: seq<nat>, stage: Stage) returns (sent: nat, ghost done: set<nat>)
      requires Linked(database.db)
      requires forall k | 0 <= k < |due| ::
                 due[k] in if stage == First then database.db.dueFirst else database.db.dueSecond
      requires forall i, j | 0 <= i < j < |due| :: due[i] != due[j]
      modifies database
      ensures database.Advanced()
      ensures forall p :: p in done <==> p in due
      ensures database.quiet && (forall p | p in due ::
                p < |old(database.db).payments|
                && IsDueFor(database.cfg, old(database.db).payments[p], stage, old(database.db).now)) ==>
                && database.db.now == old(database.db).now && sent == |done|
                && RemindedExactly(old(database.db).payments, database.db.payments, done, stage, old(database.db).now)
    {
      ghost var was := database.db;
      ghost var allDue := forall p | p in due ::
        p < |was.payments| && IsDueFor(database.cfg, was.payments[p], stage, was.now);
      ReachesSelf(database.cfg, was);
      sent, done := 0, {};
      for i := 0 to |due|
        invariant Linked(database.db) && Reaches(database.cfg, was, database.db)
        invariant was.dueFirst <= database.db.dueFirst && was.dueSecond <= database.db.dueSecond
        invariant Selected(due, i, done)
        invariant database.quiet && allDue ==>
                    && database.db.now == was.now && sent == |done|
                    && RemindedExactly(was.payments, database.db.payments, done, stage, was.now)
      {
        assert due[i] in due;
        OneMoreSelected(due, i, done);
        ghost var before := database.db;
        var did := RemindNext(due[i], stage, was);
        if database.quiet && allDue {
          RemindedOneMore(database.cfg, was, before, database.db, stage, done, due[i]);
        }
        if did {
          sent := sent + 1;
        }
        done := done + {due[i]};
      }
      assert due[..|due|] == due;
    }

    /** One stage: undisturbed and fitting the batch, exactly the payments due for it are reminded. */
    method RemindPass(stage: Stage) returns (sent: nat)
      requires Linked(database.db)
      modifies database
      ensures database.Advanced()
      ensures database.quiet && |RemindSet(database.cfg, old(database.db), stage)| <= batchSize ==>
                var was := old(database.db);
                && database.db.now == was.now
                && sent == |RemindSet(database.cfg, was, stage)|
                && RemindedExactly(was.payments, database.db.payments, RemindSet(database.cfg, was, stage),
                                   stage, was.now)
    {
      ghost var was := database.db;
      database.Yield();
      ghost var t1 := database.db;
      var due := TakeOldest(database.db.payments, RemindQuery(database.cfg, database.db, stage), batchSize);
      QueryFindsTheDue(database.cfg, database.db, stage);
      var found := set p | p in due;
      database.db := if stage == First then database.db.(dueFirst := database.db.dueFirst + found)
                     else database.db.(dueSecond := database.db.dueSecond + found);
      TakeStep(database.cfg, was, t1, Select(stage, found, t1.now));
      ghost var t2 := database.db;
      forall k | 0 <= k < |due| ensures due[k] in found {
        assert due[k] in due;
      }
      ghost var done;
      sent, done := RemindAll(due, stage);
      ReachesTrans(database.cfg, was, t2, database.db);
      if database.quiet && |RemindSet(database.cfg, was, stage)| <= batchSize {
        assert done == RemindSet(database.cfg, was, stage);
      }
    }

    /**
     * First reminders, then second reminders; one late payment can get both in one tick.
     * Undisturbed, and with each stage's due payments fitting the batch, exactly those are
     * reminded, and their number is returned.
     */
    method RunReminders() returns (sent: nat)
      requires Linked(database.db)
      modifies database
      ensures database.Advanced()
      ensures database.quiet ==>
                var cfg, was := database.cfg, old(database.db);
                var once := RemindedAll(cfg, was, First);
                |RemindSet(cfg, was, First)| <= batchSize && |RemindSet(cfg, once, Second)| <= batchSize ==>
                  && database.db.payments == RemindedAll(cfg, once, Second).payments
                  && sent == |RemindSet(cfg, was, First)| + |RemindSet(cfg, once, Second)|
    {
      ghost var was := database.db;
      var first := RemindPass(First);
      ghost var t1 := database.db;
      var second := RemindPass(Second);
      ReachesTrans(database.cfg, was, t1, database.db);
      sent := first + second;
      if database.quiet {
        ghost var once := RemindedAll(database.cfg, was, First);
        if |RemindSet(database.cfg, was, First)| <= batchSize && |RemindSet(database.cfg, once, Second)| <= batchSize {
          RemindedAllIs(database.cfg, was, t1, First);
          assert RemindSet(database.cfg, t1, Second) == RemindSet(database.cfg, once, Second);
          RemindedAllIs(database.cfg, t1, database.db, Second);
        }
      }
    }
  }

  /** Every payment due for the stage is reminded, every other one is as it was. */
  function RemindedAll(cfg: Config, db: Db, stage: Stage): Db {
    db.(payments := seq(|db.payments|, p requires 0 <= p < |db.payments| =>
      if IsDueFor(cfg, db.payments[p], stage, db.now) then Reminded(db.payments[p], stage, db.now)
         else db.payments[p]))
  }

  lemma {:induction false} RemindedAllIs(cfg: Config, was: Db, db: Db, stage: Stage)
    requires RemindedExactly(was.payments, db.payments, RemindSet(cfg, was, stage), stage, was.now)
    ensures db.payments == RemindedAll(cfg, was, stage).payments
  {
  }
}
