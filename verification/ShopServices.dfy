/**
 * The services that move orders and payments, written as they run: reads first, then
 * one transaction on a private copy that is stored at the end or dropped. Between
 * separate queries `Yield` lets everybody else act; `quiet` singles out executions
 * without interference or failing transactions.
 */
module ShopServices {
  import opened Base
  import opened Inventory
  import opened Pricing
  import opened Shop
  import opened PaymentLedger

  class Database {
    var db: Db
    const cfg: Config
    ghost const quiet: bool

    constructor (cfg: Config, ghost quiet: bool, db: Db)
      requires Linked(db)
      ensures this.cfg == cfg && this.quiet == quiet && this.db == db
    {
      this.cfg, this.quiet, this.db := cfg, quiet, db;
    }

    /** The database got here from its old state by a run of the machine. */
    twostate predicate Advanced()
      reads this
    {
      && old(Linked(db)) && Linked(db)
      && Reaches(cfg, old(db), db)
    }

    method Yield()
      requires Linked(db)
      modifies this
      ensures Advanced()
      ensures quiet ==> db == old(db)
    {
      ReachesSelf(cfg, db);
    }

    /** Whether a transaction is lost to the database (deadlock, timeout, lost connection). */
    method Faults() returns (failed: bool)
      ensures quiet ==> !failed
    {
      failed := false;
    }
  }

  lemma {:induction false} TakeStep(cfg: Config, db: Db, u: Db, a: Action)
    requires Linked(db) && Linked(u) && Reaches(cfg, db, u) && Allowed(cfg, u, a)
    ensures Linked(Step(cfg, u, a)) && Reaches(cfg, db, Step(cfg, u, a))
  {
    ReachesStep(cfg, u, a);
    ReachesTrans(cfg, db, u, Step(cfg, u, a));
  }

  /** Rows stay, time passes, and terminal payments are final. */
  ghost predicate Grows(db: Db, u: Db) {
    && db.now <= u.now && |db.orders| <= |u.orders| && |db.payments| <= |u.payments| && |db.tokens| <= |u.tokens|
    && db.dueFirst <= u.dueFirst && db.dueSecond <= u.dueSecond
    && (forall i | 0 <= i < |db.payments| ::
          && u.payments[i].payMethod == db.payments[i].payMethod && u.payments[i].createdAt == db.payments[i].createdAt
          && u.payments[i].order == db.payments[i].order
          && (Terminal(db.payments[i].status) ==> u.payments[i] == db.payments[i]))
    && (forall k | 0 <= k < |db.tokens| :: u.tokens[k].payment == db.tokens[k].payment)
  }

  lemma {:induction false} StepGrows(cfg: Config, db: Db, a: Action)
    requires Linked(db) && Allowed(cfg, db, a)
    ensures Grows(db, Step(cfg, db, a))
  {
    if !a.Place? {
      StepIsSameBusiness(cfg, db, a);
    }
    forall i | 0 <= i < |db.payments| && Terminal(db.payments[i].status) ensures Frozen(db, Step(cfg, db, a), i) {
      StepFreezes(cfg, db, a, i);
    }
  }

  lemma {:induction false} RunGrows(cfg: Config, db: Db, acts: seq<Action>)
    requires Linked(db) && AllowedRun(cfg, db, acts)
    ensures Grows(db, Run(cfg, db, acts))
    decreases |acts|
  {
    if acts != [] {
      StepKeepsLinked(cfg, db, acts[0]);
      StepGrows(cfg, db, acts[0]);
      RunGrows(cfg, Step(cfg, db, acts[0]), acts[1..]);
    }
  }

  lemma {:induction false} ReachesGrows(cfg: Config, db: Db, u: Db)
    requires Linked(db) && Linked(u) && Reaches(cfg, db, u)
    ensures Grows(db, u)
  {
    var acts :| AllowedRun(cfg, db, acts) && Run(cfg, db, acts) == u;
    RunGrows(cfg, db, acts);
  }

  /** cancelAndRestock on the caller's transaction. */
  method CancelInTx(tx: Db, o: nat) returns (r: Db, cancelled: bool)
    requires o < |tx.orders|
    ensures r == CancelAndRestock(tx, o) && (!cancelled ==> r == tx)
    ensures cancelled <==> tx.orders[o].status in {Pending, Processing, Packing, Shipped, Delivering}
    ensures cancelled ==>
              && r.orders[o].status == Cancelled && r.stock.Keys == tx.stock.Keys
              && forall p | p in tx.stock :: r.stock[p] == tx.stock[p] + QtyOf(Lines(tx.orders[o].items), p)
  {
    cancelled := tx.orders[o].status in {Pending, Processing, Packing, Shipped, Delivering};
    if !cancelled {
      return tx, false;
    }
    r := tx.(orders := tx.orders[o := tx.orders[o].(status := Cancelled)]);
    var stock := Restock(r.stock, Lines(r.orders[o].items));
    r := r.(stock := stock);
    r := r.(orders := r.orders[o := r.orders[o].(log := r.orders[o].log + [Cancelled])]);
  }

  datatype Outcome = Done | Replayed | Conflict | NotFound

  class AdminService {
    const database: Database

    constructor (database: Database)
      ensures this.database == database
    {
      this.database := database;
    }

    method VerifyPayment(p: nat, admin: Id) returns (r: Outcome)
      requires Linked(database.db)
      modifies database
      ensures database.Advanced()
      ensures r == NotFound <==> p >= |old(database.db).payments|
      ensures r == Done || r == Replayed ==> p < |database.db.payments| && database.db.payments[p].status == Paid
      ensures r == Conflict ==> p < |database.db.payments| && Terminal(database.db.payments[p].status)
      ensures database.quiet && r != NotFound ==>
                var was := old(database.db).payments[p].status;
                && database.db == VerifyTx(old(database.db), p, admin, old(database.db).now)
                && (r == Done <==> was == Unpaid || was == WaitingVerification) && (r == Replayed <==> was == Paid)
                && (r == Done ==>
                      && database.db.payments[p].verifiedBy == Some(admin)
                      && database.db.orders[p].status == Processing
                      && database.db.audits == old(database.db).audits + [p])
    {
      ReachesSelf(database.cfg, database.db);
      if p >= |database.db.payments| {
        return NotFound;
      }
      var seen := database.db.payments[p].status;
      if seen == Paid {
        return Replayed;
      }
      if Terminal(seen) {
        return Conflict;
      }
      var verifiedAt := database.db.now;
      database.Yield();
      ReachesGrows(database.cfg, old(database.db), database.db);
      var tx := database.db;
      ghost var before := tx;
      if Terminal(tx.payments[p].status) {
        return Conflict;
      }
      tx := tx.(payments := tx.payments[p := tx.payments[p].(status := Paid, verifiedBy := Some(admin))]);
      var o := tx.payments[p].order;
      tx := tx.(orders := tx.orders[o := tx.orders[o].(status := Processing, log := tx.orders[o].log + [Processing])]);
      tx := tx.(audits := tx.audits + [p]);
      tx := tx.(outbox := tx.outbox + [Event(PaymentPaid, p, verifiedAt)]);
      TakeStep(database.cfg, old(database.db), before, Verify(p, admin, verifiedAt));
      database.db := tx;
      return Done;
    }

    method RejectPayment(p: nat) returns (r: Outcome)
      requires Linked(database.db)
      modifies database
      ensures database.Advanced()
      ensures r == NotFound <==> p >= |old(database.db).payments|
      ensures r == Done || r == Replayed ==> p < |database.db.payments| && database.db.payments[p].status == Failed
      ensures r == Conflict ==> p < |database.db.payments| && Terminal(database.db.payments[p].status)
      ensures database.quiet && r != NotFound ==>
                var was := old(database.db).payments[p].status;
                && database.db == RejectTx(old(database.db), p, old(database.db).now)
                && (r == Done <==> was == Unpaid || was == WaitingVerification) && (r == Replayed <==> was == Failed)
                && (r == Done ==>
                      database.db.orders[p].status ==
                      if old(database.db).orders[p].status in {Pending, Processing, Packing, Shipped, Delivering}
                      then Cancelled else old(database.db).orders[p].status)
    {
      ReachesSelf(database.cfg, database.db);
      if p >= |database.db.payments| {
        return NotFound;
      }
      var seen := database.db.payments[p].status;
      if seen == Failed {
        return Replayed;
      }
      if Terminal(seen) {
        return Conflict;
      }
      database.Yield();
      ReachesGrows(database.cfg, old(database.db), database.db);
      var tx := database.db;
      ghost var before := tx;
      if Terminal(tx.payments[p].status) {
        return Conflict;
      }
      var o := tx.payments[p].order;
      tx := tx.(payments := tx.payments[p := tx.payments[p].(status := Failed)]);
      var cancelled;
      tx, cancelled := CancelInTx(tx, o);
      tx := tx.(outbox := tx.outbox + [Event(PaymentFailed, p, tx.now)]);
      TakeStep(database.cfg, old(database.db), before, Reject(p, before.now));
      database.db := tx;
      return Done;
    }

    /** CANCELLED goes through the guarded restock; any other status is written whatever the order's status is. */
    method UpdateOrderStatus(o: nat, status: OrderStatus) returns (found: bool)
      requires Linked(database.db)
      modifies database
      ensures database.Advanced()
      ensures found <==> o < |old(database.db).orders|
      ensures found && status != Cancelled ==> o < |database.db.orders| && database.db.orders[o].status == status
      ensures database.quiet && found ==> database.db == SetStatusTx(old(database.db), o, status, old(database.db).now)
      ensures database.quiet && found && status == Cancelled ==>
                var was := old(database.db).orders[o].status;
                if was in {Pending, Processing, Packing, Shipped, Delivering}
                then database.db.orders[o].status == Cancelled else database.db == old(database.db)
    {
      ReachesSelf(database.cfg, database.db);
      if o >= |database.db.orders| {
        return false;
      }
      database.Yield();
      ReachesGrows(database.cfg, old(database.db), database.db);
      var tx := database.db;
      ghost var before := tx;
      if status == Cancelled {
        var cancelled;
        tx, cancelled := CancelInTx(tx, o);
        if cancelled {
          tx := tx.(outbox := tx.outbox + [Event(OrderStatusUpdated, o, tx.now)]);
        }
      } else {
        tx := tx.(orders := tx.orders[o := tx.orders[o].(status := status, log := tx.orders[o].log + [status])]);
        tx := tx.(outbox := tx.outbox + [Event(OrderStatusUpdated, o, tx.now)]);
      }
      TakeStep(database.cfg, old(database.db), before, SetStatus(o, status, before.now));
      database.db := tx;
      return true;
    }
  }

  class PaymentsService {
    const database: Database

    constructor (database: Database)
      ensures this.database == database
    {
      this.database := database;
    }

    /** The shared receipt transaction; None is the 409 that rolls the caller back. */
    static method ApplyReceiptInTx(tx: Db, p: nat, receipt: string, byToken: bool, clock: Millis)
      returns (r: Option<Db>)
      requires p < |tx.payments|
      ensures r.Some? <==> Eligible(tx.payments[p].status)
      ensures r.Some? ==> r.value == ReceiptTx(tx, p, receipt, byToken, clock)
    {
      if tx.payments[p].status != Unpaid && tx.payments[p].status != WaitingVerification {
        return None;
      }
      var u := tx.(payments := tx.payments[p :=
        tx.payments[p].(status := WaitingVerification, receipt := Some(receipt))]);
      return Some(u.(outbox := u.outbox + [Event(ReceiptUploaded(byToken), p, clock)]));
    }

    method UploadManualReceipt(p: nat, user: Id, receipt: string) returns (r: Outcome)
      requires Linked(database.db)
      modifies database
      ensures database.Advanced()
      ensures r == NotFound <==> p >= |old(database.db).payments| || old(database.db).orders[p].user != user
      ensures r == Conflict ==>
                && p < |database.db.payments|
                && database.db.payments[p].status != Unpaid && database.db.payments[p].status != WaitingVerification
      ensures r == Done ==> p < |database.db.payments| && database.db.payments[p].status == WaitingVerification
                            && database.db.payments[p].receipt == Some(receipt)
      ensures r != Replayed
      ensures database.quiet ==>
                database.db == if r == NotFound then old(database.db)
                  else ReceiptTx(old(database.db), p, receipt, false, old(database.db).now)
    {
      ReachesSelf(database.cfg, database.db);
      if p >= |database.db.payments| || database.db.orders[database.db.payments[p].order].user != user {
        return NotFound;
      }
      database.Yield();
      ReachesGrows(database.cfg, old(database.db), database.db);
      ghost var before := database.db;
      var tx := ApplyReceiptInTx(database.db, p, receipt, false, database.db.now);
      if tx.None? {
        return Conflict;
      }
      TakeStep(database.cfg, old(database.db), before, Upload(p, receipt, before.now));
      database.db := tx.value;
      return Done;
    }

    /** One transaction: consume the token, then apply the receipt; a refused receipt un-consumes the token. */
    method SubmitReceiptByToken(k: nat, receipt: string) returns (r: Outcome)
      requires Linked(database.db)
      modifies database
      ensures database.Advanced()
      ensures r == NotFound <==>
                || k >= |old(database.db).tokens|
                || (var t := old(database.db).tokens[k];
                    t.swept || t.usedAt.Some? || t.expiresAt <= old(database.db).now)
      ensures r == Conflict ==>
                && database.db == old(database.db)
                && database.db.payments[database.db.tokens[k].payment].status !in {Unpaid, WaitingVerification}
      ensures r == Done ==>
                k < |database.db.tokens| && database.db.tokens[k].usedAt.Some?
                && old(database.db).tokens[k].usedAt.None?
                && var pay := database.db.payments[database.db.tokens[k].payment];
                   pay.status == WaitingVerification && pay.receipt == Some(receipt)
      ensures r != Replayed
      ensures database.db ==
                if r == NotFound then old(database.db)
                   else SubmitTx(old(database.db), k, receipt, old(database.db).now, old(database.db).now)
    {
      ReachesSelf(database.cfg, database.db);
      var tx := database.db;
      if k >= |tx.tokens| || tx.tokens[k].swept {
        return NotFound;
      }
      var now := tx.now;
      if tx.tokens[k].usedAt != None || tx.tokens[k].expiresAt <= now {
        return NotFound;
      }
      tx := tx.(tokens := tx.tokens[k := tx.tokens[k].(usedAt := Some(now))]);
      var applied := ApplyReceiptInTx(tx, tx.tokens[k].payment, receipt, true, now);
      if applied.None? {
        return Conflict;
      }
      TakeStep(database.cfg, old(database.db), old(database.db), Submit(k, receipt, now, now));
      database.db := applied.value;
      return Done;
    }
  }
}
