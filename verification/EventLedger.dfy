/**
 * What the outbox tells about orders and payments, on every run of the shop: each order
 * is announced once, each status it went through has its event, each receipt has one,
 * and the times on the rows are those of the events that wrote them.
 */
module EventLedger {
  import opened Base
  import opened Pricing
  import opened Shop
  import opened PaymentLedger

  function Receipts(outbox: seq<Event>, i: nat): int {
    Tally(outbox, ReceiptUploaded(true), i) + Tally(outbox, ReceiptUploaded(false), i)
  }

  /** Events that always move the order's status, and events that move it if it can still be cancelled. */
  function Moves(outbox: seq<Event>, i: nat): int {
    Tally(outbox, OrderStatusUpdated, i) + Tally(outbox, PaymentPaid, i)
  }
  function MayCancel(outbox: seq<Event>, i: nat): int {
    Tally(outbox, PaymentFailed, i) + Tally(outbox, PaymentExpired, i)
  }

  /**
   * Order i was announced once if it exists; its status log starts at PENDING, ends at
   * its status, and has an entry for every event that moves it; its payment has a receipt
   * exactly when a receipt event was written, and an approver exactly when it is PAID.
   */
  ghost predicate StoryOk(orders: seq<Order>, payments: seq<Payment>, outbox: seq<Event>, i: nat) {
    && Tally(outbox, OrderCreated, i) == (if i < |orders| then 1 else 0)
    && 0 <= MayCancel(outbox, i) && 0 <= Receipts(outbox, i)
    && (i < |orders| && i < |payments| ==>
          var log := orders[i].log;
          && log != [] && log[0] == Pending && log[|log| - 1] == orders[i].status
          && 0 <= |log| - 1 - Moves(outbox, i) <= MayCancel(outbox, i)
          && (payments[i].receipt.Some? <==> 1 <= Receipts(outbox, i))
          && (payments[i].verifiedBy.Some? <==> payments[i].status == Paid))
    && (i >= |orders| ==> Moves(outbox, i) == MayCancel(outbox, i) == Receipts(outbox, i) == 0)
  }

  ghost predicate AllTold(db: Db) { forall i: nat :: StoryOk(db.orders, db.payments, db.outbox, i) }

  /** A transaction on the order of payment p: new rows for both, and one event about them. */
  ghost predicate Rewrites(db: Db, u: Db, p: nat, e: Event) {
    && p < |db.orders| == |db.payments| && |u.orders| == |db.orders| && |u.payments| == |db.payments|
    && (forall i | 0 <= i < |db.orders| && i != p :: u.orders[i] == db.orders[i] && u.payments[i] == db.payments[i])
    && u.outbox == db.outbox + [e] && e.aggregate == p
  }

  /** What one event means for the order and the payment it names. */
  ghost predicate Means(o: Order, pay: Payment, o': Order, pay': Payment, name: EventName) {
    match name
    case OrderCreated => false
    case OrderStatusUpdated => pay' == pay && Appends(o, o')
    case PaymentPaid =>
      && Appends(o, o') && o'.status == Processing
      && pay'.verifiedBy.Some? && pay' == pay.(status := Paid, verifiedBy := pay'.verifiedBy)
    case PaymentFailed => CancelsIfActive(o, o') && pay' == pay.(status := Failed) && pay.status != Paid
    case PaymentExpired => CancelsIfActive(o, o') && pay' == pay.(status := Expired) && pay.status != Paid
    case ReceiptUploaded(_) =>
      && o' == o && pay.status != Paid && pay'.receipt.Some?
      && pay' == pay.(status := WaitingVerification, receipt := pay'.receipt)
    case Reminder(_) =>
      o' == o && pay' == pay.(firstReminderAt := pay'.firstReminderAt, secondReminderAt := pay'.secondReminderAt)
  }

  predicate Appends(o: Order, o': Order) { o'.log == o.log + [o'.status] }

  /** The order is cancelled if it still can be, and left alone if not. */
  predicate CancelsIfActive(o: Order, o': Order) {
    if o.status in {Pending, Processing, Packing, Shipped, Delivering} then Appends(o, o') && o'.status == Cancelled
    else o' == o
  }

  lemma {:induction false} OthersKeepStory(db: Db, u: Db, p: nat, e: Event, i: nat)
    requires StoryOk(db.orders, db.payments, db.outbox, i) && Rewrites(db, u, p, e) && i != p
    ensures StoryOk(u.orders, u.payments, u.outbox, i)
  {
    TallyEmit(db.outbox, e, i);
  }

  lemma {:induction false} SubjectKeepsStory(db: Db, u: Db, p: nat, e: Event)
    requires StoryOk(db.orders, db.payments, db.outbox, p) && Rewrites(db, u, p, e)
    requires Means(db.orders[p], db.payments[p], u.orders[p], u.payments[p], e.name)
    ensures StoryOk(u.orders, u.payments, u.outbox, p)
  {
    TallyEmit(db.outbox, e, p);
  }

  lemma {:induction false} RewriteKeepsStory(db: Db, u: Db, p: nat, e: Event)
    requires AllTold(db) && Rewrites(db, u, p, e)
    requires Means(db.orders[p], db.payments[p], u.orders[p], u.payments[p], e.name)
    ensures AllTold(u)
  {
    forall i: nat ensures StoryOk(u.orders, u.payments, u.outbox, i) {
      assert StoryOk(db.orders, db.payments, db.outbox, i);
      if i == p {
        SubjectKeepsStory(db, u, p, e);
      } else {
        OthersKeepStory(db, u, p, e, i);
      }
    }
  }

  lemma {:induction false} OrderStartsStory(
      orders: seq<Order>, payments: seq<Payment>, outbox: seq<Event>, o: Order, pay: Payment, clock: Millis, i: nat)
    requires |orders| == |payments| && StoryOk(orders, payments, outbox, i)
    requires o.log == [Pending] && o.status == Pending && pay.receipt == None && pay.verifiedBy == None
    requires pay.status == Unpaid
    ensures StoryOk(orders + [o], payments + [pay], outbox + [Event(OrderCreated, |orders|, clock)], i)
  {
    TallyEmit(outbox, Event(OrderCreated, |orders|, clock), i);
  }

  lemma {:induction false} PlaceKeepsStory(db: Db, d: Draft, clock: Millis)
    requires Linked(db) && AllTold(db)
    ensures AllTold(PlaceTx(db, d, clock))
  {
    var u := PlaceTx(db, d, clock);
    forall i: nat ensures StoryOk(u.orders, u.payments, u.outbox, i) {
      assert StoryOk(db.orders, db.payments, db.outbox, i);
      if Places(db, d) {
        OrderStartsStory(db.orders, db.payments, db.outbox, NewOrder(d), u.payments[|db.payments|], clock, i);
      }
    }
  }

  /** The payment or order a step is about; a step about nothing changes no row that a story is about. */
  function Subject(db: Db, a: Action): nat
    requires Linked(db)
  {
    match a
    case Verify(p, _, _) => p
    case Reject(p, _) => p
    case Expire(p, _, _) => p
    case SetStatus(o, _, _) => o
    case Upload(p, _, _) => p
    case Submit(k, _, _, _) => if k < |db.tokens| then db.tokens[k].payment else 0
    case Remind(p, _, _) => p
    case _ => 0
  }

  /** The step changes nothing a story is about, or it rewrites its subject's rows and writes the event that says so. */
  ghost predicate Tells(db: Db, u: Db, p: nat) {
    if u.outbox == db.outbox then u.orders == db.orders && u.payments == db.payments
    else
      && |u.outbox| == |db.outbox| + 1 && Rewrites(db, u, p, u.outbox[|db.outbox|])
      && Means(db.orders[p], db.payments[p], u.orders[p], u.payments[p], u.outbox[|db.outbox|].name)
  }

  lemma {:induction false} VerifyTells(db: Db, p: nat, admin: Id, clock: Millis)
    requires Linked(db) && p < |db.payments|
    ensures Tells(db, VerifyTx(db, p, admin, clock), p)
  {
    assert db.payments[p].order == p;
  }

  lemma {:induction false} CancelTells(db: Db, p: nat, s: PaymentStatus, name: EventName, clock: Millis)
    requires Linked(db) && p < |db.payments| && db.payments[p].status != Paid
    requires (s == Failed && name == PaymentFailed) || (s == Expired && name == PaymentExpired)
    ensures Tells(db, Emit(CancelAndRestock(SetPayment(db, p, s), p), name, p, clock), p)
  {
  }

  lemma {:induction false} VerdictTells(cfg: Config, db: Db, a: Action)
    requires Linked(db) && Allowed(cfg, db, a) && (a.Verify? || a.Reject? || a.Expire?)
    ensures Tells(db, Step(cfg, db, a), a.p)
  {
    match a
    case Verify(p, admin, clock) => VerifyTells(db, p, admin, clock);
    case Reject(p, clock) =>
      if !Terminal(db.payments[p].status) {
        CancelTells(db, p, Failed, PaymentFailed, clock);
      }
    case Expire(p, _, clock) =>
      if Eligible(db.payments[p].status) {
        CancelTells(db, p, Expired, PaymentExpired, clock);
      }
    case _ =>
  }

  lemma {:induction false} StatusTells(cfg: Config, db: Db, a: Action)
    requires Linked(db) && Allowed(cfg, db, a) && a.SetStatus?
    ensures Tells(db, Step(cfg, db, a), a.o)
  {
  }

  lemma {:induction false} ReceiptTells(cfg: Config, db: Db, a: Action)
    requires Linked(db) && Allowed(cfg, db, a) && (a.Upload? || a.Submit?)
    ensures Tells(db, Step(cfg, db, a), Subject(db, a))
  {
  }

  lemma {:induction false} StepTells(cfg: Config, db: Db, a: Action)
    requires Linked(db) && AllTold(db) && Allowed(cfg, db, a) && !a.Place?
    ensures Tells(db, Step(cfg, db, a), Subject(db, a))
  {
    if a.Verify? || a.Reject? || a.Expire? {
      VerdictTells(cfg, db, a);
    } else if a.SetStatus? {
      StatusTells(cfg, db, a);
    } else if a.Upload? || a.Submit? {
      ReceiptTells(cfg, db, a);
    }
  }

  lemma {:induction false} StepKeepsStory(cfg: Config, db: Db, a: Action)
    requires Linked(db) && AllTold(db) && Allowed(cfg, db, a)
    ensures AllTold(Step(cfg, db, a))
  {
    if a.Place? {
      PlaceKeepsStory(db, a.draft, a.clock);
    } else {
      var u := Step(cfg, db, a);
      StepTells(cfg, db, a);
      if u.outbox != db.outbox {
        RewriteKeepsStory(db, u, Subject(db, a), u.outbox[|db.outbox|]);
      } else {
        forall i: nat ensures StoryOk(u.orders, u.payments, u.outbox, i) {
          assert StoryOk(db.orders, db.payments, db.outbox, i);
        }
      }
    }
  }

  /** On every run the outbox tells every order's story. */
  lemma {:induction false} EventsTellTheStory(cfg: Config, db: Db, acts: seq<Action>)
    requires Linked(db) && AllTold(db) && AllowedRun(cfg, db, acts)
    ensures AllTold(Run(cfg, db, acts))
    decreases |acts|
  {
    if acts != [] {
      StepKeepsLinked(cfg, db, acts[0]);
      StepKeepsStory(cfg, db, acts[0]);
      EventsTellTheStory(cfg, Step(cfg, db, acts[0]), acts[1..]);
    }
  }

  lemma {:induction false} InitIsTold(db: Db)
    requires Init(db)
    ensures Linked(db) && AllTold(db) && forall cfg :: Timely(cfg, db)
  {
  }

  // ---- what can be cancelled ----

  /** Only an order on its way is cancelled: never a delivered, completed or cancelled one. */
  predicate CancelsInTime(log: seq<OrderStatus>) {
    forall k | 0 < k < |log| && log[k] == Cancelled :: log[k - 1] in {Pending, Processing, Packing, Shipped, Delivering}
  }

  predicate AllInTime(db: Db) { forall i | 0 <= i < |db.orders| :: CancelsInTime(db.orders[i].log) }

  lemma {:induction false} OneMoreStatus(o: Order, o': Order)
    requires o.log != [] && o.log[|o.log| - 1] == o.status && CancelsInTime(o.log)
    requires o'.log == o.log || o'.log == o.log + [o'.status]
    requires o'.log != o.log && o'.status == Cancelled ==>
               o.status in {Pending, Processing, Packing, Shipped, Delivering}
    ensures CancelsInTime(o'.log)
  {
  }

  lemma {:induction false} StepCancelsInTime(cfg: Config, db: Db, a: Action, i: nat)
    requires Linked(db) && AllTold(db) && Allowed(cfg, db, a) && i < |Step(cfg, db, a).orders|
    requires i < |db.orders| ==> CancelsInTime(db.orders[i].log)
    ensures CancelsInTime(Step(cfg, db, a).orders[i].log)
  {
    assert StoryOk(db.orders, db.payments, db.outbox, i);
    if a.Place? {
      assert i < |db.orders| || Step(cfg, db, a).orders[i].log == [Pending];
    } else {
      StepIsSameBusiness(cfg, db, a);
      var u := Step(cfg, db, a);
      StepTells(cfg, db, a);
      CancelIsFromActive(cfg, db, a, i);
      OneMoreStatus(db.orders[i], u.orders[i]);
    }
  }

  lemma {:induction false} CancelIsFromActive(cfg: Config, db: Db, a: Action, i: nat)
    requires Linked(db) && Allowed(cfg, db, a) && !a.Place? && i < |db.orders|
    ensures var u := Step(cfg, db, a);
            && |u.orders| == |db.orders|
            && (u.orders[i].log != db.orders[i].log && u.orders[i].status == Cancelled ==>
                  db.orders[i].status in {Pending, Processing, Packing, Shipped, Delivering})
  {
    StepIsSameBusiness(cfg, db, a);
  }

  /** On every run orders are cancelled only from the five active statuses. */
  lemma {:induction false} CancelsAreInTime(cfg: Config, db: Db, acts: seq<Action>)
    requires Linked(db) && AllTold(db) && AllowedRun(cfg, db, acts)
    requires AllInTime(db)
    ensures AllInTime(Run(cfg, db, acts))
    decreases |acts|
  {
    if acts != [] {
      var u := Step(cfg, db, acts[0]);
      StepKeepsLinked(cfg, db, acts[0]);
      StepKeepsStory(cfg, db, acts[0]);
      forall i | 0 <= i < |u.orders| ensures CancelsInTime(u.orders[i].log) {
        StepCancelsInTime(cfg, db, acts[0], i);
      }
      CancelsAreInTime(cfg, u, acts[1..]);
    }
  }

  // ---- times ----

  const DAY_MS := 24 * 60 * 60 * 1000

  predicate Issues(name: EventName) { name == OrderCreated || name.Reminder? }

  /** An event is not from the future, an order's is not later than its payment's row, an expiry not early. */
  ghost predicate EventTimely(cfg: Config, payments: seq<Payment>, now: Millis, e: Event) {
    && e.occurredAt <= now
    && (e.name == OrderCreated ==>
          e.aggregate < |payments| && e.occurredAt <= payments[e.aggregate].createdAt <= now)
    && (e.name == PaymentExpired ==>
          && e.aggregate < |payments|
          && var pay := payments[e.aggregate];
             match pay.payMethod
             case BankTransfer => pay.createdAt + cfg.expiryAfterMs <= e.occurredAt
             case Qris => pay.createdAt + cfg.expiryAfterMs <= e.occurredAt
             case Gateway => 0 < cfg.gatewayExpiryAfterMs && pay.createdAt + cfg.gatewayExpiryAfterMs <= e.occurredAt
             case Cod => false)
  }

  /**
   * A token lives for exactly three days from the event it was issued with; only then is
   * it unusable, and may be swept.
   */
  ghost predicate TokenTimely(outbox: seq<Event>, now: Millis, t: Token) {
    && (t.swept ==> t.expiresAt < now) && (t.usedAt.Some? ==> t.usedAt.value < t.expiresAt)
    && exists k :: 0 <= k < |outbox| && Issues(outbox[k].name) && outbox[k].aggregate == t.payment
                && t.expiresAt == outbox[k].occurredAt + 3 * DAY_MS
  }

  /** No reminder of a stage, and no selection for one, before the stage's delay is over. */
  ghost predicate RemindersTimely(cfg: Config, db: Db, i: nat)
    requires i < |db.payments|
  {
    var pay := db.payments[i];
    && (i in db.dueFirst || pay.firstReminderAt.Some? ==>
          (pay.payMethod == BankTransfer || pay.payMethod == Qris)
            && pay.createdAt + cfg.firstReminderAfterMs <= db.now)
    && (i in db.dueSecond || pay.secondReminderAt.Some? ==> pay.createdAt + cfg.secondReminderAfterMs <= db.now)
    && (pay.firstReminderAt.Some? ==> pay.firstReminderAt.value <= db.now)
    && (pay.secondReminderAt.Some? ==> pay.secondReminderAt.value <= db.now)
  }

  ghost predicate Timely(cfg: Config, db: Db) {
    && (forall k | 0 <= k < |db.outbox| :: EventTimely(cfg, db.payments, db.now, db.outbox[k]))
    && (forall k | 0 <= k < |db.tokens| :: TokenTimely(db.outbox, db.now, db.tokens[k]))
    && (forall i | 0 <= i < |db.payments| :: RemindersTimely(cfg, db, i))
  }

  lemma {:induction false} EventStaysTimely(cfg: Config, db: Db, u: Db, e: Event)
    requires EventTimely(cfg, db.payments, db.now, e) && db.now <= u.now && |db.payments| <= |u.payments|
    requires forall i | 0 <= i < |db.payments| ::
               u.payments[i].payMethod == db.payments[i].payMethod
                 && u.payments[i].createdAt == db.payments[i].createdAt
    ensures EventTimely(cfg, u.payments, u.now, e)
  {
  }

  lemma {:induction false} TokenStaysTimely(
      outbox: seq<Event>, more: seq<Event>, was: Millis, now: Millis, t: Token, t': Token)
    requires TokenTimely(outbox, was, t) && outbox <= more && was <= now && TokenLives(t, t', now)
    ensures TokenTimely(more, now, t')
  {
    var k :| 0 <= k < |outbox| && Issues(outbox[k].name) && outbox[k].aggregate == t.payment
             && t.expiresAt == outbox[k].occurredAt + 3 * DAY_MS;
    assert more[k] == outbox[k];
  }

  /** A token is used before it expires, and swept after. */
  predicate TokenLives(t: Token, t': Token, now: Millis) {
    && t'.payment == t.payment && t'.expiresAt == t.expiresAt
    && (t'.usedAt == t.usedAt || (t'.usedAt.Some? && t'.usedAt.value < t.expiresAt))
    && (t'.swept == t.swept || (t'.swept && t.expiresAt < now))
  }

  /** What a step does to rows with times: they stay, and new ones come with the event that says when. */
  ghost predicate Dated(cfg: Config, db: Db, u: Db) {
    && db.now <= u.now && |db.payments| <= |u.payments|
    && (forall i | 0 <= i < |db.payments| ::
          u.payments[i].payMethod == db.payments[i].payMethod && u.payments[i].createdAt == db.payments[i].createdAt)
    && db.outbox <= u.outbox && |u.outbox| <= |db.outbox| + 1
    && (|db.outbox| < |u.outbox| ==> EventTimely(cfg, u.payments, u.now, u.outbox[|db.outbox|]))
    && |db.tokens| <= |u.tokens| <= |db.tokens| + 1
    && (forall k | 0 <= k < |db.tokens| ::
          TokenLives(db.tokens[k], u.tokens[k], u.now))
    && (|db.tokens| < |u.tokens| ==>
          && |db.outbox| < |u.outbox| && Issues(u.outbox[|db.outbox|].name)
          && u.outbox[|db.outbox|].aggregate == u.tokens[|db.tokens|].payment
          && u.tokens[|db.tokens|].expiresAt == u.outbox[|db.outbox|].occurredAt + 3 * DAY_MS
          && !u.tokens[|db.tokens|].swept && u.tokens[|db.tokens|].usedAt == None)
  }

  lemma {:induction false} PlaceIsDated(cfg: Config, db: Db, a: Action)
    requires Linked(db) && Allowed(cfg, db, a) && a.Place?
    ensures Dated(cfg, db, Step(cfg, db, a))
  {
  }

  lemma {:induction false} RemindIsDated(cfg: Config, db: Db, a: Action)
    requires Linked(db) && Allowed(cfg, db, a) && a.Remind?
    ensures Dated(cfg, db, Step(cfg, db, a))
  {
  }

  lemma {:induction false} ExpireIsDated(cfg: Config, db: Db, a: Action)
    requires Linked(db) && Allowed(cfg, db, a) && a.Expire?
    ensures Dated(cfg, db, Step(cfg, db, a))
  {
    StepIsSameBusiness(cfg, db, a);
  }

  lemma {:induction false} TokensAreDated(cfg: Config, db: Db, a: Action)
    requires Linked(db) && Allowed(cfg, db, a) && (a.Submit? || a.SweepTokens?)
    ensures Dated(cfg, db, Step(cfg, db, a))
  {
    StepIsSameBusiness(cfg, db, a);
  }

  lemma {:induction false} StepIsDated(cfg: Config, db: Db, a: Action)
    requires Linked(db) && Allowed(cfg, db, a)
    ensures Dated(cfg, db, Step(cfg, db, a))
  {
    if a.Place? {
      PlaceIsDated(cfg, db, a);
    } else if a.Remind? {
      RemindIsDated(cfg, db, a);
    } else if a.Expire? {
      ExpireIsDated(cfg, db, a);
    } else if a.Submit? || a.SweepTokens? {
      TokensAreDated(cfg, db, a);
    } else {
      StepIsSameBusiness(cfg, db, a);
    }
  }

  predicate Reminds(a: Action) { a.Select? || a.Remind? }

  predicate SlotsLeft(db: Db, u: Db, i: nat)
    requires i < |u.payments|
  {
    && db.now <= u.now && u.dueFirst == db.dueFirst && u.dueSecond == db.dueSecond
    && u.payments[i].firstReminderAt == (if i < |db.payments| then db.payments[i].firstReminderAt else None)
    && u.payments[i].secondReminderAt == (if i < |db.payments| then db.payments[i].secondReminderAt else None)
  }

  /** Only selecting and reminding touch the reminder slots; a new payment's are empty. */
  lemma {:induction false} OthersLeaveSlots(cfg: Config, db: Db, a: Action, i: nat)
    requires Linked(db) && Allowed(cfg, db, a) && !Reminds(a) && i < |Step(cfg, db, a).payments|
    ensures SlotsLeft(db, Step(cfg, db, a), i)
  {
    match a
    case Place(d, clock) => PlaceLeavesSlots(db, d, clock, i);
    case Submit(k, receipt, readClock, clock) => SubmitLeavesSlots(db, k, receipt, readClock, clock, i);
    case Reject(p, clock) => CancelLeavesSlots(db, p, Failed, PaymentFailed, clock, i);
    case Expire(p, _, clock) => CancelLeavesSlots(db, p, Expired, PaymentExpired, clock, i);
    case Verify(p, admin, clock) => VerifyLeavesSlots(db, p, admin, clock, i);
    case SetStatus(o, s, clock) => StatusLeavesSlots(db, o, s, clock, i);
    case _ =>
  }

  lemma {:induction false} VerifyLeavesSlots(db: Db, p: nat, admin: Id, clock: Millis, i: nat)
    requires Linked(db) && p < |db.payments| && i < |db.payments|
    ensures |VerifyTx(db, p, admin, clock).payments| == |db.payments|
    ensures SlotsLeft(db, VerifyTx(db, p, admin, clock), i)
  {
  }

  lemma {:induction false} StatusLeavesSlots(db: Db, o: nat, s: OrderStatus, clock: Millis, i: nat)
    requires o < |db.orders| && i < |db.payments|
    ensures |SetStatusTx(db, o, s, clock).payments| == |db.payments|
    ensures SlotsLeft(db, SetStatusTx(db, o, s, clock), i)
  {
  }

  lemma {:induction false} PlaceLeavesSlots(db: Db, d: Draft, clock: Millis, i: nat)
    requires i < |PlaceTx(db, d, clock).payments|
    ensures SlotsLeft(db, PlaceTx(db, d, clock), i)
  {
  }

  lemma {:induction false} CancelLeavesSlots(
      db: Db, p: nat, s: PaymentStatus, name: EventName, clock: Millis, i: nat)
    requires Linked(db) && p < |db.payments| && i < |db.payments|
    ensures |Emit(CancelAndRestock(SetPayment(db, p, s), p), name, p, clock).payments| == |db.payments|
    ensures SlotsLeft(db, Emit(CancelAndRestock(SetPayment(db, p, s), p), name, p, clock), i)
  {
  }

  lemma {:induction false} SubmitLeavesSlots(
      db: Db, k: nat, receipt: string, readClock: Millis, clock: Millis, i: nat)
    requires Linked(db) && k < |db.tokens| && i < |db.payments|
    ensures |SubmitTx(db, k, receipt, readClock, clock).payments| == |db.payments|
    ensures SlotsLeft(db, SubmitTx(db, k, receipt, readClock, clock), i)
  {
  }

  lemma {:induction false} RemindKeepsReminders(cfg: Config, db: Db, a: Action, i: nat)
    requires Linked(db) && Timely(cfg, db) && Allowed(cfg, db, a) && Reminds(a) && i < |db.payments|
    ensures i < |Step(cfg, db, a).payments| && RemindersTimely(cfg, Step(cfg, db, a), i)
  {
    assert RemindersTimely(cfg, db, i);
  }

  lemma {:induction false} StepKeepsReminders(cfg: Config, db: Db, a: Action, i: nat)
    requires Linked(db) && Timely(cfg, db) && Allowed(cfg, db, a) && Dated(cfg, db, Step(cfg, db, a))
    requires i < |Step(cfg, db, a).payments|
    ensures RemindersTimely(cfg, Step(cfg, db, a), i)
  {
    if Reminds(a) {
      RemindKeepsReminders(cfg, db, a, i);
    } else {
      OthersLeaveSlots(cfg, db, a, i);
      if i < |db.payments| {
        assert RemindersTimely(cfg, db, i);
      }
    }
  }

  lemma {:induction false} StepKeepsTimes(cfg: Config, db: Db, a: Action)
    requires Linked(db) && Timely(cfg, db) && Allowed(cfg, db, a)
    ensures Timely(cfg, Step(cfg, db, a))
  {
    var u := Step(cfg, db, a);
    StepIsDated(cfg, db, a);
    forall k | 0 <= k < |u.outbox| ensures EventTimely(cfg, u.payments, u.now, u.outbox[k]) {
      if k < |db.outbox| {
        EventStaysTimely(cfg, db, u, db.outbox[k]);
      }
    }
    forall k | 0 <= k < |u.tokens| ensures TokenTimely(u.outbox, u.now, u.tokens[k]) {
      if k < |db.tokens| {
        TokenStaysTimely(db.outbox, u.outbox, db.now, u.now, db.tokens[k], u.tokens[k]);
      } else {
        assert Issues(u.outbox[|db.outbox|].name);
      }
    }
    forall i | 0 <= i < |u.payments| ensures RemindersTimely(cfg, u, i) {
      StepKeepsReminders(cfg, db, a, i);
    }
  }

  /**
   * On every run: payments are dated no earlier than their order's event, upload tokens
   * live three days from the checkout or reminder they came with, nothing expires and
   * nobody is reminded before the configured delay of the payment's own method or stage.
   */
  lemma {:induction false} TimesAreKept(cfg: Config, db: Db, acts: seq<Action>)
    requires Linked(db) && Timely(cfg, db) && AllowedRun(cfg, db, acts)
    ensures Timely(cfg, Run(cfg, db, acts))
    decreases |acts|
  {
    if acts != [] {
      StepKeepsLinked(cfg, db, acts[0]);
      StepKeepsTimes(cfg, db, acts[0]);
      TimesAreKept(cfg, Step(cfg, db, acts[0]), acts[1..]);
    }
  }
}
