/** Payments, their events, upload tokens, vouchers and totals, on every run of the shop. */
module PaymentLedger {
  import opened Base
  import opened Sums
  import opened Pricing
  import opened Shop

  function B(b: bool): int { if b then 1 else 0 }

  function EventOf(name: EventName, i: nat): Event -> int { (e: Event) => B(e.name == name && e.aggregate == i) }

  /** How many events of this name were ever written for this payment. */
  function Tally(outbox: seq<Event>, name: EventName, i: nat): int { SumOf(outbox, EventOf(name, i)) }

  function TokenOf(i: nat): Token -> int { (t: Token) => B(t.payment == i) }
  function UsedTokenOf(i: nat): Token -> int { (t: Token) => B(t.payment == i && t.usedAt.Some?) }
  function AuditOf(i: nat): nat -> int { (a: nat) => B(a == i) }

  /**
   * The payment's status is matched by exactly one terminal event (and audit row),
   * each reminder slot by one reminder event and one token, and each used token by
   * one receipt event.
   */
  ghost predicate PaymentOk(
      cfg: Config, payments: seq<Payment>, tokens: seq<Token>, outbox: seq<Event>, audits: seq<nat>, i: nat) {
    if i < |payments| then
      var pay := payments[i];
      && pay.status != Refunded
      && Tally(outbox, PaymentPaid, i) == B(pay.status == Paid) == SumOf(audits, AuditOf(i))
      && Tally(outbox, PaymentFailed, i) == B(pay.status == Failed)
      && Tally(outbox, PaymentExpired, i) == B(pay.status == Expired)
      && (pay.status == Expired ==> ExpiryWindow(cfg, pay.payMethod).Some?)
      && Tally(outbox, Reminder(First), i) == B(pay.firstReminderAt.Some?)
      && Tally(outbox, Reminder(Second), i) == B(pay.secondReminderAt.Some?)
      && (pay.secondReminderAt.Some? ==> pay.firstReminderAt.Some?)
      && (pay.firstReminderAt.Some? ==> ReceiptMethod(pay.payMethod))
      && SumOf(tokens, TokenOf(i)) == B(ReceiptMethod(pay.payMethod))
         + B(pay.firstReminderAt.Some?) + B(pay.secondReminderAt.Some?)
      && SumOf(tokens, UsedTokenOf(i)) == Tally(outbox, ReceiptUploaded(true), i)
    else
      && Tally(outbox, PaymentPaid, i) == Tally(outbox, PaymentFailed, i) == Tally(outbox, PaymentExpired, i) == 0
      && Tally(outbox, Reminder(First), i) == Tally(outbox, Reminder(Second), i) ==
           Tally(outbox, ReceiptUploaded(true), i) == 0
      && SumOf(tokens, TokenOf(i)) == SumOf(tokens, UsedTokenOf(i)) == SumOf(audits, AuditOf(i)) == 0
  }

  ghost predicate PaymentsOk(cfg: Config, db: Db) {
    && (forall i: nat :: PaymentOk(cfg, db.payments, db.tokens, db.outbox, db.audits, i))
    && (forall p | p in db.dueFirst :: p < |db.payments| && ReceiptMethod(db.payments[p].payMethod))
    && (forall p | p in db.dueSecond :: p < |db.payments| && db.payments[p].firstReminderAt.Some?)
  }

  lemma {:induction false} TallyEmit(outbox: seq<Event>, e: Event, i: nat)
    ensures forall name {:trigger Tally(outbox + [e], name, i)} ::
              Tally(outbox + [e], name, i) == Tally(outbox, name, i) + B(e.name == name && e.aggregate == i)
  {
    forall name ensures Tally(outbox + [e], name, i) == Tally(outbox, name, i) + B(e.name == name && e.aggregate == i) {
      SumOfAppend(outbox, e, EventOf(name, i));
    }
  }

  lemma {:induction false} IssueTokens(tokens: seq<Token>, t: Token, i: nat)
    ensures SumOf(tokens + [t], TokenOf(i)) == SumOf(tokens, TokenOf(i)) + B(t.payment == i)
    ensures SumOf(tokens + [t], UsedTokenOf(i)) == SumOf(tokens, UsedTokenOf(i)) + B(t.payment == i && t.usedAt.Some?)
  {
    SumOfAppend(tokens, t, TokenOf(i));
    SumOfAppend(tokens, t, UsedTokenOf(i));
  }

  /** A new payment: nothing has happened to it yet, and it has its first token if it is paid by receipt. */
  lemma {:induction false} PaymentStarts(cfg: Config, db: Db, pay: Payment, expiresAt: Millis, e: Event, i: nat)
    requires PaymentOk(cfg, db.payments, db.tokens, db.outbox, db.audits, i) && e.name == OrderCreated
    requires pay.status == Unpaid && pay.firstReminderAt == None && pay.secondReminderAt == None
    ensures PaymentOk(cfg, db.payments + [pay],
              if ReceiptMethod(pay.payMethod) then db.tokens + [Token(|db.payments|, expiresAt, None, false)]
                 else db.tokens,
              db.outbox + [e], db.audits, i)
  {
    TallyEmit(db.outbox, e, i);
    IssueTokens(db.tokens, Token(|db.payments|, expiresAt, None, false), i);
  }

  lemma {:induction false} PlaceKeepsPayment(cfg: Config, db: Db, d: Draft, clock: Millis, i: nat)
    requires PaymentOk(cfg, db.payments, db.tokens, db.outbox, db.audits, i)
    ensures var u := PlaceTx(db, d, clock); PaymentOk(cfg, u.payments, u.tokens, u.outbox, u.audits, i)
  {
    if Places(db, d) {
      var u := PlaceTx(db, d, clock);
      PaymentStarts(cfg, db, u.payments[|db.payments|], clock + UPLOAD_TOKEN_TTL_MS,
        Event(OrderCreated, |db.orders|, clock), i);
      assert u.audits == db.audits;
    }
  }

  /** Verify, reject and expire: one status flip, one event, and an audit row for verify. */
  lemma {:induction false} FlipKeepsPayment(
      cfg: Config, db: Db, p: nat, s: PaymentStatus, pay: Payment, e: Event, audits: seq<nat>, i: nat)
    requires p < |db.payments| && PaymentOk(cfg, db.payments, db.tokens, db.outbox, db.audits, i)
    requires Eligible(db.payments[p].status) && pay == db.payments[p].(status := s, verifiedBy := pay.verifiedBy)
    requires e.aggregate == p && s in {Paid, Failed, Expired}
    requires e.name == match s case Paid => PaymentPaid case Failed => PaymentFailed case _ => PaymentExpired
    requires audits == if s == Paid then db.audits + [p] else db.audits
    requires s == Expired ==> ExpiryWindow(cfg, pay.payMethod).Some?
    ensures PaymentOk(cfg, db.payments[p := pay], db.tokens, db.outbox + [e], audits, i)
  {
    TallyEmit(db.outbox, e, i);
    if s == Paid {
      SumOfAppend(db.audits, p, AuditOf(i));
    }
  }

  lemma {:induction false} VerifyKeepsPayment(cfg: Config, db: Db, p: nat, admin: Id, clock: Millis, i: nat)
    requires Linked(db) && p < |db.payments| && PaymentOk(cfg, db.payments, db.tokens, db.outbox, db.audits, i)
    ensures var u := VerifyTx(db, p, admin, clock); PaymentOk(cfg, u.payments, u.tokens, u.outbox, u.audits, i)
  {
    if !Terminal(db.payments[p].status) {
      FlipKeepsPayment(cfg, db, p, Paid, db.payments[p].(status := Paid, verifiedBy := Some(admin)),
        Event(PaymentPaid, p, clock), db.audits + [p], i);
    }
  }

  lemma {:induction false} RejectKeepsPayment(cfg: Config, db: Db, p: nat, clock: Millis, i: nat)
    requires Linked(db) && p < |db.payments| && PaymentOk(cfg, db.payments, db.tokens, db.outbox, db.audits, i)
    ensures var u := RejectTx(db, p, clock); PaymentOk(cfg, u.payments, u.tokens, u.outbox, u.audits, i)
  {
    if !Terminal(db.payments[p].status) {
      FlipKeepsPayment(cfg, db, p, Failed, db.payments[p].(status := Failed), Event(PaymentFailed, p, clock),
        db.audits, i);
    }
  }

  lemma {:induction false} ExpireKeepsPayment(cfg: Config, db: Db, p: nat, clock: Millis, i: nat)
    requires Linked(db) && p < |db.payments| && PaymentOk(cfg, db.payments, db.tokens, db.outbox, db.audits, i)
    requires ExpiryWindow(cfg, db.payments[p].payMethod).Some?
    ensures var u := ExpireTx(db, p, clock); PaymentOk(cfg, u.payments, u.tokens, u.outbox, u.audits, i)
  {
    if Eligible(db.payments[p].status) {
      FlipKeepsPayment(cfg, db, p, Expired, db.payments[p].(status := Expired), Event(PaymentExpired, p, clock),
        db.audits, i);
    }
  }

  lemma {:induction false} SetStatusKeepsPayment(cfg: Config, db: Db, o: nat, s: OrderStatus, clock: Millis, i: nat)
    requires o < |db.orders| && PaymentOk(cfg, db.payments, db.tokens, db.outbox, db.audits, i)
    ensures var u := SetStatusTx(db, o, s, clock); PaymentOk(cfg, u.payments, u.tokens, u.outbox, u.audits, i)
  {
    StatusEventKeepsPayment(cfg, db, Event(OrderStatusUpdated, o, clock), i);
    var u := SetStatusTx(db, o, s, clock);
    assert u.payments == db.payments && u.tokens == db.tokens && u.audits == db.audits;
  }

  lemma {:induction false} StatusEventKeepsPayment(cfg: Config, db: Db, e: Event, i: nat)
    requires PaymentOk(cfg, db.payments, db.tokens, db.outbox, db.audits, i) && e.name == OrderStatusUpdated
    ensures PaymentOk(cfg, db.payments, db.tokens, db.outbox + [e], db.audits, i)
  {
    TallyEmit(db.outbox, e, i);
  }

  lemma {:induction false} ReceiptKeepsPayment(cfg: Config, db: Db, p: nat, receipt: string, clock: Millis, i: nat)
    requires p < |db.payments| && PaymentOk(cfg, db.payments, db.tokens, db.outbox, db.audits, i)
    ensures var u := ReceiptTx(db, p, receipt, false, clock);
            PaymentOk(cfg, u.payments, u.tokens, u.outbox, u.audits, i)
  {
    TallyEmit(db.outbox, Event(ReceiptUploaded(false), p, clock), i);
  }

  lemma {:induction false} SubmitKeepsPayment(
      cfg: Config, db: Db, k: nat, receipt: string, readClock: Millis, clock: Millis, i: nat)
    requires k < |db.tokens| && db.tokens[k].payment < |db.payments|
    requires PaymentOk(cfg, db.payments, db.tokens, db.outbox, db.audits, i)
    ensures var u := SubmitTx(db, k, receipt, readClock, clock);
            PaymentOk(cfg, u.payments, u.tokens, u.outbox, u.audits, i)
  {
    var used := db.tokens[k].(usedAt := Some(readClock));
    TallyEmit(db.outbox, Event(ReceiptUploaded(true), db.tokens[k].payment, clock), i);
    SumOfUpdate(db.tokens, k, used, TokenOf(i));
    SumOfUpdate(db.tokens, k, used, UsedTokenOf(i));
  }

  lemma {:induction false} RemindKeepsPayment(cfg: Config, db: Db, p: nat, stage: Stage, clock: Millis, i: nat)
    requires p < |db.payments| && PaymentOk(cfg, db.payments, db.tokens, db.outbox, db.audits, i)
    requires stage == First ==> ReceiptMethod(db.payments[p].payMethod)
    requires stage == Second ==> db.payments[p].firstReminderAt.Some?
    ensures var u := RemindTx(db, p, stage, clock); PaymentOk(cfg, u.payments, u.tokens, u.outbox, u.audits, i)
  {
    if Eligible(db.payments[p].status) && SlotFree(db.payments[p], stage) {
      var stamped := if stage == First then db.payments[p].(firstReminderAt := Some(clock))
        else db.payments[p].(secondReminderAt := Some(clock));
      SlotKeepsPayment(cfg, db, p, stage, stamped, Event(Reminder(stage), p, clock),
        Token(p, clock + UPLOAD_TOKEN_TTL_MS, None, false), i);
    }
  }

  /** One slot filled, one event, one token. */
  lemma {:induction false} SlotKeepsPayment(
      cfg: Config, db: Db, p: nat, stage: Stage, pay: Payment, e: Event, t: Token, i: nat)
    requires p < |db.payments| && PaymentOk(cfg, db.payments, db.tokens, db.outbox, db.audits, i)
    requires e.name == Reminder(stage) && e.aggregate == p && t.payment == p && t.usedAt == None
    requires stage == First ==>
               && ReceiptMethod(db.payments[p].payMethod) && db.payments[p].firstReminderAt == None
               && pay.firstReminderAt.Some? && pay == db.payments[p].(firstReminderAt := pay.firstReminderAt)
    requires stage == Second ==>
               && db.payments[p].firstReminderAt.Some? && db.payments[p].secondReminderAt == None
               && pay.secondReminderAt.Some? && pay == db.payments[p].(secondReminderAt := pay.secondReminderAt)
    ensures PaymentOk(cfg, db.payments[p := pay], db.tokens + [t], db.outbox + [e], db.audits, i)
  {
    TallyEmit(db.outbox, e, i);
    IssueTokens(db.tokens, t, i);
  }

  lemma {:induction false} SweepKeepsSums(tokens: seq<Token>, ks: set<nat>, i: nat)
    ensures SumOf(SweptTokens(tokens, ks), TokenOf(i)) == SumOf(tokens, TokenOf(i))
    ensures SumOf(SweptTokens(tokens, ks), UsedTokenOf(i)) == SumOf(tokens, UsedTokenOf(i))
    decreases |tokens|
  {
    if tokens != [] {
      var last := |tokens| - 1;
      SweepKeepsSums(tokens[..last], ks, i);
      assert SweptTokens(tokens, ks)[..last] == SweptTokens(tokens[..last], ks);
    }
  }

  lemma {:induction false} StepKeepsPayment(cfg: Config, db: Db, a: Action, i: nat)
    requires Linked(db) && PaymentsOk(cfg, db) && Allowed(cfg, db, a)
    ensures var u := Step(cfg, db, a); PaymentOk(cfg, u.payments, u.tokens, u.outbox, u.audits, i)
  {
    assert PaymentOk(cfg, db.payments, db.tokens, db.outbox, db.audits, i);
    match a
    case Place(d, clock) => PlaceKeepsPayment(cfg, db, d, clock, i);
    case Verify(p, admin, clock) => VerifyKeepsPayment(cfg, db, p, admin, clock, i);
    case Reject(p, clock) => RejectKeepsPayment(cfg, db, p, clock, i);
    case Expire(p, _, clock) => ExpireKeepsPayment(cfg, db, p, clock, i);
    case SetStatus(o, s, clock) => SetStatusKeepsPayment(cfg, db, o, s, clock, i);
    case Upload(p, receipt, clock) => ReceiptKeepsPayment(cfg, db, p, receipt, clock, i);
    case Submit(k, receipt, readClock, clock) => SubmitKeepsPayment(cfg, db, k, receipt, readClock, clock, i);
    case Remind(p, stage, clock) => RemindKeepsPayment(cfg, db, p, stage, clock, i);
    case SweepTokens(ks, _) => SweepKeepsSums(db.tokens, ks, i);
    case _ =>
  }

  /** Reminder slots are never cleared. */
  lemma {:induction false} SlotsStay(cfg: Config, db: Db, a: Action)
    requires Linked(db) && Allowed(cfg, db, a)
    ensures var u := Step(cfg, db, a);
            && |db.payments| <= |u.payments|
            && forall p | 0 <= p < |db.payments| ::
                 && u.payments[p].payMethod == db.payments[p].payMethod
                 && (db.payments[p].firstReminderAt.Some? ==> u.payments[p].firstReminderAt.Some?)
  {
    var u := Step(cfg, db, a);
    if !a.Place? {
      StepIsSameBusiness(cfg, db, a);
    }
    forall p | 0 <= p < |db.payments| && db.payments[p].firstReminderAt.Some?
      ensures u.payments[p].firstReminderAt.Some?
    {
      SlotStays(cfg, db, a, p);
    }
  }

  lemma {:induction false} SlotStays(cfg: Config, db: Db, a: Action, p: nat)
    requires Linked(db) && Allowed(cfg, db, a) && p < |db.payments| && db.payments[p].firstReminderAt.Some?
    ensures p < |Step(cfg, db, a).payments| && Step(cfg, db, a).payments[p].firstReminderAt.Some?
  {
    if a.Submit? {
      assert db.tokens[a.k].payment < |db.payments|;
    }
  }

  lemma {:induction false} StepKeepsPayments(cfg: Config, db: Db, a: Action)
    requires Linked(db) && PaymentsOk(cfg, db) && Allowed(cfg, db, a)
    ensures PaymentsOk(cfg, Step(cfg, db, a))
  {
    var u := Step(cfg, db, a);
    forall i: nat ensures PaymentOk(cfg, u.payments, u.tokens, u.outbox, u.audits, i) {
      StepKeepsPayment(cfg, db, a, i);
    }
    SlotsStay(cfg, db, a);
  }

  // ---- expiry is never early ----

  ghost predicate ExpiryOk(cfg: Config, payments: seq<Payment>, e: Event) {
    e.name == PaymentExpired ==>
      && e.aggregate < |payments|
      && ExpiryWindow(cfg, payments[e.aggregate].payMethod).Some?
      && ExpiryWindow(cfg, payments[e.aggregate].payMethod).value <= e.occurredAt - payments[e.aggregate].createdAt
  }

  lemma {:induction false} NewExpiryIsDue(cfg: Config, db: Db, a: Action, e: Event)
    requires Linked(db) && Allowed(cfg, db, a) && e in Step(cfg, db, a).outbox && e !in db.outbox
             && e.name == PaymentExpired
    ensures ExpiryOk(cfg, db.payments, e)
  {
    assert a.Expire?;
  }

  lemma {:induction false} StepKeepsExpiry(cfg: Config, db: Db, a: Action)
    requires Linked(db) && Allowed(cfg, db, a) && forall e | e in db.outbox :: ExpiryOk(cfg, db.payments, e)
    ensures forall e | e in Step(cfg, db, a).outbox :: ExpiryOk(cfg, Step(cfg, db, a).payments, e)
  {
    var u := Step(cfg, db, a);
    assert |db.payments| <= |u.payments| && forall i | 0 <= i < |db.payments| ::
        u.payments[i].payMethod == db.payments[i].payMethod && u.payments[i].createdAt == db.payments[i].createdAt by {
      if !a.Place? {
        StepIsSameBusiness(cfg, db, a);
      }
    }
    forall e | e in u.outbox ensures ExpiryOk(cfg, u.payments, e) {
      if e in db.outbox {
        assert ExpiryOk(cfg, db.payments, e);
      } else if e.name == PaymentExpired {
        NewExpiryIsDue(cfg, db, a, e);
      }
    }
  }

  // ---- vouchers ----

  function UsageOf(v: Id): Usage -> int { (u: Usage) => B(u.voucher == v) }

  /** The counter counts the usage rows and respects the maximum. */
  ghost predicate VoucherOk(initial: map<Id, Promo>, db: Db, v: Id) {
    v in initial ==>
      && v in db.promos && db.promos[v].maxUsage == initial[v].maxUsage
      && db.promos[v].current == initial[v].current + SumOf(db.usages, UsageOf(v))
      && (initial[v].maxUsage.Some? && initial[v].current <= initial[v].maxUsage.value ==>
            db.promos[v].current <= initial[v].maxUsage.value)
  }

  /** The order's voucher, if it has one, is booked for it. */
  ghost predicate Booked(db: Db, o: nat)
    requires o < |db.orders|
  {
    db.orders[o].voucher.Some? ==> Usage(db.orders[o].voucher.value, db.orders[o].user, o) in db.usages
  }

  /** One usage per voucher and user, each with its order, and one for each order with a voucher. */
  ghost predicate UsagesOk(db: Db) {
    && (forall o | 0 <= o < |db.orders| :: Booked(db, o))
    && (forall i, j | 0 <= i < j < |db.usages| ::
          db.usages[i].voucher != db.usages[j].voucher || db.usages[i].user != db.usages[j].user)
    && (forall u | u in db.usages ::
          u.order < |db.orders| && db.orders[u.order].user == u.user && db.orders[u.order].voucher == Some(u.voucher))
  }

  ghost predicate VouchersOk(initial: map<Id, Promo>, db: Db) {
    db.promos.Keys == initial.Keys && (forall v :: VoucherOk(initial, db, v)) && UsagesOk(db)
  }

  lemma {:induction false} BookingsStay(db: Db, u: Db)
    requires UsagesOk(db) && db.usages <= u.usages && |db.orders| <= |u.orders|
    requires forall o | 0 <= o < |db.orders| ::
               u.orders[o].voucher == db.orders[o].voucher && u.orders[o].user == db.orders[o].user
    requires forall o | |db.orders| <= o < |u.orders| :: Booked(u, o)
    ensures forall o | 0 <= o < |u.orders| :: Booked(u, o)
  {
    forall o | 0 <= o < |u.orders| ensures Booked(u, o) {
      if o < |db.orders| {
        assert Booked(db, o);
      }
    }
  }

  lemma {:induction false} StepKeepsVouchers(cfg: Config, initial: map<Id, Promo>, db: Db, a: Action)
    requires Linked(db) && Allowed(cfg, db, a) && VouchersOk(initial, db)
    ensures VouchersOk(initial, Step(cfg, db, a))
  {
    var u := Step(cfg, db, a);
    if !a.Place? {
      StepIsSameBusiness(cfg, db, a);
      BookingsStay(db, u);
      forall v ensures VoucherOk(initial, u, v) {
        assert VoucherOk(initial, db, v);
      }
    } else if !Places(db, a.draft) || a.draft.voucher.None? {
      BookingsStay(db, u);
      forall v ensures VoucherOk(initial, u, v) {
        assert VoucherOk(initial, db, v);
      }
    } else {
      PlaceKeepsVouchers(cfg, initial, db, a);
    }
  }

  lemma {:induction false} PlaceKeepsVouchers(cfg: Config, initial: map<Id, Promo>, db: Db, a: Action)
    requires Linked(db) && Allowed(cfg, db, a) && VouchersOk(initial, db)
    requires a.Place? && Places(db, a.draft) && a.draft.voucher.Some?
    ensures VouchersOk(initial, Step(cfg, db, a))
  {
    forall v ensures VoucherOk(initial, Step(cfg, db, a), v) {
      PlaceCountsVoucher(cfg, initial, db, a, v);
    }
    PlaceKeepsUsages(cfg, db, a);
  }

  lemma {:induction false} PlaceCountsVoucher(cfg: Config, initial: map<Id, Promo>, db: Db, a: Action, v: Id)
    requires Linked(db) && Allowed(cfg, db, a) && VoucherOk(initial, db, v)
    requires a.Place? && Places(db, a.draft) && a.draft.voucher.Some?
    ensures VoucherOk(initial, Step(cfg, db, a), v)
  {
    SumOfAppend(db.usages, Usage(a.draft.voucher.value.id, a.draft.user, |db.orders|), UsageOf(v));
  }

  lemma {:induction false} PlaceBooks(cfg: Config, db: Db, a: Action)
    requires Linked(db) && Allowed(cfg, db, a) && UsagesOk(db)
    requires a.Place? && Places(db, a.draft) && a.draft.voucher.Some?
    ensures forall o | 0 <= o < |Step(cfg, db, a).orders| :: Booked(Step(cfg, db, a), o)
  {
    assert Booked(Step(cfg, db, a), |db.orders|);
    BookingsStay(db, Step(cfg, db, a));
  }

  lemma {:induction false} PlaceKeepsUsages(cfg: Config, db: Db, a: Action)
    requires Linked(db) && Allowed(cfg, db, a) && UsagesOk(db)
    requires a.Place? && Places(db, a.draft) && a.draft.voucher.Some?
    ensures UsagesOk(Step(cfg, db, a))
  {
    var u := Step(cfg, db, a);
    forall x | x in u.usages
      ensures x.order < |u.orders| && u.orders[x.order].user == x.user && u.orders[x.order].voucher == Some(x.voucher)
    {
      assert x in db.usages || x == Usage(a.draft.voucher.value.id, a.draft.user, |db.orders|);
    }
    PlaceBooks(cfg, db, a);
  }

  // ---- runs ----

  ghost predicate BooksOk(cfg: Config, initial: map<Id, Promo>, db: Db) {
    && PaymentsOk(cfg, db)
    && (forall e | e in db.outbox :: ExpiryOk(cfg, db.payments, e))
    && VouchersOk(initial, db)
  }

  lemma {:induction false} InitBooks(cfg: Config, start: Db)
    requires Init(start)
    ensures Linked(start) && BooksOk(cfg, start.promos, start)
  {
  }

  /**
   * On every run: a payment is PAID, FAILED or EXPIRED exactly when one event of that
   * name was written, and at most one was (PAID with exactly one audit row); tokens
   * issued = one at checkout for receipt methods plus one per reminder sent, used
   * tokens are matched by receipt events; nothing expires before its own method's
   * window; voucher counters equal their usage rows, within the limit, one per user.
   */
  lemma {:induction false} BooksBalance(cfg: Config, initial: map<Id, Promo>, db: Db, acts: seq<Action>)
    requires Linked(db) && BooksOk(cfg, initial, db) && AllowedRun(cfg, db, acts)
    ensures BooksOk(cfg, initial, Run(cfg, db, acts))
    decreases |acts|
  {
    if acts != [] {
      StepKeepsLinked(cfg, db, acts[0]);
      StepKeepsPayments(cfg, db, acts[0]);
      StepKeepsExpiry(cfg, db, acts[0]);
      StepKeepsVouchers(cfg, initial, db, acts[0]);
      BooksBalance(cfg, initial, Step(cfg, db, acts[0]), acts[1..]);
    }
  }

  /**
   * Read off for one payment: exactly one terminal event in a terminal status, none
   * before, and at most three tokens.
   */
  lemma {:induction false} OneTerminalEvent(cfg: Config, start: Db, acts: seq<Action>, i: nat)
    requires Init(start) && Linked(start) && AllowedRun(cfg, start, acts) && i < |Run(cfg, start, acts).payments|
    ensures var end := Run(cfg, start, acts);
            var pay := end.payments[i];
            && Tally(end.outbox, PaymentPaid, i) + Tally(end.outbox, PaymentFailed, i) +
                 Tally(end.outbox, PaymentExpired, i)
               == B(pay.status == Paid || pay.status == Failed || pay.status == Expired)
            && (pay.status == Paid <==> Tally(end.outbox, PaymentPaid, i) == 1)
            && (pay.status == Failed <==> Tally(end.outbox, PaymentFailed, i) == 1)
            && (pay.status == Expired <==> Tally(end.outbox, PaymentExpired, i) == 1)
            && (pay.payMethod == Cod ==> pay.status != Expired)
            && (pay.payMethod == Gateway && cfg.gatewayExpiryAfterMs == 0 ==> pay.status != Expired)
            && SumOf(end.tokens, TokenOf(i)) <= 3
            && (SumOf(end.tokens, TokenOf(i)) == 0 <==> !ReceiptMethod(pay.payMethod))
  {
    InitBooks(cfg, start);
    BooksBalance(cfg, start.promos, start, acts);
    var end := Run(cfg, start, acts);
    assert PaymentOk(cfg, end.payments, end.tokens, end.outbox, end.audits, i);
  }

  ghost predicate Frozen(db: Db, u: Db, i: nat) {
    && i < |db.payments| <= |u.payments| && u.payments[i] == db.payments[i]
    && |db.tokens| <= |u.tokens|
    && forall k | 0 <= k < |u.tokens| && u.tokens[k].payment == i ::
         k < |db.tokens| && db.tokens[k].payment == i && u.tokens[k].usedAt == db.tokens[k].usedAt
  }

  lemma {:induction false} StepFreezes(cfg: Config, db: Db, a: Action, i: nat)
    requires Linked(db) && Allowed(cfg, db, a) && i < |db.payments| && Terminal(db.payments[i].status)
    ensures Frozen(db, Step(cfg, db, a), i)
  {
    var u := Step(cfg, db, a);
    if !a.Place? {
      StepIsSameBusiness(cfg, db, a);
    }
    StepKeepsTerminal(cfg, db, a, i);
    forall k | 0 <= k < |u.tokens| && u.tokens[k].payment == i
      ensures k < |db.tokens| && db.tokens[k].payment == i && u.tokens[k].usedAt == db.tokens[k].usedAt
    {
      assert k < |db.tokens| ==> db.tokens[k].payment < |db.payments|;
    }
  }

  lemma {:induction false} StepKeepsTerminal(cfg: Config, db: Db, a: Action, i: nat)
    requires Linked(db) && Allowed(cfg, db, a) && i < |db.payments| && Terminal(db.payments[i].status)
    ensures i < |Step(cfg, db, a).payments| && Step(cfg, db, a).payments[i] == db.payments[i]
  {
    if a.Submit? {
      assert db.tokens[a.k].payment < |db.payments|;
    }
  }

  /** A terminal payment never changes again: no later status, receipt or reminder, no new token and none consumed. */
  lemma {:induction false} TerminalIsFinal(cfg: Config, db: Db, acts: seq<Action>, i: nat)
    requires Linked(db) && AllowedRun(cfg, db, acts) && i < |db.payments| && Terminal(db.payments[i].status)
    ensures Frozen(db, Run(cfg, db, acts), i)
    decreases |acts|
  {
    if acts != [] {
      StepKeepsLinked(cfg, db, acts[0]);
      StepFreezes(cfg, db, acts[0], i);
      TerminalIsFinal(cfg, Step(cfg, db, acts[0]), acts[1..], i);
    }
  }

  // ---- money ----

  /** The checkout's two catalogue reads agree on the cart, and its voucher passes the static check. */
  predicate SoundDraft(d: Draft) {
    && Subtotal(d.cart, d.first) == Subtotal(d.cart, d.second)
    && (d.voucher.Some? ==> SafeVoucher(d.voucher.value))
  }

  predicate Reconciles(o: Order) { o.totalPrice == StoredTotal(o.items) + o.deliveryFee - o.discount }

  /** A committed order adds up from its own stored lines exactly when both catalogue reads priced the cart alike. */
  lemma {:induction false} ReconcilesIffReadsAgree(db: Db, d: Draft)
    requires Places(db, d)
    ensures Reconciles(NewOrder(d)) <==> Subtotal(d.cart, d.first) == Subtotal(d.cart, d.second)
  {
    StoredTotalIsSubtotal(d.cart, d.first);
  }

  lemma {:induction false} SoundOrder(db: Db, d: Draft)
    requires Places(db, d) && SoundDraft(d)
    ensures Reconciles(NewOrder(d)) && 0 <= NewOrder(d).totalPrice && 0 <= NewOrder(d).discount
  {
    StoredTotalIsSubtotal(d.cart, d.first);
    SubtotalNonNegative(d.cart, d.second);
    if d.voucher.Some? {
      SafeTotal(d.voucher.value, Subtotal(d.cart, d.second), d.shipping);
    }
  }

  /**
   * On runs of sound checkouts every payment amount is the sum of its order's stored
   * lines, fee and discount, and not negative.
   */
  lemma {:induction false} MoneyReconciles(cfg: Config, db: Db, acts: seq<Action>)
    requires Linked(db) && AllowedRun(cfg, db, acts)
    requires forall k | 0 <= k < |acts| :: acts[k].Place? ==> SoundDraft(acts[k].draft)
    requires forall i | 0 <= i < |db.orders| ::
               Reconciles(db.orders[i]) && 0 <= db.orders[i].totalPrice && 0 <= db.orders[i].discount
    ensures var end := Run(cfg, db, acts);
            && |end.payments| == |end.orders|
            && forall i | 0 <= i < |end.orders| ::
                 && end.payments[i].amount == end.orders[i].totalPrice
                 && Reconciles(end.orders[i]) && 0 <= end.orders[i].totalPrice && 0 <= end.orders[i].discount
    decreases |acts|
  {
    if acts != [] {
      var a := acts[0];
      var u := Step(cfg, db, a);
      StepKeepsLinked(cfg, db, a);
      if a.Place? {
        if Places(db, a.draft) {
          SoundOrder(db, a.draft);
        }
      } else {
        StepIsSameBusiness(cfg, db, a);
      }
      assert forall i | 0 <= i < |u.orders| ::
               Reconciles(u.orders[i]) && 0 <= u.orders[i].totalPrice && 0 <= u.orders[i].discount;
      MoneyReconciles(cfg, u, acts[1..]);
    }
  }
}
