/**
 * Orders, payments, stock, vouchers, upload tokens and the transactional outbox as
 * one shared database. Each `$transaction` is one all-or-nothing action guarded by
 * its own conditional updates; the reads before it may be stale, so any value the
 * source only read beforehand is a parameter of the action. Rows are numbered in
 * order of creation; a deleted token keeps its place, marked `swept`.
 */
module Shop {
  import opened Base
  import opened Inventory
  import opened Pricing

  type Millis = int

  datatype OrderStatus = Pending | Processing | Packing | Shipped | Delivering | Delivered | Completed | Cancelled
  datatype PaymentMethod = Qris | BankTransfer | Cod | Gateway
  datatype PaymentStatus = Unpaid | WaitingVerification | Paid | Failed | Expired | Refunded
  datatype Stage = First | Second

  datatype EventName =
    | OrderCreated
    | OrderStatusUpdated
    | PaymentPaid
    | PaymentFailed
    | PaymentExpired
    | ReceiptUploaded(byToken: bool)
    | Reminder(stage: Stage)

  datatype Event = Event(name: EventName, aggregate: nat, occurredAt: Millis)

  datatype Order = Order(
    user: Id, items: seq<OrderItem>, status: OrderStatus, payMethod: PaymentMethod, voucher: Option<Id>,
    subtotal: int, deliveryFee: nat, discount: int, totalPrice: int,
    log: seq<OrderStatus>)   // the OrderEvent rows

  datatype Payment = Payment(
    order: nat, payMethod: PaymentMethod, amount: int, status: PaymentStatus, createdAt: Millis,
    verifiedBy: Option<Id>, receipt: Option<string>,
    firstReminderAt: Option<Millis>, secondReminderAt: Option<Millis>)

  datatype Token = Token(payment: nat, expiresAt: Millis, usedAt: Option<Millis>, swept: bool)
  datatype Promo = Promo(maxUsage: Option<nat>, current: int)
  datatype Usage = Usage(voucher: Id, user: Id, order: nat)

  datatype Config = Config(
    expiryAfterMs: nat, gatewayExpiryAfterMs: nat, firstReminderAfterMs: nat, secondReminderAfterMs: nat)

  const UPLOAD_TOKEN_TTL_MS := 72 * 60 * 60 * 1000

  datatype Db = Db(
    now: Millis,
    stock: Stock,
    orders: seq<Order>,
    payments: seq<Payment>,
    tokens: seq<Token>,
    promos: map<Id, Promo>,
    usages: seq<Usage>,
    outbox: seq<Event>,
    audits: seq<nat>,             // payment.verified audit rows
    dueFirst: set<nat>,           // payments some reminder pass has selected so far
    dueSecond: set<nat>)

  /** A checkout request with everything it read before its transaction. */
  datatype Draft = Draft(
    user: Id, cart: seq<Item>, first: Catalogue, second: Catalogue, shipping: nat,
    voucher: Option<Voucher>, payMethod: PaymentMethod)

  datatype Action =
    | Tick(to: Millis)
    | Place(draft: Draft, clock: Millis)
    | Verify(p: nat, admin: Id, clock: Millis)
    | Reject(p: nat, clock: Millis)
    | Expire(p: nat, readClock: Millis, clock: Millis)
    | SetStatus(o: nat, status: OrderStatus, clock: Millis)
    | Upload(p: nat, receipt: string, clock: Millis)
    | Submit(k: nat, receipt: string, readClock: Millis, clock: Millis)
    | Select(stage: Stage, found: set<nat>, clock: Millis)
    | Remind(p: nat, stage: Stage, clock: Millis)
    | SweepTokens(ks: set<nat>, cutoff: Millis)

  // ---- status classes ----

  predicate Eligible(s: PaymentStatus) { s == Unpaid || s == WaitingVerification }

  predicate Terminal(s: PaymentStatus) { s == Paid || s == Failed || s == Expired || s == Refunded }

  predicate Cancellable(s: OrderStatus) { s in {Pending, Processing, Packing, Shipped, Delivering} }

  predicate ReceiptMethod(m: PaymentMethod) { m == BankTransfer || m == Qris }

  function ExpiryWindow(cfg: Config, m: PaymentMethod): Option<nat> {
    if ReceiptMethod(m) then Some(cfg.expiryAfterMs)
    else if m == Gateway && cfg.gatewayExpiryAfterMs > 0 then Some(cfg.gatewayExpiryAfterMs)
    else None
  }

  // ---- transactions ----

  function Lines(items: seq<OrderItem>): seq<Line> {
    seq(|items|, i requires 0 <= i < |items| => Line(items[i].product, items[i].quantity))
  }

  predicate InStock(stock: Stock, lines: seq<Line>) {
    forall l | l in lines :: l.product in stock && QtyOf(lines, l.product) <= stock[l.product]
  }

  /** The (order item, topping) primary key refuses a topping listed twice on one line. */
  predicate ToppingsDistinct(cart: seq<Item>) {
    forall item | item in cart :: forall i, j | 0 <= i < j < |item.toppings| :: item.toppings[i] != item.toppings[j]
  }

  predicate VoucherFree(db: Db, v: Voucher, user: Id) {
    && v.id in db.promos
    && (v.maxUsage.Some? ==> db.promos[v.id].current < v.maxUsage.value)
    && (forall u | u in db.usages :: u.voucher != v.id || u.user != user)
  }

  /** Whether checkout commits; in every other case the transaction rolls back. */
  predicate Places(db: Db, d: Draft) {
    && d.cart != [] && (forall item | item in d.cart :: 1 <= item.quantity)
    && Available(d.cart, d.first) && Available(d.cart, d.second)
    && ToppingsDistinct(d.cart)
    && InStock(db.stock, Lines(StoredItems(d.cart, d.first)))
    && (d.voucher.Some? ==>
         Usable(d.voucher.value, Subtotal(d.cart, d.second)) && VoucherFree(db, d.voucher.value, d.user))
  }

  function NewOrder(d: Draft): Order {
    var subtotal := Subtotal(d.cart, d.second);
    var discount :=
      if d.voucher.Some? && 0 <= subtotal then Discount(d.voucher.value.kind, subtotal, d.shipping) else 0;
    Order(d.user, StoredItems(d.cart, d.first), Pending, d.payMethod,
      if d.voucher.Some? then Some(d.voucher.value.id) else None,
      subtotal, d.shipping, discount, subtotal + d.shipping - discount, [Pending])
  }

  function Issued(tokens: seq<Token>, p: nat, clock: Millis): seq<Token> {
    tokens + [Token(p, clock + UPLOAD_TOKEN_TTL_MS, None, false)]
  }

  function PlaceTx(db: Db, d: Draft, clock: Millis): Db {
    if !Places(db, d) then db else
    var o := NewOrder(d);
    var n := |db.orders|;
    var p := |db.payments|;
    db.(stock := Decremented(db.stock, Lines(o.items)),
        orders := db.orders + [o],
        payments := db.payments + [Payment(n, d.payMethod, o.totalPrice, Unpaid, db.now, None, None, None, None)],
        promos := if d.voucher.None? then db.promos else
          var v := d.voucher.value.id;
          db.promos[v := db.promos[v].(current := db.promos[v].current + 1)],
        usages := if d.voucher.None? then db.usages else db.usages + [Usage(d.voucher.value.id, d.user, n)],
        tokens := if ReceiptMethod(d.payMethod) then Issued(db.tokens, p, clock) else db.tokens,
        outbox := db.outbox + [Event(OrderCreated, n, clock)])
  }

  /** Cancel at most once from an active status, and restock only then. */
  function CancelAndRestock(db: Db, o: nat): Db
    requires o < |db.orders|
  {
    if !Cancellable(db.orders[o].status) then db else
    db.(orders := db.orders[o := db.orders[o].(status := Cancelled, log := db.orders[o].log + [Cancelled])],
        stock := Restocked(db.stock, Lines(db.orders[o].items)))
  }

  function Emit(db: Db, name: EventName, aggregate: nat, clock: Millis): Db {
    db.(outbox := db.outbox + [Event(name, aggregate, clock)])
  }

  function SetPayment(db: Db, p: nat, s: PaymentStatus): Db
    requires p < |db.payments|
  {
    db.(payments := db.payments[p := db.payments[p].(status := s)])
  }

  function MoveOrder(db: Db, o: nat, s: OrderStatus): Db
    requires o < |db.orders|
  {
    db.(orders := db.orders[o := db.orders[o].(status := s, log := db.orders[o].log + [s])])
  }

  /** The order update is by id alone: it takes even a cancelled order to PROCESSING. */
  function VerifyTx(db: Db, p: nat, admin: Id, clock: Millis): Db
    requires p < |db.payments| && db.payments[p].order < |db.orders|
  {
    if Terminal(db.payments[p].status) then db else
    var paid := db.(payments := db.payments[p := db.payments[p].(status := Paid, verifiedBy := Some(admin))]);
    var moved := MoveOrder(paid, db.payments[p].order, Processing);
    Emit(moved.(audits := moved.audits + [p]), PaymentPaid, p, clock)
  }

  function RejectTx(db: Db, p: nat, clock: Millis): Db
    requires p < |db.payments| && db.payments[p].order < |db.orders|
  {
    if Terminal(db.payments[p].status) then db else
    Emit(CancelAndRestock(SetPayment(db, p, Failed), db.payments[p].order), PaymentFailed, p, clock)
  }

  function ExpireTx(db: Db, p: nat, clock: Millis): Db
    requires p < |db.payments| && db.payments[p].order < |db.orders|
  {
    if !Eligible(db.payments[p].status) then db else
    Emit(CancelAndRestock(SetPayment(db, p, Expired), db.payments[p].order), PaymentExpired, p, clock)
  }

  /** Cancelling goes through the guarded transition; every other status is written by id alone. */
  function SetStatusTx(db: Db, o: nat, s: OrderStatus, clock: Millis): Db
    requires o < |db.orders|
  {
    if s == Cancelled then
      if Cancellable(db.orders[o].status) then Emit(CancelAndRestock(db, o), OrderStatusUpdated, o, clock) else db
    else
      Emit(MoveOrder(db, o, s), OrderStatusUpdated, o, clock)
  }

  function ReceiptTx(db: Db, p: nat, receipt: string, byToken: bool, clock: Millis): Db
    requires p < |db.payments|
  {
    if !Eligible(db.payments[p].status) then db else
    Emit(db.(payments := db.payments[p := db.payments[p].(status := WaitingVerification, receipt := Some(receipt))]),
      ReceiptUploaded(byToken), p, clock)
  }

  predicate TokenUsable(t: Token, clock: Millis) { !t.swept && t.usedAt.None? && clock < t.expiresAt }

  /** Consuming the token and applying the receipt succeed together or not at all. */
  function SubmitTx(db: Db, k: nat, receipt: string, readClock: Millis, clock: Millis): Db
    requires k < |db.tokens| && db.tokens[k].payment < |db.payments|
  {
    var p := db.tokens[k].payment;
    if !TokenUsable(db.tokens[k], readClock) || !Eligible(db.payments[p].status) then db else
    ReceiptTx(db.(tokens := db.tokens[k := db.tokens[k].(usedAt := Some(readClock))]), p, receipt, true, clock)
  }

  predicate ReminderDue(cfg: Config, pay: Payment, stage: Stage, clock: Millis) {
    && Eligible(pay.status) && ReceiptMethod(pay.payMethod)
    && match stage
       case First => pay.firstReminderAt.None? && pay.createdAt <= clock - cfg.firstReminderAfterMs
       case Second =>
         pay.firstReminderAt.Some? && pay.secondReminderAt.None? && pay.createdAt <= clock - cfg.secondReminderAfterMs
  }

  predicate SlotFree(pay: Payment, stage: Stage) {
    match stage case First => pay.firstReminderAt.None? case Second => pay.secondReminderAt.None?
  }

  function RemindTx(db: Db, p: nat, stage: Stage, clock: Millis): Db
    requires p < |db.payments|
  {
    if !Eligible(db.payments[p].status) || !SlotFree(db.payments[p], stage) then db else
    var pay := db.payments[p];
    var stamped := if stage == First then pay.(firstReminderAt := Some(clock))
      else pay.(secondReminderAt := Some(clock));
    Emit(db.(payments := db.payments[p := stamped], tokens := Issued(db.tokens, p, clock)), Reminder(stage), p, clock)
  }

  function SweptTokens(tokens: seq<Token>, ks: set<nat>): seq<Token> {
    seq(|tokens|, k requires 0 <= k < |tokens| => if k in ks then tokens[k].(swept := true) else tokens[k])
  }

  // ---- the machine ----

  predicate Allowed(cfg: Config, db: Db, a: Action) {
    match a
    case Tick(to) => db.now <= to
    case Place(d, clock) =>
      // Voucher limits are not edited while checkouts run.
      clock <= db.now && (d.voucher.Some? && d.voucher.value.id in db.promos ==>
        db.promos[d.voucher.value.id].maxUsage == d.voucher.value.maxUsage)
    case Verify(p, _, clock) => p < |db.payments| && clock <= db.now
    case Reject(p, clock) => p < |db.payments| && clock <= db.now
    case Expire(p, readClock, clock) =>
      && p < |db.payments| && readClock <= clock <= db.now
      && ExpiryWindow(cfg, db.payments[p].payMethod).Some?
      && ExpiryWindow(cfg, db.payments[p].payMethod).value <= readClock - db.payments[p].createdAt
    case SetStatus(o, _, clock) => o < |db.orders| && clock <= db.now
    case Upload(p, _, clock) => p < |db.payments| && clock <= db.now
    case Submit(k, _, readClock, clock) => k < |db.tokens| && readClock <= clock <= db.now
    case Select(stage, found, clock) =>
      clock <= db.now && forall p | p in found :: p < |db.payments| && ReminderDue(cfg, db.payments[p], stage, clock)
    case Remind(p, stage, clock) => p in (if stage == First then db.dueFirst else db.dueSecond) && clock <= db.now
    case SweepTokens(ks, cutoff) =>
      cutoff <= db.now && forall k | k in ks :: k < |db.tokens| && db.tokens[k].expiresAt < cutoff
  }

  /** References between rows resolve. */
  ghost predicate Linked(db: Db) {
    && |db.payments| == |db.orders|
    && (forall i | 0 <= i < |db.payments| ::
          && db.payments[i].order == i
          && db.payments[i].payMethod == db.orders[i].payMethod
          && db.payments[i].amount == db.orders[i].totalPrice)
    && (forall k | 0 <= k < |db.tokens| :: db.tokens[k].payment < |db.payments|)
    && (forall p | p in db.dueFirst :: p < |db.payments|)
    && (forall p | p in db.dueSecond :: p < |db.payments|)
    && (forall i | 0 <= i < |db.orders| :: OrderOk(db.stock.Keys, db.orders[i]))
  }

  ghost predicate OrderOk(products: set<ProductId>, o: Order) {
    && o.items != []
    && (forall k | 0 <= k < |o.items| :: 1 <= o.items[k].quantity && o.items[k].product in products)
    && o.totalPrice == o.subtotal + o.deliveryFee - o.discount
  }

  function Step(cfg: Config, db: Db, a: Action): Db
    requires Linked(db) && Allowed(cfg, db, a)
  {
    match a
    case Tick(to) => db.(now := to)
    case Place(d, clock) => PlaceTx(db, d, clock)
    case Verify(p, admin, clock) => VerifyTx(db, p, admin, clock)
    case Reject(p, clock) => RejectTx(db, p, clock)
    case Expire(p, _, clock) => ExpireTx(db, p, clock)
    case SetStatus(o, s, clock) => SetStatusTx(db, o, s, clock)
    case Upload(p, receipt, clock) => ReceiptTx(db, p, receipt, false, clock)
    case Submit(k, receipt, readClock, clock) => SubmitTx(db, k, receipt, readClock, clock)
    case Select(stage, found, _) =>
      if stage == First then db.(dueFirst := db.dueFirst + found) else db.(dueSecond := db.dueSecond + found)
    case Remind(p, stage, clock) => RemindTx(db, p, stage, clock)
    case SweepTokens(ks, _) => db.(tokens := SweptTokens(db.tokens, ks))
  }

  ghost predicate Init(db: Db) {
    && db.orders == [] && db.payments == [] && db.tokens == [] && db.usages == [] && db.outbox == [] && db.audits == []
    && db.dueFirst == {} && db.dueSecond == {}
    && (forall p | p in db.stock :: 0 <= db.stock[p])
    && (forall v | v in db.promos && db.promos[v].maxUsage.Some? :: db.promos[v].current <= db.promos[v].maxUsage.value)
  }

  lemma {:induction false} PlaceKeepsLinked(db: Db, d: Draft, clock: Millis)
    requires Linked(db)
    ensures Linked(PlaceTx(db, d, clock))
  {
    if Places(db, d) {
      var items := StoredItems(d.cart, d.first);
      forall k | 0 <= k < |items| ensures 1 <= items[k].quantity && items[k].product in db.stock {
        assert d.cart[k] in d.cart;
        assert Lines(items)[k] in Lines(items);
      }
      assert OrderOk(db.stock.Keys, NewOrder(d));
    }
  }

  /** Everything but a new order only moves statuses, logs, stock levels and tokens. */
  ghost predicate SameBusiness(db: Db, u: Db) {
    && |u.orders| == |db.orders| && |u.payments| == |db.payments| && |db.tokens| <= |u.tokens|
    && u.stock.Keys == db.stock.Keys && u.promos == db.promos && u.usages == db.usages
    && (forall i | 0 <= i < |db.orders| ::
         u.orders[i] == db.orders[i].(status := u.orders[i].status, log := u.orders[i].log))
    && (forall i | 0 <= i < |db.payments| ::
          && u.payments[i].order == db.payments[i].order && u.payments[i].payMethod == db.payments[i].payMethod
          && u.payments[i].amount == db.payments[i].amount && u.payments[i].createdAt == db.payments[i].createdAt)
    && (forall k | 0 <= k < |u.tokens| ::
          if k < |db.tokens| then u.tokens[k].payment == db.tokens[k].payment else u.tokens[k].payment < |u.payments|)
    && (forall p | p in u.dueFirst :: p in db.dueFirst || p < |db.payments|)
    && (forall p | p in u.dueSecond :: p in db.dueSecond || p < |db.payments|)
  }

  lemma {:induction false} SameBusinessKeepsLinked(db: Db, u: Db)
    requires Linked(db) && SameBusiness(db, u)
    ensures Linked(u)
  {
    forall i | 0 <= i < |u.orders| ensures OrderOk(u.stock.Keys, u.orders[i]) {
      assert OrderOk(db.stock.Keys, db.orders[i]);
    }
  }

  lemma {:induction false} SameBusinessTrans(db: Db, u: Db, v: Db)
    requires SameBusiness(db, u) && SameBusiness(u, v)
    ensures SameBusiness(db, v)
  {
  }

  lemma {:induction false} OrderMoves(db: Db, o: nat)
    requires o < |db.orders| && Linked(db)
    ensures SameBusiness(db, CancelAndRestock(db, o)) && forall s :: SameBusiness(db, MoveOrder(db, o, s))
  {
  }

  lemma {:induction false} PaymentMoves(db: Db, p: nat, pay: Payment)
    requires p < |db.payments| && Linked(db)
    requires pay.order == db.payments[p].order && pay.payMethod == db.payments[p].payMethod
             && pay.amount == db.payments[p].amount && pay.createdAt == db.payments[p].createdAt
    ensures SameBusiness(db, db.(payments := db.payments[p := pay])) && Linked(db.(payments := db.payments[p := pay]))
  {
    SameBusinessKeepsLinked(db, db.(payments := db.payments[p := pay]));
  }

  lemma {:induction false} VerifyIsSameBusiness(db: Db, p: nat, admin: Id, clock: Millis)
    requires Linked(db) && p < |db.payments|
    ensures SameBusiness(db, VerifyTx(db, p, admin, clock))
  {
    var pay := db.payments[p].(status := Paid, verifiedBy := Some(admin));
    var flipped := db.(payments := db.payments[p := pay]);
    PaymentMoves(db, p, pay);
    OrderMoves(flipped, p);
    SameBusinessTrans(db, flipped, MoveOrder(flipped, p, Processing));
  }

  lemma {:induction false} CancelIsSameBusiness(db: Db, p: nat, s: PaymentStatus, name: EventName, clock: Millis)
    requires Linked(db) && p < |db.payments|
    ensures SameBusiness(db, Emit(CancelAndRestock(SetPayment(db, p, s), p), name, p, clock))
  {
    var flipped := SetPayment(db, p, s);
    PaymentMoves(db, p, db.payments[p].(status := s));
    OrderMoves(flipped, p);
    SameBusinessTrans(db, flipped, CancelAndRestock(flipped, p));
  }

  lemma {:induction false} SetStatusIsSameBusiness(db: Db, o: nat, s: OrderStatus, clock: Millis)
    requires Linked(db) && o < |db.orders|
    ensures SameBusiness(db, SetStatusTx(db, o, s, clock))
  {
    OrderMoves(db, o);
  }

  lemma {:induction false} ReceiptIsSameBusiness(db: Db, p: nat, receipt: string, byToken: bool, clock: Millis)
    requires Linked(db) && p < |db.payments|
    ensures SameBusiness(db, ReceiptTx(db, p, receipt, byToken, clock))
  {
  }

  lemma {:induction false} RemindIsSameBusiness(db: Db, p: nat, stage: Stage, clock: Millis)
    requires Linked(db) && p < |db.payments|
    ensures SameBusiness(db, RemindTx(db, p, stage, clock))
  {
  }

  lemma {:induction false} SubmitIsSameBusiness(db: Db, k: nat, receipt: string, readClock: Millis, clock: Millis)
    requires Linked(db) && k < |db.tokens|
    ensures SameBusiness(db, SubmitTx(db, k, receipt, readClock, clock))
  {
  }

  lemma {:induction false} StepIsSameBusiness(cfg: Config, db: Db, a: Action)
    requires Linked(db) && Allowed(cfg, db, a) && !a.Place?
    ensures SameBusiness(db, Step(cfg, db, a))
  {
    match a
    case Verify(p, admin, clock) => VerifyIsSameBusiness(db, p, admin, clock);
    case Reject(p, clock) => CancelIsSameBusiness(db, p, Failed, PaymentFailed, clock);
    case Expire(p, _, clock) => CancelIsSameBusiness(db, p, Expired, PaymentExpired, clock);
    case SetStatus(o, s, clock) => SetStatusIsSameBusiness(db, o, s, clock);
    case Upload(p, receipt, clock) => ReceiptIsSameBusiness(db, p, receipt, false, clock);
    case Submit(k, receipt, readClock, clock) => SubmitIsSameBusiness(db, k, receipt, readClock, clock);
    case Remind(p, stage, clock) => RemindIsSameBusiness(db, p, stage, clock);
    case _ =>
  }

  lemma {:induction false} StepKeepsLinked(cfg: Config, db: Db, a: Action)
    requires Linked(db) && Allowed(cfg, db, a)
    ensures Linked(Step(cfg, db, a))
  {
    match a
    case Place(d, clock) => PlaceKeepsLinked(db, d, clock);
    case _ =>
      StepIsSameBusiness(cfg, db, a);
      SameBusinessKeepsLinked(db, Step(cfg, db, a));
  }

  ghost predicate AllowedRun(cfg: Config, db: Db, acts: seq<Action>)
    requires Linked(db)
    decreases |acts|
  {
    acts == [] || (Allowed(cfg, db, acts[0])
      && (StepKeepsLinked(cfg, db, acts[0]); AllowedRun(cfg, Step(cfg, db, acts[0]), acts[1..])))
  }

  ghost function Run(cfg: Config, db: Db, acts: seq<Action>): (end: Db)
    requires Linked(db) && AllowedRun(cfg, db, acts)
    ensures Linked(end)
    decreases |acts|
  {
    if acts == [] then db else
    StepKeepsLinked(cfg, db, acts[0]);
    Run(cfg, Step(cfg, db, acts[0]), acts[1..])
  }

  ghost predicate Reaches(cfg: Config, db: Db, u: Db)
    requires Linked(db)
  {
    exists acts :: AllowedRun(cfg, db, acts) && Run(cfg, db, acts) == u
  }

  lemma {:induction false} ReachesSelf(cfg: Config, db: Db)
    requires Linked(db)
    ensures Reaches(cfg, db, db)
  {
    assert AllowedRun(cfg, db, []) && Run(cfg, db, []) == db;
  }

  lemma {:induction false} ReachesStep(cfg: Config, db: Db, a: Action)
    requires Linked(db) && Allowed(cfg, db, a)
    ensures Linked(Step(cfg, db, a)) && Reaches(cfg, db, Step(cfg, db, a))
  {
    StepKeepsLinked(cfg, db, a);
    var acts := [a];
    assert acts[1..] == [];
    assert AllowedRun(cfg, Step(cfg, db, a), []);
    assert AllowedRun(cfg, db, acts) && Run(cfg, db, acts) == Step(cfg, db, a);
  }

  lemma {:induction false} RunConcat(cfg: Config, db: Db, before: seq<Action>, after: seq<Action>)
    requires Linked(db) && AllowedRun(cfg, db, before) && AllowedRun(cfg, Run(cfg, db, before), after)
    ensures AllowedRun(cfg, db, before + after)
    ensures Run(cfg, db, before + after) == Run(cfg, Run(cfg, db, before), after)
    decreases |before|
  {
    if before == [] {
      assert before + after == after;
    } else {
      StepKeepsLinked(cfg, db, before[0]);
      RunConcat(cfg, Step(cfg, db, before[0]), before[1..], after);
      assert (before + after)[1..] == before[1..] + after;
    }
  }

  lemma {:induction false} ReachesTrans(cfg: Config, db: Db, u: Db, v: Db)
    requires Linked(db) && Linked(u) && Reaches(cfg, db, u) && Reaches(cfg, u, v)
    ensures Linked(v) && Reaches(cfg, db, v)
  {
    var before :| AllowedRun(cfg, db, before) && Run(cfg, db, before) == u;
    var after :| AllowedRun(cfg, u, after) && Run(cfg, u, after) == v;
    RunConcat(cfg, db, before, after);
  }
}
