/**
 * The whole way of a payment event: the shop's transaction writes it with its outbox
 * row, the relay publishes the row, the payments consumer turns the message into a
 * notification with its queue row, and the sender mails that. One machine over all
 * parts, each with a clock of its own.
 */
module EndToEnd {
  import opened Base
  import opened Sums
  import World
  import S = Shop
  import P = PaymentLedger
  import L = LeaseQueue
  import C = Consumer
  import N = NotificationConsumer
  import Pipeline

  /** Outbox rows are numbered like the shop's events, mail rows like the consumer's notifications. */
  datatype State = State(world: World.State, events: L.Queue, inbox: C.State, mail: L.Queue)

  /** `key` writes an order's number as its id, `email` is a user's address. */
  datatype Config = Config(
    world: World.Config, events: L.Config, inbox: C.Config, mail: L.Config,
    outboxAttempts: nat, mailAttempts: nat, adminInbox: Option<string>, key: nat -> string, email: nat -> string)

  datatype Action =
    | OnWorld(deed: World.Action)
    | OnEvents(work: L.Action)
    | Publish(token: nat, routed: bool, confirmed: bool, delay: int)
    | OnInbox(delivery: C.Action)
    | Notify(h: nat, orders: map<string, N.Customer>, answer: C.Verdict)
    | OnMail(work: L.Action)

  function NameOf(name: S.EventName): string {
    match name
    case OrderCreated => "order.created"
    case OrderStatusUpdated => "order.status_updated"
    case PaymentPaid => "payment.paid"
    case PaymentFailed => "payment.failed"
    case PaymentExpired => "payment.expired"
    case ReceiptUploaded(_) => "payment.receipt_uploaded"
    case Reminder(_) => "payment.reminder"
  }

  predicate OfPayment(e: S.Event) { !e.name.OrderCreated? && !e.name.OrderStatusUpdated? }

  /** Payment i belongs to order i, so the aggregate's number is the order's. */
  function BodyOf(cfg: Config, e: S.Event): C.Body { C.Event(NameOf(e.name), cfg.key(e.aggregate)) }

  function PaymentKind(cfg: Config): N.Kind { N.Payments(cfg.adminInbox) }

  /** What the consumer's query finds for an order: the address of the user who placed it. */
  predicate Knows(cfg: Config, db: S.Db, orders: map<string, N.Customer>) {
    forall o: nat | o < |db.orders| && cfg.key(o) in orders ::
      orders[cfg.key(o)] == N.Customer(cfg.email(db.orders[o].user))
  }

  ghost predicate Allowed(cfg: Config, s: State, a: Action) {
    match a
    case OnWorld(deed) => World.Allowed(cfg.world, s.world, deed)
    case OnEvents(work) => !work.Enqueue? && !work.Deliver? && L.Allowed(cfg.events, s.events, work)
    case Publish(token, routed, confirmed, delay) =>
      // Unconfirmed, the message may have reached the queue or not.
      && (confirmed ==> routed)
      && L.Allowed(cfg.events, s.events, L.Deliver(token, Pipeline.OutcomeOf(confirmed, delay)))
    case OnInbox(delivery) => !delivery.Route? && !delivery.Commit? && C.Allowed(cfg.inbox, s.inbox, delivery)
    case Notify(h, orders, answer) =>
      && h in s.inbox.handlers && s.inbox.handlers[h].msg.body.Event?
      && Knows(cfg, s.world.shop, orders)
      && var notice := N.NoticeFor(PaymentKind(cfg), orders, s.inbox.handlers[h].msg.body);
         notice.Some? && C.Allowed(cfg.inbox, s.inbox, C.Commit(h, notice.value, answer))
    case OnMail(work) => !work.Enqueue? && L.Allowed(cfg.mail, s.mail, work)
  }

  /** A new row in a queue, written in the transaction that makes it necessary. */
  function Written(cfg: L.Config, q: L.Queue, id: nat, maxAttempts: nat): L.Queue {
    if L.Allowed(cfg, q, L.Enqueue(id, maxAttempts)) then L.Step(cfg, q, L.Enqueue(id, maxAttempts)) else q
  }

  predicate Wanted(s: State, id: nat) {
    id < |s.world.shop.outbox| && OfPayment(s.world.shop.outbox[id])
  }

  function Message(cfg: Config, s: State, id: nat): C.Message
    requires Wanted(s, id)
  {
    C.Message(Some(id), BodyOf(cfg, s.world.shop.outbox[id]), 0)
  }

  ghost function Step(cfg: Config, s: State, a: Action): State
    requires Allowed(cfg, s, a)
  {
    match a
    case OnWorld(deed) =>
      var world := World.Step(cfg.world, s.world, deed);
      var n := |s.world.shop.outbox|;
      s.(world := world,
         events := if |world.shop.outbox| == n then s.events
           else Written(cfg.events, s.events, n, cfg.outboxAttempts))
    case OnEvents(work) => s.(events := L.Step(cfg.events, s.events, work))
    case Publish(token, routed, confirmed, delay) =>
      var id := s.events.claims[token].batch[0].id;
      s.(events := L.Step(cfg.events, s.events, L.Deliver(token, Pipeline.OutcomeOf(confirmed, delay))),
         inbox := if routed && Wanted(s, id) then C.Step(cfg.inbox, s.inbox, C.Route(Message(cfg, s, id))) else s.inbox)
    case OnInbox(delivery) => s.(inbox := C.Step(cfg.inbox, s.inbox, delivery))
    case Notify(h, orders, answer) =>
      var notice := N.NoticeFor(PaymentKind(cfg), orders, s.inbox.handlers[h].msg.body).value;
      var inbox := C.Step(cfg.inbox, s.inbox, C.Commit(h, notice, answer));
      var n := |s.inbox.log|;
      s.(inbox := inbox, mail := if |inbox.log| == n then s.mail else Written(cfg.mail, s.mail, n, cfg.mailAttempts))
    case OnMail(work) => s.(mail := L.Step(cfg.mail, s.mail, work))
  }

  ghost predicate AllowedRun(cfg: Config, s: State, acts: seq<Action>)
    decreases |acts|
  {
    acts == [] || (Allowed(cfg, s, acts[0]) && AllowedRun(cfg, Step(cfg, s, acts[0]), acts[1..]))
  }

  ghost function Run(cfg: Config, s: State, acts: seq<Action>): State
    requires AllowedRun(cfg, s, acts)
    decreases |acts|
  {
    if acts == [] then s else Run(cfg, Step(cfg, s, acts[0]), acts[1..])
  }

  // ---- what every step keeps ----

  /** Rows have been written for exactly the first n numbers. */
  ghost predicate Issued(q: L.Queue, n: nat) {
    (forall id: nat :: id in q.tries <==> id < n) && (forall id | id in q.accepted :: id in q.tries)
  }

  predicate Genuine(cfg: Config, outbox: seq<S.Event>, m: C.Message) {
    && m.messageId.Some? && m.messageId.value < |outbox| && OfPayment(outbox[m.messageId.value])
    && m.body == BodyOf(cfg, outbox[m.messageId.value])
  }

  ghost predicate AllGenuine(cfg: Config, outbox: seq<S.Event>, c: C.State) {
    && (forall i | 0 <= i < |c.insts| :: Genuine(cfg, outbox, c.insts[i].msg))
    && (forall h | h in c.handlers :: Genuine(cfg, outbox, c.handlers[h].msg))
  }

  function Recipient(cfg: Config, db: S.Db, e: S.Event): string
    requires e.aggregate < |db.orders|
  {
    if e.name.ReceiptUploaded? then cfg.adminInbox.GetOr("") else cfg.email(db.orders[e.aggregate].user)
  }

  /** A notification speaks of an event of the outbox, in its template, to its reader. */
  ghost predicate Faithful(cfg: Config, db: S.Db, e: C.Entry) {
    && e.messageId < |db.outbox| && OfPayment(db.outbox[e.messageId])
    && var event := db.outbox[e.messageId];
       && event.aggregate < |db.orders| && NameOf(event.name) in N.TEMPLATE_BY_EVENT
       && e.notice == C.Notice(Recipient(cfg, db, event), N.TEMPLATE_BY_EVENT[NameOf(event.name)])
  }

  ghost predicate ShopOk(cfg: Config, s: State) {
    && World.Inv(cfg.world, s.world) && P.PaymentsOk(cfg.world.shop, s.world.shop)
    && forall e | e in s.world.shop.outbox :: e.aggregate < |s.world.shop.orders|
  }

  ghost predicate EventsOk(s: State) { L.Inv(s.events) && Issued(s.events, |s.world.shop.outbox|) }

  ghost predicate InboxOk(cfg: Config, s: State) {
    && C.Inv(s.inbox) && C.LedgerOk(cfg.inbox, s.inbox)
    && AllGenuine(cfg, s.world.shop.outbox, s.inbox)
    && (forall e | e in s.inbox.log :: Faithful(cfg, s.world.shop, e))
  }

  ghost predicate MailOk(s: State) { L.Inv(s.mail) && Issued(s.mail, |s.inbox.log|) }

  ghost predicate ConfirmedOk(s: State) {
    forall id | id in s.events.accepted && Wanted(s, id) :: Pipeline.Routed(s.inbox, id)
  }

  ghost predicate Inv(cfg: Config, s: State) {
    ShopOk(cfg, s) && EventsOk(s) && InboxOk(cfg, s) && MailOk(s) && ConfirmedOk(s)
  }

  /** A step of the shop writes at most one event, about an order that exists; orders keep their users. */
  ghost predicate Emits(db: S.Db, u: S.Db) {
    && db.outbox <= u.outbox && |u.outbox| <= |db.outbox| + 1
    && (|db.outbox| < |u.outbox| ==> u.outbox[|db.outbox|].aggregate < |u.orders|)
    && |db.orders| <= |u.orders|
    && forall o | 0 <= o < |db.orders| :: u.orders[o].user == db.orders[o].user
  }

  lemma {:induction false} StepEmits(cfg: S.Config, db: S.Db, a: S.Action)
    requires S.Linked(db) && S.Allowed(cfg, db, a)
    requires forall p | p in db.dueFirst + db.dueSecond :: p < |db.payments|
    ensures Emits(db, S.Step(cfg, db, a))
  {
    if !a.Place? {
      S.StepIsSameBusiness(cfg, db, a);
      assert a.Submit? ==> db.tokens[a.k].payment < |db.payments|;
    }
  }

  lemma {:induction false} QueueStep(cfg: L.Config, q: L.Queue, a: L.Action, n: nat)
    requires L.Inv(q) && Issued(q, n) && L.Allowed(cfg, q, a) && !a.Enqueue?
    ensures L.Inv(L.Step(cfg, q, a)) && Issued(L.Step(cfg, q, a), n)
    ensures !a.Deliver? ==> L.Step(cfg, q, a).accepted == q.accepted
  {
    L.StepKeepsInv(cfg, q, a);
    if a.Deliver? {
      assert L.ClaimOk(q, a.token);
    }
  }

  lemma {:induction false} RowIsWritten(cfg: L.Config, q: L.Queue, n: nat, maxAttempts: nat)
    requires L.Inv(q) && Issued(q, n) && 1 <= maxAttempts
    ensures var u := Written(cfg, q, n, maxAttempts);
            && L.Inv(u) && Issued(u, n + 1) && u.accepted == q.accepted && n in u.rows
  {
    assert L.RowOk(q, n);
    L.StepKeepsInv(cfg, q, L.Enqueue(n, maxAttempts));
  }

  predicate Positive(cfg: Config) { 1 <= cfg.outboxAttempts && 1 <= cfg.mailAttempts }

  lemma {:induction false} WorldStep(cfg: Config, s: State, deed: World.Action)
    requires ShopOk(cfg, s) && World.Allowed(cfg.world, s.world, deed)
    ensures ShopOk(cfg, s.(world := World.Step(cfg.world, s.world, deed)))
    ensures Emits(s.world.shop, World.Step(cfg.world, s.world, deed).shop)
  {
    var u := World.Step(cfg.world, s.world, deed);
    World.StepKeepsInv(cfg.world, s.world, deed);
    World.StepParts(cfg.world, s.world, deed);
    if u.shop != s.world.shop {
      var a :| S.Allowed(cfg.world.shop, s.world.shop, a) && u.shop == S.Step(cfg.world.shop, s.world.shop, a);
      P.StepKeepsPayments(cfg.world.shop, s.world.shop, a);
      StepEmits(cfg.world.shop, s.world.shop, a);
    }
  }

  lemma {:induction false} InboxSurvivesWorld(cfg: Config, s: State, world: World.State)
    requires InboxOk(cfg, s) && Emits(s.world.shop, world.shop)
    ensures InboxOk(cfg, s.(world := world))
  {
    var db, u := s.world.shop, world.shop;
    forall e | e in s.inbox.log ensures Faithful(cfg, u, e) {
      assert Faithful(cfg, db, e);
      assert u.outbox[e.messageId] == db.outbox[e.messageId];
    }
    forall m | Genuine(cfg, db.outbox, m) ensures Genuine(cfg, u.outbox, m) {
      assert u.outbox[m.messageId.value] == db.outbox[m.messageId.value];
    }
  }

  lemma {:induction false} OnWorldKeepsInv(cfg: Config, s: State, deed: World.Action)
    requires Inv(cfg, s) && Positive(cfg) && World.Allowed(cfg.world, s.world, deed)
    ensures Inv(cfg, Step(cfg, s, OnWorld(deed)))
  {
    var u := Step(cfg, s, OnWorld(deed));
    WorldStep(cfg, s, deed);
    InboxSurvivesWorld(cfg, s, u.world);
    RowIsWritten(cfg.events, s.events, |s.world.shop.outbox|, cfg.outboxAttempts);
    forall id | id in u.events.accepted && Wanted(u, id) ensures Pipeline.Routed(u.inbox, id) {
      assert id in s.events.tries && Wanted(s, id);
    }
  }

  lemma {:induction false} GenuineStays(cfg: Config, outbox: seq<S.Event>, c: C.State, a: C.Action)
    requires C.Inv(c) && C.Allowed(cfg.inbox, c, a) && AllGenuine(cfg, outbox, c)
             && (a.Route? ==> Genuine(cfg, outbox, a.msg))
    ensures AllGenuine(cfg, outbox, C.Step(cfg.inbox, c, a))
  {
  }

  /** The consumer takes a step that enqueues nothing. */
  lemma {:induction false} InboxStep(cfg: Config, s: State, a: C.Action)
    requires InboxOk(cfg, s) && C.Allowed(cfg.inbox, s.inbox, a)
    requires !a.Commit? && (a.Route? ==> Genuine(cfg, s.world.shop.outbox, a.msg))
    ensures InboxOk(cfg, s.(inbox := C.Step(cfg.inbox, s.inbox, a)))
    ensures C.Step(cfg.inbox, s.inbox, a).log == s.inbox.log
  {
    C.StepKeepsInv(cfg.inbox, s.inbox, a);
    C.StepKeepsLedger(cfg.inbox, s.inbox, a);
    GenuineStays(cfg, s.world.shop.outbox, s.inbox, a);
  }

  lemma {:induction false} RoutedStays(cfg: Config, s: State, a: C.Action)
    requires C.Inv(s.inbox) && ConfirmedOk(s) && C.Allowed(cfg.inbox, s.inbox, a)
    ensures ConfirmedOk(s.(inbox := C.Step(cfg.inbox, s.inbox, a)))
  {
    var u := s.(inbox := C.Step(cfg.inbox, s.inbox, a));
    forall id | id in u.events.accepted && Wanted(u, id) ensures Pipeline.Routed(u.inbox, id) {
      assert Wanted(s, id);
      Pipeline.RoutedStays(cfg.inbox, s.inbox, a, id);
    }
  }

  lemma {:induction false} PublishKeepsInv(cfg: Config, s: State, a: Action)
    requires Inv(cfg, s) && a.Publish? && Allowed(cfg, s, a)
    ensures Inv(cfg, Step(cfg, s, a))
  {
    var u := Step(cfg, s, a);
    var id := s.events.claims[a.token].batch[0].id;
    QueueStep(cfg.events, s.events, L.Deliver(a.token, Pipeline.OutcomeOf(a.confirmed, a.delay)),
      |s.world.shop.outbox|);
    if a.routed && Wanted(s, id) {
      var route := C.Route(Message(cfg, s, id));
      InboxStep(cfg, s, route);
      RoutedStays(cfg, s, route);
      assert Pipeline.Carries(u.inbox, |s.inbox.insts|, id);
      assert Pipeline.Routed(u.inbox, id);
    }
    assert a.confirmed || u.events.accepted == s.events.accepted;
    forall k | k in u.events.accepted && Wanted(u, k) ensures Pipeline.Routed(u.inbox, k) {
      assert Wanted(s, k);
      assert k == id || k in s.events.accepted;
    }
  }

  /** The notice the consumer built is the one the event stands for. */
  lemma {:induction false} NoticeIsFaithful(
      cfg: Config, db: S.Db, m: C.Message, orders: map<string, N.Customer>, at: int)
    requires Genuine(cfg, db.outbox, m) && db.outbox[m.messageId.value].aggregate < |db.orders|
             && Knows(cfg, db, orders)
    requires N.NoticeFor(PaymentKind(cfg), orders, m.body).Some?
    ensures Faithful(cfg, db, C.Entry(m.messageId.value, at, N.NoticeFor(PaymentKind(cfg), orders, m.body).value))
  {
    var event := db.outbox[m.messageId.value];
    N.OnlyReceiptsAreForAdmins(NameOf(event.name));
    assert cfg.key(event.aggregate) in orders;
    OnlyReceiptsAreNamedSo(event.name);
  }

  lemma {:induction false} OnlyReceiptsAreNamedSo(name: S.EventName)
    ensures NameOf(name) == "payment.receipt_uploaded" <==> name.ReceiptUploaded?
  {
  }

  /** The consumer commits a notification: at most one entry more, and a faithful one. */
  lemma {:induction false} InboxCommits(
      cfg: Config, s: State, h: nat, orders: map<string, N.Customer>, answer: C.Verdict)
    requires ShopOk(cfg, s) && InboxOk(cfg, s) && Allowed(cfg, s, Notify(h, orders, answer))
    ensures var notice := N.NoticeFor(PaymentKind(cfg), orders, s.inbox.handlers[h].msg.body).value;
            var inbox := C.Step(cfg.inbox, s.inbox, C.Commit(h, notice, answer));
            InboxOk(cfg, s.(inbox := inbox)) && |s.inbox.log| <= |inbox.log| <= |s.inbox.log| + 1
  {
    var db, m := s.world.shop, s.inbox.handlers[h].msg;
    var notice := N.NoticeFor(PaymentKind(cfg), orders, m.body).value;
    var commit := C.Commit(h, notice, answer);
    C.StepKeepsInv(cfg.inbox, s.inbox, commit);
    C.StepKeepsLedger(cfg.inbox, s.inbox, commit);
    GenuineStays(cfg, db.outbox, s.inbox, commit);
    assert db.outbox[m.messageId.value] in db.outbox;
    NoticeIsFaithful(cfg, db, m, orders, s.inbox.now);
  }

  lemma {:induction false} NotifyKeepsInv(cfg: Config, s: State, a: Action)
    requires Inv(cfg, s) && Positive(cfg) && a.Notify? && Allowed(cfg, s, a)
    ensures Inv(cfg, Step(cfg, s, a))
  {
    var notice := N.NoticeFor(PaymentKind(cfg), a.orders, s.inbox.handlers[a.h].msg.body).value;
    InboxCommits(cfg, s, a.h, a.orders, a.answer);
    RoutedStays(cfg, s, C.Commit(a.h, notice, a.answer));
    RowIsWritten(cfg.mail, s.mail, |s.inbox.log|, cfg.mailAttempts);
  }

  lemma {:induction false} StepKeepsInv(cfg: Config, s: State, a: Action)
    requires Inv(cfg, s) && Positive(cfg) && Allowed(cfg, s, a)
    ensures Inv(cfg, Step(cfg, s, a))
  {
    match a
    case OnWorld(deed) => OnWorldKeepsInv(cfg, s, deed);
    case OnEvents(work) => QueueStep(cfg.events, s.events, work, |s.world.shop.outbox|);
    case Publish(_, _, _, _) => PublishKeepsInv(cfg, s, a);
    case OnInbox(delivery) =>
      InboxStep(cfg, s, delivery);
      RoutedStays(cfg, s, delivery);
    case Notify(_, _, _) => NotifyKeepsInv(cfg, s, a);
    case OnMail(work) => QueueStep(cfg.mail, s.mail, work, |s.inbox.log|);
  }

  lemma {:induction false} RunKeepsInv(cfg: Config, s: State, acts: seq<Action>)
    requires Inv(cfg, s) && Positive(cfg) && AllowedRun(cfg, s, acts)
    ensures Inv(cfg, Run(cfg, s, acts))
    decreases |acts|
  {
    if acts != [] {
      StepKeepsInv(cfg, s, acts[0]);
      RunKeepsInv(cfg, Step(cfg, s, acts[0]), acts[1..]);
    }
  }

  lemma {:induction false} StartIsGood(cfg: Config, s: State)
    requires World.I.Init(cfg.world.idem, s.world.idem) && S.Init(s.world.shop)
    requires L.Init(s.events) && C.Init(s.inbox) && L.Init(s.mail)
    ensures Inv(cfg, s)
  {
    World.InitInv(cfg.world, s.world);
    P.InitBooks(cfg.world.shop, s.world.shop);
    L.InitIsGood(s.events);
    L.InitIsGood(s.mail);
    C.InitIsGood(cfg.inbox, s.inbox);
  }

  // ---- what a customer is told ----

  predicate Settled(status: S.PaymentStatus) { status == S.Paid || status == S.Failed || status == S.Expired }

  /** The event of a final status, and the template that announces it. */
  function EventFor(status: S.PaymentStatus): S.EventName
    requires Settled(status)
  {
    match status case Paid => S.PaymentPaid case Failed => S.PaymentFailed case _ => S.PaymentExpired
  }

  function TemplateFor(status: S.PaymentStatus): string
    requires Settled(status)
  {
    match status case Paid => "payment.approved" case Failed => "payment.rejected" case _ => "payment.expired"
  }

  predicate IsEvent(db: S.Db, e: nat, name: S.EventName, p: nat) {
    e < |db.outbox| && db.outbox[e].name == name && db.outbox[e].aggregate == p
  }

  lemma {:induction false} TalliedOnce(outbox: seq<S.Event>, name: S.EventName, p: nat) returns (e: nat)
    requires 1 <= P.Tally(outbox, name, p)
    ensures e < |outbox| && outbox[e].name == name && outbox[e].aggregate == p
    decreases |outbox|
  {
    var last := |outbox| - 1;
    if outbox[last].name == name && outbox[last].aggregate == p {
      e := last;
    } else {
      e := TalliedOnce(outbox[..last], name, p);
    }
  }

  lemma {:induction false} EventIsTallied(outbox: seq<S.Event>, e: nat, name: S.EventName, p: nat)
    requires e < |outbox| && outbox[e].name == name && outbox[e].aggregate == p
    ensures 1 <= P.Tally(outbox, name, p)
  {
    SumOfPositive(outbox, P.EventOf(name, p), e);
  }

  lemma {:induction false} TwoAreTalliedTwice(outbox: seq<S.Event>, d: nat, e: nat, name: S.EventName, p: nat)
    requires d < e < |outbox| && outbox[d].name == outbox[e].name == name
             && outbox[d].aggregate == outbox[e].aggregate == p
    ensures 2 <= P.Tally(outbox, name, p)
  {
    SumOfRemove(outbox, e, P.EventOf(name, p));
    EventIsTallied(outbox[..e] + outbox[e + 1..], d, name, p);
  }

  /** There is one event of a name and a payment, and e is it. */
  ghost predicate TheEvent(db: S.Db, e: nat, name: S.EventName, p: nat) {
    IsEvent(db, e, name, p) && forall d: nat | IsEvent(db, d, name, p) :: d == e
  }

  lemma {:induction false} FinalStatusHasItsEvent(cfg: Config, s: State, p: nat) returns (e: nat)
    requires Inv(cfg, s) && p < |s.world.shop.payments| && Settled(s.world.shop.payments[p].status)
    ensures TheEvent(s.world.shop, e, EventFor(s.world.shop.payments[p].status), p)
  {
    var db := s.world.shop;
    var name := EventFor(db.payments[p].status);
    assert P.PaymentOk(cfg.world.shop, db.payments, db.tokens, db.outbox, db.audits, p);
    e := TalliedOnce(db.outbox, name, p);
    forall d: nat | IsEvent(db, d, name, p) ensures d == e {
      if d < e {
        TwoAreTalliedTwice(db.outbox, d, e, name, p);
      } else if e < d {
        TwoAreTalliedTwice(db.outbox, e, d, name, p);
      }
    }
  }

  /** Every notification is about a payment's event and goes where the event belongs. */
  ghost predicate Truthful(cfg: Config, s: State, k: nat)
    requires k < |s.inbox.log|
  {
    var db, sent := s.world.shop, s.inbox.log[k];
    && sent.messageId < |db.outbox|
    && var p := db.outbox[sent.messageId].aggregate;
       && p < |db.payments| && p < |db.orders| && db.payments[p].order == p
       && (forall status | Settled(status) && sent.notice.template == TemplateFor(status) ::
             db.payments[p].status == status && sent.notice.recipient == cfg.email(db.orders[p].user))
       && (sent.notice.template == "payment.receipt_uploaded" ==> sent.notice.recipient == cfg.adminInbox.GetOr(""))
       && (sent.notice.template == "payment.reminder" ==> sent.notice.recipient == cfg.email(db.orders[p].user))
  }

  /** Its mail row was written with it, and is SENT only once the provider accepted it. */
  ghost predicate Mailed(s: State, k: nat) {
    k in s.mail.tries && (k in s.mail.rows && s.mail.rows[k].status == L.Done ==> k in s.mail.accepted)
  }

  lemma {:induction false} TemplateOfStatus(name: S.EventName, status: S.PaymentStatus)
    requires Settled(status) && NameOf(name) in N.TEMPLATE_BY_EVENT
             && N.TEMPLATE_BY_EVENT[NameOf(name)] == TemplateFor(status)
    ensures name == EventFor(status)
  {
  }

  lemma {:induction false} EntryIsTruthful(cfg: Config, s: State, k: nat)
    requires Inv(cfg, s) && k < |s.inbox.log|
    ensures Truthful(cfg, s, k) && Mailed(s, k)
  {
    var db, sent := s.world.shop, s.inbox.log[k];
    assert sent in s.inbox.log && Faithful(cfg, db, sent);
    var event := db.outbox[sent.messageId];
    assert event in db.outbox && L.RowOk(s.mail, k);
    var p := event.aggregate;
    assert P.PaymentOk(cfg.world.shop, db.payments, db.tokens, db.outbox, db.audits, p);
    OnlyReceiptsAreNamedSo(event.name);
    forall status | Settled(status) && sent.notice.template == TemplateFor(status)
      ensures db.payments[p].status == status && sent.notice.recipient == cfg.email(db.orders[p].user)
    {
      TemplateOfStatus(event.name, status);
      EventIsTallied(db.outbox, sent.messageId, event.name, p);
    }
  }

  /**
   * Nobody is told what is not so: on every run of checkouts, payments, relays, brokers,
   * consumers and senders, "approved", "rejected" and "expired" go only to the owner of
   * an order whose payment is PAID, FAILED or EXPIRED for good, receipts only to the admins.
   */
  lemma {:induction false} NoticesTellTheTruth(cfg: Config, s: State, acts: seq<Action>)
    requires Inv(cfg, s) && Positive(cfg) && AllowedRun(cfg, s, acts)
    ensures var end := Run(cfg, s, acts);
            forall k | 0 <= k < |end.inbox.log| :: Truthful(cfg, end, k) && Mailed(end, k)
  {
    RunKeepsInv(cfg, s, acts);
    var end := Run(cfg, s, acts);
    forall k | 0 <= k < |end.inbox.log| ensures Truthful(cfg, end, k) && Mailed(end, k) {
      EntryIsTruthful(cfg, end, k);
    }
  }

  /** The event has its row, and once that is PUBLISHED its message is accounted for. */
  ghost predicate Followed(s: State, e: nat) {
    && e in s.events.tries
    && (e in s.events.rows && s.events.rows[e].status == L.Done ==> Pipeline.EventAccounted(s.inbox, e))
  }

  ghost predicate Apart(cfg: Config, s: State, e: nat) {
    forall i, j | 0 <= i < j < |s.inbox.log| && s.inbox.log[i].messageId == s.inbox.log[j].messageId == e ::
      cfg.inbox.window < s.inbox.log[j].at - s.inbox.log[i].at
  }

  /**
   * And what is so is announced: a payment that ended up PAID, FAILED or EXPIRED has
   * exactly one event of that name, with an outbox row; once that is PUBLISHED its message
   * is under way, parked, skipped or notified, and its notifications are more than the
   * ProcessedEvent window apart.
   */
  lemma {:induction false} FinalPaymentsAreAnnounced(cfg: Config, s: State, acts: seq<Action>, p: nat) returns (e: nat)
    requires Inv(cfg, s) && Positive(cfg) && AllowedRun(cfg, s, acts)
    requires var db := Run(cfg, s, acts).world.shop; p < |db.payments| && Settled(db.payments[p].status)
    ensures var end := Run(cfg, s, acts);
            && TheEvent(end.world.shop, e, EventFor(end.world.shop.payments[p].status), p)
            && Followed(end, e) && Apart(cfg, end, e)
  {
    RunKeepsInv(cfg, s, acts);
    var end := Run(cfg, s, acts);
    e := FinalStatusHasItsEvent(cfg, end, p);
    EventIsFollowed(cfg, end, e);
    forall i, j | 0 <= i < j < |end.inbox.log| && end.inbox.log[i].messageId == end.inbox.log[j].messageId == e
      ensures cfg.inbox.window < end.inbox.log[j].at - end.inbox.log[i].at
    {
      assert C.ApartOk(cfg.inbox, end.inbox, i, j);
    }
  }

  lemma {:induction false} EventIsFollowed(cfg: Config, s: State, e: nat)
    requires Inv(cfg, s) && Wanted(s, e)
    ensures Followed(s, e)
  {
    assert L.RowOk(s.events, e);
    if e in s.events.rows && s.events.rows[e].status == L.Done {
      assert Pipeline.Routed(s.inbox, e);
      var i: nat :| Pipeline.Carries(s.inbox, i, e);
      C.CarrierIsAccounted(s.inbox, i);
    }
  }
}
