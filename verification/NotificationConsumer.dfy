/**
 * The two notification consumers as they run: a delivery is looked up, turned into a
 * notification, committed together with its ProcessedEvent row, and only then
 * acknowledged. They differ in what notification an event becomes.
 */
module NotificationConsumer {
  import opened Base
  import opened Consumer

  datatype Customer = Customer(email: string)

  /** Orders: the order.created consumer. Payments: the payment.* consumer with its admin inbox. */
  datatype Kind = Orders | Payments(adminInbox: Option<string>)

  const TEMPLATE_BY_EVENT: map<string, string> := map[
    "payment.paid" := "payment.approved",
    "payment.failed" := "payment.rejected",
    "payment.expired" := "payment.expired",
    "payment.receipt_uploaded" := "payment.receipt_uploaded",
    "payment.reminder" := "payment.reminder"]

  const ADMIN_RECIPIENT_EVENTS: set<string> := {"payment.receipt_uploaded"}

  /** The notification an event stands for; None where the consumer skips it. */
  function NoticeFor(kind: Kind, orders: map<string, Customer>, e: Body): Option<Notice>
    requires e.Event?
  {
    if e.orderId == "" || e.orderId !in orders then None
    else match kind
      case Orders =>
        if orders[e.orderId].email == "" then None else Some(Notice(orders[e.orderId].email, "order.received"))
      case Payments(inbox) =>
        if e.name !in TEMPLATE_BY_EVENT then None
        else
          var recipient := if e.name in ADMIN_RECIPIENT_EVENTS then inbox.GetOr("") else orders[e.orderId].email;
          if recipient == "" then None else Some(Notice(recipient, TEMPLATE_BY_EVENT[e.name]))
  }

  /** What the payments consumer binds its queue to. */
  const ROUTING_KEYS: seq<string> :=
    ["payment.paid", "payment.failed", "payment.expired", "payment.receipt_uploaded", "payment.reminder"]

  predicate ForAdmins(kind: Kind, e: Body)
    requires e.Event?
  {
    kind.Payments? && e.name in ADMIN_RECIPIENT_EVENTS
  }

  predicate SameConsumer(kind: Kind, other: Kind) { kind.Orders? <==> other.Orders? }

  predicate KnownAlike(orders: map<string, Customer>, others: map<string, Customer>, id: string) {
    id in orders <==> id in others
  }

  /**
   * Who can see an event: what the admins get does not depend on any customer's address,
   * and what a customer gets depends on nobody's address but that of the order's owner.
   */
  lemma {:induction false} NoticeReachesItsReader(
    kind: Kind, other: Kind, orders: map<string, Customer>, others: map<string, Customer>, e: Body)
    requires e.Event? && SameConsumer(kind, other) && KnownAlike(orders, others, e.orderId)
    ensures ForAdmins(kind, e) && kind == other ==> NoticeFor(kind, orders, e) == NoticeFor(other, others, e)
    ensures !ForAdmins(kind, e) && e.orderId in orders && orders[e.orderId] == others[e.orderId] ==>
              NoticeFor(kind, orders, e) == NoticeFor(other, others, e)
    ensures var notice := NoticeFor(kind, orders, e);
            notice.Some? ==>
              && notice.value.recipient != ""
              && (if ForAdmins(kind, e) then kind.adminInbox == Some(notice.value.recipient)
                  else orders[e.orderId].email == notice.value.recipient)
  {
  }

  /** No routed payment event is skipped for want of a template; what can be missing is the order or the address. */
  lemma {:induction false} SkippedIff(kind: Kind, orders: map<string, Customer>, e: Body)
    requires e.Event? && (kind.Payments? ==> e.name in ROUTING_KEYS)
    ensures NoticeFor(kind, orders, e).None? <==>
              || e.orderId == "" || e.orderId !in orders
              || (if kind.Payments? && e.name == "payment.receipt_uploaded" then kind.adminInbox.GetOr("") == ""
                  else orders[e.orderId].email == "")
  {
    forall name | name in ROUTING_KEYS ensures name in TEMPLATE_BY_EVENT {
      var i :| 0 <= i < |ROUTING_KEYS| && ROUTING_KEYS[i] == name;
    }
    OnlyReceiptsAreForAdmins(e.name);
  }

  lemma {:induction false} OnlyReceiptsAreForAdmins(name: string)
    ensures name in ADMIN_RECIPIENT_EVENTS <==> name == "payment.receipt_uploaded"
  {
  }

  /** The template tells a reader which of the five events happened, and orders have their own. */
  lemma {:induction false} TemplateTellsTheEvent(
    kind: Kind, other: Kind, orders: map<string, Customer>, others: map<string, Customer>, d: Body, e: Body)
    requires d.Event? && e.Event? && NoticeFor(kind, orders, d).Some? && NoticeFor(other, others, e).Some?
    ensures NoticeFor(kind, orders, d).value.template == NoticeFor(other, others, e).value.template <==>
              SameConsumer(kind, other) && (kind.Payments? ==> d.name == e.name)
  {
  }

  /** Broker and database. `Act` is one of their atomic steps; the rest of the world runs inside Yield. */
  class Backend {
    var s: State
    const cfg: Config
    const orders: map<string, Customer>
    ghost const quiet: bool
    ghost var failures: nat   // how many of this consumer's own queries have failed

    constructor (cfg: Config, orders: map<string, Customer>, ghost quiet: bool, s: State)
      ensures this.cfg == cfg && this.orders == orders && this.quiet == quiet && this.s == s && failures == 0
    {
      this.cfg, this.orders, this.quiet, this.s, failures := cfg, orders, quiet, s, 0;
    }

    twostate predicate Advanced()
      reads this
    {
      Reaches(cfg, old(s), s)
    }

    /** Everybody else acts; this delivery's own handler state is its alone. */
    method Yield(ghost h: Id)
      modifies this`s
      ensures Advanced()
      ensures h in old(s.handlers) ==> h in s.handlers && s.handlers[h] == old(s.handlers)[h]
      ensures quiet ==> s == old(s)
    {
      ReachesSelf(cfg, s);
    }

    method Faults() returns (failed: bool)
      modifies this`failures
      ensures quiet ==> !failed
      ensures failures == old(failures) + if failed then 1 else 0
    {
      failed := false;
    }

    method Act(ghost start: State, a: Action)
      requires Reaches(cfg, start, s) && Allowed(cfg, s, a)
      modifies this`s
      ensures s == Step(cfg, old(s), a) && Reaches(cfg, start, s)
    {
      ReachesStep(cfg, start, s, a);
      s := Step(cfg, s, a);
    }

    method Wait(ghost start: State, ghost h: Id)
      requires Reaches(cfg, start, s) && h in s.handlers
      modifies this`s
      ensures Reaches(cfg, start, s) && h in s.handlers && s.handlers[h] == old(s.handlers)[h]
      ensures quiet ==> s == old(s)
    {
      Yield(h);
      ReachesTrans(cfg, start, old(s), s);
    }
  }

  /** What an undisturbed `process` decides and leaves behind. */
  function Processed(
      kind: Kind, orders: map<string, Customer>, s: State, msg: Message): (Verdict, map<Id, Millis>, seq<Entry>)
    requires WellFormed(msg)
  {
    var m := msg.messageId.value;
    if m in s.processed then (Duplicate, s.processed, s.log)
    else if msg.body.Null? then (Poison, s.processed, s.log)
    else match NoticeFor(kind, orders, msg.body)
      case None => (Skipped, s.processed, s.log)
      case Some(notice) => (Enqueued, s.processed[m := s.now], s.log + [Entry(m, s.now, notice)])
  }

  /** A second delivery of the same message enqueues nothing more, and is a duplicate exactly if the first enqueued. */
  lemma {:induction false} HandledTwice(kind: Kind, orders: map<string, Customer>, s: State, msg: Message)
    requires WellFormed(msg)
    ensures var (verdict, processed, log) := Processed(kind, orders, s, msg);
            var again := Processed(kind, orders, s.(processed := processed, log := log), msg);
            && again.1 == processed && again.2 == log
            && again.0 == (if verdict == Enqueued then Duplicate else verdict)
  {
  }

  /** What is enqueued, and when: once, for a known event with a reader, under the event's id. */
  lemma {:induction false} EnqueuedIff(kind: Kind, orders: map<string, Customer>, s: State, msg: Message)
    requires WellFormed(msg)
    ensures var (verdict, processed, log) := Processed(kind, orders, s, msg);
            && (verdict == Duplicate <==> msg.messageId.value in s.processed)
            && (verdict == Enqueued <==>
                  && msg.messageId.value !in s.processed && msg.body.Event? && NoticeFor(kind, orders, msg.body).Some?
                  && processed == s.processed[msg.messageId.value := s.now] && |log| == |s.log| + 1)
            && (verdict == Enqueued ==>
                  && log[..|s.log|] == s.log && log[|s.log|].messageId == msg.messageId.value
                  && log[|s.log|].at == s.now
                  && Some(log[|s.log|].notice) == NoticeFor(kind, orders, msg.body))
            && (verdict != Enqueued ==> processed == s.processed && log == s.log)
            && (verdict == Poison <==> msg.messageId.value !in s.processed && msg.body.Null?)
  {
  }

  class NotificationConsumer {
    const backend: Backend
    const kind: Kind
    var paused: bool
    var consumerTag: Option<Id>

    constructor (backend: Backend, kind: Kind, tag: Id)
      ensures this.backend == backend && this.kind == kind && !paused && consumerTag == Some(tag)
    {
      this.backend, this.kind, paused, consumerTag := backend, kind, false, Some(tag);
    }

    /** A query fails: the connection is gone, or anything else went wrong. */
    method Throw(ghost start: State, h: Id, infra: bool) returns (verdict: Verdict)
      requires Reaches(backend.cfg, start, backend.s)
      requires h in backend.s.handlers && backend.s.handlers[h].phase in {Received, Unseen}
               && WellFormed(backend.s.handlers[h].msg)
      modifies backend`s
      ensures Reaches(backend.cfg, start, backend.s)
      ensures verdict == (if infra then Infra else Poison) && backend.s == Phased(old(backend.s), h, Decided(verdict))
    {
      backend.Act(start, Fail(h, infra));
      verdict := if infra then Infra else Poison;
    }

    method FindNotice(body: Body) returns (notice: Option<Notice>)
      requires body.Event?
      ensures notice == NoticeFor(kind, backend.orders, body)
    {
      if kind.Payments? && body.name !in TEMPLATE_BY_EVENT {
        return None;
      }
      if body.orderId == "" || body.orderId !in backend.orders {
        return None;
      }
      var customer := backend.orders[body.orderId];
      var isAdminEvent := kind.Payments? && body.name in ADMIN_RECIPIENT_EVENTS;
      var recipient := if isAdminEvent then kind.adminInbox.GetOr("") else customer.email;
      if recipient == "" {
        return None;
      }
      return Some(Notice(recipient, if kind.Payments? then TEMPLATE_BY_EVENT[body.name] else "order.received"));
    }

    /**
     * Why a delivery gets its verdict, whatever ran in between: only a failed query makes
     * it an infrastructure problem, only that or an empty body makes it poison, and it is
     * skipped only for want of an order or a reader.
     */
    twostate predicate DecidedWell(msg: Message, verdict: Verdict)
      requires WellFormed(msg)
      reads backend
    {
      var s, m := backend.s, msg.messageId.value;
      match verdict
      case Enqueued =>
        && msg.body.Event? && m in s.processed && s.log != [] && s.log[|s.log| - 1].messageId == m
        && Some(s.log[|s.log| - 1].notice) == NoticeFor(kind, backend.orders, msg.body)
      case Duplicate => m in s.processed
      case Skipped => msg.body.Event? && NoticeFor(kind, backend.orders, msg.body).None?
      case Infra => old(backend.failures) < backend.failures
      case Poison => msg.body.Null? || old(backend.failures) < backend.failures
    }

    /** Dedup and enqueue. Infra and Poison stand for what the method throws. */
    method Process(ghost start: State, h: Id) returns (verdict: Verdict)
      requires Reaches(backend.cfg, start, backend.s)
      requires h in backend.s.handlers && backend.s.handlers[h].phase == Received
               && WellFormed(backend.s.handlers[h].msg)
      modifies backend
      ensures Reaches(backend.cfg, start, backend.s)
      ensures h in backend.s.handlers && backend.s.handlers[h] == old(backend.s).handlers[h].(phase := Decided(verdict))
      ensures DecidedWell(old(backend.s).handlers[h].msg, verdict)
      ensures backend.quiet ==>
                var was := old(backend.s);
                var (decided, processed, log) := Processed(kind, backend.orders, was, was.handlers[h].msg);
                && verdict == decided
                && backend.s == Phased(was.(processed := processed, log := log), h, Decided(decided))
    {
      var msg := backend.s.handlers[h].msg;
      var m := msg.messageId.value;
      var infra := *;
      var failed := backend.Faults();
      if failed {
        verdict := Throw(start, h, infra);
        return;
      }
      var seen := m in backend.s.processed;
      backend.Act(start, Look(h));
      if seen {
        return Duplicate;
      }
      verdict := ProcessUnseen(start, h, infra);
    }

    /** After the dedup lookup: the event's notice, or a skip. */
    method ProcessUnseen(ghost start: State, h: Id, infra: bool) returns (verdict: Verdict)
      requires Reaches(backend.cfg, start, backend.s)
      requires h in backend.s.handlers && backend.s.handlers[h].phase == Unseen
               && WellFormed(backend.s.handlers[h].msg)
      modifies backend
      ensures Reaches(backend.cfg, start, backend.s)
      ensures h in backend.s.handlers && backend.s.handlers[h] == old(backend.s).handlers[h].(phase := Decided(verdict))
      ensures old(backend.failures) <= backend.failures && DecidedWell(old(backend.s).handlers[h].msg, verdict)
      ensures backend.quiet && old(backend.s).handlers[h].msg.messageId.value !in old(backend.s).processed ==>
                var was := old(backend.s);
                var (decided, processed, log) := Processed(kind, backend.orders, was, was.handlers[h].msg);
                && verdict == decided
                && backend.s == Phased(was.(processed := processed, log := log), h, Decided(decided))
    {
      var msg := backend.s.handlers[h].msg;
      backend.Wait(start, h);
      if msg.body.Null? {
        verdict := Throw(start, h, false);
        return;
      }
      var failed := backend.Faults();
      if failed {
        verdict := Throw(start, h, infra);
        return;
      }
      var notice := FindNotice(msg.body);
      if notice.None? {
        backend.Act(start, Skip(h));
        return Skipped;
      }
      verdict := Enqueue(start, h, notice.value, infra);
    }

    /** $transaction: the notification and its ProcessedEvent row, or neither. */
    method Enqueue(ghost start: State, h: Id, notice: Notice, infra: bool) returns (verdict: Verdict)
      requires Reaches(backend.cfg, start, backend.s)
      requires h in backend.s.handlers && backend.s.handlers[h].phase == Unseen
               && WellFormed(backend.s.handlers[h].msg)
      requires var body := backend.s.handlers[h].msg.body;
               body.Event? && NoticeFor(kind, backend.orders, body) == Some(notice)
      modifies backend
      ensures Reaches(backend.cfg, start, backend.s)
      ensures h in backend.s.handlers && backend.s.handlers[h] == old(backend.s).handlers[h].(phase := Decided(verdict))
      ensures old(backend.failures) <= backend.failures && DecidedWell(old(backend.s).handlers[h].msg, verdict)
      ensures backend.quiet ==>
                var was, m := old(backend.s), old(backend.s).handlers[h].msg.messageId.value;
                if m in was.processed then verdict == Duplicate && backend.s == Phased(was, h, Decided(Duplicate))
                else
                  && verdict == Enqueued
                  && backend.s == Phased(was.(processed := was.processed[m := was.now],
                                              log := was.log + [Entry(m, was.now, notice)]), h, Decided(Enqueued))
    {
      var m := backend.s.handlers[h].msg.messageId.value;
      backend.Wait(start, h);
      var failed := backend.Faults();
      if failed {
        verdict := Throw(start, h, infra);
        return;
      }
      // The answer to the COMMIT may be lost although the rows are there.
      failed := backend.Faults();
      var duplicate := m in backend.s.processed;
      var answer := if !failed then Enqueued else if infra then Infra else Poison;
      backend.Act(start, Commit(h, notice, answer));
      return if duplicate then Duplicate else answer;
    }

    /** A confirmed copy in the dead-letter queue first, the ack after it. */
    method DeadLetter(ghost start: State, h: Id)
      requires Reaches(backend.cfg, start, backend.s) && Allowed(backend.cfg, backend.s, Copy(h))
      modifies backend
      ensures Reaches(backend.cfg, start, backend.s)
      ensures backend.quiet ==>
                var copied := Step(backend.cfg, old(backend.s), Copy(h));
                backend.s == Step(backend.cfg, copied, AckCopied(h))
    {
      var failed := backend.Faults();
      if failed {
        // Unconfirmed: the delivery stays unacknowledged and goes back with its channel.
        backend.Wait(start, h);
        backend.Act(start, Drop(h));
        return;
      }
      backend.Act(start, Copy(h));
      backend.Wait(start, h);
      backend.Act(start, AckCopied(h));
    }

    /** Back to the main queue without raising x-death; the first to notice stops consuming. */
    method PauseForInfra(ghost start: State, h: Id)
      requires Reaches(backend.cfg, start, backend.s) && Allowed(backend.cfg, backend.s, Requeue(h))
      modifies backend, this
      ensures Reaches(backend.cfg, start, backend.s) && backend.s == Step(backend.cfg, old(backend.s), Requeue(h))
      ensures paused && (if old(paused) then consumerTag == old(consumerTag) else consumerTag == None)
    {
      backend.Act(start, Requeue(h));
      if paused {
        return;
      }
      paused := true;
      consumerTag := None;
    }

    /**
     * One delivery from receipt to acknowledgement. Undisturbed, a malformed message is
     * copied to the dead-letter queue; an enqueued, duplicate or skipped one is settled;
     * a poisonous one goes through the retry queue while its death count is below the
     * limit and to the dead-letter queue after that.
     */
    method HandleDelivery(h: Id)
      requires h in backend.s.handlers && backend.s.handlers[h].phase == Received
      requires h in backend.s.handlers && Owns(backend.s, h)
      modifies backend, this
      ensures backend.Advanced()
      ensures backend.quiet ==> Concluded(old(backend.s), h, backend.s)
      ensures backend.quiet ==> paused == old(paused) && consumerTag == old(consumerTag)
    {
      ghost var start := backend.s;
      ReachesSelf(backend.cfg, start);
      var msg := backend.s.handlers[h].msg;
      if msg.messageId.None? || msg.body.Unparseable? {
        DeadLetter(start, h);
        return;
      }
      var verdict := Process(start, h);
      backend.Wait(start, h);
      Conclude(start, h, verdict);
    }

    /** The verdict's ack, nack, requeue or dead-letter handoff. */
    method Conclude(ghost start: State, h: Id, verdict: Verdict)
      requires Reaches(backend.cfg, start, backend.s)
      requires h in backend.s.handlers && backend.s.handlers[h].phase == Decided(verdict)
      modifies backend, this
      ensures Reaches(backend.cfg, start, backend.s)
      ensures verdict != Infra ==> paused == old(paused) && consumerTag == old(consumerTag)
      ensures backend.quiet && Owns(old(backend.s), h) ==> Moves(old(backend.s), h, verdict, backend.s)
    {
      var msg := backend.s.handlers[h].msg;
      match verdict
      case Infra =>
        PauseForInfra(start, h);
      case Poison =>
        if msg.deaths >= backend.cfg.maxAttempts {
          DeadLetter(start, h);
        } else {
          var bump: nat :| bump >= 1;
          backend.Act(start, Nack(h, bump));
        }
      case _ =>
        backend.Act(start, Ack(h));
    }

    /** Where the delivery goes for a verdict, and nothing else changes. */
    ghost predicate Moves(was: State, h: Id, verdict: Verdict, s: State)
      requires h in was.handlers && Owns(was, h)
    {
      var i := was.handlers[h].inst;
      var msg := was.handlers[h].msg;
      && h !in s.handlers && s.processed == was.processed && s.log == was.log && |was.insts| <= |s.insts|
      && (forall k | 0 <= k < |was.insts| && k != i :: s.insts[k] == was.insts[k])
      && match verdict
         case Infra => s.insts == was.insts[i := was.insts[i].(place := Main)]
         case Poison =>
           if backend.cfg.maxAttempts <= msg.deaths then ToDlq(was, s, i)
           else s.insts[i].place == Retry && SameMessage(s.insts[i].msg, msg)
                && s.insts[i].msg.deaths > msg.deaths && s.insts[i].trips == was.handlers[h].trips + 1
                && |s.insts| == |was.insts|
         case _ => s.insts == was.insts[i := was.insts[i].(place := Settled(verdict))]
    }

    predicate Owns(s: State, h: Id)
      requires h in s.handlers
    {
      s.handlers[h].inst < |s.insts|
        && s.insts[s.handlers[h].inst] == Instance(s.handlers[h].msg, Unacked(h), s.handlers[h].trips)
    }

    ghost predicate Concluded(was: State, h: Id, s: State)
      requires h in was.handlers && Owns(was, h)
    {
      var i := was.handlers[h].inst;
      var msg := was.handlers[h].msg;
      && h !in s.handlers && |was.insts| <= |s.insts|
      && (forall k | 0 <= k < |was.insts| && k != i :: s.insts[k] == was.insts[k])
      && (if !WellFormed(msg) then ToDlq(was, s, i) && s.processed == was.processed && s.log == was.log
          else
            var (verdict, processed, log) := Processed(kind, backend.orders, was, msg);
            Moves(was.(processed := processed, log := log), h, verdict, s))
    }

    ghost predicate ToDlq(was: State, s: State, i: nat)
      requires i < |was.insts| <= |s.insts|
    {
      && |s.insts| == |was.insts| + 1
      && s.insts[i] == was.insts[i].(place := DeadLettered(|was.insts|))
      && s.insts[|was.insts|] == was.insts[i].(place := Dlq)
    }
  }
}
