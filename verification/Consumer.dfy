/**
 * A notification consumer between its main queue, retry queue and dead-letter queue.
 * Every delivery is handled in separate steps, a handler may outlive its channel, and
 * messages are copied by the relay, the dead-letter handoff and the redrive tool.
 */
module Consumer {
  import opened Base

  type Id = nat
  type Millis = int

  datatype Body = Unparseable | Null | Event(name: string, orderId: string)   // "" when the field is absent

  /** `messageId` is the outbox event's id; `deaths` is the x-death sum. */
  datatype Message = Message(messageId: Option<Id>, body: Body, deaths: nat)

  datatype Notice = Notice(recipient: string, template: string)

  datatype Verdict = Enqueued | Duplicate | Skipped | Infra | Poison

  datatype Place =
    | Main | Retry | Unacked(handler: Id) | Dlq
    | Settled(verdict: Verdict) | DeadLettered(copy: nat) | Redriven(copy: nat)

  /** `trips` counts the passes through the retry queue, over all copies of the message. */
  datatype Instance = Instance(msg: Message, place: Place, trips: nat)

  datatype Phase = Received | Unseen | Decided(verdict: Verdict) | Copied(copy: nat)

  datatype Handler = Handler(inst: nat, msg: Message, trips: nat, phase: Phase)

  datatype Entry = Entry(messageId: Id, at: Millis, notice: Notice)

  /** `processed` is the ProcessedEvent table of this consumer; `log` remembers every enqueued notification. */
  datatype State = State(
    now: Millis, insts: seq<Instance>, handlers: map<Id, Handler>, processed: map<Id, Millis>, log: seq<Entry>)

  datatype Config = Config(maxAttempts: nat, window: nat)

  datatype Action =
    | Tick(to: Millis)
    | Route(msg: Message)
    | Deliver(i: nat, h: Id)
    | Look(h: Id)
    | Skip(h: Id)
    | Commit(h: Id, notice: Notice, answer: Verdict)
    | Fail(h: Id, infra: bool)
    | Ack(h: Id)
    | Requeue(h: Id)
    | Nack(h: Id, bump: nat)
    | Copy(h: Id)
    | AckCopied(h: Id)
    | Drop(h: Id)
    | Close(h: Id)
    | Expire(i: nat)
    | Redrive(i: nat, acked: bool)
    | Sweep(ids: set<Id>, clock: Millis)

  predicate WellFormed(m: Message) { m.messageId.Some? && !m.body.Unparseable? }

  predicate Allowed(cfg: Config, s: State, a: Action) {
    match a
    case Tick(to) => s.now <= to
    case Route(msg) => true
    case Deliver(i, h) => i < |s.insts| && s.insts[i].place == Main && h !in s.handlers
    case Look(h) => h in s.handlers && s.handlers[h].phase == Received && WellFormed(s.handlers[h].msg)
    case Skip(h) => h in s.handlers && s.handlers[h].phase == Unseen && s.handlers[h].msg.messageId.Some?
    case Commit(h, _, answer) =>
      && h in s.handlers && s.handlers[h].phase == Unseen && s.handlers[h].msg.messageId.Some?
      && answer in {Enqueued, Infra, Poison}
    case Fail(h, _) => h in s.handlers && s.handlers[h].phase in {Received, Unseen} && WellFormed(s.handlers[h].msg)
    case Ack(h) => h in s.handlers && s.handlers[h].phase in {Decided(Enqueued), Decided(Duplicate), Decided(Skipped)}
    case Requeue(h) => h in s.handlers && s.handlers[h].phase == Decided(Infra)
    case Nack(h, _) =>
      h in s.handlers && s.handlers[h].phase == Decided(Poison) && s.handlers[h].msg.deaths < cfg.maxAttempts
    case Copy(h) =>
      && h in s.handlers
      && (if s.handlers[h].phase == Received then !WellFormed(s.handlers[h].msg)
          else s.handlers[h].phase == Decided(Poison) && cfg.maxAttempts <= s.handlers[h].msg.deaths)
    case AckCopied(h) => h in s.handlers && s.handlers[h].phase.Copied?
    case Drop(h) => h in s.handlers
    case Close(h) => h in s.handlers
    case Expire(i) => i < |s.insts| && s.insts[i].place == Retry
    case Redrive(i, _) => i < |s.insts| && s.insts[i].place == Dlq
    case Sweep(ids, clock) =>
      clock <= s.now && forall id | id in ids :: id in s.processed && s.processed[id] < clock - cfg.window
  }

  /** The broker takes a verdict on a delivery only over the channel that still owns it. */
  function Moved(s: State, h: Id, to: Instance): (insts: seq<Instance>)
    requires h in s.handlers
    ensures |insts| == |s.insts|
  {
    var i := s.handlers[h].inst;
    if i < |s.insts| && s.insts[i].place == Unacked(h) then s.insts[i := to] else s.insts
  }

  function Settle(s: State, h: Id, place: Place): State
    requires h in s.handlers
  {
    var c := s.handlers[h];
    s.(insts := Moved(s, h, Instance(c.msg, place, c.trips)), handlers := s.handlers - {h})
  }

  function Phased(s: State, h: Id, phase: Phase): State
    requires h in s.handlers
  {
    s.(handlers := s.handlers[h := s.handlers[h].(phase := phase)])
  }

  function Step(cfg: Config, s: State, a: Action): State
    requires Allowed(cfg, s, a)
  {
    match a
    case Tick(to) => s.(now := to)
    case Route(msg) => s.(insts := s.insts + [Instance(msg, Main, 0)])
    case Deliver(i, h) =>
      s.(insts := s.insts[i := s.insts[i].(place := Unacked(h))],
         handlers := s.handlers[h := Handler(i, s.insts[i].msg, s.insts[i].trips, Received)])
    case Look(h) =>
      Phased(s, h, if s.handlers[h].msg.messageId.value in s.processed then Decided(Duplicate) else Unseen)
    case Skip(h) => Phased(s, h, Decided(Skipped))
    case Commit(h, notice, answer) =>
      // Both rows or neither: the unique (consumer, messageId) decides. An answer may get lost after the commit.
      var m := s.handlers[h].msg.messageId.value;
      if m in s.processed then Phased(s, h, Decided(Duplicate))
      else Phased(s.(processed := s.processed[m := s.now], log := s.log + [Entry(m, s.now, notice)]), h,
        Decided(answer))
    case Fail(h, infra) => Phased(s, h, Decided(if infra then Infra else Poison))
    case Ack(h) => Settle(s, h, Settled(s.handlers[h].phase.verdict))
    case Requeue(h) => Settle(s, h, Main)
    case Nack(h, bump) =>
      var c := s.handlers[h];
      s.(insts := Moved(s, h, Instance(c.msg.(deaths := c.msg.deaths + bump), Retry, c.trips + 1)),
        handlers := s.handlers - {h})
    case Copy(h) =>
      Phased(s.(insts := s.insts + [Instance(s.handlers[h].msg, Dlq, s.handlers[h].trips)]), h, Copied(|s.insts|))
    case AckCopied(h) => Settle(s, h, DeadLettered(s.handlers[h].phase.copy))
    case Drop(h) => Settle(s, h, Main)
    case Close(h) => s.(insts := Moved(s, h, Instance(s.handlers[h].msg, Main, s.handlers[h].trips)))
    case Expire(i) => s.(insts := s.insts[i := s.insts[i].(place := Main)])
    case Redrive(i, acked) =>
      var copied := s.insts + [Instance(s.insts[i].msg, Main, s.insts[i].trips)];
      s.(insts := if acked then copied[i := s.insts[i].(place := Redriven(|s.insts|))] else copied)
    case Sweep(ids, _) => s.(processed := s.processed - ids)
  }

  ghost predicate AllowedRun(cfg: Config, s: State, acts: seq<Action>)
    decreases |acts|
  {
    acts == [] || (Allowed(cfg, s, acts[0]) && AllowedRun(cfg, Step(cfg, s, acts[0]), acts[1..]))
  }

  ghost function Run(cfg: Config, s: State, acts: seq<Action>): State
    requires AllowedRun(cfg, s, acts)
    decreases |acts|
  {
    if acts == [] then s else Run(cfg, Step(cfg, s, acts[0]), acts[1..])
  }

  predicate Init(s: State) { s.insts == [] && s.handlers == map[] && s.processed == map[] && s.log == [] }

  // ---- one notification per event and window ----

  ghost predicate EntryOk(cfg: Config, s: State, i: nat)
    requires i < |s.log|
  {
    var e := s.log[i];
    && e.at <= s.now
    && ((e.messageId in s.processed && e.at <= s.processed[e.messageId]) || e.at < s.now - cfg.window)
  }

  ghost predicate ApartOk(cfg: Config, s: State, i: nat, j: nat)
    requires i < j < |s.log|
  {
    s.log[i].messageId == s.log[j].messageId ==> cfg.window < s.log[j].at - s.log[i].at
  }

  ghost predicate LedgerOk(cfg: Config, s: State) {
    && (forall i | 0 <= i < |s.log| :: EntryOk(cfg, s, i))
    && (forall i, j | 0 <= i < j < |s.log| :: ApartOk(cfg, s, i, j))
  }

  lemma {:induction false} StepKeepsLedger(cfg: Config, s: State, a: Action)
    requires LedgerOk(cfg, s) && Allowed(cfg, s, a)
    ensures LedgerOk(cfg, Step(cfg, s, a))
  {
    var u := Step(cfg, s, a);
    forall i | 0 <= i < |u.log| ensures EntryOk(cfg, u, i) {
      assert i < |s.log| ==> EntryOk(cfg, s, i);
    }
    forall i, j | 0 <= i < j < |u.log| ensures ApartOk(cfg, u, i, j) {
      assert j < |s.log| ==> ApartOk(cfg, s, i, j);
      assert EntryOk(cfg, s, i);
    }
  }

  /**
   * Event identity: however often the relay re-publishes, the broker redelivers, or the
   * dead-letter queue is redriven, two notifications for one event are enqueued more
   * than the ProcessedEvent window apart.
   */
  lemma {:induction false} OneNotificationPerWindow(cfg: Config, s: State, acts: seq<Action>)
    requires LedgerOk(cfg, s) && AllowedRun(cfg, s, acts)
    ensures var log := Run(cfg, s, acts).log;
            && LedgerOk(cfg, Run(cfg, s, acts))
            && forall i, j | 0 <= i < j < |log| && log[i].messageId == log[j].messageId ::
                 cfg.window < log[j].at - log[i].at
    decreases |acts|
  {
    if acts != [] {
      StepKeepsLedger(cfg, s, acts[0]);
      OneNotificationPerWindow(cfg, Step(cfg, s, acts[0]), acts[1..]);
      assert Run(cfg, s, acts) == Run(cfg, Step(cfg, s, acts[0]), acts[1..]);
    } else {
      forall i, j | 0 <= i < j < |s.log| && s.log[i].messageId == s.log[j].messageId
        ensures cfg.window < s.log[j].at - s.log[i].at
      {
        assert ApartOk(cfg, s, i, j);
      }
    }
  }

  // ---- no message is lost ----

  predicate SameMessage(a: Message, b: Message) { a.messageId == b.messageId && a.body == b.body }

  ghost predicate InLog(s: State, m: Message) {
    m.messageId.Some? && exists e :: e in s.log && e.messageId == m.messageId.value
  }

  ghost predicate Justified(s: State, m: Message, v: Verdict) {
    v in {Enqueued, Duplicate} ==> InLog(s, m)
  }

  /** A later instance carries the same message. */
  predicate Continues(s: State, i: nat, c: nat) {
    i < c < |s.insts| && i < |s.insts| && SameMessage(s.insts[c].msg, s.insts[i].msg)
  }

  predicate Parked(s: State, c: nat) {
    c < |s.insts| && (s.insts[c].place.Dlq? || s.insts[c].place.Redriven?)
  }

  ghost predicate InstOk(s: State, i: nat) {
    i < |s.insts| ==>
      match s.insts[i].place
      case Unacked(h) =>
        h in s.handlers && s.handlers[h].inst == i && s.handlers[h].msg == s.insts[i].msg
          && s.handlers[h].trips == s.insts[i].trips
      case Settled(v) => v in {Enqueued, Duplicate, Skipped} && Justified(s, s.insts[i].msg, v)
      case DeadLettered(c) => Continues(s, i, c) && Parked(s, c)
      case Redriven(c) => Continues(s, i, c)
      case _ => true
  }

  ghost predicate HandlerOk(s: State, h: Id) {
    h in s.handlers ==>
      var c := s.handlers[h];
      && c.inst < |s.insts| && SameMessage(c.msg, s.insts[c.inst].msg)
      && (c.phase.Decided? ==> Justified(s, c.msg, c.phase.verdict))
      && (c.phase.Copied? ==> Continues(s, c.inst, c.phase.copy) && Parked(s, c.phase.copy))
  }

  ghost predicate ProcessedOk(s: State, m: Id) {
    m in s.processed ==> exists e :: e in s.log && e.messageId == m
  }

  ghost predicate Inv(s: State) {
    && (forall i :: InstOk(s, i))
    && (forall h :: HandlerOk(s, h))
    && (forall m :: ProcessedOk(s, m))
  }

  /** Identity, log and parked copies only grow. */
  lemma {:induction false} StepGrows(cfg: Config, s: State, a: Action)
    requires Inv(s) && Allowed(cfg, s, a)
    ensures var u := Step(cfg, s, a);
            && |s.insts| <= |u.insts| && s.log <= u.log
            && (forall i | 0 <= i < |s.insts| :: SameMessage(u.insts[i].msg, s.insts[i].msg))
            && (forall i | 0 <= i < |s.insts| && Parked(s, i) :: Parked(u, i))
  {
    var u := Step(cfg, s, a);
    forall i | 0 <= i < |s.insts|
      ensures SameMessage(u.insts[i].msg, s.insts[i].msg) && (Parked(s, i) ==> Parked(u, i))
    {
      assert InstOk(s, i);
    }
  }

  lemma {:induction false} JustifiedStays(s: State, u: State, m: Message, m': Message, v: Verdict)
    requires Justified(s, m, v) && s.log <= u.log && SameMessage(m, m')
    ensures Justified(u, m', v)
  {
    if v in {Enqueued, Duplicate} {
      var e :| e in s.log && e.messageId == m.messageId.value;
      assert e in u.log;
    }
  }

  lemma {:induction false} SettledIsJustified(cfg: Config, s: State, a: Action, i: nat)
    requires Inv(s) && Allowed(cfg, s, a) && i < |s.insts| && Step(cfg, s, a).insts[i].place.Settled?
    ensures InstOk(Step(cfg, s, a), i)
  {
    var u := Step(cfg, s, a);
    StepGrows(cfg, s, a);
    assert InstOk(s, i);
    if s.insts[i].place == u.insts[i].place {
      JustifiedStays(s, u, s.insts[i].msg, u.insts[i].msg, u.insts[i].place.verdict);
    } else {
      assert a.Ack? && HandlerOk(s, a.h);
      JustifiedStays(s, u, s.handlers[a.h].msg, u.insts[i].msg, u.insts[i].place.verdict);
    }
  }

  lemma {:induction false} CopyIsLinked(cfg: Config, s: State, a: Action, i: nat)
    requires Inv(s) && Allowed(cfg, s, a) && i < |s.insts|
    requires Step(cfg, s, a).insts[i].place.DeadLettered? || Step(cfg, s, a).insts[i].place.Redriven?
    ensures InstOk(Step(cfg, s, a), i)
  {
    var u := Step(cfg, s, a);
    StepGrows(cfg, s, a);
    assert InstOk(s, i);
    if a.AckCopied? {
      assert HandlerOk(s, a.h);
    }
  }

  lemma {:induction false} StepKeepsInst(cfg: Config, s: State, a: Action, i: nat)
    requires Inv(s) && Allowed(cfg, s, a)
    ensures InstOk(Step(cfg, s, a), i)
  {
    var u := Step(cfg, s, a);
    StepGrows(cfg, s, a);
    if i < |s.insts| {
      assert InstOk(s, i);
      if u.insts[i].place.Settled? {
        SettledIsJustified(cfg, s, a, i);
      } else if u.insts[i].place.DeadLettered? || u.insts[i].place.Redriven? {
        CopyIsLinked(cfg, s, a, i);
      }
    }
  }

  lemma {:induction false} StepKeepsHandler(cfg: Config, s: State, a: Action, h: Id)
    requires Inv(s) && Allowed(cfg, s, a)
    ensures HandlerOk(Step(cfg, s, a), h)
  {
    var u := Step(cfg, s, a);
    StepGrows(cfg, s, a);
    assert HandlerOk(s, h);
    if h in u.handlers && h in s.handlers {
      var c := u.handlers[h];
      if c.phase.Decided? {
        if s.handlers[h].phase == c.phase {
          JustifiedStays(s, u, c.msg, c.msg, c.phase.verdict);
        } else {
          VerdictIsJustified(cfg, s, a, h);
        }
      }
    }
  }

  lemma {:induction false} VerdictIsJustified(cfg: Config, s: State, a: Action, h: Id)
    requires Inv(s) && Allowed(cfg, s, a) && h in s.handlers && h in Step(cfg, s, a).handlers
    requires Step(cfg, s, a).handlers[h].phase.Decided? && s.handlers[h].phase != Step(cfg, s, a).handlers[h].phase
    ensures Justified(Step(cfg, s, a), s.handlers[h].msg, Step(cfg, s, a).handlers[h].phase.verdict)
  {
    if a.Look? || a.Commit? {
      var m := s.handlers[h].msg.messageId.value;
      if m in s.processed {
        assert ProcessedOk(s, m);
        var e :| e in s.log && e.messageId == m;
        assert e in Step(cfg, s, a).log;
      } else if a.Commit? {
        assert Entry(m, s.now, a.notice) in Step(cfg, s, a).log;
      }
    }
  }

  lemma {:induction false} StepKeepsProcessed(cfg: Config, s: State, a: Action, m: Id)
    requires Inv(s) && Allowed(cfg, s, a)
    ensures ProcessedOk(Step(cfg, s, a), m)
  {
    var u := Step(cfg, s, a);
    StepGrows(cfg, s, a);
    if m in u.processed {
      if m in s.processed {
        assert ProcessedOk(s, m);
        var e :| e in s.log && e.messageId == m;
        assert e in u.log;
      } else {
        assert Entry(m, s.now, a.notice) in u.log;
      }
    }
  }

  lemma {:induction false} StepKeepsInv(cfg: Config, s: State, a: Action)
    requires Inv(s) && Allowed(cfg, s, a)
    ensures Inv(Step(cfg, s, a))
  {
    forall i ensures InstOk(Step(cfg, s, a), i) { StepKeepsInst(cfg, s, a, i); }
    forall h ensures HandlerOk(Step(cfg, s, a), h) { StepKeepsHandler(cfg, s, a, h); }
    forall m ensures ProcessedOk(Step(cfg, s, a), m) { StepKeepsProcessed(cfg, s, a, m); }
  }

  /** Where a message ended up: its instance, or the copy that carries it on. */
  function Carrier(s: State, i: nat): nat
    requires i < |s.insts|
    decreases |s.insts| - i
  {
    match s.insts[i].place
    case DeadLettered(c) => if i < c < |s.insts| then Carrier(s, c) else i
    case Redriven(c) => if i < c < |s.insts| then Carrier(s, c) else i
    case _ => i
  }

  /** Still in a queue or being handled, or settled: its event was enqueued, or it was skipped. */
  ghost predicate Accounted(s: State, i: nat, c: nat)
    requires i < |s.insts|
  {
    && c < |s.insts| && SameMessage(s.insts[c].msg, s.insts[i].msg)
    && match s.insts[c].place
       case Settled(v) => v == Skipped || InLog(s, s.insts[c].msg)
       case DeadLettered(_) => false
       case Redriven(_) => false
       case _ => true
  }

  lemma {:induction false} CarrierIsAccounted(s: State, i: nat)
    requires Inv(s) && i < |s.insts|
    ensures Accounted(s, i, Carrier(s, i))
    decreases |s.insts| - i
  {
    assert InstOk(s, i);
    match s.insts[i].place
    case DeadLettered(c) => CarrierIsAccounted(s, c);
    case Redriven(c) => CarrierIsAccounted(s, c);
    case _ =>
  }

  /**
   * No message is lost: on every run, each message ever routed is still in the main,
   * retry or dead-letter queue or being handled, or it was acknowledged only after its
   * event was enqueued or skipped, or after a confirmed copy that is itself accounted for.
   */
  lemma {:induction false} NoMessageIsLost(cfg: Config, s: State, acts: seq<Action>)
    requires Inv(s) && AllowedRun(cfg, s, acts)
    ensures var end := Run(cfg, s, acts);
            && Inv(end) && |s.insts| <= |end.insts|
            && forall i | 0 <= i < |end.insts| :: Accounted(end, i, Carrier(end, i))
    decreases |acts|
  {
    if acts == [] {
      forall i | 0 <= i < |s.insts| ensures Accounted(s, i, Carrier(s, i)) {
        CarrierIsAccounted(s, i);
      }
    } else {
      StepKeepsInv(cfg, s, acts[0]);
      StepGrows(cfg, s, acts[0]);
      NoMessageIsLost(cfg, Step(cfg, s, acts[0]), acts[1..]);
      assert Run(cfg, s, acts) == Run(cfg, Step(cfg, s, acts[0]), acts[1..]);
    }
  }

  // ---- poison messages ----

  /** Every nacked trip through the retry queue raises the x-death sum. */
  predicate Counted(acts: seq<Action>) { forall k | 0 <= k < |acts| && acts[k].Nack? :: 1 <= acts[k].bump }

  predicate TripsOk(cfg: Config, msg: Message, trips: nat) { trips <= msg.deaths && trips <= cfg.maxAttempts }

  ghost predicate TripsBounded(cfg: Config, s: State) {
    && (forall i | 0 <= i < |s.insts| :: TripsOk(cfg, s.insts[i].msg, s.insts[i].trips))
    && (forall h | h in s.handlers :: TripsOk(cfg, s.handlers[h].msg, s.handlers[h].trips))
  }

  lemma {:induction false} StepKeepsTrips(cfg: Config, s: State, a: Action)
    requires TripsBounded(cfg, s) && Allowed(cfg, s, a) && (a.Nack? ==> 1 <= a.bump)
    ensures TripsBounded(cfg, Step(cfg, s, a))
  {
  }

  /**
   * A message passes the retry queue at most maxAttempts times, all its copies together;
   * after that a poison verdict leaves only the dead-letter queue.
   */
  lemma {:induction false} TripsAreBounded(cfg: Config, s: State, acts: seq<Action>)
    requires TripsBounded(cfg, s) && AllowedRun(cfg, s, acts) && Counted(acts)
    ensures TripsBounded(cfg, Run(cfg, s, acts))
    ensures forall i | 0 <= i < |Run(cfg, s, acts).insts| :: Run(cfg, s, acts).insts[i].trips <= cfg.maxAttempts
    ensures var end := Run(cfg, s, acts);
            forall h | h in end.handlers && end.handlers[h].phase == Decided(Poison)
              && end.handlers[h].trips == cfg.maxAttempts ::
              Allowed(cfg, end, Copy(h)) && forall bump :: !Allowed(cfg, end, Nack(h, bump))
    decreases |acts|
  {
    if acts != [] {
      StepKeepsTrips(cfg, s, acts[0]);
      TripsAreBounded(cfg, Step(cfg, s, acts[0]), acts[1..]);
    } else {
      forall i | 0 <= i < |s.insts| ensures s.insts[i].trips <= cfg.maxAttempts {
        assert TripsOk(cfg, s.insts[i].msg, s.insts[i].trips);
      }
      forall h | h in s.handlers ensures TripsOk(cfg, s.handlers[h].msg, s.handlers[h].trips) {}
    }
  }

  /** Malformed, or all its retries used up. */
  predicate GivenUp(cfg: Config, m: Message) { !WellFormed(m) || cfg.maxAttempts <= m.deaths }

  ghost predicate DlqJustified(cfg: Config, s: State) {
    && (forall i | 0 <= i < |s.insts| && (s.insts[i].place.Dlq? || s.insts[i].place.DeadLettered?) ::
          GivenUp(cfg, s.insts[i].msg))
    && (forall h | h in s.handlers && s.handlers[h].phase.Copied? :: GivenUp(cfg, s.handlers[h].msg))
  }

  lemma {:induction false} StepKeepsDlq(cfg: Config, s: State, a: Action)
    requires DlqJustified(cfg, s) && Allowed(cfg, s, a)
    ensures DlqJustified(cfg, Step(cfg, s, a))
  {
  }

  /** Nothing is dead-lettered early: on every run a parseable message gets all its retries first. */
  lemma {:induction false} NoEarlyDeadLetter(cfg: Config, s: State, acts: seq<Action>)
    requires DlqJustified(cfg, s) && AllowedRun(cfg, s, acts)
    ensures DlqJustified(cfg, Run(cfg, s, acts))
    decreases |acts|
  {
    if acts != [] {
      StepKeepsDlq(cfg, s, acts[0]);
      NoEarlyDeadLetter(cfg, Step(cfg, s, acts[0]), acts[1..]);
    }
  }

  /** The steps that handle instance i: its delivery, its expiry, and those of the handler that owns it. */
  predicate Concerns(s: State, a: Action, i: nat)
    requires i < |s.insts|
  {
    match a
    case Tick(_) => false
    case Route(_) => false
    case Sweep(_, _) => false
    case Deliver(j, _) => i == j
    case Expire(j) => i == j
    case Redrive(j, _) => i == j
    case _ => s.insts[i].place == Unacked(a.h)
  }

  /** Handling that ends in nothing but the poison verdict, over a channel that stays open. */
  predicate Poisons(s: State, a: Action) {
    match a
    case Deliver(_, _) => true
    case Expire(_) => true
    case Look(h) =>
      h in s.handlers && s.handlers[h].msg.messageId.Some? && s.handlers[h].msg.messageId.value !in s.processed
    case Fail(_, infra) => !infra
    case Nack(_, bump) => 1 <= bump
    case Copy(_) => true
    case AckCopied(_) => true
    case _ => false
  }

  ghost predicate PoisonRun(cfg: Config, s: State, acts: seq<Action>, i: nat)
    requires AllowedRun(cfg, s, acts) && i < |s.insts|
    decreases |acts|
  {
    acts == [] ||
    (var u := Step(cfg, s, acts[0]);
     (Concerns(s, acts[0], i) ==> Poisons(s, acts[0])) && i < |u.insts| && PoisonRun(cfg, u, acts[1..], i))
  }

  ghost function Handlings(cfg: Config, s: State, acts: seq<Action>, i: nat): nat
    requires AllowedRun(cfg, s, acts) && i < |s.insts|
    decreases |acts|
  {
    if acts == [] then 0 else
    var u := Step(cfg, s, acts[0]);
    (if Concerns(s, acts[0], i) then 1 else 0) + (if i < |u.insts| then Handlings(cfg, u, acts[1..], i) else 0)
  }

  /** On its way through the queues, with no verdict but poison so far. */
  predicate Doomed(s: State, i: nat)
    requires i < |s.insts|
  {
    match s.insts[i].place
    case Main => true
    case Retry => true
    case DeadLettered(_) => true
    case Unacked(h) =>
      && h in s.handlers
      && (match s.handlers[h].phase
          case Received => true
          case Unseen => WellFormed(s.handlers[h].msg)
          case Decided(verdict) => verdict == Poison
          case Copied(_) => true)
    case _ => false
  }

  /** How many handling steps instance i can still take: seven for each retry left, and the rest of this round. */
  function StepsLeft(cfg: Config, s: State, i: nat): nat
    requires i < |s.insts| && Doomed(s, i)
  {
    var retries := if s.insts[i].msg.deaths < cfg.maxAttempts then cfg.maxAttempts - s.insts[i].msg.deaths else 0;
    match s.insts[i].place
    case Retry => 7 * retries + 6
    case Main => 7 * retries + 5
    case Unacked(h) =>
      (match s.handlers[h].phase
       case Received => 7 * retries + 4
       case Unseen => 7 * retries + 3
       case Decided(_) => 7 * retries + 2
       case Copied(_) => 1)
    case _ => 0
  }

  lemma {:induction false} EveryHandlingCounts(cfg: Config, s: State, a: Action, i: nat)
    requires Inv(s) && Allowed(cfg, s, a) && i < |s.insts| && Doomed(s, i)
    requires Concerns(s, a, i) ==> Poisons(s, a)
    ensures var u := Step(cfg, s, a);
            && Inv(u) && i < |u.insts| && Doomed(u, i)
            && StepsLeft(cfg, u, i) + (if Concerns(s, a, i) then 1 else 0) <= StepsLeft(cfg, s, i)
  {
    StepKeepsInv(cfg, s, a);
    assert InstOk(s, i);
  }

  lemma {:induction false} NeverStuck(cfg: Config, s: State, i: nat) returns (a: Action)
    requires Inv(s) && i < |s.insts| && Doomed(s, i) && !s.insts[i].place.DeadLettered?
    ensures Allowed(cfg, s, a) && Concerns(s, a, i) && Poisons(s, a)
  {
    match s.insts[i].place
    case Main =>
      FreshIdExists(s.handlers.Keys);
      var h: Id :| h !in s.handlers;
      a := Deliver(i, h);
    case Retry =>
      a := Expire(i);
    case Unacked(h) =>
      a := match s.handlers[h].phase
        case Received => if WellFormed(s.handlers[h].msg) then Fail(h, false) else Copy(h)
        case Unseen => Fail(h, false)
        case Decided(_) => if s.handlers[h].msg.deaths < cfg.maxAttempts then Nack(h, 1) else Copy(h)
        case Copied(_) => AckCopied(h);
  }

  /**
   * Poison ends in the dead-letter queue: whatever happens to other messages, a message
   * whose every handling is poison can take only so many steps, can always take one
   * more, and has none left exactly when it is dead-lettered, behind a copy of itself.
   */
  lemma {:induction false} PoisonEndsInTheDlq(cfg: Config, s: State, acts: seq<Action>, i: nat)
    requires Inv(s) && AllowedRun(cfg, s, acts) && i < |s.insts| && Doomed(s, i) && PoisonRun(cfg, s, acts, i)
    ensures StepsLeft(cfg, s, i) <= 7 * cfg.maxAttempts + 6
    ensures var end := Run(cfg, s, acts);
            && i < |end.insts| && Doomed(end, i)
            && Handlings(cfg, s, acts, i) + StepsLeft(cfg, end, i) <= StepsLeft(cfg, s, i)
            && (StepsLeft(cfg, end, i) == 0 <==> end.insts[i].place.DeadLettered?)
            && (end.insts[i].place.DeadLettered? ==>
                  Continues(end, i, end.insts[i].place.copy) && Parked(end, end.insts[i].place.copy))
            && (!end.insts[i].place.DeadLettered? ==>
                  exists a :: Allowed(cfg, end, a) && Concerns(end, a, i) && Poisons(end, a))
    decreases |acts|
  {
    if acts != [] {
      EveryHandlingCounts(cfg, s, acts[0], i);
      PoisonEndsInTheDlq(cfg, Step(cfg, s, acts[0]), acts[1..], i);
      assert Run(cfg, s, acts) == Run(cfg, Step(cfg, s, acts[0]), acts[1..]);
    } else {
      assert InstOk(s, i);
      if !s.insts[i].place.DeadLettered? {
        var a := NeverStuck(cfg, s, i);
      }
    }
  }

  lemma {:induction false} InitIsGood(cfg: Config, s: State)
    requires Init(s)
    ensures Inv(s) && LedgerOk(cfg, s) && TripsBounded(cfg, s) && DlqJustified(cfg, s)
  {
  }

  // ---- runs composed ----

  ghost predicate Reaches(cfg: Config, s: State, u: State) {
    exists acts :: AllowedRun(cfg, s, acts) && Run(cfg, s, acts) == u
  }

  lemma {:induction false} ReachesSelf(cfg: Config, s: State)
    ensures Reaches(cfg, s, s)
  {
    assert AllowedRun(cfg, s, []) && Run(cfg, s, []) == s;
  }

  lemma {:induction false} RunConcat(cfg: Config, s: State, before: seq<Action>, after: seq<Action>)
    requires AllowedRun(cfg, s, before) && AllowedRun(cfg, Run(cfg, s, before), after)
    ensures AllowedRun(cfg, s, before + after)
    ensures Run(cfg, s, before + after) == Run(cfg, Run(cfg, s, before), after)
    decreases |before|
  {
    if before == [] {
      assert before + after == after;
    } else {
      RunConcat(cfg, Step(cfg, s, before[0]), before[1..], after);
      assert (before + after)[1..] == before[1..] + after;
    }
  }

  lemma {:induction false} ReachesTrans(cfg: Config, s: State, u: State, v: State)
    requires Reaches(cfg, s, u) && Reaches(cfg, u, v)
    ensures Reaches(cfg, s, v)
  {
    var before :| AllowedRun(cfg, s, before) && Run(cfg, s, before) == u;
    var after :| AllowedRun(cfg, u, after) && Run(cfg, u, after) == v;
    RunConcat(cfg, s, before, after);
  }

  lemma {:induction false} ReachesStep(cfg: Config, s: State, u: State, a: Action)
    requires Reaches(cfg, s, u) && Allowed(cfg, u, a)
    ensures Reaches(cfg, s, Step(cfg, u, a))
  {
    var acts := [a];
    assert acts[1..] == [] && AllowedRun(cfg, Step(cfg, u, a), []);
    assert AllowedRun(cfg, u, acts) && Run(cfg, u, acts) == Step(cfg, u, a);
    ReachesTrans(cfg, s, u, Step(cfg, u, a));
  }

  lemma {:induction false} ReceiveOnce(cfg: Config, start: State, s: State, msg: Message) returns (u: State)
    requires Reaches(cfg, start, s) && s.handlers == map[] && WellFormed(msg) && msg.messageId.value !in s.processed
    ensures Reaches(cfg, start, u)
    ensures u == s.(insts := s.insts + [Instance(msg, Unacked(0), 0)],
              handlers := map[0 := Handler(|s.insts|, msg, 0, Unseen)])
  {
    var routed := Step(cfg, s, Route(msg));
    ReachesStep(cfg, start, s, Route(msg));
    var taken := Step(cfg, routed, Deliver(|s.insts|, 0));
    ReachesStep(cfg, start, routed, Deliver(|s.insts|, 0));
    u := Step(cfg, taken, Look(0));
    ReachesStep(cfg, start, taken, Look(0));
  }

  /** One undisturbed delivery of an event that is not in the ProcessedEvent table. */
  lemma {:induction false} EnqueueOnce(cfg: Config, start: State, s: State, m: Id, notice: Notice) returns (u: State)
    requires Reaches(cfg, start, s) && s.handlers == map[] && m !in s.processed
    ensures Reaches(cfg, start, u) && u.handlers == map[] && u.now == s.now
    ensures u.log == s.log + [Entry(m, s.now, notice)] && u.processed == s.processed[m := s.now]
  {
    var looked := ReceiveOnce(cfg, start, s, Message(Some(m), Event("order.created", "o"), 0));
    var committed := Step(cfg, looked, Commit(0, notice, Enqueued));
    ReachesStep(cfg, start, looked, Commit(0, notice, Enqueued));
    u := Step(cfg, committed, Ack(0));
    ReachesStep(cfg, start, committed, Ack(0));
  }

  /** The window is tight: a re-published event is enqueued again one millisecond after it. */
  lemma {:induction false} WindowIsTight(cfg: Config, notice: Notice) returns (start: State, end: State)
    ensures Init(start) && Reaches(cfg, start, end)
    ensures |end.log| == 2 && end.log[0].messageId == end.log[1].messageId
            && end.log[1].at - end.log[0].at == cfg.window + 1
  {
    start := State(0, [], map[], map[], []);
    ReachesSelf(cfg, start);
    var once := EnqueueOnce(cfg, start, start, 7, notice);
    var late := Step(cfg, once, Tick(cfg.window + 1));
    ReachesStep(cfg, start, once, Tick(cfg.window + 1));
    var swept := Step(cfg, late, Sweep({7}, cfg.window + 1));
    ReachesStep(cfg, start, late, Sweep({7}, cfg.window + 1));
    end := EnqueueOnce(cfg, start, swept, 7, notice);
  }
}
