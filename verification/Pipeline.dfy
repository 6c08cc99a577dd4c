/**
 * The outbox relay and a consumer behind one broker: a delivery of the relay routes a
 * message, whether or not its confirm gets back. Composes the two machines into one
 * statement about published events.
 */
module Pipeline {
  import opened Base
  import L = LeaseQueue
  import C = Consumer

  datatype State = State(events: L.Queue, consumer: C.State)

  datatype Config = Config(lease: L.Config, consumer: C.Config)

  datatype Action =
    | OnEvents(event: L.Action)
    | OnConsumer(delivery: C.Action)
    | Publish(token: nat, body: C.Body, confirmed: bool, delay: int)

  function OutcomeOf(confirmed: bool, delay: int): L.Outcome {
    if confirmed then L.Accepted else L.Transient(delay)
  }

  /** Only a publish can be confirmed. */
  predicate Allowed(cfg: Config, s: State, a: Action) {
    match a
    case OnEvents(event) => L.Allowed(cfg.lease, s.events, event) && (event.Deliver? ==> event.outcome.Transient?)
    case OnConsumer(delivery) => C.Allowed(cfg.consumer, s.consumer, delivery)
    case Publish(token, _, confirmed, delay) =>
      L.Allowed(cfg.lease, s.events, L.Deliver(token, OutcomeOf(confirmed, delay)))
  }

  function Step(cfg: Config, s: State, a: Action): State
    requires Allowed(cfg, s, a)
  {
    match a
    case OnEvents(event) => s.(events := L.Step(cfg.lease, s.events, event))
    case OnConsumer(delivery) => s.(consumer := C.Step(cfg.consumer, s.consumer, delivery))
    case Publish(token, body, confirmed, delay) =>
      var id := s.events.claims[token].batch[0].id;
      State(L.Step(cfg.lease, s.events, L.Deliver(token, OutcomeOf(confirmed, delay))),
            C.Step(cfg.consumer, s.consumer, C.Route(C.Message(Some(id), body, 0))))
  }

  ghost predicate AllowedRun(cfg: Config, s: State, acts: seq<Action>)
    decreases |acts|
  {
    acts == [] || (Allowed(cfg, s, acts[0]) && AllowedRun(cfg, Step(cfg, s, acts[0]), acts[1..]))
  }

  ghost function Run(cfg: Config, s: State, acts: seq<Action>): State
    requires AllowedRun(cfg, s, acts)
    decreases |acts|
  {
    if acts == [] then s else Run(cfg, Step(cfg, s, acts[0]), acts[1..])
  }

  predicate Carries(c: C.State, i: nat, id: nat) { i < |c.insts| && c.insts[i].msg.messageId == Some(id) }

  ghost predicate Routed(c: C.State, id: nat) { exists i: nat :: Carries(c, i, id) }

  ghost predicate Inv(cfg: Config, s: State) {
    && L.Inv(s.events) && C.Inv(s.consumer) && C.LedgerOk(cfg.consumer, s.consumer)
    && forall id | id in s.events.accepted :: Routed(s.consumer, id)
  }

  lemma {:induction false} RoutedStays(cfg: C.Config, c: C.State, a: C.Action, id: nat)
    requires C.Inv(c) && C.Allowed(cfg, c, a) && Routed(c, id)
    ensures Routed(C.Step(cfg, c, a), id)
  {
    var i: nat :| Carries(c, i, id);
    C.StepGrows(cfg, c, a);
    assert C.SameMessage(C.Step(cfg, c, a).insts[i].msg, c.insts[i].msg);
    assert Carries(C.Step(cfg, c, a), i, id);
  }

  lemma {:induction false} StepKeepsInv(cfg: Config, s: State, a: Action)
    requires Inv(cfg, s) && Allowed(cfg, s, a)
    ensures Inv(cfg, Step(cfg, s, a))
  {
    var u := Step(cfg, s, a);
    match a {
      case OnEvents(event) =>
        L.StepKeepsInv(cfg.lease, s.events, event);
        assert u.events.accepted <= s.events.accepted;
      case OnConsumer(delivery) =>
        ConsumerStep(cfg, s, delivery);
      case Publish(token, body, confirmed, delay) =>
        var id := s.events.claims[token].batch[0].id;
        L.StepKeepsInv(cfg.lease, s.events, L.Deliver(token, OutcomeOf(confirmed, delay)));
        ConsumerStep(cfg, s, C.Route(C.Message(Some(id), body, 0)));
        assert Carries(u.consumer, |s.consumer.insts|, id);
        assert u.events.accepted <= s.events.accepted + {id};
    }
  }

  lemma {:induction false} ConsumerStep(cfg: Config, s: State, a: C.Action)
    requires Inv(cfg, s) && C.Allowed(cfg.consumer, s.consumer, a)
    ensures var u := C.Step(cfg.consumer, s.consumer, a);
            && C.Inv(u) && C.LedgerOk(cfg.consumer, u)
            && forall id | id in s.events.accepted :: Routed(u, id)
  {
    C.StepKeepsInv(cfg.consumer, s.consumer, a);
    C.StepKeepsLedger(cfg.consumer, s.consumer, a);
    forall id | id in s.events.accepted ensures Routed(C.Step(cfg.consumer, s.consumer, a), id) {
      RoutedStays(cfg.consumer, s.consumer, a, id);
    }
  }

  /** The event's message is still under way, or settled after its notification was enqueued, or skipped. */
  ghost predicate EventAccounted(c: C.State, id: nat) {
    exists i: nat :: Carries(c, i, id) && C.Accounted(c, i, C.Carrier(c, i))
  }

  /**
   * End to end, over every run of relays, brokers, consumers and redrives: a PUBLISHED
   * event was confirmed and its message is accounted for, and two notifications for
   * one event are more than the ProcessedEvent window apart.
   */
  lemma {:induction false} PublishedEventsAreAccountedFor(cfg: Config, s: State, acts: seq<Action>)
    requires Inv(cfg, s) && AllowedRun(cfg, s, acts)
    ensures var end := Run(cfg, s, acts);
            && Inv(cfg, end)
            && (forall id | id in end.events.rows && end.events.rows[id].status == L.Done ::
                  id in end.events.accepted && EventAccounted(end.consumer, id))
            && var log := end.consumer.log;
               forall i, j | 0 <= i < j < |log| && log[i].messageId == log[j].messageId ::
                 cfg.consumer.window < log[j].at - log[i].at
    decreases |acts|
  {
    if acts != [] {
      StepKeepsInv(cfg, s, acts[0]);
      PublishedEventsAreAccountedFor(cfg, Step(cfg, s, acts[0]), acts[1..]);
      assert Run(cfg, s, acts) == Run(cfg, Step(cfg, s, acts[0]), acts[1..]);
    } else {
      forall id | id in s.events.rows && s.events.rows[id].status == L.Done
        ensures id in s.events.accepted && EventAccounted(s.consumer, id)
      {
        assert L.RowOk(s.events, id) && Routed(s.consumer, id);
        var i: nat :| Carries(s.consumer, i, id);
        C.CarrierIsAccounted(s.consumer, i);
      }
      C.OneNotificationPerWindow(cfg.consumer, s.consumer, []);
      assert C.Run(cfg.consumer, s.consumer, []) == s.consumer;
    }
  }

  lemma {:induction false} StartIsGood(cfg: Config, s: State)
    requires L.Init(s.events) && C.Init(s.consumer)
    ensures Inv(cfg, s)
  {
    L.InitIsGood(s.events);
    C.InitIsGood(cfg.consumer, s.consumer);
  }
}
