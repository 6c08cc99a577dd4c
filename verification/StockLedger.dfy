/** Where the stock is, on every run of the shop. */
module StockLedger {
  import opened Base
  import opened Sums
  import opened Inventory
  import opened Pricing
  import opened Shop

  function Qty(o: Order, p: ProductId): int { QtyOf(Lines(o.items), p) }

  function IsCancel(): OrderStatus -> int { (s: OrderStatus) => if s == Cancelled then 1 else 0 }

  /** How often the order was cancelled and restocked: its CANCELLED order events. */
  function Restocks(o: Order): int { SumOf(o.log, IsCancel()) }

  function OrderedOf(p: ProductId): Order -> int { (o: Order) => Qty(o, p) }

  function ReturnedOf(p: ProductId): Order -> int { (o: Order) => Restocks(o) * Qty(o, p) }

  /** What the orders that are not cancelled hold. */
  function HeldOf(p: ProductId): Order -> int { (o: Order) => if o.status == Cancelled then 0 else Qty(o, p) }

  function Held(orders: seq<Order>, p: ProductId): int { SumOf(orders, HeldOf(p)) }

  ghost predicate Ledger(orders: seq<Order>, stock: Stock, initial: Stock) {
    && stock.Keys == initial.Keys
    && forall p | p in stock ::
         && 0 <= stock[p]
         && stock[p] == initial[p] - SumOf(orders, OrderedOf(p)) + SumOf(orders, ReturnedOf(p))
  }

  // ---- what an action does to orders and stock ----

  datatype Effect = NoEffect | Moves(o: nat, s: OrderStatus) | Cancels(o: nat)

  function EffectOf(db: Db, a: Action): Effect {
    match a
    case Verify(p, _, _) =>
      if p < |db.payments| && !Terminal(db.payments[p].status) then Moves(db.payments[p].order, Processing)
         else NoEffect
    case Reject(p, _) =>
      if p < |db.payments| && !Terminal(db.payments[p].status) then Cancels(db.payments[p].order) else NoEffect
    case Expire(p, _, _) =>
      if p < |db.payments| && Eligible(db.payments[p].status) then Cancels(db.payments[p].order) else NoEffect
    case SetStatus(o, s, _) => if s == Cancelled then Cancels(o) else Moves(o, s)
    case _ => NoEffect
  }

  function After(db: Db, e: Effect): (r: (seq<Order>, Stock))
    requires e.Moves? ==> e.o < |db.orders|
    requires e.Cancels? ==> e.o < |db.orders|
  {
    match e
    case NoEffect => (db.orders, db.stock)
    case Moves(o, s) => (MoveOrder(db, o, s).orders, db.stock)
    case Cancels(o) => (CancelAndRestock(db, o).orders, CancelAndRestock(db, o).stock)
  }

  lemma {:induction false} StepEffect(cfg: Config, db: Db, a: Action)
    requires Linked(db) && Allowed(cfg, db, a) && !a.Place?
    ensures var e := EffectOf(db, a);
            && (e.Moves? ==> e.o < |db.orders| && e.s != Cancelled)
            && (e.Cancels? ==> e.o < |db.orders|)
            && (Step(cfg, db, a).orders, Step(cfg, db, a).stock) == After(db, e)
  {
    match a
    case Verify(p, _, _) => assert db.payments[p].order == p;
    case Reject(p, _) => assert db.payments[p].order == p;
    case Expire(p, _, _) => assert db.payments[p].order == p;
    case _ =>
  }

  /** The two writes that take a cancelled order out of CANCELLED. */
  predicate Reactivates(db: Db, a: Action) {
    var e := EffectOf(db, a);
    e.Moves? && e.o < |db.orders| && db.orders[e.o].status == Cancelled
  }

  // ---- the ledger is kept ----

  lemma {:induction false} LedgerKeepsMove(db: Db, initial: Stock, o: nat, s: OrderStatus)
    requires Ledger(db.orders, db.stock, initial) && o < |db.orders| && s != Cancelled
    ensures Ledger(MoveOrder(db, o, s).orders, db.stock, initial)
  {
    var was, moved := db.orders[o], MoveOrder(db, o, s).orders[o];
    SumOfAppend(was.log, s, IsCancel());
    forall p | p in db.stock
      ensures SumOf(db.orders[o := moved], OrderedOf(p)) == SumOf(db.orders, OrderedOf(p))
      ensures SumOf(db.orders[o := moved], ReturnedOf(p)) == SumOf(db.orders, ReturnedOf(p))
    {
      SumOfUpdate(db.orders, o, moved, OrderedOf(p));
      SumOfUpdate(db.orders, o, moved, ReturnedOf(p));
    }
  }

  lemma {:induction false} LedgerKeepsCancel(db: Db, initial: Stock, o: nat)
    requires Ledger(db.orders, db.stock, initial) && o < |db.orders|
    ensures var u := CancelAndRestock(db, o); Ledger(u.orders, u.stock, initial)
  {
    var was := db.orders[o];
    if Cancellable(was.status) {
      var moved := was.(status := Cancelled, log := was.log + [Cancelled]);
      SumOfAppend(was.log, Cancelled, IsCancel());
      forall p | p in db.stock
        ensures SumOf(db.orders[o := moved], OrderedOf(p)) == SumOf(db.orders, OrderedOf(p))
        ensures SumOf(db.orders[o := moved], ReturnedOf(p)) == SumOf(db.orders, ReturnedOf(p)) + Qty(was, p)
        ensures 0 <= Qty(was, p)
      {
        SumOfUpdate(db.orders, o, moved, OrderedOf(p));
        SumOfUpdate(db.orders, o, moved, ReturnedOf(p));
        QtyOfNonNegative(Lines(was.items), p);
        Successor(Restocks(was), Qty(was, p));
      }
    }
  }

  lemma {:induction false} Successor(r: int, q: int)
    ensures (r + 1) * q == r * q + q
  {
  }

  lemma {:induction false} LedgerKeepsPlace(db: Db, initial: Stock, d: Draft, clock: Millis)
    requires Ledger(db.orders, db.stock, initial)
    ensures var u := PlaceTx(db, d, clock); Ledger(u.orders, u.stock, initial)
  {
    if Places(db, d) {
      var o := NewOrder(d);
      assert Restocks(o) == 0 by { assert [Pending][..0] == []; }
      forall p | p in db.stock
        ensures SumOf(db.orders + [o], OrderedOf(p)) == SumOf(db.orders, OrderedOf(p)) + Qty(o, p)
        ensures SumOf(db.orders + [o], ReturnedOf(p)) == SumOf(db.orders, ReturnedOf(p))
        ensures Qty(o, p) <= db.stock[p]
      {
        SumOfAppend(db.orders, o, OrderedOf(p));
        SumOfAppend(db.orders, o, ReturnedOf(p));
        assert ReturnedOf(p)(o) == 0 * Qty(o, p);
        QtyOfNonNegative(Lines(o.items), p);
      }
    }
  }

  lemma {:induction false} StepKeepsLedger(cfg: Config, db: Db, initial: Stock, a: Action)
    requires Linked(db) && Allowed(cfg, db, a) && Ledger(db.orders, db.stock, initial)
    ensures Ledger(Step(cfg, db, a).orders, Step(cfg, db, a).stock, initial)
  {
    if a.Place? {
      LedgerKeepsPlace(db, initial, a.draft, a.clock);
    } else {
      StepEffect(cfg, db, a);
      match EffectOf(db, a)
      case NoEffect =>
      case Moves(o, s) => LedgerKeepsMove(db, initial, o, s);
      case Cancels(o) => LedgerKeepsCancel(db, initial, o);
    }
  }

  /**
   * On every run stock is what was there, less what was ordered, plus one return of
   * an order's quantities for each time it was cancelled; and it is never negative.
   */
  lemma {:induction false} StockIsAccountedFor(cfg: Config, db: Db, initial: Stock, acts: seq<Action>)
    requires Linked(db) && Ledger(db.orders, db.stock, initial) && AllowedRun(cfg, db, acts)
    ensures Ledger(Run(cfg, db, acts).orders, Run(cfg, db, acts).stock, initial)
    decreases |acts|
  {
    if acts != [] {
      StepKeepsLinked(cfg, db, acts[0]);
      StepKeepsLedger(cfg, db, initial, acts[0]);
      StockIsAccountedFor(cfg, Step(cfg, db, acts[0]), initial, acts[1..]);
    }
  }

  // ---- conservation, and exactly when it holds ----

  ghost predicate NeverReactivates(cfg: Config, db: Db, acts: seq<Action>)
    requires Linked(db) && AllowedRun(cfg, db, acts)
    decreases |acts|
  {
    acts == [] || (
      && !Reactivates(db, acts[0])
      && (StepKeepsLinked(cfg, db, acts[0]); NeverReactivates(cfg, Step(cfg, db, acts[0]), acts[1..])))
  }

  /** Stock on the shelf plus stock held by orders that are not cancelled. */
  ghost function Present(db: Db, p: ProductId): int
    requires p in db.stock
  {
    db.stock[p] + Held(db.orders, p)
  }

  lemma {:induction false} StepDrift(cfg: Config, db: Db, a: Action, p: ProductId)
    requires Linked(db) && Allowed(cfg, db, a) && p in db.stock
    ensures p in Step(cfg, db, a).stock
    ensures Present(Step(cfg, db, a), p) ==
            Present(db, p) + if Reactivates(db, a) then Qty(db.orders[EffectOf(db, a).o], p) else 0
  {
    if a.Place? {
      if Places(db, a.draft) {
        SumOfAppend(db.orders, NewOrder(a.draft), HeldOf(p));
      }
    } else {
      StepEffect(cfg, db, a);
      match EffectOf(db, a)
      case NoEffect =>
      case Moves(o, s) => SumOfUpdate(db.orders, o, MoveOrder(db, o, s).orders[o], HeldOf(p));
      case Cancels(o) => SumOfUpdate(db.orders, o, CancelAndRestock(db, o).orders[o], HeldOf(p));
    }
  }

  /** A reactivated order holds something. */
  lemma {:induction false} OrdersHoldSomething(db: Db, o: nat) returns (p: ProductId)
    requires Linked(db) && o < |db.orders|
    ensures p in db.stock && 0 < Qty(db.orders[o], p)
  {
    assert OrderOk(db.stock.Keys, db.orders[o]);
    var items := db.orders[o].items;
    p := items[0].product;
    assert QuantityFor(p)(Lines(items)[0]) == items[0].quantity;
    SumOfPositive(Lines(items), QuantityFor(p), 0);
  }

  lemma {:induction false} RunDrift(cfg: Config, db: Db, acts: seq<Action>)
    requires Linked(db) && AllowedRun(cfg, db, acts)
    ensures Run(cfg, db, acts).stock.Keys == db.stock.Keys
    ensures forall p | p in db.stock :: Present(db, p) <= Present(Run(cfg, db, acts), p)
    ensures NeverReactivates(cfg, db, acts) <==>
              forall p | p in db.stock :: Present(Run(cfg, db, acts), p) == Present(db, p)
    decreases |acts|
  {
    if acts != [] {
      var a := acts[0];
      StepKeepsLinked(cfg, db, a);
      var u := Step(cfg, db, a);
      assert u.stock.Keys == db.stock.Keys by {
        if !a.Place? {
          StepIsSameBusiness(cfg, db, a);
        }
      }
      RunDrift(cfg, u, acts[1..]);
      forall p | p in db.stock
        ensures Present(u, p) == Present(db, p) + if Reactivates(db, a) then Qty(db.orders[EffectOf(db, a).o], p) else 0
        ensures Present(db, p) <= Present(u, p)
      {
        StepDrift(cfg, db, a, p);
        if Reactivates(db, a) {
          QtyOfNonNegative(Lines(db.orders[EffectOf(db, a).o].items), p);
        }
      }
      if Reactivates(db, a) {
        var p := OrdersHoldSomething(db, EffectOf(db, a).o);
        assert Present(db, p) < Present(u, p) <= Present(Run(cfg, db, acts), p);
      }
    }
  }

  /**
   * Every product's shelf stock and live orders add up to the initial stock exactly
   * on the runs in which no step takes an order out of CANCELLED.
   */
  lemma {:induction false} ConservedIffNeverReactivated(cfg: Config, start: Db, acts: seq<Action>)
    requires Init(start) && Linked(start) && AllowedRun(cfg, start, acts)
    ensures var end := Run(cfg, start, acts);
            && end.stock.Keys == start.stock.Keys
            && (NeverReactivates(cfg, start, acts) <==>
                forall p | p in start.stock :: end.stock[p] + Held(end.orders, p) == start.stock[p])
  {
    RunDrift(cfg, start, acts);
    var end := Run(cfg, start, acts);
    if NeverReactivates(cfg, start, acts) {
      forall p | p in start.stock ensures end.stock[p] + Held(end.orders, p) == start.stock[p] {
        assert Present(end, p) == Present(start, p);
      }
    } else {
      var p :| p in start.stock && Present(end, p) != Present(start, p);
      assert end.stock[p] + Held(end.orders, p) != start.stock[p];
    }
  }

  ghost predicate RestockedOnce(o: Order) { Restocks(o) == if o.status == Cancelled then 1 else 0 }

  lemma {:induction false} EffectRestocksOnce(db: Db, e: Effect, i: nat)
    requires e.Moves? ==> e.o < |db.orders| && e.s != Cancelled && db.orders[e.o].status != Cancelled
    requires e.Cancels? ==> e.o < |db.orders|
    requires i < |db.orders| && RestockedOnce(db.orders[i])
    ensures i < |After(db, e).0| && RestockedOnce(After(db, e).0[i])
  {
    match e
    case NoEffect =>
    case Moves(o, s) => SumOfAppend(db.orders[o].log, s, IsCancel());
    case Cancels(o) => SumOfAppend(db.orders[o].log, Cancelled, IsCancel());
  }

  lemma {:induction false} StepRestocksOnce(cfg: Config, db: Db, a: Action)
    requires Linked(db) && Allowed(cfg, db, a) && !Reactivates(db, a)
    requires forall i | 0 <= i < |db.orders| :: RestockedOnce(db.orders[i])
    ensures forall i | 0 <= i < |Step(cfg, db, a).orders| :: RestockedOnce(Step(cfg, db, a).orders[i])
  {
    var u := Step(cfg, db, a);
    if a.Place? {
      assert Restocks(NewOrder(a.draft)) == 0 by { assert [Pending][..0] == []; }
    } else {
      StepEffect(cfg, db, a);
      StepIsSameBusiness(cfg, db, a);
      forall i | 0 <= i < |u.orders| ensures RestockedOnce(u.orders[i]) {
        EffectRestocksOnce(db, EffectOf(db, a), i);
      }
    }
  }

  /** On those runs an order has been restocked once if it is cancelled, and otherwise never. */
  lemma {:induction false} RestockedOnceIffCancelled(cfg: Config, db: Db, acts: seq<Action>)
    requires Linked(db) && AllowedRun(cfg, db, acts) && NeverReactivates(cfg, db, acts)
    requires forall i | 0 <= i < |db.orders| :: RestockedOnce(db.orders[i])
    ensures forall i | 0 <= i < |Run(cfg, db, acts).orders| :: RestockedOnce(Run(cfg, db, acts).orders[i])
    decreases |acts|
  {
    if acts != [] {
      StepKeepsLinked(cfg, db, acts[0]);
      StepRestocksOnce(cfg, db, acts[0]);
      RestockedOnceIffCancelled(cfg, Step(cfg, db, acts[0]), acts[1..]);
    }
  }

  /**
   * Such a step exists: an order of two, cancelled, put back to PROCESSING by the
   * status update and cancelled again, leaves two more in stock than there ever were.
   */
  lemma {:induction false} CancelledTwice(cfg: Config) returns (start: Db, acts: seq<Action>)
    ensures Init(start) && Linked(start) && AllowedRun(cfg, start, acts)
    ensures 0 in start.stock && start.stock[0] == 5
    ensures var end := Run(cfg, start, acts);
            0 in end.stock && end.stock[0] == 7 && |end.orders| == 1 && end.orders[0].status == Cancelled
  {
    start := Db(0, map[0 := 5], [], [], [], map[], [], [], [], {}, {});
    var cart := [Item(0, 2, [])];
    var cat := Catalogue(map[0 := 100], map[]);
    var d := Draft(1, cart, cat, cat, 0, None, Cod);
    var a0, a1, a2, a3 := Place(d, 0), SetStatus(0, Cancelled, 0), SetStatus(0, Processing, 0),
      SetStatus(0, Cancelled, 0);
    OneLineOfTwo(cat);
    assert Places(start, d);
    StepKeepsLinked(cfg, start, a0);
    CancelReviveCancel(cfg, Step(cfg, start, a0));
    RunOne(cfg, start, a0, [a1, a2, a3]);
    acts := [a0] + [a1, a2, a3];
  }

  lemma {:induction false} OneLineOfTwo(cat: Catalogue)
    requires 0 in cat.products
    ensures var items := StoredItems([Item(0, 2, [])], cat); Lines(items) == [Line(0, 2)] && QtyOf(Lines(items), 0) == 2
  {
    var items := StoredItems([Item(0, 2, [])], cat);
    assert items == [Stored(Item(0, 2, []), cat)];
    assert [Line(0, 2)][..0] == [];
  }

  lemma {:induction false} CancelReviveCancel(cfg: Config, db: Db)
    requires Linked(db) && 0 in db.stock && db.now == 0 && |db.orders| == 1 && db.orders[0].status == Pending
    ensures var acts := [SetStatus(0, Cancelled, 0), SetStatus(0, Processing, 0), SetStatus(0, Cancelled, 0)];
            && AllowedRun(cfg, db, acts)
            && var end := Run(cfg, db, acts);
               && 0 in end.stock && end.stock[0] == db.stock[0] + 2 * Qty(db.orders[0], 0)
               && |end.orders| == 1 && end.orders[0].status == Cancelled
  {
    var a1, a2 := SetStatus(0, Cancelled, 0), SetStatus(0, Processing, 0);
    var u2 := Step(cfg, db, a1);
    StepKeepsLinked(cfg, db, a1);
    var u3 := Step(cfg, u2, a2);
    StepKeepsLinked(cfg, u2, a2);
    StepKeepsLinked(cfg, u3, a1);
    RunOne(cfg, u3, a1, []);
    RunOne(cfg, u2, a2, [a1]);
    RunOne(cfg, db, a1, [a2, a1]);
    assert [a1] + [a2, a1] == [a1, a2, a1] && [a2] + [a1] == [a2, a1] && [a1] + [] == [a1];
  }

  lemma {:induction false} RunOne(cfg: Config, db: Db, a: Action, rest: seq<Action>)
    requires Linked(db) && Allowed(cfg, db, a) && Linked(Step(cfg, db, a)) && AllowedRun(cfg, Step(cfg, db, a), rest)
    ensures AllowedRun(cfg, db, [a] + rest) && Run(cfg, db, [a] + rest) == Run(cfg, Step(cfg, db, a), rest)
  {
    assert ([a] + rest)[1..] == rest;
  }
}
