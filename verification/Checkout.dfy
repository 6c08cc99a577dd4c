/** Checkout as the client sees it: reserve, place the order and finalize in one transaction, or replay. */
module Checkout {
  import opened Base
  import opened Inventory
  import opened Pricing
  import opened IdempotencyService
  import I = Idempotency
  import S = Shop
  import World

  datatype TxResult =
    | Committed(order: nat, response: I.Response)
    | Superseded
    | NumberTaken           // unique violation on the order number alone
    | Error(message: string)

  function FailureText(result: TxResult): string {
    match result
    case Error(message) => message
    case _ => "Unique constraint failed on Order"
  }

  datatype Reservation = Reservation(id: I.Id, token: nat)

  datatype Outcome =
    | Fresh(order: nat, response: I.Response)
    | Replayed(response: I.Response, body: string)
    | InProgress
    | KeyMismatch
    | Failed(message: string)

  /** A commit of this user and key answers with `response`. */
  ghost predicate Answers(w: World.State, user: Id, key: Id, response: I.Response) {
    exists c :: c in w.idem.commits && c.response == response && c.row in w.idem.births
                && w.idem.births[c.row].user == user && w.idem.births[c.row].key == key
  }

  /** The same, for the very request that was made. */
  ghost predicate AnswersRequest(w: World.State, ctx: Context, response: I.Response) {
    exists c :: c in w.idem.commits && c.response == response && c.row in w.idem.births
                && w.idem.births[c.row] == I.Birth(ctx.user, ctx.key, ctx.fingerprint, w.idem.births[c.row].at)
  }

  /** The one action a checkout transaction amounts to, when it commits. */
  function PlaceAction(d: S.Draft, r: Option<Reservation>, clock: int): World.Action {
    if r.Some? then World.Keyed(r.value.id, r.value.token, d, clock) else World.OnShop(S.Place(d, clock))
  }

  /** The order's rows, before its token and event. */
  function Written(db: S.Db, d: S.Draft): S.Db
    requires S.Places(db, d)
  {
    S.PlaceTx(db, d, 0).(tokens := db.tokens, outbox := db.outbox)
  }

  function ProductsOf(lines: seq<Line>): (products: seq<ProductId>)
    ensures Covers(products, lines) && forall p | p in products :: exists l :: l in lines && l.product == p
  {
    if lines == [] then [] else
    var rest := ProductsOf(lines[..|lines| - 1]);
    var last := lines[|lines| - 1];
    assert forall l | l in lines :: l in lines[..|lines| - 1] || l == last;
    if last.product in rest then
      assert forall p | p in rest :: exists l :: l in lines && l.product == p by {
        forall p | p in rest ensures exists l :: l in lines && l.product == p {
          var l :| l in lines[..|lines| - 1] && l.product == p;
          assert l in lines;
        }
      }
      rest
    else
      assert forall p | p in rest + [last.product] :: exists l :: l in lines && l.product == p by {
        forall p | p in rest + [last.product] ensures exists l :: l in lines && l.product == p {
          if p in rest {
            var l :| l in lines[..|lines| - 1] && l.product == p;
            assert l in lines;
          } else {
            assert last in lines;
          }
        }
      }
      rest + [last.product]
  }

  /** The body of a replay: the stored snapshot, or in rehydrate mode the order as it is now. */
  function ReplayBody(cfg: World.Config, rehydrate: bool, w: World.State, response: I.Response): string {
    if !rehydrate || response.resourceType != Some("Order") || response.resourceId.None? then response.body
    else if response.resourceId.value < |w.shop.orders| then cfg.render(w.shop.orders[response.resourceId.value])
    else response.body
  }

  class OrdersService {
    const idem: Service
    const rehydrate: bool
    ghost var placed: seq<nat>   // the orders this service's own transactions have placed
    ghost var attempts: nat      // the order transactions it has started
    ghost var results: seq<TxResult>   // how its series of attempts have ended

    constructor (idem: Service, rehydrate: bool)
      ensures this.idem == idem && this.rehydrate == rehydrate && placed == [] && attempts == 0 && results == []
    {
      this.idem, this.rehydrate, placed, attempts, results := idem, rehydrate, [], 0, [];
    }

    /** The reads before the transaction: cart, catalogue and voucher. */
    method CheckDraft(d: S.Draft) returns (failure: Option<TxResult>)
      ensures failure.Some? ==> failure.value.Error?
      ensures failure.None? <==>
                && d.cart != [] && (forall item | item in d.cart :: 1 <= item.quantity)
                && Available(d.cart, d.first) && Available(d.cart, d.second)
                && (d.voucher.Some? ==> Usable(d.voucher.value, Subtotal(d.cart, d.second)))
    {
      if d.cart == [] || exists i | 0 <= i < |d.cart| :: d.cart[i].quantity < 1 {
        return Some(Error("Cart is empty"));
      }
      assert forall item | item in d.cart :: 1 <= item.quantity;
      if !Available(d.cart, d.first) || !Available(d.cart, d.second) {
        return Some(Error("Some products are unavailable"));
      }
      if d.voucher.Some? && !Usable(d.voucher.value, Subtotal(d.cart, d.second)) {
        return Some(Error("Voucher is invalid"));
      }
      return None;
    }

    /** The guarded counter and the (voucher, user) row; either may roll the transaction back. */
    method UseVoucher(tx: S.Db, v: Voucher, user: Id, order: nat) returns (u: S.Db, failure: Option<TxResult>)
      ensures failure.Some? ==> failure.value.Error?
      ensures failure.None? <==>
                && v.id in tx.promos && (v.maxUsage.None? || tx.promos[v.id].current < v.maxUsage.value)
                && forall x | x in tx.usages :: x.voucher != v.id || x.user != user
      ensures failure.None? ==>
                u == tx.(promos := tx.promos[v.id := tx.promos[v.id].(current := tx.promos[v.id].current + 1)],
                         usages := tx.usages + [S.Usage(v.id, user, order)])
    {
      u, failure := tx, None;
      if v.id !in u.promos || (v.maxUsage.Some? && u.promos[v.id].current >= v.maxUsage.value) {
        return tx, Some(Error("Record to update not found"));
      }
      if exists i | 0 <= i < |u.usages| :: u.usages[i].voucher == v.id && u.usages[i].user == user {
        return tx, Some(Error("Unique constraint failed on VoucherUsage"));
      }
      u := u.(promos := u.promos[v.id := u.promos[v.id].(current := u.promos[v.id].current + 1)],
              usages := u.usages + [S.Usage(v.id, user, order)]);
    }

    /** Stock, order, payment and voucher rows on the transaction's copy, or the error that rolls it back. */
    method WriteOrder(tx: S.Db, d: S.Draft) returns (u: S.Db, failure: Option<TxResult>)
      ensures failure.Some? ==> failure.value.NumberTaken? || failure.value.Error?
      ensures failure.None? ==> S.Places(tx, d) && u == Written(tx, d)
      ensures idem.quiet ==> (failure.None? <==> S.Places(tx, d)) && failure != Some(NumberTaken)
    {
      u := tx;
      failure := CheckDraft(d);
      if failure.Some? {
        return;
      }
      // $transaction
      var order := S.NewOrder(d);
      var n := |tx.orders|;
      var lines := S.Lines(order.items);
      var stock := Decrement(tx.stock, lines, ProductsOf(lines));
      if stock.None? {
        return tx, Some(Error("Insufficient stock"));
      }
      var numberTaken := idem.Faults();
      if numberTaken {
        return tx, Some(NumberTaken);
      }
      if !S.ToppingsDistinct(d.cart) {
        return tx, Some(Error("Unique constraint failed on OrderItemTopping"));
      }
      u := u.(stock := stock.value, orders := u.orders + [order],
              payments := u.payments + [S.Payment(n, d.payMethod, order.totalPrice, S.Unpaid, u.now, None, None, None,
                None)]);
      if d.voucher.Some? {
        u, failure := UseVoucher(u, d.voucher.value, d.user, n);
        if failure.Some? {
          return tx, failure;
        }
      }
    }

    /** Everything the transaction writes, on its own copies: order rows, finalize, token, event. */
    method FillTransaction(w: World.State, d: S.Draft, r: Option<Reservation>)
      returns (failure: Option<TxResult>, tx: S.Db, reservations: I.Table)
      ensures failure.Some? ==> !failure.value.Committed?
      ensures failure == Some(Superseded) ==> r.Some? && !Owned(w, r.value)
      ensures failure.None? ==>
                && Succeeds(w, d, r) && tx == S.PlaceTx(w.shop, d, w.shop.now)
                && reservations == FinalizedTable(idem.cfg, w, d, r)
      ensures idem.quiet ==> (failure.None? <==> Succeeds(w, d, r)) && failure != Some(NumberTaken)
    {
      reservations := w.idem;
      var clock := w.shop.now;
      tx, failure := WriteOrder(w.shop, d);
      if failure.Some? {
        return;
      }
      if r.Some? {
        var owned;
        var response := World.Created(idem.cfg, S.NewOrder(d), |w.shop.orders|);
        reservations, owned := Service.FinalizeInTx(reservations, r.value.id, r.value.token, |w.shop.orders|, response);
        if !owned {
          return Some(Superseded), tx, reservations;
        }
      }
      if d.payMethod == S.BankTransfer || d.payMethod == S.Qris {
        tx := tx.(tokens := tx.tokens + [S.Token(|w.shop.payments|, clock + S.UPLOAD_TOKEN_TTL_MS, None, false)]);
      }
      tx := tx.(outbox := tx.outbox + [S.Event(S.OrderCreated, |w.shop.orders|, clock)]);
    }

    /**
     * One order transaction: the order's rows, finalize, token and event. Whatever goes
     * wrong before the end leaves the database as it was; after the end, the caller may
     * still fail to hear of the commit.
     */
    method PersistOrderOnce(d: S.Draft, r: Option<Reservation>) returns (result: TxResult)
      requires World.Inv(idem.cfg, idem.world) && Ready(idem.world, d, r)
      modifies idem`world, this`placed, this`attempts
      ensures idem.Advanced() && attempts == old(attempts) + 1
      ensures idem.world == old(idem.world)
              || idem.world == World.Step(idem.cfg, old(idem.world), PlaceAction(d, r, old(idem.world).shop.now))
      ensures |idem.world.shop.orders| - |old(idem.world).shop.orders| == |placed| - |old(placed)|
      ensures Announced(old(idem.world).shop, idem.world.shop, |placed| - |old(placed)|)
      ensures PlacedAtMostOne(old(placed), placed, idem.world, d)
      ensures placed != old(placed) ==> placed == old(placed) + [|old(idem.world).shop.orders|]
      ensures result.Committed? ==>
                && S.Places(old(idem.world).shop, d) && placed == old(placed) + [result.order]
                && result.order == |old(idem.world).shop.orders| && |idem.world.shop.orders| == result.order + 1
                && idem.world.shop.orders[result.order] == S.NewOrder(d)
                && result.response == World.Created(idem.cfg, S.NewOrder(d), result.order)
                && (r.Some? ==> I.Commit(r.value.id, result.order, result.response) in idem.world.idem.commits)
      ensures !result.Committed? && !result.Error? ==> idem.world == old(idem.world)
      ensures result.Superseded? ==> r.Some? && !Owned(old(idem.world), r.value)
      ensures idem.quiet ==>
                && (result.Committed? <==> Succeeds(old(idem.world), d, r))
                && !result.NumberTaken? && (!result.Committed? ==> idem.world == old(idem.world))
    {
      World.ReachesSelf(idem.cfg, idem.world);
      attempts := attempts + 1;
      var w := idem.world;
      var failure, tx, reservations := FillTransaction(w, d, r);
      if failure.Some? {
        return failure.value;
      }
      var commitFailed := idem.Faults();
      if commitFailed {
        return Error("Transaction failed");
      }
      var n := CommitOrder(d, r, tx, reservations);
      var unheard := idem.Faults();
      return if unheard then Error("Connection lost") else Committed(n, World.Created(idem.cfg, S.NewOrder(d), n));
    }

    /** COMMIT: both copies become the database at once. */
    method CommitOrder(d: S.Draft, r: Option<Reservation>, tx: S.Db, reservations: I.Table) returns (n: nat)
      requires World.Inv(idem.cfg, idem.world) && Ready(idem.world, d, r) && Succeeds(idem.world, d, r)
      requires tx == S.PlaceTx(idem.world.shop, d, idem.world.shop.now)
      requires reservations == FinalizedTable(idem.cfg, idem.world, d, r)
      modifies idem`world, this`placed
      ensures idem.Advanced()
      ensures idem.world == World.Step(idem.cfg, old(idem.world), PlaceAction(d, r, old(idem.world).shop.now))
      ensures n == |old(idem.world).shop.orders| && placed == old(placed) + [n]
      ensures idem.world.shop.orders == old(idem.world).shop.orders + [S.NewOrder(d)]
      ensures Announced(old(idem.world).shop, idem.world.shop, 1)
      ensures r.Some? ==>
                I.Commit(r.value.id, n, World.Created(idem.cfg, S.NewOrder(d), n)) in idem.world.idem.commits
    {
      World.ReachesSelf(idem.cfg, idem.world);
      n := |idem.world.shop.orders|;
      OrderStep(idem.cfg, idem.world, d, r, tx, reservations);
      World.TakeStep(idem.cfg, idem.world, idem.world, PlaceAction(d, r, idem.world.shop.now));
      idem.world := World.State(reservations, tx);
      placed := placed + [n];
    }

    /** One more order transaction, some time later. */
    method NextAttempt(d: S.Draft, r: Option<Reservation>, ghost start: World.State) returns (result: TxResult)
      requires World.Inv(idem.cfg, start) && World.Inv(idem.cfg, idem.world)
      requires World.Reaches(idem.cfg, start, idem.world) && Ready(idem.world, d, r)
      modifies idem`world, this`placed, this`attempts
      ensures World.Inv(idem.cfg, idem.world) && World.Reaches(idem.cfg, start, idem.world)
      ensures !result.Committed? && !result.Error? ==> Ready(idem.world, d, r) && placed == old(placed)
      ensures attempts == old(attempts) + 1 && PlacedAtMostOne(old(placed), placed, idem.world, d)
      ensures result.Committed? ==>
                && placed == old(placed) + [result.order]
                && result.order < |idem.world.shop.orders| && idem.world.shop.orders[result.order] == S.NewOrder(d)
                && result.response == World.Created(idem.cfg, S.NewOrder(d), result.order)
                && (r.Some? ==> I.Commit(r.value.id, result.order, result.response) in idem.world.idem.commits)
      ensures result.Superseded? ==> r.Some?
      ensures idem.quiet ==>
                && (result.Committed? <==> Succeeds(old(idem.world), d, r)) && !result.NumberTaken?
                && (result.Superseded? ==> r.Some? && !Owned(old(idem.world), r.value))
                && (result.Committed? ==>
                      && result.order == |old(idem.world).shop.orders|
                      && idem.world == World.Step(idem.cfg, old(idem.world),
                           PlaceAction(d, r, old(idem.world).shop.now)))
                && (!result.Committed? ==> idem.world == old(idem.world) && placed == old(placed))
    {
      ghost var t1 := idem.world;
      idem.Yield();
      ghost var t2 := idem.world;
      World.ReachesTrans(idem.cfg, start, t1, t2);
      StaysReady(idem.cfg, t1, t2, d, r);
      result := PersistOrderOnce(d, r);
      World.ReachesTrans(idem.cfg, start, t2, idem.world);
    }

    /** Another order number after a collision, three attempts in all; at most one of them places an order. */
    method PersistOrderWithRetry(d: S.Draft, r: Option<Reservation>) returns (result: TxResult)
      requires World.Inv(idem.cfg, idem.world) && Ready(idem.world, d, r)
      modifies idem`world, this`placed, this`attempts, this`results
      ensures idem.Advanced() && results == old(results) + [result]
      ensures old(attempts) < attempts <= old(attempts) + 3
      ensures result.NumberTaken? ==> attempts == old(attempts) + 3
      ensures PlacedAtMostOne(old(placed), placed, idem.world, d)
      ensures result.Committed? ==>
                && placed == old(placed) + [result.order]
                && result.order < |idem.world.shop.orders| && idem.world.shop.orders[result.order] == S.NewOrder(d)
                && result.response == World.Created(idem.cfg, S.NewOrder(d), result.order)
                && (r.Some? ==> I.Commit(r.value.id, result.order, result.response) in idem.world.idem.commits)
      ensures !result.Committed? && !result.Error? ==> placed == old(placed)
      ensures result.Superseded? ==> r.Some?
      ensures idem.quiet ==>
                && (result.Committed? <==> Succeeds(old(idem.world), d, r)) && !result.NumberTaken?
                && (result.Superseded? ==> r.Some? && !Owned(old(idem.world), r.value))
                && (result.Committed? ==>
                      && result.order == |old(idem.world).shop.orders|
                      && idem.world == World.Step(idem.cfg, old(idem.world),
                           PlaceAction(d, r, old(idem.world).shop.now)))
                && (!result.Committed? ==> idem.world == old(idem.world) && placed == old(placed))
    {
      World.ReachesSelf(idem.cfg, idem.world);
      var attempt := 1;
      result := NumberTaken;
      while attempt <= 3
        invariant World.Inv(idem.cfg, idem.world) && World.Reaches(idem.cfg, old(idem.world), idem.world)
                  && Ready(idem.world, d, r)
        invariant 1 <= attempt <= 4 && placed == old(placed) && result == NumberTaken
        invariant attempts == old(attempts) + attempt - 1 && results == old(results)
        invariant idem.quiet ==> idem.world == old(idem.world) && attempt == 1
      {
        result := NextAttempt(d, r, old(idem.world));
        if result != NumberTaken {
          results := results + [result];
          return;
        }
        attempt := attempt + 1;
      }
      results := results + [result];
    }

    /** A failed attempt frees its key with the reason. */
    method FreeKey(d: S.Draft, id: I.Id, token: nat, message: string, ghost start: World.State, ghost before: seq<nat>)
      returns (out: Outcome)
      requires World.Inv(idem.cfg, idem.world) && World.Reaches(idem.cfg, start, idem.world)
      requires PlacedAtMostOne(before, placed, idem.world, d)
      requires idem.quiet ==> idem.world == start && !Succeeds(start, d, Some(Reservation(id, token)))
      modifies idem`world
      ensures World.Inv(idem.cfg, idem.world) && World.Reaches(idem.cfg, start, idem.world)
      ensures out == Outcome.Failed(message) && PlacedAtMostOne(before, placed, idem.world, d)
      ensures idem.quiet ==>
                OwnerAttempts(idem.cfg, start, id, token, d, out, idem.world, placed, placed)
    {
      idem.MarkFailed(id, token, message);
      World.ReachesTrans(idem.cfg, start, old(idem.world), idem.world);
      out := Outcome.Failed(message);
      if idem.quiet {
        FailedIsAttempted(idem.cfg, start, idem.world, d, id, token, message, placed);
      }
    }

    /** After losing the reservation: the winner's answer, or still in progress. */
    method ReplayWinner(ctx: Context, id: I.Id, token: nat, ghost start: World.State) returns (out: Outcome)
      requires World.Inv(idem.cfg, idem.world) && World.Reaches(idem.cfg, start, idem.world)
               && BornFor(idem.world, ctx, id)
      modifies idem`world
      ensures World.Inv(idem.cfg, idem.world) && World.Reaches(idem.cfg, start, idem.world)
      ensures out.Replayed? || out == InProgress
      ensures out.Replayed? ==> ReplayOk(idem.cfg, rehydrate, idem.world, ctx, Proceed(id, token), out)
      ensures out.InProgress? ==> NothingToReplay(idem.world, ctx)
    {
      idem.Yield();
      World.ReachesTrans(idem.cfg, start, old(idem.world), idem.world);
      World.ReachesIsLater(idem.cfg, old(idem.world), idem.world);
      var resolved := idem.ResolveAfterSupersession(ctx.user, ctx.key);
      if resolved.Replay? {
        ResolvedReplay(idem.cfg, idem.world, ctx, id, resolved.response);
        return Replayed(resolved.response, ReplayBody(idem.cfg, rehydrate, idem.world, resolved.response));
      }
      return InProgress;
    }

    /** Checkout from a reservation it holds, or held: commit, replay the winner, or free the key. */
    method CheckoutReserved(ctx: Context, d: S.Draft, id: I.Id, token: nat) returns (out: Outcome)
      requires World.Inv(idem.cfg, idem.world) && Ready(idem.world, d, None) && d.user == ctx.user
      requires BornFor(idem.world, ctx, id)
      modifies idem`world, this`placed, this`attempts, this`results
      ensures idem.Advanced()
      ensures PlacedAsAnswered(old(placed), placed, idem.world, d, out)
      ensures out.Fresh? ==> FreshOk(idem.cfg, idem.world, ctx, d, out)
      ensures out.Replayed? ==> ReplayOk(idem.cfg, rehydrate, idem.world, ctx, Proceed(id, token), out)
      ensures AnsweredAsTried(old(results), results, out)
      ensures out.InProgress? ==> NothingToReplay(idem.world, ctx)
      ensures idem.quiet ==>
                OwnerAttempts(idem.cfg, old(idem.world), id, token, d, out, idem.world, old(placed), placed)
    {
      ghost var t1 := idem.world;
      var result := PersistOrderWithRetry(d, Some(Reservation(id, token)));
      ghost var t2 := idem.world;
      BornForStays(idem.cfg, t1, t2, ctx, id);
      match result
      case Committed(order, response) =>
        CommittedIsFresh(idem.cfg, t2, ctx, d, id, order, response);
        out := Fresh(order, response);
        if idem.quiet {
          CommittedIsAttempted(idem.cfg, t1, t2, d, id, token, response, old(placed), placed);
        }
      case Superseded =>
        out := ReplayWinner(ctx, id, token, t1);
      case _ =>
        out := FreeKey(d, id, token, FailureText(result), t1, old(placed));
    }

    /** The reserved checkout, seen from the world in which Begin was called. */
    method CheckoutProceeded(ctx: Context, d: S.Draft, id: I.Id, token: nat, ghost w: World.State)
      returns (out: Outcome)
      requires World.Inv(idem.cfg, w) && World.Reaches(idem.cfg, w, idem.world)
      requires Ready(w, d, None) && d.user == ctx.user && BornFor(idem.world, ctx, id)
      requires idem.quiet ==> BegunQuietly(idem.cfg, w, idem.world, ctx, Proceed(id, token))
      modifies idem`world, this`placed, this`attempts, this`results
      ensures World.Inv(idem.cfg, idem.world) && World.Reaches(idem.cfg, w, idem.world)
      ensures PlacedAsAnswered(old(placed), placed, idem.world, d, out)
      ensures out.Fresh? ==> FreshOk(idem.cfg, idem.world, ctx, d, out)
      ensures out.Replayed? ==> ReplayOk(idem.cfg, rehydrate, idem.world, ctx, Proceed(id, token), out)
      ensures AnsweredAsTried(old(results), results, out)
      ensures out.InProgress? ==> NothingToReplay(idem.world, ctx)
      ensures idem.quiet ==>
                Undisturbed(idem.cfg, w, ctx, d, out, idem.world) && (!out.Fresh? ==> placed == old(placed))
    {
      ghost var v := idem.world;
      StaysReady(idem.cfg, w, v, d, None);
      out := CheckoutReserved(ctx, d, id, token);
      World.ReachesTrans(idem.cfg, w, v, idem.world);
      if idem.quiet {
        Proceeded(idem.cfg, w, v, ctx, d, id, token, out, idem.world, old(placed), placed);
      }
    }

    /**
     * Checkout with an idempotency key. Whatever else runs, and whatever fails, this
     * call places at most one order; a fresh result is the order of this very request,
     * a replay is the stored answer of the same key - for the same request, unless the
     * reservation this call proceeded with had meanwhile expired and been swept.
     */
    method CheckoutWithKey(ctx: Context, d: S.Draft) returns (out: Outcome)
      requires World.Inv(idem.cfg, idem.world) && Ready(idem.world, d, None) && d.user == ctx.user
      modifies idem, this`placed, this`attempts, this`results
      ensures idem.Advanced()
      ensures |idem.answers| == |old(idem.answers)| + 1
      ensures PlacedAsAnswered(old(placed), placed, idem.world, d, out)
      ensures if idem.answers[|idem.answers| - 1].Proceed? then AnsweredAsTried(old(results), results, out)
              else results == old(results) && !out.Fresh? && !out.Failed?
      ensures out.Fresh? ==> FreshOk(idem.cfg, idem.world, ctx, d, out)
      ensures out.Replayed? ==> ReplayOk(idem.cfg, rehydrate, idem.world, ctx, idem.answers[|idem.answers| - 1], out)
      ensures idem.quiet ==>
                Undisturbed(idem.cfg, old(idem.world), ctx, d, out, idem.world)
                  && (!out.Fresh? ==> placed == old(placed))
    {
      ghost var t0 := idem.world;
      var begin := idem.Begin(ctx);
      match begin
      case Proceed(id, token) => out := CheckoutProceeded(ctx, d, id, token, t0);
      case _ => out := AnswerAtOnce(ctx, d, begin, t0);
    }

    /** Begin's other answers need no transaction. */
    method AnswerAtOnce(ctx: Context, d: S.Draft, begin: BeginResult, ghost w: World.State) returns (out: Outcome)
      requires World.Inv(idem.cfg, idem.world) && !begin.Proceed? && Justified(idem.world.idem, ctx, begin)
      requires idem.quiet ==> BegunQuietly(idem.cfg, w, idem.world, ctx, begin)
      ensures !out.Fresh? && !out.Failed?
      ensures out.Replayed? ==> ReplayOk(idem.cfg, rehydrate, idem.world, ctx, begin, out)
      ensures idem.quiet ==> Undisturbed(idem.cfg, w, ctx, d, out, idem.world)
    {
      out := match begin
        case Replay(response) => Replayed(response, ReplayBody(idem.cfg, rehydrate, idem.world, response))
        case Busy => InProgress
        case _ => KeyMismatch;
      if idem.quiet {
        AnsweredAtOnce(idem.cfg, w, idem.world, ctx, d, begin, out);
      }
    }

    /** Without a key, or with the feature off, checkout is the plain order transaction. */
    method Checkout(ctx: Context, hasKey: bool, enabled: bool, d: S.Draft) returns (out: Outcome)
      requires World.Inv(idem.cfg, idem.world) && Ready(idem.world, d, None) && d.user == ctx.user
      modifies idem, this`placed, this`attempts, this`results
      ensures idem.Advanced() && PlacedAsAnswered(old(placed), placed, idem.world, d, out)
      ensures hasKey && enabled && out.Fresh? ==> FreshOk(idem.cfg, idem.world, ctx, d, out)
      ensures hasKey && enabled && out.Replayed? ==>
                idem.answers != [] && ReplayOk(idem.cfg, rehydrate, idem.world, ctx, idem.answers[|idem.answers| - 1],
                  out)
      ensures hasKey && enabled && idem.quiet ==> Undisturbed(idem.cfg, old(idem.world), ctx, d, out, idem.world)
      ensures !hasKey || !enabled ==> (out.Fresh? || out.Failed?) && AnsweredAsTried(old(results), results, out)
      ensures (!hasKey || !enabled) && idem.quiet ==>
                if S.Places(old(idem.world).shop, d)
                then out.Fresh? && out.order == |old(idem.world).shop.orders|
                     && idem.world == World.Step(idem.cfg, old(idem.world),
                          PlaceAction(d, None, old(idem.world).shop.now))
                else out.Failed? && idem.world == old(idem.world)
    {
      if hasKey && enabled {
        out := CheckoutWithKey(ctx, d);
        return;
      }
      var result := PersistOrderWithRetry(d, None);
      match result
      case Committed(order, response) => out := Fresh(order, response);
      case _ => out := Outcome.Failed(FailureText(result));
    }
  }

  /** The reservation table once the attempt's finalize has gone through. */
  function FinalizedTable(cfg: World.Config, w: World.State, d: S.Draft, r: Option<Reservation>): I.Table
    requires r.Some? ==> Owned(w, r.value)
  {
    if r.None? then w.idem else
    var n := |w.shop.orders|;
    var data := World.Created(cfg, S.NewOrder(d), n);
    w.idem.(rows := w.idem.rows[r.value.id := I.Finalized(w.idem.rows[r.value.id], data)],
            commits := w.idem.commits + [I.Commit(r.value.id, n, data)])
  }

  /** The transaction's two copies are the checkout action's result. */
  lemma {:induction false} OrderStep(
      cfg: World.Config, w: World.State, d: S.Draft, r: Option<Reservation>, tx: S.Db, reservations: I.Table)
    requires World.Inv(cfg, w) && Ready(w, d, r) && Succeeds(w, d, r) && tx == S.PlaceTx(w.shop, d, w.shop.now)
    requires reservations == FinalizedTable(cfg, w, d, r)
    ensures World.Allowed(cfg, w, PlaceAction(d, r, w.shop.now))
    ensures World.Step(cfg, w, PlaceAction(d, r, w.shop.now)) == World.State(reservations, tx)
    ensures tx.orders == w.shop.orders + [S.NewOrder(d)] && Announced(w.shop, tx, 1)
    ensures r.Some? ==> reservations.commits[|w.idem.commits|] ==
                        I.Commit(r.value.id, |w.shop.orders|, World.Created(cfg, S.NewOrder(d), |w.shop.orders|))
  {
  }

  /** The outbox rows written along with n orders, n at most one: one order.created naming it, or none. */
  ghost predicate Announced(was: S.Db, db: S.Db, n: int) {
    if n == 0 then db.outbox == was.outbox
    else
      && |db.outbox| == |was.outbox| + 1 && db.outbox[..|was.outbox|] == was.outbox
      && db.outbox[|was.outbox|].name == S.OrderCreated && db.outbox[|was.outbox|].aggregate == |was.orders|
  }

  /** One call's orders: none, or one of exactly this draft. */
  ghost predicate PlacedAtMostOne(before: seq<nat>, after: seq<nat>, w: World.State, d: S.Draft) {
    after == before
    || (|after| == |before| + 1 && after[..|before|] == before && after[|before|] < |w.shop.orders|
        && w.shop.orders[after[|before|]] == S.NewOrder(d))
  }

  /** A fresh result names the call's one order; only a failure may hide one (its answer was lost). */
  ghost predicate PlacedAsAnswered(before: seq<nat>, after: seq<nat>, w: World.State, d: S.Draft, out: Outcome) {
    match out
    case Fresh(order, _) => after == before + [order] && PlacedAtMostOne(before, after, w, d)
    case Failed(_) => PlacedAtMostOne(before, after, w, d)
    case _ => after == before
  }

  predicate Owned(w: World.State, r: Reservation) { r.id in w.idem.rows && I.Owns(w.idem.rows[r.id], r.token) }

  ghost predicate Succeeds(w: World.State, d: S.Draft, r: Option<Reservation>) {
    S.Places(w.shop, d) && (r.Some? ==> Owned(w, r.value))
  }

  /**
   * An undisturbed attempt under an owned reservation: order and finalize in one step, or
   * the key freed with the reason.
   */
  ghost predicate Attempted(
      cfg: World.Config, v: World.State, id: I.Id, token: nat, d: S.Draft, out: Outcome, u: World.State) {
    if S.Places(v.shop, d)
    then out.Fresh? && out.order == |v.shop.orders|
         && out.response == World.Created(cfg, S.NewOrder(d), |v.shop.orders|)
         && World.Allowed(cfg, v, World.Keyed(id, token, d, v.shop.now))
         && u == World.Step(cfg, v, World.Keyed(id, token, d, v.shop.now))
    else out.Failed? && u == v.(idem := I.Step(cfg.idem, v.idem, I.Action.MarkFailed(id, token, out.message)))
  }

  ghost predicate BornFor(w: World.State, ctx: Context, id: I.Id) {
    id in w.idem.births && w.idem.births[id] == I.Birth(ctx.user, ctx.key, ctx.fingerprint, w.idem.births[id].at)
  }

  /** A fresh result: the stored order is this request's, and its reservation's commit answers with it. */
  ghost predicate FreshOk(cfg: World.Config, w: World.State, ctx: Context, d: S.Draft, out: Outcome)
    requires out.Fresh?
  {
    && out.order < |w.shop.orders| && w.shop.orders[out.order] == S.NewOrder(d)
    && out.response == World.Created(cfg, S.NewOrder(d), out.order)
    && AnswersRequest(w, ctx, out.response)
  }

  /** One series of attempts, and the answer that its end calls for: only a superseded one looks for a winner. */
  ghost predicate AnsweredAsTried(before: seq<TxResult>, after: seq<TxResult>, out: Outcome) {
    before < after && |after| == |before| + 1 && AnswersTry(after[|before|], out)
  }

  predicate AnswersTry(result: TxResult, out: Outcome) {
    match result
    case Committed(order, response) => out == Fresh(order, response)
    case Superseded => out.Replayed? || out.InProgress?
    case Error(message) => out == Outcome.Failed(message)
    case NumberTaken => out.Failed?
  }

  /** No finished order is stored under the key. */
  ghost predicate NothingToReplay(w: World.State, ctx: Context) {
    forall id | id in w.idem.rows && I.SameKey(w.idem.rows[id], ctx.user, ctx.key) ::
      w.idem.rows[id].status != I.Completed
  }

  /** Whoever owns the reservation gets its attempt, and an order is placed only if it is answered. */
  ghost predicate OwnerAttempts(
      cfg: World.Config, v: World.State, id: I.Id, token: nat, d: S.Draft, out: Outcome, u: World.State,
      before: seq<nat>, after: seq<nat>) {
    Owned(v, Reservation(id, token)) ==>
      Attempted(cfg, v, id, token, d, out, u) && (!out.Fresh? ==> after == before)
  }

  /** A replay: of this very request, unless the reservation begin let it proceed with has been swept since. */
  ghost predicate ReplayOk(
      cfg: World.Config, rehydrate: bool, w: World.State, ctx: Context, begin: BeginResult, out: Outcome)
    requires out.Replayed?
  {
    && Answers(w, ctx.user, ctx.key, out.response)
    && (AnswersRequest(w, ctx, out.response)
        || (begin.Proceed? && begin.id in w.idem.tombs && BornFor(w, ctx, begin.id)))
    && out.body == ReplayBody(cfg, rehydrate, w, out.response)
  }

  /** What checkout knows when it starts the transaction: its reservation is its own user's, voucher limits stand. */
  ghost predicate Ready(w: World.State, d: S.Draft, r: Option<Reservation>) {
    && (d.voucher.Some? && d.voucher.value.id in w.shop.promos ==>
         w.shop.promos[d.voucher.value.id].maxUsage == d.voucher.value.maxUsage)
    && (r.Some? ==> r.value.id in w.idem.births && w.idem.births[r.value.id].user == d.user)
  }

  ghost function ClaimedTable(cfg: I.Config, t: I.Table, ctx: Context, id: I.Id): I.Table
    requires id in t.rows
  {
    t.(rows := t.rows[id := I.Claimed(cfg, t.rows[id], ctx.fingerprint, t.now, t.now)])
  }

  /** What an undisturbed Begin answers and leaves, by the state of the key. */
  ghost predicate BegunQuietly(cfg: World.Config, w: World.State, v: World.State, ctx: Context, begin: BeginResult) {
    v.shop == w.shop && QuietBegin(cfg.idem, w.idem, ctx, begin, v.idem)
  }

  lemma {:induction false} AnsweredAtOnce(
      cfg: World.Config, w: World.State, v: World.State, ctx: Context, d: S.Draft, begin: BeginResult, out: Outcome)
    requires BegunQuietly(cfg, w, v, ctx, begin) && !begin.Proceed?
    requires match begin
             case Replay(response) => out.Replayed? && out.response == response
             case Busy => out == InProgress
             case _ => out == KeyMismatch
    ensures Undisturbed(cfg, w, ctx, d, out, v)
  {
    forall x | x in w.idem.rows && I.SameKey(w.idem.rows[x], ctx.user, ctx.key)
      ensures QuietExisting(cfg.idem, w.idem, ctx, x, begin, v.idem) && v == w {}
  }

  lemma {:induction false} BornForStays(cfg: World.Config, v: World.State, u: World.State, ctx: Context, id: I.Id)
    requires World.Inv(cfg, v) && World.Reaches(cfg, v, u) && BornFor(v, ctx, id)
    ensures BornFor(u, ctx, id)
  {
    World.ReachesIsLater(cfg, v, u);
  }

  lemma {:induction false} CommittedIsFresh(
      cfg: World.Config, u: World.State, ctx: Context, d: S.Draft, id: I.Id, order: nat, response: I.Response)
    requires BornFor(u, ctx, id)
    requires order < |u.shop.orders| && u.shop.orders[order] == S.NewOrder(d)
    requires response == World.Created(cfg, S.NewOrder(d), order) && I.Commit(id, order, response) in u.idem.commits
    ensures FreshOk(cfg, u, ctx, d, Fresh(order, response))
  {
    assert I.Commit(id, order, response).response == response;
  }

  lemma {:induction false} CommittedIsAttempted(
      cfg: World.Config, v: World.State, u: World.State, d: S.Draft, id: I.Id, token: nat, response: I.Response,
      before: seq<nat>, after: seq<nat>)
    requires World.Inv(cfg, v) && Ready(v, d, Some(Reservation(id, token)))
             && Succeeds(v, d, Some(Reservation(id, token)))
    requires u == World.Step(cfg, v, PlaceAction(d, Some(Reservation(id, token)), v.shop.now))
    requires response == World.Created(cfg, S.NewOrder(d), |v.shop.orders|)
    ensures OwnerAttempts(cfg, v, id, token, d, Fresh(|v.shop.orders|, response), u, before, after)
  {
  }

  lemma {:induction false} FailedIsAttempted(
      cfg: World.Config, v: World.State, u: World.State, d: S.Draft, id: I.Id, token: nat, message: string,
      placed: seq<nat>)
    requires !Succeeds(v, d, Some(Reservation(id, token)))
    requires u == v.(idem := I.Step(cfg.idem, v.idem, I.Action.MarkFailed(id, token, message)))
    ensures OwnerAttempts(cfg, v, id, token, d, Outcome.Failed(message), u, placed, placed)
  {
  }

  /** What one undisturbed checkout does to the database `w`. */
  ghost predicate Undisturbed(
      cfg: World.Config, w: World.State, ctx: Context, d: S.Draft, out: Outcome, u: World.State) {
    && (!I.HasKey(w.idem, ctx.user, ctx.key) ==>
          exists id :: id !in w.idem.births
            && Attempted(cfg, w.(idem := Reserve(cfg.idem, w.idem, ctx, id)), id, 1, d, out, u))
    && (forall id | id in w.idem.rows && I.SameKey(w.idem.rows[id], ctx.user, ctx.key) ::
          match I.Judge(cfg.idem, w.idem.rows[id], ctx.fingerprint, w.idem.now)
          case Mismatch => out == KeyMismatch && u == w
          case ReplayWith(response) => out.Replayed? && out.response == response && u == w
          case InProgress => out == InProgress && u == w
          case TryClaim(mode) =>
            if I.ClaimMatches(cfg.idem, w.idem.rows[id], w.idem.rows[id].fenceToken, mode, w.idem.now)
            then Attempted(cfg, w.(idem := ClaimedTable(cfg.idem, w.idem, ctx, id)), id,
              w.idem.rows[id].fenceToken + 1, d, out, u)
            else out == InProgress && u == w)
  }

  lemma {:induction false} Proceeded(
      cfg: World.Config, w: World.State, v: World.State, ctx: Context, d: S.Draft, id: I.Id, token: nat, out: Outcome,
      u: World.State, before: seq<nat>, after: seq<nat>)
    requires BegunQuietly(cfg, w, v, ctx, Proceed(id, token))
    requires OwnerAttempts(cfg, v, id, token, d, out, u, before, after)
    ensures Undisturbed(cfg, w, ctx, d, out, u) && (!out.Fresh? ==> after == before)
  {
    if I.HasKey(w.idem, ctx.user, ctx.key) {
      forall x | x in w.idem.rows && I.SameKey(w.idem.rows[x], ctx.user, ctx.key)
        ensures id == x && token == w.idem.rows[x].fenceToken + 1 && id in v.idem.rows && I.Owns(v.idem.rows[id], token)
        ensures v == w.(idem := ClaimedTable(cfg.idem, w.idem, ctx, x))
      {
        assert QuietExisting(cfg.idem, w.idem, ctx, x, Proceed(id, token), v.idem);
      }
    } else {
      assert v == w.(idem := Reserve(cfg.idem, w.idem, ctx, id));
    }
  }

  lemma {:induction false} LimitsStand(cfg: S.Config, db: S.Db, acts: seq<S.Action>)
    requires S.Linked(db) && S.AllowedRun(cfg, db, acts)
    ensures var u := S.Run(cfg, db, acts);
            u.promos.Keys == db.promos.Keys && forall v | v in db.promos ::
              u.promos[v].maxUsage == db.promos[v].maxUsage
    decreases |acts|
  {
    if acts != [] {
      S.StepKeepsLinked(cfg, db, acts[0]);
      if !acts[0].Place? {
        S.StepIsSameBusiness(cfg, db, acts[0]);
      }
      LimitsStand(cfg, S.Step(cfg, db, acts[0]), acts[1..]);
    }
  }

  lemma {:induction false} StaysReady(
      cfg: World.Config, w: World.State, u: World.State, d: S.Draft, r: Option<Reservation>)
    requires World.Inv(cfg, w) && World.Reaches(cfg, w, u) && Ready(w, d, r)
    ensures World.Inv(cfg, u) && Ready(u, d, r)
  {
    var acts :| World.AllowedRun(cfg, w, acts) && World.Run(cfg, w, acts) == u;
    World.RunIsRunOfParts(cfg, w, acts);
    World.ReachesIsLater(cfg, w, u);
    var shop :| S.AllowedRun(cfg.shop, w.shop, shop) && S.Run(cfg.shop, w.shop, shop) == u.shop;
    LimitsStand(cfg.shop, w.shop, shop);
  }

  /** A replay found after losing the reservation `id`: of the same request if `id` is still stored. */
  lemma {:induction false} ResolvedReplay(
      cfg: World.Config, w: World.State, ctx: Context, id: I.Id, response: I.Response)
    requires World.Inv(cfg, w) && id in w.idem.births
    requires w.idem.births[id] == I.Birth(ctx.user, ctx.key, ctx.fingerprint, w.idem.births[id].at)
    requires exists x, c :: x in w.idem.rows && I.SameKey(w.idem.rows[x], ctx.user, ctx.key)
                            && c in w.idem.commits && c.row == x && c.response == response
    ensures Answers(w, ctx.user, ctx.key, response)
    ensures AnswersRequest(w, ctx, response) || id in w.idem.tombs
  {
    var x, c :| x in w.idem.rows && I.SameKey(w.idem.rows[x], ctx.user, ctx.key)
                && c in w.idem.commits && c.row == x && c.response == response;
    assert I.RowOk(cfg.idem, w.idem, x) && I.RowOk(cfg.idem, w.idem, id);
    if id in w.idem.rows {
      assert !I.Clash(w.idem, x, id);
    }
  }

  /** The row stores the answer of this request, or is free for its retry. */
  predicate LeftFor(row: I.Row, ctx: Context, out: Outcome) {
    && I.SameKey(row, ctx.user, ctx.key) && row.fingerprint == ctx.fingerprint
    && (out.Fresh? ==> row.status == I.Completed && I.ReplayOf(row) == out.response)
    && (out.Failed? ==> row.status == I.Failed)
  }

  /** What an undisturbed checkout leaves under its key. */
  ghost predicate LeavesAnswer(u: World.State, ctx: Context, out: Outcome) {
    out.Fresh? || out.Failed? ==> exists id :: id in u.idem.rows && LeftFor(u.idem.rows[id], ctx, out)
  }

  lemma {:induction false} AttemptLeavesAnswer(
      cfg: World.Config, v: World.State, ctx: Context, id: I.Id, token: nat, d: S.Draft, out: Outcome, u: World.State)
    requires Owned(v, Reservation(id, token)) && I.SameKey(v.idem.rows[id], ctx.user, ctx.key)
    requires v.idem.rows[id].fingerprint == ctx.fingerprint && Attempted(cfg, v, id, token, d, out, u)
    ensures LeavesAnswer(u, ctx, out)
  {
    assert id in u.idem.rows && LeftFor(u.idem.rows[id], ctx, out);
  }

  lemma {:induction false} UndisturbedLeavesAnswer(
      cfg: World.Config, w: World.State, ctx: Context, d: S.Draft, out: Outcome, u: World.State)
    requires Undisturbed(cfg, w, ctx, d, out, u)
    ensures LeavesAnswer(u, ctx, out) && (!out.Fresh? && !out.Failed? ==> u == w)
  {
    if I.HasKey(w.idem, ctx.user, ctx.key) {
      var id :| id in w.idem.rows && I.SameKey(w.idem.rows[id], ctx.user, ctx.key);
      if out.Fresh? || out.Failed? {
        AttemptLeavesAnswer(cfg, w.(idem := ClaimedTable(cfg.idem, w.idem, ctx, id)), ctx, id,
          w.idem.rows[id].fenceToken + 1, d, out, u);
      }
    } else {
      var id :| id !in w.idem.births
                && Attempted(cfg, w.(idem := Reserve(cfg.idem, w.idem, ctx, id)), id, 1, d, out, u);
      AttemptLeavesAnswer(cfg, w.(idem := Reserve(cfg.idem, w.idem, ctx, id)), ctx, id, 1, d, out, u);
    }
  }

  /**
   * Retrying the same request: after a fresh order the retry replays exactly that answer
   * and writes nothing, after a failure it is a new attempt, and any other answer is given
   * again - whatever cart state the retry brings along.
   */
  lemma {:induction false} RetryIsAnswered(
      cfg: World.Config, w: World.State, ctx: Context, d: S.Draft, first: Outcome, u: World.State, retried: S.Draft,
      second: Outcome, v: World.State)
    requires Undisturbed(cfg, w, ctx, d, first, u) && Undisturbed(cfg, u, ctx, retried, second, v)
    ensures first.Fresh? ==> second.Replayed? && second.response == first.response && v == u
    ensures first.Failed? ==> if S.Places(u.shop, retried) then second.Fresh? else second.Failed?
    ensures !first.Fresh? && !first.Failed? ==>
              && v == u == w
              && (first.Replayed? <==> second.Replayed?) && (first.InProgress? <==> second.InProgress?)
              && (first.Replayed? ==> second.response == first.response)
  {
    UndisturbedLeavesAnswer(cfg, w, ctx, d, first, u);
    if first.Fresh? || first.Failed? {
      var id :| id in u.idem.rows && LeftFor(u.idem.rows[id], ctx, first);
      assert I.HasKey(u.idem, ctx.user, ctx.key);
    } else {
      assert I.HasKey(w.idem, ctx.user, ctx.key);
      var id :| id in w.idem.rows && I.SameKey(w.idem.rows[id], ctx.user, ctx.key);
    }
  }

  /** What a replay shows: status 201 and the order of the commit, as it was created or, rehydrated, as it is now. */
  lemma {:induction false} ReplayShowsTheOrder(cfg: World.Config, rehydrate: bool, w: World.State, c: I.Commit)
    requires World.Inv(cfg, w) && c in w.idem.commits
    ensures c.response.statusCode == 201 && c.order < |w.shop.orders|
    ensures c.response.resourceType == Some("Order") && c.response.resourceId == Some(c.order)
    ensures var order := w.shop.orders[c.order];
            ReplayBody(cfg, rehydrate, w, c.response) ==
            cfg.render(if rehydrate then order else order.(status := S.Pending, log := [S.Pending]))
  {
    assert World.CommitNamesOrder(cfg, w, c);
  }
}
