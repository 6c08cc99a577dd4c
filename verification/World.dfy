/**
 * The reservation table and the shop as one database: a checkout under an
 * idempotency key finalizes its reservation and places its order in one
 * transaction. Everything proved about either part alone carries over, because a
 * run of the whole is a run of each part.
 */
module World {
  import opened Base
  import I = Idempotency
  import S = Shop

  datatype Config = Config(idem: I.Config, shop: S.Config, render: S.Order -> string)

  datatype State = State(idem: I.Table, shop: S.Db)

  datatype Action =
    | OnIdem(idem: I.Action)
    | OnShop(shop: S.Action)
    | Keyed(id: I.Id, token: nat, draft: S.Draft, clock: int)   // checkout under a reservation

  /** The response a keyed checkout stores: the order as created. */
  function Created(cfg: Config, o: S.Order, n: nat): I.Response {
    I.Response(201, cfg.render(o), Some("Order"), Some(n))
  }

  ghost predicate Allowed(cfg: Config, w: State, a: Action) {
    match a
    case OnIdem(i) => !i.Finalize? && I.Allowed(cfg.idem, w.idem, i)
    case OnShop(s) => S.Linked(w.shop) && S.Allowed(cfg.shop, w.shop, s)
    case Keyed(id, _, draft, clock) =>
      && id in w.idem.births && w.idem.births[id].user == draft.user
      && S.Allowed(cfg.shop, w.shop, S.Place(draft, clock))
  }

  /** The order commits only together with its reservation; otherwise the transaction rolls back. */
  predicate Commits(w: State, id: I.Id, token: nat, draft: S.Draft) {
    id in w.idem.rows && I.Owns(w.idem.rows[id], token) && S.Places(w.shop, draft)
  }

  ghost function Step(cfg: Config, w: State, a: Action): State
    requires Allowed(cfg, w, a)
  {
    match a
    case OnIdem(i) => w.(idem := I.Step(cfg.idem, w.idem, i))
    case OnShop(s) => w.(shop := S.Step(cfg.shop, w.shop, s))
    case Keyed(id, token, draft, clock) =>
      if !Commits(w, id, token, draft) then w else
      var n := |w.shop.orders|;
      var data := Created(cfg, S.NewOrder(draft), n);
      State(w.idem.(rows := w.idem.rows[id := I.Finalized(w.idem.rows[id], data)],
        commits := w.idem.commits + [I.Commit(id, n, data)]),
            S.PlaceTx(w.shop, draft, clock))
  }

  /** The order as it was created: only its status and its log change afterwards. */
  function AsCreated(o: S.Order): S.Order { o.(status := S.Pending, log := [S.Pending]) }

  ghost predicate CommitNamesOrder(cfg: Config, w: State, c: I.Commit) {
    && c.order < |w.shop.orders|
    && c.response == Created(cfg, AsCreated(w.shop.orders[c.order]), c.order)
    && c.row in w.idem.births && w.idem.births[c.row].user == w.shop.orders[c.order].user
  }

  ghost predicate Inv(cfg: Config, w: State) {
    && I.Inv(cfg.idem, w.idem)
    && S.Linked(w.shop)
    && forall c | c in w.idem.commits :: CommitNamesOrder(cfg, w, c)
  }

  lemma {:induction false} InitInv(cfg: Config, w: State)
    requires I.Init(cfg.idem, w.idem) && S.Init(w.shop)
    ensures Inv(cfg, w)
  {
    I.InitKeepsInv(cfg.idem, w.idem);
  }

  /** How the parts see an action of the whole. */
  lemma {:induction false} StepParts(cfg: Config, w: State, a: Action)
    requires Inv(cfg, w) && Allowed(cfg, w, a)
    ensures var u := Step(cfg, w, a);
            && (u.idem == w.idem || exists i :: I.Allowed(cfg.idem, w.idem, i) && u.idem == I.Step(cfg.idem, w.idem, i))
            && (u.shop == w.shop || exists s :: S.Allowed(cfg.shop, w.shop, s) && u.shop == S.Step(cfg.shop, w.shop, s))
  {
    if a.Keyed? && Commits(w, a.id, a.token, a.draft) {
      var n := |w.shop.orders|;
      var fin := I.Finalize(a.id, a.token, n, Created(cfg, S.NewOrder(a.draft), n));
      forall c | c in w.idem.commits ensures c.order != n {
        assert CommitNamesOrder(cfg, w, c);
      }
      assert I.Allowed(cfg.idem, w.idem, fin);
      assert Step(cfg, w, a).idem == I.Step(cfg.idem, w.idem, fin);
      assert S.Allowed(cfg.shop, w.shop, S.Place(a.draft, a.clock));
    }
  }

  lemma {:induction false} StepKeepsInv(cfg: Config, w: State, a: Action)
    requires Inv(cfg, w) && Allowed(cfg, w, a)
    ensures Inv(cfg, Step(cfg, w, a))
  {
    var u := Step(cfg, w, a);
    StepParts(cfg, w, a);
    assert I.Inv(cfg.idem, u.idem) && I.Later(w.idem, u.idem) by {
      if u.idem != w.idem {
        var i :| I.Allowed(cfg.idem, w.idem, i) && u.idem == I.Step(cfg.idem, w.idem, i);
        I.StepKeepsInv(cfg.idem, w.idem, i);
        I.StepIsLater(cfg.idem, w.idem, i);
      }
    }
    assert S.Linked(u.shop) by {
      if u.shop != w.shop {
        var s :| S.Allowed(cfg.shop, w.shop, s) && u.shop == S.Step(cfg.shop, w.shop, s);
        S.StepKeepsLinked(cfg.shop, w.shop, s);
      }
    }
    StepKeepsNames(cfg, w, a);
  }

  lemma {:induction false} OrdersKeepNames(cfg: Config, w: State, a: Action)
    requires Inv(cfg, w) && Allowed(cfg, w, a)
    ensures forall n | 0 <= n < |w.shop.orders| ::
              n < |Step(cfg, w, a).shop.orders|
                && AsCreated(Step(cfg, w, a).shop.orders[n]) == AsCreated(w.shop.orders[n])
  {
    var u := Step(cfg, w, a);
    if a.OnShop? && !a.shop.Place? {
      S.StepIsSameBusiness(cfg.shop, w.shop, a.shop);
    }
    forall n | 0 <= n < |w.shop.orders|
      ensures n < |u.shop.orders| && AsCreated(u.shop.orders[n]) == AsCreated(w.shop.orders[n]) {}
  }

  lemma {:induction false} StepKeepsNames(cfg: Config, w: State, a: Action)
    requires Inv(cfg, w) && Allowed(cfg, w, a)
    ensures forall c | c in Step(cfg, w, a).idem.commits :: CommitNamesOrder(cfg, Step(cfg, w, a), c)
  {
    var u := Step(cfg, w, a);
    OrdersKeepNames(cfg, w, a);
    forall c | c in u.idem.commits ensures CommitNamesOrder(cfg, u, c) {
      if c in w.idem.commits {
        assert CommitNamesOrder(cfg, w, c);
      }
    }
  }

  // ---- runs ----

  ghost predicate AllowedRun(cfg: Config, w: State, acts: seq<Action>)
    decreases |acts|
  {
    acts == [] || (Allowed(cfg, w, acts[0]) && AllowedRun(cfg, Step(cfg, w, acts[0]), acts[1..]))
  }

  ghost function Run(cfg: Config, w: State, acts: seq<Action>): State
    requires AllowedRun(cfg, w, acts)
    decreases |acts|
  {
    if acts == [] then w else Run(cfg, Step(cfg, w, acts[0]), acts[1..])
  }

  ghost predicate Reaches(cfg: Config, w: State, u: State) {
    exists acts :: AllowedRun(cfg, w, acts) && Run(cfg, w, acts) == u
  }

  lemma {:induction false} ReachesSelf(cfg: Config, w: State)
    ensures Reaches(cfg, w, w)
  {
    assert AllowedRun(cfg, w, []) && Run(cfg, w, []) == w;
  }

  lemma {:induction false} RunConcat(cfg: Config, w: State, before: seq<Action>, after: seq<Action>)
    requires AllowedRun(cfg, w, before) && AllowedRun(cfg, Run(cfg, w, before), after)
    ensures AllowedRun(cfg, w, before + after)
    ensures Run(cfg, w, before + after) == Run(cfg, Run(cfg, w, before), after)
    decreases |before|
  {
    if before == [] {
      assert before + after == after;
    } else {
      RunConcat(cfg, Step(cfg, w, before[0]), before[1..], after);
      assert (before + after)[1..] == before[1..] + after;
    }
  }

  lemma {:induction false} ReachesTrans(cfg: Config, w: State, u: State, v: State)
    requires Reaches(cfg, w, u) && Reaches(cfg, u, v)
    ensures Reaches(cfg, w, v)
  {
    var before :| AllowedRun(cfg, w, before) && Run(cfg, w, before) == u;
    var after :| AllowedRun(cfg, u, after) && Run(cfg, u, after) == v;
    RunConcat(cfg, w, before, after);
  }

  lemma {:induction false} TakeStep(cfg: Config, w: State, u: State, a: Action)
    requires Inv(cfg, u) && Reaches(cfg, w, u) && Allowed(cfg, u, a)
    ensures Inv(cfg, Step(cfg, u, a)) && Reaches(cfg, w, Step(cfg, u, a))
  {
    StepKeepsInv(cfg, u, a);
    var acts := [a];
    assert acts[1..] == [];
    assert AllowedRun(cfg, Step(cfg, u, a), []);
    assert AllowedRun(cfg, u, acts) && Run(cfg, u, acts) == Step(cfg, u, a);
    ReachesTrans(cfg, w, u, Step(cfg, u, a));
  }

  /** A run of the whole is a run of the reservation table and a run of the shop. */
  lemma {:induction false} RunIsRunOfParts(cfg: Config, w: State, acts: seq<Action>)
    requires Inv(cfg, w) && AllowedRun(cfg, w, acts)
    ensures Inv(cfg, Run(cfg, w, acts))
    ensures I.Reaches(cfg.idem, w.idem, Run(cfg, w, acts).idem)
    ensures S.Reaches(cfg.shop, w.shop, Run(cfg, w, acts).shop)
    decreases |acts|
  {
    I.ReachesSelf(cfg.idem, w.idem);
    S.ReachesSelf(cfg.shop, w.shop);
    if acts != [] {
      var u := Step(cfg, w, acts[0]);
      StepKeepsInv(cfg, w, acts[0]);
      StepParts(cfg, w, acts[0]);
      RunIsRunOfParts(cfg, u, acts[1..]);
      if u.idem != w.idem {
        var i :| I.Allowed(cfg.idem, w.idem, i) && u.idem == I.Step(cfg.idem, w.idem, i);
        I.ReachesStep(cfg.idem, w.idem, i);
        I.ReachesTrans(cfg.idem, w.idem, u.idem, Run(cfg, w, acts).idem);
      }
      if u.shop != w.shop {
        var s :| S.Allowed(cfg.shop, w.shop, s) && u.shop == S.Step(cfg.shop, w.shop, s);
        S.ReachesStep(cfg.shop, w.shop, s);
        S.ReachesTrans(cfg.shop, w.shop, u.shop, Run(cfg, w, acts).shop);
      }
    }
  }

  lemma {:induction false} ReachesIsLater(cfg: Config, w: State, u: State)
    requires Inv(cfg, w) && Reaches(cfg, w, u)
    ensures Inv(cfg, u) && I.Later(w.idem, u.idem)
  {
    var acts :| AllowedRun(cfg, w, acts) && Run(cfg, w, acts) == u;
    RunIsRunOfParts(cfg, w, acts);
    I.ReachesIsLater(cfg.idem, w.idem, u.idem);
  }

  /**
   * Exactly once, end to end: on every run two keyed orders come from different
   * reservations; each names an existing order of the key's user and replays that
   * order as created; and orders of one user and key are a full retention apart.
   */
  lemma {:induction false} KeyedOrdersHappenOnce(cfg: Config, start: State, acts: seq<Action>, i: nat, j: nat)
    requires I.Init(cfg.idem, start.idem) && S.Init(start.shop) && AllowedRun(cfg, start, acts)
    requires i < j < |Run(cfg, start, acts).idem.commits|
    ensures var end := Run(cfg, start, acts);
            var c, d := end.idem.commits[i], end.idem.commits[j];
            && c.order != d.order && c.row != d.row
            && c.order < |end.shop.orders| && d.order < |end.shop.orders|
            && c.response == Created(cfg, AsCreated(end.shop.orders[c.order]), c.order)
            && (I.SameBirthKey(end.idem, c.row, d.row) ==>
                  && end.shop.orders[c.order].user == end.shop.orders[d.order].user
                  && I.Before(end.idem, c.row, d.row))
  {
    InitInv(cfg, start);
    RunIsRunOfParts(cfg, start, acts);
    var end := Run(cfg, start, acts);
    var c, d := end.idem.commits[i], end.idem.commits[j];
    assert c in end.idem.commits && d in end.idem.commits;
    assert CommitNamesOrder(cfg, end, c) && CommitNamesOrder(cfg, end, d);
    assert I.Apart(end.idem, c, d);
  }
}
