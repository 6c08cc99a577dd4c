/**
 * The service as written: each query is one atomic action on the shared table, and
 * between any two of them `Yield` lets every other request, worker and the clock do
 * any number of actions. `quiet` singles out executions in which they do nothing;
 * for those the contracts say exactly what each call does.
 */
module IdempotencyService {
  import opened Base
  import opened Idempotency
  import World

  datatype Context = Context(user: Id, key: Id, fingerprint: string)

  datatype BeginResult =
    | Proceed(id: Id, token: nat)
    | Replay(response: Response)
    | Busy
    | FingerprintMismatch

  /**
   * Why a request may give this answer, whatever ran in between. A request that goes on
   * goes on with the fence of the row as its last query wrote or read it.
   */
  ghost predicate Justified(t: Table, ctx: Context, r: BeginResult) {
    match r
    case Proceed(id, token) =>
      && id in t.births && t.births[id] == Birth(ctx.user, ctx.key, ctx.fingerprint, t.births[id].at)
      && id in t.rows && t.rows[id].fenceToken == token
    case Replay(response) =>
      exists c :: c in t.commits && c.response == response && c.row in t.births
                  && t.births[c.row] == Birth(ctx.user, ctx.key, ctx.fingerprint, t.births[c.row].at)
    case Busy => true
    case FingerprintMismatch =>
      exists id :: id in t.births && t.births[id].user == ctx.user && t.births[id].key == ctx.key
                   && t.births[id].fingerprint != ctx.fingerprint
  }

  lemma {:induction false} ReplayIsJustified(cfg: World.Config, w: World.State, ctx: Context, id: Id)
    requires World.Inv(cfg, w) && id in w.idem.rows && w.idem.rows[id].status == Completed
    requires SameKey(w.idem.rows[id], ctx.user, ctx.key) && w.idem.rows[id].fingerprint == ctx.fingerprint
    ensures Justified(w.idem, ctx, Replay(ReplayOf(w.idem.rows[id])))
  {
    assert RowOk(cfg.idem, w.idem, id);
    assert Last(w.idem, id) == w.idem.rows[id] && Committed(w.idem, id);
    var c :| c in w.idem.commits && c.row == id;
    assert CommitOk(w.idem, c);
  }

  /** What begin does to a table no one else touches, when the key's row is `id`. */
  ghost predicate QuietExisting(cfg: Config, t: Table, ctx: Context, id: Id, r: BeginResult, u: Table)
    requires id in t.rows
  {
    var row := t.rows[id];
    match Judge(cfg, row, ctx.fingerprint, t.now)
    case Mismatch => r == FingerprintMismatch && u == t
    case ReplayWith(response) => r == Replay(response) && u == t
    case InProgress => r == Busy && u == t
    case TryClaim(mode) =>
      if ClaimMatches(cfg, row, row.fenceToken, mode, t.now)
      then r == Proceed(id, row.fenceToken + 1)
           && u == t.(rows := t.rows[id := Claimed(cfg, row, ctx.fingerprint, t.now, t.now)])
      else r == Busy && u == t
  }

  /** What begin answers and leaves when no one else touches the table. */
  ghost predicate QuietBegin(cfg: Config, t: Table, ctx: Context, r: BeginResult, u: Table) {
    && (!HasKey(t, ctx.user, ctx.key) ==>
          r.Proceed? && r.token == 1 && r.id !in t.births && u == Reserve(cfg, t, ctx, r.id))
    && (forall id | id in t.rows && SameKey(t.rows[id], ctx.user, ctx.key) :: QuietExisting(cfg, t, ctx, id, r, u))
  }

  /** A row of this key for this cart that nobody owns any more: failed, or overdue since its acquisition. */
  predicate Reservable(cfg: Config, row: Row, fingerprint: string, clock: Millis) {
    && row.fingerprint == fingerprint
    && (row.status == Failed
        || (row.status == Processing && row.acquiredAt.Some? && row.acquiredAt.value + cfg.reclaimMs < clock))
  }

  /** The row is this request's from now on, under this token. */
  predicate IsOwners(row: Row, ctx: Context, token: nat, clock: Millis) {
    && row.user == ctx.user && row.key == ctx.key && row.fingerprint == ctx.fingerprint
    && row.status == Processing && row.fenceToken == token && row.acquiredAt == Some(clock)
  }

  /** Begin's answer by the columns of the key's row, and what the answer means for the table. */
  ghost predicate AnsweredByRow(cfg: Config, t: Table, ctx: Context, r: BeginResult, u: Table) {
    && (forall id | id in t.rows && t.rows[id].user == ctx.user && t.rows[id].key == ctx.key ::
          var row := t.rows[id];
          && (r.FingerprintMismatch? <==> row.fingerprint != ctx.fingerprint)
          && (r.Replay? <==> row.fingerprint == ctx.fingerprint && row.status == Completed)
          && (r.Proceed? <==> Reservable(cfg, row, ctx.fingerprint, t.now))
          && (r.Proceed? ==> r.id == id && r.token == row.fenceToken + 1))
    && (r.Proceed? ==>
          && r.id in u.rows && IsOwners(u.rows[r.id], ctx, r.token, t.now) && (r.id !in t.rows ==> r.token == 1)
          && u.now == t.now && u.commits == t.commits && u.tombs == t.tombs && u.rows == t.rows[r.id := u.rows[r.id]])
    && (!r.Proceed? ==> u == t)
  }

  lemma {:induction false} BeginIsAnsweredByRow(cfg: Config, t: Table, ctx: Context, r: BeginResult, u: Table)
    requires QuietBegin(cfg, t, ctx, r, u)
    ensures AnsweredByRow(cfg, t, ctx, r, u)
  {
    forall id | id in t.rows && t.rows[id].user == ctx.user && t.rows[id].key == ctx.key
      ensures QuietExisting(cfg, t, ctx, id, r, u) && HasKey(t, ctx.user, ctx.key)
    {
      assert SameKey(t.rows[id], ctx.user, ctx.key);
    }
  }

  /** Two begins of one request with no time in between never both proceed: the second waits for the first's owner. */
  lemma {:induction false} SecondBeginWaits(
      cfg: Config, t: Table, ctx: Context, first: BeginResult, u: Table, second: BeginResult, v: Table)
    requires Inv(cfg, t) && QuietBegin(cfg, t, ctx, first, u) && QuietBegin(cfg, u, ctx, second, v)
    ensures v == u && second == if first.Proceed? then Busy else first
  {
    BeginIsAnsweredByRow(cfg, t, ctx, first, u);
    if first.Proceed? {
      assert SameKey(u.rows[first.id], ctx.user, ctx.key);
      assert QuietExisting(cfg, u, ctx, first.id, second, v);
    } else {
      assert HasKey(t, ctx.user, ctx.key);
      var id :| id in t.rows && SameKey(t.rows[id], ctx.user, ctx.key);
      assert QuietExisting(cfg, t, ctx, id, first, u) && QuietExisting(cfg, t, ctx, id, second, v);
    }
  }

  /** The key's row is this request's, somebody is working on it, and is not overdue. */
  ghost predicate InProgressNow(cfg: Config, t: Table, ctx: Context) {
    exists id :: id in t.rows && t.rows[id].user == ctx.user && t.rows[id].key == ctx.key
                 && t.rows[id].fingerprint == ctx.fingerprint && t.rows[id].status == Processing
                 && t.now <= AcquiredOf(t.rows[id]) + cfg.reclaimMs
  }

  class Service {
    var world: World.State
    const cfg: World.Config
    ghost const quiet: bool
    ghost var answers: seq<BeginResult>   // what Begin has answered so far
    ghost var looks: nat                  // how often it has looked for the key's row

    constructor (cfg: World.Config, ghost quiet: bool, world: World.State)
      ensures this.cfg == cfg && this.quiet == quiet && this.world == world && answers == [] && looks == 0
    {
      this.cfg, this.quiet, this.world, answers, looks := cfg, quiet, world, [], 0;
    }

    /** The contract every query and every pause between queries keeps: the world got here by a run. */
    twostate predicate Advanced()
      reads this
    {
      World.Inv(cfg, world) && World.Reaches(cfg, old(world), world)
    }

    method Yield()
      requires World.Inv(cfg, world)
      modifies this`world
      ensures Advanced()
      ensures quiet ==> world == old(world)
    {
      World.ReachesSelf(cfg, world);
    }

    method FindByKey(user: Id, key: Id) returns (found: Option<(Id, Row)>)
      ensures found.None? ==> !HasKey(world.idem, user, key)
      ensures found.Some? ==> found.value.0 in world.idem.rows && world.idem.rows[found.value.0] == found.value.1
                              && SameKey(found.value.1, user, key)
    {
      if id :| id in world.idem.rows && SameKey(world.idem.rows[id], user, key) {
        found := Some((id, world.idem.rows[id]));
      } else {
        found := None;
      }
    }

    /** The insert of a reservation; the unique index on (user, key) decides races. */
    method Create(ctx: Context) returns (id: Option<Id>)
      requires World.Inv(cfg, world)
      modifies this`world
      ensures Advanced()
      ensures id.Some? ==> id.value !in old(world).idem.births && Justified(world.idem, ctx, Proceed(id.value, 1))
      ensures quiet ==> (id.None? <==> HasKey(old(world).idem, ctx.user, ctx.key))
      ensures quiet && id.Some? ==>
                && id.value !in old(world).idem.births
                && world.idem == Reserve(cfg.idem, old(world).idem, ctx, id.value)
      ensures quiet && id.None? ==> world.idem == old(world).idem
      ensures quiet ==> world.shop == old(world).shop
    {
      var acquired := world.idem.now;
      Yield();
      ghost var t1 := world;
      var created := world.idem.now;
      var expires := world.idem.now;
      Yield();
      ghost var t2 := world;
      World.ReachesTrans(cfg, old(world), t1, t2);
      World.ReachesIsLater(cfg, old(world), t1);
      World.ReachesIsLater(cfg, t1, t2);
      id := InsertRow(ctx, acquired, created, expires);
      World.ReachesTrans(cfg, old(world), t2, world);
    }

    method InsertRow(ctx: Context, acquired: Millis, created: Millis, expires: Millis) returns (id: Option<Id>)
      requires World.Inv(cfg, world) && acquired <= created <= expires <= world.idem.now
      modifies this`world
      ensures Advanced() && world.shop == old(world).shop
      ensures id.None? <==> HasKey(old(world).idem, ctx.user, ctx.key)
      ensures id.None? ==> world == old(world)
      ensures id.Some? ==>
                && id.value !in old(world).idem.births && Justified(world.idem, ctx, Proceed(id.value, 1))
                && world.idem.rows == old(world).idem.rows[id.value :=
                     NewRow(cfg.idem, ctx.user, ctx.key, ctx.fingerprint, acquired, created, expires)]
                && world.idem == old(world).idem.(
                     rows := world.idem.rows,
                     births := old(world).idem.births[id.value :=
                       Birth(ctx.user, ctx.key, ctx.fingerprint, old(world).idem.now)])
    {
      World.ReachesSelf(cfg, world);
      if other :| other in world.idem.rows && SameKey(world.idem.rows[other], ctx.user, ctx.key) {
        return None;
      }
      FreshIdExists(world.idem.births.Keys);
      var newId: nat :| newId !in world.idem.births;
      var row := NewRow(cfg.idem, ctx.user, ctx.key, ctx.fingerprint, acquired, created, expires);
      var birth := Birth(ctx.user, ctx.key, ctx.fingerprint, world.idem.now);
      ghost var insert := Insert(newId, ctx.user, ctx.key, ctx.fingerprint, acquired, created, expires);
      World.TakeStep(cfg, world, world, World.OnIdem(insert));
      world := world.(idem := world.idem.(rows := world.idem.rows[newId := row],
        births := world.idem.births[newId := birth]));
      id := Some(newId);
    }

    /** The claim's compare-and-swap on the fence token. */
    method ClaimCas(id: Id, expected: nat, ctx: Context, mode: ClaimMode) returns (won: bool)
      requires World.Inv(cfg, world) && id in world.idem.births && world.idem.births[id].fingerprint == ctx.fingerprint
      requires id in world.idem.rows && world.idem.rows[id].fenceToken == expected
      modifies this`world
      ensures Advanced()
      ensures won ==> id in world.idem.rows && world.idem.rows[id].fenceToken == expected + 1
      ensures quiet ==>
                var t := old(world).idem;
                && (won <==> id in t.rows && ClaimMatches(cfg.idem, t.rows[id], expected, mode, t.now))
                && world.shop == old(world).shop
                && world.idem ==
                   if won then t.(rows := t.rows[id := Claimed(cfg.idem, t.rows[id], ctx.fingerprint, t.now, t.now)])
                   else t
    {
      var cutoffClock := world.idem.now;
      Yield();
      ghost var t1 := world;
      var acquired := world.idem.now;
      var expires := world.idem.now;
      Yield();
      ghost var t2 := world;
      World.ReachesTrans(cfg, old(world), t1, t2);
      World.ReachesIsLater(cfg, old(world), t1);
      World.ReachesIsLater(cfg, t1, t2);
      ghost var a := Claim(id, expected, ctx.fingerprint, mode, cutoffClock, acquired, expires);
      SnapshotIsOlder(cfg.idem, old(world).idem, t1.idem, t2.idem, id);
      assert Allowed(cfg.idem, t2.idem, a);
      won := id in world.idem.rows && ClaimMatches(cfg.idem, world.idem.rows[id], expected, mode, cutoffClock);
      if won {
        World.TakeStep(cfg, old(world), t2, World.OnIdem(a));
        world := world.(idem := world.idem.(rows :=
          world.idem.rows[id := Claimed(cfg.idem, world.idem.rows[id], ctx.fingerprint, acquired, expires)]));
      }
    }

    /** The compare-and-swap, then a second query that re-reads the row as it is by then. */
    method ClaimRow(id: Id, expected: nat, ctx: Context, mode: ClaimMode) returns (record: Option<(Id, Row)>)
      requires World.Inv(cfg, world) && id in world.idem.births && world.idem.births[id].fingerprint == ctx.fingerprint
      requires id in world.idem.rows && world.idem.rows[id].fenceToken == expected
      modifies this`world
      ensures Advanced()
      ensures record.Some? ==> record.value.0 == id && id in world.idem.rows && world.idem.rows[id] == record.value.1
      ensures record.Some? ==> expected < record.value.1.fenceToken
      ensures quiet ==>
                var t := old(world).idem;
                if ClaimMatches(cfg.idem, t.rows[id], expected, mode, t.now)
                then record.Some? && world.idem ==
                  t.(rows := t.rows[id := Claimed(cfg.idem, t.rows[id], ctx.fingerprint, t.now, t.now)])
                else record.None? && world.idem == t
      ensures quiet ==>
                var was := old(world).idem.rows[id];
                && (record.Some? <==>
                      if mode == FromFailed then was.status == Failed
                      else was.status == Processing && was.acquiredAt.Some?
                           && was.acquiredAt.value + cfg.idem.reclaimMs < old(world).idem.now)
                && (record.Some? ==>
                      && record.value.1.status == Processing && record.value.1.fenceToken == expected + 1
                      && record.value.1.acquiredAt == Some(old(world).idem.now))
      ensures quiet ==> world.shop == old(world).shop
    {
      var won := ClaimCas(id, expected, ctx, mode);
      if !won {
        return None;
      }
      ghost var t1 := world;
      Yield();
      World.ReachesTrans(cfg, old(world), t1, world);
      World.ReachesIsLater(cfg, t1, world);
      record := if id in world.idem.rows then Some((id, world.idem.rows[id])) else None;
      assert record.Some? ==> Evolves(t1.idem.rows[id], world.idem.rows[id]);
    }

    /** None means a claim was lost (or its row is gone): the caller looks once more. */
    method HandleExisting(id: Id, row: Row, ctx: Context) returns (r: Option<BeginResult>)
      requires World.Inv(cfg, world) && id in world.idem.rows && world.idem.rows[id] == row
               && SameKey(row, ctx.user, ctx.key)
      modifies this`world
      ensures Advanced()
      ensures r.Some? ==> Justified(world.idem, ctx, r.value)
      ensures r.Some? && r.value.Proceed? ==> r.value.id == id && 1 <= row.fenceToken < r.value.token
      ensures r == Some(Busy) ==> InProgressNow(cfg.idem, world.idem, ctx) && world.idem == old(world).idem
      ensures quiet && r.Some? ==> QuietExisting(cfg.idem, old(world).idem, ctx, id, r.value, world.idem)
      ensures quiet && r.None? ==> QuietExisting(cfg.idem, old(world).idem, ctx, id, Busy, world.idem)
      ensures quiet ==> world.shop == old(world).shop
    {
      World.ReachesSelf(cfg, world);
      assert RowOk(cfg.idem, world.idem, id) && Last(world.idem, id) == row;
      match Judge(cfg.idem, row, ctx.fingerprint, world.idem.now)
      case Mismatch => return Some(FingerprintMismatch);
      case InProgress => return Some(Busy);
      case ReplayWith(response) =>
        ReplayIsJustified(cfg, world, ctx, id);
        return Some(Replay(response));
      case TryClaim(mode) =>
        var record := ClaimRow(id, row.fenceToken, ctx, mode);
        World.ReachesIsLater(cfg, old(world), world);
        return if record.Some? then Some(Proceed(id, record.value.1.fenceToken)) else None;
    }

    /**
     * Reserve the key, or say why not. Undisturbed, a request whose key is taken proceeds
     * exactly when the row is reservable (a stuck row without an acquisition time is not),
     * and then owns it from this moment on. Disturbed, "busy" means that somebody is at
     * work under the key right now, or that the race for it was lost twice.
     */
    method Begin(ctx: Context) returns (r: BeginResult)
      requires World.Inv(cfg, world)
      modifies this
      ensures Advanced() && answers == old(answers) + [r]
      ensures Justified(world.idem, ctx, r)
      ensures looks <= old(looks) + 2
      ensures r.Busy? && !InProgressNow(cfg.idem, world.idem, ctx) ==> looks == old(looks) + 2
      ensures r.Proceed? ==> 1 <= r.token && (r.id in old(world).idem.births ==> 2 <= r.token)
      ensures quiet ==> QuietBegin(cfg.idem, old(world).idem, ctx, r, world.idem)
      ensures quiet ==> AnsweredByRow(cfg.idem, old(world).idem, ctx, r, world.idem)
      ensures quiet ==> world.shop == old(world).shop
    {
      r := LookTwice(ctx);
      answers := answers + [r];
      if quiet {
        BeginIsAnsweredByRow(cfg.idem, old(world).idem, ctx, r, world.idem);
      }
    }

    method LookTwice(ctx: Context) returns (r: BeginResult)
      requires World.Inv(cfg, world)
      modifies this`world, this`looks
      ensures Advanced()
      ensures Justified(world.idem, ctx, r)
      ensures looks <= old(looks) + 2
      ensures r.Busy? && !InProgressNow(cfg.idem, world.idem, ctx) ==> looks == old(looks) + 2
      ensures r.Proceed? ==> 1 <= r.token && (r.id in old(world).idem.births ==> 2 <= r.token)
      ensures quiet ==> QuietBegin(cfg.idem, old(world).idem, ctx, r, world.idem)
      ensures quiet ==> world.shop == old(world).shop
    {
      Yield();
      ghost var t1 := world;
      World.ReachesIsLater(cfg, old(world), t1);
      looks := looks + 1;
      var existing := FindByKey(ctx.user, ctx.key);
      if existing.Some? {
        var handled := HandleExisting(existing.value.0, existing.value.1, ctx);
        World.ReachesTrans(cfg, old(world), t1, world);
        OnlyRowUnderKey(cfg.idem, t1.idem, existing.value.0);
        if handled.Some? {
          return handled.value;
        }
      } else {
        var created := Create(ctx);
        World.ReachesTrans(cfg, old(world), t1, world);
        if created.Some? {
          return Proceed(created.value, 1);
        }
      }
      r := LookAgain(ctx, old(world));
    }

    /** One more look: the insert or the claim lost a race. */
    method LookAgain(ctx: Context, ghost start: World.State) returns (r: BeginResult)
      requires World.Inv(cfg, start) && World.Inv(cfg, world) && World.Reaches(cfg, start, world)
      modifies this`world, this`looks
      ensures World.Inv(cfg, world) && World.Reaches(cfg, start, world)
      ensures Justified(world.idem, ctx, r) && looks == old(looks) + 1
      ensures r.Proceed? ==> 2 <= r.token
      ensures quiet ==> world.shop == old(world).shop
      ensures quiet && r.Busy? && !HasKey(old(world).idem, ctx.user, ctx.key) ==> world == old(world)
      ensures quiet ==>
                forall id | id in old(world).idem.rows && SameKey(old(world).idem.rows[id], ctx.user, ctx.key) ::
                  QuietExisting(cfg.idem, old(world).idem, ctx, id, r, world.idem)
    {
      Yield();
      ghost var t1 := world;
      World.ReachesTrans(cfg, start, old(world), t1);
      looks := looks + 1;
      var row := FindByKey(ctx.user, ctx.key);
      if row.None? {
        return Busy;
      }
      var handled := HandleExisting(row.value.0, row.value.1, ctx);
      World.ReachesTrans(cfg, start, t1, world);
      OnlyRowUnderKey(cfg.idem, t1.idem, row.value.0);
      return handled.GetOr(Busy);
    }

    /** Fenced completion inside the caller's transaction: false stands for SupersededError. */
    static method FinalizeInTx(tx: Table, id: Id, token: nat, order: Id, data: Response) returns (r: Table, owned: bool)
      ensures owned <==> id in tx.rows && Owns(tx.rows[id], token)
      ensures !owned ==> r == tx
      ensures owned ==>
                && id in r.rows && r == tx.(rows := tx.rows[id := r.rows[id]],
                     commits := tx.commits + [Commit(id, order, data)])
                && r.rows[id] == Finalized(tx.rows[id], data) && ReplayOf(r.rows[id]) == data
    {
      owned := id in tx.rows && tx.rows[id].fenceToken == token && tx.rows[id].status == Processing;
      r := tx;
      if owned {
        var row := tx.rows[id].(status := Completed);
        row := row.(statusCode := Some(data.statusCode), body := Some(data.body));
        row := row.(resourceType := data.resourceType, resourceId := data.resourceId);
        r := tx.(rows := tx.rows[id := row], commits := tx.commits + [Commit(id, order, data)]);
      }
    }

    /** Whether a best-effort write is lost to the database. */
    method Faults() returns (failed: bool)
      ensures quiet ==> !failed
    {
      failed := false;
    }

    /** Fenced and best effort: a superseded caller, or a failing database, changes nothing. */
    method MarkFailed(id: Id, token: nat, error: string)
      requires World.Inv(cfg, world)
      modifies this`world
      ensures Advanced() && world.shop == old(world).shop
      ensures world.idem == old(world).idem
              || world.idem == Step(cfg.idem, old(world).idem, Action.MarkFailed(id, token, error))
      ensures quiet ==> world.idem == Step(cfg.idem, old(world).idem, Action.MarkFailed(id, token, error))
    {
      World.ReachesSelf(cfg, world);
      var failed := Faults();
      if !failed && id in world.idem.rows && world.idem.rows[id].fenceToken == token
         && world.idem.rows[id].status == Processing {
        world := world.(idem := world.idem.(rows :=
          world.idem.rows[id := world.idem.rows[id].(status := Failed, lastError := Some(error))]));
        World.TakeStep(cfg, old(world), old(world), World.OnIdem(Action.MarkFailed(id, token, error)));
      }
    }

    /** After losing the row: the winner's response if there is one, otherwise still in progress. */
    method ResolveAfterSupersession(user: Id, key: Id) returns (r: BeginResult)
      requires World.Inv(cfg, world)
      ensures r.Replay? || r.Busy?
      ensures r.Replay? ==> exists id, c :: id in world.idem.rows && SameKey(world.idem.rows[id], user, key)
                              && c in world.idem.commits && c.row == id && c.response == r.response
      ensures r.Busy? ==> forall id | id in world.idem.rows && SameKey(world.idem.rows[id], user, key) ::
                world.idem.rows[id].status != Completed
    {
      var found := FindByKey(user, key);
      if found.Some? {
        OnlyRowUnderKey(cfg.idem, world.idem, found.value.0);
      }
      if found.Some? && found.value.1.status == Completed {
        ghost var id := found.value.0;
        assert RowOk(cfg.idem, world.idem, id) && Last(world.idem, id) == world.idem.rows[id]
               && Committed(world.idem, id);
        ghost var c :| c in world.idem.commits && c.row == id;
        assert CommitOk(world.idem, c);
        return Replay(ReplayOf(found.value.1));
      }
      return Busy;
    }
  }

  /** As long as the fence stays, so does the acquisition time the request's clock reading was later than. */
  lemma {:induction false} SnapshotIsOlder(cfg: Config, t: Table, u: Table, v: Table, id: Id)
    requires Inv(cfg, t) && Inv(cfg, u) && Inv(cfg, v) && Later(t, u) && Later(u, v) && id in t.rows
    ensures id in v.rows && v.rows[id].fenceToken == t.rows[id].fenceToken && v.rows[id].acquiredAt.Some? ==>
              v.rows[id].acquiredAt.value <= t.now
  {
    LaterTrans(cfg, t, u, v);
    assert RowOk(cfg, t, id);
    if id in v.rows {
      assert Evolves(t.rows[id], v.rows[id]);
    }
  }

  /** The table after an undisturbed insert: all clock reads see the same instant. */
  function Reserve(cfg: Config, t: Table, ctx: Context, id: Id): Table {
    t.(rows := t.rows[id := NewRow(cfg, ctx.user, ctx.key, ctx.fingerprint, t.now, t.now, t.now)],
       births := t.births[id := Birth(ctx.user, ctx.key, ctx.fingerprint, t.now)])
  }

  lemma {:induction false} OnlyRowUnderKey(cfg: Config, t: Table, id: Id)
    requires Inv(cfg, t) && id in t.rows
    ensures forall x | x in t.rows && SameKey(t.rows[x], t.rows[id].user, t.rows[id].key) :: x == id
  {
    forall x | x in t.rows && SameKey(t.rows[x], t.rows[id].user, t.rows[id].key) ensures x == id {
      assert !Clash(t, x, id);
    }
  }
}
