/**
 * The IdempotencyKey table as a shared object: every query is one atomic action,
 * any number of requests and retention sweeps interleave, and a request may stop
 * between two of its queries. `births`, `tombs` and `commits` only remember the
 * past; no action reads them to decide what to do.
 */
module Idempotency {
  import opened Base

  type Id = nat        // uuids, user ids and client keys
  type Millis = int

  datatype Config = Config(retentionMs: nat, reclaimMs: nat)

  datatype Status = Processing | Completed | Failed

  /** What finalize stores and a replay returns. */
  datatype Response = Response(statusCode: int, body: string, resourceType: Option<string>, resourceId: Option<Id>)

  datatype Row = Row(
    user: Id,
    key: Id,
    fingerprint: string,
    status: Status,
    fenceToken: nat,
    acquiredAt: Option<Millis>,   // null on rows older than the column
    createdAt: Millis,
    expiresAt: Millis,
    statusCode: Option<int>,
    body: Option<string>,
    resourceType: Option<string>,
    resourceId: Option<Id>,
    lastError: Option<string>)

  datatype Birth = Birth(user: Id, key: Id, fingerprint: string, at: Millis)
  datatype Tomb = Tomb(row: Row, at: Millis)
  datatype Commit = Commit(row: Id, order: Id, response: Response)

  datatype Table = Table(
    now: Millis,
    rows: map<Id, Row>,
    births: map<Id, Birth>,
    tombs: map<Id, Tomb>,
    commits: seq<Commit>)

  datatype ClaimMode = FromFailed | FromStuck

  datatype Action =
    | Tick(to: Millis)
    | Insert(id: Id, user: Id, key: Id, fingerprint: string, acquired: Millis, created: Millis, expires: Millis)
    | Claim(id: Id, expected: nat, fingerprint: string, mode: ClaimMode, cutoffClock: Millis, acquired: Millis,
      expires: Millis)
    | Finalize(id: Id, token: nat, order: Id, response: Response)
    | MarkFailed(id: Id, token: nat, error: string)
    | Sweep(ids: set<Id>, cutoff: Millis)

  // ---- row-level reads and writes, shared with the service class ----

  /** The age reclaim is measured from: ownership, or creation on legacy rows. */
  function AcquiredOf(r: Row): Millis { r.acquiredAt.GetOr(r.createdAt) }

  predicate IsReclaimable(cfg: Config, r: Row, clock: Millis) { AcquiredOf(r) < clock - cfg.reclaimMs }

  function ReplayOf(r: Row): Response {
    Response(r.statusCode.GetOr(200), r.body.GetOr("{}"), r.resourceType, r.resourceId)
  }

  function NewRow(
      cfg: Config, user: Id, key: Id, fingerprint: string, acquired: Millis, created: Millis, expires: Millis): Row {
    Row(user, key, fingerprint, Processing, 1, Some(acquired), created, expires + cfg.retentionMs, None, None, None,
      None, None)
  }

  /** The WHERE clause of the claim; SQL `<` on a null column never holds. */
  predicate ClaimMatches(cfg: Config, r: Row, expected: nat, mode: ClaimMode, cutoffClock: Millis) {
    && r.fenceToken == expected
    && match mode
       case FromFailed => r.status == Failed
       case FromStuck =>
         r.status == Processing && r.acquiredAt.Some? && r.acquiredAt.value < cutoffClock - cfg.reclaimMs
  }

  function Claimed(cfg: Config, r: Row, fingerprint: string, acquired: Millis, expires: Millis): Row {
    r.(status := Processing, fenceToken := r.fenceToken + 1, acquiredAt := Some(acquired), fingerprint := fingerprint,
       expiresAt := expires + cfg.retentionMs, lastError := None, statusCode := None, resourceType := None,
         resourceId := None)
  }

  predicate Owns(r: Row, token: nat) { r.fenceToken == token && r.status == Processing }

  function Finalized(r: Row, data: Response): Row {
    r.(status := Completed, statusCode := Some(data.statusCode), body := Some(data.body),
       resourceType := data.resourceType, resourceId := data.resourceId)
  }

  datatype Verdict = Mismatch | ReplayWith(response: Response) | TryClaim(mode: ClaimMode) | InProgress

  /** What a request concludes from a snapshot of the row under its key. */
  function Judge(cfg: Config, r: Row, fingerprint: string, clock: Millis): Verdict {
    if r.fingerprint != fingerprint then Mismatch
    else match r.status
         case Completed => ReplayWith(ReplayOf(r))
         case Failed => TryClaim(FromFailed)
         case Processing => if IsReclaimable(cfg, r, clock) then TryClaim(FromStuck) else InProgress
  }

  predicate SameKey(r: Row, user: Id, key: Id) { r.user == user && r.key == key }

  predicate HasKey(t: Table, user: Id, key: Id) { exists id | id in t.rows :: SameKey(t.rows[id], user, key) }

  // ---- the machine ----

  /**
   * What makes an action possible. Clock values were read earlier, in order, and
   * are never ahead of the present. An insert violating the unique (user, key)
   * index is not an action; a claim comes from a request that read the row under the
   * fence it expects, and compared fingerprints, before it read the clock; order ids
   * are fresh.
   */
  predicate Allowed(cfg: Config, t: Table, a: Action) {
    match a
    case Tick(to) => t.now <= to
    case Insert(id, user, key, _, acquired, created, expires) =>
      id !in t.births && !HasKey(t, user, key) && acquired <= created <= expires <= t.now
    case Claim(id, expected, fingerprint, _, cutoffClock, acquired, expires) =>
      && id in t.births && t.births[id].fingerprint == fingerprint && cutoffClock <= acquired <= expires <= t.now
      && (id in t.rows && t.rows[id].fenceToken == expected && t.rows[id].acquiredAt.Some? ==>
            t.rows[id].acquiredAt.value <= cutoffClock)
    case Finalize(_, _, order, _) => forall c | c in t.commits :: c.order != order
    case MarkFailed(_, _, _) => true
    case Sweep(ids, cutoff) => cutoff <= t.now && forall id | id in ids :: id in t.rows && t.rows[id].expiresAt < cutoff
  }

  /** Conditional updates whose WHERE clause misses change nothing (count 0). */
  function Step(cfg: Config, t: Table, a: Action): Table
    requires Allowed(cfg, t, a)
  {
    match a
    case Tick(to) => t.(now := to)
    case Insert(id, user, key, fingerprint, acquired, created, expires) =>
      t.(rows := t.rows[id := NewRow(cfg, user, key, fingerprint, acquired, created, expires)],
         births := t.births[id := Birth(user, key, fingerprint, t.now)])
    case Claim(id, expected, fingerprint, mode, cutoffClock, acquired, expires) =>
      if id in t.rows && ClaimMatches(cfg, t.rows[id], expected, mode, cutoffClock)
      then t.(rows := t.rows[id := Claimed(cfg, t.rows[id], fingerprint, acquired, expires)])
      else t
    case Finalize(id, token, order, response) =>
      if id in t.rows && Owns(t.rows[id], token)
      then t.(rows := t.rows[id := Finalized(t.rows[id], response)],
        commits := t.commits + [Commit(id, order, response)])
      else t
    case MarkFailed(id, token, error) =>
      if id in t.rows && Owns(t.rows[id], token)
      then t.(rows := t.rows[id := t.rows[id].(status := Failed, lastError := Some(error))])
      else t
    case Sweep(ids, _) =>
      t.(rows := t.rows - ids,
         tombs := t.tombs + map id | id in ids :: Tomb(t.rows[id], t.now))
  }

  ghost predicate AllowedRun(cfg: Config, t: Table, acts: seq<Action>)
    decreases |acts|
  {
    acts == [] || (Allowed(cfg, t, acts[0]) && AllowedRun(cfg, Step(cfg, t, acts[0]), acts[1..]))
  }

  ghost function Run(cfg: Config, t: Table, acts: seq<Action>): Table
    requires AllowedRun(cfg, t, acts)
    decreases |acts|
  {
    if acts == [] then t else Run(cfg, Step(cfg, t, acts[0]), acts[1..])
  }

  /** A row expires a retention period after its last acquisition, and never further in the future than that. */
  predicate TimesOk(cfg: Config, r: Row, now: Millis) {
    && (r.acquiredAt.Some? ==> r.acquiredAt.value <= now)
    && AcquiredOf(r) + cfg.retentionMs <= r.expiresAt <= now + cfg.retentionMs
  }

  /** A table to start from: unfinished rows may already be there, legacy ones among them. */
  ghost predicate Init(cfg: Config, t: Table) {
    && t.tombs == map[] && t.commits == [] && t.births.Keys == t.rows.Keys
    && (forall id | id in t.rows ::
          && t.births[id] == Birth(t.rows[id].user, t.rows[id].key, t.rows[id].fingerprint, t.births[id].at)
          && t.births[id].at <= t.now
          && t.rows[id].status != Completed
          && 1 <= t.rows[id].fenceToken
          && TimesOk(cfg, t.rows[id], t.now))
    && UniqueKeys(t)
  }

  // ---- the invariant ----

  ghost predicate Clash(t: Table, a: Id, b: Id) {
    a in t.rows && b in t.rows && a != b && SameKey(t.rows[a], t.rows[b].user, t.rows[b].key)
  }

  ghost predicate UniqueKeys(t: Table) { forall a, b :: !Clash(t, a, b) }

  /** The latest version of a row ever inserted: as stored, or as it was swept. */
  ghost function Last(t: Table, id: Id): Row
    requires id in t.rows || id in t.tombs
  {
    if id in t.rows then t.rows[id] else t.tombs[id].row
  }

  ghost predicate RowOk(cfg: Config, t: Table, id: Id)
    requires id in t.births && (id in t.rows || id in t.tombs)
  {
    var r := Last(t, id);
    && t.births[id] == Birth(r.user, r.key, r.fingerprint, t.births[id].at)
    && t.births[id].at <= t.now
    && 1 <= r.fenceToken
    && TimesOk(cfg, r, t.now)
  }

  /** `c` is the commit of the row it names, and that row still says so. */
  ghost predicate CommitOk(t: Table, c: Commit) {
    && c.row in t.births && (c.row in t.rows || c.row in t.tombs)
    && Last(t, c.row).status == Completed
    && ReplayOf(Last(t, c.row)) == c.response
  }

  ghost predicate Committed(t: Table, id: Id) { exists c :: c in t.commits && c.row == id }

  ghost predicate SameBirthKey(t: Table, a: Id, b: Id) {
    && a in t.births && b in t.births
    && t.births[a].user == t.births[b].user && t.births[a].key == t.births[b].key
  }

  /** The earlier row of a reused key had expired and was gone before the later one was inserted. */
  ghost predicate Before(t: Table, a: Id, b: Id) {
    && a in t.tombs && b in t.births
    && t.tombs[a].row.expiresAt < t.tombs[a].at <= t.births[b].at
  }

  /** Two commits are of different rows and orders; if they share a key, the rows lived one after the other. */
  ghost predicate Apart(t: Table, c: Commit, d: Commit) {
    && c.row != d.row && c.order != d.order
    && (SameBirthKey(t, c.row, d.row) ==> Before(t, c.row, d.row))
  }

  ghost predicate RowsOk(cfg: Config, t: Table) {
    && t.births.Keys == t.rows.Keys + t.tombs.Keys && t.rows.Keys !! t.tombs.Keys
    && (forall id | id in t.births :: RowOk(cfg, t, id))
    && (forall id | id in t.tombs :: t.tombs[id].row.expiresAt < t.tombs[id].at <= t.now)
  }

  ghost predicate SucceedsOk(t: Table, a: Id, b: Id) {
    a in t.tombs && b in t.rows && SameBirthKey(t, a, b) ==> Before(t, a, b)
  }

  ghost predicate KeysOk(t: Table) { UniqueKeys(t) && forall a, b :: SucceedsOk(t, a, b) }

  ghost predicate CommitsOk(t: Table) {
    && (forall c | c in t.commits :: CommitOk(t, c))
    && (forall id | id in t.births && (id in t.rows || id in t.tombs) && Last(t, id).status == Completed ::
         Committed(t, id))
    && (forall i, j | 0 <= i < j < |t.commits| :: Apart(t, t.commits[i], t.commits[j]))
  }

  ghost predicate Inv(cfg: Config, t: Table) { RowsOk(cfg, t) && KeysOk(t) && CommitsOk(t) }

  lemma {:induction false} InitKeepsInv(cfg: Config, t: Table)
    requires Init(cfg, t)
    ensures Inv(cfg, t)
  {
  }

  /** Nothing is forgotten, and the rows that were or become COMPLETED are untouched. */
  ghost predicate KeepsHistory(t: Table, u: Table) {
    && u.commits == t.commits
    && (forall x | x in t.births :: x in u.births && u.births[x] == t.births[x])
    && (forall x | x in t.tombs :: x in u.tombs && u.tombs[x] == t.tombs[x])
    && (forall x | (x in t.rows || x in t.tombs) :: (x in u.rows || x in u.tombs)
          && (Last(t, x).status == Completed || Last(u, x).status == Completed ==> Last(u, x) == Last(t, x)))
    && (forall x | (x in u.rows || x in u.tombs) && Last(u, x).status == Completed :: x in t.rows || x in t.tombs)
  }

  lemma {:induction false} CommitsKept(cfg: Config, t: Table, u: Table)
    requires RowsOk(cfg, t) && CommitsOk(t) && KeepsHistory(t, u)
    ensures CommitsOk(u)
  {
    forall id | id in u.births && (id in u.rows || id in u.tombs) && Last(u, id).status == Completed
      ensures Committed(u, id)
    {
      assert id in t.births && Last(t, id).status == Completed;
      var c :| c in t.commits && c.row == id;
      assert c in u.commits;
    }
    forall c | c in u.commits ensures CommitOk(u, c) {
      assert CommitOk(t, c);
    }
    forall i, j | 0 <= i < j < |u.commits| ensures Apart(u, u.commits[i], u.commits[j]) {
      assert t.commits[i] in t.commits && t.commits[j] in t.commits;
      assert CommitOk(t, t.commits[i]) && CommitOk(t, t.commits[j]) && Apart(t, t.commits[i], t.commits[j]);
    }
  }

  /** Rows change in place: same rows, same keys, same past; time may pass. */
  ghost predicate SameShape(t: Table, u: Table) {
    && u.rows.Keys == t.rows.Keys && u.births == t.births && u.tombs == t.tombs && t.now <= u.now
    && forall id | id in t.rows :: SameKey(u.rows[id], t.rows[id].user, t.rows[id].key)
  }

  lemma {:induction false} ShapeKept(cfg: Config, t: Table, u: Table)
    requires RowsOk(cfg, t) && KeysOk(t) && SameShape(t, u)
    requires forall id | id in t.rows && u.rows[id] != t.rows[id] :: RowOk(cfg, u, id)
    ensures RowsOk(cfg, u) && KeysOk(u)
  {
    forall x | x in u.births ensures RowOk(cfg, u, x) {
      assert RowOk(cfg, t, x);
    }
    forall x, y ensures !Clash(u, x, y) && SucceedsOk(u, x, y) {
      assert !Clash(t, x, y) && SucceedsOk(t, x, y);
    }
  }

  lemma {:induction false} InsertKeepsKeys(cfg: Config, t: Table, a: Action)
    requires RowsOk(cfg, t) && KeysOk(t) && a.Insert? && Allowed(cfg, t, a)
    ensures KeysOk(Step(cfg, t, a))
  {
    var u := Step(cfg, t, a);
    forall x, y ensures !Clash(u, x, y) && SucceedsOk(u, x, y) {
      assert !Clash(t, x, y) && SucceedsOk(t, x, y);
    }
  }

  lemma {:induction false} InsertKeepsHistory(cfg: Config, t: Table, a: Action)
    requires RowsOk(cfg, t) && a.Insert? && Allowed(cfg, t, a)
    ensures KeepsHistory(t, Step(cfg, t, a))
  {
  }

  lemma {:induction false} InsertKeepsInv(cfg: Config, t: Table, a: Action)
    requires Inv(cfg, t) && a.Insert? && Allowed(cfg, t, a)
    ensures Inv(cfg, Step(cfg, t, a))
  {
    var u := Step(cfg, t, a);
    forall x | x in u.births ensures RowOk(cfg, u, x) {
      assert x in t.births ==> RowOk(cfg, t, x);
    }
    InsertKeepsKeys(cfg, t, a);
    InsertKeepsHistory(cfg, t, a);
    CommitsKept(cfg, t, u);
  }

  lemma {:induction false} RewriteKeepsInv(cfg: Config, t: Table, id: Id, r: Row)
    requires Inv(cfg, t) && id in t.rows && t.rows[id].status != Completed && r.status != Completed
    requires SameKey(r, t.rows[id].user, t.rows[id].key) && r.fingerprint == t.rows[id].fingerprint
    requires t.rows[id].fenceToken <= r.fenceToken && TimesOk(cfg, r, t.now)
    ensures Inv(cfg, t.(rows := t.rows[id := r]))
  {
    var u := t.(rows := t.rows[id := r]);
    assert RowOk(cfg, t, id);
    ShapeKept(cfg, t, u);
    CommitsKept(cfg, t, u);
  }

  lemma {:induction false} CommitKeepsApart(cfg: Config, t: Table, u: Table, c: Commit)
    requires Inv(cfg, t) && u.births == t.births && u.tombs == t.tombs && u.commits == t.commits + [c]
    requires c.row in t.rows && t.rows[c.row].status == Processing
    requires forall d | d in t.commits :: d.order != c.order
    ensures forall i, j | 0 <= i < j < |u.commits| :: Apart(u, u.commits[i], u.commits[j])
  {
    forall i, j | 0 <= i < j < |u.commits| ensures Apart(u, u.commits[i], u.commits[j]) {
      var d := t.commits[i];
      assert d in t.commits && CommitOk(t, d);
      if j < |t.commits| {
        assert Apart(t, d, t.commits[j]);
      } else {
        assert RowOk(cfg, t, d.row) && !Clash(t, d.row, c.row) && SucceedsOk(t, d.row, c.row);
        assert RowOk(cfg, t, c.row);
      }
    }
  }

  lemma {:induction false} FinalizeKeepsInv(cfg: Config, t: Table, id: Id, order: Id, data: Response)
    requires Inv(cfg, t) && id in t.rows && t.rows[id].status == Processing
    requires forall c | c in t.commits :: c.order != order
    ensures Inv(cfg, t.(rows := t.rows[id := Finalized(t.rows[id], data)],
              commits := t.commits + [Commit(id, order, data)]))
  {
    var u := t.(rows := t.rows[id := Finalized(t.rows[id], data)], commits := t.commits + [Commit(id, order, data)]);
    assert RowOk(cfg, t, id);
    ShapeKept(cfg, t, u);
    CommitKeepsApart(cfg, t, u, Commit(id, order, data));
    forall x | x in u.births && Last(u, x).status == Completed ensures Committed(u, x) {
      if x == id {
        assert Commit(id, order, data) in u.commits;
      } else {
        var c :| c in t.commits && c.row == x;
        assert c in u.commits;
      }
    }
    forall c | c in u.commits ensures CommitOk(u, c) {
      assert c in t.commits ==> CommitOk(t, c);
    }
  }

  lemma {:induction false} SweepKeepsKeys(cfg: Config, t: Table, u: Table, ids: set<Id>)
    requires RowsOk(cfg, t) && KeysOk(t) && u.births == t.births && u.rows == t.rows - ids && ids <= t.rows.Keys
    requires u.tombs.Keys == t.tombs.Keys + ids
    requires forall x | x in u.tombs :: u.tombs[x] == if x in ids then Tomb(t.rows[x], t.now) else t.tombs[x]
    requires forall x | x in ids :: t.rows[x].expiresAt < t.now
    ensures KeysOk(u)
  {
    forall x, y ensures !Clash(u, x, y) && SucceedsOk(u, x, y) {
      assert !Clash(t, x, y) && SucceedsOk(t, x, y);
      if x in t.rows && y in t.rows {
        assert RowOk(cfg, t, x) && RowOk(cfg, t, y);
      }
    }
  }

  lemma {:induction false} SweepKeepsInv(cfg: Config, t: Table, a: Action)
    requires Inv(cfg, t) && a.Sweep? && Allowed(cfg, t, a)
    ensures Inv(cfg, Step(cfg, t, a))
  {
    var u := Step(cfg, t, a);
    forall x | x in u.births ensures RowOk(cfg, u, x) {
      assert RowOk(cfg, t, x);
    }
    SweepKeepsKeys(cfg, t, u, a.ids);
    CommitsKept(cfg, t, u);
  }

  lemma {:induction false} StepKeepsInv(cfg: Config, t: Table, a: Action)
    requires Inv(cfg, t) && Allowed(cfg, t, a)
    ensures Inv(cfg, Step(cfg, t, a))
  {
    match a
    case Tick(to) =>
      ShapeKept(cfg, t, t.(now := to));
      CommitsKept(cfg, t, t.(now := to));
    case Insert(_, _, _, _, _, _, _) => InsertKeepsInv(cfg, t, a);
    case Claim(id, expected, fingerprint, mode, cutoffClock, acquired, expires) =>
      if id in t.rows && ClaimMatches(cfg, t.rows[id], expected, mode, cutoffClock) {
        assert RowOk(cfg, t, id);
        RewriteKeepsInv(cfg, t, id, Claimed(cfg, t.rows[id], fingerprint, acquired, expires));
      }
    case Finalize(id, token, order, response) =>
      if id in t.rows && Owns(t.rows[id], token) {
        FinalizeKeepsInv(cfg, t, id, order, response);
      }
    case MarkFailed(id, token, error) =>
      if id in t.rows && Owns(t.rows[id], token) {
        assert RowOk(cfg, t, id);
        RewriteKeepsInv(cfg, t, id, t.rows[id].(status := Failed, lastError := Some(error)));
      }
    case Sweep(_, _) => SweepKeepsInv(cfg, t, a);
  }

  // ---- runs ----

  ghost predicate Reaches(cfg: Config, t: Table, u: Table) {
    exists acts :: AllowedRun(cfg, t, acts) && Run(cfg, t, acts) == u
  }

  lemma {:induction false} ReachesSelf(cfg: Config, t: Table)
    ensures Reaches(cfg, t, t)
  {
    assert AllowedRun(cfg, t, []) && Run(cfg, t, []) == t;
  }

  lemma {:induction false} ReachesStep(cfg: Config, t: Table, a: Action)
    requires Allowed(cfg, t, a)
    ensures Reaches(cfg, t, Step(cfg, t, a))
  {
    var acts := [a];
    assert acts[1..] == [];
    assert AllowedRun(cfg, Step(cfg, t, a), []);
    assert AllowedRun(cfg, t, acts) && Run(cfg, t, acts) == Step(cfg, t, a);
  }

  lemma {:induction false} RunConcat(cfg: Config, t: Table, before: seq<Action>, after: seq<Action>)
    requires AllowedRun(cfg, t, before) && AllowedRun(cfg, Run(cfg, t, before), after)
    ensures AllowedRun(cfg, t, before + after)
    ensures Run(cfg, t, before + after) == Run(cfg, Run(cfg, t, before), after)
    decreases |before|
  {
    if before == [] {
      assert before + after == after;
    } else {
      RunConcat(cfg, Step(cfg, t, before[0]), before[1..], after);
      assert (before + after)[1..] == before[1..] + after;
    }
  }

  lemma {:induction false} ReachesTrans(cfg: Config, t: Table, u: Table, v: Table)
    requires Reaches(cfg, t, u) && Reaches(cfg, u, v)
    ensures Reaches(cfg, t, v)
  {
    var before :| AllowedRun(cfg, t, before) && Run(cfg, t, before) == u;
    var after :| AllowedRun(cfg, u, after) && Run(cfg, u, after) == v;
    RunConcat(cfg, t, before, after);
  }

  /** How a row may change while it is stored. */
  ghost predicate Evolves(r: Row, q: Row) {
    && SameKey(q, r.user, r.key) && q.fingerprint == r.fingerprint && q.createdAt == r.createdAt
    && r.fenceToken <= q.fenceToken
    && (r.fenceToken == q.fenceToken ==> q.acquiredAt == r.acquiredAt)
    && (r.acquiredAt.Some? ==> q.acquiredAt.Some? && r.acquiredAt.value <= q.acquiredAt.value)
    && (r.status == Completed ==> q == r)
  }

  /** `u` is `t` some time later: commits and births are kept, swept ids never return. */
  ghost predicate Later(t: Table, u: Table) {
    && t.now <= u.now
    && t.commits <= u.commits
    && (forall id | id in t.births :: id in u.births && u.births[id] == t.births[id])
    && (forall id | id in t.tombs :: id in u.tombs && u.tombs[id] == t.tombs[id])
    && (forall id | id in t.rows && id in u.rows :: Evolves(t.rows[id], u.rows[id]))
  }

  lemma {:induction false} StepEvolves(cfg: Config, t: Table, a: Action, id: Id)
    requires Inv(cfg, t) && Allowed(cfg, t, a) && id in t.rows && id in Step(cfg, t, a).rows
    ensures Evolves(t.rows[id], Step(cfg, t, a).rows[id])
  {
    assert RowOk(cfg, t, id);
  }

  lemma {:induction false} StepIsLater(cfg: Config, t: Table, a: Action)
    requires Inv(cfg, t) && Allowed(cfg, t, a)
    ensures Later(t, Step(cfg, t, a))
  {
    var u := Step(cfg, t, a);
    forall id | id in t.rows && id in u.rows ensures Evolves(t.rows[id], u.rows[id]) {
      StepEvolves(cfg, t, a, id);
    }
    assert t.commits <= u.commits;
    forall id | id in t.births ensures id in u.births && u.births[id] == t.births[id] {
    }
    forall id | id in t.tombs ensures id in u.tombs && u.tombs[id] == t.tombs[id] {
    }
  }

  lemma {:induction false} EvolvesTrans(r: Row, q: Row, s: Row)
    requires Evolves(r, q) && Evolves(q, s)
    ensures Evolves(r, s)
  {
  }

  lemma {:induction false} LaterTrans(cfg: Config, t: Table, u: Table, v: Table)
    requires Inv(cfg, t) && Inv(cfg, u) && Inv(cfg, v) && Later(t, u) && Later(u, v)
    ensures Later(t, v)
  {
    forall id | id in t.rows && id in v.rows ensures Evolves(t.rows[id], v.rows[id]) {
      assert id in u.births && id !in u.tombs;
      EvolvesTrans(t.rows[id], u.rows[id], v.rows[id]);
    }
  }

  lemma {:induction false} RunIsLater(cfg: Config, t: Table, acts: seq<Action>)
    requires Inv(cfg, t) && AllowedRun(cfg, t, acts)
    ensures Inv(cfg, Run(cfg, t, acts)) && Later(t, Run(cfg, t, acts))
    decreases |acts|
  {
    if acts != [] {
      var u := Step(cfg, t, acts[0]);
      StepKeepsInv(cfg, t, acts[0]);
      StepIsLater(cfg, t, acts[0]);
      RunIsLater(cfg, u, acts[1..]);
      LaterTrans(cfg, t, u, Run(cfg, u, acts[1..]));
    }
  }

  lemma {:induction false} ReachesIsLater(cfg: Config, t: Table, u: Table)
    requires Inv(cfg, t) && Reaches(cfg, t, u)
    ensures Inv(cfg, u) && Later(t, u)
  {
    var acts :| AllowedRun(cfg, t, acts) && Run(cfg, t, acts) == u;
    RunIsLater(cfg, t, acts);
  }
}
