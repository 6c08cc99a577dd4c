/**
 * Who holds which fence token. A claim is two queries: the compare-and-swap, and a
 * re-read that tells the request which token it goes on with. Requests are followed
 * from their insert or winning claim to their finalize.
 */
module Holders {
  import opened Base
  import I = Idempotency

  type Request = nat

  /** A request between its winning compare-and-swap and its re-read. */
  datatype Win = Win(id: I.Id, expected: nat)

  datatype Hold = Hold(id: I.Id, token: nat)

  datatype State = State(
    table: I.Table, won: map<Request, Win>, held: map<Request, Hold>, committed: map<Request, I.Id>)

  datatype Action =
    | Other(a: I.Action)                                            // the clock and the sweep
    | Reserve(r: Request, a: I.Action)
    | Swap(r: Request, a: I.Action)
    | Reread(r: Request)
    | Finalize(r: Request, order: I.Id, response: I.Response)
    | MarkFailed(r: Request, error: string)

  predicate IsNew(s: State, r: Request) { r !in s.won && r !in s.held }

  predicate Wins(cfg: I.Config, t: I.Table, a: I.Action) {
    a.Claim? && a.id in t.rows && I.ClaimMatches(cfg, t.rows[a.id], a.expected, a.mode, a.cutoffClock)
  }

  /** The query a request sends to the table; the re-read changes nothing there. */
  function Query(s: State, a: Action): Option<I.Action> {
    match a
    case Other(i) => Some(i)
    case Reserve(_, i) => Some(i)
    case Swap(_, i) => Some(i)
    case Reread(_) => None
    case Finalize(r, order, response) =>
      if r in s.held then Some(I.Finalize(s.held[r].id, s.held[r].token, order, response)) else None
    case MarkFailed(r, error) =>
      if r in s.held then Some(I.Action.MarkFailed(s.held[r].id, s.held[r].token, error)) else None
  }

  predicate Allowed(cfg: I.Config, s: State, a: Action) {
    && (Query(s, a).Some? ==> I.Allowed(cfg, s.table, Query(s, a).value))
    && match a
       case Other(i) => i.Tick? || i.Sweep?
       case Reserve(r, i) => IsNew(s, r) && i.Insert?
       case Swap(r, i) => IsNew(s, r) && i.Claim?
       case Reread(r) => r in s.won
       case Finalize(r, _, _) => r in s.held && r !in s.committed
       case MarkFailed(r, _) => r in s.held
  }

  function Step(cfg: I.Config, s: State, a: Action): State
    requires Allowed(cfg, s, a)
  {
    var u := if Query(s, a).Some? then s.(table := I.Step(cfg, s.table, Query(s, a).value)) else s;
    match a
    case Reserve(r, i) => u.(held := s.held[r := Hold(i.id, 1)])
    case Swap(r, i) => if Wins(cfg, s.table, i) then u.(won := s.won[r := Win(i.id, i.expected)]) else u
    case Reread(r) =>
      var id := s.won[r].id;
      State(s.table, s.won - {r},
            if id in s.table.rows then s.held[r := Hold(id, s.table.rows[id].fenceToken)] else s.held, s.committed)
    case Finalize(r, order, _) =>
      var h := s.held[r];
      if h.id in s.table.rows && I.Owns(s.table.rows[h.id], h.token) then u.(committed := s.committed[r := order])
         else u
    case _ => u
  }

  ghost predicate AllowedRun(cfg: I.Config, s: State, acts: seq<Action>)
    decreases |acts|
  {
    acts == [] || (Allowed(cfg, s, acts[0]) && AllowedRun(cfg, Step(cfg, s, acts[0]), acts[1..]))
  }

  ghost function Run(cfg: I.Config, s: State, acts: seq<Action>): State
    requires AllowedRun(cfg, s, acts)
    decreases |acts|
  {
    if acts == [] then s else Run(cfg, Step(cfg, s, acts[0]), acts[1..])
  }

  ghost predicate Init(cfg: I.Config, s: State) {
    I.Init(cfg, s.table) && s.won == map[] && s.held == map[] && s.committed == map[]
  }

  // ---- what a re-read returns ----

  lemma {:induction false} StepIsLater(cfg: I.Config, s: State, a: Action)
    requires I.Inv(cfg, s.table) && Allowed(cfg, s, a)
    ensures I.Inv(cfg, Step(cfg, s, a).table) && I.Later(s.table, Step(cfg, s, a).table)
  {
    if Query(s, a).Some? {
      I.StepKeepsInv(cfg, s.table, Query(s, a).value);
      I.StepIsLater(cfg, s.table, Query(s, a).value);
    }
  }

  lemma {:induction false} RunIsLater(cfg: I.Config, s: State, acts: seq<Action>)
    requires I.Inv(cfg, s.table) && AllowedRun(cfg, s, acts)
    ensures I.Inv(cfg, Run(cfg, s, acts).table) && I.Later(s.table, Run(cfg, s, acts).table)
    decreases |acts|
  {
    if acts != [] {
      var u := Step(cfg, s, acts[0]);
      StepIsLater(cfg, s, acts[0]);
      RunIsLater(cfg, u, acts[1..]);
      I.LaterTrans(cfg, s.table, u.table, Run(cfg, s, acts).table);
    }
  }

  /** Some claim of the row wins along the run. */
  ghost predicate ClaimWins(cfg: I.Config, s: State, acts: seq<Action>, id: I.Id)
    requires AllowedRun(cfg, s, acts)
    decreases |acts|
  {
    acts != [] && ((acts[0].Swap? && acts[0].a.id == id && Wins(cfg, s.table, acts[0].a))
      || ClaimWins(cfg, Step(cfg, s, acts[0]), acts[1..], id))
  }

  /** The fence stays exactly while no claim of the row wins. */
  lemma {:induction false} FenceStaysIff(cfg: I.Config, s: State, acts: seq<Action>, id: I.Id)
    requires I.Inv(cfg, s.table) && AllowedRun(cfg, s, acts) && id in s.table.rows && id in Run(cfg, s, acts).table.rows
    ensures s.table.rows[id].fenceToken <= Run(cfg, s, acts).table.rows[id].fenceToken
    ensures s.table.rows[id].fenceToken == Run(cfg, s, acts).table.rows[id].fenceToken <==> !ClaimWins(cfg, s, acts, id)
    decreases |acts|
  {
    if acts != [] {
      var u := Step(cfg, s, acts[0]);
      StepIsLater(cfg, s, acts[0]);
      RunIsLater(cfg, u, acts[1..]);
      StillStored(cfg, s, acts[0], u.table, Run(cfg, u, acts[1..]).table, id);
      FenceStaysIff(cfg, u, acts[1..], id);
      StepFence(cfg, s, acts[0], id);
    }
  }

  /** A row that is stored later on is stored now: swept rows do not come back. */
  lemma {:induction false} StillStored(cfg: I.Config, s: State, a: Action, t: I.Table, u: I.Table, id: I.Id)
    requires I.Inv(cfg, s.table) && I.Inv(cfg, t) && I.Inv(cfg, u) && I.Later(s.table, t) && I.Later(t, u)
    requires id in s.table.rows && id in u.rows
    ensures id in t.rows
  {
    assert id in s.table.births && id in t.births;
  }

  lemma {:induction false} StepFence(cfg: I.Config, s: State, a: Action, id: I.Id)
    requires I.Inv(cfg, s.table) && Allowed(cfg, s, a) && id in s.table.rows && id in Step(cfg, s, a).table.rows
    ensures Step(cfg, s, a).table.rows[id].fenceToken
            == s.table.rows[id].fenceToken + if a.Swap? && a.a.id == id && Wins(cfg, s.table, a.a) then 1 else 0
  {
    if Query(s, a).Some? {
      QueryFence(cfg, s.table, Query(s, a).value, id);
    }
  }

  lemma {:induction false} QueryFence(cfg: I.Config, t: I.Table, i: I.Action, id: I.Id)
    requires I.Inv(cfg, t) && I.Allowed(cfg, t, i) && id in t.rows && id in I.Step(cfg, t, i).rows
    ensures I.Step(cfg, t, i).rows[id].fenceToken ==
            t.rows[id].fenceToken + if Wins(cfg, t, i) && i.id == id then 1 else 0
  {
    assert I.RowOk(cfg, t, id);
  }

  /**
   * A winning claim goes on with its own token, the expected one plus one, exactly when
   * no other claim of the row wins between its compare-and-swap and its re-read.
   */
  lemma {:induction false} RereadIsOwnIff(cfg: I.Config, s: State, r: Request, a: I.Action, acts: seq<Action>)
    requires I.Inv(cfg, s.table) && Allowed(cfg, s, Swap(r, a)) && Wins(cfg, s.table, a)
    requires AllowedRun(cfg, Step(cfg, s, Swap(r, a)), acts) && Reread(r) !in acts
    requires a.id in Run(cfg, Step(cfg, s, Swap(r, a)), acts).table.rows
    ensures var won := Step(cfg, s, Swap(r, a));
            var u := Run(cfg, won, acts);
            && Allowed(cfg, u, Reread(r))
            && var v := Step(cfg, u, Reread(r));
               && r in v.held && v.held[r].id == a.id && a.expected + 1 <= v.held[r].token
               && (v.held[r].token == a.expected + 1 <==> !ClaimWins(cfg, won, acts, a.id))
  {
    var won := Step(cfg, s, Swap(r, a));
    StepIsLater(cfg, s, Swap(r, a));
    StillWaiting(cfg, won, acts, r);
    FenceStaysIff(cfg, won, acts, a.id);
  }

  lemma {:induction false} StillWaiting(cfg: I.Config, s: State, acts: seq<Action>, r: Request)
    requires AllowedRun(cfg, s, acts) && r in s.won && Reread(r) !in acts
    ensures r in Run(cfg, s, acts).won && Run(cfg, s, acts).won[r] == s.won[r]
    decreases |acts|
  {
    if acts != [] {
      assert acts[0] in acts;
      assert Reread(r) !in acts[1..];
      StillWaiting(cfg, Step(cfg, s, acts[0]), acts[1..], r);
    }
  }

  // ---- at most one holder commits ----

  ghost predicate CommittedOk(s: State, r: Request) {
    r in s.committed ==> r in s.held && exists c ::
      c in s.table.commits && c.row == s.held[r].id && c.order == s.committed[r]
  }

  ghost predicate HoldersOk(s: State) {
    && (forall r | r in s.won :: r !in s.held)
    && (forall r :: CommittedOk(s, r))
    && (forall r, q | r in s.committed && q in s.committed && r != q :: s.committed[r] != s.committed[q])
  }

  lemma {:induction false} CommittedStays(cfg: I.Config, s: State, a: Action, r: Request)
    requires I.Inv(cfg, s.table) && HoldersOk(s) && Allowed(cfg, s, a)
    ensures CommittedOk(Step(cfg, s, a), r)
  {
    if r in s.committed {
      OldCommitIsOk(cfg, s, a, r);
    } else if r in Step(cfg, s, a).committed {
      NewCommitIsOk(cfg, s, a);
    }
  }

  lemma {:induction false} HoldsStay(cfg: I.Config, s: State, a: Action, r: Request)
    requires I.Inv(cfg, s.table) && HoldersOk(s) && Allowed(cfg, s, a) && r in s.committed && r in s.held
    ensures var u := Step(cfg, s, a);
            && r in u.committed && u.committed[r] == s.committed[r] && r in u.held && u.held[r] == s.held[r]
            && s.table.commits <= u.table.commits
  {
    StepIsLater(cfg, s, a);
  }

  lemma {:induction false} OldCommitIsOk(cfg: I.Config, s: State, a: Action, r: Request)
    requires I.Inv(cfg, s.table) && HoldersOk(s) && Allowed(cfg, s, a) && r in s.committed
    ensures CommittedOk(Step(cfg, s, a), r)
  {
    assert CommittedOk(s, r);
    HoldsStay(cfg, s, a, r);
    var c :| c in s.table.commits && c.row == s.held[r].id && c.order == s.committed[r];
    assert c in Step(cfg, s, a).table.commits;
  }

  lemma {:induction false} NewCommitIsOk(cfg: I.Config, s: State, a: Action)
    requires Allowed(cfg, s, a) && a.Finalize? && a.r in Step(cfg, s, a).committed
    ensures CommittedOk(Step(cfg, s, a), a.r)
  {
    assert I.Commit(s.held[a.r].id, a.order, a.response) in Step(cfg, s, a).table.commits;
  }

  lemma {:induction false} StepKeepsHolders(cfg: I.Config, s: State, a: Action)
    requires I.Inv(cfg, s.table) && HoldersOk(s) && Allowed(cfg, s, a)
    ensures HoldersOk(Step(cfg, s, a))
  {
    var u := Step(cfg, s, a);
    forall r ensures CommittedOk(u, r) {
      CommittedStays(cfg, s, a, r);
    }
    forall r, q | r in u.committed && q in u.committed && r != q ensures u.committed[r] != u.committed[q] {
      assert CommittedOk(s, r) && CommittedOk(s, q);
    }
  }

  lemma {:induction false} RunKeepsHolders(cfg: I.Config, s: State, acts: seq<Action>)
    requires I.Inv(cfg, s.table) && HoldersOk(s) && AllowedRun(cfg, s, acts)
    ensures HoldersOk(Run(cfg, s, acts))
    decreases |acts|
  {
    if acts != [] {
      StepIsLater(cfg, s, acts[0]);
      StepKeepsHolders(cfg, s, acts[0]);
      RunKeepsHolders(cfg, Step(cfg, s, acts[0]), acts[1..]);
    }
  }

  /** Of all requests that ever hold a token of one row, the same token or not, at most one commits. */
  lemma {:induction false} OneHolderCommits(cfg: I.Config, start: State, acts: seq<Action>, r: Request, q: Request)
    requires Init(cfg, start) && AllowedRun(cfg, start, acts) && r != q
    requires r in Run(cfg, start, acts).committed && q in Run(cfg, start, acts).committed
    ensures var end := Run(cfg, start, acts);
            r in end.held && q in end.held && end.held[r].id != end.held[q].id
  {
    I.InitKeepsInv(cfg, start.table);
    RunIsLater(cfg, start, acts);
    RunKeepsHolders(cfg, start, acts);
    var end := Run(cfg, start, acts);
    assert CommittedOk(end, r) && CommittedOk(end, q);
    var c :| c in end.table.commits && c.row == end.held[r].id && c.order == end.committed[r];
    var d :| d in end.table.commits && d.row == end.held[q].id && d.order == end.committed[q];
    var i :| 0 <= i < |end.table.commits| && end.table.commits[i] == c;
    var j :| 0 <= j < |end.table.commits| && end.table.commits[j] == d;
    assert i < j ==> I.Apart(end.table, c, d);
    assert j < i ==> I.Apart(end.table, d, c);
  }

  // ---- two holders of one token ----

  ghost predicate Reaches(cfg: I.Config, s: State, u: State) {
    exists acts :: AllowedRun(cfg, s, acts) && Run(cfg, s, acts) == u
  }

  lemma {:induction false} RunConcat(cfg: I.Config, s: State, before: seq<Action>, after: seq<Action>)
    requires AllowedRun(cfg, s, before) && AllowedRun(cfg, Run(cfg, s, before), after)
    ensures AllowedRun(cfg, s, before + after)
    ensures Run(cfg, s, before + after) == Run(cfg, Run(cfg, s, before), after)
    decreases |before|
  {
    if before == [] {
      assert before + after == after;
    } else {
      RunConcat(cfg, Step(cfg, s, before[0]), before[1..], after);
      assert (before + after)[1..] == before[1..] + after;
    }
  }

  lemma {:induction false} ReachesStep(cfg: I.Config, s: State, u: State, a: Action)
    requires Reaches(cfg, s, u) && Allowed(cfg, u, a)
    ensures Reaches(cfg, s, Step(cfg, u, a))
  {
    var before :| AllowedRun(cfg, s, before) && Run(cfg, s, before) == u;
    var acts := [a];
    assert acts[1..] == [] && AllowedRun(cfg, Step(cfg, u, a), []);
    assert AllowedRun(cfg, u, acts) && Run(cfg, u, acts) == Step(cfg, u, a);
    RunConcat(cfg, s, before, acts);
  }

  /** A reservation whose own request has failed, claimed by request 2 but not re-read yet. */
  lemma {:induction false} FirstClaimWon(cfg: I.Config) returns (start: State, s: State)
    ensures Init(cfg, start) && Reaches(cfg, start, s)
    ensures s.won == map[2 := Win(0, 1)] && s.held == map[1 := Hold(0, 1)] && s.committed == map[]
    ensures s.table.now == 0 && s.table.births.Keys == {0} && s.table.births[0].fingerprint == "f" && 0 in s.table.rows
    ensures var row := s.table.rows[0]; row.status == I.Processing && row.fenceToken == 2 && row.acquiredAt == Some(0)
  {
    start := State(I.Table(0, map[], map[], map[], []), map[], map[], map[]);
    assert AllowedRun(cfg, start, []) && Run(cfg, start, []) == start;
    var reserve := Reserve(1, I.Insert(0, 1, 1, "f", 0, 0, 0));
    var s1 := Step(cfg, start, reserve);
    ReachesStep(cfg, start, start, reserve);
    s := FailThenClaim(cfg, start, s1);
  }

  lemma {:induction false} FailThenClaim(cfg: I.Config, start: State, s: State) returns (u: State)
    requires Reaches(cfg, start, s) && s.won == map[] && s.held == map[1 := Hold(0, 1)] && s.table.now == 0
    requires 0 in s.table.births && s.table.births[0].fingerprint == "f"
    requires 0 in s.table.rows && I.Owns(s.table.rows[0], 1) && s.table.rows[0].acquiredAt == Some(0)
    ensures Reaches(cfg, start, u)
    ensures u.won == map[2 := Win(0, 1)] && u.held == s.held && u.committed == s.committed
    ensures u.table.now == 0 && u.table.births == s.table.births && 0 in u.table.rows
    ensures var row := u.table.rows[0]; row.status == I.Processing && row.fenceToken == 2 && row.acquiredAt == Some(0)
  {
    var failed := Step(cfg, s, MarkFailed(1, "no stock"));
    ReachesStep(cfg, start, s, MarkFailed(1, "no stock"));
    var swap := Swap(2, I.Claim(0, 1, "f", I.FromFailed, 0, 0, 0));
    u := Step(cfg, failed, swap);
    ReachesStep(cfg, start, failed, swap);
  }

  /**
   * Fence tokens do not identify a holder: requests 2 and 3 both claim the row, 3 lands
   * between 2's compare-and-swap and 2's re-read, and both go on holding token 3.
   */
  lemma {:induction false} TwoClaimsCanShareAToken(cfg: I.Config) returns (start: State, end: State)
    ensures Init(cfg, start) && Reaches(cfg, start, end)
    ensures 2 in end.held && 3 in end.held && end.held[2] == end.held[3] == Hold(0, 3)
    ensures 0 in end.table.rows && I.Owns(end.table.rows[0], 3)
  {
    var late := cfg.reclaimMs + 1;
    var s;
    start, s := FirstClaimWon(cfg);
    var s1 := Step(cfg, s, Other(I.Tick(late)));
    ReachesStep(cfg, start, s, Other(I.Tick(late)));
    var swap := Swap(3, I.Claim(0, 2, "f", I.FromStuck, late, late, late));
    var s2 := Step(cfg, s1, swap);
    ReachesStep(cfg, start, s1, swap);
    var s3 := Step(cfg, s2, Reread(2));
    ReachesStep(cfg, start, s2, Reread(2));
    end := Step(cfg, s3, Reread(3));
    ReachesStep(cfg, start, s3, Reread(3));
  }
}
