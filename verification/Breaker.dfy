/**
 * The notification sender's circuit breaker as a fold over what the worker lived
 * through, and the timing law that holds over every such history.
 */
module Breaker {
  type Millis = int

  /**
   * A non-permanent failure reads the clock twice: for the is-paused check and, if it
   * trips, for the end of the pause. A Batch starts after its own is-paused check.
   */
  datatype Event = Failure(checked: Millis, paused: Millis) | Success | Permanent | Batch(at: Millis)

  datatype State = State(count: nat, pausedUntil: Millis)

  datatype Config = Config(threshold: nat, pauseMs: nat)

  const FRESH := State(0, 0)

  predicate IsPaused(b: State, clock: Millis) { clock < b.pausedUntil }

  predicate Trips(cfg: Config, b: State, clock: Millis) {
    b.count + 1 >= cfg.threshold && !IsPaused(b, clock)
  }

  function After(cfg: Config, b: State, e: Event): State {
    match e
    case Failure(checked, paused) =>
      State(b.count + 1, if Trips(cfg, b, checked) then paused + cfg.pauseMs else b.pausedUntil)
    case Success => FRESH
    case Permanent => b
    case Batch(_) => b
  }

  function Replay(cfg: Config, h: seq<Event>): State {
    if h == [] then FRESH else After(cfg, Replay(cfg, h[..|h| - 1]), h[|h| - 1])
  }

  predicate TripsAt(cfg: Config, h: seq<Event>, i: nat)
    requires i < |h|
  {
    h[i].Failure? && Trips(cfg, Replay(cfg, h[..i]), h[i].checked)
  }

  /** Within one failure the clock does not run back, and a batch starts only while not paused. */
  predicate EventOk(b: State, e: Event) {
    match e
    case Failure(checked, paused) => 0 <= checked <= paused
    case Batch(at) => 0 <= at && !IsPaused(b, at)
    case _ => true
  }

  ghost predicate WellTimed(cfg: Config, h: seq<Event>)
    decreases |h|
  {
    h == [] || (WellTimed(cfg, h[..|h| - 1]) && EventOk(Replay(cfg, h[..|h| - 1]), h[|h| - 1]))
  }

  /** Failures after the last success: what the counter is meant to count. */
  function FailuresSinceSuccess(h: seq<Event>): nat {
    if h == [] || h[|h| - 1].Success? then 0
    else FailuresSinceSuccess(h[..|h| - 1]) + if h[|h| - 1].Failure? then 1 else 0
  }

  predicate NoSuccessBetween(h: seq<Event>, i: nat, j: nat)
    requires j <= |h|
  {
    forall k | i < k < j :: !h[k].Success?
  }

  /** Trip k still counts at the end of the history. */
  predicate Stands(cfg: Config, h: seq<Event>, k: nat)
    requires k < |h|
  {
    TripsAt(cfg, h, k) && NoSuccessBetween(h, k, |h|)
  }

  lemma {:induction false} CounterCountsFailures(cfg: Config, h: seq<Event>)
    ensures Replay(cfg, h).count == FailuresSinceSuccess(h)
    decreases |h|
  {
    if h != [] {
      CounterCountsFailures(cfg, h[..|h| - 1]);
    }
  }

  lemma {:induction false} PrefixIsWellTimed(cfg: Config, h: seq<Event>, n: nat)
    requires WellTimed(cfg, h) && n <= |h|
    ensures WellTimed(cfg, h[..n])
    ensures n < |h| ==> EventOk(Replay(cfg, h[..n]), h[n])
    decreases |h|
  {
    if n < |h| {
      var shorter := h[..|h| - 1];
      PrefixIsWellTimed(cfg, shorter, n);
      assert shorter[..n] == h[..n];
    } else {
      assert h[..n] == h;
    }
  }

  lemma {:induction false} StandsInPrefix(cfg: Config, h: seq<Event>, n: nat, k: nat)
    requires k < n <= |h|
    ensures Stands(cfg, h[..n], k) <==> TripsAt(cfg, h, k) && NoSuccessBetween(h, k, n)
  {
    assert h[..n][..k] == h[..k];
    if NoSuccessBetween(h[..n], k, n) {
      forall m | k < m < n ensures !h[m].Success? {
        assert h[..n][m] == h[m];
      }
    }
  }

  /** No standing trip's pause outlasts the stored pause end ... */
  lemma {:induction false} PauseCoversTrips(cfg: Config, h: seq<Event>, k: nat)
    requires WellTimed(cfg, h) && k < |h| && Stands(cfg, h, k)
    ensures h[k].paused + cfg.pauseMs <= Replay(cfg, h).pausedUntil
    decreases |h|
  {
    var last := |h| - 1;
    if k < last {
      PrefixIsWellTimed(cfg, h, last);
      StandsInPrefix(cfg, h, last, k);
      PauseCoversTrips(cfg, h[..last], k);
    }
  }

  /** ... and a stored pause end is some standing trip's. */
  lemma {:induction false} PauseHasACause(cfg: Config, h: seq<Event>) returns (k: nat)
    requires Replay(cfg, h).pausedUntil != 0
    ensures k < |h| && Stands(cfg, h, k) && h[k].paused + cfg.pauseMs == Replay(cfg, h).pausedUntil
    decreases |h|
  {
    var last := |h| - 1;
    if TripsAt(cfg, h, last) {
      k := last;
    } else {
      k := PauseHasACause(cfg, h[..last]);
      StandsInPrefix(cfg, h, last, k);
    }
  }

  /**
   * The breaker's law, by history alone: event i trips exactly when it is a failure,
   * at least `threshold` failures have come since the last success (itself included),
   * and every trip since that success is already pauseMs in the past. So the first
   * trip needs the full count, trips are pauseMs apart, and once a pause is over the
   * next failure trips at once.
   */
  lemma {:induction false} TripsIff(cfg: Config, h: seq<Event>, i: nat)
    requires WellTimed(cfg, h) && i < |h|
    ensures TripsAt(cfg, h, i) <==>
              && h[i].Failure?
              && cfg.threshold <= FailuresSinceSuccess(h[..i + 1])
              && forall k | 0 <= k < i && TripsAt(cfg, h, k) && NoSuccessBetween(h, k, i) ::
                   h[k].paused + cfg.pauseMs <= h[i].checked
  {
    PrefixIsWellTimed(cfg, h, i);
    CounterCountsFailures(cfg, h[..i]);
    assert h[..i + 1][..i] == h[..i] && h[..i + 1][i] == h[i];
    var was := Replay(cfg, h[..i]);
    forall k | 0 <= k < i && TripsAt(cfg, h, k) && NoSuccessBetween(h, k, i)
      ensures h[k].paused + cfg.pauseMs <= was.pausedUntil
    {
      StandsInPrefix(cfg, h, i, k);
      PauseCoversTrips(cfg, h[..i], k);
    }
    if was.pausedUntil != 0 {
      var k := PauseHasACause(cfg, h[..i]);
      StandsInPrefix(cfg, h, i, k);
    }
  }

  /** And the sender is paused exactly while some trip since the last success is less than pauseMs ago. */
  lemma {:induction false} PausedIff(cfg: Config, h: seq<Event>, clock: Millis)
    requires WellTimed(cfg, h) && 0 <= clock
    ensures IsPaused(Replay(cfg, h), clock) <==>
              exists k :: 0 <= k < |h| && Stands(cfg, h, k) && clock < h[k].paused + cfg.pauseMs
  {
    if IsPaused(Replay(cfg, h), clock) {
      var k := PauseHasACause(cfg, h);
    }
    forall k | 0 <= k < |h| && Stands(cfg, h, k) ensures h[k].paused + cfg.pauseMs <= Replay(cfg, h).pausedUntil {
      PauseCoversTrips(cfg, h, k);
    }
  }

  /** No batch starts during the pause of a trip, unless a success came in between. */
  lemma {:induction false} NoBatchDuringPause(cfg: Config, h: seq<Event>, i: nat, j: nat)
    requires WellTimed(cfg, h) && i < j < |h|
    requires TripsAt(cfg, h, i) && NoSuccessBetween(h, i, j) && h[j].Batch?
    ensures h[i].paused + cfg.pauseMs <= h[j].at
  {
    PrefixIsWellTimed(cfg, h, j);
    StandsInPrefix(cfg, h, j, i);
    PauseCoversTrips(cfg, h[..j], i);
  }
}
