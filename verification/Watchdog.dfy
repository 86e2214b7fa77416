/** The uptime watchdog: two counters and a state, against a reading of the whole probe history. */
module Watchdog {
  import opened Options

  datatype Site = Up | Down

  /** Both thresholds are at least one. */
  datatype Config = Config(fail: nat, recovery: nat) {
    predicate Valid() {
      fail >= 1 && recovery >= 1
    }
  }

  datatype State = State(failures: nat, successes: nat, site: Site)

  const START := State(0, 0, Up)

  /** One probe result: the counters, the state, and whether a down alert goes out. */
  function Step(c: Config, s: State, ok: bool): State {
    if ok then
      State(0, s.successes + 1, if s.site == Down && s.successes + 1 >= c.recovery then Up else s.site)
    else
      State(s.failures + 1, 0, if s.site == Up && s.failures + 1 >= c.fail then Down else s.site)
  }

  predicate Alerts(c: Config, s: State, ok: bool) {
    s.site == Up && Step(c, s, ok).site == Down
  }

  /** The state after a history of probe results, and the number of down alerts sent. */
  function After(c: Config, h: seq<bool>): State {
    if h == [] then START else Step(c, After(c, h[..|h| - 1]), h[|h| - 1])
  }

  function DownAlerts(c: Config, h: seq<bool>): nat {
    if h == [] then 0
    else DownAlerts(c, h[..|h| - 1]) + if Alerts(c, After(c, h[..|h| - 1]), h[|h| - 1]) then 1 else 0
  }

  // ----- The history, read declaratively -----

  /** The `n` probes up to and including number `i` all had result `ok`. */
  predicate Completes(h: seq<bool>, i: nat, ok: bool, n: nat) {
    n <= i <= |h| && forall j | i - n <= j < i :: h[j] == ok
  }

  /** The number of the last probe that completes `n` results `ok` in a row; zero when there is none. */
  ghost predicate LastCompletion(h: seq<bool>, ok: bool, n: nat, last: nat) {
    && (last == 0 || Completes(h, last, ok, n))
    && (forall i | last < i <= |h| :: !Completes(h, i, ok, n))
  }

  function FindLast(h: seq<bool>, ok: bool, n: nat): (last: nat)
    ensures last <= |h|
  {
    if h == [] then 0
    else if Completes(h, |h|, ok, n) then |h|
    else FindLast(h[..|h| - 1], ok, n)
  }

  lemma {:induction false} FindLastIsLast(h: seq<bool>, ok: bool, n: nat)
    ensures LastCompletion(h, ok, n, FindLast(h, ok, n))
  {
    if h != [] && !Completes(h, |h|, ok, n) {
      var front := h[..|h| - 1];
      FindLastIsLast(front, ok, n);
      forall i: nat | i < |h| ensures Completes(h, i, ok, n) <==> Completes(front, i, ok, n) {
      }
    }
  }

  lemma LastCompletionUnique(h: seq<bool>, ok: bool, n: nat, a: nat, b: nat)
    requires LastCompletion(h, ok, n, a) && LastCompletion(h, ok, n, b)
    ensures a == b
  {
  }

  /** The counters are the lengths of the current runs. */
  ghost predicate CountersAgree(c: Config, h: seq<bool>) {
    var s := After(c, h);
    && (forall n: nat :: Completes(h, |h|, false, n) <==> n <= s.failures)
    && (forall n: nat :: Completes(h, |h|, true, n) <==> n <= s.successes)
  }

  lemma {:induction false} CountersAreRuns(c: Config, h: seq<bool>)
    ensures CountersAgree(c, h)
  {
    if h != [] {
      var front := h[..|h| - 1];
      CountersAreRuns(c, front);
      forall n: nat, ok: bool
        ensures Completes(h, |h|, ok, n) <==> n == 0 || (h[|h| - 1] == ok && Completes(front, |front|, ok, n - 1))
      {
        RunGrows(h, ok, n);
      }
    }
  }

  lemma RunGrows(h: seq<bool>, ok: bool, n: nat)
    requires h != []
    ensures var front := h[..|h| - 1];
      Completes(h, |h|, ok, n) <==> n == 0 || (h[|h| - 1] == ok && Completes(front, |front|, ok, n - 1))
  {
    var front := h[..|h| - 1];
    if n > 0 && Completes(h, |h|, ok, n) {
      forall j | |front| - (n - 1) <= j < |front| ensures front[j] == ok {
        assert h[j] == ok;
      }
    }
  }

  /** The site counts as down exactly when the last F failures in a row came after the last R successes in a row. */
  lemma {:induction false} DownMeansFailuresCameLast(c: Config, h: seq<bool>)
    requires c.Valid()
    ensures After(c, h).site == Down <==> FindLast(h, false, c.fail) > FindLast(h, true, c.recovery)
  {
    if h != [] {
      var front, ok := h[..|h| - 1], h[|h| - 1];
      DownMeansFailuresCameLast(c, front);
      CountersAreRuns(c, h);
      RunGrows(h, !ok, if ok then c.fail else c.recovery);
    }
  }

  lemma DownMeansLaterCompletion(c: Config, h: seq<bool>, failed: nat, recovered: nat)
    requires c.Valid()
    requires LastCompletion(h, false, c.fail, failed) && LastCompletion(h, true, c.recovery, recovered)
    ensures After(c, h).site == Down <==> failed > recovered
  {
    FindLastIsLast(h, false, c.fail);
    FindLastIsLast(h, true, c.recovery);
    LastCompletionUnique(h, false, c.fail, failed, FindLast(h, false, c.fail));
    LastCompletionUnique(h, true, c.recovery, recovered, FindLast(h, true, c.recovery));
    DownMeansFailuresCameLast(c, h);
  }

  // ----- How many alerts a history can raise -----

  /** The least number of probes behind `n` alerts: `n` down streaks with a recovery between any two. */
  function LeastProbes(c: Config, n: nat): nat {
    if n == 0 then 0 else n * c.fail + (n - 1) * c.recovery
  }

  lemma LeastProbesGrows(c: Config, n: nat)
    ensures LeastProbes(c, n + 1) == LeastProbes(c, n) + c.fail + if n == 0 then 0 else c.recovery
  {
  }

  lemma {:induction false} AlertsNeedProbes(c: Config, h: seq<bool>)
    requires c.Valid()
    ensures LeastProbes(c, DownAlerts(c, h)) <= |h|
    ensures var s, n := After(c, h), DownAlerts(c, h);
      if s.site == Down then
        n > 0 && LeastProbes(c, n) + (if s.successes < c.recovery then s.successes else c.recovery) <= |h|
      else LeastProbes(c, n) + (if n == 0 then 0 else c.recovery) + s.failures <= |h| && s.failures < c.fail
  {
    if h != [] {
      AlertsNeedProbes(c, h[..|h| - 1]);
      LeastProbesGrows(c, DownAlerts(c, h[..|h| - 1]));
    }
  }

  function Repeat(ok: bool, n: nat): seq<bool> {
    seq(n, _ => ok)
  }

  lemma {:induction false} FailuresDown(c: Config, h: seq<bool>, n: nat)
    requires c.Valid() && After(c, h).site == Up && After(c, h).failures == 0 && n <= c.fail
    ensures var s := After(c, h + Repeat(false, n));
      s.site == (if n == c.fail then Down else Up) && s.failures == n && (n > 0 ==> s.successes == 0)
    ensures DownAlerts(c, h + Repeat(false, n)) == DownAlerts(c, h) + if n == c.fail then 1 else 0
  {
    if n == 0 {
      assert h + Repeat(false, 0) == h;
    } else {
      FailuresDown(c, h, n - 1);
      assert (h + Repeat(false, n))[..|h| + n - 1] == h + Repeat(false, n - 1);
    }
  }

  lemma {:induction false} SuccessesUp(c: Config, h: seq<bool>, n: nat)
    requires c.Valid() && After(c, h).site == Down && After(c, h).successes == 0 && n <= c.recovery
    ensures var s := After(c, h + Repeat(true, n));
      s.site == (if n == c.recovery then Up else Down) && s.successes == n && (n > 0 ==> s.failures == 0)
    ensures DownAlerts(c, h + Repeat(true, n)) == DownAlerts(c, h)
  {
    if n == 0 {
      assert h + Repeat(true, 0) == h;
    } else {
      SuccessesUp(c, h, n - 1);
      assert (h + Repeat(true, n))[..|h| + n - 1] == h + Repeat(true, n - 1);
    }
  }

  /** The bound is tight: some history of exactly that length raises `n` alerts. */
  lemma {:induction false} AlertBoundIsTight(c: Config, n: nat) returns (h: seq<bool>)
    requires c.Valid()
    ensures |h| == LeastProbes(c, n) && DownAlerts(c, h) == n
    ensures n > 0 ==> After(c, h).site == Down && After(c, h).successes == 0
    ensures n == 0 ==> h == []
  {
    if n == 0 {
      h := [];
    } else {
      var before := AlertBoundIsTight(c, n - 1);
      LeastProbesGrows(c, n - 1);
      if n > 1 {
        SuccessesUp(c, before, c.recovery);
        before := before + Repeat(true, c.recovery);
      }
      FailuresDown(c, before, c.fail);
      h := before + Repeat(false, c.fail);
    }
  }

  // ----- The process -----

  class Process {
    const config: Config
    var consecutiveFailures: nat
    var consecutiveSuccesses: nat
    var currentState: Site
    var lastDownAt: Option<int>
    ghost var history: seq<bool>

    ghost predicate Valid()
      reads this
    {
      && config.Valid()
      && State(consecutiveFailures, consecutiveSuccesses, currentState) == After(config, history)
      && (lastDownAt.Some? <==> currentState == Down)
    }

    constructor (config: Config)
      requires config.Valid()
      ensures Valid() && this.config == config && history == []
    {
      this.config := config;
      consecutiveFailures, consecutiveSuccesses := 0, 0;
      currentState, lastDownAt := Up, None;
      history := [];
    }

    /** `tick` after its probe, at time `now`, with recovery messages off. */
    method Tick(ok: bool, now: int) returns (alert: bool)
      requires Valid()
      modifies this
      ensures Valid() && history == old(history) + [ok]
      ensures currentState == Down <==> FindLast(history, false, config.fail) > FindLast(history, true, config.recovery)
      ensures alert <==> old(currentState) == Up && currentState == Down
      ensures DownAlerts(config, history) == DownAlerts(config, old(history)) + if alert then 1 else 0
      ensures lastDownAt == if alert then Some(now) else if currentState == Down then old(lastDownAt) else None
    {
      ghost var before := history;
      history := history + [ok];
      assert history[..|before|] == before;
      DownMeansFailuresCameLast(config, history);
      alert := false;
      if ok {
        consecutiveFailures := 0;
        consecutiveSuccesses := consecutiveSuccesses + 1;
        if currentState == Down && consecutiveSuccesses >= config.recovery {
          currentState := Up;
          lastDownAt := None;
        }
      } else {
        consecutiveSuccesses := 0;
        consecutiveFailures := consecutiveFailures + 1;
        if currentState == Up && consecutiveFailures >= config.fail {
          currentState := Down;
          lastDownAt := Some(now);
          alert := true;
        }
      }
    }
  }
}
