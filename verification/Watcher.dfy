/**
 The mode watcher: a bounded window over the verdicts of URL-test cycles, the rule that
 recommends mode 2, and the loop that emits the recommendation.

 Times are in milliseconds. The fail rate is a ratio of small integers, so that
 comparing it with 0.70 is comparing ten times the failures with seven times the length.
 */
module Watcher {
  import opened Common

  const WINDOW := 10
  const CONSEC_FAILURES := 7
  const DEBOUNCE_MS := 30_000
  const TIMEOUT_DELAY := 65535

  /** One entry of the history: nil, or a delay and whether it came from the cache. */
  datatype Probe = Nil | Probe(delay: nat, fromCache: bool)

  method IsCycleFailed(hist: seq<Probe>) returns (failed: bool)
    ensures failed <==> hist != [] && forall p :: p in hist ==> !(p.Probe? && !p.fromCache && 0 < p.delay < 65535)
  {
    if |hist| == 0 {
      return false;
    }
    var i := 0;
    while i < |hist|
      invariant 0 <= i <= |hist|
      invariant forall p :: p in hist[..i] ==> !(p.Probe? && !p.fromCache && 0 < p.delay < 65535)
    {
      var h := hist[i];
      if h.Probe? && !h.fromCache && h.delay > 0 && h.delay < TIMEOUT_DELAY {
        return false;
      }
      i := i + 1;
    }
    return true;
  }

  function Last<T>(s: seq<T>, n: nat): (r: seq<T>)
    ensures |r| == if |s| <= n then |s| else n
  {
    if |s| <= n then s else s[|s| - n..]
  }

  method AppendBounded(window: seq<bool>, v: bool, max: nat) returns (r: seq<bool>)
    ensures r == Last(window + [v], max)
  {
    r := window + [v];
    if |r| > max {
      r := r[|r| - max..];
    }
  }

  function Failures(s: seq<bool>): (n: nat)
    ensures n <= |s|
    ensures (forall i :: 0 <= i < |s| ==> s[i]) <==> n == |s|
  {
    if s == [] then 0 else (if s[|s| - 1] then 1 else 0) + Failures(s[..|s| - 1])
  }

  ghost predicate AllTail(s: seq<bool>, n: nat) {
    n <= |s| && forall i :: |s| - n <= i < |s| ==> s[i]
  }

  /** The rule as the source applies it to the window: the last seven cycles failed, or a full
      window holds seven failures. */
  ghost predicate WindowRule(window: seq<bool>) {
    AllTail(window, CONSEC_FAILURES) || (|window| >= WINDOW && 10 * Failures(window) >= 7 * |window|)
  }

  method ShouldRecommendModeTwo(window: seq<bool>) returns (r: bool)
    ensures r <==> WindowRule(window)
  {
    if |window| == 0 {
      return false;
    }
    var consec := 0;
    var i := |window| - 1;
    while i >= 0
      invariant -1 <= i < |window| && consec == |window| - 1 - i
      invariant forall j :: i < j < |window| ==> window[j]
    {
      if !window[i] {
        break;
      }
      consec := consec + 1;
      i := i - 1;
    }
    if consec >= CONSEC_FAILURES {
      return true;
    }
    assert i >= 0 ==> !window[i];
    if |window| < WINDOW {
      return false;
    }
    var failed := 0;
    i := 0;
    while i < |window|
      invariant 0 <= i <= |window| && failed == Failures(window[..i])
    {
      assert window[..i + 1][..i] == window[..i];
      if window[i] {
        failed := failed + 1;
      }
      i := i + 1;
    }
    assert window[..|window|] == window;
    return 10 * failed >= 7 * |window|;
  }

  // ---- The rule over the whole history ----

  /** Said of every verdict so far, with no window: the last seven failed, or there are ten and
      at least seven of the last ten failed. */
  ghost predicate Unhealthy(history: seq<bool>) {
    || AllTail(history, CONSEC_FAILURES)
    || (|history| >= WINDOW && Failures(Last(history, WINDOW)) >= 7)
  }

  lemma WindowDecides(history: seq<bool>)
    ensures var w := Last(history, WINDOW);
            WindowRule(w) <==> Unhealthy(history)
  {
  }

  lemma {:induction false} FailuresSplit(s: seq<bool>, k: nat)
    requires k <= |s|
    ensures Failures(s) == Failures(s[..k]) + Failures(s[k..])
  {
    if k == |s| {
      assert s[..k] == s;
    } else {
      var n := |s| - 1;
      FailuresSplit(s[..n], k);
      assert s[..n][..k] == s[..k] && s[..n][k..] == s[k..][..n - k];
    }
  }

  /** With ten verdicts the count alone decides: seven failures in a row are seven in ten. */
  lemma FullWindowCounts(history: seq<bool>)
    requires |history| >= WINDOW
    ensures Unhealthy(history) <==> Failures(Last(history, WINDOW)) >= 7
  {
    if AllTail(history, CONSEC_FAILURES) {
      var w := Last(history, WINDOW);
      FailuresSplit(w, 3);
      assert forall i :: 0 <= i < |w[3..]| ==> w[3..][i];
    }
  }

  // ---- The loop ----

  /** A cycle: its verdict, the stored mode and the clock when it is handled. */
  datatype Cycle = Cycle(failed: bool, mode: int, now: int)

  function Verdicts(cycles: seq<Cycle>): (r: seq<bool>)
    ensures |r| == |cycles|
  {
    seq(|cycles|, i requires 0 <= i < |cycles| => cycles[i].failed)
  }

  /** When the watcher speaks, given when it last did: a fold over the cycles that keeps no window. */
  ghost function Emits(cycles: seq<Cycle>): (r: seq<int>)
  {
    if cycles == [] then []
    else
      var n := |cycles| - 1;
      var before := Emits(cycles[..n]);
      if Unhealthy(Verdicts(cycles)) && cycles[n].mode == 1 && Quiet(before, cycles[n].now)
      then before + [cycles[n].now] else before
  }

  /** The zero time lies further back than any cool-down. */
  predicate Quiet(emitted: seq<int>, now: int) {
    emitted == [] || now - emitted[|emitted| - 1] >= DEBOUNCE_MS
  }

  method RunModeWatcher(cycles: seq<Cycle>) returns (emitted: seq<int>)
    ensures emitted == Emits(cycles)
  {
    var window := [];
    var lastEmit := None;
    emitted := [];
    var i := 0;
    while i < |cycles|
      invariant 0 <= i <= |cycles|
      invariant window == Last(Verdicts(cycles[..i]), WINDOW)
      invariant emitted == Emits(cycles[..i])
      invariant lastEmit == LastOf(emitted)
    {
      var c := cycles[i];
      CycleStep(cycles, i);
      window := AppendBounded(window, c.failed, WINDOW);
      var recommend := ShouldRecommendModeTwo(window);
      i := i + 1;
      if !recommend {
        continue;
      }
      if lastEmit.Some? && c.now - lastEmit.value < DEBOUNCE_MS {
        continue;
      }
      if c.mode != 1 {
        continue;
      }
      lastEmit := Some(c.now);
      emitted := emitted + [c.now];
    }
    assert cycles[..|cycles|] == cycles;
  }

  function LastOf(emitted: seq<int>): Option<int> { if emitted == [] then None else Some(emitted[|emitted| - 1]) }

  /** What one more cycle does to the window and to the recommendations. */
  lemma CycleStep(cycles: seq<Cycle>, i: nat)
    requires i < |cycles|
    ensures var window := Last(Last(Verdicts(cycles[..i]), WINDOW) + [cycles[i].failed], WINDOW);
            var before := Emits(cycles[..i]);
            && window == Last(Verdicts(cycles[..i + 1]), WINDOW)
            && Emits(cycles[..i + 1])
               == if WindowRule(window) && cycles[i].mode == 1 && Quiet(before, cycles[i].now)
                  then before + [cycles[i].now] else before
  {
    assert cycles[..i + 1][..i] == cycles[..i];
    assert cycles[..i + 1] == cycles[..i] + [cycles[i]];
    WindowSlides(cycles[..i], cycles[i]);
    WindowDecides(Verdicts(cycles[..i + 1]));
  }

  lemma WindowSlides(cycles: seq<Cycle>, c: Cycle)
    ensures Last(Last(Verdicts(cycles), WINDOW) + [c.failed], WINDOW) == Last(Verdicts(cycles + [c]), WINDOW)
  {
  }

  /** Time `t` is that of cycle `i`, which is in mode 1 and leaves the carousel unhealthy. */
  ghost predicate Warrants(cycles: seq<Cycle>, i: nat, t: int) {
    i < |cycles| && cycles[i].now == t && cycles[i].mode == 1 && Unhealthy(Verdicts(cycles[..i + 1]))
  }

  ghost predicate Warranted(cycles: seq<Cycle>, t: int) { exists i: nat :: Warrants(cycles, i, t) }

  /** Every recommendation falls on a cycle in mode 1 after which the carousel counts as
      unhealthy, and no two are less than the cool-down apart. */
  lemma {:induction false} EmissionsAreSound(cycles: seq<Cycle>)
    ensures var e := Emits(cycles);
            && |e| <= |cycles|
            && (forall k :: 0 <= k < |e| - 1 ==> e[k + 1] - e[k] >= DEBOUNCE_MS)
            && (forall k :: 0 <= k < |e| ==> Warranted(cycles, e[k]))
  {
    if cycles != [] {
      var n := |cycles| - 1;
      EmissionsAreSound(cycles[..n]);
      var before, e := Emits(cycles[..n]), Emits(cycles);
      forall k | 0 <= k < |e|
        ensures Warranted(cycles, e[k])
      {
        if k < |before| {
          assert Warranted(cycles[..n], before[k]);
          var i: nat :| Warrants(cycles[..n], i, e[k]);
          assert cycles[..n][..i + 1] == cycles[..i + 1];
          assert Warrants(cycles, i, e[k]);
        } else {
          assert cycles[..n + 1] == cycles;
          assert Warrants(cycles, n, e[k]);
        }
      }
    }
  }
}
