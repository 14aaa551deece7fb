// The per-domain delay controller: one step of `compute_next_delay`, and what whole runs of
// observations make of a delay. Milliseconds are reals here; rounding is not modelled.

module Throttle {
  import opened Wrappers

  datatype Settings = Settings(floorMs: real, targetConcurrency: int, maxDelayMs: real)

  datatype Observation = Observation(latencyMs: real, ok: bool, retryAfterS: Option<real>)

  function Max(a: real, b: real): real { if a >= b then a else b }

  function Min(a: real, b: real): real { if a <= b then a else b }

  function Target(s: Settings, o: Observation): real {
    if s.targetConcurrency > 0 then o.latencyMs / s.targetConcurrency as real else o.latencyMs
  }

  function Penalty(current: real, o: Observation): real {
    if o.ok then 0.0
    else match o.retryAfterS
      case Some(r) => r * 1000.0
      case None => current * 2.0
  }

  function ComputeNextDelay(s: Settings, current: real, o: Observation): real {
    var target := Target(s, o);
    var damped := Max((current + target) / 2.0, target);
    var delay := Max(Max(damped, Penalty(current, o)), current);
    Min(Max(delay, s.floorMs), s.maxDelayMs)
  }

  // The delay after a list of observations, the last one being the latest.
  function DelayAfter(s: Settings, start: real, run: seq<Observation>): real {
    if run == [] then start
    else ComputeNextDelay(s, DelayAfter(s, start, run[..|run| - 1]), run[|run| - 1])
  }

  // The target is the latency shared among the requests meant to be in flight.
  lemma TargetShares(s: Settings, o: Observation)
    ensures s.targetConcurrency > 0 ==> Target(s, o) * s.targetConcurrency as real == o.latencyMs
    ensures s.targetConcurrency <= 0 ==> Target(s, o) == o.latencyMs
  {
  }

  // One step of any kind is the largest of what asks for a delay, cut off at the ceiling: the delay so
  // far, the floor, the target, and after a block the Retry-After, or twice the delay without one.
  lemma StepExactly(s: Settings, current: real, o: Observation)
    ensures ComputeNextDelay(s, current, o) == Min(s.maxDelayMs, Max(Max(current, s.floorMs), Max(Target(s, o),
              if o.ok then 0.0 else if o.retryAfterS.Some? then 1000.0 * o.retryAfterS.value else current + current)))
  {
  }

  // --- Unblocked runs ---

  // The largest target of a non-empty run.
  ghost predicate LargestTarget(s: Settings, run: seq<Observation>, t: real) {
    && (exists i :: 0 <= i < |run| && Target(s, run[i]) == t)
    && (forall i :: 0 <= i < |run| ==> Target(s, run[i]) <= t)
  }

  ghost predicate Unblocked(run: seq<Observation>) { forall i :: 0 <= i < |run| ==> run[i].ok }

  // Averaging never matters: one unblocked step is a maximum, cut off at the ceiling.
  lemma UnblockedStep(s: Settings, current: real, o: Observation)
    requires o.ok
    ensures ComputeNextDelay(s, current, o)
         == Min(s.maxDelayMs, Max(Max(current, Max(0.0, s.floorMs)), Target(s, o)))
  {
  }

  // So a non-empty unblocked run, whatever its order, ends at one of five numbers: the start, zero,
  // the floor, the largest target, or the ceiling.
  lemma {:induction false} UnblockedClosedForm(s: Settings, start: real, run: seq<Observation>, t: real)
    requires Unblocked(run) && LargestTarget(s, run, t)
    ensures DelayAfter(s, start, run) == Min(s.maxDelayMs, Max(Max(start, Max(0.0, s.floorMs)), t))
    decreases |run|
  {
    var before, last := run[..|run| - 1], run[|run| - 1];
    UnblockedStep(s, DelayAfter(s, start, before), last);
    if before != [] {
      var u := LargestExists(s, before);
      UnblockedClosedForm(s, start, before, u);
      assert before + [last] == run;
      LargestSnoc(s, before, last, u, t);
    }
  }

  lemma {:induction false} LargestExists(s: Settings, run: seq<Observation>) returns (t: real)
    requires run != []
    ensures LargestTarget(s, run, t)
  {
    var before, last := run[..|run| - 1], run[|run| - 1];
    t := Target(s, last);
    if before != [] {
      var u := LargestExists(s, before);
      if u > t {
        var i :| 0 <= i < |before| && Target(s, before[i]) == u;
        assert Target(s, run[i]) == u;
        t := u;
      }
    }
    forall i | 0 <= i < |run| ensures Target(s, run[i]) <= t {
      assert i < |before| ==> run[i] == before[i];
    }
  }

  lemma LargestSnoc(s: Settings, before: seq<Observation>, last: Observation, u: real, t: real)
    requires LargestTarget(s, before, u) && LargestTarget(s, before + [last], t)
    ensures t == Max(u, Target(s, last))
  {
    var run := before + [last];
    var i :| 0 <= i < |before| && Target(s, before[i]) == u;
    var j :| 0 <= j < |run| && Target(s, run[j]) == t;
    assert run[i] == before[i] && run[|before|] == last;
  }

  // --- Any run ---

  // An observation of any kind leaves the delay at least as high exactly when it started within
  // the ceiling.
  lemma NeverLoweredExactly(s: Settings, current: real, o: Observation)
    ensures ComputeNextDelay(s, current, o) >= current <==> current <= s.maxDelayMs
  {
  }

  lemma {:induction false} RunNeverLoweredExactly(s: Settings, start: real, run: seq<Observation>)
    requires run != []
    ensures DelayAfter(s, start, run) >= start <==> start <= s.maxDelayMs
    ensures DelayAfter(s, start, run) <= s.maxDelayMs
  {
    var before, last := run[..|run| - 1], run[|run| - 1];
    NeverLoweredExactly(s, DelayAfter(s, start, before), last);
    if before != [] {
      RunNeverLoweredExactly(s, start, before);
    }
  }

  // What one step has raised the delay to, up to the ceiling, no later run takes back.
  lemma {:induction false} RaisesAreKept(s: Settings, start: real, run: seq<Observation>, level: real)
    requires start >= Min(s.maxDelayMs, level)
    ensures DelayAfter(s, start, run) >= Min(s.maxDelayMs, level)
  {
    if run != [] {
      RaisesAreKept(s, start, run[..|run| - 1], level);
    }
  }

  lemma {:induction false} DelaySplit(s: Settings, start: real, first: seq<Observation>, second: seq<Observation>)
    ensures DelayAfter(s, start, first + second) == DelayAfter(s, DelayAfter(s, start, first), second)
    decreases |second|
  {
    if second == [] {
      assert first + second == first;
    } else {
      assert (first + second)[..|first + second| - 1] == first + second[..|second| - 1];
      DelaySplit(s, start, first, second[..|second| - 1]);
    }
  }

  // A Retry-After is honoured from then on.
  lemma RetryAfterHonoured(s: Settings, start: real, first: seq<Observation>, block: Observation,
                           second: seq<Observation>)
    requires !block.ok && block.retryAfterS.Some?
    ensures DelayAfter(s, start, first + [block] + second) >= Min(s.maxDelayMs, block.retryAfterS.value * 1000.0)
  {
    DelaySplit(s, start, first + [block], second);
    assert (first + [block])[..|first + [block]| - 1] == first;
    RaisesAreKept(s, DelayAfter(s, start, first + [block]), second, block.retryAfterS.value * 1000.0);
  }

  // x doubled k times.
  function Doubled(x: real, k: nat): real { if k == 0 then x else 2.0 * Doubled(x, k - 1) }

  // Blocks that came without a Retry-After.
  function Backoffs(run: seq<Observation>): nat {
    if run == [] then 0
    else
      var last := run[|run| - 1];
      Backoffs(run[..|run| - 1]) + if !last.ok && last.retryAfterS.None? then 1 else 0
  }

  lemma BackoffStep(s: Settings, current: real, o: Observation, level: real)
    requires current >= Min(s.maxDelayMs, level)
    ensures ComputeNextDelay(s, current, o)
         >= Min(s.maxDelayMs, if !o.ok && o.retryAfterS.None? then 2.0 * level else level)
  {
  }

  // Each of them doubles the delay, whatever comes between, until the ceiling is reached.
  lemma {:induction false} BackoffsDouble(s: Settings, start: real, run: seq<Observation>)
    ensures DelayAfter(s, start, run) >= Min(s.maxDelayMs, Doubled(start, Backoffs(run)))
  {
    if run != [] {
      var before, last := run[..|run| - 1], run[|run| - 1];
      BackoffsDouble(s, start, before);
      BackoffStep(s, DelayAfter(s, start, before), last, Doubled(start, Backoffs(before)));
    }
  }
}
