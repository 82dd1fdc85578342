/**
 The circuit breaker: a timed three-state machine with a leaky failure counter.

 Calls do not overlap: the publisher holds its mutex around every use. Clock readings are integers; a call reads
 the clock when it checks an open breaker, when it moves it to half-open, and when it opens it.
 */
module Breaker {

  datatype Phase = Closed | Open | HalfOpen

  /** One call: its clock readings, and how the guarded function ends if it is run. */
  datatype Call = Call(checked: int, entered: int, done: int, ok: bool)

  datatype Response = Refused | Ran(ok: bool)

  datatype Settings = Settings(threshold: int, cooldown: int)

  const DEFAULT_THRESHOLD := 5
  const DEFAULT_COOLDOWN := 30_000_000_000

  datatype Snapshot = Snapshot(phase: Phase, failures: int, threshold: int, cooldown: int, since: int)

  function Fresh(cfg: Settings, now: int): (b: Snapshot)
    ensures b.phase == Closed && b.failures == 0 && b.since == now
    ensures cfg.threshold > 0 ==> b.threshold == cfg.threshold
    ensures cfg.threshold <= 0 ==> b.threshold == 5
    ensures cfg.cooldown > 0 ==> b.cooldown == cfg.cooldown
    ensures cfg.cooldown <= 0 ==> b.cooldown == 30 * 1000 * 1000 * 1000
    ensures Initial(b)
  {
    Snapshot(Closed, 0, if cfg.threshold <= 0 then DEFAULT_THRESHOLD else cfg.threshold,
             if cfg.cooldown <= 0 then DEFAULT_COOLDOWN else cfg.cooldown, now)
  }

  /** What one call does to the breaker. */
  function Executed(b: Snapshot, c: Call): Snapshot {
    match b.phase
    case Open => if c.checked - b.since > b.cooldown then b.(phase := HalfOpen, since := c.entered) else b
    case HalfOpen =>
      if c.ok then b.(phase := Closed, failures := 0)
        else b.(phase := Open, failures := b.failures + 1, since := c.done)
    case Closed =>
      if c.ok then b.(failures := if b.failures > 0 then b.failures - 1 else b.failures)
      else if b.failures + 1 >= b.threshold then b.(phase := Open, failures := b.failures + 1, since := c.done)
      else b.(failures := b.failures + 1)
  }

  /** An open breaker refuses every call, the one that moves it to half-open included. */
  function ResponseTo(b: Snapshot, c: Call): Response {
    if b.phase == Open then Refused else Ran(c.ok)
  }

  class CircuitBreaker {
    var state: Phase
    var failureCount: int
    const threshold: int
    const cooldown: int
    var lastStateChange: int

    constructor (cfg: Settings, now: int)
      ensures Current() == Fresh(cfg, now)
    {
      threshold := if cfg.threshold <= 0 then DEFAULT_THRESHOLD else cfg.threshold;
      cooldown := if cfg.cooldown <= 0 then DEFAULT_COOLDOWN else cfg.cooldown;
      state, failureCount, lastStateChange := Closed, 0, now;
    }

    function Current(): Snapshot
      reads this
    {
      Snapshot(state, failureCount, threshold, cooldown, lastStateChange)
    }

    /** checkIsOpened. */
    method CheckIsOpened(c: Call) returns (refused: bool)
      modifies this
      ensures refused <==> old(state) == Open
      ensures !refused ==> Current() == old(Current())
      ensures refused ==> Current() == Executed(old(Current()), c)
    {
      if state != Open { return false; }
      if c.checked - lastStateChange > cooldown {
        state := HalfOpen;
        lastStateChange := c.entered;
      }
      return true;
    }

    /** Execute: the guarded function is run, and its result passed on, unless the breaker refuses. */
    method Execute(c: Call) returns (r: Response)
      modifies this
      ensures Current() == Executed(old(Current()), c)
      ensures r == ResponseTo(old(Current()), c)
    {
      var refused := CheckIsOpened(c);
      if refused { return Refused; }
      if !c.ok {
        failureCount := failureCount + 1;
        if state == HalfOpen || failureCount >= threshold {
          state := Open;
          lastStateChange := c.done;
        }
        return Ran(false);
      }
      if state == HalfOpen {
        state := Closed;
        failureCount := 0;
      } else if state == Closed && failureCount > 0 {
        failureCount := failureCount - 1;
      }
      return Ran(true);
    }
  }

  // ---------- runs ----------

  function After(b: Snapshot, cs: seq<Call>): Snapshot
    decreases |cs|
  {
    if cs == [] then b else Executed(After(b, cs[..|cs| - 1]), cs[|cs| - 1])
  }

  predicate Configured(b: Snapshot) {
    b.threshold > 0 && b.cooldown > 0
  }

  predicate Initial(b: Snapshot) {
    b.phase == Closed && b.failures == 0 && Configured(b)
  }

  /** A monotone clock. */
  predicate Monotone(b: Snapshot, cs: seq<Call>) {
    && (forall i | 0 <= i < |cs| :: b.since <= cs[i].checked <= cs[i].entered <= cs[i].done)
    && (forall i, j | 0 <= i < j < |cs| :: cs[i].done <= cs[j].checked)
  }

  lemma AfterNext(b: Snapshot, cs: seq<Call>, n: nat)
    requires n < |cs|
    ensures After(b, cs[..n + 1]) == Executed(After(b, cs[..n]), cs[n])
  {
    assert cs[..n + 1][..n] == cs[..n];
  }

  lemma {:induction false} SettingsStay(b: Snapshot, cs: seq<Call>)
    ensures After(b, cs).threshold == b.threshold && After(b, cs).cooldown == b.cooldown
    decreases |cs|
  {
    if cs == [] {
    } else {
      SettingsStay(b, cs[..|cs| - 1]);
    }
  }

  // ---------- the counter, specified by history ----------

  /** How many more failures than successes. */
  function Surplus(outcomes: seq<bool>): int {
    if outcomes == [] then 0
    else Surplus(outcomes[..|outcomes| - 1]) + (if outcomes[|outcomes| - 1] then -1 else 1)
  }

  /** n is the largest surplus of any suffix, the empty one included. */
  ghost predicate MaxSuffixSurplus(outcomes: seq<bool>, n: int) {
    && (forall i | 0 <= i <= |outcomes| :: Surplus(outcomes[i..]) <= n)
    && (exists i | 0 <= i <= |outcomes| :: Surplus(outcomes[i..]) == n)
  }

  /** The outcomes since the breaker was made or last closed; nothing while it is not closed. */
  function ClosedPeriod(b: Snapshot, cs: seq<Call>): seq<bool>
    decreases |cs|
  {
    if cs == [] || After(b, cs).phase != Closed || After(b, cs[..|cs| - 1]).phase != Closed then []
    else ClosedPeriod(b, cs[..|cs| - 1]) + [cs[|cs| - 1].ok]
  }

  lemma SuffixGrows(outcomes: seq<bool>, ok: bool, i: nat)
    requires i <= |outcomes|
    ensures Surplus((outcomes + [ok])[i..]) == Surplus(outcomes[i..]) + (if ok then -1 else 1)
  {
    assert (outcomes + [ok])[i..] == outcomes[i..] + [ok];
  }

  /**
   One more outcome moves the largest suffix surplus as the leaky counter moves: up by one, or down but not below
   zero.
   */
  lemma LeakyCounter(outcomes: seq<bool>, n: int, ok: bool)
    requires MaxSuffixSurplus(outcomes, n)
    ensures n >= 0
    ensures MaxSuffixSurplus(outcomes + [ok], if !ok then n + 1 else if n > 0 then n - 1 else 0)
  {
    var more := outcomes + [ok];
    var m := if !ok then n + 1 else if n > 0 then n - 1 else 0;
    assert outcomes[|outcomes|..] == [] && Surplus([]) == 0;
    assert more[|more|..] == [];
    forall i | 0 <= i <= |more|
      ensures Surplus(more[i..]) <= m
    {
      if i <= |outcomes| { SuffixGrows(outcomes, ok, i); }
    }
    if ok && n == 0 {
      assert Surplus(more[|more|..]) == 0;
    } else {
      var i :| 0 <= i <= |outcomes| && Surplus(outcomes[i..]) == n;
      SuffixGrows(outcomes, ok, i);
    }
  }

  /**
   While the breaker is closed its counter is the maximum, over all suffixes of the outcomes of this closed period,
   of failures minus successes, and it is below the threshold.
   */
  lemma {:induction false} CounterIsMaxSuffixSurplus(b: Snapshot, cs: seq<Call>)
    requires Initial(b)
    requires After(b, cs).phase == Closed
    ensures MaxSuffixSurplus(ClosedPeriod(b, cs), After(b, cs).failures)
    ensures After(b, cs).failures < b.threshold
    decreases |cs|
  {
    SettingsStay(b, cs);
    if cs == [] || After(b, cs[..|cs| - 1]).phase != Closed {
      assert ClosedPeriod(b, cs) == [];
      assert ClosedPeriod(b, cs)[0..] == [];
    } else {
      var front := cs[..|cs| - 1];
      CounterIsMaxSuffixSurplus(b, front);
      SettingsStay(b, front);
      LeakyCounter(ClosedPeriod(b, front), After(b, front).failures, cs[|cs| - 1].ok);
    }
  }

  /** A closed breaker opens at exactly the calls that give some suffix of the period a surplus of the threshold. */
  lemma OpensExactlyAtThreshold(b: Snapshot, cs: seq<Call>, c: Call)
    requires Initial(b)
    requires After(b, cs).phase == Closed
    ensures var period := ClosedPeriod(b, cs) + [c.ok];
      After(b, cs + [c]).phase == Open <==> exists i | 0 <= i <= |period| :: Surplus(period[i..]) >= b.threshold
    ensures After(b, cs + [c]).phase == Open ==> !c.ok && Surplus(ClosedPeriod(b, cs) + [c.ok]) <= b.threshold
  {
    assert (cs + [c])[..|cs + [c]| - 1] == cs;
    var s := After(b, cs);
    assert After(b, cs + [c]) == Executed(s, c);
    CounterIsMaxSuffixSurplus(b, cs);
    SettingsStay(b, cs);
    LeakyCounter(ClosedPeriod(b, cs), s.failures, c.ok);
    var m := if !c.ok then s.failures + 1 else if s.failures > 0 then s.failures - 1 else 0;
    var period := ClosedPeriod(b, cs) + [c.ok];
    assert Executed(s, c).phase == Open <==> m >= b.threshold;
    hide After, ClosedPeriod, Surplus, Executed, MaxSuffixSurplus;
    MaxReaches(period, m, b.threshold);
    assert period[0..] == period;
  }

  /** Some suffix reaches a bound exactly when the maximum does. */
  lemma MaxReaches(outcomes: seq<bool>, n: int, bound: int)
    requires MaxSuffixSurplus(outcomes, n)
    ensures n >= bound <==> exists i | 0 <= i <= |outcomes| :: Surplus(outcomes[i..]) >= bound
    ensures Surplus(outcomes[0..]) <= n
  {
  }

  // ---------- how many failures get through ----------

  /** The function ran and failed, or ran and succeeded, at call i. */
  function Passed(b: Snapshot, cs: seq<Call>, ok: bool): nat
    decreases |cs|
  {
    if cs == [] then 0
    else
      Passed(b, cs[..|cs| - 1], ok) + (if ResponseTo(After(b, cs[..|cs| - 1]), cs[|cs| - 1]) == Ran(ok) then 1 else 0)
  }

  predicate OpensAt(b: Snapshot, cs: seq<Call>, i: nat)
    requires i < |cs|
  {
    After(b, cs[..i]).phase != Open && After(b, cs[..i + 1]).phase == Open
  }

  /** The moments the breaker opened. */
  function Openings(b: Snapshot, cs: seq<Call>): seq<int>
    decreases |cs|
  {
    if cs == [] then []
    else Openings(b, cs[..|cs| - 1]) + (if OpensAt(b, cs, |cs| - 1) then [cs[|cs| - 1].done] else [])
  }

  /** The potential argument for one call; `paid` is the threshold times the openings so far. */
  lemma PotentialStep(s: Snapshot, c: Call, failed: int, succeeded: int, paid: int)
    requires Configured(s)
    requires s.phase == Closed ==> 0 <= s.failures < s.threshold
    requires failed - succeeded <= paid + (if s.phase == Closed then s.failures else 0)
    ensures var t := Executed(s, c);
      var failed' := failed + (if ResponseTo(s, c) == Ran(false) then 1 else 0);
      var succeeded' := succeeded + (if ResponseTo(s, c) == Ran(true) then 1 else 0);
      var paid' := paid + (if s.phase != Open && t.phase == Open then s.threshold else 0);
      && (t.phase == Closed ==> 0 <= t.failures < t.threshold)
      && failed' - succeeded' <= paid' + (if t.phase == Closed then t.failures else 0)
  {
  }

  lemma {:induction false} FailurePotential(b: Snapshot, cs: seq<Call>)
    requires Initial(b)
    ensures var s := After(b, cs);
      && (s.phase == Closed ==> 0 <= s.failures < b.threshold)
      && Passed(b, cs, false) - Passed(b, cs, true)
        <= Product(b.threshold, |Openings(b, cs)|) + (if s.phase == Closed then s.failures else 0)
    decreases |cs|
  {
    hide Executed, ResponseTo;
    if cs == [] {
    } else {
      var front := cs[..|cs| - 1];
      FailurePotential(b, front);
      SettingsStay(b, front);
      SettingsStay(b, cs);
      assert cs[..|cs|] == cs;
      PotentialStep(After(b, front), cs[|cs| - 1], Passed(b, front, false), Passed(b, front, true),
        Product(b.threshold, |Openings(b, front)|));
    }
  }

  /** a * n, by repeated addition. */
  function Product(a: int, n: nat): int {
    if n == 0 then 0 else Product(a, n - 1) + a
  }

  lemma {:induction false} ProductIsProduct(a: int, n: nat)
    ensures Product(a, n) == a * n
  {
    if n == 0 {
    } else {
      ProductIsProduct(a, n - 1);
    }
  }

  /**
   Rate bound: the failures let through are at most the successes, plus a threshold for every opening and one
   short of it.
   */
  lemma FailureBound(b: Snapshot, cs: seq<Call>)
    requires Initial(b)
    ensures Passed(b, cs, false) <= Passed(b, cs, true) + b.threshold * |Openings(b, cs)| + b.threshold - 1
  {
    FailurePotential(b, cs);
    ProductIsProduct(b.threshold, |Openings(b, cs)|);
  }

  // ---------- how often it opens ----------

  ghost predicate Spaced(times: seq<int>, gap: int) {
    forall i | 0 <= i < |times| - 1 :: times[i + 1] - times[i] > gap
  }

  /** A breaker in state s at time `now` has opened at these times since `start`. */
  ghost predicate Timed(s: Snapshot, times: seq<int>, start: int, now: int) {
    && Spaced(times, s.cooldown)
    && (forall i | 0 <= i < |times| :: start <= times[i] <= now)
    && s.since <= now
    && (if s.phase == Open then times != [] && s.since == times[|times| - 1]
        else times != [] ==> s.since - times[|times| - 1] > s.cooldown)
  }

  lemma TimedStep(s: Snapshot, c: Call, times: seq<int>, start: int, now: int)
    requires Timed(s, times, start, now)
    requires start <= now <= c.checked <= c.entered <= c.done
    ensures Timed(Executed(s, c), times + (if s.phase != Open && Executed(s, c).phase == Open then [c.done] else []),
      start, c.done)
  {
  }

  lemma TimedStart(b: Snapshot)
    requires Initial(b)
    ensures Timed(b, [], b.since, b.since)
  {
  }

  /** The time of the last call. */
  function Clock(b: Snapshot, cs: seq<Call>): int {
    if cs == [] then b.since else cs[|cs| - 1].done
  }

  lemma {:induction false} OpeningsSpaced(b: Snapshot, cs: seq<Call>)
    requires Initial(b) && Monotone(b, cs)
    ensures Timed(After(b, cs), Openings(b, cs), b.since, Clock(b, cs))
    ensures b.since <= Clock(b, cs)
    decreases |cs|
  {
    hide Executed, Timed;
    if cs == [] {
      TimedStart(b);
    } else {
      var front := cs[..|cs| - 1];
      assert forall i | 0 <= i < |front| :: front[i] == cs[i];
      OpeningsSpaced(b, front);
      assert cs[..|cs|] == cs;
      TimedStep(After(b, front), cs[|cs| - 1], Openings(b, front), b.since, Clock(b, front));
    }
  }

  lemma {:induction false} SpanOf(times: seq<int>, gap: int)
    requires times != [] && Spaced(times, gap)
    ensures (|times| - 1) * gap <= times[|times| - 1] - times[0]
  {
    if |times| == 1 {
    } else {
      var front := times[..|times| - 1];
      assert forall i | 0 <= i < |front| :: front[i] == times[i];
      SpanOf(front, gap);
      assert (|times| - 1) * gap == (|front| - 1) * gap + gap;
      assert times[|times| - 2 + 1] - times[|times| - 2] > gap;
    }
  }

  /** In a run of a given duration the breaker opens at most once per cooldown, and once more. */
  lemma OpeningsBound(b: Snapshot, cs: seq<Call>)
    requires Initial(b) && Monotone(b, cs) && cs != []
    ensures (|Openings(b, cs)| - 1) * b.cooldown <= cs[|cs| - 1].done - b.since
  {
    hide After, Openings, Spaced;
    OpeningsSpaced(b, cs);
    SettingsStay(b, cs);
    var times := Openings(b, cs);
    if times != [] { SpanOf(times, b.cooldown); }
  }

  /** Both bounds together: how many failures a dependency can be shown in a given time, whatever its outcomes. */
  lemma FailuresInTime(b: Snapshot, cs: seq<Call>, rounds: nat)
    requires Initial(b) && Monotone(b, cs) && cs != []
    requires cs[|cs| - 1].done - b.since < rounds * b.cooldown
    ensures Passed(b, cs, false) < Passed(b, cs, true) + b.threshold * (rounds + 1)
  {
    hide After, Openings, Passed, Monotone;
    FailureBound(b, cs);
    OpeningsBound(b, cs);
    var n := |Openings(b, cs)|;
    if n > rounds { TimesGrows(b.cooldown, rounds, n - 1); }
    TimesGrows(b.threshold, n, rounds);
  }

  lemma TimesGrows(a: int, m: int, n: int)
    requires a >= 0 && m <= n
    ensures m * a <= n * a && a * m <= a * n && a * (n + 1) == a * n + a
  {
  }

  // ---------- what an open breaker refuses ----------

  /**
   From an opening on, the breaker stays open, and refuses, up to and including the first call checked after the
   cooldown.
   */
  lemma {:induction false} OpenRefuses(b: Snapshot, cs: seq<Call>, i: nat, j: nat)
    requires Configured(b)
    requires i < j < |cs| && OpensAt(b, cs, i)
    requires forall k | i < k < j :: cs[k].checked - cs[i].done <= b.cooldown
    ensures After(b, cs[..j]).phase == Open && After(b, cs[..j]).since == cs[i].done
    ensures ResponseTo(After(b, cs[..j]), cs[j]) == Refused
    ensures After(b, cs[..j + 1]).phase == HalfOpen <==> cs[j].checked - cs[i].done > b.cooldown
    decreases j
  {
    SettingsStay(b, cs[..j]);
    AfterNext(b, cs, j);
    if j == i + 1 {
      AfterNext(b, cs, i);
    } else {
      OpenRefuses(b, cs, i, j - 1);
      AfterNext(b, cs, j - 1);
    }
  }

  predicate RefusedAt(b: Snapshot, cs: seq<Call>, k: nat)
    requires k < |cs|
  {
    ResponseTo(After(b, cs[..k]), cs[k]) == Refused
  }

  /** After the opening at i, the first call checked later than the cooldown is the one at k. */
  predicate FirstLate(b: Snapshot, cs: seq<Call>, i: nat, k: nat)
    requires i < k < |cs|
  {
    && cs[k].checked - cs[i].done > b.cooldown
    && forall n | i < n < k :: cs[n].checked - cs[i].done <= b.cooldown
  }

  lemma {:induction false} FirstLateCall(b: Snapshot, cs: seq<Call>, i: nat, j: nat) returns (k: nat)
    requires i < j < |cs| && cs[j].checked - cs[i].done > b.cooldown
    ensures i < k <= j && FirstLate(b, cs, i, k)
    decreases j
  {
    if n :| i < n < j && cs[n].checked - cs[i].done > b.cooldown {
      k := FirstLateCall(b, cs, i, n);
    } else {
      k := j;
    }
  }

  /** Everything is refused between two openings up to the first late call, and there is such a call. */
  lemma RefusedBetweenOpenings(b: Snapshot, cs: seq<Call>, i: nat, j: nat) returns (k: nat)
    requires Configured(b)
    requires i < j < |cs| && OpensAt(b, cs, i) && OpensAt(b, cs, j)
    ensures i < k < j && FirstLate(b, cs, i, k)
    ensures forall n | i < n <= k :: RefusedAt(b, cs, n)
  {
    if n :| i < n < j && cs[n].checked - cs[i].done > b.cooldown {
      k := FirstLateCall(b, cs, i, n);
      forall n | i < n <= k
        ensures RefusedAt(b, cs, n)
      {
        OpenRefuses(b, cs, i, n);
      }
    } else {
      OpenRefuses(b, cs, i, j);
      assert false;
    }
  }

  /**
   Recovery: the call after the first late one is the probe. It is let through, and it closes the breaker with a
   counter of zero or opens it again.
   */
  lemma Recovery(b: Snapshot, cs: seq<Call>, i: nat, k: nat)
    requires Configured(b)
    requires i < k < k + 1 < |cs| && OpensAt(b, cs, i) && FirstLate(b, cs, i, k)
    ensures RefusedAt(b, cs, k)
    ensures ResponseTo(After(b, cs[..k + 1]), cs[k + 1]) == Ran(cs[k + 1].ok)
    ensures OpensAt(b, cs, k + 1) <==> !cs[k + 1].ok
    ensures cs[k + 1].ok ==> After(b, cs[..k + 2]).phase == Closed && After(b, cs[..k + 2]).failures == 0
  {
    OpenRefuses(b, cs, i, k);
    AfterNext(b, cs, k + 1);
  }
}
