/** Keeping one connection up: reconnect with backoff, give up only after too many failures in a row.

    How each connection attempt goes, and what the random jitter draws, are parameters. */
module Supervisor {
  import opened Options

  datatype Policy = Policy(
    baseSeconds: real, factor: real, maxSeconds: real, jitterRatio: real, maxFailures: nat)

  ghost predicate Sensible(p: Policy) {
    0.0 < p.baseSeconds && 1.0 <= p.factor && 0.0 < p.maxSeconds && 0.0 <= p.jitterRatio <= 1.0 && p.maxFailures > 0
  }

  function Power(b: real, n: nat): real {
    if n == 0 then 1.0 else b * Power(b, n - 1)
  }

  function Min(a: real, b: real): real {
    if a <= b then a else b
  }

  function Max(a: real, b: real): real {
    if a >= b then a else b
  }

  /** The exponential, capped. The exponent stops at 64. */
  function Capped(p: Policy, failure: nat): real {
    var exponent := if failure == 0 then 0 else if failure - 1 > 64 then 64 else failure - 1;
    Min(p.baseSeconds * Power(p.factor, exponent), p.maxSeconds)
  }

  /** `jitter` is what was drawn around 1. */
  function Delay(p: Policy, failure: nat, jitter: real): real {
    Min(Capped(p, failure) * jitter, p.maxSeconds)
  }

  /** What a wait becomes when the server asked for one of its own. */
  function Scheduled(delay: real, requested: Option<real>): real {
    if requested.Some? then Max(delay, requested.value) else delay
  }

  /** How one pass of the loop ends. A connection that lasted long enough is `stable`. */
  datatype Cycle =
    | StopRequested
    | Refused
    | Fatal
    | Failed(connected: bool, stable: bool, requested: Option<real>)

  datatype Outcome = Stopped | BlockedByAdapter | BlockedByFailures | Raised

  datatype State = Connecting | Reconnecting | Connected | Blocked

  function LongLived(c: Cycle): bool {
    c.Failed? && c.connected && c.stable
  }

  /** The consecutive failures after these passes: a long-lived connection starts the count afresh. */
  function Failures(cycles: seq<Cycle>): nat {
    if cycles == [] then 0
    else (if LongLived(cycles[|cycles| - 1]) then 0 else Failures(cycles[..|cycles| - 1])) + 1
  }

  /** The count reaches `m` exactly when the last `m` passes failed and none after the first of them had a
      stable connection. */
  lemma {:induction false} FailuresCountTheLastOnes(cycles: seq<Cycle>, m: nat)
    requires m > 0
    ensures Failures(cycles) >= m <==> |cycles| >= m && forall i :: |cycles| - m < i < |cycles| ==> !LongLived(cycles[i])
  {
    if cycles != [] {
      var init := cycles[..|cycles| - 1];
      assert forall i :: 0 <= i < |init| ==> init[i] == cycles[i];
      if m > 1 {
        FailuresCountTheLastOnes(init, m - 1);
      }
    }
  }

  lemma {:induction false} PowerAtLeastOne(b: real, n: nat)
    requires b >= 1.0
    ensures Power(b, n) >= 1.0
  {
    if n > 0 {
      PowerAtLeastOne(b, n - 1);
      Grows(b, Power(b, n - 1));
    }
  }

  lemma Grows(a: real, b: real)
    requires a >= 1.0 && b >= 1.0
    ensures a * b >= 1.0
  {
    assert (a - 1.0) * b >= 0.0;
  }

  /** Once more the factor, up to the cap, which is kept. */
  ghost predicate NextWait(wait: real, next: real, factor: real, most: real) {
    && (wait < most ==> next == if wait * factor <= most then wait * factor else most)
    && (wait == most ==> next == most)
  }

  /** The base, then the factor again for each further failure until the cap is met, which is then kept; past the
      sixty-fifth failure nothing grows any more. */
  lemma CappedGrowsByTheFactor(p: Policy, failure: nat)
    requires Sensible(p)
    ensures failure <= 1 ==> Capped(p, failure) == if p.baseSeconds <= p.maxSeconds then p.baseSeconds else p.maxSeconds
    ensures 1 <= failure <= 64 ==> NextWait(Capped(p, failure), Capped(p, failure + 1), p.factor, p.maxSeconds)
    ensures failure > 65 ==> Capped(p, failure) == Capped(p, 65)
  {
    if 1 <= failure <= 64 {
      CappedGrows(p, failure);
    }
  }

  lemma CappedGrows(p: Policy, failure: nat)
    requires Sensible(p) && 1 <= failure <= 64
    ensures NextWait(Capped(p, failure), Capped(p, failure + 1), p.factor, p.maxSeconds)
  {
    var power := Power(p.factor, failure - 1);
    PowerAtLeastOne(p.factor, failure - 1);
    NoLess(p.baseSeconds, power);
    NextPower(p, failure, power);
    CapGrows(p.baseSeconds * power, p.factor, p.maxSeconds);
  }

  lemma NextPower(p: Policy, failure: nat, power: real)
    requires 1 <= failure <= 64 && power == Power(p.factor, failure - 1)
    ensures Capped(p, failure) == Min(p.baseSeconds * power, p.maxSeconds)
    ensures Capped(p, failure + 1) == Min(p.baseSeconds * power * p.factor, p.maxSeconds)
  {
    Regroup(p.baseSeconds, p.factor, power);
  }

  lemma CapGrows(x: real, factor: real, most: real)
    requires x >= 0.0 && factor >= 1.0
    ensures NextWait(Min(x, most), Min(x * factor, most), factor, most)
  {
    NoLess(x, factor);
  }

  lemma Regroup(a: real, b: real, c: real)
    ensures a * (b * c) == a * c * b
  {
  }

  lemma NoLess(a: real, b: real)
    requires a >= 0.0 && b >= 1.0
    ensures a * b >= a
  {
    assert a * (b - 1.0) >= 0.0;
  }

  /** Every wait lies between the low end of the jitter around the capped exponential and the cap, or the
      wait the server asked for if that is longer. */
  lemma DelayIsBounded(p: Policy, failure: nat, jitter: real, requested: Option<real>)
    requires Sensible(p) && 1.0 - p.jitterRatio <= jitter <= 1.0 + p.jitterRatio
    ensures var d := Scheduled(Delay(p, failure, jitter), requested);
            && (1.0 - p.jitterRatio) * Capped(p, failure) <= d
            && d <= (if requested.Some? then Max(p.maxSeconds, requested.value) else p.maxSeconds)
            && (requested.Some? ==> d >= requested.value)
  {
    var exponent := if failure == 0 then 0 else if failure - 1 > 64 then 64 else failure - 1;
    PowerAtLeastOne(p.factor, exponent);
    var c := Capped(p, failure);
    assert c >= 0.0 && c <= p.maxSeconds by {
      assert p.baseSeconds * Power(p.factor, exponent) >= 0.0;
    }
    AboveTheLowEnd(c, 1.0 - p.jitterRatio, jitter, p.maxSeconds);
  }

  lemma AboveTheLowEnd(c: real, low: real, jitter: real, most: real)
    requires 0.0 <= low <= 1.0 && 0.0 <= c <= most && low <= jitter
    ensures low * c <= Min(c * jitter, most)
  {
    assert c * (jitter - low) >= 0.0 && c * (1.0 - low) >= 0.0;
  }

  /** The `k`-th wait is the one for the failures counted then. */
  ghost predicate WaitsAre(p: Policy, cycles: seq<Cycle>, jitters: seq<real>, waits: seq<real>) {
    && |waits| <= |cycles| && |waits| <= |jitters|
    && forall k :: 0 <= k < |waits| ==>
         cycles[k].Failed? && waits[k] == Scheduled(Delay(p, Failures(cycles[..k + 1]), jitters[k]), cycles[k].requested)
  }

  ghost predicate NotExhausted(p: Policy, cycles: seq<Cycle>, passes: nat)
    requires passes <= |cycles|
  {
    forall k :: 0 < k <= passes ==> Failures(cycles[..k]) < p.maxFailures
  }

  lemma OneMoreWait(p: Policy, cycles: seq<Cycle>, jitters: seq<real>, waits: seq<real>, wait: real)
    requires WaitsAre(p, cycles, jitters, waits) && |waits| < |cycles| == |jitters| && cycles[|waits|].Failed?
    requires wait == Scheduled(Delay(p, Failures(cycles[..|waits| + 1]), jitters[|waits|]), cycles[|waits|].requested)
    ensures WaitsAre(p, cycles, jitters, waits + [wait])
  {
  }

  class ConnectionSupervisor {
    const policy: Policy
    var state: State
    var backoffDelays: seq<real>

    constructor (policy: Policy)
      ensures this.policy == policy && state == Connecting && backoffDelays == []
    {
      this.policy := policy;
      state := Connecting;
      backoffDelays := [];
    }

    /** The loop over one process. `passes` is how many of the cycles it took part in, the last one
        included; it leaves by exhaustion after the first pass that completes the count, and not
        otherwise. */
    method Run(cycles: seq<Cycle>, jitters: seq<real>) returns (outcome: Outcome, passes: nat)
      requires policy.maxFailures > 0 && |jitters| == |cycles| > 0 && !cycles[|cycles| - 1].Failed?
      requires backoffDelays == []
      modifies this
      ensures 0 < passes <= |cycles| && NotExhausted(policy, cycles, passes - 1)
      ensures |backoffDelays| == passes - 1 && WaitsAre(policy, cycles, jitters, backoffDelays)
      ensures outcome == (match cycles[passes - 1]
                          case StopRequested => Stopped
                          case Fatal => Raised
                          case Refused => BlockedByAdapter
                          case Failed(_, _, _) => BlockedByFailures)
      ensures outcome.BlockedByFailures? ==> Failures(cycles[..passes]) >= policy.maxFailures
      ensures outcome.BlockedByAdapter? || outcome.BlockedByFailures? ==> state == Blocked
    {
      var failures := 0;
      var connectedBefore := false;
      passes := 0;
      while true
        invariant 0 <= passes < |cycles| && failures == Failures(cycles[..passes])
        invariant NotExhausted(policy, cycles, passes)
        invariant |backoffDelays| == passes && WaitsAre(policy, cycles, jitters, backoffDelays)
        decreases |cycles| - passes
      {
        state := if connectedBefore then Reconnecting else Connecting;
        var cycle := cycles[passes];
        OneMoreFailure(cycles, passes);
        passes := passes + 1;
        if !cycle.Failed? {
          if cycle.Refused? {
            state := Blocked;
          }
          outcome := if cycle.StopRequested? then Stopped else if cycle.Fatal? then Raised else BlockedByAdapter;
          return;
        }
        if cycle.connected {
          connectedBefore := true;
          state := Connected;
          if cycle.stable {
            failures := 0;
          }
        }
        failures := failures + 1;
        if failures >= policy.maxFailures {
          state := Blocked;
          outcome := BlockedByFailures;
          return;
        }
        var delay := Scheduled(Delay(policy, failures, jitters[passes - 1]), cycle.requested);
        OneMoreWait(policy, cycles, jitters, backoffDelays, delay);
        backoffDelays := backoffDelays + [delay];
        state := Reconnecting;
      }
    }
  }

  lemma OneMoreFailure(cycles: seq<Cycle>, k: nat)
    requires k < |cycles|
    ensures Failures(cycles[..k + 1]) == (if LongLived(cycles[k]) then 0 else Failures(cycles[..k])) + 1
  {
    assert cycles[..k + 1][..k] == cycles[..k];
  }

  /** The process gives up exactly when the last `maxFailures` passes failed and none after the first of
      them had a stable connection. */
  lemma GivingUpMeansTooManyInARow(p: Policy, cycles: seq<Cycle>, passes: nat)
    requires p.maxFailures > 0 && 0 < passes <= |cycles|
    ensures Failures(cycles[..passes]) >= p.maxFailures <==>
      passes >= p.maxFailures && forall i :: passes - p.maxFailures < i < passes ==>
        !(cycles[i].Failed? && cycles[i].connected && cycles[i].stable)
  {
    FailuresCountTheLastOnes(cycles[..passes], p.maxFailures);
    assert forall i :: 0 <= i < passes ==> LongLived(cycles[i]) == LongLived(cycles[..passes][i]);
  }

  /** With no stable connection at all, the loop is over within that many passes. */
  lemma UnstableRunsEnd(p: Policy, cycles: seq<Cycle>, passes: nat)
    requires p.maxFailures > 0 && 0 < passes <= |cycles| && NotExhausted(p, cycles, passes - 1)
    requires forall i :: 0 <= i < |cycles| ==> !(cycles[i].Failed? && cycles[i].connected && cycles[i].stable)
    ensures passes <= p.maxFailures
  {
    if passes > p.maxFailures {
      GivingUpMeansTooManyInARow(p, cycles, p.maxFailures);
    }
  }
}
