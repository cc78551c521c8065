/** The circuit breaker (src/infrastructure/resilience/circuit_breaker.py): a three-state
    machine whose calls may finish late and in any order.

    The clock is an argument; each method is atomic under the breaker's lock. */
module CircuitBreaker {
  import opened Prelude

  datatype Config = Config(failureThreshold: int, successThreshold: int, timeout: real, halfOpenMaxCalls: int)

  const DEFAULT := Config(5, 3, 60.0, 3)
  const LLM := Config(3, 2, 30.0, 3)
  const SANDBOX := Config(5, 3, 60.0, 3)
  const DATABASE := Config(10, 5, 120.0, 3)

  datatype CircuitState = Closed | Open | HalfOpen

  datatype Breaker = Breaker(
    state: CircuitState,
    failureCount: int,
    successCount: int,
    lastFailureTime: Option<real>,
    totalFailures: int,
    totalSuccesses: int,
    rejectionCount: int)

  const INITIAL := Breaker(Closed, 0, 0, None, 0, 0, 0)

  /** Python's truth of an optional float: `None` and `0.0` are both false. */
  predicate Truthy(t: Option<real>) {
    t.Some? && t.value != 0.0
  }

  function Admission(cfg: Config, b: Breaker, now: real): (Breaker, bool) {
    match b.state
    case Closed => (b, true)
    case Open =>
      if !Truthy(b.lastFailureTime) then (b, false)
      else if now - b.lastFailureTime.value >= cfg.timeout then (b.(state := HalfOpen, successCount := 0), true)
      else (b.(rejectionCount := b.rejectionCount + 1), false)
    case HalfOpen => (b, b.successCount < cfg.halfOpenMaxCalls)
  }

  function AfterSuccess(cfg: Config, b: Breaker): Breaker {
    var c := b.(successCount := b.successCount + 1, totalSuccesses := b.totalSuccesses + 1);
    if b.state == HalfOpen then
      if c.successCount >= cfg.successThreshold then c.(state := Closed, failureCount := 0, successCount := 0) else c
    else c.(failureCount := 0)
  }

  function AfterFailure(cfg: Config, b: Breaker, tracked: bool, now: real): Breaker {
    if !tracked then b
    else
      var c :=
        b.(failureCount := b.failureCount + 1, totalFailures := b.totalFailures + 1, lastFailureTime := Some(now));
      if b.state == HalfOpen || (b.state == Closed && c.failureCount >= cfg.failureThreshold)
      then c.(state := Open, successCount := 0)
      else c
  }

  class CircuitBreaker {
    const config: Config
    var state: CircuitState
    var failureCount: int
    var successCount: int
    var lastFailureTime: Option<real>
    var totalFailures: int
    var totalSuccesses: int
    var rejectionCount: int

    ghost function Value(): Breaker
      reads this
    {
      Breaker(state, failureCount, successCount, lastFailureTime, totalFailures, totalSuccesses, rejectionCount)
    }

    constructor (config: Config)
      ensures this.config == config && Value() == INITIAL
    {
      this.config := config;
      state := Closed;
      failureCount, successCount := 0, 0;
      lastFailureTime := None;
      totalFailures, totalSuccesses, rejectionCount := 0, 0, 0;
    }

    method CanExecute(now: real) returns (admitted: bool)
      modifies this
      ensures (Value(), admitted) == Admission(config, old(Value()), now)
    {
      if state == Closed {
        return true;
      }
      if state == Open {
        if Truthy(lastFailureTime) {
          var elapsed := now - lastFailureTime.value;
          if elapsed >= config.timeout {
            state := HalfOpen;
            successCount := 0;
            return true;
          } else {
            rejectionCount := rejectionCount + 1;
            return false;
          }
        }
        return false;
      }
      return successCount < config.halfOpenMaxCalls;
    }

    method RecordSuccess()
      modifies this
      ensures Value() == AfterSuccess(config, old(Value()))
    {
      successCount := successCount + 1;
      totalSuccesses := totalSuccesses + 1;
      if state == HalfOpen {
        if successCount >= config.successThreshold {
          CloseCircuit();
        }
      } else {
        failureCount := 0;
      }
    }

    method RecordFailure(tracked: bool, now: real)
      modifies this
      ensures Value() == AfterFailure(config, old(Value()), tracked, now)
    {
      if !tracked {
        return;
      }
      failureCount := failureCount + 1;
      totalFailures := totalFailures + 1;
      lastFailureTime := Some(now);
      if state == Closed {
        if failureCount >= config.failureThreshold {
          OpenCircuit();
        }
      } else if state == HalfOpen {
        OpenCircuit();
      }
    }

    method OpenCircuit()
      modifies this
      ensures Value() == old(Value()).(state := Open, successCount := 0)
    {
      state := Open;
      successCount := 0;
    }

    method CloseCircuit()
      modifies this
      ensures Value() == old(Value()).(state := Closed, failureCount := 0, successCount := 0)
    {
      state := Closed;
      failureCount := 0;
      successCount := 0;
    }
  }

  // ---------------------------------------------------------------------------
  // Runs

  /** A protected call asks with `Try`; an admitted call later ends in a success, in a
      failure that may or may not be of a tracked type, or unrecorded (it was cancelled). */
  datatype Event =
    | Try(at: real)
    | Success(at: real)
    | Failure(at: real, tracked: bool)
    | Vanish(at: real)

  predicate IsTrackedFailure(e: Event) {
    e.Failure? && e.tracked
  }

  function Step(cfg: Config, b: Breaker, e: Event): Breaker {
    match e
    case Try(now) => Admission(cfg, b, now).0
    case Success(_) => AfterSuccess(cfg, b)
    case Failure(now, tracked) => AfterFailure(cfg, b, tracked, now)
    case Vanish(_) => b
  }

  function Run(cfg: Config, h: seq<Event>): Breaker {
    if h == [] then INITIAL else Step(cfg, Run(cfg, h[..|h| - 1]), h[|h| - 1])
  }

  predicate Admitted(cfg: Config, b: Breaker, e: Event) {
    e.Try? && Admission(cfg, b, e.at).1
  }

  /** Admitted calls that have not ended yet. */
  function InFlight(cfg: Config, h: seq<Event>): int {
    if h == [] then 0
    else
      var p, e := h[..|h| - 1], h[|h| - 1];
      InFlight(cfg, p) + (if e.Try? then (if Admitted(cfg, Run(cfg, p), e) then 1 else 0) else -1)
  }

  function Clock(h: seq<Event>): real {
    if h == [] then 0.0 else h[|h| - 1].at
  }

  /** The clock is positive and never goes back, and only a call in flight can end. */
  ghost predicate Valid(cfg: Config, h: seq<Event>) {
    h == [] ||
    var p, e := h[..|h| - 1], h[|h| - 1];
    Valid(cfg, p) && 0.0 < e.at && Clock(p) <= e.at && (e.Try? || InFlight(cfg, p) > 0)
  }

  lemma RunSnoc(cfg: Config, h: seq<Event>, e: Event)
    ensures Run(cfg, h + [e]) == Step(cfg, Run(cfg, h), e)
    ensures Clock(h + [e]) == e.at
    ensures InFlight(cfg, h + [e]) ==
            InFlight(cfg, h) + (if e.Try? then (if Admitted(cfg, Run(cfg, h), e) then 1 else 0) else -1)
    ensures Valid(cfg, h + [e]) <==> Valid(cfg, h) && 0.0 < e.at && Clock(h) <= e.at && (e.Try? || InFlight(cfg, h) > 0)
  {
    assert (h + [e])[..|h|] == h;
  }

  // ---------------------------------------------------------------------------
  // The counters are functions of the history

  function Count(pick: Event -> bool, h: seq<Event>): nat {
    |Filter(pick, h)|
  }

  const SUCCESSES: Event -> bool := (e: Event) => e.Success?
  const TRACKED: Event -> bool := (e: Event) => IsTrackedFailure(e)

  /** Tracked failures recorded after the last success. */
  function FailuresSinceSuccess(h: seq<Event>): nat {
    if h == [] || h[|h| - 1].Success? then 0
    else FailuresSinceSuccess(h[..|h| - 1]) + (if IsTrackedFailure(h[|h| - 1]) then 1 else 0)
  }

  function LastTrackedFailure(h: seq<Event>): Option<real> {
    if h == [] then None
    else if IsTrackedFailure(h[|h| - 1]) then Some(h[|h| - 1].at)
    else LastTrackedFailure(h[..|h| - 1])
  }

  /** While closed, `failureCount` is the number of tracked failures since the last success
      (closing happens on a success) and is below the threshold; the time of the last
      failure and both totals are those of the history. */
  lemma {:induction false} CountersAreHistory(cfg: Config, h: seq<Event>)
    ensures var b := Run(cfg, h);
            && b.lastFailureTime == LastTrackedFailure(h)
            && b.totalSuccesses == Count(SUCCESSES, h)
            && b.totalFailures == Count(TRACKED, h)
            && (b.state == Closed ==>
                  && b.failureCount == FailuresSinceSuccess(h)
                  && b.failureCount < Max(1, cfg.failureThreshold))
            && (b.state != Closed ==> b.lastFailureTime.Some?)
  {
    if h != [] {
      CountersAreHistory(cfg, h[..|h| - 1]);
    }
  }

  lemma {:induction false} FailureTimesArePositive(cfg: Config, h: seq<Event>)
    requires Valid(cfg, h)
    ensures LastTrackedFailure(h).Some? ==> 0.0 < LastTrackedFailure(h).value <= Clock(h)
  {
    if h != [] {
      FailureTimesArePositive(cfg, h[..|h| - 1]);
    }
  }

  /** An open breaker admits a call exactly when `timeout` has passed since the latest
      tracked failure; only such a call moves it, and it moves it to half-open. */
  lemma OpenUntilTimeout(cfg: Config, h: seq<Event>, e: Event)
    requires Valid(cfg, h + [e]) && Run(cfg, h).state == Open
    ensures LastTrackedFailure(h).Some?
    ensures Admitted(cfg, Run(cfg, h), e) <==> e.Try? && e.at - LastTrackedFailure(h).value >= cfg.timeout
    ensures Run(cfg, h + [e]).state == if Admitted(cfg, Run(cfg, h), e) then HalfOpen else Open
  {
    RunSnoc(cfg, h, e);
    CountersAreHistory(cfg, h);
    FailureTimesArePositive(cfg, h);
  }

  /** A closed breaker opens exactly on the tracked failure that completes
      `failureThreshold` of them with no success between. */
  lemma ClosedUntilThreshold(cfg: Config, h: seq<Event>, e: Event)
    requires Run(cfg, h).state == Closed
    ensures Run(cfg, h + [e]).state ==
            if IsTrackedFailure(e) && FailuresSinceSuccess(h + [e]) >= cfg.failureThreshold then Open else Closed
  {
    RunSnoc(cfg, h, e);
    CountersAreHistory(cfg, h);
    assert (h + [e])[..|h|] == h;
  }

  /** A half-open period: opened by the admitted call at index i, with no tracked failure
      since, and as many successes as the breaker counts. */
  ghost predicate ProbingSince(cfg: Config, h: seq<Event>, i: nat) {
    && i < |h|
    && Run(cfg, h[..i]).state == Open && Admitted(cfg, Run(cfg, h[..i]), h[i])
    && (forall j :: i < j <= |h| ==> Run(cfg, h[..j]).state == HalfOpen)
    && Count(TRACKED, h[i + 1..]) == 0
    && Run(cfg, h).successCount == Count(SUCCESSES, h[i + 1..]) < Max(1, cfg.successThreshold)
  }

  lemma PeriodCounts(p: seq<Event>, i: nat, e: Event)
    requires i < |p|
    ensures Count(TRACKED, (p + [e])[i + 1..]) == Count(TRACKED, p[i + 1..]) + (if IsTrackedFailure(e) then 1 else 0)
    ensures Count(SUCCESSES, (p + [e])[i + 1..]) == Count(SUCCESSES, p[i + 1..]) + (if e.Success? then 1 else 0)
  {
    assert (p + [e])[i + 1..] == p[i + 1..] + [e];
    FilterAppend(TRACKED, p[i + 1..], [e]);
    FilterAppend(SUCCESSES, p[i + 1..], [e]);
  }

  lemma PeriodExtends(cfg: Config, p: seq<Event>, i: nat, e: Event)
    requires ProbingSince(cfg, p, i) && Run(cfg, p + [e]).state == HalfOpen
    ensures ProbingSince(cfg, p + [e], i)
  {
    var h := p + [e];
    RunSnoc(cfg, p, e);
    PeriodCounts(p, i, e);
    assert p[..|p|] == p && h[..i] == p[..i];
    forall j | i < j <= |h|
      ensures Run(cfg, h[..j]).state == HalfOpen
    {
      assert h[..j] == if j == |h| then h else p[..j];
    }
  }

  lemma {:induction false} HalfOpenPeriod(cfg: Config, h: seq<Event>) returns (i: nat)
    requires Run(cfg, h).state == HalfOpen
    ensures ProbingSince(cfg, h, i)
  {
    var p, e := h[..|h| - 1], h[|h| - 1];
    assert h == p + [e] && h[..|h|] == h;
    if Run(cfg, p).state == HalfOpen {
      i := HalfOpenPeriod(cfg, p);
      PeriodExtends(cfg, p, i, e);
    } else {
      i := |p|;
      assert h[i + 1..] == [];
    }
  }

  /** A half-open breaker closes exactly on the success that completes `successThreshold` of
      them (one, if that is not positive) since it became half-open, with no tracked failure
      between; a tracked failure reopens it and anything else leaves it half-open. */
  lemma HalfOpenUntilDecided(cfg: Config, h: seq<Event>, e: Event) returns (i: nat)
    requires Run(cfg, h).state == HalfOpen
    ensures ProbingSince(cfg, h, i)
    ensures Run(cfg, h + [e]).state ==
            if IsTrackedFailure(e) then Open
            else if e.Success? && Count(SUCCESSES, h[i + 1..]) + 1 == Max(1, cfg.successThreshold) then Closed
            else HalfOpen
  {
    i := HalfOpenPeriod(cfg, h);
    RunSnoc(cfg, h, e);
  }

  // ---------------------------------------------------------------------------
  // Recovery can wedge exactly when max(1, successThreshold) > halfOpenMaxCalls

  /** No call in flight, and no continuation ever admits one. */
  ghost predicate Wedged(cfg: Config, h: seq<Event>) {
    && Run(cfg, h).state == HalfOpen
    && InFlight(cfg, h) == 0
    && forall g, e :: Valid(cfg, h + g + [e]) ==> !Admitted(cfg, Run(cfg, h + g), e)
  }

  lemma {:induction false} StuckForever(cfg: Config, h: seq<Event>, g: seq<Event>)
    requires Run(cfg, h).state == HalfOpen && Run(cfg, h).successCount >= cfg.halfOpenMaxCalls
    requires InFlight(cfg, h) == 0 && Valid(cfg, h + g)
    ensures Run(cfg, h + g) == Run(cfg, h) && InFlight(cfg, h + g) == 0
    decreases |g|
  {
    if g == [] {
      assert h + g == h;
    } else {
      var q, e := g[..|g| - 1], g[|g| - 1];
      assert h + g == h + q + [e];
      RunSnoc(cfg, h + q, e);
      StuckForever(cfg, h, q);
    }
  }

  function Repeat(round: seq<Event>, n: nat): seq<Event> {
    if n == 0 then [] else Repeat(round, n - 1) + round
  }

  lemma {:induction false} FailingRounds(cfg: Config, n: nat)
    requires n <= Max(1, cfg.failureThreshold)
    ensures var h := Repeat([Try(1.0), Failure(1.0, true)], n);
            && Valid(cfg, h) && InFlight(cfg, h) == 0 && Clock(h) <= 1.0
            && Run(cfg, h).failureCount == n
            && (n > 0 ==> Run(cfg, h).lastFailureTime == Some(1.0))
            && Run(cfg, h).state == if n == Max(1, cfg.failureThreshold) then Open else Closed
  {
    if n > 0 {
      FailingRounds(cfg, n - 1);
      FailingRound(cfg, Repeat([Try(1.0), Failure(1.0, true)], n - 1));
    }
  }

  lemma FailingRound(cfg: Config, h: seq<Event>)
    requires Valid(cfg, h) && InFlight(cfg, h) == 0 && Clock(h) <= 1.0 && Run(cfg, h).state == Closed
    ensures var r, failures := h + [Try(1.0), Failure(1.0, true)], Run(cfg, h).failureCount + 1;
            && Valid(cfg, r) && InFlight(cfg, r) == 0 && Clock(r) == 1.0
            && Run(cfg, r).failureCount == failures && Run(cfg, r).lastFailureTime == Some(1.0)
            && Run(cfg, r).state == if failures >= cfg.failureThreshold then Open else Closed
  {
    RunSnoc(cfg, h, Try(1.0));
    RunSnoc(cfg, h + [Try(1.0)], Failure(1.0, true));
    assert h + [Try(1.0), Failure(1.0, true)] == h + [Try(1.0)] + [Failure(1.0, true)];
  }

  lemma SucceedingRound(cfg: Config, h: seq<Event>, t: real)
    requires Valid(cfg, h) && InFlight(cfg, h) == 0 && 0.0 < t && Clock(h) == t
    requires Run(cfg, h).state == HalfOpen
    requires Run(cfg, h).successCount < cfg.halfOpenMaxCalls && Run(cfg, h).successCount + 1 < cfg.successThreshold
    ensures var r := h + [Try(t), Success(t)];
            && Valid(cfg, r) && InFlight(cfg, r) == 0 && Clock(r) == t
            && Run(cfg, r).state == HalfOpen
            && Run(cfg, r).successCount == Run(cfg, h).successCount + 1
  {
    RunSnoc(cfg, h, Try(t));
    RunSnoc(cfg, h + [Try(t)], Success(t));
    assert h + [Try(t), Success(t)] == h + [Try(t)] + [Success(t)];
  }

  lemma {:induction false} SucceedingRounds(cfg: Config, h: seq<Event>, t: real, n: nat)
    requires Valid(cfg, h) && InFlight(cfg, h) == 0 && 0.0 < t && Clock(h) == t
    requires Run(cfg, h).state == HalfOpen
    requires Run(cfg, h).successCount + n <= cfg.halfOpenMaxCalls
    requires Run(cfg, h).successCount + n < cfg.successThreshold
    ensures var r := h + Repeat([Try(t), Success(t)], n);
            && Valid(cfg, r) && InFlight(cfg, r) == 0 && Clock(r) == t
            && Run(cfg, r).state == HalfOpen
            && Run(cfg, r).successCount == Run(cfg, h).successCount + n
  {
    if n == 0 {
      assert h + Repeat([Try(t), Success(t)], 0) == h;
    } else {
      SucceedingRounds(cfg, h, t, n - 1);
      var q := h + Repeat([Try(t), Success(t)], n - 1);
      SucceedingRound(cfg, q, t);
      assert h + Repeat([Try(t), Success(t)], n) == q + [Try(t), Success(t)];
    }
  }

  lemma ReachProbe(cfg: Config) returns (h: seq<Event>, t: real)
    ensures Valid(cfg, h) && InFlight(cfg, h) == 1 && 0.0 < t && Clock(h) == t
    ensures Run(cfg, h).state == HalfOpen && Run(cfg, h).successCount == 0
  {
    var n := Max(1, cfg.failureThreshold);
    var p := Repeat([Try(1.0), Failure(1.0, true)], n);
    FailingRounds(cfg, n);
    t := if cfg.timeout > 0.0 then 1.0 + cfg.timeout else 1.0;
    h := p + [Try(t)];
    RunSnoc(cfg, p, Try(t));
  }

  lemma ReachWedge(cfg: Config) returns (h: seq<Event>)
    requires Max(1, cfg.successThreshold) > cfg.halfOpenMaxCalls
    ensures Valid(cfg, h) && Wedged(cfg, h)
  {
    var p, t := ReachProbe(cfg);
    if cfg.halfOpenMaxCalls <= 0 {
      h := p + [Vanish(t)];
      RunSnoc(cfg, p, Vanish(t));
    } else {
      var q := p + [Success(t)];
      RunSnoc(cfg, p, Success(t));
      SucceedingRounds(cfg, q, t, cfg.halfOpenMaxCalls - 1);
      h := q + Repeat([Try(t), Success(t)], cfg.halfOpenMaxCalls - 1);
    }
    FullIsWedged(cfg, h);
  }

  lemma FullIsWedged(cfg: Config, h: seq<Event>)
    requires Run(cfg, h).state == HalfOpen && Run(cfg, h).successCount >= cfg.halfOpenMaxCalls
    requires InFlight(cfg, h) == 0
    ensures Wedged(cfg, h)
  {
    forall g, e | Valid(cfg, h + g + [e])
      ensures !Admitted(cfg, Run(cfg, h + g), e)
    {
      RunSnoc(cfg, h + g, e);
      StuckForever(cfg, h, g);
    }
  }

  ghost predicate CanWedge(cfg: Config) {
    exists h :: Valid(cfg, h) && Wedged(cfg, h)
  }

  /** Some reachable half-open state with nothing in flight rejects for ever if and only if
      more successes are needed to close than the half-open state lets through. */
  lemma WedgesExactly(cfg: Config)
    ensures CanWedge(cfg) <==> Max(1, cfg.successThreshold) > cfg.halfOpenMaxCalls
  {
    if Max(1, cfg.successThreshold) > cfg.halfOpenMaxCalls {
      var h := ReachWedge(cfg);
    } else {
      forall h | Valid(cfg, h)
        ensures !Wedged(cfg, h)
      {
        if Run(cfg, h).state == HalfOpen {
          var i := HalfOpenPeriod(cfg, h);
          var probe := Try(Clock(h));
          RunSnoc(cfg, h, probe);
          assert h + [] == h;
          assert Valid(cfg, h + [] + [probe]) && Admitted(cfg, Run(cfg, h + []), probe);
        }
      }
    }
  }

  /** With enough room, every reachable half-open state admits a call at any time. */
  lemma HalfOpenAlwaysAdmits(cfg: Config, h: seq<Event>, now: real)
    requires Max(1, cfg.successThreshold) <= cfg.halfOpenMaxCalls && Run(cfg, h).state == HalfOpen
    ensures Admitted(cfg, Run(cfg, h), Try(now))
  {
    var i := HalfOpenPeriod(cfg, h);
  }

  // ---------------------------------------------------------------------------
  // How many calls a half-open state lets through

  /** Calls admitted since the breaker last became half-open, that first call included. */
  function ProbeCalls(cfg: Config, h: seq<Event>): nat {
    if h == [] || Run(cfg, h).state != HalfOpen then 0
    else
      var p, e := h[..|h| - 1], h[|h| - 1];
      ProbeCalls(cfg, p) + (if Admitted(cfg, Run(cfg, p), e) then 1 else 0)
  }

  ghost predicate CanProbe(cfg: Config, n: nat) {
    exists h :: Valid(cfg, h) && ProbeCalls(cfg, h) >= n
  }

  lemma ProbeCallsSnoc(cfg: Config, h: seq<Event>, e: Event)
    requires Run(cfg, h + [e]).state == HalfOpen
    ensures ProbeCalls(cfg, h + [e]) == ProbeCalls(cfg, h) + (if Admitted(cfg, Run(cfg, h), e) then 1 else 0)
  {
    assert (h + [e])[..|h|] == h;
  }

  /** n calls at once, none of which has ended: no success is recorded to count against. */
  lemma {:induction false} ProbeAtOnce(cfg: Config, n: nat) returns (h: seq<Event>, t: real)
    requires n >= 1 && (n == 1 || cfg.halfOpenMaxCalls >= 1)
    ensures Valid(cfg, h) && 0.0 < t && Clock(h) == t && InFlight(cfg, h) == n
    ensures Run(cfg, h).state == HalfOpen && Run(cfg, h).successCount == 0 && ProbeCalls(cfg, h) >= n
  {
    if n == 1 {
      h, t := ReachProbe(cfg);
      FirstProbeCounts(cfg, h);
    } else {
      var p;
      p, t := ProbeAtOnce(cfg, n - 1);
      h := p + [Try(t)];
      RunSnoc(cfg, p, Try(t));
      ProbeCallsSnoc(cfg, p, Try(t));
    }
  }

  /** A half-open state has admitted at least the call that opened the period. */
  lemma {:induction false} FirstProbeCounts(cfg: Config, h: seq<Event>)
    requires Run(cfg, h).state == HalfOpen
    ensures ProbeCalls(cfg, h) >= 1
    ensures cfg.halfOpenMaxCalls <= 0 ==> ProbeCalls(cfg, h) == 1
  {
    var p := h[..|h| - 1];
    if Run(cfg, p).state == HalfOpen {
      FirstProbeCounts(cfg, p);
      if Admitted(cfg, Run(cfg, p), h[|h| - 1]) {
        var i := HalfOpenPeriod(cfg, p);
      }
    }
  }

  /** The configured maximum does not bound the calls of a half-open period: from 1 on, a
      period can admit any number of them, and below that it admits one. */
  lemma ProbesUnboundedExactly(cfg: Config)
    ensures (forall n: nat :: CanProbe(cfg, n)) <==> cfg.halfOpenMaxCalls >= 1
    ensures cfg.halfOpenMaxCalls <= 0 ==> CanProbe(cfg, 1) && forall h :: ProbeCalls(cfg, h) <= 1
  {
    if cfg.halfOpenMaxCalls >= 1 {
      forall n: nat
        ensures CanProbe(cfg, n)
      {
        var h, t := ProbeAtOnce(cfg, n + 1);
      }
    } else {
      var h, t := ProbeAtOnce(cfg, 1);
      forall h
        ensures ProbeCalls(cfg, h) <= 1
      {
        if Run(cfg, h).state == HalfOpen {
          FirstProbeCounts(cfg, h);
        }
      }
      assert !CanProbe(cfg, 2);
    }
  }

  /** What a period does bound is its successes: a call is admitted only while fewer than the
      maximum were recorded in it, the call that opened it excepted. */
  lemma ProbeNeedsRoom(cfg: Config, h: seq<Event>, e: Event) returns (i: nat)
    requires Run(cfg, h).state == HalfOpen
    ensures ProbingSince(cfg, h, i)
    ensures Admitted(cfg, Run(cfg, h), e) <==> e.Try? && Count(SUCCESSES, h[i + 1..]) < cfg.halfOpenMaxCalls
  {
    i := HalfOpenPeriod(cfg, h);
  }

  /** Tracked failures since the last success that cleared them: one recorded outside the
      half-open state, or the one that closed the breaker. */
  function FailuresSinceCleared(cfg: Config, h: seq<Event>): nat {
    if h == [] then 0
    else
      var p, e := h[..|h| - 1], h[|h| - 1];
      if e.Success? && !(Run(cfg, p).state == HalfOpen && Run(cfg, h).state == HalfOpen) then 0
      else FailuresSinceCleared(cfg, p) + (if IsTrackedFailure(e) then 1 else 0)
  }

  /** Successes since the breaker last changed its state. */
  function SuccessesSinceChange(cfg: Config, h: seq<Event>): nat {
    if h == [] then 0
    else
      var p, e := h[..|h| - 1], h[|h| - 1];
      if Run(cfg, p).state != Run(cfg, h).state then 0
      else SuccessesSinceChange(cfg, p) + (if e.Success? then 1 else 0)
  }

  /** In every state, not only those where they decide something, both counters are these. */
  lemma {:induction false} CountersInEveryState(cfg: Config, h: seq<Event>)
    ensures Run(cfg, h).failureCount == FailuresSinceCleared(cfg, h)
    ensures Run(cfg, h).successCount == SuccessesSinceChange(cfg, h)
  {
    if h != [] {
      CountersInEveryState(cfg, h[..|h| - 1]);
    }
  }

  /** Calls turned away while the breaker was open. */
  function TurnedAway(cfg: Config, h: seq<Event>): nat {
    if h == [] then 0
    else
      var p, e := h[..|h| - 1], h[|h| - 1];
      TurnedAway(cfg, p) + (if e.Try? && Run(cfg, p).state == Open && !Admitted(cfg, Run(cfg, p), e) then 1 else 0)
  }

  /** `_rejection_count` counts exactly these; calls turned away half-open are not in it. */
  lemma {:induction false} RejectionsAreCounted(cfg: Config, h: seq<Event>)
    requires Valid(cfg, h)
    ensures Run(cfg, h).rejectionCount == TurnedAway(cfg, h)
  {
    if h != [] {
      var p := h[..|h| - 1];
      RejectionsAreCounted(cfg, p);
      CountersAreHistory(cfg, p);
      FailureTimesArePositive(cfg, p);
    }
  }

  lemma Presets()
    ensures !CanWedge(DEFAULT) && !CanWedge(LLM) && !CanWedge(SANDBOX)
    ensures CanWedge(DATABASE)
  {
    WedgesExactly(DEFAULT);
    WedgesExactly(LLM);
    WedgesExactly(SANDBOX);
    WedgesExactly(DATABASE);
  }
}
