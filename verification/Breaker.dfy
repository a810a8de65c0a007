/**
  The circuit breaker of internal/proxy/breaker.go with every method taken as one atomic step;
  BreakerAtomic.dfy splits the methods into their single atomic operations.
 */
module Breaker {

  datatype Mode = Closed | Open | HalfOpen

  const INT32_MAX := 0x7fff_ffff
  const DEFAULT_THRESHOLD := 5
  const DEFAULT_TIMEOUT := 30_000_000_000 // 30 s in nanoseconds

  /** Two's complement truncation to 32 bits: the counter is an int32 and so is the compared threshold. */
  function Int32(x: int): int {
    (x + 0x8000_0000) % 0x1_0000_0000 - 0x8000_0000
  }

  datatype State = State(mode: Mode, failures: int, lastFailure: int)

  datatype Config = Config(threshold: int, timeout: int)

  const FRESH := State(Closed, 0, 0)

  function Limit(c: Config): int { Int32(c.threshold) }

  /** Whether a call at `now` is let through. */
  predicate Grants(c: Config, s: State, now: int) {
    s.mode.Open? ==> now - s.lastFailure >= c.timeout
  }

  function AfterAllow(c: Config, s: State, now: int): State {
    if s.mode.Open? && Grants(c, s, now) then s.(mode := HalfOpen) else s
  }

  function AfterSuccess(s: State): State {
    if s.mode.Open? then s else s.(mode := Closed, failures := 0)
  }

  function AfterFailure(c: Config, s: State, now: int): State {
    var fails := Int32(s.failures + 1);
    if fails >= Limit(c) then State(Open, fails, now) else s.(failures := fails)
  }

  class CircuitBreaker {
    var mode: Mode
    var failures: int
    var lastFailure: int
    const threshold: int
    const timeout: int
    const name: string

    function View(): State reads this { State(mode, failures, lastFailure) }

    function Settings(): Config { Config(threshold, timeout) }

    constructor (name: string, threshold: int, timeout: int)
      ensures View() == FRESH && this.name == name
      ensures this.threshold == (if threshold == 0 then 5 else threshold)
      ensures this.timeout == (if timeout == 0 then 30_000_000_000 else timeout)
    {
      this.threshold := if threshold == 0 then DEFAULT_THRESHOLD else threshold;
      this.timeout := if timeout == 0 then DEFAULT_TIMEOUT else timeout;
      this.name := name;
      mode, failures, lastFailure := Closed, 0, 0;
    }

    method Allow(now: int) returns (ok: bool)
      modifies this`mode
      ensures ok <==> Grants(Settings(), old(View()), now)
      ensures View() == AfterAllow(Settings(), old(View()), now)
    {
      match mode
      case Closed => return true;
      case Open =>
        if now - lastFailure >= timeout {
          mode := HalfOpen;
          return true;
        }
        return false;
      case HalfOpen => return true;
    }

    method RecordSuccess()
      modifies this`mode, this`failures
      ensures View() == AfterSuccess(old(View()))
    {
      if mode == HalfOpen || mode == Closed {
        failures := 0;
        mode := Closed;
      }
    }

    method RecordFailure(now: int)
      modifies this
      ensures View() == AfterFailure(Settings(), old(View()), now)
    {
      failures := Int32(failures + 1);
      if failures >= Int32(threshold) {
        lastFailure := now;
        mode := Open;
      }
    }
  }

  // ---------------------------------------------------------------- runs of atomic calls

  datatype Event = Allow(now: int) | Success(now: int) | Failure(now: int)

  function Step(c: Config, s: State, e: Event): State {
    match e
    case Allow(now) => AfterAllow(c, s, now)
    case Success(_) => AfterSuccess(s)
    case Failure(now) => AfterFailure(c, s, now)
  }

  function Run(c: Config, run: seq<Event>): State {
    if run == [] then FRESH else Step(c, Run(c, run[..|run| - 1]), run[|run| - 1])
  }

  /** RecordFailure calls since the last RecordSuccess that was made while not OPEN. */
  function Streak(c: Config, run: seq<Event>): nat {
    if run == [] then 0 else
    var before := run[..|run| - 1];
    match run[|run| - 1]
    case Allow(_) => Streak(c, before)
    case Success(_) => if Run(c, before).mode.Open? then Streak(c, before) else 0
    case Failure(_) => Streak(c, before) + 1
  }

  lemma Int32Successor(x: int)
    ensures Int32(Int32(x) + 1) == Int32(x + 1)
    ensures -0x8000_0000 <= x <= INT32_MAX ==> Int32(x) == x
  {
  }

  /** The int32 with the same low bits. */
  lemma Int32IsTruncation(x: int)
    ensures -0x8000_0000 <= Int32(x) <= 0x7fff_ffff && (x - Int32(x)) % 0x1_0000_0000 == 0
  {
  }

  lemma {:induction false} CounterIsStreak(c: Config, run: seq<Event>)
    ensures Run(c, run).failures == Int32(Streak(c, run))
  {
    if run != [] {
      CounterIsStreak(c, run[..|run| - 1]);
      Int32Successor(Streak(c, run[..|run| - 1]));
    }
  }

  /** The breaker is away from CLOSED exactly when the streak has reached the threshold. */
  ghost predicate ModeTracksStreak(threshold: int) {
    forall timeout: int, run: seq<Event> ::
      var c := Config(threshold, timeout);
      Run(c, run).mode != Closed <==> Streak(c, run) >= Limit(c)
  }

  lemma {:induction false} ModeFollowsStreak(c: Config, run: seq<Event>)
    requires Limit(c) > 0
    ensures Run(c, run).mode != Closed <==> Streak(c, run) >= Limit(c)
  {
    if run != [] {
      var before := run[..|run| - 1];
      ModeFollowsStreak(c, before);
      CounterIsStreak(c, before);
    }
  }

  /** What the health endpoint reads: short of an overflow the counter itself decides the mode. */
  lemma CounterDecidesMode(c: Config, run: seq<Event>)
    requires Limit(c) > 0 && Streak(c, run) <= INT32_MAX
    ensures Run(c, run).failures == Streak(c, run)
    ensures Run(c, run).mode != Closed <==> Run(c, run).failures >= Limit(c)
  {
    CounterIsStreak(c, run);
    ModeFollowsStreak(c, run);
    Int32Successor(Streak(c, run));
  }

  /** The counter property holds over every trace iff the truncated threshold is positive, overflow or not. */
  lemma ModeTracksStreakExact(threshold: int)
    ensures ModeTracksStreak(threshold) <==> Int32(threshold) > 0
  {
    if Int32(threshold) > 0 {
      forall timeout: int, run: seq<Event>
        ensures var c := Config(threshold, timeout); Run(c, run).mode != Closed <==> Streak(c, run) >= Limit(c)
      {
        ModeFollowsStreak(Config(threshold, timeout), run);
      }
    } else {
      var c := Config(threshold, 0);
      assert Run(c, []).mode == Closed && Streak(c, []) >= Limit(c);
    }
  }

  lemma CountsExtend(c: Config, run: seq<Event>, e: Event)
    ensures Granted(c, run + [e]) == Granted(c, run) + if e.Allow? && Grants(c, Run(c, run), e.now) then 1 else 0
    ensures Successes(run + [e]) == Successes(run) + if e.Success? then 1 else 0
    ensures Failures(run + [e]) == Failures(run) + if e.Failure? then 1 else 0
  {
    assert (run + [e])[..|run + [e]| - 1] == run;
  }

  lemma FailureAfterStreak(c: Config, s: State, streak: nat, now: int)
    requires s.failures == Int32(streak) && s.mode.HalfOpen? && streak >= Limit(c) > 0
    ensures AfterFailure(c, s, now).mode.Open? <==> Int32(streak + 1) >= Limit(c)
    ensures streak < INT32_MAX ==> AfterFailure(c, s, now) == State(Open, streak + 1, now)
  {
    Int32Successor(streak);
  }

  /** In a reachable HALF-OPEN state one failed call reopens, unless the counter overflows. */
  lemma FailedProbeReopens(c: Config, run: seq<Event>, now: int)
    requires Limit(c) > 0 && Run(c, run).mode.HalfOpen?
    ensures Run(c, run + [Failure(now)]).mode.Open? <==> Int32(Streak(c, run) + 1) >= Limit(c)
    ensures Streak(c, run) < INT32_MAX ==> Run(c, run + [Failure(now)]) == State(Open, Streak(c, run) + 1, now)
  {
    CounterIsStreak(c, run);
    ModeFollowsStreak(c, run);
    FailureAfterStreak(c, Run(c, run), Streak(c, run), now);
  }

  // ---------------------------------------------------------------- when an OPEN breaker lets a call through

  /** The position of the last failure that reached the threshold, -1 if there is none. */
  function LastOpening(c: Config, run: seq<Event>): int
    ensures -1 <= LastOpening(c, run) < |run|
  {
    if run == [] then -1
    else if run[|run| - 1].Failure? && Int32(Streak(c, run)) >= Limit(c) then |run| - 1
    else LastOpening(c, run[..|run| - 1])
  }

  /** A call at `run[k]` that comes a timeout after the opening at `run[o]`. */
  predicate DueCall(c: Config, run: seq<Event>, o: int, k: int) {
    0 <= o < k < |run| && run[k].Allow? && run[k].now - run[o].now >= c.timeout
  }

  /** The breaker has opened, and no call has come a timeout after it did so last. */
  predicate WaitsSince(c: Config, run: seq<Event>, o: int) {
    0 <= o < |run| && forall k :: o < k < |run| ==> !DueCall(c, run, o, k)
  }

  lemma WaitsLonger(c: Config, run: seq<Event>, o: int, e: Event)
    requires o < |run|
    ensures WaitsSince(c, run + [e], o) <==> WaitsSince(c, run, o) && !(e.Allow? && e.now - run[o].now >= c.timeout)
  {
    var after := run + [e];
    if 0 <= o {
      assert forall k :: o < k < |run| ==> (DueCall(c, run, o, k) <==> DueCall(c, after, o, k));
      assert DueCall(c, after, o, |run|) <==> e.Allow? && e.now - run[o].now >= c.timeout;
    }
  }

  /** OPEN, and since when, read off the trace. */
  lemma {:induction false} OpenExactly(c: Config, run: seq<Event>)
    ensures var o := LastOpening(c, run);
            && (Run(c, run).mode.Open? <==> WaitsSince(c, run, o))
            && (0 <= o ==> Run(c, run).lastFailure == run[o].now)
  {
    if run != [] {
      var before, e := run[..|run| - 1], run[|run| - 1];
      OpenExactly(c, before);
      CounterIsStreak(c, run);
      if LastOpening(c, run) < |before| {
        WaitsLonger(c, before, LastOpening(c, before), e);
        assert before + [e] == run;
      }
    }
  }

  /**
    The answer of every Allow: an OPEN breaker lets a call through, and is HALF-OPEN afterwards, exactly when the
    timeout has passed since the last failure that opened it; any other breaker lets every call through.
   */
  lemma AllowAnswersExactly(c: Config, run: seq<Event>, now: int)
    ensures var o := LastOpening(c, run);
            var after := Run(c, run + [Allow(now)]);
            if WaitsSince(c, run, o)
            then (Grants(c, Run(c, run), now) <==> now - run[o].now >= c.timeout) &&
                 after.mode == if now - run[o].now >= c.timeout then HalfOpen else Open
            else Grants(c, Run(c, run), now) && after == Run(c, run)
  {
    OpenExactly(c, run);
    assert (run + [Allow(now)])[..|run|] == run;
  }

  // ---------------------------------------------------------------- spacing of the probes

  predicate Monotone(run: seq<Event>) {
    forall i, j :: 0 <= i < j < |run| ==> run[i].now <= run[j].now
  }

  /** The times of the OPEN to HALF-OPEN transitions. */
  function Probes(c: Config, run: seq<Event>): seq<int> {
    if run == [] then [] else
    var before, e := run[..|run| - 1], run[|run| - 1];
    var s := Run(c, before);
    Probes(c, before) + if s.mode.Open? && Step(c, s, e).mode.HalfOpen? then [e.now] else []
  }

  predicate Spaced(ts: seq<int>, gap: int) {
    forall i, j :: 0 <= i < j < |ts| ==> ts[i] + gap <= ts[j]
  }

  /** Any two OPEN to HALF-OPEN transitions are a full timeout apart, whatever late results interleave. */
  lemma {:induction false} ProbesAreSpaced(c: Config, run: seq<Event>)
    requires Monotone(run)
    ensures Spaced(Probes(c, run), c.timeout)
    ensures forall t | t in Probes(c, run) :: run != [] && t <= run[|run| - 1].now
    ensures Run(c, run).mode.Open? ==> forall t | t in Probes(c, run) :: t <= Run(c, run).lastFailure
  {
    if run != [] {
      var before, e := run[..|run| - 1], run[|run| - 1];
      ProbesAreSpaced(c, before);
      assert forall t | t in Probes(c, before) :: t <= e.now;
      forall i, j | 0 <= i < j < |Probes(c, run)|
        ensures Probes(c, run)[i] + c.timeout <= Probes(c, run)[j]
      {
        if j == |Probes(c, before)| {
          assert Probes(c, before)[i] in Probes(c, before);
        }
      }
    }
  }

  function CountIn(ts: seq<int>, lo: int, hi: int): nat {
    if ts == [] then 0 else
    CountIn(ts[..|ts| - 1], lo, hi) + if lo <= ts[|ts| - 1] <= hi then 1 else 0
  }

  lemma {:induction false} CountBelow(ts: seq<int>, lo: int, hi: int, bound: int)
    requires forall i :: 0 <= i < |ts| ==> ts[i] <= bound
    requires bound <= hi
    ensures CountIn(ts, lo, hi) == CountIn(ts, lo, bound)
    ensures bound < lo ==> CountIn(ts, lo, hi) == 0
  {
    if ts != [] {
      CountBelow(ts[..|ts| - 1], lo, hi, bound);
    }
  }

  lemma ProductMonotone(a: int, b: int, gap: int)
    requires a <= b && gap > 0
    ensures a * gap <= b * gap
  {
  }

  lemma QuotientAtLeast(b: int, k: int, gap: int)
    requires gap > 0
    ensures k * gap <= b ==> k <= b / gap
  {
    var q := b / gap;
    assert b < (q + 1) * gap;
    if q + 1 <= k {
      ProductMonotone(q + 1, k, gap);
    }
  }

  lemma DivisionStep(a: int, b: int, gap: int)
    requires gap > 0 && a + gap <= b
    ensures a / gap + 1 <= b / gap
  {
  }

  lemma {:induction false} SpacedCount(ts: seq<int>, gap: int, lo: int, hi: int)
    requires Spaced(ts, gap) && gap > 0 && lo <= hi
    ensures CountIn(ts, lo, hi) <= (hi - lo) / gap + 1
  {
    QuotientAtLeast(hi - lo, 0, gap);
    if ts != [] {
      var before, t := ts[..|ts| - 1], ts[|ts| - 1];
      if lo <= t <= hi {
        CountBelow(before, lo, hi, t - gap);
        if lo <= t - gap {
          SpacedCount(before, gap, lo, t - gap);
          DivisionStep(t - gap - lo, hi - lo, gap);
        }
      } else {
        SpacedCount(before, gap, lo, hi);
      }
    }
  }

  /** An interval of length L holds at most floor(L / timeout) + 1 OPEN to HALF-OPEN transitions. */
  lemma ProbeRate(c: Config, run: seq<Event>, start: int, length: nat)
    requires Monotone(run) && c.timeout > 0
    ensures CountIn(Probes(c, run), start, start + length) <= length / c.timeout + 1
  {
    ProbesAreSpaced(c, run);
    SpacedCount(Probes(c, run), c.timeout, start, start + length);
  }

  // ---------------------------------------------------------------- HALF-OPEN is CLOSED in disguise

  /** The answers of the Allow calls among `events`, started in `s`. */
  function Answers(c: Config, s: State, events: seq<Event>): seq<bool>
    decreases |events|
  {
    if events == [] then [] else
    (if events[0].Allow? then [Grants(c, s, events[0].now)] else []) +
    Answers(c, Step(c, s, events[0]), events[1..])
  }

  predicate Twins(s: State, t: State) {
    s == t || (s.(mode := t.mode) == t && !s.mode.Open? && !t.mode.Open?)
  }

  /** No future sequence of calls tells HALF-OPEN from CLOSED with the same counter and failure time. */
  lemma {:induction false} HalfOpenBehavesLikeClosed(c: Config, s: State, t: State, events: seq<Event>)
    requires Twins(s, t)
    ensures Answers(c, s, events) == Answers(c, t, events)
    decreases |events|
  {
    if events != [] {
      HalfOpenBehavesLikeClosed(c, Step(c, s, events[0]), Step(c, t, events[0]), events[1..]);
    }
  }

  /** HALF-OPEN lets every caller through until a result is recorded: there is no single probe. */
  lemma {:induction false} HalfOpenAdmitsEveryCaller(c: Config, s: State, events: seq<Event>)
    requires s.mode.HalfOpen? && forall e | e in events :: e.Allow?
    ensures Answers(c, s, events) == seq(|events|, _ => true)
    decreases |events|
  {
    if events != [] {
      HalfOpenAdmitsEveryCaller(c, s, events[1..]);
    }
  }

  // ---------------------------------------------------------------- counting the calls

  /** The Allow calls of a run that let their caller through. */
  function Granted(c: Config, run: seq<Event>): nat {
    if run == [] then 0 else
    var before, e := run[..|run| - 1], run[|run| - 1];
    Granted(c, before) + if e.Allow? && Grants(c, Run(c, before), e.now) then 1 else 0
  }

  function Successes(run: seq<Event>): nat {
    if run == [] then 0 else Successes(run[..|run| - 1]) + if run[|run| - 1].Success? then 1 else 0
  }

  function Failures(run: seq<Event>): nat {
    if run == [] then 0 else Failures(run[..|run| - 1]) + if run[|run| - 1].Failure? then 1 else 0
  }

}
