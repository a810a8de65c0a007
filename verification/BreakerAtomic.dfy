/**
  The circuit breaker of internal/proxy/breaker.go at the granularity of single atomic operations:
  loads, stores and the atomic add on `state` and `failures`, and the mutex around `lastFailure`.
  Any number of threads run any of the three methods.
 */
module BreakerAtomic {
  import opened Breaker

  type Tid = nat

  datatype Method = DoAllow | DoSuccess | DoFailure

  /** Where a thread stands between two of its atomic operations. */
  datatype PC =
    | AllowLocking            // read OPEN, about to lock
    | AllowComparing          // holds the mutex
    | AllowStoring(at: int)   // holds the mutex, the timeout had elapsed at `at`
    | AllowUnlocking
    | SuccessStoringFailures
    | SuccessStoringState
    | FailureLocking
    | FailureStamping         // holds the mutex
    | FailureStoring(stamp: int)
    | FailureUnlocking

  predicate Holding(pc: PC) {
    pc.AllowComparing? || pc.AllowStoring? || pc.AllowUnlocking? ||
    pc.FailureStamping? || pc.FailureStoring? || pc.FailureUnlocking?
  }

  datatype MaybeTid = Nobody | Held(tid: Tid)

  /** An opening with the clock reading it recorded, or a call granted after finding the breaker OPEN. */
  datatype Entry = Opened(stamp: int) | Granted(at: int)

  datatype Shared = Shared(mode: Mode, failures: int, lastFailure: int, holder: MaybeTid,
                           clock: int, threads: map<Tid, PC>, log: seq<Entry>)

  const START := Shared(Closed, 0, 0, Nobody, 0, map[], [])

  /** `Begin` performs a method's first atomic operation, `Go` the next one. */
  datatype Op = Begin(tid: Tid, m: Method) | Go(tid: Tid) | Tick(elapsed: nat)

  predicate CanDo(s: Shared, op: Op) {
    match op
    case Begin(t, _) => t !in s.threads
    case Go(t) => t in s.threads && (s.threads[t].AllowLocking? || s.threads[t].FailureLocking? ==> s.holder.Nobody?)
    case Tick(_) => true
  }

  function At(s: Shared, t: Tid, pc: PC): Shared { s.(threads := s.threads[t := pc]) }

  function Finished(s: Shared, t: Tid): Shared { s.(threads := s.threads - {t}) }

  function Do(c: Config, s: Shared, op: Op): Shared {
    match op
    case Tick(elapsed) => s.(clock := s.clock + elapsed)
    case Begin(t, DoAllow) => if s.mode.Open? then At(s, t, AllowLocking) else s
    case Begin(t, DoSuccess) => if s.mode.Open? then s else At(s, t, SuccessStoringFailures)
    case Begin(t, DoFailure) =>
      var s' := s.(failures := Int32(s.failures + 1));
      if s'.failures >= Limit(c) then At(s', t, FailureLocking) else s'
    case Go(t) => if t in s.threads then Continue(c, s, t, s.threads[t]) else s
  }

  /** The next atomic operation of a thread standing at `pc`. */
  function Continue(c: Config, s: Shared, t: Tid, pc: PC): Shared {
    match pc
    case AllowLocking => At(s.(holder := Held(t)), t, AllowComparing)
    case AllowComparing =>
      At(s, t, if s.clock - s.lastFailure >= c.timeout then AllowStoring(s.clock) else AllowUnlocking)
    case AllowStoring(at) => At(s.(mode := HalfOpen, log := s.log + [Granted(at)]), t, AllowUnlocking)
    case AllowUnlocking => Finished(s.(holder := Nobody), t)
    case SuccessStoringFailures => At(s.(failures := 0), t, SuccessStoringState)
    case SuccessStoringState => Finished(s.(mode := Closed), t)
    case FailureLocking => At(s.(holder := Held(t)), t, FailureStamping)
    case FailureStamping => At(s.(lastFailure := s.clock), t, FailureStoring(s.clock))
    case FailureStoring(stamp) => At(s.(mode := Open, log := s.log + [Opened(stamp)]), t, FailureUnlocking)
    case FailureUnlocking => Finished(s.(holder := Nobody), t)
  }

  function Run(c: Config, ops: seq<Op>): Shared {
    if ops == [] then START else Do(c, Run(c, ops[..|ops| - 1]), ops[|ops| - 1])
  }

  predicate Legal(c: Config, ops: seq<Op>) {
    ops == [] ||
    (Legal(c, ops[..|ops| - 1]) && CanDo(Run(c, ops[..|ops| - 1]), ops[|ops| - 1]))
  }

  predicate HasOpened(log: seq<Entry>) { exists e :: e in log && e.Opened? }

  /** The clock reading of the latest opening. */
  function LatestOpening(log: seq<Entry>): int
    requires HasOpened(log)
  {
    if log[|log| - 1].Opened? then log[|log| - 1].stamp else LatestOpening(log[..|log| - 1])
  }

  predicate OpeningsUpTo(log: seq<Entry>, bound: int) {
    forall e :: e in log && e.Opened? ==> e.stamp <= bound
  }

  /** A granted call comes a full timeout after every opening logged before it. */
  predicate GrantsWaited(log: seq<Entry>, timeout: int) {
    forall i, j :: 0 <= i < j < |log| && log[i].Opened? && log[j].Granted? ==> log[i].stamp + timeout <= log[j].at
  }

  ghost predicate MutexInvariant(s: Shared) {
    && (forall t | t in s.threads && Holding(s.threads[t]) :: s.holder == Held(t))
    && (s.holder.Held? ==> s.holder.tid in s.threads && Holding(s.threads[s.holder.tid]))
  }

  /** Somebody has overwritten `lastFailure` and not yet logged the opening that goes with it. */
  predicate MidOpening(s: Shared) {
    s.holder.Held? && s.holder.tid in s.threads && s.threads[s.holder.tid].FailureStoring?
  }

  ghost predicate StampInvariant(c: Config, s: Shared) {
    && s.lastFailure <= s.clock
    && OpeningsUpTo(s.log, s.lastFailure)
    && (HasOpened(s.log) && !MidOpening(s) ==> LatestOpening(s.log) == s.lastFailure)
    && (s.mode.Open? ==> HasOpened(s.log))
    && GrantsWaited(s.log, c.timeout)
  }

  /** What a thread may rely on at each of its program points. */
  predicate ThreadFacts(c: Config, s: Shared, pc: PC) {
    match pc
    case AllowLocking => HasOpened(s.log)
    case AllowComparing => HasOpened(s.log)
    case AllowStoring(at) => HasOpened(s.log) && s.lastFailure + c.timeout <= at <= s.clock
    case FailureStoring(stamp) => stamp == s.lastFailure
    case _ => true
  }

  ghost predicate ThreadInvariant(c: Config, s: Shared) {
    forall t | t in s.threads :: ThreadFacts(c, s, s.threads[t])
  }

  lemma LogGrows(log: seq<Entry>, e: Entry)
    ensures HasOpened(log + [e]) <==> HasOpened(log) || e.Opened?
    ensures HasOpened(log) && e.Granted? ==> LatestOpening(log + [e]) == LatestOpening(log)
    ensures e.Opened? ==> LatestOpening(log + [e]) == e.stamp
    ensures forall bound :: OpeningsUpTo(log + [e], bound) <==>
                            OpeningsUpTo(log, bound) && (e.Opened? ==> e.stamp <= bound)
  {
  }

  lemma MutexStep(c: Config, s: Shared, op: Op)
    requires MutexInvariant(s) && CanDo(s, op)
    ensures MutexInvariant(Do(c, s, op))
  {
  }

  lemma LogStep(c: Config, s: Shared, t: Tid)
    requires MutexInvariant(s) && StampInvariant(c, s) && ThreadInvariant(c, s) && t in s.threads
    requires s.threads[t].AllowStoring? || s.threads[t].FailureStoring?
    ensures StampInvariant(c, Do(c, s, Go(t))) && ThreadInvariant(c, Do(c, s, Go(t)))
  {
    var pc := s.threads[t];
    assert ThreadFacts(c, s, pc);
    LogGrows(s.log, if pc.AllowStoring? then Granted(pc.at) else Opened(pc.stamp));
  }

  /** Any other operation of a thread under way. */
  lemma GoStep(c: Config, s: Shared, t: Tid)
    requires MutexInvariant(s) && StampInvariant(c, s) && ThreadInvariant(c, s) && CanDo(s, Go(t))
    requires !s.threads[t].AllowStoring? && !s.threads[t].FailureStoring?
    ensures StampInvariant(c, Do(c, s, Go(t))) && ThreadInvariant(c, Do(c, s, Go(t)))
  {
    assert ThreadFacts(c, s, s.threads[t]);
  }

  lemma StampStep(c: Config, s: Shared, op: Op)
    requires MutexInvariant(s) && StampInvariant(c, s) && ThreadInvariant(c, s) && CanDo(s, op)
    ensures StampInvariant(c, Do(c, s, op)) && ThreadInvariant(c, Do(c, s, op))
  {
    if op.Go? && (s.threads[op.tid].AllowStoring? || s.threads[op.tid].FailureStoring?) {
      LogStep(c, s, op.tid);
    } else if op.Go? {
      GoStep(c, s, op.tid);
    }
  }

  lemma {:induction false} RunKeepsInvariants(c: Config, ops: seq<Op>)
    requires Legal(c, ops)
    ensures MutexInvariant(Run(c, ops)) && StampInvariant(c, Run(c, ops)) && ThreadInvariant(c, Run(c, ops))
  {
    if ops != [] {
      var s, op := Run(c, ops[..|ops| - 1]), ops[|ops| - 1];
      RunKeepsInvariants(c, ops[..|ops| - 1]);
      MutexStep(c, s, op);
      StampStep(c, s, op);
    }
  }

  /** Whenever the mutex is free and the state is OPEN, `lastFailure` is the time of the latest opening. */
  lemma FreeMutexMeansFreshStamp(c: Config, ops: seq<Op>)
    requires Legal(c, ops)
    ensures var s := Run(c, ops);
            s.mode.Open? && s.holder.Nobody? ==> HasOpened(s.log) && s.lastFailure == LatestOpening(s.log)
  {
    RunKeepsInvariants(c, ops);
  }

  /**
    An Allow that read OPEN and returns true did so at least a timeout after every opening logged
    before it, although it never reads the state again.
   */
  lemma GrantWaitsForTimeout(c: Config, ops: seq<Op>, i: nat, j: nat)
    requires Legal(c, ops)
    requires i < j < |Run(c, ops).log| && Run(c, ops).log[i].Opened? && Run(c, ops).log[j].Granted?
    ensures Run(c, ops).log[i].stamp + c.timeout <= Run(c, ops).log[j].at <= Run(c, ops).clock
  {
    RunKeepsInvariants(c, ops);
    GrantsAreInThePast(c, ops);
  }

  lemma {:induction false} GrantsAreInThePast(c: Config, ops: seq<Op>)
    requires Legal(c, ops)
    ensures forall e | e in Run(c, ops).log && e.Granted? :: e.at <= Run(c, ops).clock
  {
    if ops != [] {
      GrantsAreInThePast(c, ops[..|ops| - 1]);
      RunKeepsInvariants(c, ops[..|ops| - 1]);
      var s, op := Run(c, ops[..|ops| - 1]), ops[|ops| - 1];
      if op.Go? && s.threads[op.tid].AllowStoring? {
        assert ThreadFacts(c, s, s.threads[op.tid]);
      }
    }
  }

  predicate Compares(s: Shared, t: Tid) { t in s.threads && s.threads[t].AllowComparing? }

  /** The decision of an Allow that found OPEN: whether a timeout has passed since the latest opening. */
  lemma ComparesExactly(c: Config, ops: seq<Op>, t: Tid)
    requires Legal(c, ops) && Compares(Run(c, ops), t)
    ensures var s := Run(c, ops);
            && CanDo(s, Go(t)) && HasOpened(s.log)
            && Do(c, s, Go(t)) == At(s, t, if s.clock - LatestOpening(s.log) >= c.timeout
                                           then AllowStoring(s.clock) else AllowUnlocking)
  {
    RunKeepsInvariants(c, ops);
    assert ThreadFacts(c, Run(c, ops), Run(c, ops).threads[t]);
  }

  /** The others leave a thread where it is. */
  lemma {:induction false} Stands(c: Config, ops: seq<Op>, others: seq<Op>, t: Tid)
    requires Legal(c, ops + others) && t in Run(c, ops).threads && Go(t) !in others
    ensures t in Run(c, ops + others).threads && Run(c, ops + others).threads[t] == Run(c, ops).threads[t]
  {
    if others == [] {
      assert ops + others == ops;
    } else {
      var before, op := others[..|others| - 1], others[|others| - 1];
      assert ops + others == ops + before + [op];
      Unfold(c, ops + before, op);
      Stands(c, ops, before, t);
    }
  }

  /**
    An Allow that compares at least a timeout after the latest opening is granted by its next operation, which sets
    HALF-OPEN, whatever the other threads do in between.
   */
  lemma DueAllowIsGranted(c: Config, ops: seq<Op>, t: Tid, others: seq<Op>)
    requires Compares(Run(c, ops), t) && HasOpened(Run(c, ops).log)
    requires Run(c, ops).clock - LatestOpening(Run(c, ops).log) >= c.timeout
    requires Legal(c, ops + [Go(t)] + others + [Go(t)]) && Go(t) !in others
    ensures var s, t' := Run(c, ops + [Go(t)] + others), Run(c, ops + [Go(t)] + others + [Go(t)]);
            t'.mode.HalfOpen? && t'.log == s.log + [Granted(Run(c, ops).clock)]
  {
    Unfold(c, ops + [Go(t)] + others, Go(t));
    LegalPrefix(c, ops + [Go(t)], others);
    Unfold(c, ops, Go(t));
    ComparesExactly(c, ops, t);
    Stands(c, ops + [Go(t)], others, t);
  }

  lemma {:induction false} LegalPrefix(c: Config, ops: seq<Op>, more: seq<Op>)
    requires Legal(c, ops + more)
    ensures Legal(c, ops)
  {
    if more == [] {
      assert ops + more == ops;
    } else {
      assert (ops + more)[..|ops + more| - 1] == ops + more[..|more| - 1];
      LegalPrefix(c, ops, more[..|more| - 1]);
    }
  }

  // ---------------------------------------------------------------- what the mutex does not protect

  /** Some thread stands between the load and the last store of RecordSuccess. */
  predicate SuccessUnderWay(s: Shared) {
    exists t | t in s.threads :: s.threads[t].SuccessStoringFailures? || s.threads[t].SuccessStoringState?
  }

  predicate StoresOpening(s: Shared, op: Op) {
    op.Go? && op.tid in s.threads && s.threads[op.tid].FailureStoring?
  }

  /** No opening is stored while a success is under way. */
  predicate Apart(c: Config, ops: seq<Op>) {
    ops == [] ||
    (Apart(c, ops[..|ops| - 1]) &&
     !(StoresOpening(Run(c, ops[..|ops| - 1]), ops[|ops| - 1]) && SuccessUnderWay(Run(c, ops[..|ops| - 1]))))
  }

  /** An OPEN breaker is CLOSED without having been HALF-OPEN. */
  predicate Erases(c: Config, s: Shared, op: Op) { s.mode.Open? && Do(c, s, op).mode.Closed? }

  /** No opening is erased in any run; `overlap` says whether successes may be under way when one is stored. */
  ghost predicate OpeningsSurvive(c: Config, overlap: bool) {
    forall ops: seq<Op>, op: Op | Legal(c, ops + [op]) && (overlap || Apart(c, ops + [op])) ::
      !Erases(c, Run(c, ops), op)
  }

  lemma Unfold(c: Config, ops: seq<Op>, op: Op)
    ensures Run(c, ops + [op]) == Do(c, Run(c, ops), op)
    ensures Legal(c, ops + [op]) <==> Legal(c, ops) && CanDo(Run(c, ops), op)
    ensures Apart(c, ops + [op]) ==> Apart(c, ops)
  {
    assert (ops + [op])[..|ops + [op]| - 1] == ops;
  }

  lemma {:induction false} ApartRun(c: Config, ops: seq<Op>)
    requires Legal(c, ops) && Apart(c, ops)
    ensures Run(c, ops).mode.Open? ==> !SuccessUnderWay(Run(c, ops))
  {
    if ops != [] {
      ApartRun(c, ops[..|ops| - 1]);
    }
  }

  ghost predicate Reaches(c: Config, s: Shared) { exists ops :: Legal(c, ops) && Run(c, ops) == s }

  lemma Take(c: Config, s: Shared, op: Op, after: Shared)
    requires Reaches(c, s) && CanDo(s, op) && after == Do(c, s, op)
    ensures Reaches(c, after)
  {
    var ops :| Legal(c, ops) && Run(c, ops) == s;
    Unfold(c, ops, op);
  }

  /** Failures below the threshold only count. */
  lemma {:induction false} EarlierFailures(c: Config, n: nat)
    requires n == 0 || n < Limit(c)
    ensures Reaches(c, START.(failures := n))
  {
    if n == 0 {
      assert Legal(c, []) && Run(c, []) == START;
    } else {
      EarlierFailures(c, n - 1);
      Int32Successor(n - 1);
      Int32Successor(n);
      Take(c, START.(failures := n - 1), Begin(2, DoFailure), START.(failures := n));
    }
  }

  /** A success reads CLOSED, then a failure reaches the threshold and is about to lock. */
  lemma FailureUnderSuccess(c: Config, n: nat)
    requires (n == 0 || n < Limit(c)) && Limit(c) <= n + 1 <= INT32_MAX
    ensures Reaches(c, Shared(Closed, n + 1, 0, Nobody, 0,
                              map[1 := SuccessStoringFailures, 2 := FailureLocking], []))
  {
    EarlierFailures(c, n);
    Int32Successor(n + 1);
    var s0 := START.(failures := n);
    var s1 := s0.(threads := map[1 := SuccessStoringFailures]);
    Take(c, s0, Begin(1, DoSuccess), s1);
    Take(c, s1, Begin(2, DoFailure),
         s1.(failures := n + 1, threads := map[1 := SuccessStoringFailures, 2 := FailureLocking]));
  }

  function Locked(n: int, mode: Mode, log: seq<Entry>, pc: PC): Shared {
    Shared(mode, n + 1, 0, Held(2), 0, map[1 := SuccessStoringFailures, 2 := pc], log)
  }

  lemma LocksUnderSuccess(c: Config, n: nat)
    requires (n == 0 || n < Limit(c)) && Limit(c) <= n + 1 <= INT32_MAX
    ensures Reaches(c, Locked(n, Closed, [], FailureStamping))
  {
    FailureUnderSuccess(c, n);
    var s := Shared(Closed, n + 1, 0, Nobody, 0, map[1 := SuccessStoringFailures, 2 := FailureLocking], []);
    Take(c, s, Go(2), Locked(n, Closed, [], FailureStamping));
  }

  lemma StampsUnderSuccess(c: Config, n: nat)
    requires Reaches(c, Locked(n, Closed, [], FailureStamping))
    ensures Reaches(c, Locked(n, Closed, [], FailureStoring(0)))
  {
    Take(c, Locked(n, Closed, [], FailureStamping), Go(2), Locked(n, Closed, [], FailureStoring(0)));
  }

  lemma StoresUnderSuccess(c: Config, n: nat)
    requires Reaches(c, Locked(n, Closed, [], FailureStoring(0)))
    ensures Reaches(c, Locked(n, Open, [Opened(0)], FailureUnlocking))
  {
    Take(c, Locked(n, Closed, [], FailureStoring(0)), Go(2), Locked(n, Open, [Opened(0)], FailureUnlocking));
  }

  lemma UnlocksUnderSuccess(c: Config, n: nat)
    requires Reaches(c, Locked(n, Open, [Opened(0)], FailureUnlocking))
    ensures Reaches(c, Shared(Open, n + 1, 0, Nobody, 0, map[1 := SuccessStoringFailures], [Opened(0)]))
  {
    Take(c, Locked(n, Open, [Opened(0)], FailureUnlocking), Go(2),
         Shared(Open, n + 1, 0, Nobody, 0, map[1 := SuccessStoringFailures], [Opened(0)]));
  }

  lemma OpensUnderSuccess(c: Config, n: nat)
    requires (n == 0 || n < Limit(c)) && Limit(c) <= n + 1 <= INT32_MAX
    ensures Reaches(c, Shared(Open, n + 1, 0, Nobody, 0, map[1 := SuccessStoringFailures], [Opened(0)]))
  {
    LocksUnderSuccess(c, n);
    StampsUnderSuccess(c, n);
    StoresUnderSuccess(c, n);
    UnlocksUnderSuccess(c, n);
  }

  /** The success then stores over the opening, which is gone with every thread done. */
  lemma SuccessErasesOpening(c: Config)
    ensures !OpeningsSurvive(c, true)
    ensures Reaches(c, Shared(Closed, 0, 0, Nobody, 0, map[], [Opened(0)]))
  {
    var n := if Limit(c) > 0 then Limit(c) - 1 else 0;
    OpensUnderSuccess(c, n);
    var s := Shared(Open, n + 1, 0, Nobody, 0, map[1 := SuccessStoringFailures], [Opened(0)]);
    var s1 := s.(failures := 0, threads := map[1 := SuccessStoringState]);
    Take(c, s, Go(1), s1);
    var s2 := Shared(Closed, 0, 0, Nobody, 0, map[], [Opened(0)]);
    Take(c, s1, Go(1), s2);
    var ops :| Legal(c, ops) && Run(c, ops) == s1;
    Unfold(c, ops, Go(1));
    assert Erases(c, Run(c, ops), Go(1));
  }

  /** For every threshold: openings survive in all runs iff none is stored while a success is under way. */
  lemma OpeningsSurviveExact(c: Config, overlap: bool)
    ensures OpeningsSurvive(c, overlap) <==> !overlap
  {
    if overlap {
      SuccessErasesOpening(c);
    } else {
      forall ops: seq<Op>, op: Op | Legal(c, ops + [op]) && Apart(c, ops + [op]) ensures !Erases(c, Run(c, ops), op) {
        Unfold(c, ops, op);
        ApartRun(c, ops);
      }
    }
  }

  /** An Allow that finds OPEN a timeout old and moves to HALF-OPEN. */
  predicate IsProbe(c: Config, s: State, e: Event) {
    e.Allow? && s.mode.Open? && e.now - s.lastFailure >= c.timeout && Breaker.Step(c, s, e).mode.HalfOpen?
  }

  /** With the methods as atomic steps no run leaves OPEN but by a probe. */
  lemma {:induction false} AtomicOpeningsSurvive(c: Config, first: seq<Event>, then': seq<Event>)
    requires Breaker.Run(c, first).mode.Open? && !Breaker.Run(c, first + then').mode.Open?
    ensures exists i :: 0 <= i < |then'| && IsProbe(c, Breaker.Run(c, first + then'[..i]), then'[i])
  {
    assert first + [] == first;
    if then' != [] {
      var before := then'[..|then'| - 1];
      assert first + then' == first + before + [then'[|then'| - 1]];
      if !Breaker.Run(c, first + before).mode.Open? {
        AtomicOpeningsSurvive(c, first, before);
        var i :| 0 <= i < |before| && IsProbe(c, Breaker.Run(c, first + before[..i]), before[i]);
        assert before[..i] == then'[..i];
      }
    }
  }
}
