/**
  The sliding-window rate limiter of internal/middleware/ratelimit.go.

  One API key owns one Redis sorted set, "ratelimit:<id>".  `Allow` commits an atomic pipeline
  (evict, count, add, set TTL) and, when it rejects, removes its own entry with a separate command.
  Between the two, other requests run and the key may expire, so the limiter is modelled twice:
  as a class with the commands of the source, and as a run of commit-order events.

  Times are Unix milliseconds.  `now` is the gateway's reading before the pipeline is sent; `commit`
  is the moment Redis executes the pipeline.
 */
module RateLimit {
  import opened Models

  /** A fresh UUID. */
  type Member = nat

  const WINDOW_MS := 1000
  const TTL_MS := 2000

  /** Redis drops a key once its clock has passed the expiry, so one that expires this millisecond is still there. */
  const SAFE_LAG_MS := TTL_MS - WINDOW_MS + 1

  /** The value of one sorted set with the time after which Redis may drop it. */
  datatype Key = Key(scores: map<Member, int>, expireAt: int)

  const EMPTY_KEY := Key(map[], 0)

  function Evict(scores: map<Member, int>, lo: int, hi: int): map<Member, int> {
    map m | m in scores && !(lo <= scores[m] <= hi) :: scores[m]
  }

  /** What survives the eviction of a pipeline sent at `now`. */
  function Kept(k: Key, now: int): map<Member, int> {
    Evict(k.scores, 0, now - WINDOW_MS)
  }

  /** The key after the pipeline of request `m`. */
  function Piped(k: Key, m: Member, now: int, commit: int): Key {
    Key(Kept(k, now)[m := now], commit + TTL_MS)
  }

  function Removed(k: Key, m: Member): Key {
    k.(scores := k.scores - {m})
  }

  /** The advertised number of requests left after an admission that counted `count` earlier entries. */
  function Remaining(limit: int, count: nat): nat {
    if limit - count - 1 < 0 then 0 else limit - count - 1
  }

  /** The sorted set of one API key together with the limiter that drives it. */
  class RateLimiter {
    var scores: map<Member, int>
    var expireAt: int

    function View(): Key reads this { Key(scores, expireAt) }

    constructor ()
      ensures View() == EMPTY_KEY
    {
      scores, expireAt := map[], 0;
    }

    method ZRemRangeByScore(lo: int, hi: int)
      modifies this`scores
      ensures scores == Evict(old(scores), lo, hi)
    {
      scores := map m | m in scores && !(lo <= scores[m] <= hi) :: scores[m];
    }

    method ZCard() returns (n: nat)
      ensures n == |scores|
    {
      n := |scores|;
    }

    method ZAdd(m: Member, score: int)
      modifies this`scores
      ensures scores == old(scores)[m := score]
    {
      scores := scores[m := score];
    }

    method Expire(commit: int)
      modifies this`expireAt
      ensures expireAt == commit + TTL_MS
    {
      expireAt := commit + TTL_MS;
    }

    method ZRem(m: Member)
      modifies this`scores
      ensures scores == old(scores) - {m}
    {
      scores := scores - {m};
    }

    /** One call with nothing interleaved.  `pipe` and `zrem` say how the two round trips end. */
    method Allow(limit: int, now: int, commit: int, member: Member, pipe: Reply, zrem: Reply)
      returns (allowed: bool, remaining: nat, err: bool)
      modifies this
      ensures pipe.NotExecuted? ==> View() == old(View())
      ensures pipe.ReplyLost? ==> View() == Piped(old(View()), member, now, commit)
      ensures pipe.Replied? ==> (allowed <==> |Kept(old(View()), now)| < limit)
      ensures pipe.Replied? && (allowed || zrem.NotExecuted?) ==>
                View() == Piped(old(View()), member, now, commit)
      ensures pipe.Replied? && !allowed && !zrem.NotExecuted? ==>
                View() == Removed(Piped(old(View()), member, now, commit), member)
      ensures err <==> !pipe.Replied? || (!allowed && !zrem.Replied?)
      ensures !pipe.Replied? ==> !allowed
      ensures remaining == if allowed then Remaining(limit, |Kept(old(View()), now)|) else 0
    {
      if pipe.NotExecuted? {
        return false, 0, true;
      }
      ZRemRangeByScore(0, now - WINDOW_MS);
      var count := ZCard();
      ZAdd(member, now);
      Expire(commit);
      if pipe.ReplyLost? {
        return false, 0, true;
      }
      allowed := count < limit;
      if !allowed {
        if !zrem.NotExecuted? {
          ZRem(member);
        }
        return false, 0, !zrem.Replied?;
      }
      var rem := limit - count - 1;
      if rem < 0 {
        rem := 0;
      }
      return true, rem, false;
    }
  }

  // ---------------------------------------------------------------- interleaved runs

  /**
    A commit-order event on one key.  `Pipe` is a committed pipeline, whose reply may be lost;
    `Remove` is the late ZREM of a rejected request, which may also never happen;
    `Expire` is Redis dropping the key.
   */
  datatype Event =
    | Pipe(m: Member, ts: int, commit: int, lost: bool)
    | Remove(m: Member)
    | Expire(at: int)

  /** `last` is the greatest timestamp committed so far; `admitted` maps admitted requests to theirs. */
  datatype State = State(key: Key, clock: int, last: int, admitted: map<Member, int>,
                         rejected: set<Member>, seen: set<Member>)

  const INITIAL := State(EMPTY_KEY, 0, 0, map[], {}, {})

  function Max(a: int, b: int): int { if a < b then b else a }

  function Min(a: int, b: int): int { if a < b then a else b }

  function Step(limit: int, s: State, e: Event): State {
    match e
    case Pipe(m, ts, commit, lost) =>
      var admit := !lost && |Kept(s.key, ts)| < limit;
      State(Piped(s.key, m, ts, commit), commit, Max(s.last, ts),
            if admit then s.admitted[m := ts] else s.admitted,
            if !lost && !admit then s.rejected + {m} else s.rejected,
            s.seen + {m})
    case Remove(m) => s.(key := Removed(s.key, m))
    case Expire(at) => s.(key := s.key.(scores := map[]), clock := at)
  }

  /**
    The events the environment may produce when timestamps step back at most `skew` behind an
    earlier commit and lag their own commit by at most `lag`.  A pipeline whose reply was lost may be
    sent again, by the client library, with the same member.
   */
  predicate Enabled(skew: nat, lag: nat, s: State, e: Event) {
    match e
    case Pipe(m, ts, commit, _) =>
      && m !in s.admitted && m !in s.rejected && 0 <= ts <= commit
      && s.clock <= commit && commit - ts <= lag && s.last - skew <= ts
    case Remove(m) => m in s.rejected
    case Expire(at) => s.clock <= at && s.key.expireAt < at
  }

  function Run(limit: int, run: seq<Event>): State {
    if run == [] then INITIAL else Step(limit, Run(limit, run[..|run| - 1]), run[|run| - 1])
  }

  predicate Legal(skew: nat, lag: nat, limit: int, run: seq<Event>) {
    run == [] ||
    (Legal(skew, lag, limit, run[..|run| - 1]) &&
     Enabled(skew, lag, Run(limit, run[..|run| - 1]), run[|run| - 1]))
  }

  /** The admitted requests with a timestamp in (t - WINDOW_MS, t]. */
  function Window(admitted: map<Member, int>, t: int): set<Member> {
    set m | m in admitted && t - WINDOW_MS < admitted[m] <= t
  }

  ghost predicate Bounded(limit: int, admitted: map<Member, int>) {
    forall t: int :: |Window(admitted, t)| <= Max(limit, 0)
  }

  ghost predicate Invariant(s: State) {
    && 0 <= s.last <= s.clock
    && s.admitted.Keys <= s.seen && s.rejected <= s.seen && s.admitted.Keys !! s.rejected
    && s.key.scores.Keys <= s.seen
    && (forall m | m in s.key.scores :: 0 <= s.key.scores[m] <= s.last)
    && (forall m | m in s.admitted ::
          0 <= s.admitted[m] <= s.last && s.admitted[m] + TTL_MS <= s.key.expireAt)
    && (forall m | m in s.admitted && s.admitted[m] > s.last - WINDOW_MS && s.admitted[m] >= s.clock - TTL_MS ::
          m in s.key.scores && s.key.scores[m] == s.admitted[m])
  }

  lemma SubsetSize<T>(a: set<T>, b: set<T>)
    requires a <= b
    ensures |a| <= |b|
  {
    assert b == a + (b - a);
  }

  /** No admitted request of the current window is ever missing from the count. */
  lemma CountCoversWindow(skew: nat, lag: nat, s: State, m: Member, ts: int, commit: int, lost: bool)
    requires Invariant(s) && Enabled(skew, lag, s, Pipe(m, ts, commit, lost))
    requires lag <= SAFE_LAG_MS && s.last <= ts
    ensures |Window(s.admitted, ts)| <= |Kept(s.key, ts)|
  {
    SubsetSize(Window(s.admitted, ts), Kept(s.key, ts).Keys);
    assert |Kept(s.key, ts).Keys| == |Kept(s.key, ts)|;
  }

  lemma AdmissionKeepsBound(limit: int, admitted: map<Member, int>, m: Member, ts: int)
    requires Bounded(limit, admitted) && m !in admitted
    requires forall x | x in admitted :: admitted[x] <= ts
    requires |Window(admitted, ts)| < limit
    ensures Bounded(limit, admitted[m := ts])
  {
    var after := admitted[m := ts];
    forall t: int
      ensures |Window(after, t)| <= Max(limit, 0)
    {
      var w := Window(after, t);
      if t - WINDOW_MS < ts <= t {
        SubsetSize(w, Window(admitted, ts) + {m});
      } else {
        assert w == Window(admitted, t);
      }
    }
  }

  predicate Ordered(skew: nat, lag: nat) { skew == 0 || lag == 0 }

  lemma StepKeepsInvariant(skew: nat, lag: nat, limit: int, s: State, e: Event)
    requires Invariant(s) && Bounded(limit, s.admitted) && Enabled(skew, lag, s, e)
    requires lag <= SAFE_LAG_MS && Ordered(skew, lag)
    ensures Invariant(Step(limit, s, e)) && Bounded(limit, Step(limit, s, e).admitted)
  {
    if e.Pipe? {
      assert s.last <= e.ts;
      CountCoversWindow(skew, lag, s, e.m, e.ts, e.commit, e.lost);
      if !e.lost && |Kept(s.key, e.ts)| < limit {
        AdmissionKeepsBound(limit, s.admitted, e.m, e.ts);
      }
    }
  }

  lemma {:induction false} RunKeepsInvariant(skew: nat, lag: nat, limit: int, run: seq<Event>)
    requires Legal(skew, lag, limit, run)
    requires lag <= SAFE_LAG_MS && Ordered(skew, lag)
    ensures Invariant(Run(limit, run)) && Bounded(limit, Run(limit, run).admitted)
  {
    if run == [] {
      assert forall t: int :: Window(map[], t) == {};
    } else {
      var before := run[..|run| - 1];
      RunKeepsInvariant(skew, lag, limit, before);
      StepKeepsInvariant(skew, lag, limit, Run(limit, before), run[|run| - 1]);
    }
  }

  /** The promise of the limiter on every run the environment can produce. */
  ghost predicate WindowBoundHolds(skew: nat, lag: nat) {
    forall limit: int, run: seq<Event> :: Legal(skew, lag, limit, run) ==> Bounded(limit, Run(limit, run).admitted)
  }

  lemma Unfold(limit: int, run: seq<Event>, e: Event)
    ensures Run(limit, run + [e]) == Step(limit, Run(limit, run), e)
    ensures forall skew: nat, lag: nat ::
              Legal(skew, lag, limit, run + [e]) <==>
              Legal(skew, lag, limit, run) && Enabled(skew, lag, Run(limit, run), e)
  {
  }

  lemma AdmittedStep(limit: int, s: State, m: Member, ts: int, commit: int, kept: map<Member, int>)
    requires Kept(s.key, ts) == kept && |kept| < limit
    ensures Step(limit, s, Pipe(m, ts, commit, false)) ==
            State(Key(kept[m := ts], commit + TTL_MS), commit, Max(s.last, ts),
                  s.admitted[m := ts], s.rejected, s.seen + {m})
  {
  }

  /** The second request is sent inside the window of the first and commits after the key expired. */
  const LATE_RUN := [Pipe(0, 0, 0, false), Expire(2001), Pipe(1, 999, 2001, false)]

  lemma LateCommitDoublesQuota(skew: nat, lag: nat)
    requires lag > SAFE_LAG_MS
    ensures Legal(skew, lag, 1, LATE_RUN)
    ensures Run(1, LATE_RUN).admitted == map[0 := 0, 1 := 999] && Run(1, LATE_RUN).seen == {0, 1}
  {
    var e1, e2, e3 := LATE_RUN[0], LATE_RUN[1], LATE_RUN[2];
    Unfold(1, [], e1);
    Unfold(1, [e1], e2);
    Unfold(1, [e1, e2], e3);
    assert [] + [e1] == [e1] && [e1] + [e2] == [e1, e2] && [e1, e2] + [e3] == LATE_RUN;
    AdmittedStep(1, INITIAL, 0, 0, 0, map[]);
    var s2 := Run(1, [e1, e2]);
    AdmittedStep(1, s2, 1, 999, 2001, map[]);
  }

  /** A request delayed for longer finds its key expired and is admitted on top of a full window. */
  lemma LateCommitBreaksBound(skew: nat, lag: nat)
    requires lag > SAFE_LAG_MS
    ensures !WindowBoundHolds(skew, lag)
  {
    LateCommitDoublesQuota(skew, lag);
    var admitted := Run(1, LATE_RUN).admitted;
    SubsetSize({0, 1}, Window(admitted, 999));
    assert !Bounded(1, admitted);
  }

  const REORDERED_RUN :=
    [Pipe(0, 0, 0, false), Pipe(1, 0, 0, false), Pipe(2, 1000, 1000, false), Pipe(3, 999, 1000, false)]

  lemma {:induction false} ReorderedPrefix(skew: nat, lag: nat)
    requires skew > 0 && lag > 0
    ensures Legal(skew, lag, 2, REORDERED_RUN[..2])
    ensures Run(2, REORDERED_RUN[..2]) ==
            State(Key(map[0 := 0, 1 := 0], 2000), 0, 0, map[0 := 0, 1 := 0], {}, {0, 1})
  {
    var r := REORDERED_RUN;
    assert r[..0] == [] && r[..1] == [] + [r[0]] && r[..2] == r[..1] + [r[1]];
    Unfold(2, [], r[0]);
    AdmittedStep(2, INITIAL, 0, 0, 0, map[]);
    Unfold(2, r[..1], r[1]);
    AdmittedStep(2, Run(2, r[..1]), 1, 0, 0, map[0 := 0]);
  }

  lemma {:induction false} ReorderedSuffix(skew: nat, lag: nat)
    requires skew > 0 && lag > 0
    ensures Legal(skew, lag, 2, REORDERED_RUN[..3])
    ensures Run(2, REORDERED_RUN[..3]) ==
            State(Key(map[2 := 1000], 3000), 1000, 1000, map[0 := 0, 1 := 0, 2 := 1000], {}, {0, 1, 2})
  {
    var r := REORDERED_RUN;
    ReorderedPrefix(skew, lag);
    assert r[..3] == r[..2] + [r[2]];
    Unfold(2, r[..2], r[2]);
    AdmittedStep(2, Run(2, r[..2]), 2, 1000, 1000, map[]);
  }

  /** A later timestamp that commits first evicts entries an earlier timestamp should still have counted. */
  lemma {:induction false} ReorderedCommitBreaksBound(skew: nat, lag: nat)
    requires skew > 0 && lag > 0
    ensures !WindowBoundHolds(skew, lag)
  {
    var r := REORDERED_RUN;
    ReorderedSuffix(skew, lag);
    assert r == r[..3] + [r[3]];
    Unfold(2, r[..3], r[3]);
    AdmittedStep(2, Run(2, r[..3]), 3, 999, 1000, map[2 := 1000]);
    ThreeInWindow(Run(2, r).admitted);
  }

  lemma ThreeInWindow(admitted: map<Member, int>)
    requires admitted == map[0 := 0, 1 := 0, 2 := 1000, 3 := 999]
    ensures !Bounded(2, admitted)
  {
    SubsetSize({0, 1, 3}, Window(admitted, 999));
  }

  /**
    Exactly when the limiter keeps its promise: requests may lag their commit by at most SAFE_LAG_MS, and
    commit order must agree with timestamp order.
   */
  lemma WindowBoundExact(skew: nat, lag: nat)
    ensures WindowBoundHolds(skew, lag) <==> lag <= 1001 && (skew == 0 || lag == 0)
  {
    if lag > SAFE_LAG_MS {
      LateCommitBreaksBound(skew, lag);
    } else if !Ordered(skew, lag) {
      ReorderedCommitBreaksBound(skew, lag);
    } else {
      forall limit: int, run: seq<Event> | Legal(skew, lag, limit, run)
        ensures Bounded(limit, Run(limit, run).admitted)
      {
        RunKeepsInvariant(skew, lag, limit, run);
      }
    }
  }

  /**
    The advertised remaining quota never overstates what is left: together with the window that
    now includes the admitted request it stays within the limit.
   */
  lemma RemainingNeverOverstates(skew: nat, lag: nat, limit: int, run: seq<Event>, m: Member, ts: int, commit: int)
    requires Legal(skew, lag, limit, run + [Pipe(m, ts, commit, false)])
    requires lag <= SAFE_LAG_MS && Ordered(skew, lag)
    requires |Kept(Run(limit, run).key, ts)| < limit
    ensures var after := Run(limit, run + [Pipe(m, ts, commit, false)]);
            Remaining(limit, |Kept(Run(limit, run).key, ts)|) + |Window(after.admitted, ts)| <= limit
  {
    var s, e := Run(limit, run), Pipe(m, ts, commit, false);
    Unfold(limit, run, e);
    RunKeepsInvariant(skew, lag, limit, run);
    CountCoversWindow(skew, lag, s, m, ts, commit, false);
    var w := Window(s.admitted, ts);
    SubsetSize(Window(Step(limit, s, e).admitted, ts), w + {m});
  }

  /**
    The remainder advertised with an admission, in any run: what the entries of the set leave of the limit, less one
    if the pipeline is a resent one whose first copy is still in the set.
   */
  lemma RemainingExact(limit: int, run: seq<Event>, m: Member, ts: int, commit: int)
    requires |Kept(Run(limit, run).key, ts)| < limit
    ensures var count := |Kept(Run(limit, run).key, ts)|;
            var after := Run(limit, run + [Pipe(m, ts, commit, false)]);
            && m in after.admitted
            && Remaining(limit, count) ==
               limit - |after.key.scores| - if m in Kept(Run(limit, run).key, ts) then 1 else 0
  {
    Unfold(limit, run, Pipe(m, ts, commit, false));
  }

  predicate Tracked(s: State) { s.key.scores.Keys <= s.seen && s.admitted.Keys <= s.seen }

  lemma {:induction false} RunIsTracked(limit: int, run: seq<Event>)
    ensures Tracked(Run(limit, run))
  {
    if run != [] {
      RunIsTracked(limit, run[..|run| - 1]);
    }
  }

  /** New requests with the timestamp `ts`, which all get their replies. */
  predicate Further(limit: int, run: seq<Event>, more: seq<Event>, ts: int) {
    forall i :: 0 <= i < |more| ==>
      more[i].Pipe? && !more[i].lost && more[i].ts == ts && more[i].m !in Run(limit, run + more[..i]).seen
  }

  /** Every entry of the set is in the window of `ts`. */
  predicate NoneStale(k: Key, ts: int) { Kept(k, ts) == k.scores }

  lemma FurtherStep(limit: int, s: State, e: Event)
    requires e.Pipe? && !e.lost && NoneStale(s.key, e.ts) && Tracked(s) && e.m !in s.seen
    ensures var t := Step(limit, s, e);
            && NoneStale(t.key, e.ts) && |t.key.scores| == |s.key.scores| + 1
            && |t.admitted| == |s.admitted| + (if |s.key.scores| < limit then 1 else 0)
  {
  }

  lemma FurtherUnfolds(limit: int, run: seq<Event>, more: seq<Event>, ts: int)
    requires more != [] && Further(limit, run, more, ts)
    ensures Further(limit, run, more[..|more| - 1], ts)
    ensures var e := more[|more| - 1];
            e.Pipe? && !e.lost && e.ts == ts && e.m !in Run(limit, run + more[..|more| - 1]).seen
  {
    var before := more[..|more| - 1];
    forall i | 0 <= i < |before|
      ensures before[..i] == more[..i] && before[i] == more[i]
    {
    }
  }

  lemma RunUnfolds(limit: int, run: seq<Event>, more: seq<Event>)
    requires more != []
    ensures Run(limit, run + more) == Step(limit, Run(limit, run + more[..|more| - 1]), more[|more| - 1])
  {
    assert (run + more)[..|run + more| - 1] == run + more[..|more| - 1];
  }

  /** `n` further requests have been decided, starting in `s`. */
  predicate Decided(limit: int, s: State, t: State, n: nat, ts: int) {
    && NoneStale(t.key, ts) && |t.key.scores| == |s.key.scores| + n
    && |t.admitted| == |s.admitted| + Min(n, Max(limit - |s.key.scores|, 0))
  }

  lemma {:induction false} FurtherRun(limit: int, run: seq<Event>, more: seq<Event>, ts: int)
    requires NoneStale(Run(limit, run).key, ts) && Further(limit, run, more, ts)
    ensures Decided(limit, Run(limit, run), Run(limit, run + more), |more|, ts)
  {
    if more == [] {
      assert run + more == run;
    } else {
      var before := more[..|more| - 1];
      FurtherUnfolds(limit, run, more, ts);
      RunUnfolds(limit, run, more);
      FurtherRun(limit, run, before, ts);
      RunIsTracked(limit, run + before);
      FurtherStep(limit, Run(limit, run + before), more[|more| - 1]);
    }
  }

  /** Of any further requests at that time, as many are admitted as the remainder says. */
  lemma RemainingIsAdmitted(limit: int, run: seq<Event>, m: Member, ts: int, commit: int, more: seq<Event>)
    requires |Kept(Run(limit, run).key, ts)| < limit && m !in Run(limit, run).seen
    requires Further(limit, run + [Pipe(m, ts, commit, false)], more, ts)
    ensures var count, first := |Kept(Run(limit, run).key, ts)|, run + [Pipe(m, ts, commit, false)];
            |Run(limit, first + more).admitted| == |Run(limit, first).admitted| + Min(|more|, Remaining(limit, count))
  {
    var first := run + [Pipe(m, ts, commit, false)];
    Unfold(limit, run, Pipe(m, ts, commit, false));
    RunIsTracked(limit, run);
    RemainingExact(limit, run, m, ts, commit);
    FurtherRun(limit, first, more, ts);
  }

  // ---------------------------------------------------------------- one call at a time

  /** A whole call of `Allow`; `dropped` says that Redis dropped the expired key just before. */
  datatype Call = Call(m: Member, ts: int, commit: int, dropped: bool)

  datatype Answer = Answer(allowed: bool, remaining: int)

  function BeforePipe(limit: int, s: State, c: Call): State {
    if c.dropped then Step(limit, s, Expire(c.commit)) else s
  }

  /** The decision and the state after the call, a rejected entry being removed at once. */
  function CallStep(limit: int, s: State, c: Call): (State, Answer) {
    var s0 := BeforePipe(limit, s, c);
    var count := |Kept(s0.key, c.ts)|;
    var s1 := Step(limit, s0, Pipe(c.m, c.ts, c.commit, false));
    if count < limit then (s1, Answer(true, Remaining(limit, count)))
    else (Step(limit, s1, Remove(c.m)), Answer(false, 0))
  }

  predicate CallEnabled(lag: nat, limit: int, s: State, c: Call) {
    && (c.dropped ==> Enabled(0, lag, s, Expire(c.commit)))
    && Enabled(0, lag, BeforePipe(limit, s, c), Pipe(c.m, c.ts, c.commit, false))
  }

  function Calls(limit: int, calls: seq<Call>): (State, seq<Answer>) {
    if calls == [] then (INITIAL, []) else
    var (s, answers) := Calls(limit, calls[..|calls| - 1]);
    var (s', a) := CallStep(limit, s, calls[|calls| - 1]);
    (s', answers + [a])
  }

  predicate LegalCalls(lag: nat, limit: int, calls: seq<Call>) {
    calls == [] ||
    (LegalCalls(lag, limit, calls[..|calls| - 1]) &&
     CallEnabled(lag, limit, Calls(limit, calls[..|calls| - 1]).0, calls[|calls| - 1]))
  }

  /**
    The limiter that remembers every admission and forgets nothing.  It advertises what the admissions of the window,
    the new one included, leave of the limit.
   */
  function FullHistory(limit: int, calls: seq<Call>): (map<Member, int>, seq<Answer>) {
    if calls == [] then (map[], []) else
    var (admitted, answers) := FullHistory(limit, calls[..|calls| - 1]);
    var c := calls[|calls| - 1];
    var after := admitted[c.m := c.ts];
    if |Window(admitted, c.ts)| < limit then (after, answers + [Answer(true, limit - |Window(after, c.ts)|)])
    else (admitted, answers + [Answer(false, 0)])
  }

  ghost predicate OnlyAdmitted(s: State) {
    forall m | m in s.key.scores :: m in s.admitted && s.key.scores[m] == s.admitted[m]
  }

  /** With only admitted entries in the set, its count is the full-history count. */
  lemma CountIsWindow(lag: nat, s: State, m: Member, ts: int, commit: int)
    requires Invariant(s) && OnlyAdmitted(s) && lag <= SAFE_LAG_MS
    requires Enabled(0, lag, s, Pipe(m, ts, commit, false))
    ensures |Kept(s.key, ts)| == |Window(s.admitted, ts)|
  {
    CountCoversWindow(0, lag, s, m, ts, commit, false);
    SubsetSize(Kept(s.key, ts).Keys, Window(s.admitted, ts));
    assert |Kept(s.key, ts).Keys| == |Kept(s.key, ts)|;
  }

  lemma ExpiryKeepsCalls(lag: nat, limit: int, s: State, c: Call)
    requires Invariant(s) && Bounded(limit, s.admitted) && OnlyAdmitted(s) && CallEnabled(lag, limit, s, c)
    requires lag <= SAFE_LAG_MS
    ensures var s0 := BeforePipe(limit, s, c);
            Invariant(s0) && OnlyAdmitted(s0) && s0.admitted == s.admitted
  {
  }

  lemma RejectedPipeAndRemove(limit: int, s: State, m: Member, ts: int, commit: int)
    requires Invariant(s) && OnlyAdmitted(s) && m !in s.admitted && |Kept(s.key, ts)| >= limit
    ensures var s' := Step(limit, Step(limit, s, Pipe(m, ts, commit, false)), Remove(m));
            OnlyAdmitted(s') && s'.admitted == s.admitted
  {
  }

  lemma WindowGrows(admitted: map<Member, int>, m: Member, ts: int)
    requires m !in admitted
    ensures |Window(admitted[m := ts], ts)| == |Window(admitted, ts)| + 1
  {
    var before, after := Window(admitted, ts), Window(admitted[m := ts], ts);
    assert m !in before;
    assert forall x :: x in after <==> x == m || x in before;
    assert after == before + {m};
  }

  lemma CallAnswers(lag: nat, limit: int, s: State, c: Call)
    requires Invariant(s) && Bounded(limit, s.admitted) && OnlyAdmitted(s) && CallEnabled(lag, limit, s, c)
    requires lag <= SAFE_LAG_MS
    ensures var (s', a) := CallStep(limit, s, c);
            var used, after := |Window(s.admitted, c.ts)|, s.admitted[c.m := c.ts];
            && OnlyAdmitted(s')
            && a == (if used < limit then Answer(true, limit - |Window(after, c.ts)|) else Answer(false, 0))
            && s'.admitted == if used < limit then after else s.admitted
  {
    var s0 := BeforePipe(limit, s, c);
    ExpiryKeepsCalls(lag, limit, s, c);
    CountIsWindow(lag, s0, c.m, c.ts, c.commit);
    WindowGrows(s.admitted, c.m, c.ts);
    if |Kept(s0.key, c.ts)| >= limit {
      RejectedPipeAndRemove(limit, s0, c.m, c.ts, c.commit);
    }
  }

  lemma CallKeepsInvariant(lag: nat, limit: int, s: State, c: Call)
    requires Invariant(s) && Bounded(limit, s.admitted) && CallEnabled(lag, limit, s, c)
    requires lag <= SAFE_LAG_MS
    ensures var s' := CallStep(limit, s, c).0; Invariant(s') && Bounded(limit, s'.admitted)
  {
    var s0 := BeforePipe(limit, s, c);
    if c.dropped {
      StepKeepsInvariant(0, lag, limit, s, Expire(c.commit));
    }
    var pipe := Pipe(c.m, c.ts, c.commit, false);
    StepKeepsInvariant(0, lag, limit, s0, pipe);
    var s1 := Step(limit, s0, pipe);
    if |Kept(s0.key, c.ts)| >= limit {
      StepKeepsInvariant(0, lag, limit, s1, Remove(c.m));
    }
  }

  lemma {:induction false} CallsAgree(lag: nat, limit: int, calls: seq<Call>)
    requires LegalCalls(lag, limit, calls) && lag <= SAFE_LAG_MS
    ensures var (s, answers) := Calls(limit, calls);
            Invariant(s) && Bounded(limit, s.admitted) && OnlyAdmitted(s) &&
            FullHistory(limit, calls) == (s.admitted, answers)
  {
    if calls == [] {
      RunKeepsInvariant(0, lag, limit, []);
    } else {
      var before := calls[..|calls| - 1];
      CallsAgree(lag, limit, before);
      CallAnswers(lag, limit, Calls(limit, before).0, calls[|calls| - 1]);
      CallKeepsInvariant(lag, limit, Calls(limit, before).0, calls[|calls| - 1]);
    }
  }

  /** Neither eviction nor expiry can be told apart from a limiter that keeps its full history. */
  ghost predicate RefinesFullHistory(lag: nat) {
    forall limit: int, calls: seq<Call> ::
      LegalCalls(lag, limit, calls) ==> Calls(limit, calls).1 == FullHistory(limit, calls).1
  }

  const LATE_CALLS := [Call(0, 0, 0, false), Call(1, 999, 2001, true)]

  lemma LateCallAdmitted(lag: nat)
    requires lag > SAFE_LAG_MS
    ensures LegalCalls(lag, 1, LATE_CALLS) && Calls(1, LATE_CALLS).1 == [Answer(true, 0), Answer(true, 0)]
  {
    var c1, c2 := LATE_CALLS[0], LATE_CALLS[1];
    assert LATE_CALLS[..1] == [c1] && [c1][..0] == [];
    AdmittedStep(1, INITIAL, 0, 0, 0, map[]);
    AdmittedStep(1, BeforePipe(1, Calls(1, [c1]).0, c2), 1, 999, 2001, map[]);
    assert LegalCalls(lag, 1, [c1]);
  }

  lemma LateCallShouldBeRejected()
    ensures FullHistory(1, LATE_CALLS).1 == [Answer(true, 0), Answer(false, 0)]
  {
    var c1 := Call(0, 0, 0, false);
    assert LATE_CALLS[..1] == [c1] && [c1][..0] == [];
    var none: map<Member, int> := map[];
    assert Window(none, 0) == {};
    WindowGrows(none, 0, 0);
    var one := none[0 := 0];
    assert FullHistory(1, [c1]).0 == one;
    assert FullHistory(1, [c1]).1 == [Answer(true, 0)];
    assert Window(one, 999) == {0};
  }

  /**
    Run one call at a time, the evicting, expiring set is the full-history limiter iff the lag is at most
    SAFE_LAG_MS.
   */
  lemma RefinementExact(lag: nat)
    ensures RefinesFullHistory(lag) <==> lag <= 1001
  {
    if lag > SAFE_LAG_MS {
      LateCallAdmitted(lag);
      LateCallShouldBeRejected();
    } else {
      forall limit: int, calls: seq<Call> | LegalCalls(lag, limit, calls)
        ensures Calls(limit, calls).1 == FullHistory(limit, calls).1
      {
        CallsAgree(lag, limit, calls);
      }
    }
  }

  // ---------------------------------------------------------------- bursts

  /** Every pipeline gets its reply and all timestamps lie within one window, in any commit order. */
  predicate Burst(base: int, run: seq<Event>) {
    forall e | e in run && e.Pipe? :: !e.lost && base <= e.ts < base + WINDOW_MS
  }

  /** Every request was either admitted or rejected, and admissions filled the limit first. */
  ghost predicate Filled(limit: int, seen: set<Member>, admitted: set<Member>, rejected: set<Member>) {
    seen == admitted + rejected && admitted !! rejected && |admitted| == Min(|seen|, limit)
  }

  lemma FilledByOneMore(limit: nat, seen: set<Member>, admitted: set<Member>, rejected: set<Member>, m: Member)
    requires Filled(limit, seen, admitted, rejected) && m !in seen
    ensures |admitted| < limit ==> Filled(limit, seen + {m}, admitted + {m}, {}) && rejected == {}
    ensures |admitted| >= limit ==> Filled(limit, seen + {m}, admitted, rejected + {m})
  {
  }

  /** All entries lie in the window, and none of an admitted request is gone before the window has passed. */
  ghost predicate BurstScores(base: int, s: State) {
    && s.key.scores.Keys <= s.seen
    && (forall m | m in s.key.scores :: base <= s.key.scores[m] < base + WINDOW_MS)
    && (s.seen != {} ==> s.key.expireAt >= base + TTL_MS)
    && (s.admitted.Keys <= s.key.scores.Keys || s.clock > base + TTL_MS)
  }

  ghost predicate BurstInvariant(limit: int, base: int, s: State) {
    Filled(limit, s.seen, s.admitted.Keys, s.rejected) && BurstScores(base, s)
  }

  /** Within a burst nothing is evicted, and the set counts at least the admitted requests. */
  lemma BurstCount(skew: nat, lag: nat, limit: nat, base: int, s: State, e: Event)
    requires BurstInvariant(limit, base, s) && Enabled(skew, lag, s, e) && lag <= SAFE_LAG_MS
    requires e.Pipe? && base <= e.ts < base + WINDOW_MS
    ensures Kept(s.key, e.ts) == s.key.scores && s.admitted.Keys <= s.key.scores.Keys
    ensures |s.key.scores| < limit <==> |s.admitted.Keys| < limit
  {
    assert |s.seen| == |s.admitted.Keys| + |s.rejected|;
    assert |s.key.scores.Keys| == |s.key.scores|;
    SubsetSize(s.admitted.Keys, s.key.scores.Keys);
    SubsetSize(s.key.scores.Keys, s.seen);
  }

  lemma EntryKeepsScores(base: int, s: State, s': State, m: Member, ts: int)
    requires BurstScores(base, s) && base <= ts < base + WINDOW_MS
    requires s.admitted.Keys <= s.key.scores.Keys && s'.key.expireAt >= base + TTL_MS
    requires s'.key.scores == s.key.scores[m := ts] && s'.seen == s.seen + {m}
    requires s'.admitted.Keys <= s.admitted.Keys + {m}
    ensures BurstScores(base, s')
  {
  }

  /** The invariant after an entry joins the set, whichever way the request was decided. */
  lemma BurstEntry(limit: nat, base: int, s: State, s': State, m: Member, ts: int)
    requires BurstInvariant(limit, base, s) && m !in s.seen && base <= ts < base + WINDOW_MS
    requires s.admitted.Keys <= s.key.scores.Keys && s'.key.expireAt >= base + TTL_MS
    requires s'.key.scores == s.key.scores[m := ts] && s'.seen == s.seen + {m}
    requires if |s.admitted.Keys| < limit
             then s'.admitted == s.admitted[m := ts] && s'.rejected == s.rejected
             else s'.admitted == s.admitted && s'.rejected == s.rejected + {m}
    ensures BurstInvariant(limit, base, s')
  {
    EntryKeepsScores(base, s, s', m, ts);
    FilledByOneMore(limit, s.seen, s.admitted.Keys, s.rejected, m);
    if |s.admitted.Keys| < limit {
      assert s'.admitted.Keys == s.admitted.Keys + {m};
    }
  }

  lemma BurstStep(skew: nat, lag: nat, limit: nat, base: int, s: State, e: Event)
    requires BurstInvariant(limit, base, s) && Enabled(skew, lag, s, e) && lag <= SAFE_LAG_MS
    requires e.Pipe? ==> !e.lost && base <= e.ts < base + WINDOW_MS
    ensures BurstInvariant(limit, base, Step(limit, s, e))
  {
    if e.Pipe? {
      BurstCount(skew, lag, limit, base, s, e);
      BurstEntry(limit, base, s, Step(limit, s, e), e.m, e.ts);
    }
  }

  lemma {:induction false} BurstRun(skew: nat, lag: nat, limit: nat, base: int, run: seq<Event>)
    requires Legal(skew, lag, limit, run) && Burst(base, run) && lag <= SAFE_LAG_MS
    ensures BurstInvariant(limit, base, Run(limit, run))
  {
    if run != [] {
      var before, e := run[..|run| - 1], run[|run| - 1];
      assert e in run;
      BurstRun(skew, lag, limit, base, before);
      BurstStep(skew, lag, limit, base, Run(limit, before), e);
    }
  }

  /** Every burst of N requests on an empty key is answered with exactly min(N, limit) admissions. */
  ghost predicate BurstsAreExact(skew: nat, lag: nat) {
    forall limit: nat, base: int, run: seq<Event> ::
      Legal(skew, lag, limit, run) && Burst(base, run) ==>
        |Run(limit, run).admitted| == Min(|Run(limit, run).seen|, limit)
  }

  /** Whatever the commit order, bursts are exact iff requests lag their commit by at most SAFE_LAG_MS. */
  lemma BurstExact(skew: nat, lag: nat)
    ensures BurstsAreExact(skew, lag) <==> lag <= 1001
  {
    if lag > SAFE_LAG_MS {
      LateCommitDoublesQuota(skew, lag);
      assert Burst(0, LATE_RUN);
      assert |Run(1, LATE_RUN).admitted| == 2;
    } else {
      forall limit: nat, base: int, run: seq<Event> | Legal(skew, lag, limit, run) && Burst(base, run)
        ensures |Run(limit, run).admitted| == Min(|Run(limit, run).seen|, limit)
      {
        BurstRun(skew, lag, limit, base, run);
        assert |Run(limit, run).admitted.Keys| == |Run(limit, run).admitted|;
      }
    }
  }
}
