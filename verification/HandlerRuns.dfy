/**
  The provider phase of ServeHTTP, run alone, is a run of the interleaved gateway: same breakers, same
  providers called, same answer.
 */
module HandlerRuns {
  import opened Models
  import opened Handler
  import Breaker
  import opened Gateway

  /** The provider's answer as an event of the machine. */
  function Returned(rid: Rid, result: Option<GatewayResponse>, id: string, latency: int): Event {
    match result
    case Some(resp) => Succeed(rid, resp, id, latency)
    case None => Fail(rid)
  }

  function Attempted(rid: Rid, elapsed: nat, result: Option<GatewayResponse>, id: string, latency: int)
    : seq<Event>
  {
    [Try(rid), Tick(elapsed), Returned(rid, result, id, latency)]
  }

  /** The request after one execution started in Attempt. */
  function AfterExecution(cfg: Config, r: Request, x: Execution, id: string, latency: int)
    : Request
    requires r.pc.Attempt?
  {
    var called := r.(called := r.called + Called(x, r.req.provider));
    match x.resp
    case None => AfterFailedAttempt(cfg, called, r.pc.fallback)
    case Some(resp) =>
      var decorated := resp.(id := id, latencyMs := latency);
      if r.own.stream then Answered(called, Streamed)
      else called.(pc := Publishing(Setting, decorated), outcome := Fresh(decorated))
  }

  /** What one call can see of the machine: its request and provider call, and all that requests share. */
  datatype Seen = Seen(r: Request, call: Option<Call>, breakers: Breakers, now: nat,
                       values: map<Key, GatewayResponse>, locks: map<Key, nat>, rows: seq<Row>)

  function CallOf(calls: map<Rid, Call>, rid: Rid): Option<Call> {
    if rid in calls then Some(calls[rid]) else None
  }

  predicate Sees(s: State, rid: Rid, v: Seen) {
    && rid in s.requests && s.requests[rid] == v.r && CallOf(s.calls, rid) == v.call
    && s.breakers == v.breakers && s.now == v.now
    && s.values == v.values && s.locks == v.locks && s.rows == v.rows
  }

  function AfterTry(cfg: Config, v: Seen): Seen
    requires v.r.pc.Attempt?
  {
    var p := v.r.req.provider;
    if p in v.breakers && Breaker.Grants(cfg.breaker, v.breakers[p], v.now)
    then v.(r := v.r.(pc := Calling(v.r.pc.fallback), called := v.r.called + [p]),
            breakers := v.breakers[p := Breaker.AfterAllow(cfg.breaker, v.breakers[p], v.now)])
    else v.(r := AfterFailedAttempt(cfg, v.r, v.r.pc.fallback))
  }

  predicate PlausibleResult(r: Request, result: Option<GatewayResponse>) {
    result.Some? ==> Plausible(r, result.value)
  }

  function AfterReturn(cfg: Config, v: Seen, result: Option<GatewayResponse>, id: string, latency: int): Seen {
    var p := v.r.req.provider;
    if !v.r.pc.Calling? || p !in v.breakers then v else
    match result
    case None =>
      v.(r := AfterFailedAttempt(cfg, v.r, v.r.pc.fallback),
         breakers := v.breakers[p := Breaker.AfterFailure(cfg.breaker, v.breakers[p], v.now)])
    case Some(resp) =>
      var decorated := resp.(id := id, latencyMs := latency);
      v.(r := if v.r.own.stream then Answered(v.r, Streamed)
              else v.r.(pc := Publishing(Setting, decorated), outcome := Fresh(decorated)),
         call := Some(Call(v.r.req, resp)),
         breakers := v.breakers[p := Breaker.AfterSuccess(v.breakers[p])])
  }

  lemma TickStep(cfg: Config, s: State, rid: Rid, v: Seen, elapsed: nat)
    requires Sees(s, rid, v)
    ensures Sees(Advance(cfg, s, Tick(elapsed)), rid, v.(now := v.now + elapsed))
  {
  }

  lemma ReturnStep(cfg: Config, s: State, rid: Rid, v: Seen, result: Option<GatewayResponse>, id: string, latency: int)
    requires Sees(s, rid, v) && (v.r.pc.Calling? ==> PlausibleResult(v.r, result) && v.r.req.provider in v.breakers)
    ensures Sees(Advance(cfg, s, Returned(rid, result, id, latency)), rid,
                 AfterReturn(cfg, v, result, id, latency))
  {
  }

  /** What one execution leaves. */
  function Through(cfg: Config, v: Seen, x: Execution, elapsed: nat, id: string, latency: int): Seen
    requires v.r.pc.Attempt?
  {
    v.(r := AfterExecution(cfg, v.r, x, id, latency),
       call := if x.resp.Some? then Some(Call(v.r.req, x.resp.value)) else v.call,
       breakers := x.breakers, now := v.now + elapsed)
  }

  predicate Granted(cfg: Config, v: Seen) {
    v.r.req.provider in v.breakers && Breaker.Grants(cfg.breaker, v.breakers[v.r.req.provider], v.now)
  }

  lemma RefusedSeen(cfg: Config, v: Seen, elapsed: nat, result: Option<GatewayResponse>, id: string, latency: int)
    requires v.r.pc.Attempt? && !Granted(cfg, v)
    ensures var x := Execute(cfg.breaker, v.breakers, v.r.req.provider, v.now, v.now + elapsed, result);
            AfterReturn(cfg, AfterTry(cfg, v).(now := v.now + elapsed), result, id, latency) ==
            Through(cfg, v, x, elapsed, id, latency)
  {
    assert v.r.called + [] == v.r.called;
  }

  /** The three steps together, seen by the handler, are one execution. */
  lemma ExecutionSeen(cfg: Config, v: Seen, elapsed: nat, result: Option<GatewayResponse>, id: string, latency: int)
    requires v.r.pc.Attempt?
    ensures var x := Execute(cfg.breaker, v.breakers, v.r.req.provider, v.now, v.now + elapsed, result);
            AfterReturn(cfg, AfterTry(cfg, v).(now := v.now + elapsed), result, id, latency) ==
            Through(cfg, v, x, elapsed, id, latency)
  {
    if !Granted(cfg, v) {
      RefusedSeen(cfg, v, elapsed, result, id, latency);
    }
  }

  lemma TryStep(cfg: Config, s: State, rid: Rid, v: Seen)
    requires Sees(s, rid, v) && v.r.pc.Attempt? && v.breakers.Keys == cfg.providers
    ensures Sees(Advance(cfg, s, Try(rid)), rid, AfterTry(cfg, v))
  {
  }

  lemma TryAndTick(cfg: Config, s: State, rid: Rid, v: Seen, elapsed: nat)
    requires Sees(s, rid, v) && v.r.pc.Attempt? && v.breakers.Keys == cfg.providers
    ensures Sees(Advance(cfg, Advance(cfg, s, Try(rid)), Tick(elapsed)), rid, AfterTry(cfg, v).(now := v.now + elapsed))
  {
    TryStep(cfg, s, rid, v);
    TickStep(cfg, Advance(cfg, s, Try(rid)), rid, AfterTry(cfg, v), elapsed);
  }

  lemma AfterTryFacts(cfg: Config, v: Seen, result: Option<GatewayResponse>)
    requires v.r.pc.Attempt? && PlausibleResult(v.r, result)
    ensures var r := AfterTry(cfg, v).r;
            r.pc.Calling? ==> PlausibleResult(r, result) && r.req.provider in AfterTry(cfg, v).breakers
  {
  }

  /** executeWithBreaker alone is the machine's Try and provider result. */
  lemma ExecuteIsARun(cfg: Config, s: State, rid: Rid, v: Seen, elapsed: nat, result: Option<GatewayResponse>,
                      id: string, latency: int)
    requires Sees(s, rid, v) && v.r.pc.Attempt? && v.breakers.Keys == cfg.providers && PlausibleResult(v.r, result)
    ensures var x := Execute(cfg.breaker, v.breakers, v.r.req.provider, v.now, v.now + elapsed, result);
            Sees(Run(cfg, s, Attempted(rid, elapsed, result, id, latency)), rid,
                 Through(cfg, v, x, elapsed, id, latency))
  {
    var e1, e2, e3 := Try(rid), Tick(elapsed), Returned(rid, result, id, latency);
    RunOfThree(cfg, s, e1, e2, e3);
    TryAndTick(cfg, s, rid, v, elapsed);
    AfterTryFacts(cfg, v, result);
    ReturnStep(cfg, Advance(cfg, Advance(cfg, s, e1), e2), rid,
               AfterTry(cfg, v).(now := v.now + elapsed), result, id, latency);
    ExecutionSeen(cfg, v, elapsed, result, id, latency);
  }

  /** A request that is past its attempts does not move in an attempt's steps. */
  lemma AttemptSkipped(cfg: Config, s: State, rid: Rid, v: Seen, elapsed: nat, result: Option<GatewayResponse>,
                       id: string, latency: int)
    requires Sees(s, rid, v) && !v.r.pc.Attempt? && !v.r.pc.Calling?
    ensures Sees(Run(cfg, s, Attempted(rid, elapsed, result, id, latency)), rid, v.(now := v.now + elapsed))
  {
    var e1, e2, e3 := Try(rid), Tick(elapsed), Returned(rid, result, id, latency);
    RunOfThree(cfg, s, e1, e2, e3);
    assert Advance(cfg, s, e1) == s;
    TickStep(cfg, s, rid, v, elapsed);
    ReturnStep(cfg, Advance(cfg, s, e2), rid, v.(now := v.now + elapsed), result, id, latency);
  }

  /** The machine's request has been served as `want` says. */
  predicate ServedAs(r: Request, call: Option<Call>, want: Service, id: string, latency: int) {
    && r.called == want.called
    && match want.resp
       case None => r.pc.Finished? && r.outcome == if r.own.stream then StreamFailed else Unavailable
       case Some(resp) =>
         var decorated := resp.(id := id, latencyMs := latency);
         && r.req == want.req && call == Some(Call(want.req, resp))
         && (r.own.stream ==> r.pc.Finished? && r.outcome.Streamed?)
         && (!r.own.stream ==>
               r.pc == Publishing(Setting, decorated) && r.outcome == Fresh(decorated))
  }

  /** A request about to make its first attempt. */
  predicate Unserved(cfg: Config, v: Seen) {
    && v.r.pc == Attempt(false) && v.r.req == v.r.own && v.r.called == []
    && v.breakers.Keys == cfg.providers
  }

  function First(cfg: Config, v: Seen, elapsed: nat, result: Option<GatewayResponse>): Execution {
    Execute(cfg.breaker, v.breakers, v.r.req.provider, v.now, v.now + elapsed, result)
  }

  /** What a failed first attempt leaves to the second one. */
  lemma FirstFailed(cfg: Config, v: Seen, elapsed: nat, result: Option<GatewayResponse>, id: string, latency: int)
    requires Unserved(cfg, v)
    ensures var x := First(cfg, v, elapsed, result);
            var r := AfterExecution(cfg, v.r, x, id, latency);
            && x.breakers.Keys == cfg.providers
            && (r.pc.Attempt? <==> x.resp.None? && MayFailOver(v.breakers, v.r.own.provider))
            && !r.pc.Calling?
            && (r.pc.Attempt? ==> r == v.r.(pc := Attempt(true), req := FailedOver(v.r.own),
                                            called := Called(x, v.r.own.provider)))
  {
  }

  predicate SameRedis(v: Seen, t: Seen) { t.values == v.values && t.locks == v.locks && t.rows == v.rows }

  /** One attempt's steps, taken or skipped. */
  function AfterAttempt(cfg: Config, v: Seen, elapsed: nat, result: Option<GatewayResponse>, id: string,
                        latency: int): (t: Seen)
    ensures SameRedis(v, t) && t.r.own == v.r.own && t.now == v.now + elapsed
  {
    if v.r.pc.Attempt? then
      var x := First(cfg, v, elapsed, result);
      Through(cfg, v, x, elapsed, id, latency)
    else v.(now := v.now + elapsed)
  }

  /** The request may go through an attempt's steps, taking or skipping them. */
  predicate Ready(cfg: Config, v: Seen, result: Option<GatewayResponse>) {
    && !v.r.pc.Calling? && v.breakers.Keys == cfg.providers
    && (v.r.pc.Attempt? ==> PlausibleResult(v.r, result))
  }

  lemma AttemptRun(cfg: Config, s: State, rid: Rid, v: Seen, elapsed: nat, result: Option<GatewayResponse>,
                   id: string, latency: int)
    requires Sees(s, rid, v) && Ready(cfg, v, result)
    ensures Sees(Run(cfg, s, Attempted(rid, elapsed, result, id, latency)), rid,
                 AfterAttempt(cfg, v, elapsed, result, id, latency))
  {
    if v.r.pc.Attempt? {
      ExecuteIsARun(cfg, s, rid, v, elapsed, result, id, latency);
    } else {
      AttemptSkipped(cfg, s, rid, v, elapsed, result, id, latency);
    }
  }

  /** The call has been through both attempts: served as `Serve` says, with Redis and the tables as they were. */
  predicate ServedSeen(cfg: Config, v: Seen, v2: Seen, net: Outside, id: string, latency: int) {
    var want := Serve(cfg.breaker, v.breakers, v.r.own, net);
    && SameRedis(v, v2) && v2.r.own == v.r.own && v2.now == net.end
    && v2.breakers == want.breakers && ServedAs(v2.r, v2.call, want, id, latency)
  }

  function FirstExecution(cfg: Config, v: Seen, net: Outside): Execution {
    Execute(cfg.breaker, v.breakers, v.r.own.provider, net.start, net.middle, net.primary)
  }

  /** The call has been through its first attempt: served, or about to make the second. */
  predicate FirstSeen(cfg: Config, v: Seen, v1: Seen, net: Outside, id: string, latency: int) {
    var x := FirstExecution(cfg, v, net);
    && SameRedis(v, v1) && v1.r.own == v.r.own && v1.now == net.middle && v1.breakers == x.breakers
    && Ready(cfg, v1, net.secondary)
    && (v1.r.pc.Attempt? <==> x.resp.None? && MayFailOver(v.breakers, v.r.own.provider))
    && (v1.r.pc.Attempt? ==> v1.r.pc == Attempt(true) && v1.r.req == FailedOver(v.r.own) &&
                             v1.r.called == Called(x, v.r.own.provider))
    && (!v1.r.pc.Attempt? ==>
          ServedAs(v1.r, v1.call, Service(x.breakers, v.r.own, Called(x, v.r.own.provider), x.resp), id, latency))
  }

  /** The second execution, after a failed first one. */
  lemma SecondServes(cfg: Config, v: Seen, first: Execution, net: Outside, id: string, latency: int)
    requires v.r.pc == Attempt(true) && v.r.called == Called(first, v.r.own.provider)
    requires v.r.req == FailedOver(v.r.own) && v.now == net.middle <= net.end
    ensures var second := First(cfg, v, net.end - net.middle, net.secondary);
            var v2 := AfterAttempt(cfg, v, net.end - net.middle, net.secondary, id, latency);
            && second == Execute(cfg.breaker, v.breakers, v.r.req.provider, net.middle, net.end, net.secondary)
            && v2.breakers == second.breakers
            && ServedAs(v2.r, v2.call, Service(second.breakers, v.r.req,
                                      Called(first, v.r.own.provider) + Called(second, v.r.req.provider), second.resp),
                        id, latency)
  {
  }

  lemma FirstServes(cfg: Config, v: Seen, net: Outside, id: string, latency: int)
    requires Unserved(cfg, v) && net.start == v.now && net.start <= net.middle <= net.end
    ensures var x := First(cfg, v, net.middle - net.start, net.primary);
            var v1 := AfterAttempt(cfg, v, net.middle - net.start, net.primary, id, latency);
            && x == Execute(cfg.breaker, v.breakers, v.r.own.provider, net.start, net.middle, net.primary)
            && v1.breakers == x.breakers && v1.now == net.middle
            && (!v1.r.pc.Attempt? ==>
                  ServedAs(v1.r, v1.call, Service(x.breakers, v.r.own, Called(x, v.r.own.provider), x.resp), id,
                           latency))
  {
  }

  /** The second attempt may follow the first. */
  lemma SecondMayFollow(cfg: Config, v: Seen, elapsed: nat, primary: Option<GatewayResponse>,
                        secondary: Option<GatewayResponse>, id: string, latency: int)
    requires Unserved(cfg, v) && PlausibleResult(v.r.(req := FailedOver(v.r.own)), secondary)
    ensures Ready(cfg, AfterAttempt(cfg, v, elapsed, primary, id, latency), secondary)
  {
    FirstFailed(cfg, v, elapsed, primary, id, latency);
  }

  function BothAttempts(rid: Rid, net: Outside, id: string, latency: int): seq<Event>
    requires net.start <= net.middle <= net.end
  {
    Attempted(rid, net.middle - net.start, net.primary, id, latency) +
    Attempted(rid, net.end - net.middle, net.secondary, id, latency)
  }

  lemma BothAttemptsAppend(cfg: Config, s: State, t: State, rid: Rid, v: Seen, net: Outside, id: string, latency: int)
    requires net.start <= net.middle <= net.end
    requires t == Run(cfg, s, Attempted(rid, net.middle - net.start, net.primary, id, latency))
    requires Sees(Run(cfg, t, Attempted(rid, net.end - net.middle, net.secondary, id, latency)), rid, v)
    ensures Sees(Run(cfg, s, BothAttempts(rid, net, id, latency)), rid, v)
  {
    RunAppends(cfg, s, Attempted(rid, net.middle - net.start, net.primary, id, latency),
               Attempted(rid, net.end - net.middle, net.secondary, id, latency));
  }

  lemma FirstIsSeen(cfg: Config, v: Seen, net: Outside, id: string, latency: int)
    requires Unserved(cfg, v) && net.start == v.now && net.start <= net.middle <= net.end
    requires PlausibleResult(v.r.(req := FailedOver(v.r.own)), net.secondary)
    ensures FirstSeen(cfg, v, AfterAttempt(cfg, v, net.middle - net.start, net.primary, id, latency), net, id, latency)
  {
    SecondMayFollow(cfg, v, net.middle - net.start, net.primary, net.secondary, id, latency);
    FirstFailed(cfg, v, net.middle - net.start, net.primary, id, latency);
    FirstServes(cfg, v, net, id, latency);
  }

  lemma FirstAttemptRun(cfg: Config, s: State, rid: Rid, v: Seen, net: Outside, id: string, latency: int)
    returns (v1: Seen)
    requires Sees(s, rid, v) && Unserved(cfg, v) && net.start == v.now && net.start <= net.middle <= net.end
    requires PlausibleResult(v.r, net.primary)
    requires PlausibleResult(v.r.(req := FailedOver(v.r.own)), net.secondary)
    ensures Sees(Run(cfg, s, Attempted(rid, net.middle - net.start, net.primary, id, latency)), rid, v1)
    ensures FirstSeen(cfg, v, v1, net, id, latency)
  {
    v1 := AfterAttempt(cfg, v, net.middle - net.start, net.primary, id, latency);
    AttemptRun(cfg, s, rid, v, net.middle - net.start, net.primary, id, latency);
    FirstIsSeen(cfg, v, net, id, latency);
  }

  lemma SecondIsServed(cfg: Config, v: Seen, v1: Seen, net: Outside, id: string, latency: int)
    requires net.middle <= net.end && FirstSeen(cfg, v, v1, net, id, latency)
    ensures ServedSeen(cfg, v, AfterAttempt(cfg, v1, net.end - net.middle, net.secondary, id, latency), net, id,
                       latency)
  {
    if v1.r.pc.Attempt? {
      SecondServes(cfg, v1, FirstExecution(cfg, v, net), net, id, latency);
    }
  }

  lemma SecondAttemptRun(cfg: Config, t: State, rid: Rid, v: Seen, v1: Seen, net: Outside, id: string, latency: int)
    returns (v2: Seen)
    requires net.middle <= net.end && Sees(t, rid, v1) && FirstSeen(cfg, v, v1, net, id, latency)
    ensures Sees(Run(cfg, t, Attempted(rid, net.end - net.middle, net.secondary, id, latency)), rid, v2)
    ensures ServedSeen(cfg, v, v2, net, id, latency)
  {
    v2 := AfterAttempt(cfg, v1, net.end - net.middle, net.secondary, id, latency);
    AttemptRun(cfg, t, rid, v1, net.end - net.middle, net.secondary, id, latency);
    SecondIsServed(cfg, v, v1, net, id, latency);
  }

  lemma BothAttemptsRun(cfg: Config, s: State, rid: Rid, v: Seen, net: Outside, id: string, latency: int)
    returns (v2: Seen)
    requires Sees(s, rid, v) && Unserved(cfg, v) && net.start == v.now && net.start <= net.middle <= net.end
    requires PlausibleResult(v.r, net.primary)
    requires PlausibleResult(v.r.(req := FailedOver(v.r.own)), net.secondary)
    ensures Sees(Run(cfg, s, BothAttempts(rid, net, id, latency)), rid, v2)
    ensures ServedSeen(cfg, v, v2, net, id, latency)
  {
    var t := Run(cfg, s, Attempted(rid, net.middle - net.start, net.primary, id, latency));
    var v1 := FirstAttemptRun(cfg, s, rid, v, net, id, latency);
    v2 := SecondAttemptRun(cfg, t, rid, v, v1, net, id, latency);
    BothAttemptsAppend(cfg, s, t, rid, v2, net, id, latency);
  }

  /** A request that was answered from a cache skips both. */
  lemma BothAttemptsSkipped(cfg: Config, s: State, rid: Rid, v: Seen, net: Outside, id: string, latency: int)
    requires Sees(s, rid, v) && v.r.pc.Finished? && net.start == v.now && net.start <= net.middle <= net.end
    ensures Sees(Run(cfg, s, BothAttempts(rid, net, id, latency)), rid, v.(now := net.end))
  {
    var t := Run(cfg, s, Attempted(rid, net.middle - net.start, net.primary, id, latency));
    AttemptSkipped(cfg, s, rid, v, net.middle - net.start, net.primary, id, latency);
    AttemptSkipped(cfg, t, rid, v.(now := net.middle), net.end - net.middle, net.secondary, id, latency);
    BothAttemptsAppend(cfg, s, t, rid, v.(now := net.end), net, id, latency);
  }

  /** The machine's request and breakers agree with the service. */
  predicate Agrees(s: State, rid: Rid, want: Service, id: string, latency: int) {
    && rid in s.requests && s.breakers == want.breakers
    && ServedAs(s.requests[rid], CallOf(s.calls, rid), want, id, latency)
  }

  /**
    The provider phase of ServeHTTP alone is a run of the machine: same breakers, same providers called,
    same answer.
   */
  lemma ServeIsARun(cfg: Config, s: State, rid: Rid, v: Seen, net: Outside, id: string, latency: int)
    requires Sees(s, rid, v) && Unserved(cfg, v) && net.start == v.now && net.start <= net.middle <= net.end
    requires PlausibleResult(v.r, net.primary)
    requires PlausibleResult(v.r.(req := FailedOver(v.r.own)), net.secondary)
    ensures Agrees(Run(cfg, s, BothAttempts(rid, net, id, latency)), rid,
                   Serve(cfg.breaker, v.breakers, v.r.own, net), id, latency)
  {
    var _ := BothAttemptsRun(cfg, s, rid, v, net, id, latency);
  }

  /**
    A request for groq or gemini whose first attempt fails is answered by a call of the other one under its fixed model,
    if that is configured, let through by its breaker and successful, and by nobody otherwise.
   */
  lemma FailoverIsServed(cfg: Config, s: State, rid: Rid, v: Seen, other: GatewayRequest, net: Outside, id: string,
                         latency: int)
    requires Sees(s, rid, v) && Unserved(cfg, v) && net.start == v.now && net.start <= net.middle <= net.end
    requires AsksInstead(v.r.own, other) && PlausibleResult(v.r, net.primary)
    requires PlausibleResult(v.r.(req := other), net.secondary)
    requires !WouldAnswer(cfg.breaker, v.breakers, v.r.own.provider, net.start, net.primary)
    ensures var t := Run(cfg, s, BothAttempts(rid, net, id, latency));
            rid in t.requests &&
            var r := t.requests[rid];
            if WouldAnswer(cfg.breaker, v.breakers, other.provider, net.middle, net.secondary) then
              && rid in t.calls && t.calls[rid] == Call(other, net.secondary.value)
              && r.outcome == (if r.own.stream then Streamed
                               else Fresh(net.secondary.value.(id := id, latencyMs := latency)))
            else
              r.pc.Finished? && r.outcome == if r.own.stream then StreamFailed else Unavailable
  {
    assert FailedOver(v.r.own) == other;
    ServeIsARun(cfg, s, rid, v, net, id, latency);
    FallbackAnswersExactly(cfg.breaker, v.breakers, v.r.own, other, net);
  }
}
