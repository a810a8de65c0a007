/**
  What every interleaving keeps of breakers and failover: calls in flight are conserved, a request
  calls at most its provider and then the fixed fallback, and 503 means that no call succeeded.
 */
module Failover {
  import opened Gateway
  import Breaker
  import opened Models

  // ---------------------------------------------------------------- one request

  /** The providers a request may have called: its own, its fallback, or the one after the other. */
  predicate CalledInOrder(cfg: Config, r: Request) {
    var p, f := r.own.provider, Fallback(r.own.provider);
    || r.called == []
    || CalledOwn(cfg, r)
    || (HasFallback(cfg, r.own) && (r.called == [f] || (p in cfg.providers && r.called == [p, f])))
  }

  predicate Rewritten(cfg: Config, r: Request) {
    HasFallback(cfg, r.own) && r.req == FailedOver(r.own)
  }

  predicate CalledOwn(cfg: Config, r: Request) {
    r.own.provider in cfg.providers && r.called == [r.own.provider]
  }

  predicate LastCalled(r: Request, p: string) {
    r.called != [] && r.called[|r.called| - 1] == p
  }

  /** A command is on its way only from the point on at which it is sent. */
  predicate LateShape(r: Request) {
    && (SetValue in r.late || SendMessage in r.late || DeleteLock in r.late ==> r.outcome.Fresh? && !r.own.stream)
    && (SendMessage in r.late && r.pc.Publishing? ==> !r.pc.stage.Setting?)
    && (DeleteLock in r.late && r.pc.Publishing? ==> r.pc.stage.Unlocking? || r.pc.stage.Storing?)
  }

  /** The fields of a request at each of its program points. */
  predicate Shape(cfg: Config, r: Request) {
    && Admitted(r.own) && LateShape(r)
    && CalledInOrder(cfg, r)
    && (r.req == r.own || Rewritten(cfg, r))
    && match r.pc
       case Attempt(false) => r.outcome.Unanswered? && r.req == r.own && r.called == []
       case Attempt(true) => r.outcome.Unanswered? && Rewritten(cfg, r) && (r.called == [] || CalledOwn(cfg, r))
       case Calling(false) => r.outcome.Unanswered? && r.req == r.own && CalledOwn(cfg, r)
       case Calling(true) =>
         r.outcome.Unanswered? && Rewritten(cfg, r) && LastCalled(r, r.req.provider)
       case Publishing(_, resp) =>
         && !r.own.stream && r.outcome == Fresh(resp) && LastCalled(r, r.req.provider)
       case Finished =>
         && !r.outcome.Unanswered? && (r.own.stream <==> r.outcome.Streamed? || r.outcome.StreamFailed?)
         && (r.outcome.Hit? || r.outcome.SemanticHit? ==> r.called == [] && r.req == r.own)
         && (r.outcome.Fresh? || r.outcome.Streamed? ==> LastCalled(r, r.req.provider))
       case _ => r.outcome.Unanswered? && r.req == r.own && r.called == [] && !r.own.stream
  }

  predicate Named(call: Call) {
    && call.resp.provider == call.req.provider && call.resp.model == call.req.model
    && (call.req.stream ==> call.resp.usage == NO_USAGE)
  }

  /** An answer of its own stands for the provider call recorded under the request. */
  predicate Backed(calls: map<Rid, Call>, rid: Rid, r: Request) {
    && (rid in calls <==> r.outcome.Fresh? || r.outcome.Streamed?)
    && (rid in calls ==> calls[rid].req == r.req && Named(calls[rid]))
    && (r.outcome.Fresh? ==>
          r.outcome.resp == calls[rid].resp.(id := r.outcome.resp.id, latencyMs := r.outcome.resp.latencyMs))
  }

  predicate Kept(cfg: Config, calls: map<Rid, Call>, rid: Rid, r: Request) {
    Shape(cfg, r) && Backed(calls, rid, r)
  }

  predicate AllKept(cfg: Config, requests: map<Rid, Request>, calls: map<Rid, Call>) {
    && calls.Keys <= requests.Keys
    && forall rid | rid in requests :: Kept(cfg, calls, rid, requests[rid])
  }

  lemma FailedAttemptShape(cfg: Config, r: Request, wasFallback: bool)
    requires Shape(cfg, r)
    requires r.pc == Attempt(wasFallback) || r.pc == Calling(wasFallback)
    ensures Shape(cfg, AfterFailedAttempt(cfg, r, wasFallback))
    ensures AfterFailedAttempt(cfg, r, wasFallback).outcome in {Unanswered, Unavailable, StreamFailed}
  {
  }

  lemma TryKeeps(cfg: Config, s: State, e: Event)
    requires Enabled(s, e) && (e.Try? || e.Fail?) && Kept(cfg, s.calls, e.rid, s.requests[e.rid])
    ensures Kept(cfg, s.calls, e.rid, Next(cfg, s, e))
  {
    var r := s.requests[e.rid];
    FailedAttemptShape(cfg, r, r.pc.fallback);
  }

  lemma PublishingKeeps(cfg: Config, s: State, e: Event)
    requires Enabled(s, e) && (e.Set? || e.Publish? || e.Unlock? || e.Store?)
    requires Kept(cfg, s.calls, e.rid, s.requests[e.rid])
    ensures Kept(cfg, s.calls, e.rid, Next(cfg, s, e))
  {
  }

  /** A command left on its way, or executed late, leaves the answer alone. */
  lemma LateKeeps(cfg: Config, s: State, e: Event)
    requires Enabled(s, e) && (e.Leave? || e.Late?)
    requires Kept(cfg, s.calls, e.rid, s.requests[e.rid])
    ensures Kept(cfg, s.calls, e.rid, Next(cfg, s, e))
  {
  }

  lemma SucceedKeeps(cfg: Config, s: State, e: Event)
    requires Enabled(s, e) && e.Succeed? && Kept(cfg, s.calls, e.rid, s.requests[e.rid])
    ensures Kept(cfg, NextCalls(s, e), e.rid, Next(cfg, s, e))
  {
  }

  lemma NextKeeps(cfg: Config, s: State, e: Event)
    requires Enabled(s, e) && IsAct(e) && s.calls.Keys <= s.requests.Keys
    requires e.Arrive? || Kept(cfg, s.calls, e.rid, s.requests[e.rid])
    ensures Kept(cfg, NextCalls(s, e), e.rid, Next(cfg, s, e))
  {
    if e.Try? || e.Fail? {
      TryKeeps(cfg, s, e);
    } else if e.Set? || e.Publish? || e.Unlock? || e.Store? {
      PublishingKeeps(cfg, s, e);
    } else if e.Leave? || e.Late? {
      LateKeeps(cfg, s, e);
    } else if e.Succeed? {
      SucceedKeeps(cfg, s, e);
    }
  }

  lemma BystanderKeeps(cfg: Config, s: State, e: Event, x: Rid, r: Request)
    requires Enabled(s, e) && !Acts(e, x) && Kept(cfg, s.calls, x, r)
    ensures Kept(cfg, NextCalls(s, e), x, Bystander(cfg, s, e, r))
  {
  }

  lemma KeptStep(cfg: Config, s: State, e: Event, x: Rid)
    requires s.calls.Keys <= s.requests.Keys && Enabled(s, e) && x in NextRequests(cfg, s, e)
    requires x in s.requests ==> Kept(cfg, s.calls, x, s.requests[x])
    ensures Kept(cfg, NextCalls(s, e), x, NextRequests(cfg, s, e)[x])
  {
    if Acts(e, x) {
      NextKeeps(cfg, s, e);
    } else {
      BystanderKeeps(cfg, s, e, x, s.requests[x]);
    }
  }

  lemma {:induction false} KeptRun(cfg: Config, run: seq<Event>)
    ensures var s := Run(cfg, Start(cfg), run); AllKept(cfg, s.requests, s.calls)
  {
    if run != [] {
      var before := Run(cfg, Start(cfg), run[..|run| - 1]);
      KeptRun(cfg, run[..|run| - 1]);
      if Enabled(before, run[|run| - 1]) {
        var e := run[|run| - 1];
        forall x | x in NextRequests(cfg, before, e)
          ensures Kept(cfg, NextCalls(before, e), x, NextRequests(cfg, before, e)[x])
        {
          KeptStep(cfg, before, e, x);
        }
      }
    }
  }

  lemma KeptAnswers(cfg: Config, calls: map<Rid, Call>, rid: Rid, r: Request)
    requires Kept(cfg, calls, rid, r)
    ensures r.outcome.Hit? || r.outcome.SemanticHit? ==> rid !in calls && r.called == []
    ensures r.pc.Finished? && !r.own.stream && !r.outcome.Hit? && !r.outcome.SemanticHit? ==>
              (r.outcome.Unavailable? <==> rid !in calls)
    ensures rid in calls ==> LastCalled(r, calls[rid].req.provider)
  {
  }

  lemma KeptCalled(cfg: Config, r: Request)
    requires CalledInOrder(cfg, r)
    ensures forall i, j :: 0 <= i < j < |r.called| ==> r.called[i] != r.called[j]
    ensures forall p | p in r.called :: p in [r.own.provider, Fallback(r.own.provider)] && p in cfg.providers
    ensures |r.called| == 2 ==> r.called[0] == r.own.provider
  {
  }

  /** No provider is called twice for one request, and only its own provider and that one's fallback are. */
  lemma ProvidersCalledOnce(cfg: Config, run: seq<Event>, rid: Rid)
    requires rid in Run(cfg, Start(cfg), run).requests
    ensures var r := Run(cfg, Start(cfg), run).requests[rid];
            && (forall i, j :: 0 <= i < j < |r.called| ==> r.called[i] != r.called[j])
            && (forall p | p in r.called :: p in [r.own.provider, Fallback(r.own.provider)] && p in cfg.providers)
            && (|r.called| == 2 ==> r.called[0] == r.own.provider)
  {
    KeptRun(cfg, run);
    KeptCalled(cfg, Run(cfg, Start(cfg), run).requests[rid]);
  }

  /** Past the cache, 503 is answered exactly when no provider call of the request succeeded. */
  lemma UnavailableExactly(cfg: Config, run: seq<Event>, rid: Rid)
    requires rid in Run(cfg, Start(cfg), run).requests
    ensures var s := Run(cfg, Start(cfg), run);
            var r := s.requests[rid];
            && (r.outcome.Hit? || r.outcome.SemanticHit? ==> rid !in s.calls && r.called == [])
            && (r.pc.Finished? && !r.own.stream && !r.outcome.Hit? && !r.outcome.SemanticHit? ==>
                  (r.outcome.Unavailable? <==> rid !in s.calls))
            && (rid in s.calls ==> LastCalled(r, s.calls[rid].req.provider))
  {
    KeptRun(cfg, run);
    var s := Run(cfg, Start(cfg), run);
    KeptAnswers(cfg, s.calls, rid, s.requests[rid]);
  }

  // ---------------------------------------------------------------- failing over

  /** In this step the request fails to get an answer from `p`: not configured, refused by the breaker, or failed. */
  predicate Misses(cfg: Config, s: State, e: Event, rid: Rid, p: string) {
    && Enabled(s, e) && (e.Try? || e.Fail?) && e.rid == rid && s.requests[rid].req.provider == p
    && (e.Try? ==> !LetThrough(cfg, s, p))
  }

  predicate MissesAt(cfg: Config, run: seq<Event>, i: nat, rid: Rid, p: string)
    requires i < |run|
  {
    Misses(cfg, Run(cfg, Start(cfg), run[..i]), run[i], rid, p)
  }

  /** At some point of the run it did. */
  predicate Missed(cfg: Config, run: seq<Event>, rid: Rid, p: string) {
    exists i :: 0 <= i < |run| && MissesAt(cfg, run, i, rid, p)
  }

  lemma SameBefore(cfg: Config, run: seq<Event>, n: nat, i: nat, rid: Rid, p: string)
    requires i < n <= |run|
    ensures MissesAt(cfg, run[..n], i, rid, p) <==> MissesAt(cfg, run, i, rid, p)
  {
    assert run[..n][..i] == run[..i];
  }

  lemma MissedExtends(cfg: Config, run: seq<Event>, rid: Rid, p: string)
    requires run != []
    ensures Missed(cfg, run, rid, p) <==>
            Missed(cfg, run[..|run| - 1], rid, p) || MissesAt(cfg, run, |run| - 1, rid, p)
  {
    var n := |run| - 1;
    if i :| 0 <= i < n && MissesAt(cfg, run, i, rid, p) {
      SameBefore(cfg, run, n, i, rid, p);
    }
    if i :| 0 <= i < n && MissesAt(cfg, run[..n], i, rid, p) {
      SameBefore(cfg, run, n, i, rid, p);
    }
  }

  predicate Gone(r: Request) { r.outcome.Unavailable? || r.outcome.StreamFailed? }

  /** Where a request stands that has or has not missed its own provider, and the other one. */
  predicate Follows(cfg: Config, r: Request, other: GatewayRequest, own': bool, other': bool) {
    && (Gone(r) <==> own' && (other.provider !in cfg.providers || other'))
    && (Gone(r) ==> r.pc.Finished? && (r.own.stream <==> r.outcome.StreamFailed?))
    && (other' ==> own')
    && (own' ==> r.pc.Attempt? || r.pc.Calling? || r.pc.Publishing? || r.pc.Finished?)
    && r.req == (if own' && other.provider in cfg.providers then other else r.own)
    && (r.pc.Attempt? || r.pc.Calling? ==> r.pc.fallback == own')
  }

  /** A failed attempt moves on to the other provider, or ends the request. */
  lemma FollowsFailure(cfg: Config, r: Request, other: GatewayRequest)
    requires AsksInstead(r.own, other) && (r.pc.Attempt? || r.pc.Calling?) && !Gone(r)
    requires Follows(cfg, r, other, r.pc.fallback, false)
    ensures Follows(cfg, AfterFailedAttempt(cfg, r, r.pc.fallback), other, true, r.pc.fallback)
  {
    assert |"groq"| != |"gemini"|;
  }

  lemma FollowsTry(cfg: Config, s: State, e: Event, other: GatewayRequest, own': bool, other': bool)
    requires Enabled(s, e) && (e.Try? || e.Fail?)
    requires AsksInstead(s.requests[e.rid].own, other) && Follows(cfg, s.requests[e.rid], other, own', other')
    ensures Follows(cfg, Next(cfg, s, e), other, own' || Misses(cfg, s, e, e.rid, s.requests[e.rid].own.provider),
                    other' || Misses(cfg, s, e, e.rid, other.provider))
  {
    var r := s.requests[e.rid];
    assert |"groq"| != |"gemini"|;
    FollowsFailure(cfg, r, other);
  }

  lemma FollowsNext(cfg: Config, s: State, e: Event, other: GatewayRequest, own': bool, other': bool)
    requires Enabled(s, e) && IsAct(e) && !e.Arrive? && !e.Try? && !e.Fail?
    requires Follows(cfg, s.requests[e.rid], other, own', other')
    ensures Follows(cfg, Next(cfg, s, e), other, own', other')
  {
  }

  lemma FollowsActor(cfg: Config, s: State, e: Event, other: GatewayRequest, own': bool, other': bool)
    requires Enabled(s, e) && IsAct(e) && !e.Arrive? && AsksInstead(s.requests[e.rid].own, other)
    requires Follows(cfg, s.requests[e.rid], other, own', other')
    ensures Follows(cfg, Next(cfg, s, e), other, own' || Misses(cfg, s, e, e.rid, s.requests[e.rid].own.provider),
                    other' || Misses(cfg, s, e, e.rid, other.provider))
  {
    if e.Try? || e.Fail? {
      FollowsTry(cfg, s, e, other, own', other');
    } else {
      FollowsNext(cfg, s, e, other, own', other');
    }
  }

  lemma FollowsBystander(cfg: Config, s: State, e: Event, rid: Rid, other: GatewayRequest, own': bool, other': bool)
    requires Enabled(s, e) && rid in s.requests && !Acts(e, rid) && Follows(cfg, s.requests[rid], other, own', other')
    ensures Follows(cfg, Bystander(cfg, s, e, s.requests[rid]), other, own', other')
    ensures forall p :: !Misses(cfg, s, e, rid, p)
  {
  }

  lemma RequestAfter(cfg: Config, s: State, e: Event, rid: Rid)
    requires Enabled(s, e) && rid in s.requests
    ensures rid in Advance(cfg, s, e).requests
    ensures Advance(cfg, s, e).requests[rid] ==
            if Acts(e, rid) then Next(cfg, s, e) else Bystander(cfg, s, e, s.requests[rid])
  {
  }

  lemma FollowsStep(cfg: Config, s: State, e: Event, rid: Rid, other: GatewayRequest, own': bool, other': bool)
    requires Enabled(s, e) && rid in s.requests && AsksInstead(s.requests[rid].own, other)
    requires Follows(cfg, s.requests[rid], other, own', other')
    ensures rid in Advance(cfg, s, e).requests
    ensures Follows(cfg, Advance(cfg, s, e).requests[rid], other,
                    own' || Misses(cfg, s, e, rid, s.requests[rid].own.provider),
                    other' || Misses(cfg, s, e, rid, other.provider))
  {
    RequestAfter(cfg, s, e, rid);
    if Acts(e, rid) {
      FollowsActor(cfg, s, e, other, own', other');
    } else {
      FollowsBystander(cfg, s, e, rid, other, own', other');
    }
  }

  /** In every run, how far a request for groq or gemini has got depends on whom it has missed. */
  lemma {:induction false} FollowsRun(cfg: Config, run: seq<Event>, rid: Rid, other: GatewayRequest)
    requires rid in Run(cfg, Start(cfg), run).requests
    requires AsksInstead(Run(cfg, Start(cfg), run).requests[rid].own, other)
    ensures var r := Run(cfg, Start(cfg), run).requests[rid];
            Follows(cfg, r, other, Missed(cfg, run, rid, r.own.provider), Missed(cfg, run, rid, other.provider))
  {
    if run != [] {
      var before, e := Run(cfg, Start(cfg), run[..|run| - 1]), run[|run| - 1];
      var own := Run(cfg, Start(cfg), run).requests[rid].own;
      MissedExtends(cfg, run, rid, own.provider);
      MissedExtends(cfg, run, rid, other.provider);
      if rid in before.requests {
        OwnStays(cfg, before, e, rid);
        FollowsRun(cfg, run[..|run| - 1], rid, other);
        if Enabled(before, e) {
          FollowsStep(cfg, before, e, rid, other, Missed(cfg, run[..|run| - 1], rid, own.provider),
                      Missed(cfg, run[..|run| - 1], rid, other.provider));
        }
      } else {
        NewcomerMissesNobody(cfg, run[..|run| - 1], rid, own.provider);
        NewcomerMissesNobody(cfg, run[..|run| - 1], rid, other.provider);
      }
    }
  }

  lemma OwnStays(cfg: Config, s: State, e: Event, rid: Rid)
    requires rid in s.requests
    ensures rid in Advance(cfg, s, e).requests && Advance(cfg, s, e).requests[rid].own == s.requests[rid].own
  {
    if Enabled(s, e) {
      RequestAfter(cfg, s, e, rid);
    }
  }

  lemma {:induction false} NewcomerMissesNobody(cfg: Config, run: seq<Event>, rid: Rid, p: string)
    requires rid !in Run(cfg, Start(cfg), run).requests
    ensures !Missed(cfg, run, rid, p)
  {
    if run != [] {
      MissedExtends(cfg, run, rid, p);
      var before, e := Run(cfg, Start(cfg), run[..|run| - 1]), run[|run| - 1];
      if rid in before.requests {
        OwnStays(cfg, before, e, rid);
      }
      NewcomerMissesNobody(cfg, run[..|run| - 1], rid, p);
    }
  }

  /**
    In every run a request for groq or gemini ends without an answer exactly when its own provider and the other one
    have both been missed, or the other is not configured.  Until it misses its own it asks what it asked for, from
    then on what failover asks instead, which is also the request of the call that answers it.
   */
  lemma FailoverExactly(cfg: Config, run: seq<Event>, rid: Rid, other: GatewayRequest)
    requires rid in Run(cfg, Start(cfg), run).requests
    requires AsksInstead(Run(cfg, Start(cfg), run).requests[rid].own, other)
    ensures var s := Run(cfg, Start(cfg), run);
            var r := s.requests[rid];
            var configured, missed := other.provider in cfg.providers, Missed(cfg, run, rid, r.own.provider);
            && (r.outcome == (if r.own.stream then StreamFailed else Unavailable) <==>
                  missed && (!configured || Missed(cfg, run, rid, other.provider)))
            && r.req == (if missed && configured then other else r.own)
            && (rid in s.calls ==> s.calls[rid].req == r.req)
  {
    FollowsRun(cfg, run, rid, other);
    KeptRun(cfg, run);
  }

  // ---------------------------------------------------------------- calls in flight

  predicate Flies(r: Request, p: string) { r.pc.Calling? && r.req.provider == p }

  /** The requests whose call to `p` has not returned. */
  function InFlight(requests: map<Rid, Request>, p: string): set<Rid> {
    set x | x in requests && Flies(requests[x], p)
  }

  /** The step enters a call to `p`. */
  predicate Takes(cfg: Config, s: State, e: Event, p: string) {
    e.Try? && e.rid in s.requests && s.requests[e.rid].req.provider == p && LetThrough(cfg, s, p)
  }

  /** The step is the result of a call to `p`. */
  predicate Returns(s: State, e: Event, p: string) {
    (e.Succeed? || e.Fail?) && e.rid in s.requests && s.requests[e.rid].req.provider == p
  }

  /** A step of a request itself; a command on its way may be executed at any of its program points. */
  predicate Moves(e: Event) { IsAct(e) && !e.Late? }

  lemma ActorFlight(cfg: Config, s: State, e: Event, p: string)
    requires Enabled(s, e) && Moves(e)
    ensures Flies(Next(cfg, s, e), p) <==> Takes(cfg, s, e, p)
    ensures e.rid in s.requests && Flies(s.requests[e.rid], p) <==> Returns(s, e, p)
  {
  }

  lemma FlightStep(cfg: Config, s: State, e: Event, p: string, x: Rid)
    requires Enabled(s, e)
    ensures x in InFlight(NextRequests(cfg, s, e), p) <==>
            if Moves(e) && x == e.rid then Takes(cfg, s, e, p) else x in InFlight(s.requests, p)
  {
    if Moves(e) && e.rid == x {
      ActorFlight(cfg, s, e, p);
    }
  }

  function Change(cfg: Config, s: State, e: Event, p: string): int {
    if Takes(cfg, s, e, p) then 1 else if Returns(s, e, p) then -1 else 0
  }

  lemma OneMemberChanges(before: set<Rid>, after: set<Rid>, x: Rid)
    requires forall y | y != x :: y in after <==> y in before
    ensures |after| == |before| + (if x in after then 1 else 0) - (if x in before then 1 else 0)
  {
    if x in after {
      assert after - {x} == before - {x};
    } else {
      assert after == before - {x};
    }
  }

  lemma InFlightStep(cfg: Config, s: State, e: Event, p: string)
    requires Enabled(s, e)
    ensures |InFlight(NextRequests(cfg, s, e), p)| == |InFlight(s.requests, p)| + Change(cfg, s, e, p)
  {
    var x := if Moves(e) then e.rid else 0;
    forall y ensures y in InFlight(NextRequests(cfg, s, e), p) <==>
                     if Moves(e) && y == e.rid then Takes(cfg, s, e, p) else y in InFlight(s.requests, p)
    {
      FlightStep(cfg, s, e, p, y);
    }
    if Moves(e) {
      ActorFlight(cfg, s, e, p);
    }
    OneMemberChanges(InFlight(s.requests, p), InFlight(NextRequests(cfg, s, e), p), x);
  }

  /** Let through is succeeded plus failed plus in flight. */
  predicate Balanced(t: Tally, flying: int) { t.allowed == t.succeeded + t.failed + flying }

  predicate Conserved(cfg: Config, s: State) {
    && s.tallies.Keys == s.breakers.Keys == cfg.providers
    && forall p | p in cfg.providers :: Balanced(s.tallies[p], |InFlight(s.requests, p)|)
  }

  lemma TallyStep(cfg: Config, s: State, e: Event, p: string, flying: int)
    requires Enabled(s, e) && p in s.tallies && Balanced(s.tallies[p], flying)
    ensures p in NextTallies(cfg, s, e)
    ensures Balanced(NextTallies(cfg, s, e)[p], flying + Change(cfg, s, e, p))
  {
  }

  /** For each provider, results let through equal recorded successes and failures plus calls in flight. */
  lemma {:induction false} CallsConserved(cfg: Config, run: seq<Event>)
    ensures Conserved(cfg, Run(cfg, Start(cfg), run))
  {
    if run == [] {
      forall p | p in cfg.providers ensures InFlight(Start(cfg).requests, p) == {} {
      }
    } else {
      var before, e := Run(cfg, Start(cfg), run[..|run| - 1]), run[|run| - 1];
      CallsConserved(cfg, run[..|run| - 1]);
      if Enabled(before, e) {
        forall p | p in cfg.providers
          ensures p in NextTallies(cfg, before, e)
          ensures Balanced(NextTallies(cfg, before, e)[p], |InFlight(NextRequests(cfg, before, e), p)|)
        {
          TallyStep(cfg, before, e, p, |InFlight(before.requests, p)|);
          InFlightStep(cfg, before, e, p);
        }
        assert NextTallies(cfg, before, e).Keys == before.tallies.Keys;
        assert NextBreakers(cfg, before, e).Keys == before.breakers.Keys;
      }
    }
  }

  // ---------------------------------------------------------------- what one breaker sees

  /** The breaker call of a step, if it is one on the breaker of `p`. */
  function BreakerCall(s: State, e: Event, p: string): seq<Breaker.Event>
    requires Enabled(s, e)
  {
    if !(e.Try? || e.Succeed? || e.Fail?) || s.requests[e.rid].req.provider != p then []
    else if e.Try? then [Breaker.Allow(s.now)]
    else if e.Succeed? then [Breaker.Success(s.now)]
    else [Breaker.Failure(s.now)]
  }

  function BreakerCalls(cfg: Config, run: seq<Event>, p: string): seq<Breaker.Event> {
    if run == [] then [] else
    var before, e := Run(cfg, Start(cfg), run[..|run| - 1]), run[|run| - 1];
    BreakerCalls(cfg, run[..|run| - 1], p) + if Enabled(before, e) then BreakerCall(before, e, p) else []
  }

  lemma BreakerStep(cfg: Config, s: State, e: Event, p: string, calls: seq<Breaker.Event>)
    requires Enabled(s, e) && p in cfg.providers && p in s.breakers
    requires s.breakers[p] == Breaker.Run(cfg.breaker, calls)
    ensures p in NextBreakers(cfg, s, e)
    ensures NextBreakers(cfg, s, e)[p] == Breaker.Run(cfg.breaker, calls + BreakerCall(s, e, p))
  {
    var more := BreakerCall(s, e, p);
    if more == [] {
      assert calls + more == calls;
    } else {
      assert more == [more[0]];
    }
  }

  /** Each breaker of a gateway run has run through exactly the atomic calls made on it. */
  lemma {:induction false} BreakerIsARun(cfg: Config, run: seq<Event>, p: string)
    requires p in cfg.providers
    ensures p in Run(cfg, Start(cfg), run).breakers
    ensures Run(cfg, Start(cfg), run).breakers[p] == Breaker.Run(cfg.breaker, BreakerCalls(cfg, run, p))
  {
    if run != [] {
      var before, e := Run(cfg, Start(cfg), run[..|run| - 1]), run[|run| - 1];
      BreakerIsARun(cfg, run[..|run| - 1], p);
      var calls := BreakerCalls(cfg, run[..|run| - 1], p);
      if Enabled(before, e) {
        BreakerStep(cfg, before, e, p, calls);
      } else {
        assert calls + [] == calls;
      }
    }
  }

  /** The tally of a provider counts exactly the calls its breaker let through and the results it was given. */
  predicate Tallied(cfg: Config, t: Tally, calls: seq<Breaker.Event>) {
    && t.allowed == Breaker.Granted(cfg.breaker, calls)
    && t.succeeded == Breaker.Successes(calls) && t.failed == Breaker.Failures(calls)
  }

  lemma TalliedStep(cfg: Config, s: State, e: Event, p: string, calls: seq<Breaker.Event>)
    requires Enabled(s, e) && p in cfg.providers && p in s.breakers && p in s.tallies
    requires s.breakers[p] == Breaker.Run(cfg.breaker, calls) && Tallied(cfg, s.tallies[p], calls)
    ensures p in NextTallies(cfg, s, e)
    ensures Tallied(cfg, NextTallies(cfg, s, e)[p], calls + BreakerCall(s, e, p))
  {
    var more := BreakerCall(s, e, p);
    if more == [] {
      assert calls + more == calls;
    } else {
      Breaker.CountsExtend(cfg.breaker, calls, more[0]);
      assert more == [more[0]];
    }
  }

  lemma {:induction false} TalliesCountCalls(cfg: Config, run: seq<Event>, p: string)
    requires p in cfg.providers
    ensures p in Run(cfg, Start(cfg), run).tallies
    ensures Tallied(cfg, Run(cfg, Start(cfg), run).tallies[p], BreakerCalls(cfg, run, p))
  {
    if run != [] {
      var before, e := Run(cfg, Start(cfg), run[..|run| - 1]), run[|run| - 1];
      TalliesCountCalls(cfg, run[..|run| - 1], p);
      BreakerIsARun(cfg, run[..|run| - 1], p);
      var calls := BreakerCalls(cfg, run[..|run| - 1], p);
      if Enabled(before, e) {
        TalliedStep(cfg, before, e, p, calls);
      } else {
        assert calls + [] == calls;
      }
    }
  }

  /** Per provider, the Allow calls that returned true are the recorded successes, failures and calls in flight. */
  lemma AllowedCallsAccounted(cfg: Config, run: seq<Event>, p: string)
    requires p in cfg.providers
    ensures var calls := BreakerCalls(cfg, run, p);
            Breaker.Granted(cfg.breaker, calls) ==
            Breaker.Successes(calls) + Breaker.Failures(calls) + |InFlight(Run(cfg, Start(cfg), run).requests, p)|
  {
    CallsConserved(cfg, run);
    TalliesCountCalls(cfg, run, p);
  }

  /** Their clock never goes back. */
  lemma {:induction false} BreakerClock(cfg: Config, run: seq<Event>, p: string)
    ensures Breaker.Monotone(BreakerCalls(cfg, run, p))
    ensures forall c | c in BreakerCalls(cfg, run, p) :: c.now <= Run(cfg, Start(cfg), run).now
  {
    if run != [] {
      BreakerClock(cfg, run[..|run| - 1], p);
    }
  }

  /** So, with requests and failover interleaved at will, a provider is probed at most once per timeout. */
  lemma ProbesOfAProvider(cfg: Config, run: seq<Event>, p: string, start: int, length: nat)
    requires p in cfg.providers && cfg.breaker.timeout > 0
    ensures var probes := Breaker.Probes(cfg.breaker, BreakerCalls(cfg, run, p));
            && Breaker.Spaced(probes, cfg.breaker.timeout)
            && Breaker.CountIn(probes, start, start + length) <= length / cfg.breaker.timeout + 1
  {
    BreakerClock(cfg, run, p);
    Breaker.ProbesAreSpaced(cfg.breaker, BreakerCalls(cfg, run, p));
    Breaker.ProbeRate(cfg.breaker, BreakerCalls(cfg, run, p), start, length);
  }
}
