/**
  What the lock and the cached value promise, exactly: each of the four promises holds in all runs of an
  environment if and only if a condition on the environment does, and the runs that show it are given.
  They exist under every key function that tells two requests apart and ignores Stream.
 */
module Overlap {
  import opened Models
  import opened Gateway
  import opened Stampede
  import opened CachedValue
  import Breaker
  import CacheKey
  import Crosstalk

  type Hash = GatewayRequest -> Key

  // ---------------------------------------------------------------- one gateway and its reachable states

  /** Only Gemini is configured. */
  function Config1(hash: Hash): Config {
    Config(hash, {"gemini"}, Breaker.Config(5, 30_000_000_000))
  }

  const OWN := GatewayRequest("gemini", "gemini-1.5-flash", "", [Message("user", "hello")], 1, 0, false)
  const FOREIGN := OWN.(provider := "groq", model := "llama-3.1-8b-instant")
  const STREAM := OWN.(stream := true)

  predicate Separates(hash: Hash) { hash(FOREIGN) != hash(OWN) && hash(STREAM) == hash(OWN) }

  /** The real cache key does. */
  lemma RealKeysSeparate(cfg: Config, sha256: string -> string, format: Float64 -> string)
    requires Crosstalk.HashesRequests(cfg, sha256, format)
    ensures Separates(cfg.hash)
  {
    CacheKey.KeysEqualIff(sha256, format, FOREIGN, OWN);
    CacheKey.KeysEqualIff(sha256, format, STREAM, OWN);
  }

  ghost predicate Reachable(hash: Hash, env: Env, s: State) {
    exists run :: Within(env, Config1(hash), run, hash(OWN)) && Run(Config1(hash), Start(Config1(hash)), run) == s
  }

  lemma WithinExtends(hash: Hash, env: Env, run: seq<Event>, s: State, e: Event)
    requires Within(env, Config1(hash), run, hash(OWN)) && Run(Config1(hash), Start(Config1(hash)), run) == s
    requires Enabled(s, e) && Permitted(env, Config1(hash), s, e, hash(OWN))
    ensures Within(env, Config1(hash), run + [e], hash(OWN))
    ensures Run(Config1(hash), Start(Config1(hash)), run + [e]) == Step(Config1(hash), s, e)
  {
    assert (run + [e])[..|run + [e]| - 1] == run;
  }

  lemma Take(hash: Hash, env: Env, s: State, e: Event) returns (after: State)
    requires Reachable(hash, env, s) && Enabled(s, e) && Permitted(env, Config1(hash), s, e, hash(OWN))
    ensures after == Step(Config1(hash), s, e) && Reachable(hash, env, after)
  {
    var run :| Within(env, Config1(hash), run, hash(OWN)) && Run(Config1(hash), Start(Config1(hash)), run) == s;
    WithinExtends(hash, env, run, s, e);
    after := Step(Config1(hash), s, e);
  }

  /** Nobody but the actor changes, except that waiting subscribers may be handed a message. */
  ghost predicate Undisturbed(s: State, after: State, rid: Rid) {
    && after.requests.Keys == s.requests.Keys + {rid}
    && forall x | x in s.requests && x != rid ::
         if s.requests[x].pc.Waiting? then after.requests[x].pc.Waiting? else after.requests[x] == s.requests[x]
  }

  lemma ActorStep(hash: Hash, s: State, e: Event)
    requires Enabled(s, e) && IsAct(e)
    ensures var after := Step(Config1(hash), s, e);
            Undisturbed(s, after, e.rid) && after.requests[e.rid] == Next(Config1(hash), s, e)
  {
  }

  predicate GeminiUp(s: State) { "gemini" in s.breakers && s.breakers["gemini"].mode.Closed? }

  function Newcomer(own: GatewayRequest): Request {
    Request(own, own, Locking, Unanswered, [], false, multiset{})
  }

  function Owner(own: GatewayRequest): Request {
    Request(own, own, Attempt(false), Unanswered, [], true, multiset{})
  }

  // ---------------------------------------------------------------- up to the lock

  function With(s: State, rid: Rid, r: Request): State {
    s.(requests := s.requests[rid := r])
  }

  /** The steps up to the lock change nothing but the request. */
  lemma EarlyStep(hash: Hash, s: State, e: Event)
    requires Enabled(s, e) && (e.Arrive? || e.FindSimilar? || e.Get?)
    ensures Step(Config1(hash), s, e) == With(s, e.rid, Next(Config1(hash), s, e))
  {
    assert NextRequests(Config1(hash), s, e) == s.requests[e.rid := Next(Config1(hash), s, e)];
  }

  lemma EarlyTake(hash: Hash, env: Env, s: State, e: Event, r: Request)
    requires Reachable(hash, env, s) && Enabled(s, e) && (e.Arrive? || e.FindSimilar? || e.Get?)
    requires Next(Config1(hash), s, e) == r && (e.Get? && e.fails ==> env.failingGets)
    ensures Reachable(hash, env, With(s, e.rid, r))
  {
    var _ := Take(hash, env, s, e);
    EarlyStep(hash, s, e);
  }

  lemma Overwrites(s: State, rid: Rid, r1: Request, r2: Request)
    ensures With(With(s, rid, r1), rid, r2) == With(s, rid, r2)
  {
    assert s.requests[rid := r1][rid := r2] == s.requests[rid := r2];
  }

  /** A request arrives, finds nothing in either cache, or fails to read it, and stands before the lock. */
  lemma Arrives(hash: Hash, env: Env, s: State, rid: Rid, own: GatewayRequest)
    requires Reachable(hash, env, s) && rid !in s.requests && Admitted(own) && !own.stream
    requires hash(own) !in s.values || env.failingGets
    ensures Reachable(hash, env, With(s, rid, Newcomer(own)))
  {
    var r := Newcomer(own);
    var r1, r2 := r.(pc := Semantic), r.(pc := Getting);
    EarlyTake(hash, env, s, Arrive(rid, own), r1);
    EarlyTake(hash, env, With(s, rid, r1), FindSimilar(rid, -1), r2);
    Overwrites(s, rid, r1, r2);
    EarlyTake(hash, env, With(s, rid, r2), Get(rid, hash(own) in s.values), r);
    Overwrites(s, rid, r2, r);
  }

  lemma TakesLock(hash: Hash, env: Env, s: State, rid: Rid) returns (after: State)
    requires Reachable(hash, env, s) && rid in s.requests && s.requests[rid].pc.Locking?
    requires hash(s.requests[rid].req) !in s.locks
    ensures Reachable(hash, env, after) && Undisturbed(s, after, rid)
    ensures after.requests[rid] == s.requests[rid].(pc := Attempt(false), holds := true)
    ensures after.locks.Keys == s.locks.Keys + {hash(s.requests[rid].req)}
    ensures after.values == s.values && after.breakers == s.breakers
  {
    ActorStep(hash, s, SetNX(rid, Replied));
    after := Take(hash, env, s, SetNX(rid, Replied));
  }

  /** Both together, seen from before the arrival. */
  lemma ArrivesAndTakesLock(hash: Hash, env: Env, s: State, rid: Rid, own: GatewayRequest) returns (after: State)
    requires Reachable(hash, env, s) && rid !in s.requests && Admitted(own) && !own.stream
    requires hash(own) !in s.values || env.failingGets
    requires hash(own) !in s.locks
    ensures Reachable(hash, env, after) && Undisturbed(s, after, rid) && after.requests[rid] == Owner(own)
    ensures after.locks.Keys == s.locks.Keys + {hash(own)}
    ensures after.values == s.values && after.breakers == s.breakers
  {
    Arrives(hash, env, s, rid, own);
    after := TakesLock(hash, env, With(s, rid, Newcomer(own)), rid);
  }

  // ---------------------------------------------------------------- from the attempt to the delete

  /** A request about to call Gemini with the key of `OWN`: its own, by failover or as a stream. */
  predicate MayCall(env: Env, r: Request) {
    r.pc.Attempt? && r.late == multiset{} &&
    ((r.own == OWN && r.req == OWN) ||
     (env.foreignCalls && r.own == FOREIGN && r.req == OWN) ||
     (env.streamCalls && r.own == STREAM && r.req == STREAM))
  }

  lemma Calls(hash: Hash, env: Env, s: State, rid: Rid) returns (after: State)
    requires Separates(hash) && Reachable(hash, env, s) && rid in s.requests && MayCall(env, s.requests[rid])
    requires GeminiUp(s)
    ensures Reachable(hash, env, after) && Undisturbed(s, after, rid) && GeminiUp(after)
    ensures after.requests[rid].pc.Calling? && after.requests[rid].own == s.requests[rid].own
    ensures after.requests[rid].req == s.requests[rid].req
    ensures after.requests[rid].called == s.requests[rid].called + ["gemini"]
    ensures after.requests[rid].late == multiset{}
    ensures after.locks == s.locks && after.values == s.values
  {
    ActorStep(hash, s, Try(rid));
    after := Take(hash, env, s, Try(rid));
  }

  lemma Succeeds(hash: Hash, env: Env, s: State, rid: Rid) returns (after: State)
    requires Reachable(hash, env, s) && rid in s.requests && s.requests[rid].pc.Calling? && GeminiUp(s)
    requires !s.requests[rid].own.stream && s.requests[rid].req == OWN
    ensures Reachable(hash, env, after) && Undisturbed(s, after, rid) && GeminiUp(after)
    ensures At(after, rid, Setting) && after.requests[rid].called == s.requests[rid].called
    ensures after.requests[rid].late == s.requests[rid].late && after.requests[rid].outcome.Fresh?
    ensures after.requests[rid].own == s.requests[rid].own && after.requests[rid].req == OWN
    ensures after.locks == s.locks && after.values == s.values
  {
    var e := Succeed(rid, GatewayResponse("", "gemini", OWN.model, "", Usage(0, 0, 0), false, 0, 0.0), "id", 0);
    ActorStep(hash, s, e);
    after := Take(hash, env, s, e);
  }

  /** Whether a SET of the key is permitted now. */
  ghost predicate MaySet(hash: Hash, env: Env, s: State) {
    env.staleMisses || NoneBeforeLock(Config1(hash), s.requests, hash(OWN))
  }

  lemma StillMaySet(hash: Hash, env: Env, s: State, after: State, rid: Rid)
    requires MaySet(hash, env, s) && Undisturbed(s, after, rid) && !after.requests[rid].pc.Locking?
    ensures MaySet(hash, env, after)
  {
  }

  lemma Sets(hash: Hash, env: Env, s: State, rid: Rid) returns (after: State)
    requires Reachable(hash, env, s) && At(s, rid, Setting) && s.requests[rid].req == OWN && MaySet(hash, env, s)
    ensures Reachable(hash, env, after) && Undisturbed(s, after, rid)
    ensures At(after, rid, Notifying) && hash(OWN) in after.values
    ensures after.requests[rid].(pc := s.requests[rid].pc) == s.requests[rid]
    ensures after.locks == s.locks && after.breakers == s.breakers
  {
    ActorStep(hash, s, Set(rid, Replied));
    after := Take(hash, env, s, Set(rid, Replied));
  }

  lemma Notifies(hash: Hash, env: Env, s: State, rid: Rid) returns (after: State)
    requires Reachable(hash, env, s) && At(s, rid, Notifying)
    ensures Reachable(hash, env, after) && Undisturbed(s, after, rid)
    ensures At(after, rid, Unlocking) && after.values == s.values
    ensures after.requests[rid].(pc := s.requests[rid].pc) == s.requests[rid]
    ensures after.locks == s.locks && after.breakers == s.breakers
  {
    ActorStep(hash, s, Publish(rid, Replied));
    after := Take(hash, env, s, Publish(rid, Replied));
  }

  lemma Unlocks(hash: Hash, env: Env, s: State, rid: Rid) returns (after: State)
    requires Reachable(hash, env, s) && At(s, rid, Unlocking) && s.requests[rid].req == OWN
    requires s.requests[rid].own == OWN || env.foreignUnlocks
    requires DeleteLock !in s.requests[rid].late || env.resentDeletes
    ensures Reachable(hash, env, after) && Undisturbed(s, after, rid)
    ensures after.requests[rid].late == s.requests[rid].late && after.requests[rid].outcome == s.requests[rid].outcome
    ensures after.requests[rid].req == OWN
    ensures after.locks.Keys == s.locks.Keys - {hash(OWN)} && after.requests[rid].pc.Publishing?
    ensures after.requests[rid].own == s.requests[rid].own && after.requests[rid].called == s.requests[rid].called
    ensures after.values == s.values && after.breakers == s.breakers
  {
    ActorStep(hash, s, Unlock(rid, Replied));
    after := Take(hash, env, s, Unlock(rid, Replied));
  }

  lemma UpToSet(hash: Hash, env: Env, s: State, rid: Rid) returns (after: State)
    requires Separates(hash) && Reachable(hash, env, s) && rid in s.requests && MayCall(env, s.requests[rid])
    requires s.requests[rid].req == OWN && GeminiUp(s) && MaySet(hash, env, s)
    ensures Reachable(hash, env, after) && Undisturbed(s, after, rid) && GeminiUp(after)
    ensures At(after, rid, Notifying) && hash(OWN) in after.values && after.locks == s.locks
    ensures after.requests[rid].own == s.requests[rid].own && after.requests[rid].req == OWN
    ensures after.requests[rid].called == s.requests[rid].called + ["gemini"]
    ensures after.requests[rid].late == multiset{}
  {
    var s1 := Calls(hash, env, s, rid);
    var s2 := Succeeds(hash, env, s1, rid);
    after := Sets(hash, env, s2, rid);
  }

  /** From the attempt to the delete of the lock. */
  lemma Completes(hash: Hash, env: Env, s: State, rid: Rid) returns (after: State)
    requires Separates(hash) && Reachable(hash, env, s) && rid in s.requests && MayCall(env, s.requests[rid])
    requires s.requests[rid].req == OWN && GeminiUp(s) && MaySet(hash, env, s)
    requires s.requests[rid].own == OWN || env.foreignUnlocks
    ensures Reachable(hash, env, after) && Undisturbed(s, after, rid) && GeminiUp(after)
    ensures hash(OWN) !in after.locks && hash(OWN) in after.values && after.requests[rid].pc.Publishing?
    ensures after.requests[rid].own == s.requests[rid].own
    ensures after.requests[rid].called == s.requests[rid].called + ["gemini"]
  {
    var s1 := UpToSet(hash, env, s, rid);
    var s2 := Notifies(hash, env, s1, rid);
    after := Unlocks(hash, env, s2, rid);
  }

  // ---------------------------------------------------------------- an owner and its rivals

  /** Request 1 owns the key and nobody else has arrived. */
  predicate Solo(hash: Hash, s: State) {
    && s.requests == map[1 := Owner(OWN)] && s.values == map[] && GeminiUp(s)
    && s.locks.Keys == {hash(OWN)}
  }

  lemma ReachSolo(hash: Hash, env: Env) returns (s: State)
    ensures Reachable(hash, env, s) && Solo(hash, s)
  {
    var start := Start(Config1(hash));
    assert Within(env, Config1(hash), [], hash(OWN)) && Run(Config1(hash), start, []) == start;
    s := ArrivesAndTakesLock(hash, env, start, 1, OWN);
  }

  /** Request 1 still owns the key, and request 2 may call with it too. */
  predicate Rivals(env: Env, s: State) {
    && 1 in s.requests && s.requests[1] == Owner(OWN)
    && 2 in s.requests && MayCall(env, s.requests[2]) && GeminiUp(s)
  }

  lemma Expires(hash: Hash, env: Env, s: State) returns (after: State)
    requires env.lockExpiry && Reachable(hash, env, s) && hash(OWN) in s.locks
    ensures Reachable(hash, env, after) && after.requests == s.requests && after.values == s.values
    ensures after.breakers == s.breakers && hash(OWN) !in after.locks
  {
    var s1 := Take(hash, env, s, Tick(s.locks[hash(OWN)] + 1));
    assert s1.requests == s.requests;
    after := Take(hash, env, s1, ExpireLock(hash(OWN)));
    assert after.requests == s1.requests;
  }

  lemma ByExpiry(hash: Hash, env: Env, s: State) returns (after: State)
    requires env.lockExpiry && Reachable(hash, env, s) && Solo(hash, s)
    ensures Reachable(hash, env, after) && Rivals(env, after) && after.requests[2] == Owner(OWN)
    ensures after.requests.Keys == {1, 2}
  {
    var s1 := Expires(hash, env, s);
    after := ArrivesAndTakesLock(hash, env, s1, 2, OWN);
  }

  lemma GoesOnWithoutLock(hash: Hash, env: Env, s: State, rid: Rid) returns (after: State)
    requires env.ownerErrors && Reachable(hash, env, s) && rid in s.requests && s.requests[rid].pc.Locking?
    ensures Reachable(hash, env, after) && Undisturbed(s, after, rid)
    ensures after.requests[rid] == s.requests[rid].(pc := Attempt(false))
    ensures after.values == s.values && after.breakers == s.breakers && after.locks == s.locks
  {
    ActorStep(hash, s, SetNX(rid, NotExecuted));
    after := Take(hash, env, s, SetNX(rid, NotExecuted));
  }

  /** An owner by error: SETNX did not execute, and the request goes on without the lock. */
  lemma ByError(hash: Hash, env: Env, s: State) returns (after: State)
    requires env.ownerErrors && Reachable(hash, env, s) && 2 !in s.requests && s.values == map[]
    ensures Reachable(hash, env, after) && Undisturbed(s, after, 2)
    ensures after.requests[2].late == multiset{}
    ensures after.requests[2].pc.Attempt? && after.requests[2].own == OWN && after.requests[2].req == OWN
    ensures after.values == s.values && after.breakers == s.breakers
  {
    Arrives(hash, env, s, 2, OWN);
    after := GoesOnWithoutLock(hash, env, With(s, 2, Newcomer(OWN)), 2);
  }

  lemma FallsOver(hash: Hash, env: Env, s: State) returns (after: State)
    requires Reachable(hash, env, s) && 2 in s.requests && s.requests[2] == Owner(FOREIGN)
    ensures Reachable(hash, env, after) && Undisturbed(s, after, 2)
    ensures after.requests[2].late == multiset{}
    ensures after.requests[2].pc.Attempt? && after.requests[2].own == FOREIGN && after.requests[2].req == OWN
    ensures after.values == s.values && after.breakers == s.breakers && after.locks == s.locks
  {
    ActorStep(hash, s, Try(2));
    after := Take(hash, env, s, Try(2));
  }

  /** Groq is not configured, so a request for it is rewritten into `OWN`. */
  lemma ByFailover(hash: Hash, env: Env, s: State) returns (after: State)
    requires Separates(hash) && Reachable(hash, env, s) && 2 !in s.requests && s.values == map[]
    requires hash(FOREIGN) !in s.locks
    ensures Reachable(hash, env, after) && Undisturbed(s, after, 2)
    ensures after.requests[2].late == multiset{}
    ensures after.requests[2].pc.Attempt? && after.requests[2].own == FOREIGN && after.requests[2].req == OWN
    ensures after.values == s.values && after.breakers == s.breakers
  {
    var s1 := ArrivesAndTakesLock(hash, env, s, 2, FOREIGN);
    after := FallsOver(hash, env, s1);
  }

  lemma ByStream(hash: Hash, env: Env, s: State) returns (after: State)
    requires Reachable(hash, env, s) && 2 !in s.requests
    ensures Reachable(hash, env, after) && Undisturbed(s, after, 2)
    ensures after.requests[2].late == multiset{}
    ensures after.requests[2].pc.Attempt? && after.requests[2].own == STREAM && after.requests[2].req == STREAM
    ensures after.values == s.values && after.breakers == s.breakers
  {
    ActorStep(hash, s, Arrive(2, STREAM));
    after := Take(hash, env, s, Arrive(2, STREAM));
  }

  lemma ReachRivals(hash: Hash, env: Env) returns (s: State)
    requires Separates(hash) && !Guarded(env)
    ensures Reachable(hash, env, s) && Rivals(env, s) && s.requests.Keys == {1, 2}
  {
    var s0 := ReachSolo(hash, env);
    if env.lockExpiry {
      s := ByExpiry(hash, env, s0);
    } else if env.ownerErrors {
      s := ByError(hash, env, s0);
    } else if env.foreignCalls {
      s := ByFailover(hash, env, s0);
    } else {
      s := ByStream(hash, env, s0);
    }
  }

  // ---------------------------------------------------------------- broken promises

  lemma TwoHold(hash: Hash, env: Env, s: State, x: Rid, y: Rid)
    requires Reachable(hash, env, s) && x != y
    requires Holds(Config1(hash), s.requests, x, hash(OWN)) && Holds(Config1(hash), s.requests, y, hash(OWN))
    ensures !MutualExclusion(env, hash)
  {
    var cfg := Config1(hash);
    var run :| Within(env, cfg, run, hash(OWN)) && Run(cfg, Start(cfg), run) == s;
    assert cfg.hash == hash && !AtMostOneHolder(cfg, Run(cfg, Start(cfg), run).requests, hash(OWN));
  }

  lemma TwoCall(hash: Hash, env: Env, s: State, x: Rid, y: Rid)
    requires Reachable(hash, env, s) && x != y
    requires CallsWith(Config1(hash), s.requests, x, hash(OWN)) && CallsWith(Config1(hash), s.requests, y, hash(OWN))
    ensures !SingleFlight(env, hash)
  {
    var cfg := Config1(hash);
    var run :| Within(env, cfg, run, hash(OWN)) && Run(cfg, Start(cfg), run) == s;
    assert cfg.hash == hash && !AtMostOneCaller(cfg, Run(cfg, Start(cfg), run).requests, hash(OWN));
  }

  lemma MayCallEnters(hash: Hash, env: Env, s: State, y: Rid)
    requires Separates(hash) && GeminiUp(s) && y in s.requests && MayCall(env, s.requests[y])
    ensures Enabled(s, Try(y)) && EntersCall(Config1(hash), s, Try(y), hash(OWN))
    ensures Permitted(env, Config1(hash), s, Try(y), hash(OWN))
  {
  }

  lemma CallsPastCachedValue(hash: Hash, env: Env, s: State, y: Rid)
    requires Separates(hash) && Reachable(hash, env, s) && GeminiUp(s) && hash(OWN) in s.values
    requires y in s.requests && MayCall(env, s.requests[y])
    ensures !NoCallWhileCached(env, hash)
  {
    var cfg := Config1(hash);
    var run :| Within(env, cfg, run, hash(OWN)) && Run(cfg, Start(cfg), run) == s;
    MayCallEnters(hash, env, s, y);
    WithinExtends(hash, env, run, s, Try(y));
    assert cfg.hash == hash && EntersCall(cfg, Run(cfg, Start(cfg), run), Try(y), hash(OWN));
  }

  /** Once request 1 has called, a call of another request breaks the promise of one. */
  lemma CallsToo(hash: Hash, env: Env, s: State, y: Rid)
    requires Separates(hash) && Reachable(hash, env, s) && GeminiUp(s) && y != 1
    requires 1 in s.requests && s.requests[1].own == OWN && "gemini" in s.requests[1].called
    requires !s.requests[1].pc.Waiting?
    requires y in s.requests && MayCall(env, s.requests[y])
    ensures !OneCallPerKey(env, hash)
  {
    var cfg := Config1(hash);
    var after := Calls(hash, env, s, y);
    assert Called(cfg, after.requests, 1, hash(OWN)) && Called(cfg, after.requests, y, hash(OWN));
    var run :| Within(env, cfg, run, hash(OWN)) && Run(cfg, Start(cfg), run) == after;
    assert cfg.hash == hash && !AtMostOneCalled(cfg, Run(cfg, Start(cfg), run).requests, hash(OWN));
  }

  // ---------------------------------------------------------------- the four exact conditions

  lemma RivalsBreakPromises(hash: Hash, env: Env)
    requires Separates(hash) && !Guarded(env)
    ensures !SingleFlight(env, hash) && !NoCallWhileCached(env, hash) && !OneCallPerKey(env, hash)
  {
    var s := ReachRivals(hash, env);
    RivalsBothCall(hash, env, s);
    RivalCallsLate(hash, env, s);
  }

  lemma RivalsBothCall(hash: Hash, env: Env, s: State)
    requires Separates(hash) && Reachable(hash, env, s) && Rivals(env, s)
    ensures !SingleFlight(env, hash)
  {
    var s1 := Calls(hash, env, s, 1);
    var s2 := Calls(hash, env, s1, 2);
    TwoCall(hash, env, s2, 1, 2);
  }

  /** The owner sets the value before its rival calls. */
  lemma RivalCallsLate(hash: Hash, env: Env, s: State)
    requires Separates(hash) && Reachable(hash, env, s) && Rivals(env, s) && s.requests.Keys == {1, 2}
    ensures !NoCallWhileCached(env, hash) && !OneCallPerKey(env, hash)
  {
    assert forall x | x in s.requests :: x == 1 || x == 2;
    assert MaySet(hash, env, s);
    var s1 := UpToSet(hash, env, s, 1);
    CallsPastCachedValue(hash, env, s1, 2);
    CallsToo(hash, env, s1, 2);
  }

  /** Request 3 stands before the lock already if its miss may be stale. */
  lemma Early(hash: Hash, env: Env, s: State) returns (after: State)
    requires Reachable(hash, env, s) && Solo(hash, s)
    ensures Reachable(hash, env, after) && after == if env.staleMisses then With(s, 3, Newcomer(OWN)) else s
    ensures MaySet(hash, env, after)
  {
    if env.staleMisses {
      Arrives(hash, env, s, 3, OWN);
      after := With(s, 3, Newcomer(OWN));
    } else {
      after := s;
    }
  }

  predicate Before(env: Env, s: State) {
    if env.staleMisses then 3 in s.requests && s.requests[3] == Newcomer(OWN) else 3 !in s.requests
  }

  lemma Forgets(hash: Hash, env: Env, s: State) returns (after: State)
    requires env.eviction && Reachable(hash, env, s)
    ensures Reachable(hash, env, after) && after.requests == s.requests && after.breakers == s.breakers
    ensures after.locks == s.locks && hash(OWN) !in after.values
  {
    after := Take(hash, env, s, Forget(hash(OWN)));
    assert after.requests == s.requests;
  }

  /** After the value was set and the lock deleted, request 3 takes the lock again. */
  lemma Reenters(hash: Hash, env: Env, s: State) returns (after: State)
    requires Reentry(env) && Reachable(hash, env, s) && Before(env, s) && GeminiUp(s)
    requires hash(OWN) in s.values && hash(OWN) !in s.locks
    ensures Reachable(hash, env, after) && Undisturbed(s, after, 3)
    ensures after.requests[3] == Owner(OWN) && GeminiUp(after)
    ensures env.staleMisses || env.failingGets ==> hash(OWN) in after.values
  {
    if env.staleMisses {
      after := TakesLock(hash, env, s, 3);
    } else if env.failingGets {
      after := ArrivesAndTakesLock(hash, env, s, 3, OWN);
    } else {
      var s1 := Forgets(hash, env, s);
      after := ArrivesAndTakesLock(hash, env, s1, 3, OWN);
    }
  }

  /** A second request reenters after the first has completed and calls again. */
  lemma ReentryCallsAgain(hash: Hash, env: Env)
    requires Separates(hash) && Reentry(env)
    ensures !OneCallPerKey(env, hash)
    ensures env.staleMisses || env.failingGets ==> !NoCallWhileCached(env, hash)
  {
    var s0 := ReachSolo(hash, env);
    var s1 := Early(hash, env, s0);
    var s2 := Completes(hash, env, s1, 1);
    var s3 := Reenters(hash, env, s2);
    CallsToo(hash, env, s3, 3);
    if env.staleMisses || env.failingGets {
      CallsPastCachedValue(hash, env, s3, 3);
    }
  }

  /** Request 2 comes to call with the key of an owner that stays where it is. */
  lemma Intruder(hash: Hash, env: Env, s: State) returns (after: State)
    requires Separates(hash) && Reachable(hash, env, s) && GeminiUp(s) && MaySet(hash, env, s)
    requires 2 !in s.requests && s.values == map[] && hash(FOREIGN) !in s.locks
    requires env.ownerErrors || (env.foreignCalls && env.foreignUnlocks)
    ensures Reachable(hash, env, after) && GeminiUp(after) && MaySet(hash, env, after) && Undisturbed(s, after, 2)
    ensures MayCall(env, after.requests[2]) && after.requests[2].req == OWN
    ensures after.requests[2].own == OWN || env.foreignUnlocks
  {
    if env.ownerErrors {
      after := ByError(hash, env, s);
    } else {
      after := ByFailover(hash, env, s);
    }
    StillMaySet(hash, env, s, after, 2);
  }

  /** Request 1 owns the key, and request 3 has come to the lock or not arrived. */
  predicate Standing(env: Env, s: State) {
    1 in s.requests && s.requests[1] == Owner(OWN) && Before(env, s)
  }

  lemma IntruderDeletesLock(hash: Hash, env: Env, s: State) returns (after: State)
    requires Separates(hash) && Reachable(hash, env, s) && Standing(env, s) && GeminiUp(s) && MaySet(hash, env, s)
    requires 2 !in s.requests && s.values == map[] && hash(FOREIGN) !in s.locks
    requires env.ownerErrors || (env.foreignCalls && env.foreignUnlocks)
    ensures Reachable(hash, env, after) && Standing(env, after) && GeminiUp(after)
    ensures hash(OWN) in after.values && hash(OWN) !in after.locks
  {
    var s1 := Intruder(hash, env, s);
    after := Completes(hash, env, s1, 2);
  }

  lemma ReentryUnderOwner(hash: Hash, env: Env, s: State)
    requires Reentry(env) && Reachable(hash, env, s) && Standing(env, s) && GeminiUp(s)
    requires hash(OWN) in s.values && hash(OWN) !in s.locks
    ensures !MutualExclusion(env, hash)
  {
    var after := Reenters(hash, env, s);
    assert s.requests[1].pc.Attempt?;
    TwoHold(hash, env, after, 1, 3);
  }

  /** It publishes without the lock and deletes it under its owner; request 3 takes it again. */
  lemma ReentryHoldsToo(hash: Hash, env: Env)
    requires Separates(hash) && Reentry(env) && (env.ownerErrors || (env.foreignCalls && env.foreignUnlocks))
    ensures !MutualExclusion(env, hash)
  {
    var s0 := ReachSolo(hash, env);
    var s1 := Early(hash, env, s0);
    var s2 := IntruderDeletesLock(hash, env, s1);
    ReentryUnderOwner(hash, env, s2);
  }

  // ---------------------------------------------------------------- a delete sent again

  /** Requests 3 and 4 both stand before the lock. */
  predicate Queued(s: State) {
    3 in s.requests && s.requests[3] == Newcomer(OWN) && 4 in s.requests && s.requests[4] == Newcomer(OWN)
  }

  /** They do so already if their misses may be stale, and have not arrived otherwise. */
  predicate QueuedEarly(env: Env, s: State) {
    if env.staleMisses then Queued(s) else 3 !in s.requests && 4 !in s.requests
  }

  lemma Queue(hash: Hash, env: Env, s: State)
    requires Reachable(hash, env, s) && 3 !in s.requests && 4 !in s.requests
    requires hash(OWN) !in s.values || env.failingGets
    ensures var after := With(With(s, 3, Newcomer(OWN)), 4, Newcomer(OWN)); Reachable(hash, env, after) && Queued(after)
  {
    Arrives(hash, env, s, 3, OWN);
    Arrives(hash, env, With(s, 3, Newcomer(OWN)), 4, OWN);
  }

  lemma EarlyQueue(hash: Hash, env: Env, s: State) returns (after: State)
    requires Reachable(hash, env, s) && Solo(hash, s)
    ensures Reachable(hash, env, after) && QueuedEarly(env, after) && MaySet(hash, env, after) && GeminiUp(after)
    ensures 1 in after.requests && after.requests[1] == Owner(OWN) && after.requests.Keys <= {1, 3, 4}
  {
    if env.staleMisses {
      Queue(hash, env, s);
      after := With(With(s, 3, Newcomer(OWN)), 4, Newcomer(OWN));
    } else {
      after := s;
    }
  }

  predicate AboutToDelete(hash: Hash, s: State) {
    && At(s, 1, Unlocking) && s.requests[1].own == OWN && s.requests[1].req == OWN
    && s.requests.Keys <= {1, 3, 4} && GeminiUp(s)
  }

  lemma ReachDelete(hash: Hash, env: Env) returns (s: State)
    requires Separates(hash)
    ensures Reachable(hash, env, s) && QueuedEarly(env, s) && AboutToDelete(hash, s) && hash(OWN) in s.values
    ensures s.requests[1].late == multiset{}
  {
    var s0 := ReachSolo(hash, env);
    var s1 := EarlyQueue(hash, env, s0);
    var s2 := UpToSet(hash, env, s1, 1);
    s := Notifies(hash, env, s2, 1);
  }

  lemma Leaves(hash: Hash, env: Env, s: State, rid: Rid) returns (after: State)
    requires Reachable(hash, env, s) && (At(s, rid, Setting) || At(s, rid, Unlocking))
    requires DeleteLock !in s.requests[rid].late
    ensures Reachable(hash, env, after) && Undisturbed(s, after, rid)
    ensures after.requests[rid] == s.requests[rid].(late := s.requests[rid].late + multiset{Sent(s.requests[rid].pc)})
    ensures after.values == s.values && after.locks == s.locks && after.breakers == s.breakers
  {
    ActorStep(hash, s, Leave(rid));
    after := Take(hash, env, s, Leave(rid));
  }

  /** A copy of the delete is executed while the request waits for the reply to another. */
  lemma Resends(hash: Hash, env: Env, s: State) returns (after: State)
    requires env.resentDeletes && Reachable(hash, env, s) && AboutToDelete(hash, s) && DeleteLock !in s.requests[1].late
    ensures Reachable(hash, env, after) && AboutToDelete(hash, after) && Undisturbed(s, after, 1)
    ensures hash(OWN) !in after.locks && after.values == s.values
  {
    var s1 := Leaves(hash, env, s, 1);
    ActorStep(hash, s1, Late(1, DeleteLock));
    after := Take(hash, env, s1, Late(1, DeleteLock));
  }

  lemma LateQueue(hash: Hash, env: Env, s: State) returns (after: State)
    requires Reentry(env) && Reachable(hash, env, s) && QueuedEarly(env, s) && AboutToDelete(hash, s)
    requires hash(OWN) in s.values && hash(OWN) !in s.locks
    ensures Reachable(hash, env, after) && Queued(after) && AboutToDelete(hash, after) && hash(OWN) !in after.locks
  {
    if env.staleMisses {
      after := s;
    } else if env.failingGets {
      Queue(hash, env, s);
      after := With(With(s, 3, Newcomer(OWN)), 4, Newcomer(OWN));
    } else {
      var s1 := Forgets(hash, env, s);
      Queue(hash, env, s1);
      after := With(With(s1, 3, Newcomer(OWN)), 4, Newcomer(OWN));
    }
  }

  /** Both own the key after the second delete. */
  predicate TwoOwners(s: State) {
    && s.requests.Keys <= {1, 3, 4} && 1 in s.requests && s.requests[1].pc.Publishing? && GeminiUp(s)
    && 3 in s.requests && s.requests[3] == Owner(OWN) && 4 in s.requests && s.requests[4] == Owner(OWN)
  }

  lemma DeletesUnder(hash: Hash, env: Env, s: State) returns (after: State)
    requires env.resentDeletes
    requires Reachable(hash, env, s) && Queued(s) && AboutToDelete(hash, s) && hash(OWN) !in s.locks
    ensures Reachable(hash, env, after) && TwoOwners(after)
  {
    var s1 := TakesLock(hash, env, s, 3);
    assert s.requests[1].pc.Publishing? && s.requests[4].pc.Locking?;
    var s2 := Unlocks(hash, env, s1, 1);
    assert s1.requests[3].pc.Attempt? && s1.requests[4].pc.Locking?;
    after := TakesLock(hash, env, s2, 4);
    assert s2.requests[3].pc.Attempt? && s2.requests[1].pc.Publishing?;
  }

  lemma ReachTwoOwners(hash: Hash, env: Env) returns (s: State)
    requires Separates(hash) && env.resentDeletes && Reentry(env)
    ensures Reachable(hash, env, s) && TwoOwners(s)
  {
    var s1 := ReachDelete(hash, env);
    var s2 := Resends(hash, env, s1);
    var s3 := LateQueue(hash, env, s2);
    s := DeletesUnder(hash, env, s3);
  }

  lemma ResentHoldsAndCallsToo(hash: Hash, env: Env)
    requires Separates(hash) && env.resentDeletes && Reentry(env)
    ensures !MutualExclusion(env, hash) && !SingleFlight(env, hash)
  {
    var s := ReachTwoOwners(hash, env);
    TwoHold(hash, env, s, 3, 4);
    var s1 := Calls(hash, env, s, 3);
    assert s.requests[4].pc.Attempt?;
    var s2 := Calls(hash, env, s1, 4);
    assert s1.requests[3].pc.Calling?;
    TwoCall(hash, env, s2, 3, 4);
  }

  /** One of the two owners sets the value before the other calls. */
  lemma ResentCallsPastCachedValue(hash: Hash, env: Env)
    requires Separates(hash) && env.resentDeletes && Reentry(env)
    ensures !NoCallWhileCached(env, hash)
  {
    var s := ReachTwoOwners(hash, env);
    assert forall x | x in s.requests :: x == 1 || x == 3 || x == 4;
    assert MaySet(hash, env, s);
    var s1 := UpToSet(hash, env, s, 3);
    assert s.requests[4].pc.Attempt?;
    CallsPastCachedValue(hash, env, s1, 4);
  }

  // ---------------------------------------------------------------- a set executed late

  lemma LeavesSet(hash: Hash, env: Env) returns (s: State)
    requires Separates(hash)
    ensures Reachable(hash, env, s) && s.requests.Keys == {1} && At(s, 1, Setting) && GeminiUp(s)
    ensures s.requests[1].own == OWN && s.requests[1].req == OWN && s.requests[1].outcome.Fresh?
    ensures s.requests[1].late == multiset{SetValue}
  {
    var s0 := ReachSolo(hash, env);
    var s1 := Calls(hash, env, s0, 1);
    var s2 := Succeeds(hash, env, s1, 1);
    s := Leaves(hash, env, s2, 1);
    assert multiset{} + multiset{SetValue} == multiset{SetValue};
  }

  /** Request 1 has left a copy of its SET behind, and is through with the lock. */
  lemma SetLeftBehind(hash: Hash, env: Env) returns (s: State)
    requires Separates(hash)
    ensures Reachable(hash, env, s) && s.requests.Keys == {1} && hash(OWN) !in s.locks && GeminiUp(s)
    ensures s.requests[1].req == OWN && SetValue in s.requests[1].late && s.requests[1].outcome.Fresh?
    ensures s.requests[1].pc.Publishing?
  {
    var s3 := LeavesSet(hash, env);
    assert forall x | x in s3.requests :: x == 1;
    assert MaySet(hash, env, s3);
    var s4 := Sets(hash, env, s3, 1);
    var s5 := Notifies(hash, env, s4, 1);
    s := Unlocks(hash, env, s5, 1);
  }

  /** The copy is executed after the value has gone and another request has taken the lock. */
  lemma LateSetCallsPastCachedValue(hash: Hash, env: Env)
    requires Separates(hash) && env.lateSets && env.eviction
    ensures !NoCallWhileCached(env, hash)
  {
    var s0 := SetLeftBehind(hash, env);
    var s1 := Forgets(hash, env, s0);
    var s2 := ArrivesAndTakesLock(hash, env, s1, 3, OWN);
    var e := Late(1, SetValue);
    assert !StaleMiss(Config1(hash), s2, e, hash(OWN));
    ActorStep(hash, s2, e);
    var s3 := Take(hash, env, s2, e);
    CallsPastCachedValue(hash, env, s3, 3);
  }

  lemma ExpiryHoldsToo(hash: Hash, env: Env)
    requires env.lockExpiry
    ensures !MutualExclusion(env, hash)
  {
    var s0 := ReachSolo(hash, env);
    var s := ByExpiry(hash, env, s0);
    TwoHold(hash, env, s, 1, 2);
  }

  /**
    At most one request holds a key, in all runs, iff its lock does not expire and either nothing but the
    holder deletes it, and only once, or nobody takes it again once the key has been cached.
   */
  lemma MutualExclusionExact(hash: Hash, env: Env)
    requires Separates(hash)
    ensures MutualExclusion(env, hash) <==>
            (Orderly(env) && !env.resentDeletes) || (!env.lockExpiry && !Reentry(env))
  {
    if OneHolder(env) {
      forall cfg: Config, run: seq<Event>, k: Key | cfg.hash == hash && Within(env, cfg, run, k)
        ensures AtMostOneHolder(cfg, Run(cfg, Start(cfg), run).requests, k)
      {
        OneHolderRun(env, cfg, run, k);
      }
    } else if env.lockExpiry {
      ExpiryHoldsToo(hash, env);
    } else if env.resentDeletes {
      ResentHoldsAndCallsToo(hash, env);
    } else {
      ReentryHoldsToo(hash, env);
    }
  }

  /**
    At most one provider call with a key is under way, in all runs, iff its lock does not expire, errors
    make no owners, neither failover from another key nor a stream calls with it, and deletes are not sent
    again where somebody may take the lock past a cached value.
   */
  lemma SingleFlightExact(hash: Hash, env: Env)
    requires Separates(hash)
    ensures SingleFlight(env, hash) <==> Guarded(env) && (!env.resentDeletes || !Reentry(env))
  {
    if !Guarded(env) {
      RivalsBreakPromises(hash, env);
    } else if env.resentDeletes && Reentry(env) {
      ResentHoldsAndCallsToo(hash, env);
    } else {
      forall cfg: Config, run: seq<Event>, k: Key | cfg.hash == hash && Within(env, cfg, run, k)
        ensures AtMostOneCaller(cfg, Run(cfg, Start(cfg), run).requests, k)
      {
        SingleFlightRun(env, cfg, run, k);
      }
    }
  }

  /**
    No call with a key starts while it is cached, in all runs, iff only requests from the lock call with it,
    the value is not set while a request that missed it stands before the lock, no read of the cached value
    fails, and where the value may go away deletes are not sent again and no SET is executed that its client
    has given up.
   */
  lemma NoCallWhileCachedExact(hash: Hash, env: Env)
    requires Separates(hash)
    ensures NoCallWhileCached(env, hash) <==>
            Heeded(env) && (!env.eviction || (!env.resentDeletes && !env.lateSets))
  {
    if !Guarded(env) {
      RivalsBreakPromises(hash, env);
    } else if !Heeded(env) {
      ReentryCallsAgain(hash, env);
    } else if env.resentDeletes && env.eviction {
      ResentCallsPastCachedValue(hash, env);
    } else if env.lateSets && env.eviction {
      LateSetCallsPastCachedValue(hash, env);
    } else {
      forall cfg: Config, run: seq<Event>, e: Event, k: Key |
        cfg.hash == hash && Within(env, cfg, run + [e], k) && EntersCall(cfg, Run(cfg, Start(cfg), run), e, k) &&
        Enabled(Run(cfg, Start(cfg), run), e)
        ensures k !in Run(cfg, Start(cfg), run).values
      {
        CalledBeforeCached(env, cfg, run, e, k);
      }
    }
  }

  /** At most one request ever calls with a key, in all runs, iff moreover the cached value stays. */
  lemma OneCallExact(hash: Hash, env: Env)
    requires Separates(hash)
    ensures OneCallPerKey(env, hash) <==> Heeded(env) && !env.eviction
  {
    if Heeded(env) && !env.eviction {
      forall cfg: Config, run: seq<Event>, k: Key | cfg.hash == hash && Within(env, cfg, run, k)
        ensures AtMostOneCalled(cfg, Run(cfg, Start(cfg), run).requests, k)
      {
        OneCallRun(env, cfg, run, k);
      }
    } else if !Guarded(env) {
      RivalsBreakPromises(hash, env);
    } else {
      ReentryCallsAgain(hash, env);
    }
  }
}
