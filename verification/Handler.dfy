/**
  NewHandler and ServeHTTP of internal/proxy/handler.go for one request at a time, with the breakers, the
  cache and the log table as objects.  That such a call is a run of the interleaved gateway is proved in
  `ServeRuns`.

  What the outside world answers, and what the clock shows, are parameters.
 */
module Handler {
  import opened Models
  import Breaker
  import Cache
  import Gateway
  import Spend

  type Breakers = map<string, Breaker.State>

  const SETTINGS := Breaker.Config(5, 30_000_000_000)

  /** One executeWithBreaker: `resp` is None for an unconfigured provider, an open breaker or a failed call. */
  datatype Execution = Execution(breakers: Breakers, called: bool, resp: Option<GatewayResponse>)

  function Execute(c: Breaker.Config, breakers: Breakers, p: string, start: int, end: int,
                   result: Option<GatewayResponse>): Execution
  {
    if p !in breakers || !Breaker.Grants(c, breakers[p], start) then Execution(breakers, false, None) else
    var allowed := Breaker.AfterAllow(c, breakers[p], start);
    var recorded := if result.Some? then Breaker.AfterSuccess(allowed) else Breaker.AfterFailure(c, allowed, end);
    Execution(breakers[p := recorded], true, result)
  }

  predicate MayFailOver(breakers: Breakers, p: string) {
    Gateway.Fallback(p) != "" && Gateway.Fallback(p) in breakers
  }

  /** What both attempts find outside: provider results with the clock before and after each call. */
  datatype Outside = Outside(primary: Option<GatewayResponse>, secondary: Option<GatewayResponse>,
                             start: nat, middle: nat, end: nat)

  datatype Service = Service(breakers: Breakers, req: GatewayRequest, called: seq<string>,
                             resp: Option<GatewayResponse>)

  function Called(x: Execution, p: string): seq<string> { if x.called then [p] else [] }

  /** The requested provider, and after an error its fallback. */
  function Serve(c: Breaker.Config, breakers: Breakers, own: GatewayRequest, net: Outside): Service {
    var first := Execute(c, breakers, own.provider, net.start, net.middle, net.primary);
    if first.resp.Some? || !MayFailOver(breakers, own.provider)
    then Service(first.breakers, own, Called(first, own.provider), first.resp)
    else
      var req := Gateway.FailedOver(own);
      var second := Execute(c, first.breakers, req.provider, net.middle, net.end, net.secondary);
      Service(second.breakers, req, Called(first, own.provider) + Called(second, req.provider), second.resp)
  }

  /** A call to `p` at this time would be let through and succeed. */
  predicate WouldAnswer(c: Breaker.Config, breakers: Breakers, p: string, at: int, result: Option<GatewayResponse>) {
    p in breakers && Breaker.Grants(c, breakers[p], at) && result.Some?
  }

  /**
    Who answers a request for groq or gemini: its provider under its model, and otherwise the other one under its fixed
    model; nobody iff neither would.
   */
  lemma FallbackAnswersExactly(c: Breaker.Config, breakers: Breakers, own: GatewayRequest, other: GatewayRequest,
                               net: Outside)
    requires Gateway.AsksInstead(own, other)
    ensures var want := Serve(c, breakers, own, net);
            var mine := WouldAnswer(c, breakers, own.provider, net.start, net.primary);
            var others := WouldAnswer(c, breakers, other.provider, net.middle, net.secondary);
            && (mine ==> want.resp == net.primary && want.req == own && want.called == [own.provider])
            && (!mine && others ==> want.resp == net.secondary && want.req == other &&
                                    want.called != [] && want.called[|want.called| - 1] == other.provider)
            && (!mine && !others ==> want.resp.None?)
  {
    assert |"groq"| != |"gemini"|;
  }

  /** A provider that is neither has no fallback. */
  lemma OtherProvidersStandAlone(c: Breaker.Config, breakers: Breakers, own: GatewayRequest, net: Outside)
    requires own.provider != "groq" && own.provider != "gemini"
    ensures var want := Serve(c, breakers, own, net);
            && want.req == own
            && want.resp == if WouldAnswer(c, breakers, own.provider, net.start, net.primary) then net.primary else None
  {
  }

  /** How the commands of GetOrLock end, and the message a subscriber gets, if any. */
  datatype Lookups = Lookups(getFails: bool, setnx: Reply, message: Option<GatewayResponse>)

  /** How the three commands of the background task end, and its insert into the semantic table. */
  datatype Background = Background(stored: Reply, publish: Reply, del: Reply, semantic: Reply)

  /** What a client gets from a body. */
  datatype Answer = BadRequest | Served(outcome: Gateway.Outcome)

  /** The answer to a plain request: 503 iff no call succeeded. */
  function AnswerOf(want: Service, id: string, latency: int): Gateway.Outcome {
    match want.resp
    case None => Gateway.Unavailable
    case Some(resp) => Gateway.Fresh(resp.(id := id, latencyMs := latency))
  }

  /** A success is published under the key of the request as rewritten; a 503 leaves Redis, and the lock, alone. */
  function PublishedBy(hash: GatewayRequest -> Cache.Key, redis: Cache.Redis, want: Service, outcome: Gateway.Outcome,
                       background: Background): Cache.Redis
  {
    if !outcome.Fresh? then redis else
    Cache.PublishOnce(redis, hash(want.req), Gateway.Canonical(outcome.resp), background.stored, background.publish,
                      background.del)
  }

  /** The row the background task adds to the semantic table, whatever became of the publication. */
  function StoredBy(want: Service, outcome: Gateway.Outcome, background: Background): seq<Gateway.Row> {
    if !outcome.Fresh? || !Executed(background.semantic) then []
    else [Gateway.Row(want.req.provider, want.req.model, Gateway.Canonical(outcome.resp))]
  }

  /** The log entry of a finished stream, priced by the usage that comes back, which is always zero. */
  function StreamLog(req: GatewayRequest, usage: Usage, latency: int): GatewayResponse {
    GatewayResponse("", req.provider, req.model, "", usage, false, latency,
                    usage.promptTokens as real * 0.000003 + usage.completionTokens as real * 0.000015)
  }

  /** A million tokens cost 3 dollars in a prompt and 15 in a completion. */
  lemma StreamPrice(req: GatewayRequest, usage: Usage, latency: int)
    ensures StreamLog(req, usage, latency).costUsd * 1000000.0 ==
            3.0 * usage.promptTokens as real + 15.0 * usage.completionTokens as real
    ensures var log := StreamLog(req, usage, latency);
            log.provider == req.provider && log.model == req.model && !log.cached && log.usage == usage
  {
  }

  /** What a request past the caches is logged with: every answer but an error. */
  function LogOf(want: Service, outcome: Gateway.Outcome, latency: int): Option<GatewayResponse> {
    match outcome
    case Fresh(resp) => Some(resp)
    case Streamed => if want.resp.Some? then Some(StreamLog(want.req, want.resp.value.usage, latency)) else None
    case _ => None
  }

  /** Whom the answer is charged to, when the database receives the insert, and how that ends. */
  datatype Journal = Journal(apiKey: Spend.ApiKey, at: nat, reply: Reply)

  function RowFor(apiKey: Spend.ApiKey, resp: GatewayResponse, at: nat): Spend.Log {
    Spend.Log(apiKey, resp.provider, Spend.Micros(resp.costUsd), at)
  }

  /** The log table afterwards; a refused row and a failed insert leave none. */
  function Booked(db: Spend.Db, entry: Option<GatewayResponse>, journal: Journal): Spend.Db {
    if entry.None? || !Executed(journal.reply) then db
    else Spend.Inserted(db, RowFor(journal.apiKey, entry.value, journal.at))
  }

  /** What GetOrLock hands out, if anything. */
  function HandedOut(entry: Cache.Entry, message: Option<GatewayResponse>): Option<GatewayResponse> {
    match entry
    case CacheHit(resp) => Some(resp)
    case Subscriber => if message.Some? then Some(message.value.(cached := true)) else None
    case _ => None
  }

  /** What requests share, as far as one call changes it. */
  datatype World = World(breakers: Breakers, redis: Cache.Redis, rows: seq<Gateway.Row>, db: Spend.Db)

  /** How everything outside the handler goes for one request. */
  datatype Course = Course(lookups: Lookups, net: Outside, id: string, latency: int, background: Background,
                           journal: Journal)

  /** A plain request past both caches. */
  function AfterMiss(c: Breaker.Config, hash: GatewayRequest -> Cache.Key, w: World, own: GatewayRequest,
                     course: Course)
    : (Gateway.Outcome, World)
  {
    var want := Serve(c, w.breakers, own, course.net);
    var outcome := AnswerOf(want, course.id, course.latency);
    (outcome, World(want.breakers, PublishedBy(hash, w.redis, want, outcome, course.background),
                    w.rows + StoredBy(want, outcome, course.background),
                    Booked(w.db, LogOf(want, outcome, course.latency), course.journal)))
  }

  lemma NobodyAnswers(c: Breaker.Config, hash: GatewayRequest -> Cache.Key, w: World, own: GatewayRequest,
                      course: Course)
    requires Serve(c, w.breakers, own, course.net).resp.None?
    ensures AfterMiss(c, hash, w, own, course) ==
            (Gateway.Unavailable, w.(breakers := Serve(c, w.breakers, own, course.net).breakers))
  {
    assert w.rows + [] == w.rows;
  }

  lemma SomebodyAnswers(c: Breaker.Config, hash: GatewayRequest -> Cache.Key, w: World, own: GatewayRequest,
                        course: Course)
    requires Serve(c, w.breakers, own, course.net).resp.Some?
    ensures var want, b := Serve(c, w.breakers, own, course.net), course.background;
            var resp := want.resp.value.(id := course.id, latencyMs := course.latency);
            AfterMiss(c, hash, w, own, course) ==
            (Gateway.Fresh(resp),
             World(want.breakers,
                   Cache.PublishOnce(w.redis, hash(want.req), Gateway.Canonical(resp), b.stored, b.publish, b.del),
                   w.rows + if Executed(b.semantic)
                            then [Gateway.Row(want.req.provider, want.req.model, Gateway.Canonical(resp))] else [],
                   Booked(w.db, Some(resp), course.journal)))
  {
  }

  /** A stream: neither lock nor cache. */
  function AfterStream(c: Breaker.Config, w: World, own: GatewayRequest, course: Course): (Gateway.Outcome, World) {
    var want := Serve(c, w.breakers, own, course.net);
    var outcome := if want.resp.Some? then Gateway.Streamed else Gateway.StreamFailed;
    (outcome, w.(breakers := want.breakers,
                 db := Booked(w.db, LogOf(want, outcome, course.latency), course.journal)))
  }

  /** An answer from a cache changes nothing but the log. */
  function FromCache(w: World, resp: GatewayResponse, journal: Journal): World {
    w.(db := Booked(w.db, Some(resp), journal))
  }

  /** A plain request without a semantic hit: what GetOrLock hands out, or a call. */
  function AfterLookup(c: Breaker.Config, hash: GatewayRequest -> Cache.Key, w: World, own: GatewayRequest,
                       course: Course)
    : (Gateway.Outcome, World)
  {
    var k, getFails, setnx := hash(own), course.lookups.getFails, course.lookups.setnx;
    var handed := HandedOut(Cache.Enter(w.redis.values, w.redis.locks, k, getFails, setnx), course.lookups.message);
    if handed.Some? then (Gateway.Hit(handed.value), FromCache(w, handed.value, course.journal)) else
    var locks := Cache.LocksAfterEnter(w.redis.values, w.redis.locks, k, course.net.start, getFails, setnx);
    AfterMiss(c, hash, w.(redis := w.redis.(locks := locks)), own, course)
  }

  /**
    The answer to a valid request and the world after it.  `similar` is the row FindSimilar came back with,
    marked as cached.  Cached answers need no provider, and only a plain request past both caches takes a lock
    or publishes.
   */
  function Handled(c: Breaker.Config, hash: GatewayRequest -> Cache.Key, w: World, own: GatewayRequest,
                   similar: Option<GatewayResponse>, course: Course): (Gateway.Outcome, World)
  {
    if own.stream then AfterStream(c, w, own, course)
    else if similar.Some?
    then (Gateway.SemanticHit(similar.value), FromCache(w, similar.value, course.journal))
    else AfterLookup(c, hash, w, own, course)
  }

  class Handler {
    const breakers: map<string, Breaker.CircuitBreaker>
    const cache: Cache.Cache
    const store: Spend.Store
    var rows: seq<Gateway.Row>

    ghost predicate Valid()
      reads breakers.Values
    {
      && (forall p, q | p in breakers && q in breakers && p != q :: breakers[p] != breakers[q])
      && forall p | p in breakers :: breakers[p].Settings() == SETTINGS && breakers[p].name == p
    }

    function View(): Breakers
      reads breakers.Values
    {
      map p | p in breakers :: breakers[p].View()
    }

    function Now(): World
      reads this, breakers.Values, cache, store
    {
      World(View(), cache.Contents(), rows, store.Contents())
    }

    constructor (cache: Cache.Cache, store: Spend.Store, providers: set<string>)
      ensures Valid() && this.cache == cache && this.store == store && forall p | p in breakers :: fresh(breakers[p])
      ensures rows == []
      ensures View() == map p | p in providers :: Breaker.FRESH
      ensures forall p | p in breakers :: breakers[p].threshold == 5 && breakers[p].timeout == 30_000_000_000
    {
      var bs: map<string, Breaker.CircuitBreaker> := map[];
      var todo := providers;
      while todo != {}
        invariant todo <= providers && bs.Keys == providers - todo
        invariant forall p | p in bs :: fresh(bs[p])
        invariant forall p, q | p in bs && q in bs && p != q :: bs[p] != bs[q]
        invariant forall p | p in bs ::
                    bs[p].Settings() == SETTINGS && bs[p].name == p && bs[p].View() == Breaker.FRESH
        decreases todo
      {
        var name :| name in todo;
        var cb := new Breaker.CircuitBreaker(name, 5, 30_000_000_000);
        bs := bs[name := cb];
        todo := todo - {name};
      }
      this.breakers, this.cache, this.store, rows := bs, cache, store, [];
    }

    method ExecuteWithBreaker(p: string, start: nat, end: nat, result: Option<GatewayResponse>)
      returns (resp: Option<GatewayResponse>, called: bool)
      requires Valid()
      modifies breakers.Values
      ensures Valid()
      ensures Execution(View(), called, resp) == Execute(SETTINGS, old(View()), p, start, end, result)
    {
      if p !in breakers {
        return None, false;
      }
      var cb := breakers[p];
      var allowed := cb.Allow(start);
      if !allowed {
        return None, false;
      }
      if result.None? {
        cb.RecordFailure(end);
        return None, true;
      }
      cb.RecordSuccess();
      return result, true;
    }

    /** The switch on the requested provider; streams keep their model. */
    method Reroute(own: GatewayRequest) returns (fallback: string, req: GatewayRequest)
      ensures fallback == Gateway.Fallback(own.provider)
      ensures own.provider == "groq" || own.provider == "gemini" ==>
                Gateway.AsksInstead(own, req.(provider := fallback)) && req.provider == own.provider
      ensures own.provider != "groq" && own.provider != "gemini" ==> fallback == "" && req == own
    {
      fallback, req := "", own;
      if own.provider == "groq" {
        fallback := "gemini";
        if !own.stream { req := req.(model := "gemini-1.5-flash"); }
      } else if own.provider == "gemini" {
        fallback := "groq";
        if !own.stream { req := req.(model := "llama-3.1-8b-instant"); }
      }
    }

    /** Both attempts of ServeHTTP. */
    method CallProviders(own: GatewayRequest, net: Outside)
      returns (req: GatewayRequest, called: seq<string>, resp: Option<GatewayResponse>)
      requires Valid()
      modifies breakers.Values
      ensures Valid()
      ensures var want := Serve(SETTINGS, old(View()), own, net);
              View() == want.breakers && called == want.called && resp == want.resp && (resp.Some? ==> req == want.req)
    {
      req := own;
      var requestedProvider := own.provider;
      var entered: bool;
      resp, entered := ExecuteWithBreaker(requestedProvider, net.start, net.middle, net.primary);
      called := if entered then [requestedProvider] else [];
      if resp.None? {
        var fallback;
        fallback, req := Reroute(own);
        if fallback != "" && fallback in breakers {
          req := req.(provider := fallback);
          assert req == Gateway.FailedOver(own);
          resp, entered := ExecuteWithBreaker(fallback, net.middle, net.end, net.secondary);
          called := called + if entered then [fallback] else [];
        }
      }
    }

    /** The background task of an owner: publish, then store for semantic search whatever became of that. */
    method PublishAndStore(req: GatewayRequest, resp: GatewayResponse, background: Background)
      modifies cache, this`rows
      ensures cache.Contents() == Cache.PublishOnce(old(cache.Contents()), cache.hash(req), Gateway.Canonical(resp),
                                                    background.stored, background.publish, background.del)
      ensures rows == old(rows) + if Executed(background.semantic)
                                  then [Gateway.Row(req.provider, req.model, Gateway.Canonical(resp))] else []
    {
      var _ := cache.PublishResult(req, resp, background.stored, background.publish, background.del);
      if Executed(background.semantic) {
        rows := rows + [Gateway.Row(req.provider, req.model, Gateway.Canonical(resp))];
      }
    }

    /** The log goroutine. */
    method LogAsync(resp: GatewayResponse, journal: Journal)
      modifies store
      ensures store.Contents() == Booked(old(store.Contents()), Some(resp), journal)
      ensures store.view == old(store.view)
      ensures store.logs == old(store.logs) +
                if Executed(journal.reply) && (resp.provider == "groq" || resp.provider == "gemini")
                then [Spend.Log(journal.apiKey, resp.provider, Spend.Micros(resp.costUsd), journal.at)] else []
    {
      var _ := store.InsertLog(journal.apiKey, resp.provider, Spend.Micros(resp.costUsd), journal.at, journal.reply);
    }

    /** A success is published and stored in the background, and logged. */
    method Finish(req: GatewayRequest, resp: GatewayResponse, course: Course)
      modifies cache, store, this`rows
      ensures var b := course.background;
              && cache.Contents() == Cache.PublishOnce(old(cache.Contents()), cache.hash(req), Gateway.Canonical(resp),
                                                       b.stored, b.publish, b.del)
              && store.Contents() == Booked(old(store.Contents()), Some(resp), course.journal)
              && rows == old(rows) + if Executed(b.semantic)
                                     then [Gateway.Row(req.provider, req.model, Gateway.Canonical(resp))] else []
    {
      PublishAndStore(req, resp, course.background);
      LogAsync(resp, course.journal);
    }

    /** A plain request after both caches missed. */
    method AnswerAfterMiss(own: GatewayRequest, course: Course) returns (outcome: Gateway.Outcome)
      requires Valid() && !own.stream
      modifies breakers.Values, cache, store, this`rows
      ensures Valid()
      ensures var want := AfterMiss(SETTINGS, cache.hash, old(Now()), own, course);
              outcome == want.0 && Now() == want.1
    {
      ghost var w := Now();
      var req, called, resp := CallProviders(own, course.net);
      if resp.None? {
        NobodyAnswers(SETTINGS, cache.hash, w, own, course);
        return Gateway.Unavailable;
      }
      SomebodyAnswers(SETTINGS, cache.hash, w, own, course);
      var decorated := resp.value.(id := course.id, latencyMs := course.latency);
      Finish(req, decorated, course);
      return Gateway.Fresh(decorated);
    }

    method ServeStream(own: GatewayRequest, course: Course) returns (outcome: Gateway.Outcome)
      requires Valid() && own.stream
      modifies breakers.Values, store
      ensures Valid() && (outcome, Now()) == AfterStream(SETTINGS, old(Now()), own, course)
    {
      var req, called, resp := CallProviders(own, course.net);
      if resp.None? {
        return Gateway.StreamFailed;
      }
      LogAsync(StreamLog(req, resp.value.usage, course.latency), course.journal);
      return Gateway.Streamed;
    }

    /** A plain request without a semantic hit. */
    method ServePlain(own: GatewayRequest, course: Course) returns (outcome: Gateway.Outcome)
      requires Valid() && !own.stream
      modifies breakers.Values, cache, store, this`rows
      ensures Valid() && (outcome, Now()) == AfterLookup(SETTINGS, cache.hash, old(Now()), own, course)
    {
      var found := cache.GetOrLock(own, course.net.start, course.lookups.getFails, course.lookups.setnx,
                                   course.lookups.message);
      if found.Found? {
        LogAsync(found.resp, course.journal);
        return Gateway.Hit(found.resp);
      }
      outcome := AnswerAfterMiss(own, course);
    }

    /** One request, from its body to its answer. */
    method ServeHTTP(body: Option<GatewayRequest>, similar: Option<GatewayResponse>, course: Course)
      returns (answer: Answer)
      requires Valid()
      modifies breakers.Values, cache, store, this`rows
      ensures Valid()
      ensures answer.BadRequest? <==> body.None? || !body.value.Validate()
      ensures answer.BadRequest? ==> Now() == old(Now())
      ensures !answer.BadRequest? ==>
                (answer.outcome, Now()) == Handled(SETTINGS, cache.hash, old(Now()), body.value, similar, course)
    {
      if body.None? || !body.value.Validate() {
        return BadRequest;
      }
      var own := body.value;
      var outcome;
      if own.stream {
        outcome := ServeStream(own, course);
      } else if similar.Some? {
        LogAsync(similar.value, course.journal);
        outcome := Gateway.SemanticHit(similar.value);
      } else {
        outcome := ServePlain(own, course);
      }
      return Served(outcome);
    }
  }
}
