/**
  No cross-talk: whatever interleaves, what is cached, published or handed out under a key comes from
  a successful provider call that was made for a request with exactly that key.
 */
module Crosstalk {
  import opened Models
  import opened Gateway
  import opened Failover
  import opened CacheKey

  /** The payload of this call under its key; only the response id is added later. */
  predicate Made(cfg: Config, call: Call, k: Key, payload: GatewayResponse) {
    cfg.hash(call.req) == k && !call.req.stream && payload == Canonical(call.resp).(id := payload.id)
  }

  ghost predicate Genuine(cfg: Config, calls: map<Rid, Call>, k: Key, payload: GatewayResponse) {
    exists c | c in calls :: Made(cfg, calls[c], k, payload)
  }

  predicate MadeFor(call: Call, provider: string, model: string, payload: GatewayResponse) {
    call.req.provider == provider && call.req.model == model && payload == Canonical(call.resp).(id := payload.id)
  }

  ghost predicate GenuineRow(calls: map<Rid, Call>, row: Row) {
    exists c | c in calls :: MadeFor(calls[c], row.provider, row.model, row.payload)
  }

  ghost predicate GenuineHit(cfg: Config, calls: map<Rid, Call>, k: Key, resp: GatewayResponse) {
    resp.cached && resp.latencyMs == 0 && Genuine(cfg, calls, k, resp.(cached := false))
  }

  ghost predicate GenuineSemanticHit(calls: map<Rid, Call>, own: GatewayRequest, resp: GatewayResponse) {
    resp.cached && resp.latencyMs == 0 && GenuineRow(calls, Row(own.provider, own.model, resp.(cached := false)))
  }

  /** What a request has been handed so far is genuine. */
  ghost predicate Traced(cfg: Config, calls: map<Rid, Call>, r: Request) {
    && (r.pc.Waiting? ==> forall m | m in r.pc.inbox :: Genuine(cfg, calls, cfg.hash(r.own), m))
    && (r.outcome.Hit? ==> GenuineHit(cfg, calls, cfg.hash(r.own), r.outcome.resp))
    && (r.outcome.SemanticHit? ==> GenuineSemanticHit(calls, r.own, r.outcome.resp))
  }

  ghost predicate ValuesGenuine(cfg: Config, values: map<Key, GatewayResponse>, calls: map<Rid, Call>) {
    forall k | k in values :: Genuine(cfg, calls, k, values[k])
  }

  ghost predicate RowsGenuine(rows: seq<Row>, calls: map<Rid, Call>) {
    forall row | row in rows :: GenuineRow(calls, row)
  }

  ghost predicate AllTraced(cfg: Config, s: State) {
    && ValuesGenuine(cfg, s.values, s.calls)
    && RowsGenuine(s.rows, s.calls)
    && forall x | x in s.requests :: Traced(cfg, s.calls, s.requests[x])
  }

  // ---------------------------------------------------------------- calls are never forgotten

  ghost predicate Extends(calls: map<Rid, Call>, more: map<Rid, Call>) {
    forall c | c in calls :: c in more && more[c] == calls[c]
  }

  lemma CallsExtend(cfg: Config, s: State, e: Event)
    requires Enabled(s, e) && (IsAct(e) && !e.Arrive? ==> Kept(cfg, s.calls, e.rid, s.requests[e.rid]))
    ensures Extends(s.calls, NextCalls(s, e))
  {
  }

  // ---------------------------------------------------------------- one step

  /** The background task writes under the key of the request the provider was called with. */
  lemma PublishedIsGenuine(cfg: Config, calls: map<Rid, Call>, rid: Rid, r: Request)
    requires Kept(cfg, calls, rid, r) && r.outcome.Fresh?
    ensures Genuine(cfg, calls, cfg.hash(r.req), Canonical(r.outcome.resp))
    ensures GenuineRow(calls, Row(r.req.provider, r.req.model, Canonical(r.outcome.resp)))
    ensures r.pc.Publishing? ==> r.pc.resp == r.outcome.resp
  {
    assert Made(cfg, calls[rid], cfg.hash(r.req), Canonical(r.outcome.resp));
    assert MadeFor(calls[rid], r.req.provider, r.req.model, Canonical(r.outcome.resp));
  }

  lemma ValuesStep(cfg: Config, s: State, e: Event)
    requires Enabled(s, e) && ValuesGenuine(cfg, s.values, s.calls)
    requires IsAct(e) && !e.Arrive? ==> Kept(cfg, s.calls, e.rid, s.requests[e.rid])
    ensures ValuesGenuine(cfg, NextValues(cfg, s, e), NextCalls(s, e))
  {
    CallsExtend(cfg, s, e);
    if SetsValue(e) {
      PublishedIsGenuine(cfg, s.calls, e.rid, s.requests[e.rid]);
    }
  }

  lemma RowsStep(cfg: Config, s: State, e: Event)
    requires Enabled(s, e) && RowsGenuine(s.rows, s.calls)
    requires IsAct(e) && !e.Arrive? ==> Kept(cfg, s.calls, e.rid, s.requests[e.rid])
    ensures RowsGenuine(NextRows(s, e), NextCalls(s, e))
  {
    CallsExtend(cfg, s, e);
    if e.Store? {
      PublishedIsGenuine(cfg, s.calls, e.rid, s.requests[e.rid]);
    }
  }

  lemma DeliveredTraced(cfg: Config, calls: map<Rid, Call>, r: Request, k: Key, m: GatewayResponse)
    requires Traced(cfg, calls, r) && Genuine(cfg, calls, k, m)
    ensures Traced(cfg, calls, Delivered(cfg, r, k, m))
  {
  }

  lemma TracedExtends(cfg: Config, calls: map<Rid, Call>, more: map<Rid, Call>, r: Request)
    requires Extends(calls, more) && Traced(cfg, calls, r)
    ensures Traced(cfg, more, r)
  {
  }

  lemma BystanderTraced(cfg: Config, s: State, e: Event, r: Request)
    requires Enabled(s, e) && Traced(cfg, s.calls, r)
    requires IsAct(e) && !e.Arrive? ==> Kept(cfg, s.calls, e.rid, s.requests[e.rid])
    ensures Traced(cfg, NextCalls(s, e), Bystander(cfg, s, e, r))
  {
    CallsExtend(cfg, s, e);
    if SendsMessage(e) {
      var actor := s.requests[e.rid];
      PublishedIsGenuine(cfg, s.calls, e.rid, actor);
      DeliveredTraced(cfg, s.calls, r, cfg.hash(actor.req), Payload(s, e));
    }
    TracedExtends(cfg, s.calls, NextCalls(s, e), Bystander(cfg, s, e, r));
  }

  lemma HitIsGenuine(cfg: Config, calls: map<Rid, Call>, k: Key, payload: GatewayResponse)
    requires Genuine(cfg, calls, k, payload)
    ensures GenuineHit(cfg, calls, k, payload.(cached := true))
  {
  }

  lemma SemanticHitIsGenuine(calls: map<Rid, Call>, own: GatewayRequest, row: Row)
    requires GenuineRow(calls, row) && row.provider == own.provider && row.model == own.model
    ensures GenuineSemanticHit(calls, own, row.payload.(cached := true))
  {
  }

  lemma ActorTraced(cfg: Config, s: State, e: Event)
    requires Enabled(s, e) && IsAct(e)
    requires ValuesGenuine(cfg, s.values, s.calls) && RowsGenuine(s.rows, s.calls)
    requires !e.Arrive? ==> Kept(cfg, s.calls, e.rid, s.requests[e.rid]) && Traced(cfg, s.calls, s.requests[e.rid])
    ensures Traced(cfg, NextCalls(s, e), Next(cfg, s, e))
  {
    if !e.Arrive? {
      var r := s.requests[e.rid];
      CallsExtend(cfg, s, e);
      match e {
        case FindSimilar(_, row) =>
          if 0 <= row { SemanticHitIsGenuine(s.calls, r.own, s.rows[row]); }
        case Get(_, fails) =>
          if !fails && cfg.hash(r.req) in s.values {
            HitIsGenuine(cfg, s.calls, cfg.hash(r.own), s.values[cfg.hash(r.own)]);
          }
        case Receive(_) => HitIsGenuine(cfg, s.calls, cfg.hash(r.own), r.pc.inbox[0]);
        case _ =>
      }
    }
  }

  lemma RequestTraced(cfg: Config, s: State, e: Event, x: Rid)
    requires Enabled(s, e) && x in NextRequests(cfg, s, e)
    requires ValuesGenuine(cfg, s.values, s.calls) && RowsGenuine(s.rows, s.calls)
    requires IsAct(e) && !e.Arrive? ==> Kept(cfg, s.calls, e.rid, s.requests[e.rid])
    requires x in s.requests ==> Traced(cfg, s.calls, s.requests[x])
    ensures Traced(cfg, NextCalls(s, e), NextRequests(cfg, s, e)[x])
  {
    if Acts(e, x) {
      ActorTraced(cfg, s, e);
    } else {
      BystanderTraced(cfg, s, e, s.requests[x]);
    }
  }

  lemma TracedStep(cfg: Config, s: State, e: Event)
    requires Enabled(s, e) && AllTraced(cfg, s)
    requires IsAct(e) && !e.Arrive? ==> Kept(cfg, s.calls, e.rid, s.requests[e.rid])
    ensures AllTraced(cfg, Step(cfg, s, e))
  {
    ValuesStep(cfg, s, e);
    RowsStep(cfg, s, e);
    forall x | x in NextRequests(cfg, s, e) ensures Traced(cfg, NextCalls(s, e), NextRequests(cfg, s, e)[x]) {
      RequestTraced(cfg, s, e, x);
    }
  }

  // ---------------------------------------------------------------- every run

  /** Every cached value, stored row, delivered message and hit is genuine, in every interleaving. */
  lemma {:induction false} NothingCrosses(cfg: Config, run: seq<Event>)
    ensures AllTraced(cfg, Run(cfg, Start(cfg), run))
  {
    if run != [] {
      var before, e := Run(cfg, Start(cfg), run[..|run| - 1]), run[|run| - 1];
      NothingCrosses(cfg, run[..|run| - 1]);
      KeptRun(cfg, run[..|run| - 1]);
      if Enabled(before, e) {
        TracedStep(cfg, before, e);
      }
    }
  }

  /** What a background task sets and publishes, under the key of the request it holds, is genuine too. */
  lemma PublishedNeverCrosses(cfg: Config, run: seq<Event>, rid: Rid)
    requires var s := Run(cfg, Start(cfg), run); rid in s.requests && s.requests[rid].pc.Publishing?
    ensures var s := Run(cfg, Start(cfg), run);
            var r := s.requests[rid];
            && Genuine(cfg, s.calls, cfg.hash(r.req), Canonical(r.pc.resp))
            && r.pc.resp.provider == r.req.provider && r.pc.resp.model == r.req.model
  {
    var s := Run(cfg, Start(cfg), run);
    KeptRun(cfg, run);
    PublishedIsGenuine(cfg, s.calls, rid, s.requests[rid]);
  }

  /** The configured hash is RequestHash over an injective digest and number format. */
  ghost predicate HashesRequests(cfg: Config, sha256: string -> string, format: Float64 -> string) {
    && InjectiveHash(sha256) && InjectiveFormat(format)
    && forall r: GatewayRequest | r.messages != [] :: cfg.hash(r) == RequestHash(sha256, format, r)
  }

  lemma HitTaker(cfg: Config, calls: map<Rid, Call>, rid: Rid, r: Request)
    requires Kept(cfg, calls, rid, r) && Traced(cfg, calls, r) && r.outcome.Hit?
    ensures Admitted(r.own) && !r.own.stream && r.outcome.resp.cached
  {
  }

  /** The provider was asked for exactly this request, and this is its answer up to id and latency. */
  predicate Answers(call: Call, own: GatewayRequest, resp: GatewayResponse) {
    call.req == own && Named(call) && resp == call.resp.(id := resp.id, latencyMs := 0, cached := true)
  }

  /** A call that a hit under the key of `own` may come from, seen through the key only. */
  predicate Serves(cfg: Config, call: Call, own: GatewayRequest, resp: GatewayResponse) {
    && Made(cfg, call, cfg.hash(own), resp.(cached := false)) && resp.cached
    && Named(call) && call.req.messages != [] && Finite(call.req.temperature) && Admitted(own) && !own.stream
  }

  lemma HitIsServed(cfg: Config, s: State, rid: Rid)
    requires rid in s.requests && s.requests[rid].outcome.Hit?
    requires AllKept(cfg, s.requests, s.calls) && Traced(cfg, s.calls, s.requests[rid])
    ensures exists c | c in s.calls :: Serves(cfg, s.calls[c], s.requests[rid].own, s.requests[rid].outcome.resp)
  {
    var own, resp := s.requests[rid].own, s.requests[rid].outcome.resp;
    var c :| c in s.calls && Made(cfg, s.calls[c], cfg.hash(own), resp.(cached := false));
    HitTaker(cfg, s.calls, rid, s.requests[rid]);
    assert Serves(cfg, s.calls[c], own, resp);
  }

  lemma ServesTheSameRequest(cfg: Config, sha256: string -> string, format: Float64 -> string, call: Call,
                             own: GatewayRequest, resp: GatewayResponse)
    requires HashesRequests(cfg, sha256, format) && Serves(cfg, call, own, resp)
    ensures Answers(call, own, resp)
  {
    KeysEqualIff(sha256, format, call.req, own);
    assert call.req == call.req.(stream := false) == own;
  }

  /**
    A HIT is the answer to a provider call made with a request equal to the caller's own in every
    field: failover rewrites provider and model before it calls and publishes.
   */
  lemma HitAnswersTheOwnRequest(cfg: Config, sha256: string -> string, format: Float64 -> string, run: seq<Event>,
                                rid: Rid)
    requires HashesRequests(cfg, sha256, format)
    requires var s := Run(cfg, Start(cfg), run); rid in s.requests && s.requests[rid].outcome.Hit?
    ensures var s := Run(cfg, Start(cfg), run);
            exists c | c in s.calls :: Answers(s.calls[c], s.requests[rid].own, s.requests[rid].outcome.resp)
  {
    var s := Run(cfg, Start(cfg), run);
    NothingCrosses(cfg, run);
    KeptRun(cfg, run);
    HitIsServed(cfg, s, rid);
    var c :| c in s.calls && Serves(cfg, s.calls[c], s.requests[rid].own, s.requests[rid].outcome.resp);
    ServesTheSameRequest(cfg, sha256, format, s.calls[c], s.requests[rid].own, s.requests[rid].outcome.resp);
  }

  /** A SEMANTIC-HIT may answer another prompt, but only one sent to the caller's own provider and model. */
  lemma SemanticHitKeepsTheModel(cfg: Config, run: seq<Event>, rid: Rid)
    requires var s := Run(cfg, Start(cfg), run); rid in s.requests && s.requests[rid].outcome.SemanticHit?
    ensures var s := Run(cfg, Start(cfg), run);
            var own, resp := s.requests[rid].own, s.requests[rid].outcome.resp;
            && resp.provider == own.provider && resp.model == own.model && resp.cached && resp.latencyMs == 0
            && exists c | c in s.calls :: MadeFor(s.calls[c], own.provider, own.model, resp.(cached := false))
  {
    var s := Run(cfg, Start(cfg), run);
    NothingCrosses(cfg, run);
    KeptRun(cfg, run);
    var own, resp := s.requests[rid].own, s.requests[rid].outcome.resp;
    var c :| c in s.calls && MadeFor(s.calls[c], own.provider, own.model, resp.(cached := false));
  }
}
