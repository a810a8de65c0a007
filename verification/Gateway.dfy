/**
  The request path of internal/proxy/handler.go together with the stampede protection of
  internal/cache/redis.go, as a state machine over its interleaved steps.

  Redis is two maps and a set of waiting subscribers; a request is a program counter with the fields
  `ServeHTTP` overwrites.  One step is one Redis command, one breaker method or one provider result.
  Time is in nanoseconds.
 */
module Gateway {
  import opened Models
  import Breaker

  type Rid = nat
  type Key = string

  const LOCK_TTL := 30_000_000_000

  datatype Stage = Setting | Notifying | Unlocking | Storing

  /** Where a request stands between two of its steps. */
  datatype PC =
    | Semantic
    | Getting
    | Locking
    | Subscribing
    | Waiting(inbox: seq<GatewayResponse>)
    | Attempt(fallback: bool)
    | Calling(fallback: bool)
    | Publishing(stage: Stage, resp: GatewayResponse)
    | Finished

  /** The commands that write: SETNX, SET, PUBLISH and DEL. */
  datatype Command = TakeLock | SetValue | SendMessage | DeleteLock

  datatype Outcome =
    | Unanswered
    | SemanticHit(resp: GatewayResponse)
    | Hit(resp: GatewayResponse)
    | Fresh(resp: GatewayResponse)
    | Unavailable
    | Streamed
    | StreamFailed

  /**
    `own` is the request as it arrived, `req` as failover has rewritten it.  `called` lists the
    providers whose Complete was entered; `holds` is true from a successful SETNX on the own key to
    the delete of that lock.  `late` counts the copies of its Redis commands that are still on their
    way, on connections the client has given up.
   */
  datatype Request = Request(own: GatewayRequest, req: GatewayRequest, pc: PC, outcome: Outcome,
                             called: seq<string>, holds: bool, late: multiset<Command>)

  /** A successful provider call. */
  datatype Call = Call(req: GatewayRequest, resp: GatewayResponse)

  datatype Row = Row(provider: string, model: string, payload: GatewayResponse)

  /** Per provider: calls let through by the breaker, and results recorded with it. */
  datatype Tally = Tally(allowed: nat, succeeded: nat, failed: nat)

  datatype Config = Config(hash: GatewayRequest -> Key, providers: set<string>, breaker: Breaker.Config)

  datatype State = State(values: map<Key, GatewayResponse>, locks: map<Key, nat>, rows: seq<Row>,
                         requests: map<Rid, Request>, breakers: map<string, Breaker.State>,
                         tallies: map<string, Tally>, calls: map<Rid, Call>, now: nat)

  /** What `Set` and `PublishResult` write: a copy without the request-specific fields. */
  function Canonical(resp: GatewayResponse): GatewayResponse {
    resp.(latencyMs := 0, cached := false)
  }

  function Fallback(provider: string): string {
    if provider == "groq" then "gemini" else if provider == "gemini" then "groq" else ""
  }

  function FallbackModel(provider: string): string {
    if provider == "groq" then "gemini-1.5-flash" else "llama-3.1-8b-instant"
  }

  /** The request after a failed first attempt; streams keep their model. */
  function FailedOver(r: GatewayRequest): GatewayRequest {
    if r.stream then r.(provider := Fallback(r.provider))
    else r.(provider := Fallback(r.provider), model := FallbackModel(r.provider))
  }

  predicate HasFallback(cfg: Config, r: GatewayRequest) {
    Fallback(r.provider) != "" && Fallback(r.provider) in cfg.providers
  }

  /** `other` is what a request for groq or gemini becomes when it fails over, with the names written out. */
  predicate AsksInstead(own: GatewayRequest, other: GatewayRequest) {
    || (own.provider == "groq" &&
        other == own.(provider := "gemini", model := if own.stream then own.model else "gemini-1.5-flash"))
    || (own.provider == "gemini" &&
        other == own.(provider := "groq", model := if own.stream then own.model else "llama-3.1-8b-instant"))
  }

  function Start(cfg: Config): State {
    State(map[], map[], [], map[], map p | p in cfg.providers :: Breaker.FRESH,
          map p | p in cfg.providers :: Tally(0, 0, 0), map[], 0)
  }

  // ---------------------------------------------------------------- steps

  datatype Event =
    | Arrive(rid: Rid, req: GatewayRequest)
    | FindSimilar(rid: Rid, row: int)
    | Get(rid: Rid, fails: bool)
    | SetNX(rid: Rid, reply: Reply)
    | Subscribe(rid: Rid)
    | Receive(rid: Rid)
    | GiveUp(rid: Rid)
    | Try(rid: Rid)
    | Succeed(rid: Rid, resp: GatewayResponse, id: string, latency: int)
    | Fail(rid: Rid)
    | Set(rid: Rid, reply: Reply)
    | Publish(rid: Rid, reply: Reply)
    | Unlock(rid: Rid, reply: Reply)
    | Store(rid: Rid, stored: bool)
    | Leave(rid: Rid)
    | Late(rid: Rid, command: Command)
    | Tick(elapsed: nat)
    | ExpireLock(key: Key)
    | Forget(key: Key)

  /** What the handler lets in: a body decodes to finite numbers only. */
  predicate Admitted(req: GatewayRequest) { req.Validate() && Finite(req.temperature) }

  predicate At(s: State, rid: Rid, stage: Stage) {
    rid in s.requests && s.requests[rid].pc.Publishing? && s.requests[rid].pc.stage == stage
  }

  predicate AtLock(s: State, rid: Rid) { rid in s.requests && s.requests[rid].pc.Locking? }

  /** The usage that a finished stream brings back: the relay fills none in, and the mock returns none. */
  const NO_USAGE := Usage(0, 0, 0)

  /**
    A success names the provider it came from and the model it was asked for; Gemini never streams.  `costUsd` is
    what the provider asks for the call, which a stream does not report.
   */
  predicate Plausible(r: Request, resp: GatewayResponse) {
    && resp.provider == r.req.provider && resp.model == r.req.model
    && (r.own.stream ==> r.req.provider != "gemini" && resp.usage == NO_USAGE)
  }

  predicate Enabled(s: State, e: Event) {
    match e
    case Arrive(rid, req) => rid !in s.requests && Admitted(req)
    case FindSimilar(rid, row) =>
      && rid in s.requests && s.requests[rid].pc.Semantic? && row < |s.rows|
      && (0 <= row ==> s.rows[row].provider == s.requests[rid].req.provider &&
                       s.rows[row].model == s.requests[rid].req.model)
    case Get(rid, _) => rid in s.requests && s.requests[rid].pc.Getting?
    case SetNX(rid, _) => rid in s.requests && s.requests[rid].pc.Locking?
    case Subscribe(rid) => rid in s.requests && s.requests[rid].pc.Subscribing?
    case Receive(rid) => rid in s.requests && s.requests[rid].pc.Waiting? && s.requests[rid].pc.inbox != []
    case GiveUp(rid) => rid in s.requests && (s.requests[rid].pc.Subscribing? || s.requests[rid].pc.Waiting?)
    case Try(rid) => rid in s.requests && s.requests[rid].pc.Attempt?
    case Succeed(rid, resp, _, _) =>
      rid in s.requests && s.requests[rid].pc.Calling? && Plausible(s.requests[rid], resp)
    case Fail(rid) => rid in s.requests && s.requests[rid].pc.Calling?
    case Set(rid, _) => At(s, rid, Setting)
    case Publish(rid, _) => At(s, rid, Notifying)
    case Unlock(rid, _) => At(s, rid, Unlocking)
    case Store(rid, _) => At(s, rid, Storing)
    case Leave(rid) => AtLock(s, rid) || At(s, rid, Setting) || At(s, rid, Notifying) || At(s, rid, Unlocking)
    case Late(rid, command) =>
      && rid in s.requests && command in s.requests[rid].late
      && (command.SetValue? || command.SendMessage? ==> s.requests[rid].outcome.Fresh?)
    case Tick(_) => true
    case ExpireLock(k) => k in s.locks && s.locks[k] < s.now
    case Forget(_) => true
  }

  function Answered(r: Request, outcome: Outcome): Request {
    r.(pc := Finished, outcome := outcome)
  }

  /** executeWithBreaker has returned an error: fall back once, or answer. */
  function AfterFailedAttempt(cfg: Config, r: Request, wasFallback: bool): Request {
    if !wasFallback && HasFallback(cfg, r.own) then r.(req := FailedOver(r.own), pc := Attempt(true))
    else Answered(r, if r.own.stream then StreamFailed else Unavailable)
  }

  /** Whether the provider of the attempt is configured and its breaker lets the call through. */
  predicate LetThrough(cfg: Config, s: State, p: string) {
    p in cfg.providers && p in s.breakers && Breaker.Grants(cfg.breaker, s.breakers[p], s.now)
  }

  /** The command that a request at this point waits for. */
  function Sent(pc: PC): Command {
    match pc
    case Publishing(stage, _) =>
      (match stage
       case Setting => SetValue
       case Notifying => SendMessage
       case _ => DeleteLock)
    case _ => TakeLock
  }

  // Which command an event makes Redis execute.  A client that has lost patience with a command closes the
  // connection, which leaves a copy on its way, and sends the command again or gives up; the copy may be executed
  // at any time from then on.

  predicate TriesLock(e: Event) { (e.SetNX? && Executed(e.reply)) || (e.Late? && e.command.TakeLock?) }

  predicate SetsValue(e: Event) { (e.Set? && Executed(e.reply)) || (e.Late? && e.command.SetValue?) }

  predicate SendsMessage(e: Event) { (e.Publish? && Executed(e.reply)) || (e.Late? && e.command.SendMessage?) }

  predicate DeletesLock(e: Event) { (e.Unlock? && Executed(e.reply)) || (e.Late? && e.command.DeleteLock?) }

  /** The response that the command of a background task carries. */
  function Payload(s: State, e: Event): GatewayResponse
    requires Enabled(s, e) && (SetsValue(e) || SendsMessage(e))
  {
    Canonical(if e.Late? then s.requests[e.rid].outcome.resp else s.requests[e.rid].pc.resp)
  }

  /** The next stage of the background task; an error skips to the semantic store. */
  function NextStage(reply: Reply, next: Stage, resp: GatewayResponse): PC {
    Publishing(if reply.Replied? then next else Storing, resp)
  }

  predicate IsAct(e: Event) { !e.Tick? && !e.ExpireLock? && !e.Forget? }

  predicate Acts(e: Event, rid: Rid) { IsAct(e) && e.rid == rid }

  /** The acting request after its step. */
  function Next(cfg: Config, s: State, e: Event): Request
    requires Enabled(s, e) && IsAct(e)
  {
    if e.Arrive? then
      Request(e.req, e.req, if e.req.stream then Attempt(false) else Semantic, Unanswered, [], false, multiset{})
    else
    var r := s.requests[e.rid];
    match e
    case FindSimilar(_, row) =>
      if row < 0 then r.(pc := Getting) else Answered(r, SemanticHit(s.rows[row].payload.(cached := true)))
    case Get(_, fails) =>
      var k := cfg.hash(r.req);
      if !fails && k in s.values then Answered(r, Hit(s.values[k].(cached := true))) else r.(pc := Locking)
    case SetNX(_, reply) =>
      if !reply.Replied? then r.(pc := Attempt(false))
      else if cfg.hash(r.req) !in s.locks then r.(pc := Attempt(false), holds := true)
      else r.(pc := Subscribing)
    case Subscribe(_) => r.(pc := Waiting([]))
    case Receive(_) => Answered(r, Hit(r.pc.inbox[0].(cached := true)))
    case GiveUp(_) => r.(pc := Attempt(false))
    case Try(_) =>
      if LetThrough(cfg, s, r.req.provider)
      then r.(pc := Calling(r.pc.fallback), called := r.called + [r.req.provider])
      else AfterFailedAttempt(cfg, r, r.pc.fallback)
    case Succeed(_, resp, id, latency) =>
      var decorated := resp.(id := id, latencyMs := latency);
      if r.own.stream then Answered(r, Streamed)
      else r.(pc := Publishing(Setting, decorated), outcome := Fresh(decorated))
    case Fail(_) => AfterFailedAttempt(cfg, r, r.pc.fallback)
    case Set(_, reply) => r.(pc := NextStage(reply, Notifying, r.pc.resp))
    case Publish(_, reply) => r.(pc := NextStage(reply, Unlocking, r.pc.resp))
    case Unlock(_, reply) =>
      r.(pc := NextStage(reply, Storing, r.pc.resp),
         holds := r.holds && !(Executed(reply) && cfg.hash(r.req) == cfg.hash(r.own)))
    case Leave(_) => r.(late := r.late + multiset{Sent(r.pc)})
    case Late(_, command) =>
      r.(late := r.late - multiset{command},
         holds := r.holds && !(command.DeleteLock? && cfg.hash(r.req) == cfg.hash(r.own)))
    case Store(_, _) => r.(pc := Finished)
    case _ => r
  }

  /** A waiting subscriber of the channel gets the message; nobody else does. */
  function Delivered(cfg: Config, r: Request, k: Key, payload: GatewayResponse): Request {
    if r.pc.Waiting? && cfg.hash(r.own) == k then r.(pc := Waiting(r.pc.inbox + [payload])) else r
  }

  /** A request during the step of another one, or of the environment. */
  function Bystander(cfg: Config, s: State, e: Event, r: Request): Request
    requires Enabled(s, e)
  {
    if SendsMessage(e) then Delivered(cfg, r, cfg.hash(s.requests[e.rid].req), Payload(s, e))
    else r
  }

  function NextRequests(cfg: Config, s: State, e: Event): map<Rid, Request>
    requires Enabled(s, e)
  {
    var others := map x | x in s.requests :: Bystander(cfg, s, e, s.requests[x]);
    if IsAct(e) then others[e.rid := Next(cfg, s, e)] else others
  }

  function NextValues(cfg: Config, s: State, e: Event): map<Key, GatewayResponse>
    requires Enabled(s, e)
  {
    if SetsValue(e) then s.values[cfg.hash(s.requests[e.rid].req) := Payload(s, e)]
    else if e.Forget? then s.values - {e.key}
    else s.values
  }

  function NextLocks(cfg: Config, s: State, e: Event): map<Key, nat>
    requires Enabled(s, e)
  {
    if TriesLock(e) then
      var k := cfg.hash(if e.Late? then s.requests[e.rid].own else s.requests[e.rid].req);
      if k in s.locks then s.locks else s.locks[k := s.now + LOCK_TTL]
    else if DeletesLock(e) then s.locks - {cfg.hash(s.requests[e.rid].req)}
    else if e.ExpireLock? then s.locks - {e.key}
    else s.locks
  }

  function NextRows(s: State, e: Event): seq<Row>
    requires Enabled(s, e)
  {
    match e
    case Store(rid, stored) =>
      var r := s.requests[rid];
      if stored then s.rows + [Row(r.req.provider, r.req.model, Canonical(r.pc.resp))] else s.rows
    case _ => s.rows
  }

  function NextBreakers(cfg: Config, s: State, e: Event): map<string, Breaker.State>
    requires Enabled(s, e)
  {
    if !e.Try? && !e.Succeed? && !e.Fail? then s.breakers else
    var p := s.requests[e.rid].req.provider;
    if p !in s.breakers then s.breakers
    else if e.Succeed? then s.breakers[p := Breaker.AfterSuccess(s.breakers[p])]
    else if e.Fail? then s.breakers[p := Breaker.AfterFailure(cfg.breaker, s.breakers[p], s.now)]
    else if p in cfg.providers then s.breakers[p := Breaker.AfterAllow(cfg.breaker, s.breakers[p], s.now)]
    else s.breakers
  }

  function NextTallies(cfg: Config, s: State, e: Event): map<string, Tally>
    requires Enabled(s, e)
  {
    if !e.Try? && !e.Succeed? && !e.Fail? then s.tallies else
    var p := s.requests[e.rid].req.provider;
    if p !in s.tallies then s.tallies else
    var t := s.tallies[p];
    if e.Succeed? then s.tallies[p := t.(succeeded := t.succeeded + 1)]
    else if e.Fail? then s.tallies[p := t.(failed := t.failed + 1)]
    else if LetThrough(cfg, s, p) then s.tallies[p := t.(allowed := t.allowed + 1)]
    else s.tallies
  }

  function NextCalls(s: State, e: Event): map<Rid, Call>
    requires Enabled(s, e)
  {
    if e.Succeed? then s.calls[e.rid := Call(s.requests[e.rid].req, e.resp)] else s.calls
  }

  function Step(cfg: Config, s: State, e: Event): State
    requires Enabled(s, e)
  {
    State(NextValues(cfg, s, e), NextLocks(cfg, s, e), NextRows(s, e), NextRequests(cfg, s, e),
          NextBreakers(cfg, s, e), NextTallies(cfg, s, e), NextCalls(s, e),
          if e.Tick? then s.now + e.elapsed else s.now)
  }

  /** One step, if the event is enabled. */
  function Advance(cfg: Config, s: State, e: Event): State {
    if Enabled(s, e) then Step(cfg, s, e) else s
  }

  /** The state after a run; a disabled event is skipped. */
  function Run(cfg: Config, s: State, run: seq<Event>): State {
    if run == [] then s else Advance(cfg, Run(cfg, s, run[..|run| - 1]), run[|run| - 1])
  }

  lemma RunExtends(cfg: Config, s: State, run: seq<Event>, e: Event)
    ensures Run(cfg, s, run + [e]) == Advance(cfg, Run(cfg, s, run), e)
  {
  }

  lemma RunOfOne(cfg: Config, s: State, a: Event)
    ensures Run(cfg, s, [a]) == Advance(cfg, s, a)
  {
    RunExtends(cfg, s, [], a);
    assert [] + [a] == [a];
  }

  lemma RunOfTwo(cfg: Config, s: State, a: Event, b: Event)
    ensures Run(cfg, s, [a, b]) == Advance(cfg, Advance(cfg, s, a), b)
  {
    RunOfOne(cfg, s, a);
    RunExtends(cfg, s, [a], b);
    assert [a] + [b] == [a, b];
  }

  lemma RunOfThree(cfg: Config, s: State, a: Event, b: Event, c: Event)
    ensures Run(cfg, s, [a, b, c]) == Advance(cfg, Advance(cfg, Advance(cfg, s, a), b), c)
  {
    RunOfTwo(cfg, s, a, b);
    RunExtends(cfg, s, [a, b], c);
    assert [a, b] + [c] == [a, b, c];
  }

  lemma {:induction false} RunAppends(cfg: Config, s: State, a: seq<Event>, b: seq<Event>)
    ensures Run(cfg, s, a + b) == Run(cfg, Run(cfg, s, a), b)
  {
    if b == [] {
      assert a + b == a;
    } else {
      RunAppends(cfg, s, a, b[..|b| - 1]);
      assert (a + b)[..|a + b| - 1] == a + b[..|b| - 1];
    }
  }
}
