/**
  A whole ServeHTTP call with nothing else in between is a run of the interleaved gateway and its log, from
  the arrival of the request to its row in the log: same answer, and the same breakers, Redis, semantic table
  and log afterwards.
 */
module ServeRuns {
  import opened Models
  import opened Handler
  import opened HandlerRuns
  import Cache
  import Charges
  import Failover
  import opened Messages
  import opened Gateway

  // ---------------------------------------------------------------- the parts of the run

  function Entry(rid: Rid, own: GatewayRequest, row: int): seq<Event> {
    [Arrive(rid, own), FindSimilar(rid, row)]
  }

  /** The commands of GetOrLock up to the wait. */
  function Lookup(rid: Rid, lookups: Lookups): seq<Event> {
    [Get(rid, lookups.getFails), SetNX(rid, lookups.setnx), Subscribe(rid)]
  }

  /** The end of the wait: the client gives up, or request `publisher` publishes and the message is received. */
  function Wait(rid: Rid, publisher: Rid, message: Option<GatewayResponse>): seq<Event> {
    if message.None? then [GiveUp(rid)] else [Publish(publisher, Replied), Receive(rid)]
  }

  function Publication(rid: Rid, b: Background): seq<Event> {
    [Set(rid, b.stored), Publish(rid, b.publish), Unlock(rid, b.del)]
  }

  function Serving(rid: Rid, own: GatewayRequest, row: int, publisher: Rid, course: Course): seq<Event>
    requires course.net.start <= course.net.middle <= course.net.end
  {
    Entry(rid, own, row) + Lookup(rid, course.lookups) + Wait(rid, publisher, course.lookups.message) +
    BothAttempts(rid, course.net, course.id, course.latency) +
    Publication(rid, course.background) + [Store(rid, Executed(course.background.semantic))]
  }

  lemma RunOfSix(cfg: Config, s: State, a: seq<Event>, b: seq<Event>, c: seq<Event>, d: seq<Event>, e: seq<Event>,
                 f: seq<Event>)
    ensures Run(cfg, s, a + b + c + d + e + f) ==
            Run(cfg, Run(cfg, Run(cfg, Run(cfg, Run(cfg,
              Run(cfg, s, a), b), c), d), e), f)
  {
    RunAppends(cfg, s, a, b);
    RunAppends(cfg, s, a + b, c);
    RunAppends(cfg, s, a + b + c, d);
    RunAppends(cfg, s, a + b + c + d, e);
    RunAppends(cfg, s, a + b + c + d + e, f);
  }

  // ---------------------------------------------------------------- what a step leaves alone

  /** The commands of the cache client. */
  predicate OnCache(e: Event) {
    e.Get? || e.SetNX? || e.Subscribe? || e.Receive? || e.GiveUp? || e.Set? || e.Publish? || e.Unlock?
  }

  predicate SameElsewhere(s: State, t: State) {
    t.calls == s.calls && t.breakers == s.breakers && t.rows == s.rows && t.now == s.now
  }

  lemma CacheStepKeeps(cfg: Config, s: State, e: Event)
    requires OnCache(e)
    ensures SameElsewhere(s, Advance(cfg, s, e))
  {
  }

  lemma CacheStepsKeep(cfg: Config, s: State, a: Event, b: Event, c: Event)
    requires OnCache(a) && OnCache(b) && OnCache(c)
    ensures SameElsewhere(s, Run(cfg, s, [a, b, c]))
  {
    RunOfThree(cfg, s, a, b, c);
    CacheStepKeeps(cfg, s, a);
    CacheStepKeeps(cfg, Advance(cfg, s, a), b);
    CacheStepKeeps(cfg, Advance(cfg, Advance(cfg, s, a), b), c);
  }

  // ---------------------------------------------------------------- arrival

  function Newcomer(own: GatewayRequest, pc: PC): Request {
    Request(own, own, pc, Unanswered, [], false, multiset{})
  }

  /** FindSimilar may come back with this row, or with none. */
  predicate MayCome(rows: seq<Row>, own: GatewayRequest, row: int) {
    row < |rows| && (0 <= row ==> rows[row].provider == own.provider && rows[row].model == own.model)
  }

  function Similar(rows: seq<Row>, row: int): Option<GatewayResponse>
    requires row < |rows|
  {
    if row < 0 then None else Some(rows[row].payload.(cached := true))
  }

  function Entered(own: GatewayRequest, similar: Option<GatewayResponse>): Request {
    if own.stream then Newcomer(own, Attempt(false))
    else if similar.Some? then Newcomer(own, Finished).(outcome := SemanticHit(similar.value))
    else Newcomer(own, Getting)
  }

  /** The shared state as a call of this request sees it. */
  function View(s: State, r: Request): Seen {
    Seen(r, None, s.breakers, s.now, s.values, s.locks, s.rows)
  }

  lemma SimilarStep(cfg: Config, s: State, rid: Rid, own: GatewayRequest, row: int)
    requires MayCome(s.rows, own, row)
    requires Sees(s, rid, View(s, Newcomer(own, if own.stream then Attempt(false) else Semantic)))
    ensures Sees(Advance(cfg, s, FindSimilar(rid, row)), rid,
                 View(s, Entered(own, Similar(s.rows, row))))
  {
  }

  lemma EntryRun(cfg: Config, s: State, rid: Rid, own: GatewayRequest, row: int)
    requires rid !in s.requests && rid !in s.calls && Admitted(own) && MayCome(s.rows, own, row)
    ensures Sees(Run(cfg, s, Entry(rid, own, row)), rid, View(s, Entered(own, Similar(s.rows, row))))
  {
    RunOfTwo(cfg, s, Arrive(rid, own), FindSimilar(rid, row));
    SimilarStep(cfg, Advance(cfg, s, Arrive(rid, own)), rid, own, row);
  }

  // ---------------------------------------------------------------- the lookup

  /** Request `x` is about to publish this message for the key, if there is one. */
  predicate Brings(cfg: Config, s: State, x: Rid, k: Key, message: Option<GatewayResponse>) {
    message.Some? ==>
      && At(s, x, Notifying) && cfg.hash(s.requests[x].req) == k
      && Canonical(s.requests[x].pc.resp) == message.value
  }

  /** The steps of a call before its wait. */
  predicate UpToWait(e: Event, rid: Rid) {
    (e.Arrive? || e.FindSimilar? || e.Get? || e.SetNX? || e.Subscribe?) && e.rid == rid
  }

  lemma {:induction false} StillBrings(cfg: Config, s: State, rid: Rid, run: seq<Event>, x: Rid, k: Key,
                                       message: Option<GatewayResponse>)
    requires Brings(cfg, s, x, k, message) && x != rid && forall e | e in run :: UpToWait(e, rid)
    ensures Brings(cfg, Run(cfg, s, run), x, k, message)
  {
    if run != [] {
      StillBrings(cfg, s, rid, run[..|run| - 1], x, k, message);
      assert UpToWait(run[|run| - 1], rid);
    }
  }

  /** What the end of the wait leaves; a request that does not wait skips it. */
  function Waited(v: Seen, message: Option<GatewayResponse>): Seen {
    if v.r.pc != Waiting([]) then v
    else if message.None? then v.(r := v.r.(pc := Attempt(false)))
    else v.(r := Answered(v.r, Hit(message.value.(cached := true))))
  }

  lemma Delivery(cfg: Config, s: State, rid: Rid, v: Seen, x: Rid, message: GatewayResponse)
    requires Sees(s, rid, v) && x != rid && Brings(cfg, s, x, cfg.hash(v.r.own), Some(message))
    requires v.r.pc == Waiting([]) || v.r.pc.Attempt? || v.r.pc.Finished?
    ensures Sees(Advance(cfg, s, Publish(x, Replied)), rid,
                 if v.r.pc.Waiting? then v.(r := v.r.(pc := Waiting([message]))) else v)
  {
    assert [] + [message] == [message];
  }

  lemma GivesUp(cfg: Config, s: State, rid: Rid, v: Seen)
    requires Sees(s, rid, v) && (v.r.pc == Waiting([]) || v.r.pc.Attempt? || v.r.pc.Finished?)
    ensures Sees(Advance(cfg, s, GiveUp(rid)), rid, Waited(v, None))
  {
    CacheStepKeeps(cfg, s, GiveUp(rid));
  }

  lemma Receives(cfg: Config, s: State, rid: Rid, v: Seen, message: GatewayResponse)
    requires Sees(s, rid, v) && (v.r.pc == Waiting([message]) || v.r.pc.Attempt? || v.r.pc.Finished?)
    ensures Sees(Advance(cfg, s, Receive(rid)), rid,
                 if v.r.pc.Waiting? then v.(r := Answered(v.r, Hit(message.(cached := true)))) else v)
  {
    CacheStepKeeps(cfg, s, Receive(rid));
  }

  lemma WaitRun(cfg: Config, s: State, rid: Rid, v: Seen, x: Rid, message: Option<GatewayResponse>)
    requires Sees(s, rid, v) && x != rid && Brings(cfg, s, x, cfg.hash(v.r.own), message)
    requires v.r.pc == Waiting([]) || v.r.pc.Attempt? || v.r.pc.Finished?
    ensures Sees(Run(cfg, s, Wait(rid, x, message)), rid, Waited(v, message))
  {
    if message.None? {
      RunOfOne(cfg, s, GiveUp(rid));
      GivesUp(cfg, s, rid, v);
    } else {
      RunOfTwo(cfg, s, Publish(x, Replied), Receive(rid));
      Delivery(cfg, s, rid, v, x, message.value);
      Receives(cfg, Advance(cfg, s, Publish(x, Replied)), rid,
               if v.r.pc.Waiting? then v.(r := v.r.(pc := Waiting([message.value]))) else v, message.value);
    }
  }

  /** What GetOrLock leaves of a request that reads the cache, up to the wait; one that does not skips it. */
  function LookedUp(cfg: Config, v: Seen, lookups: Lookups): Seen {
    if !v.r.pc.Getting? then v else
    var k := cfg.hash(v.r.req);
    v.(r := match Cache.Enter(v.values, v.locks, k, lookups.getFails, lookups.setnx)
            case CacheHit(resp) => Answered(v.r, Hit(resp))
            case Acquired => v.r.(pc := Attempt(false), holds := true)
            case LockError => v.r.(pc := Attempt(false))
            case Subscriber => v.r.(pc := Waiting([])),
       locks := Cache.LocksAfterEnter(v.values, v.locks, k, v.now, lookups.getFails, lookups.setnx))
  }

  lemma LookupRun(cfg: Config, s: State, rid: Rid, v: Seen, lookups: Lookups)
    requires Sees(s, rid, v) && (v.r.pc.Getting? || v.r.pc.Attempt? || v.r.pc.Finished?)
    ensures Sees(Run(cfg, s, Lookup(rid, lookups)), rid, LookedUp(cfg, v, lookups))
  {
    if v.r.pc.Getting? {
      Cache.GetOrLockIsARun(cfg, s, rid, lookups.getFails, lookups.setnx);
      CacheStepsKeep(cfg, s, Get(rid, lookups.getFails), SetNX(rid, lookups.setnx), Subscribe(rid));
    } else {
      RunOfThree(cfg, s, Get(rid, lookups.getFails), SetNX(rid, lookups.setnx), Subscribe(rid));
    }
  }

  // ---------------------------------------------------------------- the provider phase

  /** What the call sees once both attempts are over, or skipped. */
  predicate AtLast(cfg: Config, v: Seen, v2: Seen, net: Outside, id: string, latency: int) {
    if v.r.pc.Finished? then v2 == v.(now := net.end) else ServedSeen(cfg, v, v2, net, id, latency)
  }

  lemma AttemptsRun(cfg: Config, s: State, rid: Rid, v: Seen, net: Outside, id: string, latency: int) returns (v2: Seen)
    requires Sees(s, rid, v) && (Unserved(cfg, v) || v.r.pc.Finished?)
    requires net.start == v.now && net.start <= net.middle <= net.end
    requires PlausibleResult(v.r, net.primary)
    requires PlausibleResult(v.r.(req := FailedOver(v.r.own)), net.secondary)
    ensures Sees(Run(cfg, s, BothAttempts(rid, net, id, latency)), rid, v2)
    ensures AtLast(cfg, v, v2, net, id, latency)
    ensures v2.r.pc.Finished? || (v2.r.pc.Publishing? && v2.r.pc.stage.Setting?)
  {
    if v.r.pc.Finished? {
      v2 := v.(now := net.end);
      BothAttemptsSkipped(cfg, s, rid, v, net, id, latency);
    } else {
      v2 := BothAttemptsRun(cfg, s, rid, v, net, id, latency);
    }
  }

  // ---------------------------------------------------------------- the background task

  /** Redis after the background task, if there is one. */
  function RedisAfter(cfg: Config, v: Seen, b: Background): Cache.Redis {
    if !v.r.pc.Publishing? then Cache.Redis(v.values, v.locks, []) else
    Cache.PublishOnce(Cache.Redis(v.values, v.locks, []), cfg.hash(v.r.req), Canonical(v.r.pc.resp), b.stored,
                      b.publish, b.del)
  }

  function RowsAfter(v: Seen, b: Background): seq<Row> {
    if !v.r.pc.Publishing? || !Executed(b.semantic) then v.rows
    else v.rows + [Row(v.r.req.provider, v.r.req.model, Canonical(v.r.pc.resp))]
  }

  predicate SameAnswer(s: State, t: State, rid: Rid) {
    && rid in s.requests && rid in t.requests
    && t.requests[rid].outcome == s.requests[rid].outcome && t.requests[rid].req == s.requests[rid].req
  }

  lemma PublicationKeepsAnswer(cfg: Config, s: State, rid: Rid, e: Event)
    requires rid in s.requests && (e.Set? || e.Publish? || e.Unlock? || e.Store?) && e.rid == rid
    ensures SameAnswer(s, Advance(cfg, s, e), rid)
  {
  }

  lemma PublicationKeeps(cfg: Config, s: State, rid: Rid, b: Background)
    requires rid in s.requests
    ensures SameAnswer(s, Run(cfg, s, Publication(rid, b)), rid)
    ensures SameElsewhere(s, Run(cfg, s, Publication(rid, b)))
  {
    var e1, e2, e3 := Set(rid, b.stored), Publish(rid, b.publish), Unlock(rid, b.del);
    RunOfThree(cfg, s, e1, e2, e3);
    PublicationKeepsAnswer(cfg, s, rid, e1);
    PublicationKeepsAnswer(cfg, Advance(cfg, s, e1), rid, e2);
    PublicationKeepsAnswer(cfg, Advance(cfg, Advance(cfg, s, e1), e2), rid, e3);
    CacheStepsKeep(cfg, s, e1, e2, e3);
  }

  lemma PublicationRun(cfg: Config, s: State, rid: Rid, v: Seen, b: Background)
    requires Sees(s, rid, v) && At(s, rid, Setting)
    ensures var t := Run(cfg, s, Publication(rid, b));
            && t.values == RedisAfter(cfg, v, b).values && t.locks == RedisAfter(cfg, v, b).locks
            && At(t, rid, Storing) && t.requests[rid].pc.resp == v.r.pc.resp
            && SameAnswer(s, t, rid) && SameElsewhere(s, t)
  {
    Cache.PublishResultIsARun(cfg, s, rid, b.stored, b.publish, b.del);
    PublicationKeeps(cfg, s, rid, b);
  }

  lemma FinishedRests(cfg: Config, s: State, rid: Rid, e: Event)
    requires rid in s.requests && s.requests[rid].pc.Finished?
    requires (e.Set? || e.Publish? || e.Unlock? || e.Store?) && e.rid == rid
    ensures Advance(cfg, s, e) == s
  {
  }

  lemma PublicationSkipped(cfg: Config, s: State, rid: Rid, b: Background)
    requires rid in s.requests && s.requests[rid].pc.Finished?
    ensures Run(cfg, s, Publication(rid, b)) == s
  {
    var e1, e2, e3 := Set(rid, b.stored), Publish(rid, b.publish), Unlock(rid, b.del);
    RunOfThree(cfg, s, e1, e2, e3);
    FinishedRests(cfg, s, rid, e1);
    FinishedRests(cfg, s, rid, e2);
    FinishedRests(cfg, s, rid, e3);
  }

  /** The request is through, with this answer and call, and the shared state is as the background task left it. */
  predicate Ended(cfg: Config, t: State, rid: Rid, v: Seen, b: Background) {
    && rid in t.requests && t.requests[rid].pc.Finished?
    && t.requests[rid].outcome == v.r.outcome && t.requests[rid].req == v.r.req && CallOf(t.calls, rid) == v.call
    && t.breakers == v.breakers && t.now == v.now && t.rows == RowsAfter(v, b)
    && t.values == RedisAfter(cfg, v, b).values && t.locks == RedisAfter(cfg, v, b).locks
  }

  lemma BackgroundRun(cfg: Config, s: State, rid: Rid, v: Seen, b: Background)
    requires Sees(s, rid, v) && (v.r.pc.Finished? || At(s, rid, Setting))
    ensures Ended(cfg, Run(cfg, Run(cfg, s, Publication(rid, b)),
                                   [Store(rid, Executed(b.semantic))]), rid, v, b)
  {
    var t := Run(cfg, s, Publication(rid, b));
    RunOfOne(cfg, t, Store(rid, Executed(b.semantic)));
    if v.r.pc.Finished? {
      PublicationSkipped(cfg, s, rid, b);
      FinishedRests(cfg, s, rid, Store(rid, Executed(b.semantic)));
    } else {
      PublicationRun(cfg, s, rid, v, b);
    }
  }

  // ---------------------------------------------------------------- one call

  /** What the call sees before its attempts. */
  function BeforeCalls(cfg: Config, v: Seen, lookups: Lookups): Seen {
    Waited(LookedUp(cfg, v, lookups), lookups.message)
  }

  predicate PlausibleCourse(own: GatewayRequest, course: Course) {
    && PlausibleResult(Newcomer(own, Getting), course.net.primary)
    && PlausibleResult(Newcomer(own, Getting).(req := FailedOver(own)), course.net.secondary)
    && course.net.start <= course.net.middle <= course.net.end
  }

  lemma LookedUpIsReady(cfg: Config, v: Seen, own: GatewayRequest, similar: Option<GatewayResponse>, course: Course)
    requires v.r == Entered(own, similar) && v.breakers.Keys == cfg.providers && PlausibleCourse(own, course)
    ensures var v1 := LookedUp(cfg, v, course.lookups);
            var v2 := BeforeCalls(cfg, v, course.lookups);
            && (v1.r.pc == Waiting([]) || v1.r.pc.Attempt? || v1.r.pc.Finished?) && v1.r.own == own
            && (Unserved(cfg, v2) || v2.r.pc.Finished?)
            && PlausibleResult(v2.r, course.net.primary)
            && PlausibleResult(v2.r.(req := FailedOver(v2.r.own)), course.net.secondary)
            && v2.now == v.now
  {
  }

  lemma WaitedSeen(cfg: Config, s: State, rid: Rid, own: GatewayRequest, row: int, publisher: Rid, course: Course)
    requires rid !in s.requests && rid !in s.calls && Admitted(own) && MayCome(s.rows, own, row)
    requires s.breakers.Keys == cfg.providers && PlausibleCourse(own, course)
    requires publisher != rid && Brings(cfg, s, publisher, cfg.hash(own), course.lookups.message)
    ensures var v := View(s, Entered(own, Similar(s.rows, row)));
            var s2 := Run(cfg, Run(cfg, s, Entry(rid, own, row)), Lookup(rid, course.lookups));
            && Sees(Run(cfg, s2, Wait(rid, publisher, course.lookups.message)), rid,
                    BeforeCalls(cfg, v, course.lookups))
            && Brings(cfg, s2, publisher, cfg.hash(own), course.lookups.message)
  {
    var v := View(s, Entered(own, Similar(s.rows, row)));
    var s1 := Run(cfg, s, Entry(rid, own, row));
    EntryRun(cfg, s, rid, own, row);
    LookupRun(cfg, s1, rid, v, course.lookups);
    LookedUpIsReady(cfg, v, own, Similar(s.rows, row), course);
    StillBrings(cfg, s, rid, Entry(rid, own, row), publisher, cfg.hash(own), course.lookups.message);
    StillBrings(cfg, s1, rid, Lookup(rid, course.lookups), publisher, cfg.hash(own), course.lookups.message);
    WaitRun(cfg, Run(cfg, s1, Lookup(rid, course.lookups)), rid, LookedUp(cfg, v, course.lookups), publisher,
            course.lookups.message);
  }

  lemma ServingSeen(cfg: Config, s: State, rid: Rid, own: GatewayRequest, row: int, publisher: Rid, course: Course)
    returns (last: Seen)
    requires rid !in s.requests && rid !in s.calls && Admitted(own) && MayCome(s.rows, own, row)
    requires s.breakers.Keys == cfg.providers && course.net.start == s.now && PlausibleCourse(own, course)
    requires publisher != rid && Brings(cfg, s, publisher, cfg.hash(own), course.lookups.message)
    ensures Ended(cfg, Run(cfg, s, Serving(rid, own, row, publisher, course)), rid, last, course.background)
    ensures AtLast(cfg, BeforeCalls(cfg, View(s, Entered(own, Similar(s.rows, row))), course.lookups), last, course.net,
                   course.id, course.latency)
    ensures Heard(cfg, Waiters(s), s, Run(cfg, s, Serving(rid, own, row, publisher, course)),
                  Brought(cfg.hash(own), course.lookups.message) + RedisAfter(cfg, last, course.background).published)
  {
    var v := View(s, Entered(own, Similar(s.rows, row)));
    var attempts := BothAttempts(rid, course.net, course.id, course.latency);
    var wait := Wait(rid, publisher, course.lookups.message);
    RunOfSix(cfg, s, Entry(rid, own, row), Lookup(rid, course.lookups), wait, attempts,
             Publication(rid, course.background), [Store(rid, Executed(course.background.semantic))]);
    WaitedSeen(cfg, s, rid, own, row, publisher, course);
    var s2 := Run(cfg, Run(cfg, s, Entry(rid, own, row)), Lookup(rid, course.lookups));
    var s3 := Run(cfg, s2, wait);
    LookedUpIsReady(cfg, v, own, Similar(s.rows, row), course);
    last := AttemptsRun(cfg, s3, rid, BeforeCalls(cfg, v, course.lookups), course.net, course.id, course.latency);
    BackgroundRun(cfg, Run(cfg, s3, attempts), rid, last, course.background);
    LookupHeard(cfg, Waiters(s), s, rid, own, row, course.lookups);
    CallsHeard(cfg, Waiters(s), s2, rid, own, publisher, course);
    ServingHeard(cfg, Waiters(s), s, s2, Run(cfg, s3, attempts), rid, Brought(cfg.hash(own), course.lookups.message),
                 last, course.background);
  }

  // ---------------------------------------------------------------- what the other waiting requests hear

  /** The message that ends the wait of the call, as published by somebody else. */
  function Brought(k: Key, message: Option<GatewayResponse>): seq<Posting> {
    if message.Some? then [(k, message.value)] else []
  }

  lemma WaitHeard(cfg: Config, who: set<Rid>, s: State, rid: Rid, x: Rid, k: Key, message: Option<GatewayResponse>)
    requires who <= Waiters(s) && rid !in who && Brings(cfg, s, x, k, message)
    ensures Heard(cfg, who, s, Run(cfg, s, Wait(rid, x, message)), Brought(k, message))
  {
    if message.None? {
      HeardNothing(cfg, who, s, [GiveUp(rid)]);
    } else {
      HeardRun(cfg, who, s, [Publish(x, Replied), Receive(rid)]);
      SentByTwo(cfg, s, Publish(x, Replied), Receive(rid));
      assert SentBy(cfg, s, Publish(x, Replied)) == [(k, message.value)];
    }
  }

  lemma BackgroundHeard(cfg: Config, who: set<Rid>, s: State, rid: Rid, v: Seen, b: Background)
    requires who <= Waiters(s) && rid !in who && Sees(s, rid, v) && (v.r.pc.Finished? || At(s, rid, Setting))
    ensures Heard(cfg, who, s, Run(cfg, Run(cfg, s, Publication(rid, b)), [Store(rid, Executed(b.semantic))]),
                  RedisAfter(cfg, v, b).published)
  {
    var t := Run(cfg, s, Publication(rid, b));
    if v.r.pc.Finished? {
      PublicationSkipped(cfg, s, rid, b);
      HeardNothing(cfg, who, s, []);
    } else {
      Cache.SentByPublication(cfg, s, rid, b.stored, b.publish, b.del);
      HeardRun(cfg, who, s, Publication(rid, b));
    }
    HeardNothing(cfg, who, t, [Store(rid, Executed(b.semantic))]);
    HeardThen(cfg, who, s, t, Run(cfg, t, [Store(rid, Executed(b.semantic))]), RedisAfter(cfg, v, b).published, []);
    assert RedisAfter(cfg, v, b).published + [] == RedisAfter(cfg, v, b).published;
  }

  /** Up to the wait nothing is sent. */
  lemma LookupHeard(cfg: Config, who: set<Rid>, s: State, rid: Rid, own: GatewayRequest, row: int, lookups: Lookups)
    requires who <= Waiters(s) && rid !in who
    ensures Heard(cfg, who, s, Run(cfg, Run(cfg, s, Entry(rid, own, row)), Lookup(rid, lookups)), [])
  {
    var t := Run(cfg, s, Entry(rid, own, row));
    HeardNothing(cfg, who, s, Entry(rid, own, row));
    HeardNothing(cfg, who, t, Lookup(rid, lookups));
    HeardThen(cfg, who, s, t, Run(cfg, t, Lookup(rid, lookups)), [], []);
  }

  /** From the wait to the end of the attempts. */
  lemma CallsHeard(cfg: Config, who: set<Rid>, s: State, rid: Rid, own: GatewayRequest, publisher: Rid, course: Course)
    requires course.net.start <= course.net.middle <= course.net.end && who <= Waiters(s) && rid !in who
    requires Brings(cfg, s, publisher, cfg.hash(own), course.lookups.message)
    ensures Heard(cfg, who, s, Run(cfg, Run(cfg, s, Wait(rid, publisher, course.lookups.message)),
                                   BothAttempts(rid, course.net, course.id, course.latency)),
                  Brought(cfg.hash(own), course.lookups.message))
  {
    var brought := Brought(cfg.hash(own), course.lookups.message);
    var t := Run(cfg, s, Wait(rid, publisher, course.lookups.message));
    var attempts := BothAttempts(rid, course.net, course.id, course.latency);
    WaitHeard(cfg, who, s, rid, publisher, cfg.hash(own), course.lookups.message);
    HeardNothing(cfg, who, t, attempts);
    HeardThen(cfg, who, s, t, Run(cfg, t, attempts), brought, []);
    assert brought + [] == brought;
  }

  /** Through the whole call: the message that ends its wait, and what its background task publishes. */
  lemma ServingHeard(cfg: Config, who: set<Rid>, s: State, s2: State, s4: State, rid: Rid,
                     brought: seq<Posting>, v: Seen, b: Background)
    requires rid !in who && Heard(cfg, who, s, s2, []) && Heard(cfg, who, s2, s4, brought)
    requires Sees(s4, rid, v) && (v.r.pc.Finished? || At(s4, rid, Setting))
    ensures Heard(cfg, who, s, Run(cfg, Run(cfg, s4, Publication(rid, b)), [Store(rid, Executed(b.semantic))]),
                  brought + RedisAfter(cfg, v, b).published)
  {
    HeardThen(cfg, who, s, s2, s4, [], brought);
    assert [] + brought == brought;
    BackgroundHeard(cfg, who, s4, rid, v, b);
    HeardThen(cfg, who, s, s4, Run(cfg, Run(cfg, s4, Publication(rid, b)), [Store(rid, Executed(b.semantic))]),
              brought, RedisAfter(cfg, v, b).published);
  }

  // ---------------------------------------------------------------- what the handler makes of it

  /** What the log goroutine is started with, up to the latency, which the log of spends does not keep. */
  function LoggedAs(v: Seen): Option<GatewayResponse> {
    match v.r.outcome
    case SemanticHit(resp) => Some(resp)
    case Hit(resp) => Some(resp)
    case Fresh(resp) => Some(resp)
    case Streamed => if v.call.Some? then Some(StreamLog(v.r.req, v.call.value.resp.usage, 0)) else None
    case _ => None
  }

  /** The handler gives this answer, and leaves the world as the call sees it at last. */
  predicate Matches(cfg: Config, v: Seen, before: World, handled: (Outcome, World), course: Course) {
    && v.r.outcome == handled.0 && v.breakers == handled.1.breakers
    && RedisAfter(cfg, v, course.background).values == handled.1.redis.values
    && RedisAfter(cfg, v, course.background).locks == handled.1.redis.locks
    && before.redis.published + RedisAfter(cfg, v, course.background).published == handled.1.redis.published
    && RowsAfter(v, course.background) == handled.1.rows
    && Booked(before.db, LoggedAs(v), course.journal) == handled.1.db
  }

  predicate Shows(v: Seen, w: World) {
    v.breakers == w.breakers && v.values == w.redis.values && v.locks == w.redis.locks && v.rows == w.rows
  }

  /** An answer from a cache is left alone by everything after it. */
  lemma CachedMatches(cfg: Config, v: Seen, w: World, outcome: Outcome, resp: GatewayResponse, course: Course)
    requires v.r.pc.Finished? && v.r.outcome == outcome && Shows(v, w)
    requires outcome == Hit(resp) || outcome == SemanticHit(resp)
    ensures Matches(cfg, v.(now := course.net.end), w, (outcome, FromCache(w, resp, course.journal)), course)
  {
  }

  lemma MissMatches(cfg: Config, v: Seen, last: Seen, w: World, course: Course)
    requires !v.r.own.stream && Shows(v, w) && ServedSeen(cfg, v, last, course.net, course.id, course.latency)
    ensures Matches(cfg, last, w, AfterMiss(cfg.breaker, cfg.hash, w, v.r.own, course), course)
  {
  }

  lemma StreamMatches(cfg: Config, v: Seen, last: Seen, w: World, course: Course)
    requires v.r.own.stream && Shows(v, w) && ServedSeen(cfg, v, last, course.net, course.id, course.latency)
    ensures Matches(cfg, last, w, AfterStream(cfg.breaker, w, v.r.own, course), course)
  {
  }

  /** `v2` is what GetOrLock has made of `v`: answered, or past the lock. */
  predicate PastLookup(cfg: Config, v: Seen, v2: Seen, own: GatewayRequest, lookups: Lookups) {
    var entry := Cache.Enter(v.values, v.locks, cfg.hash(own), lookups.getFails, lookups.setnx);
    var handed := HandedOut(entry, lookups.message);
    && v2.breakers == v.breakers && v2.values == v.values && v2.rows == v.rows && v2.r.own == own
    && (handed.Some? ==> v2.r.pc.Finished? && v2.r.outcome == Hit(handed.value) && v2.locks == v.locks)
    && (handed.None? ==>
          && !v2.r.pc.Finished?
          && v2.locks == Cache.LocksAfterEnter(v.values, v.locks, cfg.hash(own), v.now, lookups.getFails,
                                               lookups.setnx))
  }

  lemma LookupLeaves(cfg: Config, v: Seen, own: GatewayRequest, lookups: Lookups)
    requires v.r == Newcomer(own, Getting)
    ensures PastLookup(cfg, v, BeforeCalls(cfg, v, lookups), own, lookups)
  {
  }

  lemma LookupMatches(cfg: Config, v: Seen, v2: Seen, last: Seen, w: World, own: GatewayRequest, course: Course)
    requires !own.stream && Shows(v, w) && course.net.start == v.now && PastLookup(cfg, v, v2, own, course.lookups)
    requires AtLast(cfg, v2, last, course.net, course.id, course.latency)
    ensures Matches(cfg, last, w, AfterLookup(cfg.breaker, cfg.hash, w, own, course), course)
  {
    var entry := Cache.Enter(v.values, v.locks, cfg.hash(own), course.lookups.getFails, course.lookups.setnx);
    var handed := HandedOut(entry, course.lookups.message);
    if handed.Some? {
      CachedMatches(cfg, v2, w, Hit(handed.value), handed.value, course);
    } else {
      MissMatches(cfg, v2, last, w.(redis := w.redis.(locks := v2.locks)), course);
    }
  }

  lemma HandledMatches(cfg: Config, v: Seen, last: Seen, w: World, own: GatewayRequest,
                       similar: Option<GatewayResponse>, course: Course)
    requires v.r == Entered(own, similar) && Shows(v, w) && course.net.start == v.now
    requires AtLast(cfg, BeforeCalls(cfg, v, course.lookups), last, course.net, course.id, course.latency)
    ensures Matches(cfg, last, w, Handled(cfg.breaker, cfg.hash, w, own, similar, course), course)
  {
    if own.stream {
      StreamMatches(cfg, v, last, w, course);
    } else if similar.Some? {
      CachedMatches(cfg, v, w, SemanticHit(similar.value), similar.value, course);
    } else {
      LookupLeaves(cfg, v, own, course.lookups);
      LookupMatches(cfg, v, BeforeCalls(cfg, v, course.lookups), last, w, own, course);
    }
  }

  // ---------------------------------------------------------------- the call and its log

  function Acts(run: seq<Event>): seq<Charges.Action> {
    if run == [] then [] else Acts(run[..|run| - 1]) + [Charges.Act(run[|run| - 1])]
  }

  /** Every step of a call, with its log goroutine at the end. */
  function CallRun(rid: Rid, own: GatewayRequest, row: int, publisher: Rid, course: Course): seq<Charges.Action>
    requires course.net.start <= course.net.middle <= course.net.end
  {
    Acts(Serving(rid, own, row, publisher, course)) + [Charges.InsertLog(rid, course.journal.reply)]
  }

  lemma AppliedExtends(cfg: Config, owner: Charges.Owner, run: seq<Charges.Action>, a: Charges.Action)
    ensures Charges.Applied(cfg, owner, run + [a]) == Charges.Apply(cfg, owner, Charges.Applied(cfg, owner, run), a)
  {
    assert (run + [a])[..|run + [a]| - 1] == run;
  }

  lemma {:induction false} ActsApplied(cfg: Config, owner: Charges.Owner, first: seq<Charges.Action>, run: seq<Event>)
    ensures var l := Charges.Applied(cfg, owner, first);
            Charges.Applied(cfg, owner, first + Acts(run)) == l.(gateway := Run(cfg, l.gateway, run))
  {
    if run == [] {
      assert first + [] == first;
    } else {
      var before, a := run[..|run| - 1], Charges.Act(run[|run| - 1]);
      ActsApplied(cfg, owner, first, before);
      assert first + Acts(run) == first + Acts(before) + [a];
      AppliedExtends(cfg, owner, first + Acts(before), a);
    }
  }

  function WorldOf(l: Charges.Ledger, published: seq<Posting>): World {
    World(l.gateway.breakers, Cache.Redis(l.gateway.values, l.gateway.locks, published), l.gateway.rows, l.db)
  }

  /**
    The request has got this answer and the shared state is this world.  Of its messages, whoever was waiting before
    the call has received those of the own channel, in order, and no others.
   */
  predicate Leaves(cfg: Config, before: State, l: Charges.Ledger, rid: Rid, handled: (Outcome, World)) {
    && rid in l.gateway.requests && l.gateway.requests[rid].pc.Finished?
    && l.gateway.requests[rid].outcome == handled.0
    && WorldOf(l, handled.1.redis.published) == handled.1
    && Heard(cfg, Waiters(before), before, l.gateway, handled.1.redis.published)
  }

  /** The log goroutine of a call that has ended inserts what the handler logs. */
  lemma InsertLeaves(cfg: Config, owner: Charges.Owner, s: State, l: Charges.Ledger, rid: Rid, v: Seen, before: World,
                     handled: (Outcome, World), course: Course)
    requires Ended(cfg, l.gateway, rid, v, course.background) && Matches(cfg, v, before, handled, course)
    requires Heard(cfg, Waiters(s), s, l.gateway,
                   before.redis.published + RedisAfter(cfg, v, course.background).published)
    requires rid !in l.done && l.db == before.db
    requires course.journal.apiKey == owner(rid) && course.journal.at == v.now / 1_000_000
    ensures Leaves(cfg, s, Charges.Apply(cfg, owner, l, Charges.InsertLog(rid, course.journal.reply)), rid, handled)
  {
  }

  lemma NewIsUnknown(cfg: Config, owner: Charges.Owner, first: seq<Charges.Action>, rid: Rid)
    requires rid !in Charges.Applied(cfg, owner, first).gateway.requests
    ensures var l := Charges.Applied(cfg, owner, first);
            rid !in l.gateway.calls && rid !in l.done && l.gateway.breakers.Keys == cfg.providers
  {
    Charges.LedgerKept(cfg, owner, first);
    Charges.DoneAreAnswered(cfg, owner, first);
    Charges.GatewayRuns(cfg, owner, first);
    Failover.CallsConserved(cfg, Charges.Steps(first));
  }

  /** The call and its log goroutine from one state. */
  lemma CallLeaves(cfg: Config, owner: Charges.Owner, l: Charges.Ledger, rid: Rid, own: GatewayRequest, row: int,
                   publisher: Rid, course: Course)
    requires rid !in l.gateway.requests && rid !in l.gateway.calls && rid !in l.done
    requires l.gateway.breakers.Keys == cfg.providers && MayCome(l.gateway.rows, own, row)
    requires publisher != rid && Brings(cfg, l.gateway, publisher, cfg.hash(own), course.lookups.message)
    requires Admitted(own) && PlausibleCourse(own, course) && course.net.start == l.gateway.now
    requires course.journal.apiKey == owner(rid) && course.journal.at == course.net.end / 1_000_000
    ensures var l' := l.(gateway := Run(cfg, l.gateway, Serving(rid, own, row, publisher, course)));
            var brought := Brought(cfg.hash(own), course.lookups.message);
            Leaves(cfg, l.gateway, Charges.Apply(cfg, owner, l', Charges.InsertLog(rid, course.journal.reply)), rid,
                   Handled(cfg.breaker, cfg.hash, WorldOf(l, brought), own, Similar(l.gateway.rows, row), course))
  {
    var w := WorldOf(l, Brought(cfg.hash(own), course.lookups.message));
    var similar := Similar(l.gateway.rows, row);
    var v := View(l.gateway, Entered(own, similar));
    var last := ServingSeen(cfg, l.gateway, rid, own, row, publisher, course);
    HandledMatches(cfg, v, last, w, own, similar, course);
    InsertLeaves(cfg, owner, l.gateway, l.(gateway := Run(cfg, l.gateway, Serving(rid, own, row, publisher, course))),
                 rid, last, w, Handled(cfg.breaker, cfg.hash, w, own, similar, course), course);
  }

  /**
    After any run, a ServeHTTP call with nothing else in between but the message that ends its wait, if it gets
    one, is a run of the machine and its log: it gives the answer and leaves the world that `Handled` says, and the
    requests that were waiting have heard what that world has published, the message that ended the wait included.
   */
  lemma ServeHTTPIsARun(cfg: Config, owner: Charges.Owner, first: seq<Charges.Action>, rid: Rid, own: GatewayRequest,
                        row: int, publisher: Rid, course: Course)
    requires var s := Charges.Applied(cfg, owner, first).gateway;
             && rid !in s.requests && MayCome(s.rows, own, row) && course.net.start == s.now
             && publisher != rid && Brings(cfg, s, publisher, cfg.hash(own), course.lookups.message)
    requires Admitted(own) && PlausibleCourse(own, course)
    requires course.journal.apiKey == owner(rid) && course.journal.at == course.net.end / 1_000_000
    ensures var l := Charges.Applied(cfg, owner, first);
            var brought := Brought(cfg.hash(own), course.lookups.message);
            Leaves(cfg, l.gateway, Charges.Applied(cfg, owner, first + CallRun(rid, own, row, publisher, course)), rid,
                   Handled(cfg.breaker, cfg.hash, WorldOf(l, brought), own, Similar(l.gateway.rows, row), course))
  {
    var serving := Acts(Serving(rid, own, row, publisher, course));
    NewIsUnknown(cfg, owner, first, rid);
    CallLeaves(cfg, owner, Charges.Applied(cfg, owner, first), rid, own, row, publisher, course);
    ActsApplied(cfg, owner, first, Serving(rid, own, row, publisher, course));
    AppliedExtends(cfg, owner, first + serving, Charges.InsertLog(rid, course.journal.reply));
    assert first + CallRun(rid, own, row, publisher, course) ==
           first + serving + [Charges.InsertLog(rid, course.journal.reply)];
  }
}
