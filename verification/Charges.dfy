/**
  The request log against what was paid to providers: the gateway machine together with the goroutines of
  logAsync in internal/proxy/handler.go and the table they insert into.

  Every answer is logged with the price it carries.  A cached copy keeps the price of the call it was made by,
  and a stream carries none, because no usage comes back from it.
 */
module Charges {
  import opened Models
  import opened Gateway
  import opened Failover
  import opened Crosstalk
  import Breaker
  import Handler
  import Spend

  /** The API key of each request. */
  type Owner = Rid -> Spend.ApiKey

  /** `done` holds the requests whose log goroutine is through, and whether it left a row. */
  datatype Ledger = Ledger(gateway: State, db: Spend.Db, done: map<Rid, bool>)

  datatype Action = Act(step: Event) | InsertLog(rid: Rid, reply: Reply)

  /** What logAsync is started with: any answer but an error. */
  function Logged(s: State, rid: Rid): Option<GatewayResponse> {
    if rid !in s.requests then None else
    match s.requests[rid].outcome
    case SemanticHit(resp) => Some(resp)
    case Hit(resp) => Some(resp)
    case Fresh(resp) => Some(resp)
    case Streamed =>
      if rid in s.calls then Some(Handler.StreamLog(s.requests[rid].req, s.calls[rid].resp.usage, 0)) else None
    case _ => None
  }

  /** The row for the answer, stamped by the database. */
  function RowOf(s: State, rid: Rid, owner: Owner): Spend.Log
    requires Logged(s, rid).Some?
  {
    Handler.RowFor(owner(rid), Logged(s, rid).value, s.now / 1_000_000)
  }

  function Start(cfg: Config): Ledger { Ledger(Gateway.Start(cfg), Spend.EMPTY_DB, map[]) }

  /** A goroutine inserts once, when its request has been answered. */
  predicate MayInsert(l: Ledger, rid: Rid) { rid !in l.done && Logged(l.gateway, rid).Some? }

  function Apply(cfg: Config, owner: Owner, l: Ledger, a: Action): Ledger {
    match a
    case Act(e) => l.(gateway := Advance(cfg, l.gateway, e))
    case InsertLog(rid, reply) =>
      if !MayInsert(l, rid) then l else
      var row := RowOf(l.gateway, rid, owner);
      if Executed(reply)
      then l.(db := Spend.Inserted(l.db, row), done := l.done[rid := Spend.Accepted(row)])
      else l.(done := l.done[rid := false])
  }

  function Applied(cfg: Config, owner: Owner, run: seq<Action>): Ledger {
    if run == [] then Start(cfg) else Apply(cfg, owner, Applied(cfg, owner, run[..|run| - 1]), run[|run| - 1])
  }

  // ---------------------------------------------------------------- amounts

  /** The price that the answer to a request carries into the log. */
  function Price(s: State, rid: Rid): nat {
    var logged := Logged(s, rid);
    if logged.Some? then Spend.Micros(logged.value.costUsd) else 0
  }

  /** What was paid for the request, at the resolution of the log.  A call that ends in an error is taken as free. */
  function Paid(s: State, rid: Rid): nat { if rid in s.calls then Spend.Micros(s.calls[rid].resp.costUsd) else 0 }

  /** What was paid for a finished stream. */
  function Unmetered(s: State, rid: Rid): nat { if rid in s.calls && s.calls[rid].req.stream then Paid(s, rid) else 0 }

  predicate FromCache(s: State, rid: Rid) {
    rid in s.requests && (s.requests[rid].outcome.Hit? || s.requests[rid].outcome.SemanticHit?)
  }

  /** The price of an answer from a cache, for which nobody was paid. */
  function Recharged(s: State, rid: Rid): nat { if FromCache(s, rid) then Price(s, rid) else 0 }

  function Recorded(l: Ledger, rid: Rid): nat { if rid in l.done && l.done[rid] then Price(l.gateway, rid) else 0 }

  /** The insert failed, or the table refused the row. */
  function Lost(l: Ledger, rid: Rid): nat { if rid in l.done && !l.done[rid] then Price(l.gateway, rid) else 0 }

  function Pending(l: Ledger, rid: Rid): nat { if rid in l.done then 0 else Price(l.gateway, rid) }

  /** The sum over the requests of one API key numbered below `n`. */
  function Total(amount: Rid -> nat, owner: Owner, k: Spend.ApiKey, n: nat): nat {
    if n == 0 then 0 else Total(amount, owner, k, n - 1) + if owner(n - 1) == k then amount(n - 1) else 0
  }

  function TotalPaid(l: Ledger, owner: Owner, k: Spend.ApiKey, n: nat): nat {
    Total((x: Rid) => Paid(l.gateway, x), owner, k, n)
  }

  function TotalRecharged(l: Ledger, owner: Owner, k: Spend.ApiKey, n: nat): nat {
    Total((x: Rid) => Recharged(l.gateway, x), owner, k, n)
  }

  function TotalRecorded(l: Ledger, owner: Owner, k: Spend.ApiKey, n: nat): nat {
    Total((x: Rid) => Recorded(l, x), owner, k, n)
  }

  function TotalLost(l: Ledger, owner: Owner, k: Spend.ApiKey, n: nat): nat {
    Total((x: Rid) => Lost(l, x), owner, k, n)
  }

  function TotalPending(l: Ledger, owner: Owner, k: Spend.ApiKey, n: nat): nat {
    Total((x: Rid) => Pending(l, x), owner, k, n)
  }

  function TotalUnmetered(l: Ledger, owner: Owner, k: Spend.ApiKey, n: nat): nat {
    Total((x: Rid) => Unmetered(l.gateway, x), owner, k, n)
  }

  /** What the log charges to a key: the sum that the budget check is made with, over all days. */
  function Charged(l: Ledger, k: Spend.ApiKey): nat { Spend.SumSince(l.db.logs, k, 0) }

  predicate AllBelow(s: State, n: nat) { forall x | x in s.requests :: x < n }

  lemma {:induction false} TotalSame(f: Rid -> nat, g: Rid -> nat, owner: Owner, k: Spend.ApiKey, n: nat)
    requires forall x: Rid | x < n :: f(x) == g(x)
    ensures Total(f, owner, k, n) == Total(g, owner, k, n)
  {
    if n > 0 {
      TotalSame(f, g, owner, k, n - 1);
    }
  }

  lemma {:induction false} TotalZero(f: Rid -> nat, owner: Owner, k: Spend.ApiKey, n: nat)
    requires forall x: Rid | x < n :: f(x) == 0
    ensures Total(f, owner, k, n) == 0
  {
    if n > 0 {
      TotalZero(f, owner, k, n - 1);
    }
  }

  lemma {:induction false} TotalChanges(f: Rid -> nat, g: Rid -> nat, owner: Owner, k: Spend.ApiKey, n: nat, x: Rid,
                                        more: nat)
    requires forall y: Rid | y < n && y != x :: g(y) == f(y)
    requires g(x) == f(x) + more
    ensures Total(g, owner, k, n) == Total(f, owner, k, n) + if x < n && owner(x) == k then more else 0
  {
    if n > 0 {
      TotalChanges(f, g, owner, k, n - 1, x, more);
    }
  }

  // ---------------------------------------------------------------- an answer stays what it is

  lemma ActorStays(cfg: Config, s: State, e: Event)
    requires Enabled(s, e) && IsAct(e) && e.rid in s.requests
    requires Shape(cfg, s.requests[e.rid]) && !s.requests[e.rid].outcome.Unanswered?
    ensures Next(cfg, s, e).outcome == s.requests[e.rid].outcome && Next(cfg, s, e).req == s.requests[e.rid].req
    ensures !e.Succeed?
  {
  }

  lemma AnswerStays(cfg: Config, s: State, e: Event, x: Rid)
    requires Enabled(s, e) && x in s.requests && Shape(cfg, s.requests[x]) && !s.requests[x].outcome.Unanswered?
    ensures x in NextRequests(cfg, s, e)
    ensures NextRequests(cfg, s, e)[x].outcome == s.requests[x].outcome
    ensures NextRequests(cfg, s, e)[x].req == s.requests[x].req
    ensures x in s.calls ==> x in NextCalls(s, e) && NextCalls(s, e)[x] == s.calls[x]
  {
    if Acts(e, x) {
      ActorStays(cfg, s, e);
    } else {
      BystanderStays(cfg, s, e, s.requests[x]);
    }
  }

  lemma BystanderStays(cfg: Config, s: State, e: Event, r: Request)
    requires Enabled(s, e)
    ensures Bystander(cfg, s, e, r).outcome == r.outcome && Bystander(cfg, s, e, r).req == r.req
  {
  }

  lemma LoggedStays(cfg: Config, s: State, e: Event, x: Rid)
    requires AllKept(cfg, s.requests, s.calls) && Logged(s, x).Some?
    ensures Logged(Advance(cfg, s, e), x) == Logged(s, x)
  {
    assert Kept(cfg, s.calls, x, s.requests[x]);
    if Enabled(s, e) {
      AnswerStays(cfg, s, e, x);
    }
  }

  /** The gateway steps among the actions. */
  function Steps(run: seq<Action>): seq<Event> {
    if run == [] then [] else
    var a := run[|run| - 1];
    Steps(run[..|run| - 1]) + if a.Act? then [a.step] else []
  }

  lemma {:induction false} GatewayRuns(cfg: Config, owner: Owner, run: seq<Action>)
    ensures Applied(cfg, owner, run).gateway == Run(cfg, Gateway.Start(cfg), Steps(run))
  {
    if run != [] {
      GatewayRuns(cfg, owner, run[..|run| - 1]);
      var a := run[|run| - 1];
      if !a.Act? {
        assert Steps(run[..|run| - 1]) + [] == Steps(run[..|run| - 1]);
      }
    }
  }

  lemma LedgerKept(cfg: Config, owner: Owner, run: seq<Action>)
    ensures var s := Applied(cfg, owner, run).gateway; AllKept(cfg, s.requests, s.calls)
  {
    GatewayRuns(cfg, owner, run);
    KeptRun(cfg, Steps(run));
  }

  /** Only answered requests are through with their log. */
  predicate AllAnswered(l: Ledger) { forall x | x in l.done :: Logged(l.gateway, x).Some? }

  lemma {:induction false} DoneAreAnswered(cfg: Config, owner: Owner, run: seq<Action>)
    ensures AllAnswered(Applied(cfg, owner, run))
  {
    if run != [] {
      var l, a := Applied(cfg, owner, run[..|run| - 1]), run[|run| - 1];
      DoneAreAnswered(cfg, owner, run[..|run| - 1]);
      LedgerKept(cfg, owner, run[..|run| - 1]);
      if a.Act? {
        forall x | x in l.done ensures Logged(Advance(cfg, l.gateway, a.step), x).Some? {
          LoggedStays(cfg, l.gateway, a.step, x);
        }
      }
    }
  }

  // ---------------------------------------------------------------- the log

  lemma RequestsStay(cfg: Config, owner: Owner, l: Ledger, a: Action, n: nat)
    requires AllBelow(Apply(cfg, owner, l, a).gateway, n)
    ensures AllBelow(l.gateway, n)
  {
    forall x | x in l.gateway.requests ensures x < n {
      if a.Act? && Enabled(l.gateway, a.step) {
        assert x in NextRequests(cfg, l.gateway, a.step);
      }
      assert x in Apply(cfg, owner, l, a).gateway.requests;
    }
  }

  lemma RecordedStep(cfg: Config, owner: Owner, l: Ledger, e: Event, k: Spend.ApiKey, n: nat)
    requires AllKept(cfg, l.gateway.requests, l.gateway.calls) && AllAnswered(l)
    ensures TotalRecorded(Apply(cfg, owner, l, Act(e)), owner, k, n) == TotalRecorded(l, owner, k, n)
  {
    var l' := Apply(cfg, owner, l, Act(e));
    forall x: Rid ensures Recorded(l', x) == Recorded(l, x) {
      if x in l.done {
        LoggedStays(cfg, l.gateway, e, x);
      }
    }
    TotalSame((x: Rid) => Recorded(l', x), (x: Rid) => Recorded(l, x), owner, k, n);
  }

  /** What the insert adds to the log: the price of a row that is received and accepted. */
  lemma InsertCharges(cfg: Config, owner: Owner, l: Ledger, rid: Rid, reply: Reply, k: Spend.ApiKey)
    requires MayInsert(l, rid)
    ensures var l' := Apply(cfg, owner, l, InsertLog(rid, reply));
            Charged(l', k) == Charged(l, k) + if owner(rid) == k then Recorded(l', rid) else 0
  {
  }

  lemma InsertTotals(cfg: Config, owner: Owner, l: Ledger, rid: Rid, reply: Reply, k: Spend.ApiKey, n: nat)
    requires MayInsert(l, rid) && rid < n
    ensures var l' := Apply(cfg, owner, l, InsertLog(rid, reply));
            TotalRecorded(l', owner, k, n) ==
            TotalRecorded(l, owner, k, n) + if owner(rid) == k then Recorded(l', rid) else 0
  {
    var l' := Apply(cfg, owner, l, InsertLog(rid, reply));
    TotalChanges((x: Rid) => Recorded(l, x), (x: Rid) => Recorded(l', x), owner, k, n, rid, Recorded(l', rid));
  }

  lemma InsertRecorded(cfg: Config, owner: Owner, l: Ledger, rid: Rid, reply: Reply, k: Spend.ApiKey, n: nat)
    requires AllBelow(l.gateway, n)
    ensures var l' := Apply(cfg, owner, l, InsertLog(rid, reply));
            Charged(l', k) - TotalRecorded(l', owner, k, n) == Charged(l, k) - TotalRecorded(l, owner, k, n)
  {
    if MayInsert(l, rid) {
      InsertCharges(cfg, owner, l, rid, reply, k);
      InsertTotals(cfg, owner, l, rid, reply, k, n);
    }
  }

  lemma {:induction false} LogIsRecorded(cfg: Config, owner: Owner, run: seq<Action>, k: Spend.ApiKey, n: nat)
    requires AllBelow(Applied(cfg, owner, run).gateway, n)
    ensures var l := Applied(cfg, owner, run); Charged(l, k) == TotalRecorded(l, owner, k, n)
  {
    if run == [] {
      var l := Start(cfg);
      TotalZero((x: Rid) => Recorded(l, x), owner, k, n);
    } else {
      var l, a := Applied(cfg, owner, run[..|run| - 1]), run[|run| - 1];
      RequestsStay(cfg, owner, l, a, n);
      LogIsRecorded(cfg, owner, run[..|run| - 1], k, n);
      match a {
        case Act(e) =>
          LedgerKept(cfg, owner, run[..|run| - 1]);
          DoneAreAnswered(cfg, owner, run[..|run| - 1]);
          RecordedStep(cfg, owner, l, e, k, n);
        case InsertLog(rid, reply) => InsertRecorded(cfg, owner, l, rid, reply, k, n);
      }
    }
  }

  // ---------------------------------------------------------------- the balance

  lemma PriceOfOne(cfg: Config, calls: map<Rid, Call>, rid: Rid, r: Request)
    requires Kept(cfg, calls, rid, r)
    ensures r.outcome.Fresh? ==>
              rid in calls && !calls[rid].req.stream && r.outcome.resp.costUsd == calls[rid].resp.costUsd
    ensures r.outcome.Streamed? ==>
              && rid in calls && calls[rid].req.stream
              && Handler.StreamLog(r.req, calls[rid].resp.usage, 0).costUsd == 0.0
    ensures rid in calls ==> r.outcome.Fresh? || r.outcome.Streamed?
  {
  }

  /**
    An answer carries the price of the call made for it, or that of the call its copy was made by, or, if it is a
    stream, none at all.
   */
  lemma PriceSplits(cfg: Config, s: State, rid: Rid)
    requires AllKept(cfg, s.requests, s.calls)
    ensures Price(s, rid) + Unmetered(s, rid) == Paid(s, rid) + Recharged(s, rid)
    ensures rid in s.requests && s.requests[rid].outcome.Streamed? ==> Price(s, rid) == 0
  {
    if rid in s.requests {
      PriceOfOne(cfg, s.calls, rid, s.requests[rid]);
    }
  }

  lemma {:induction false} TotalsAdd(f: seq<Rid -> nat>, owner: Owner, k: Spend.ApiKey, n: nat)
    requires |f| == 6 && forall x: Rid | x < n :: f[0](x) + f[1](x) + f[2](x) + f[3](x) == f[4](x) + f[5](x)
    ensures Total(f[0], owner, k, n) + Total(f[1], owner, k, n) + Total(f[2], owner, k, n) + Total(f[3], owner, k, n) ==
            Total(f[4], owner, k, n) + Total(f[5], owner, k, n)
  {
    if n > 0 {
      TotalsAdd(f, owner, k, n - 1);
    }
  }

  lemma TotalsBalance(cfg: Config, owner: Owner, l: Ledger, k: Spend.ApiKey, n: nat)
    requires AllKept(cfg, l.gateway.requests, l.gateway.calls)
    ensures TotalRecorded(l, owner, k, n) + TotalLost(l, owner, k, n) + TotalPending(l, owner, k, n) +
            TotalUnmetered(l, owner, k, n) ==
            TotalPaid(l, owner, k, n) + TotalRecharged(l, owner, k, n)
  {
    forall x: Rid | x < n
      ensures Recorded(l, x) + Lost(l, x) + Pending(l, x) + Unmetered(l.gateway, x) ==
              Paid(l.gateway, x) + Recharged(l.gateway, x)
    {
      PriceSplits(cfg, l.gateway, x);
    }
    TotalsAdd([(x: Rid) => Recorded(l, x), (x: Rid) => Lost(l, x), (x: Rid) => Pending(l, x),
               (x: Rid) => Unmetered(l.gateway, x),
               (x: Rid) => Paid(l.gateway, x), (x: Rid) => Recharged(l.gateway, x)], owner, k, n);
  }

  /**
    In every run the log charges a key what was paid for its requests, plus once more the price of every answer
    it got from a cache, less what was paid for streams, what was lost by failed and refused inserts, and what is
    still to be inserted.
   */
  lemma LedgerBalances(cfg: Config, owner: Owner, run: seq<Action>, k: Spend.ApiKey, n: nat)
    requires AllBelow(Applied(cfg, owner, run).gateway, n)
    ensures var l := Applied(cfg, owner, run);
            Charged(l, k) + TotalLost(l, owner, k, n) + TotalPending(l, owner, k, n) + TotalUnmetered(l, owner, k, n) ==
            TotalPaid(l, owner, k, n) + TotalRecharged(l, owner, k, n)
  {
    LogIsRecorded(cfg, owner, run, k, n);
    LedgerKept(cfg, owner, run);
    TotalsBalance(cfg, owner, Applied(cfg, owner, run), k, n);
  }

  ghost predicate CostsACall(s: State, rid: Rid) {
    exists c | c in s.calls :: Recharged(s, rid) == Spend.Micros(s.calls[c].resp.costUsd)
  }

  /** An answer from a cache is charged the full price of the call its copy was made by. */
  lemma HitCostsItsCall(cfg: Config, run: seq<Event>, rid: Rid)
    requires FromCache(Run(cfg, Gateway.Start(cfg), run), rid)
    ensures CostsACall(Run(cfg, Gateway.Start(cfg), run), rid)
  {
    NothingCrosses(cfg, run);
  }

  // ---------------------------------------------------------------- when the log is exact

  /**
    What may happen: a cached answer that is not free, an insert that fails, a row that the table refuses, and a
    stream that costs something.
   */
  datatype Env = Env(pricedHits: bool, lostInserts: bool, refusals: bool, paidStreams: bool)

  predicate Priced(resp: GatewayResponse) { Spend.Micros(resp.costUsd) > 0 }

  predicate HandsOutPriced(cfg: Config, s: State, e: Event) {
    && Enabled(s, e)
    && match e
       case FindSimilar(_, row) => row >= 0 && Priced(s.rows[row].payload)
       case Get(rid, fails) =>
         var k := cfg.hash(s.requests[rid].req);
         !fails && k in s.values && Priced(s.values[k])
       case Receive(rid) => Priced(s.requests[rid].pc.inbox[0])
       case _ => false
  }

  predicate BillsStream(s: State, e: Event) {
    e.Succeed? && Enabled(s, e) && s.requests[e.rid].own.stream && Priced(e.resp)
  }

  predicate Permitted(env: Env, cfg: Config, owner: Owner, l: Ledger, a: Action) {
    match a
    case Act(e) =>
      (HandsOutPriced(cfg, l.gateway, e) ==> env.pricedHits) && (BillsStream(l.gateway, e) ==> env.paidStreams)
    case InsertLog(rid, reply) =>
      MayInsert(l, rid) && Price(l.gateway, rid) > 0 ==>
        && (!Executed(reply) ==> env.lostInserts)
        && (Executed(reply) && !Spend.Accepted(RowOf(l.gateway, rid, owner)) ==> env.refusals)
  }

  predicate Within(env: Env, cfg: Config, owner: Owner, run: seq<Action>) {
    run == [] ||
    (Within(env, cfg, owner, run[..|run| - 1]) &&
     Permitted(env, cfg, owner, Applied(cfg, owner, run[..|run| - 1]), run[|run| - 1]))
  }

  /** Every log goroutine that was started is through. */
  predicate AllLogged(l: Ledger) { forall x | x in l.gateway.requests && Logged(l.gateway, x).Some? :: x in l.done }

  /** In every run whose logs are written the log charges every key exactly what was paid for it. */
  ghost predicate LogExact(env: Env) {
    forall cfg: Config, owner: Owner, run: seq<Action>, k: Spend.ApiKey, n: nat ::
      var l := Applied(cfg, owner, run);
      Within(env, cfg, owner, run) && AllBelow(l.gateway, n) && AllLogged(l) ==>
        Charged(l, k) == TotalPaid(l, owner, k, n)
  }

  predicate FreeIfCached(o: Outcome) { o.Hit? || o.SemanticHit? ==> !Priced(o.resp) }

  ghost predicate HitsFree(s: State) { forall x | x in s.requests :: FreeIfCached(s.requests[x].outcome) }

  lemma ActorFree(cfg: Config, s: State, e: Event)
    requires Enabled(s, e) && IsAct(e) && !HandsOutPriced(cfg, s, e)
    requires e.rid in s.requests ==> FreeIfCached(s.requests[e.rid].outcome)
    ensures FreeIfCached(Next(cfg, s, e).outcome)
  {
  }

  lemma HitStep(cfg: Config, s: State, e: Event, x: Rid)
    requires Enabled(s, e) && !HandsOutPriced(cfg, s, e) && x in NextRequests(cfg, s, e)
    requires x in s.requests ==> FreeIfCached(s.requests[x].outcome)
    ensures FreeIfCached(NextRequests(cfg, s, e)[x].outcome)
  {
    if Acts(e, x) {
      ActorFree(cfg, s, e);
    }
  }

  lemma {:induction false} HitsStayFree(env: Env, cfg: Config, owner: Owner, run: seq<Action>)
    requires Within(env, cfg, owner, run) && !env.pricedHits
    ensures HitsFree(Applied(cfg, owner, run).gateway)
  {
    if run != [] {
      var l, a := Applied(cfg, owner, run[..|run| - 1]), run[|run| - 1];
      HitsStayFree(env, cfg, owner, run[..|run| - 1]);
      if a.Act? && Enabled(l.gateway, a.step) {
        forall x | x in NextRequests(cfg, l.gateway, a.step)
          ensures FreeIfCached(NextRequests(cfg, l.gateway, a.step)[x].outcome)
        {
          HitStep(cfg, l.gateway, a.step, x);
        }
      }
    }
  }

  ghost predicate StreamsFree(calls: map<Rid, Call>) {
    forall c | c in calls :: calls[c].req.stream ==> !Priced(calls[c].resp)
  }

  lemma StreamsFreeStep(cfg: Config, s: State, e: Event)
    requires Enabled(s, e) && !BillsStream(s, e) && StreamsFree(s.calls)
    requires e.Succeed? ==> Shape(cfg, s.requests[e.rid])
    ensures StreamsFree(NextCalls(s, e))
  {
  }

  lemma {:induction false} StreamsStayFree(env: Env, cfg: Config, owner: Owner, run: seq<Action>)
    requires Within(env, cfg, owner, run) && !env.paidStreams
    ensures StreamsFree(Applied(cfg, owner, run).gateway.calls)
  {
    if run != [] {
      var l, a := Applied(cfg, owner, run[..|run| - 1]), run[|run| - 1];
      StreamsStayFree(env, cfg, owner, run[..|run| - 1]);
      LedgerKept(cfg, owner, run[..|run| - 1]);
      if a.Act? && Enabled(l.gateway, a.step) {
        StreamsFreeStep(cfg, l.gateway, a.step);
      }
    }
  }

  ghost predicate NothingLost(l: Ledger) { forall x: Rid :: Lost(l, x) == 0 }

  lemma LostStep(env: Env, cfg: Config, owner: Owner, l: Ledger, a: Action, x: Rid)
    requires Permitted(env, cfg, owner, l, a) && !env.lostInserts && !env.refusals && Lost(l, x) == 0
    requires AllKept(cfg, l.gateway.requests, l.gateway.calls) && AllAnswered(l)
    ensures Lost(Apply(cfg, owner, l, a), x) == 0
  {
    if a.Act? && x in l.done {
      LoggedStays(cfg, l.gateway, a.step, x);
    }
  }

  lemma {:induction false} NothingGetsLost(env: Env, cfg: Config, owner: Owner, run: seq<Action>)
    requires Within(env, cfg, owner, run) && !env.lostInserts && !env.refusals
    ensures NothingLost(Applied(cfg, owner, run))
  {
    if run != [] {
      var l, a := Applied(cfg, owner, run[..|run| - 1]), run[|run| - 1];
      NothingGetsLost(env, cfg, owner, run[..|run| - 1]);
      LedgerKept(cfg, owner, run[..|run| - 1]);
      DoneAreAnswered(cfg, owner, run[..|run| - 1]);
      forall x: Rid ensures Lost(Apply(cfg, owner, l, a), x) == 0 {
        assert Lost(l, x) == 0;
        LostStep(env, cfg, owner, l, a, x);
      }
    }
  }

  lemma NothingPending(l: Ledger, owner: Owner, k: Spend.ApiKey, n: nat)
    requires AllLogged(l)
    ensures TotalPending(l, owner, k, n) == 0
  {
    TotalZero((x: Rid) => Pending(l, x), owner, k, n);
  }

  lemma QuietLogIsExact(env: Env, cfg: Config, owner: Owner, run: seq<Action>, k: Spend.ApiKey, n: nat)
    requires !env.pricedHits && !env.lostInserts && !env.refusals && !env.paidStreams && Within(env, cfg, owner, run)
    requires var l := Applied(cfg, owner, run); AllBelow(l.gateway, n) && AllLogged(l)
    ensures var l := Applied(cfg, owner, run); Charged(l, k) == TotalPaid(l, owner, k, n)
  {
    var l := Applied(cfg, owner, run);
    LedgerBalances(cfg, owner, run, k, n);
    NothingPending(l, owner, k, n);
    NothingGetsLost(env, cfg, owner, run);
    TotalZero((x: Rid) => Lost(l, x), owner, k, n);
    HitsStayFree(env, cfg, owner, run);
    TotalZero((x: Rid) => Recharged(l.gateway, x), owner, k, n);
    StreamsStayFree(env, cfg, owner, run);
    TotalZero((x: Rid) => Unmetered(l.gateway, x), owner, k, n);
  }

  // ---------------------------------------------------------------- runs that are off

  ghost predicate Reachable(env: Env, cfg: Config, owner: Owner, l: Ledger) {
    exists run :: Within(env, cfg, owner, run) && Applied(cfg, owner, run) == l
  }

  lemma Take(env: Env, cfg: Config, owner: Owner, l: Ledger, a: Action)
    requires Reachable(env, cfg, owner, l) && Permitted(env, cfg, owner, l, a)
    ensures Reachable(env, cfg, owner, Apply(cfg, owner, l, a))
  {
    var run :| Within(env, cfg, owner, run) && Applied(cfg, owner, run) == l;
    assert (run + [a])[..|run + [a]| - 1] == run;
    assert Within(env, cfg, owner, run + [a]) && Applied(cfg, owner, run + [a]) == Apply(cfg, owner, l, a);
  }

  /** What is lost or not metered and what is charged again would have to cancel. */
  lemma Unbalanced(env: Env, cfg: Config, owner: Owner, l: Ledger, k: Spend.ApiKey, n: nat)
    requires Reachable(env, cfg, owner, l) && AllBelow(l.gateway, n) && AllLogged(l)
    requires TotalLost(l, owner, k, n) + TotalUnmetered(l, owner, k, n) != TotalRecharged(l, owner, k, n)
    ensures !LogExact(env)
  {
    var run :| Within(env, cfg, owner, run) && Applied(cfg, owner, run) == l;
    LedgerBalances(cfg, owner, run, k, n);
    NothingPending(l, owner, k, n);
    assert Charged(l, k) != TotalPaid(l, owner, k, n);
  }

  /** A gateway with one provider. */
  function Only(p: string): Config { Config((r: GatewayRequest) => "", {p}, Breaker.Config(1, 0)) }

  function Ask(p: string): GatewayRequest { GatewayRequest(p, "m", "", [Message("user", "")], 1, 0, false) }

  /** The price of the mock provider, 100 micro-dollars. */
  function Said(p: string): GatewayResponse {
    GatewayResponse("", p, "m", "", Usage(10, 20, 30), false, 0, 0.0001)
  }

  lemma SaidIsPriced(p: string)
    ensures Spend.Micros(Said(p).costUsd) == 100
  {
  }

  function Asked(p: string, pc: PC): Request { Request(Ask(p), Ask(p), pc, Unanswered, [], false, multiset{}) }

  /** One request, nothing cached, nothing logged. */
  predicate Alone(l: Ledger, p: string, r: Request) {
    && l.gateway.requests == map[0 := r] && l.gateway.values == map[] && l.gateway.rows == []
    && l.gateway.calls == map[] && l.gateway.now == 0 && l.gateway.breakers == map[p := Breaker.FRESH]
    && l.done == map[] && l.db == Spend.EMPTY_DB
  }

  lemma ActorAlone(cfg: Config, s: State, e: Event)
    requires Enabled(s, e) && Acts(e, 0) && s.requests.Keys <= {0}
    ensures NextRequests(cfg, s, e) == map[0 := Next(cfg, s, e)]
  {
  }

  lemma ActAlone(env: Env, owner: Owner, l: Ledger, p: string, pc: PC, e: Event, pc': PC) returns (l': Ledger)
    requires Reachable(env, Only(p), owner, l) && Alone(l, p, Asked(p, pc)) && Enabled(l.gateway, e)
    requires e in {FindSimilar(0, -1), Get(0, false), SetNX(0, NotExecuted)}
    requires Next(Only(p), l.gateway, e) == Asked(p, pc')
    ensures Reachable(env, Only(p), owner, l') && Alone(l', p, Asked(p, pc'))
  {
    l' := Apply(Only(p), owner, l, Act(e));
    Take(env, Only(p), owner, l, Act(e));
    ActorAlone(Only(p), l.gateway, e);
  }

  lemma OneAsks(env: Env, owner: Owner, p: string) returns (l: Ledger)
    requires Admitted(Ask(p))
    ensures Reachable(env, Only(p), owner, l) && Alone(l, p, Asked(p, Semantic))
  {
    var l0 := Start(Only(p));
    assert Within(env, Only(p), owner, []) && Applied(Only(p), owner, []) == l0;
    l := Apply(Only(p), owner, l0, Act(Arrive(0, Ask(p))));
    Take(env, Only(p), owner, l0, Act(Arrive(0, Ask(p))));
    ActorAlone(Only(p), l0.gateway, Arrive(0, Ask(p)));
    assert l.gateway.breakers == map[p := Breaker.FRESH];
  }

  lemma OneAttempts(env: Env, owner: Owner, p: string) returns (l: Ledger)
    requires Admitted(Ask(p))
    ensures Reachable(env, Only(p), owner, l) && Alone(l, p, Asked(p, Attempt(false)))
  {
    l := OneAsks(env, owner, p);
    l := ActAlone(env, owner, l, p, Semantic, FindSimilar(0, -1), Getting);
    l := ActAlone(env, owner, l, p, Getting, Get(0, false), Locking);
    l := ActAlone(env, owner, l, p, Locking, SetNX(0, NotExecuted), Attempt(false));
  }

  function Answered(p: string): Request {
    Request(Ask(p), Ask(p), Publishing(Setting, Said(p)), Fresh(Said(p)), [p], false, multiset{})
  }

  /** The request has been answered by its provider. */
  predicate AnsweredAlone(l: Ledger, p: string) {
    && l.gateway.requests == map[0 := Answered(p)] && l.gateway.values == map[] && l.gateway.rows == []
    && l.gateway.calls == map[0 := Call(Ask(p), Said(p))] && l.done == map[] && l.db == Spend.EMPTY_DB
  }

  /** The breaker has let the call through. */
  predicate CallsAlone(l: Ledger, p: string) {
    && l.gateway.requests == map[0 := Asked(p, Calling(false)).(called := [p])]
    && l.gateway.values == map[] && l.gateway.rows == [] && l.gateway.calls == map[]
    && l.done == map[] && l.db == Spend.EMPTY_DB
  }

  lemma OneCalls(env: Env, owner: Owner, p: string) returns (l: Ledger)
    requires Admitted(Ask(p))
    ensures Reachable(env, Only(p), owner, l) && CallsAlone(l, p)
  {
    var l1 := OneAttempts(env, owner, p);
    l := Apply(Only(p), owner, l1, Act(Try(0)));
    Take(env, Only(p), owner, l1, Act(Try(0)));
    ActorAlone(Only(p), l1.gateway, Try(0));
    assert LetThrough(Only(p), l1.gateway, p) && [] + [p] == [p];
  }

  lemma OneAnswered(env: Env, owner: Owner, p: string) returns (l: Ledger)
    requires Admitted(Ask(p))
    ensures Reachable(env, Only(p), owner, l) && AnsweredAlone(l, p)
  {
    var l1 := OneCalls(env, owner, p);
    var e := Succeed(0, Said(p), "", 0);
    l := Apply(Only(p), owner, l1, Act(e));
    Take(env, Only(p), owner, l1, Act(e));
    ActorAlone(Only(p), l1.gateway, e);
  }

  lemma TotalOfOne(f: Rid -> nat, owner: Owner)
    ensures Total(f, owner, owner(0), 1) == f(0)
  {
    assert Total(f, owner, owner(0), 0) == 0;
  }

  lemma LostAlone(env: Env, cfg: Config, owner: Owner, l: Ledger)
    requires Reachable(env, cfg, owner, l) && AllBelow(l.gateway, 1) && AllLogged(l)
    requires Lost(l, 0) + Unmetered(l.gateway, 0) > 0 && Recharged(l.gateway, 0) == 0
    ensures !LogExact(env)
  {
    TotalOfOne((x: Rid) => Lost(l, x), owner);
    TotalOfOne((x: Rid) => Unmetered(l.gateway, x), owner);
    TotalOfOne((x: Rid) => Recharged(l.gateway, x), owner);
    Unbalanced(env, cfg, owner, l, owner(0), 1);
  }

  /** A row of a hundred micro-dollars is lost when its insert fails, or when it is one of the mock provider. */
  lemma RowLost(env: Env, owner: Owner, p: string, reply: Reply)
    requires Admitted(Ask(p))
    requires (reply == NotExecuted && env.lostInserts) || (p == "mock" && Executed(reply) && env.refusals)
    ensures !LogExact(env)
  {
    var l := OneAnswered(env, owner, p);
    SaidIsPriced(p);
    var l' := Apply(Only(p), owner, l, InsertLog(0, reply));
    Take(env, Only(p), owner, l, InsertLog(0, reply));
    LostAlone(env, Only(p), owner, l');
  }

  /** The second request, beside the first one that has set its value. */
  predicate SecondAt(l: Ledger, p: string, r: Request) {
    && l.gateway.requests == map[0 := Answered(p).(pc := Publishing(Notifying, Said(p))), 1 := r]
    && l.gateway.values == map["" := Said(p)] && l.gateway.rows == []
    && l.gateway.calls == map[0 := Call(Ask(p), Said(p))] && l.done == map[] && l.db == Spend.EMPTY_DB
  }

  /** The first request has set its value. */
  predicate SetAlone(l: Ledger, p: string) {
    && l.gateway.requests == map[0 := Answered(p).(pc := Publishing(Notifying, Said(p)))]
    && l.gateway.values == map["" := Said(p)] && l.gateway.rows == []
    && l.gateway.calls == map[0 := Call(Ask(p), Said(p))] && l.done == map[] && l.db == Spend.EMPTY_DB
  }

  lemma OneSets(env: Env, owner: Owner, p: string) returns (l: Ledger)
    requires Admitted(Ask(p))
    ensures Reachable(env, Only(p), owner, l) && SetAlone(l, p)
  {
    var l1 := OneAnswered(env, owner, p);
    l := Apply(Only(p), owner, l1, Act(Set(0, Replied)));
    Take(env, Only(p), owner, l1, Act(Set(0, Replied)));
    ActorAlone(Only(p), l1.gateway, Set(0, Replied));
    assert Next(Only(p), l1.gateway, Set(0, Replied)) == Answered(p).(pc := Publishing(Notifying, Said(p)));
  }

  lemma OneCached(env: Env, owner: Owner, p: string) returns (l: Ledger)
    requires Admitted(Ask(p))
    ensures Reachable(env, Only(p), owner, l) && SecondAt(l, p, Asked(p, Semantic))
  {
    var l1 := OneSets(env, owner, p);
    l := Apply(Only(p), owner, l1, Act(Arrive(1, Ask(p))));
    Take(env, Only(p), owner, l1, Act(Arrive(1, Ask(p))));
    assert Next(Only(p), l1.gateway, Arrive(1, Ask(p))) == Asked(p, Semantic);
  }

  lemma SecondActs(p: string, s: State, e: Event)
    requires Enabled(s, e) && e in {FindSimilar(1, -1), Get(1, false)} && s.requests.Keys == {0, 1}
    ensures NextRequests(Only(p), s, e) == map[0 := s.requests[0], 1 := Next(Only(p), s, e)]
  {
  }

  lemma ActSecond(env: Env, owner: Owner, l: Ledger, p: string, r: Request, e: Event, r': Request)
    returns (l': Ledger)
    requires Reachable(env, Only(p), owner, l) && SecondAt(l, p, r) && Enabled(l.gateway, e)
    requires e in {FindSimilar(1, -1), Get(1, false)} && (e.Get? ==> env.pricedHits)
    requires Next(Only(p), l.gateway, e) == r'
    ensures Reachable(env, Only(p), owner, l') && SecondAt(l', p, r')
  {
    l' := Apply(Only(p), owner, l, Act(e));
    Take(env, Only(p), owner, l, Act(e));
    SecondActs(p, l.gateway, e);
  }

  function HitSecond(p: string): Request { Asked(p, Finished).(outcome := Hit(Said(p).(cached := true))) }

  lemma SecondHits(env: Env, owner: Owner, p: string) returns (l: Ledger)
    requires Admitted(Ask(p)) && env.pricedHits
    ensures Reachable(env, Only(p), owner, l) && SecondAt(l, p, HitSecond(p))
  {
    l := OneCached(env, owner, p);
    l := ActSecond(env, owner, l, p, Asked(p, Semantic), FindSimilar(1, -1), Asked(p, Getting));
    l := ActSecond(env, owner, l, p, Asked(p, Getting), Get(1, false), HitSecond(p));
  }

  lemma BothRecorded(env: Env, owner: Owner, l: Ledger) returns (l': Ledger)
    requires Reachable(env, Only("groq"), owner, l) && SecondAt(l, "groq", HitSecond("groq"))
    ensures Reachable(env, Only("groq"), owner, l') && l'.gateway == l.gateway && l'.done == map[0 := true, 1 := true]
  {
    var l1 := Apply(Only("groq"), owner, l, InsertLog(0, Replied));
    Take(env, Only("groq"), owner, l, InsertLog(0, Replied));
    l' := Apply(Only("groq"), owner, l1, InsertLog(1, Replied));
    Take(env, Only("groq"), owner, l1, InsertLog(1, Replied));
  }

  lemma SecondRecharged(l: Ledger)
    requires SecondAt(l, "groq", HitSecond("groq"))
    ensures Recharged(l.gateway, 1) == 100 && AllBelow(l.gateway, 2)
    ensures forall x: Rid :: Unmetered(l.gateway, x) == 0
  {
    SaidIsPriced("groq");
  }

  lemma TotalAtLeast(f: Rid -> nat, owner: Owner)
    ensures Total(f, owner, owner(1), 2) >= f(1)
  {
  }

  /** A caller who is handed a copy of an answer of a hundred micro-dollars is charged them once more. */
  lemma HitChargedAgain(env: Env, owner: Owner)
    requires env.pricedHits
    ensures !LogExact(env)
  {
    var l := SecondHits(env, owner, "groq");
    var l' := BothRecorded(env, owner, l);
    SecondRecharged(l);
    TotalAtLeast((x: Rid) => Recharged(l'.gateway, x), owner);
    TotalZero((x: Rid) => Lost(l', x), owner, owner(1), 2);
    TotalZero((x: Rid) => Unmetered(l'.gateway, x), owner, owner(1), 2);
    Unbalanced(env, Only("groq"), owner, l', owner(1), 2);
  }

  // A stream that costs a hundred micro-dollars.

  function Stream(): GatewayRequest { Ask("groq").(stream := true) }

  function Relayed(): GatewayResponse { Said("groq").(usage := NO_USAGE) }

  function StreamAt(pc: PC, called: seq<string>): Request {
    Request(Stream(), Stream(), pc, Unanswered, called, false, multiset{})
  }

  predicate StreamAlone(l: Ledger, r: Request) {
    l.gateway.requests == map[0 := r] && l.gateway.calls == map[] && l.done == map[]
  }

  lemma StreamAttempts(env: Env, owner: Owner) returns (l: Ledger)
    ensures Reachable(env, Only("groq"), owner, l) && StreamAlone(l, StreamAt(Attempt(false), []))
    ensures l.gateway.breakers == map["groq" := Breaker.FRESH] && l.gateway.now == 0
  {
    var l0 := Start(Only("groq"));
    assert Within(env, Only("groq"), owner, []) && Applied(Only("groq"), owner, []) == l0;
    l := Apply(Only("groq"), owner, l0, Act(Arrive(0, Stream())));
    Take(env, Only("groq"), owner, l0, Act(Arrive(0, Stream())));
    ActorAlone(Only("groq"), l0.gateway, Arrive(0, Stream()));
    assert l.gateway.breakers == map["groq" := Breaker.FRESH];
  }

  lemma StreamCalls(env: Env, owner: Owner) returns (l: Ledger)
    ensures Reachable(env, Only("groq"), owner, l) && StreamAlone(l, StreamAt(Calling(false), ["groq"]))
  {
    var l1 := StreamAttempts(env, owner);
    l := Apply(Only("groq"), owner, l1, Act(Try(0)));
    Take(env, Only("groq"), owner, l1, Act(Try(0)));
    ActorAlone(Only("groq"), l1.gateway, Try(0));
    assert LetThrough(Only("groq"), l1.gateway, "groq") && [] + ["groq"] == ["groq"];
  }

  lemma StreamEnds(env: Env, owner: Owner) returns (l: Ledger)
    requires env.paidStreams
    ensures Reachable(env, Only("groq"), owner, l) && l.done == map[]
    ensures l.gateway.requests == map[0 := StreamAt(Finished, ["groq"]).(outcome := Streamed)]
    ensures l.gateway.calls == map[0 := Call(Stream(), Relayed())]
  {
    var l1 := StreamCalls(env, owner);
    var e := Succeed(0, Relayed(), "", 0);
    l := Apply(Only("groq"), owner, l1, Act(e));
    Take(env, Only("groq"), owner, l1, Act(e));
    ActorAlone(Only("groq"), l1.gateway, e);
  }

  /** The stream is paid for, and its row charges nothing. */
  lemma StreamNotCharged(env: Env, owner: Owner)
    requires env.paidStreams
    ensures !LogExact(env)
  {
    var l := StreamEnds(env, owner);
    SaidIsPriced("groq");
    var l' := Apply(Only("groq"), owner, l, InsertLog(0, Replied));
    Take(env, Only("groq"), owner, l, InsertLog(0, Replied));
    LostAlone(env, Only("groq"), owner, l');
  }

  /**
    In all runs the log charges every key exactly what was paid for its requests, if and only if answers from a
    cache are free, no insert of a priced row fails, the table refuses none, and streams are free.
   */
  lemma LogExactIff(env: Env)
    ensures LogExact(env) <==> !env.pricedHits && !env.lostInserts && !env.refusals && !env.paidStreams
  {
    var owner := (x: Rid) => "";
    if env.pricedHits {
      HitChargedAgain(env, owner);
    } else if env.lostInserts {
      RowLost(env, owner, "groq", NotExecuted);
    } else if env.refusals {
      RowLost(env, owner, "mock", Replied);
    } else if env.paidStreams {
      StreamNotCharged(env, owner);
    } else {
      forall cfg: Config, owner: Owner, run: seq<Action>, k: Spend.ApiKey, n: nat |
        var l := Applied(cfg, owner, run);
        Within(env, cfg, owner, run) && AllBelow(l.gateway, n) && AllLogged(l)
        ensures Charged(Applied(cfg, owner, run), k) == TotalPaid(Applied(cfg, owner, run), owner, k, n)
      {
        QuietLogIsExact(env, cfg, owner, run, k, n);
      }
    }
  }
}
