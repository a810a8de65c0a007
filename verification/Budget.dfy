/**
  The budget check of internal/middleware/budget.go: the spend of the UTC day is cached in Redis for
  60 seconds under a key that names the day.
 */
module Budget {
  import opened Models
  import opened Spend

  const CACHE_MS := 60_000

  /** A stored spend; None is a text that does not parse, which the code never writes. */
  datatype Entry = Entry(value: Option<nat>, expires: nat)

  /** What the check makes of an entry: the variable keeps its zero when parsing fails. */
  function Worth(e: Entry): nat { if e.value.Some? then e.value.value else 0 }

  type Cache = map<(ApiKey, nat), Entry>

  /** Whether the entry of a day can still be read at `now`: Redis drops it once its clock has passed the expiry. */
  predicate LiveOn(cache: Cache, k: ApiKey, day: nat, now: nat) {
    (k, day) in cache && now <= cache[(k, day)].expires
  }

  predicate Live(cache: Cache, k: ApiKey, now: nat) { LiveOn(cache, k, Day(now), now) }

  datatype Limit = Unlimited | Limit(usd: int)

  datatype Verdict = Pass | Exceeded(spent: nat, limit: int, resetsAt: nat) | DbError

  /** The readings one check depends on. */
  datatype Clock = Clock(keyed: nat, read: nat, viewAt: nat, sumAt: nat, setAt: nat, reset: nat)

  class BudgetEnforcer {
    const store: Store
    var cache: Cache

    constructor (store: Store)
      ensures this.store == store && cache == map[]
    {
      this.store := store;
      cache := map[];
    }

    /**
      One check with nothing between the miss and the store of the answer but `meanwhile`, what other
      clients do between its two queries.  `clock` is read for the day in the key, by Redis on the get, by
      the database for each query, by Redis on the set, and for the reset time.  `getFails` and `setFails`
      are the two Redis commands, `viewFails` and `sumFails` the two queries.
     */
    method CheckBudget(k: ApiKey, limit: Limit, clock: Clock, meanwhile: Db,
                       getFails: bool, setFails: bool, viewFails: bool, sumFails: bool) returns (v: Verdict)
      modifies this, store
      ensures limit.Unlimited? ==> v == Pass && cache == old(cache) && store.Contents() == old(store.Contents())
      ensures limit.Limit? ==>
                var db, day := old(store.Contents()), Day(clock.keyed);
                var hit := !getFails && LiveOn(old(cache), k, day, clock.read);
                var answer := if hit then Spent(match old(cache)[(k, day)].value case Some(v) => v case None => 0)
                              else TwoQueries(db, meanwhile, k, clock.viewAt, clock.sumAt, viewFails, sumFails);
                && v == (match answer
                         case Failed => DbError
                         case Spent(spent) =>
                           if spent < limit.usd then Pass
                           else Exceeded(spent, limit.usd, Midnight(clock.reset) + DAY_MS))
                && cache == (if hit || answer.Failed? || setFails then old(cache)
                             else old(cache)[(k, day) := Entry(Some(answer.amount), clock.setAt + 60_000)])
                && store.Contents() == if !hit && AsksTwice(db, k, clock.viewAt, viewFails) then meanwhile else db
    {
      if limit.Unlimited? {
        return Pass;
      }
      var today := Day(clock.keyed);
      var currentSpend: nat := 0;
      if !getFails && (k, today) in cache && clock.read <= cache[(k, today)].expires {
        if cache[(k, today)].value.Some? {
          currentSpend := cache[(k, today)].value.value;
        }
      } else {
        var answer := store.GetDailySpend(k, clock.viewAt, clock.sumAt, viewFails, sumFails, meanwhile);
        if answer.Failed? {
          return DbError;
        }
        currentSpend := answer.amount;
        if !setFails {
          cache := cache[(k, today) := Entry(Some(currentSpend), clock.setAt + CACHE_MS)];
        }
      }
      if currentSpend >= limit.usd {
        return Exceeded(currentSpend, limit.usd, Midnight(clock.reset) + DAY_MS);
      }
      return Pass;
    }
  }

  // ---------------------------------------------------------------- interleaved checks

  type Rid = nat

  /**
    A check that missed: before its view query, before its sum query, or with an answer it has not stored.
    `day` names the key it will store under, `begun` is when it missed, `on` when the answering query ran.
   */
  datatype Pending =
    | Asking(k: ApiKey, day: nat, begun: nat)
    | Summing(k: ApiKey, day: nat, begun: nat, viewed: nat)
    | Answered(k: ApiKey, day: nat, begun: nat, value: nat, on: nat)

  /** `snapshot` holds the rows of a refresh of the view that has begun and is not visible yet. */
  datatype State = State(db: Db, snapshot: Option<map<(ApiKey, nat), nat>>, cache: Cache, pending: map<Rid, Pending>,
                         now: nat)

  const START := State(EMPTY_DB, None, map[], map[], 0)

  /** `resent` says that the reply to the set is lost and the client library will send it again. */
  datatype Event =
    | Insert(k: ApiKey, provider: string, cost: nat)
    | BeginRefresh
    | EndRefresh
    | Tick(elapsed: nat)
    | Check(rid: Rid, k: ApiKey, redisFails: bool)
    | View(rid: Rid, fails: bool)
    | Sum(rid: Rid, fails: bool)
    | Put(rid: Rid, resent: bool)
    | Drop(rid: Rid)

  predicate IsAsking(s: State, rid: Rid) { rid in s.pending && s.pending[rid].Asking? }

  predicate IsSumming(s: State, rid: Rid) { rid in s.pending && s.pending[rid].Summing? }

  predicate IsAnswered(s: State, rid: Rid) { rid in s.pending && s.pending[rid].Answered? }

  /** An answer is stored at most `delay` after its query; `slowRefresh` lets costs be logged during a refresh. */
  datatype Pace = Pace(delay: nat, slowRefresh: bool)

  predicate Enabled(pace: Pace, s: State, e: Event) {
    match e
    case Insert(_, _, _) => pace.slowRefresh || s.snapshot.None?
    case BeginRefresh => s.snapshot.None?
    case Check(rid, _, _) => rid !in s.pending
    case View(rid, _) => IsAsking(s, rid)
    case Sum(rid, _) => IsSumming(s, rid)
    case Put(rid, _) => IsAnswered(s, rid) && s.now - s.pending[rid].on <= pace.delay
    case Drop(rid) => rid in s.pending
    case _ => true
  }

  /** The answer that the query of this event gives to its check. */
  function AnswerOf(s: State, e: Event): Option<nat> {
    match e
    case View(rid, fails) =>
      if !IsAsking(s, rid) || AsksTwice(s.db, s.pending[rid].k, s.now, fails) then None
      else Some(s.db.view[(s.pending[rid].k, Day(s.now))])
    case Sum(rid, fails) =>
      if !IsSumming(s, rid) || fails then None else Some(DirectSum(s.db, s.pending[rid].k, s.now))
    case _ => None
  }

  /** The check after its query. */
  function AfterQuery(s: State, rid: Rid, answer: Option<nat>): map<Rid, Pending>
    requires IsAsking(s, rid) || IsSumming(s, rid)
  {
    var p := s.pending[rid];
    match answer
    case Some(value) => s.pending[rid := Answered(p.k, p.day, p.begun, value, s.now)]
    case None => if p.Asking? then s.pending[rid := Summing(p.k, p.day, p.begun, s.now)] else s.pending - {rid}
  }

  function Step(s: State, e: Event): State {
    match e
    case Insert(k, provider, cost) => s.(db := Inserted(s.db, Log(k, provider, cost, s.now)))
    case BeginRefresh => s.(snapshot := Some(Refreshed(s.db).view))
    case EndRefresh => if s.snapshot.None? then s else s.(db := s.db.(view := s.snapshot.value), snapshot := None)
    case Tick(elapsed) => s.(now := s.now + elapsed)
    case Check(rid, k, redisFails) =>
      if !redisFails && Live(s.cache, k, s.now) then s
      else s.(pending := s.pending[rid := Asking(k, Day(s.now), s.now)])
    case View(rid, _) => if IsAsking(s, rid) then s.(pending := AfterQuery(s, rid, AnswerOf(s, e))) else s
    case Sum(rid, _) => if IsSumming(s, rid) then s.(pending := AfterQuery(s, rid, AnswerOf(s, e))) else s
    case Put(rid, resent) =>
      if !IsAnswered(s, rid) then s else
      var p := s.pending[rid];
      s.(cache := s.cache[(p.k, p.day) := Entry(Some(p.value), s.now + CACHE_MS)],
         pending := if resent then s.pending else s.pending - {rid})
    case Drop(rid) => s.(pending := s.pending - {rid})
  }

  function Run(s: State, run: seq<Event>): State {
    if run == [] then s else Step(Run(s, run[..|run| - 1]), run[|run| - 1])
  }

  predicate Legal(pace: Pace, s: State, run: seq<Event>) {
    run == [] ||
    (Legal(pace, s, run[..|run| - 1]) && Enabled(pace, Run(s, run[..|run| - 1]), run[|run| - 1]))
  }

  /** What a check decides on: an amount recorded for a UTC day, and when the check was begun. */
  datatype Decision = Decision(k: ApiKey, amount: nat, day: nat, begun: nat)

  /** A check decides when it reads the cache, or after its last try to store the answer. */
  function Decided(s: State, e: Event): Option<Decision> {
    match e
    case Check(_, k, redisFails) =>
      if !redisFails && Live(s.cache, k, s.now)
      then Some(Decision(k, Worth(s.cache[(k, Day(s.now))]), Day(s.now), s.now)) else None
    case Put(rid, resent) =>
      if resent || !IsAnswered(s, rid) then None else
      var p := s.pending[rid];
      Some(Decision(p.k, p.value, Day(p.on), p.begun))
    case Drop(rid) =>
      if !IsAnswered(s, rid) then None else
      var p := s.pending[rid];
      Some(Decision(p.k, p.value, Day(p.on), p.begun))
    case _ => None
  }

  lemma Unfold(s: State, run: seq<Event>, e: Event)
    ensures Run(s, run + [e]) == Step(Run(s, run), e)
    ensures forall pace :: Legal(pace, s, run + [e]) <==> Legal(pace, s, run) && Enabled(pace, Run(s, run), e)
  {
    assert (run + [e])[..|run + [e]| - 1] == run;
  }

  lemma UnfoldTwo(s: State, a: Event, b: Event)
    ensures Run(s, [a, b]) == Step(Step(s, a), b)
  {
    Unfold(s, [], a);
    Unfold(s, [a], b);
    assert [] + [a] == [a] && [a] + [b] == [a, b];
  }

  lemma UnfoldFour(s: State, a: Event, b: Event, c: Event, d: Event)
    ensures Run(s, [a, b, c, d]) == Step(Step(Step(Step(s, a), b), c), d)
  {
    UnfoldTwo(s, a, b);
    Unfold(s, [a, b], c);
    Unfold(s, [a, b, c], d);
    assert [a, b] + [c] == [a, b, c] && [a, b, c] + [d] == [a, b, c, d];
  }

  function With(s: State, rid: Rid, p: Pending): State { s.(pending := s.pending[rid := p]) }

  /** What the two queries of a check leave of it, with nothing between them. */
  function Queried(s: State, rid: Rid, k: ApiKey, answer: Answer): State {
    if answer.Failed? then s else With(s, rid, Answered(k, Day(s.now), s.now, answer.amount, s.now))
  }

  lemma QueriesAnswer(s: State, rid: Rid, k: ApiKey, viewFails: bool, sumFails: bool)
    requires rid !in s.pending
    ensures Step(Step(With(s, rid, Asking(k, Day(s.now), s.now)), View(rid, viewFails)), Sum(rid, sumFails)) ==
            Queried(s, rid, k, TwoQueries(s.db, s.db, k, s.now, s.now, viewFails, sumFails))
  {
    var asking := With(s, rid, Asking(k, Day(s.now), s.now));
    var viewed := Step(asking, View(rid, viewFails));
    if AsksTwice(s.db, k, s.now, viewFails) {
      assert viewed == With(s, rid, Summing(k, Day(s.now), s.now, s.now));
      SumEnds(s, rid, k, sumFails);
    } else {
      assert viewed == With(s, rid, Answered(k, Day(s.now), s.now, s.db.view[(k, Day(s.now))], s.now));
    }
  }

  lemma SumEnds(s: State, rid: Rid, k: ApiKey, fails: bool)
    requires rid !in s.pending
    ensures Step(With(s, rid, Summing(k, Day(s.now), s.now, s.now)), Sum(rid, fails)) ==
            Queried(s, rid, k, if fails then Failed else Spent(DirectSum(s.db, k, s.now)))
  {
    assert s.pending[rid := Summing(k, Day(s.now), s.now, s.now)] - {rid} == s.pending;
  }

  /** Nothing in the run concerns the check `rid`. */
  predicate LeavesCheck(run: seq<Event>, rid: Rid) {
    forall e | e in run && (e.Check? || e.View? || e.Sum? || e.Put? || e.Drop?) :: e.rid != rid
  }

  lemma {:induction false} CheckStands(s: State, run: seq<Event>, rid: Rid)
    requires rid in s.pending && LeavesCheck(run, rid)
    ensures rid in Run(s, run).pending && Run(s, run).pending[rid] == s.pending[rid]
  {
    if run != [] {
      CheckStands(s, run[..|run| - 1], rid);
      assert run[|run| - 1] in run;
    }
  }

  /**
    The two queries of a check with anything that does not concern it in between: the second sees the tables and the
    clock of its own moment.
   */
  lemma GetDailySpendIsARun(s: State, rid: Rid, between: seq<Event>, viewFails: bool, sumFails: bool)
    requires IsAsking(s, rid) && LeavesCheck(between, rid)
    ensures var p, t := s.pending[rid], Run(Step(s, View(rid, viewFails)), between);
            var after := Step(t, Sum(rid, sumFails));
            match TwoQueries(s.db, t.db, p.k, s.now, t.now, viewFails, sumFails)
            case Failed => rid !in after.pending
            case Spent(value) =>
              && IsAnswered(after, rid) && after.pending[rid].value == value
              && after.pending[rid].on == if AsksTwice(s.db, p.k, s.now, viewFails) then t.now else s.now
  {
    CheckStands(Step(s, View(rid, viewFails)), between, rid);
  }

  /** The last step of a check: the store, or its failure. */
  function End(rid: Rid, setFails: bool): Event { if setFails then Drop(rid) else Put(rid, false) }

  lemma EndStores(s: State, rid: Rid, k: ApiKey, answer: Answer, setFails: bool)
    requires rid !in s.pending
    ensures Step(Queried(s, rid, k, answer), End(rid, setFails)) ==
            if answer.Failed? || setFails then s
            else s.(cache := s.cache[(k, Day(s.now)) := Entry(Some(answer.amount), s.now + CACHE_MS)])
  {
    assert s.pending - {rid} == s.pending;
    if answer.Spent? {
      assert s.pending[rid := Answered(k, Day(s.now), s.now, answer.amount, s.now)] - {rid} == s.pending;
    }
  }

  lemma HitDoesNothing(s: State, rid: Rid, viewFails: bool, sumFails: bool, setFails: bool)
    requires rid !in s.pending
    ensures Step(Step(Step(s, View(rid, viewFails)), Sum(rid, sumFails)), End(rid, setFails)) == s
  {
    assert s.pending - {rid} == s.pending;
  }

  /**
    CheckBudget with nothing in between is the run of its steps, whichever of its commands and queries fail; a
    step that is not its turn does nothing.
   */
  lemma CheckBudgetIsARun(s: State, rid: Rid, k: ApiKey, getFails: bool, viewFails: bool, sumFails: bool,
                          setFails: bool)
    requires rid !in s.pending
    ensures var answer := TwoQueries(s.db, s.db, k, s.now, s.now, viewFails, sumFails);
            Run(s, [Check(rid, k, getFails), View(rid, viewFails), Sum(rid, sumFails), End(rid, setFails)]) ==
            if (!getFails && Live(s.cache, k, s.now)) || answer.Failed? || setFails then s
            else s.(cache := s.cache[(k, Day(s.now)) := Entry(Some(answer.amount), s.now + CACHE_MS)])
  {
    UnfoldFour(s, Check(rid, k, getFails), View(rid, viewFails), Sum(rid, sumFails), End(rid, setFails));
    if !getFails && Live(s.cache, k, s.now) {
      HitDoesNothing(s, rid, viewFails, sumFails, setFails);
    } else {
      QueriesAnswer(s, rid, k, viewFails, sumFails);
      EndStores(s, rid, k, TwoQueries(s.db, s.db, k, s.now, s.now, viewFails, sumFails), setFails);
    }
  }

  /** What it decides on: the entry it finds, a text that does not parse counting as nothing, or the answer it gets. */
  lemma LoneCheckDecides(s: State, rid: Rid, k: ApiKey, getFails: bool, viewFails: bool, sumFails: bool,
                         setFails: bool)
    requires rid !in s.pending
    ensures var hit := !getFails && LiveOn(s.cache, k, Day(s.now), s.now);
            var answer := TwoQueries(s.db, s.db, k, s.now, s.now, viewFails, sumFails);
            var asked := Run(s, [Check(rid, k, getFails), View(rid, viewFails), Sum(rid, sumFails)]);
            && Decided(s, Check(rid, k, getFails)) ==
               (if !hit then None else
                var amount := match s.cache[(k, Day(s.now))].value case Some(v) => v case None => 0;
                Some(Decision(k, amount, Day(s.now), s.now)))
            && (!hit ==> Decided(asked, End(rid, setFails)) ==
                         if answer.Failed? then None else Some(Decision(k, answer.amount, Day(s.now), s.now)))
  {
    UnfoldTwo(s, Check(rid, k, getFails), View(rid, viewFails));
    Unfold(s, [Check(rid, k, getFails), View(rid, viewFails)], Sum(rid, sumFails));
    assert [Check(rid, k, getFails), View(rid, viewFails)] + [Sum(rid, sumFails)] ==
           [Check(rid, k, getFails), View(rid, viewFails), Sum(rid, sumFails)];
    QueriesAnswer(s, rid, k, viewFails, sumFails);
  }

  // ---------------------------------------------------------------- rejections

  /** A pending check has kept its days straight, and an answer is below what was recorded for its day. */
  predicate SoundPending(db: Db, now: nat, p: Pending) {
    && p.day == Day(p.begun) && p.begun <= now
    && (p.Summing? ==> p.begun <= p.viewed <= now)
    && (p.Answered? ==> p.begun <= p.on <= now && p.value <= SumOn(db.logs, p.k, Day(p.on)))
  }

  /** An entry that can still be read is below what was recorded for its day. */
  ghost predicate SoundCache(s: State) {
    forall g | g in s.cache && g.1 >= Day(s.now) :: Worth(s.cache[g]) <= SumOn(s.db.logs, g.0, g.1)
  }

  ghost predicate Sound(s: State) {
    && InPast(s.db.logs, s.now) && ViewBelow(s.db) && SoundCache(s)
    && (s.snapshot.Some? ==> ViewBelow(s.db.(view := s.snapshot.value)))
    && forall r | r in s.pending :: SoundPending(s.db, s.now, s.pending[r])
  }

  lemma AnswerIsRecorded(s: State, e: Event)
    requires InPast(s.db.logs, s.now) && ViewBelow(s.db) && AnswerOf(s, e).Some?
    ensures AnswerOf(s, e).value <= SumOn(s.db.logs, s.pending[e.rid].k, Day(s.now))
  {
    FallbackIsDirectSum(s.db.logs, s.pending[e.rid].k, s.now);
  }

  lemma InsertSound(s: State, e: Event)
    requires Sound(s) && e.Insert?
    ensures Sound(Step(s, e))
  {
    InsertKeepsSpend(s.db, Log(e.k, e.provider, e.cost, s.now), e.k, s.now);
    if s.snapshot.Some? {
      InsertKeepsSpend(s.db.(view := s.snapshot.value), Log(e.k, e.provider, e.cost, s.now), e.k, s.now);
    }
  }

  lemma PutSound(s: State, e: Event)
    requires Sound(s) && e.Put?
    ensures Sound(Step(s, e))
  {
  }

  lemma StepKeepsSound(s: State, e: Event)
    requires Sound(s)
    ensures Sound(Step(s, e))
  {
    match e {
      case Insert(_, _, _) => InsertSound(s, e);
      case Put(_, _) => PutSound(s, e);
      case _ =>
        if AnswerOf(s, e).Some? {
          AnswerIsRecorded(s, e);
        }
    }
  }

  lemma {:induction false} RunKeepsSound(s: State, run: seq<Event>)
    requires Sound(s)
    ensures Sound(Run(s, run))
  {
    if run != [] {
      RunKeepsSound(s, run[..|run| - 1]);
      StepKeepsSound(Run(s, run[..|run| - 1]), run[|run| - 1]);
    }
  }

  /**
    However checks, their two queries, stores, inserts and refreshes interleave, a rejection means that the
    spend recorded for the day of its answer is at the limit.
   */
  lemma RejectionIsSound(run: seq<Event>, e: Event, limit: int)
    requires Decided(Run(START, run), e).Some? && Decided(Run(START, run), e).value.amount >= limit
    ensures var d := Decided(Run(START, run), e).value;
            SumOn(Run(START, run).db.logs, d.k, d.day) >= limit && d.day <= Day(Run(START, run).now)
  {
    RunKeepsSound(START, run);
  }

  // ---------------------------------------------------------------- the spend itself

  /** Nothing is logged while the view is refreshed. */
  predicate CalmStep(s: State, e: Event) { e.Insert? ==> s.snapshot.None? }

  predicate Calm(s: State, run: seq<Event>) {
    run == [] || (Calm(s, run[..|run| - 1]) && CalmStep(Run(s, run[..|run| - 1]), run[|run| - 1]))
  }

  /** Then the rows that will be visible are those of the log. */
  predicate Settled(s: State) { s.snapshot.Some? ==> s.snapshot.value == Refreshed(s.db).view }

  lemma {:induction false} LegalIsCalm(pace: Pace, s: State, run: seq<Event>)
    requires Legal(pace, s, run) && !pace.slowRefresh
    ensures Calm(s, run)
  {
    if run != [] {
      LegalIsCalm(pace, s, run[..|run| - 1]);
    }
  }

  lemma CalmStepSettled(s: State, e: Event)
    requires Settled(s) && CalmStep(s, e)
    ensures Settled(Step(s, e))
  {
  }

  lemma {:induction false} CalmRunSettled(s: State, run: seq<Event>)
    requires Settled(s) && Calm(s, run)
    ensures Settled(Run(s, run))
  {
    if run != [] {
      CalmRunSettled(s, run[..|run| - 1]);
      CalmStepSettled(Run(s, run[..|run| - 1]), run[|run| - 1]);
    }
  }

  /** Within one UTC day the spend that an uninterrupted call finds never decreases. */
  lemma StepKeepsSpend(s: State, e: Event, k: ApiKey)
    requires Sound(s) && Settled(s) && Day(Step(s, e).now) == Day(s.now)
    ensures DailySpend(Step(s, e).db, k, Step(s, e).now) >= DailySpend(s.db, k, s.now)
  {
    match e {
      case Insert(k', provider, cost) => InsertKeepsSpend(s.db, Log(k', provider, cost, s.now), k, s.now);
      case EndRefresh => RefreshKeepsSpend(s.db, k, s.now);
      case _ =>
    }
  }

  lemma {:induction false} ClockAdvances(s: State, run: seq<Event>)
    ensures s.now <= Run(s, run).now
  {
    if run != [] {
      ClockAdvances(s, run[..|run| - 1]);
    }
  }

  lemma {:induction false} SpendIsMonotone(s: State, run: seq<Event>, k: ApiKey)
    requires Sound(s) && Settled(s) && Calm(s, run) && Day(Run(s, run).now) == Day(s.now)
    ensures DailySpend(Run(s, run).db, k, Run(s, run).now) >= DailySpend(s.db, k, s.now)
  {
    if run != [] {
      var before := run[..|run| - 1];
      var s' := Run(s, before);
      ClockAdvances(s, before);
      SpendIsMonotone(s, before, k);
      RunKeepsSound(s, before);
      CalmRunSettled(s, before);
      StepKeepsSpend(s', run[|run| - 1], k);
    }
  }

  // ---------------------------------------------------------------- answers that fall back

  /**
    What may happen to the answers: the first query of a call fails, a refresh becomes visible between its
    two queries, or a cost is logged while the view is refreshed.
   */
  datatype Queries = Queries(viewErrors: bool, refreshBetween: bool, slowRefresh: bool)

  predicate Undisturbed(env: Queries) { !env.viewErrors && !env.refreshBetween && !env.slowRefresh }

  predicate BetweenQueries(s: State) { exists r | r in s.pending :: s.pending[r].Summing? }

  predicate Permitted(env: Queries, s: State, e: Event) {
    && (e.View? && e.fails ==> env.viewErrors)
    && (e.EndRefresh? && BetweenQueries(s) ==> env.refreshBetween)
    && (e.Insert? && s.snapshot.Some? ==> env.slowRefresh)
  }

  predicate Within(env: Queries, s: State, run: seq<Event>) {
    run == [] ||
    (Within(env, s, run[..|run| - 1]) && Permitted(env, Run(s, run[..|run| - 1]), run[|run| - 1]))
  }

  /** The two events give answers for one key on one UTC day, the second a lower one. */
  predicate Falls(s: State, e: Event, t: State, f: Event) {
    && AnswerOf(s, e).Some? && AnswerOf(t, f).Some? && s.pending[e.rid].k == t.pending[f.rid].k
    && Day(s.now) == Day(t.now) && AnswerOf(t, f).value < AnswerOf(s, e).value
  }

  /** No answer of GetDailySpend is followed by a lower one for the same key and day, in any run. */
  ghost predicate AnswersRise(env: Queries) {
    forall run: seq<Event>, e: Event, then': seq<Event>, f: Event ::
      var s := Run(START, run);
      Within(env, START, run + [e]) && Within(env, Step(s, e), then' + [f]) ==>
        !Falls(s, e, Run(Step(s, e), then'), f)
  }

  /** The view holds no row for the key from the day of the view query on. */
  ghost predicate NoRowFrom(view: map<(ApiKey, nat), nat>, k: ApiKey, day: nat) {
    forall g | g in view && g.0 == k :: g.1 < day
  }

  ghost predicate Quiet(s: State) {
    && Settled(s)
    && (forall g | g in s.db.view :: g.1 <= Day(s.now))
    && forall r | IsSumming(s, r) :: NoRowFrom(s.db.view, s.pending[r].k, Day(s.pending[r].viewed))
  }

  lemma QuietStep(env: Queries, s: State, e: Event)
    requires Undisturbed(env) && Permitted(env, s, e) && Sound(s) && Quiet(s)
    ensures Quiet(Step(s, e))
  {
    if e.View? && IsAsking(s, e.rid) && AnswerOf(s, e).None? {
      assert NoRowFrom(s.db.view, s.pending[e.rid].k, Day(s.now));
    }
  }

  lemma {:induction false} QuietRun(env: Queries, s: State, run: seq<Event>)
    requires Undisturbed(env) && Within(env, s, run) && Sound(s) && Quiet(s)
    ensures Quiet(Run(s, run))
  {
    if run != [] {
      QuietRun(env, s, run[..|run| - 1]);
      RunKeepsSound(s, run[..|run| - 1]);
      QuietStep(env, Run(s, run[..|run| - 1]), run[|run| - 1]);
    }
  }

  lemma {:induction false} WithinIsCalm(env: Queries, s: State, run: seq<Event>)
    requires Undisturbed(env) && Within(env, s, run)
    ensures Calm(s, run)
  {
    if run != [] {
      WithinIsCalm(env, s, run[..|run| - 1]);
    }
  }

  /** Then an answer is what a call with nothing between its queries would get now. */
  lemma QuietAnswer(env: Queries, s: State, e: Event)
    requires Undisturbed(env) && Permitted(env, s, e) && Sound(s) && Quiet(s) && AnswerOf(s, e).Some?
    ensures AnswerOf(s, e).value == DailySpend(s.db, s.pending[e.rid].k, s.now)
  {
  }

  lemma WithinExtends(env: Queries, s: State, run: seq<Event>, e: Event)
    ensures Within(env, s, run + [e]) <==> Within(env, s, run) && Permitted(env, Run(s, run), e)
  {
    assert (run + [e])[..|run + [e]| - 1] == run;
  }

  lemma QuietAnswersRise(env: Queries, run: seq<Event>, e: Event, then': seq<Event>, f: Event)
    requires Undisturbed(env)
    requires Within(env, START, run + [e]) && Within(env, Step(Run(START, run), e), then' + [f])
    ensures !Falls(Run(START, run), e, Run(Step(Run(START, run), e), then'), f)
  {
    var s := Run(START, run);
    var s' := Step(s, e);
    var t := Run(s', then');
    WithinExtends(env, START, run, e);
    WithinExtends(env, s', then', f);
    RunKeepsSound(START, run);
    QuietRun(env, START, run);
    StepKeepsSound(s, e);
    QuietStep(env, s, e);
    QuietRun(env, s', then');
    RunKeepsSound(s', then');
    if AnswerOf(s, e).Some? && AnswerOf(t, f).Some? && Day(s.now) == Day(t.now) {
      QuietAnswer(env, s, e);
      QuietAnswer(env, t, f);
      assert s'.db == s.db && s'.now == s.now;
      WithinIsCalm(env, s', then');
      SpendIsMonotone(s', then', s.pending[e.rid].k);
    }
  }

  // Three runs in which a call is about to answer the direct sum, which is 5, and the next finds 3 in the view.

  const FIRST := Log("k", "groq", 3, 0)
  const SECOND := Log("k", "groq", 2, 0)
  const ROWS: map<(ApiKey, nat), nat> := map[("k", 0) := 3]

  lemma SumsOfWitness()
    ensures Refreshed(Db([FIRST], map[])).view == ROWS
    ensures forall view :: DirectSum(Db([FIRST, SECOND], view), "k", 0) == 5
  {
    assert SumOn([], "k", 0) == 0;
    SumGrows([], FIRST, "k", 0);
    assert [] + [FIRST] == [FIRST];
    SumGrows([FIRST], SECOND, "k", 0);
    assert [FIRST] + [SECOND] == [FIRST, SECOND];
    assert Groups([FIRST]) == {("k", 0)};
    FallbackIsDirectSum([FIRST, SECOND], "k", 0);
  }

  function Clean(logs: seq<Log>, view: map<(ApiKey, nat), nat>): State { State(Db(logs, view), None, map[], map[], 0) }

  ghost predicate Reachable(env: Queries, s: State) { exists run :: Within(env, START, run) && Run(START, run) == s }

  lemma Take(env: Queries, s: State, e: Event, after: State)
    requires Reachable(env, s) && Permitted(env, s, e) && Step(s, e) == after
    ensures Reachable(env, after)
  {
    var run :| Within(env, START, run) && Run(START, run) == s;
    WithinExtends(env, START, run, e);
    Unfold(START, run, e);
  }

  lemma FirstLogged(env: Queries)
    ensures Reachable(env, Clean([FIRST], map[]))
  {
    assert Within(env, START, []) && Run(START, []) == START;
    Take(env, START, Insert("k", "groq", 3), Clean([FIRST], map[]));
  }

  /** A call about to send its second query, over these rows. */
  function Between(logs: seq<Log>, view: map<(ApiKey, nat), nat>): State {
    With(Clean(logs, view), 0, Summing("k", 0, 0, 0))
  }

  /** A refresh makes the first cost visible, and the second one is logged. */
  lemma BothLogged(env: Queries)
    ensures Reachable(env, Clean([FIRST, SECOND], ROWS))
  {
    FirstLogged(env);
    RowsShown(env, Clean([FIRST], map[]));
    SecondLogged(env, Clean([FIRST], ROWS));
  }

  lemma RowsShown(env: Queries, s: State)
    requires Reachable(env, s) && s == Clean([FIRST], map[]).(pending := s.pending)
    requires BetweenQueries(s) ==> env.refreshBetween
    ensures Reachable(env, s.(db := Db([FIRST], ROWS)))
  {
    SumsOfWitness();
    Take(env, s, BeginRefresh, s.(snapshot := Some(ROWS)));
    Take(env, s.(snapshot := Some(ROWS)), EndRefresh, s.(db := Db([FIRST], ROWS)));
  }

  lemma SecondLogged(env: Queries, s: State)
    requires Reachable(env, s) && s.db.logs == [FIRST] && s.now == 0 && (s.snapshot.Some? ==> env.slowRefresh)
    ensures Reachable(env, s.(db := s.db.(logs := [FIRST, SECOND])))
  {
    Take(env, s, Insert("k", "groq", 2), s.(db := s.db.(logs := [FIRST, SECOND])));
  }

  /** A call whose first query fails, or finds no row. */
  lemma Asks(env: Queries, s: State, fails: bool)
    requires Reachable(env, s) && s == Clean(s.db.logs, s.db.view).(snapshot := s.snapshot)
    requires if fails then env.viewErrors else ("k", 0) !in s.db.view
    ensures Reachable(env, With(s, 0, Summing("k", 0, 0, 0)))
  {
    Take(env, s, Check(0, "k", false), With(s, 0, Asking("k", 0, 0)));
    Take(env, With(s, 0, Asking("k", 0, 0)), View(0, fails), With(s, 0, Summing("k", 0, 0, 0)));
  }

  lemma ErrorFalls(env: Queries)
    requires env.viewErrors
    ensures Reachable(env, Between([FIRST, SECOND], ROWS))
  {
    BothLogged(env);
    Asks(env, Clean([FIRST, SECOND], ROWS), true);
  }

  lemma RefreshFalls(env: Queries)
    requires env.refreshBetween
    ensures Reachable(env, Between([FIRST, SECOND], ROWS))
  {
    FirstLogged(env);
    Asks(env, Clean([FIRST], map[]), false);
    RowsShown(env, Between([FIRST], map[]));
    SecondLogged(env, Between([FIRST], ROWS));
  }

  /** The rows of a refresh that began before the second cost was logged become visible after the answer. */
  function Slow(): State { Between([FIRST, SECOND], map[]).(snapshot := Some(ROWS)) }

  lemma SlowFalls(env: Queries)
    requires env.slowRefresh
    ensures Reachable(env, Slow())
  {
    FirstLogged(env);
    SumsOfWitness();
    var s := Clean([FIRST], map[]);
    Take(env, s, BeginRefresh, s.(snapshot := Some(ROWS)));
    SecondLogged(env, s.(snapshot := Some(ROWS)));
    Asks(env, Clean([FIRST, SECOND], map[]).(snapshot := Some(ROWS)), false);
  }

  function FallenState(): State {
    Clean([FIRST, SECOND], ROWS).(pending := map[0 := Answered("k", 0, 0, 5, 0), 1 := Asking("k", 0, 0)])
  }

  /** The call under way answers 5, a refresh becomes visible if one has begun, and a new call asks. */
  lemma FiveAnswered(s: State)
    requires s == Between([FIRST, SECOND], ROWS) || s == Slow()
    ensures AnswerOf(s, Sum(0, false)) == Some(5)
    ensures var s' := Step(s, Sum(0, false));
            !BetweenQueries(s') && Step(Step(s', EndRefresh), Check(1, "k", false)) == FallenState()
  {
    SumsOfWitness();
    assert Step(s, Sum(0, false)) == With(s, 0, Answered("k", 0, 0, 5, 0));
    assert Step(With(s, 0, Answered("k", 0, 0, 5, 0)), EndRefresh) ==
           With(Clean([FIRST, SECOND], ROWS), 0, Answered("k", 0, 0, 5, 0));
  }

  lemma ThreeFollows(env: Queries, s: State)
    requires !BetweenQueries(s) && Step(Step(s, EndRefresh), Check(1, "k", false)) == FallenState()
    ensures Run(s, [EndRefresh, Check(1, "k", false)]) == FallenState()
    ensures Within(env, s, [EndRefresh, Check(1, "k", false)] + [View(1, false)])
  {
    var c, d := EndRefresh, Check(1, "k", false);
    Unfold(s, [], c);
    Unfold(s, [c], d);
    WithinExtends(env, s, [], c);
    WithinExtends(env, s, [c], d);
    WithinExtends(env, s, [c, d], View(1, false));
    assert [] + [c] == [c] && [c] + [d] == [c, d];
  }

  lemma AnswersFall(env: Queries, s: State)
    requires Reachable(env, s) && (s == Between([FIRST, SECOND], ROWS) || s == Slow())
    ensures !AnswersRise(env)
  {
    var run :| Within(env, START, run) && Run(START, run) == s;
    FiveAnswered(s);
    ThreeFollows(env, Step(s, Sum(0, false)));
    FallsToThree(s);
  }

  lemma FallsToThree(s: State)
    requires s == Between([FIRST, SECOND], ROWS) || s == Slow()
    requires AnswerOf(s, Sum(0, false)) == Some(5)
    ensures Falls(s, Sum(0, false), FallenState(), View(1, false))
  {
    assert AnswerOf(FallenState(), View(1, false)) == Some(3);
  }

  /**
    Answers never decrease within a day, in any run, iff no view query fails, no refresh becomes visible
    between the two queries of a call, and nothing is logged while the view is refreshed.
   */
  lemma AnswersRiseExact(env: Queries)
    ensures AnswersRise(env) <==> !env.viewErrors && !env.refreshBetween && !env.slowRefresh
  {
    if env.viewErrors {
      ErrorFalls(env);
      AnswersFall(env, Between([FIRST, SECOND], ROWS));
    } else if env.refreshBetween {
      RefreshFalls(env);
      AnswersFall(env, Between([FIRST, SECOND], ROWS));
    } else if env.slowRefresh {
      SlowFalls(env);
      AnswersFall(env, Slow());
    } else {
      forall run: seq<Event>, e: Event, then': seq<Event>, f: Event |
        Within(env, START, run + [e]) && Within(env, Step(Run(START, run), e), then' + [f])
        ensures !Falls(Run(START, run), e, Run(Step(Run(START, run), e), then'), f)
      {
        QuietAnswersRise(env, run, e, then', f);
      }
    }
  }

  // ---------------------------------------------------------------- how stale an answer can get

  /** Every answer below the limit was given by `t0` and is gone after t0 + delay + CACHE_MS. */
  ghost predicate Stale(delay: nat, t0: nat, k: ApiKey, limit: int, s: State) {
    && ((k, Day(t0)) in s.cache ==>
          Worth(s.cache[(k, Day(t0))]) >= limit || s.cache[(k, Day(t0))].expires <= t0 + delay + CACHE_MS)
    && (forall r | IsAnswered(s, r) && s.pending[r].k == k && s.pending[r].day == Day(t0) ::
          s.pending[r].value >= limit || s.pending[r].on <= t0)
  }

  /** Entries are stored no longer than CACHE_MS ahead. */
  ghost predicate Timely(s: State) { forall g | g in s.cache :: s.cache[g].expires <= s.now + CACHE_MS }

  lemma {:induction false} RunIsTimely(run: seq<Event>)
    ensures Timely(Run(START, run))
  {
    if run != [] {
      RunIsTimely(run[..|run| - 1]);
    }
  }

  /** Whichever of its queries answers, it finds at least what a call without interruption would. */
  lemma AnswerAtLeastSpend(s: State, e: Event)
    requires Sound(s) && AnswerOf(s, e).Some?
    ensures AnswerOf(s, e).value >= DailySpend(s.db, s.pending[e.rid].k, s.now)
  {
    FallbackExceedsView(s.db, s.pending[e.rid].k, s.now);
  }

  lemma StaleStep(pace: Pace, t0: nat, k: ApiKey, limit: int, s: State, e: Event)
    requires Sound(s) && Stale(pace.delay, t0, k, limit, s) && Enabled(pace, s, e)
    requires DailySpend(s.db, k, s.now) >= limit
    ensures Stale(pace.delay, t0, k, limit, Step(s, e))
  {
    if AnswerOf(s, e).Some? {
      AnswerAtLeastSpend(s, e);
    }
  }

  lemma {:induction false} StaleRun(pace: Pace, k: ApiKey, limit: int, s: State, run: seq<Event>)
    requires Sound(s) && Settled(s) && Timely(s) && Legal(pace, s, run) && !pace.slowRefresh
    requires DailySpend(s.db, k, s.now) >= limit && Day(Run(s, run).now) == Day(s.now)
    ensures Stale(pace.delay, s.now, k, limit, Run(s, run))
  {
    if run != [] {
      var before := run[..|run| - 1];
      ClockAdvances(s, before);
      StaleRun(pace, k, limit, s, before);
      LegalIsCalm(pace, s, before);
      SpendIsMonotone(s, before, k);
      RunKeepsSound(s, before);
      StaleStep(pace, s.now, k, limit, Run(s, before), run[|run| - 1]);
    }
  }

  /** A check of key `k` begun at least `wait` after `t0` decides for an amount below the limit. */
  predicate PassesLate(t: State, e: Event, k: ApiKey, limit: int, t0: nat, wait: nat) {
    Decided(t, e).Some? && Decided(t, e).value.k == k && Decided(t, e).value.begun >= t0 + wait &&
    Decided(t, e).value.amount < limit
  }

  /**
    Once GetDailySpend has reached the limit, every check begun from `wait` later on rejects as long as the
    UTC day lasts, in every run that keeps the pace.
   */
  ghost predicate RejectsAfter(pace: Pace, wait: nat) {
    forall first: seq<Event>, then': seq<Event>, e: Event, k: ApiKey, limit: int ::
      var s := Run(START, first);
      var t := Run(s, then');
      Legal(pace, START, first) && Legal(pace, s, then') && DailySpend(s.db, k, s.now) >= limit &&
      Day(t.now) == Day(s.now) ==>
        !PassesLate(t, e, k, limit, s.now, wait)
  }

  lemma LateChecksReject(pace: Pace, wait: nat, first: seq<Event>, then': seq<Event>, e: Event, k: ApiKey, limit: int)
    requires wait > pace.delay + CACHE_MS && !pace.slowRefresh
    requires Legal(pace, START, first) && Legal(pace, Run(START, first), then')
    requires DailySpend(Run(START, first).db, k, Run(START, first).now) >= limit
    requires Day(Run(Run(START, first), then').now) == Day(Run(START, first).now)
    ensures !PassesLate(Run(Run(START, first), then'), e, k, limit, Run(START, first).now, wait)
  {
    var s := Run(START, first);
    RunKeepsSound(START, first);
    RunIsTimely(first);
    LegalIsCalm(pace, START, first);
    CalmRunSettled(START, first);
    StaleRun(pace, k, limit, s, then');
    RunKeepsSound(s, then');
  }

  const BEFORE := [Check(0, "k", false), View(0, false), Sum(0, false), Insert("k", "groq", 1)]

  function Late(delay: nat): seq<Event> { [Tick(delay), Put(0, false), Tick(CACHE_MS)] }

  function LimitState(): State {
    State(Db([Log("k", "groq", 1, 0)], map[]), None, map[], map[0 := Answered("k", 0, 0, 0, 0)], 0)
  }

  lemma LimitReached(pace: Pace)
    ensures Legal(pace, START, BEFORE) && Run(START, BEFORE) == LimitState()
    ensures DailySpend(LimitState().db, "k", 0) == 1
  {
    var r := BEFORE;
    assert r[..0] == [] && r[..1] == r[..0] + [r[0]] && r[..2] == r[..1] + [r[1]] && r[..3] == r[..2] + [r[2]];
    assert r == r[..3] + [r[3]];
    assert SumSince([], "k", 0) == 0;
    Unfold(START, r[..0], r[0]);
    Unfold(START, r[..1], r[1]);
    assert Run(START, r[..2]) == START.(pending := map[0 := Summing("k", 0, 0, 0)]);
    Unfold(START, r[..2], r[2]);
    assert Run(START, r[..3]) == START.(pending := map[0 := Answered("k", 0, 0, 0, 0)]);
    Unfold(START, r[..3], r[3]);
    var logs := [Log("k", "groq", 1, 0)];
    assert logs[..0] == [] && SumSince(logs, "k", 0) == 1;
  }

  /** A store delayed by `late` brings the old answer back after the limit was reached. */
  lemma StaleAnswerLives(pace: Pace, late: nat, wait: nat)
    requires late <= pace.delay && late + CACHE_MS < DAY_MS && wait <= late + CACHE_MS
    ensures Legal(pace, LimitState(), Late(late))
    ensures var t := Run(LimitState(), Late(late));
            Day(t.now) == 0 && PassesLate(t, Check(1, "k", false), "k", 1, 0, wait)
  {
    var s, run := LimitState(), Late(late);
    assert [] + [run[0]] + [run[1]] + [run[2]] == run;
    Unfold(s, [], run[0]);
    Unfold(s, [] + [run[0]], run[1]);
    Unfold(s, [] + [run[0]] + [run[1]], run[2]);
    assert Run(s, run).cache == map[("k", 0) := Entry(Some(0), late + CACHE_MS)];
  }

  const DURING := [Insert("k", "groq", 3), BeginRefresh, Insert("k", "groq", 2)]

  /** The limit of 5 is reached by the direct sum while a refresh is under way that saw only 3. */
  lemma LimitDuringRefresh(pace: Pace)
    requires pace.slowRefresh
    ensures Legal(pace, START, DURING)
    ensures Run(START, DURING) == Clean([FIRST, SECOND], map[]).(snapshot := Some(ROWS))
    ensures DailySpend(Run(START, DURING).db, "k", 0) == 5
  {
    var r := DURING;
    SumsOfWitness();
    assert r[..0] == [] && r[..1] == r[..0] + [r[0]] && r[..2] == r[..1] + [r[1]] && r == r[..2] + [r[2]];
    Unfold(START, r[..0], r[0]);
    assert Run(START, r[..1]) == Clean([FIRST], map[]);
    Unfold(START, r[..1], r[1]);
    assert Run(START, r[..2]) == Clean([FIRST], map[]).(snapshot := Some(ROWS));
    Unfold(START, r[..2], r[2]);
  }

  function Waits(wait: nat): seq<Event> { [EndRefresh, Tick(wait), Check(0, "k", false), View(0, false)] }

  lemma RowFallsBelowLimit(pace: Pace, wait: nat)
    requires wait < DAY_MS
    ensures var s := Clean([FIRST, SECOND], map[]).(snapshot := Some(ROWS));
            var t := Run(s, Waits(wait));
            Legal(pace, s, Waits(wait)) && Day(t.now) == 0 && PassesLate(t, Put(0, false), "k", 5, 0, wait)
  {
    var s, r := Clean([FIRST, SECOND], map[]).(snapshot := Some(ROWS)), Waits(wait);
    assert [] + [r[0]] == [r[0]] && [r[0]] + [r[1]] == [r[0], r[1]] && [r[0], r[1]] + [r[2]] == [r[0], r[1], r[2]];
    assert [r[0], r[1], r[2]] + [r[3]] == r;
    var s2 := Clean([FIRST, SECOND], ROWS).(now := wait);
    Unfold(s, [], r[0]);
    Unfold(s, [r[0]], r[1]);
    assert Run(s, [r[0], r[1]]) == s2;
    Unfold(s, [r[0], r[1]], r[2]);
    assert Run(s, [r[0], r[1], r[2]]) == With(s2, 0, Asking("k", 0, wait));
    Unfold(s, [r[0], r[1], r[2]], r[3]);
    assert Run(s, r) == With(s2, 0, Answered("k", 0, wait, 3, wait));
  }

  function Min(a: nat, b: nat): nat { if a < b then a else b }

  /** No check is begun a day later while the day lasts. */
  lemma NoneAfterTheDay(first: seq<Event>, then': seq<Event>, e: Event, k: ApiKey, limit: int, wait: nat)
    requires wait >= DAY_MS && Day(Run(Run(START, first), then').now) == Day(Run(START, first).now)
    ensures !PassesLate(Run(Run(START, first), then'), e, k, limit, Run(START, first).now, wait)
  {
    var t := Run(Run(START, first), then');
    RunKeepsSound(START, first);
    RunKeepsSound(Run(START, first), then');
    if Decided(t, e).Some? {
      BegunInThePast(t, e);
    }
  }

  lemma BegunInThePast(t: State, e: Event)
    requires Sound(t) && Decided(t, e).Some?
    ensures Decided(t, e).value.begun <= t.now
  {
  }

  lemma ChecksRejectAfter(pace: Pace, wait: nat)
    requires wait >= DAY_MS || (!pace.slowRefresh && wait > pace.delay + CACHE_MS)
    ensures RejectsAfter(pace, wait)
  {
    forall first: seq<Event>, then': seq<Event>, e: Event, k: ApiKey, limit: int |
      var s := Run(START, first);
      var t := Run(s, then');
      Legal(pace, START, first) && Legal(pace, s, then') && DailySpend(s.db, k, s.now) >= limit &&
      Day(t.now) == Day(s.now)
      ensures !PassesLate(Run(Run(START, first), then'), e, k, limit, Run(START, first).now, wait)
    {
      if wait >= DAY_MS {
        NoneAfterTheDay(first, then', e, k, limit, wait);
      } else {
        LateChecksReject(pace, wait, first, then', e, k, limit);
      }
    }
  }

  /**
    The staleness of the budget check is exactly its cache lifetime plus the delay of a store, up to a day,
    and without any bound but the day if costs are logged while the view is refreshed.
   */
  lemma StalenessExact(pace: Pace, wait: nat)
    ensures RejectsAfter(pace, wait) <==>
            wait >= 86_400_000 || (!pace.slowRefresh && wait > pace.delay + 60_000)
  {
    if wait >= DAY_MS || (!pace.slowRefresh && wait > pace.delay + CACHE_MS) {
      ChecksRejectAfter(pace, wait);
    } else if pace.slowRefresh {
      LimitDuringRefresh(pace);
      RowFallsBelowLimit(pace, wait);
    } else {
      LimitReached(pace);
      StaleAnswerLives(pace, Min(pace.delay, DAY_MS - CACHE_MS - 1), wait);
    }
  }
}
