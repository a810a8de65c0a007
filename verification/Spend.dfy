/**
  The spend log of internal/store/postgres.go: `InsertLog`, `GetDailySpend` and the materialised
  view of migrations/002_budget_view.sql.

  Money is in micro-dollars, the resolution of the cost_usd column; time is in milliseconds.
 */
module Spend {
  import opened Models

  const DAY_MS := 86_400_000

  type ApiKey = string

  function Day(t: nat): nat { t / DAY_MS }

  function Midnight(t: nat): nat { Day(t) * DAY_MS }

  datatype Log = Log(apiKey: ApiKey, provider: string, cost: nat, at: nat)

  /** The log table and the rows of daily_spend_mv. */
  datatype Db = Db(logs: seq<Log>, view: map<(ApiKey, nat), nat>)

  const EMPTY_DB := Db([], map[])

  /** cost_usd is NUMERIC(10,6): a price rounded to micro-dollars.  Prices are not negative. */
  function Micros(usd: real): nat { if usd < 0.0 then 0 else (usd * 1000000.0 + 0.5).Floor }

  /** The amount that is stored is the price to the nearest micro-dollar. */
  lemma MicrosIsNearest(usd: real)
    ensures usd >= 0.0 ==> Micros(usd) as real - 0.5 <= usd * 1000000.0 < Micros(usd) as real + 0.5
    ensures usd < 0.0 ==> Micros(usd) == 0
  {
  }

  /** Midnight is the last multiple of 24 hours, and days are numbered by it. */
  lemma MidnightIsLast(t: nat)
    ensures Midnight(t) % 86_400_000 == 0 && Midnight(t) <= t < Midnight(t) + 86_400_000
    ensures Midnight(t) == Day(t) * 86_400_000
  {
  }

  /** SUM(cost_usd) over the rows of one key on one UTC day. */
  function SumOn(logs: seq<Log>, k: ApiKey, day: nat): nat {
    if logs == [] then 0 else
    var l := logs[|logs| - 1];
    SumOn(logs[..|logs| - 1], k, day) + if l.apiKey == k && Day(l.at) == day then l.cost else 0
  }

  /** SUM(cost_usd) over the rows of one key from a moment on. */
  function SumSince(logs: seq<Log>, k: ApiKey, from: nat): nat {
    if logs == [] then 0 else
    var l := logs[|logs| - 1];
    SumSince(logs[..|logs| - 1], k, from) + if l.apiKey == k && l.at >= from then l.cost else 0
  }

  function Groups(logs: seq<Log>): set<(ApiKey, nat)> {
    set l | l in logs :: (l.apiKey, Day(l.at))
  }

  /** REFRESH MATERIALIZED VIEW. */
  function Refreshed(db: Db): Db {
    db.(view := map g | g in Groups(db.logs) :: SumOn(db.logs, g.0, g.1))
  }

  /** The CHECK constraint on request_logs.provider. */
  predicate Accepted(l: Log) { l.provider == "groq" || l.provider == "gemini" }

  function Inserted(db: Db, l: Log): Db {
    if Accepted(l) then db.(logs := db.logs + [l]) else db
  }

  /** The fallback query: the sum since midnight UTC. */
  function DirectSum(db: Db, k: ApiKey, now: nat): nat { SumSince(db.logs, k, Midnight(now)) }

  /** What GetDailySpend answers when no query fails and nothing happens between its two queries. */
  function DailySpend(db: Db, k: ApiKey, now: nat): nat {
    if (k, Day(now)) in db.view then db.view[(k, Day(now))] else DirectSum(db, k, now)
  }

  datatype Answer = Spent(amount: nat) | Failed

  /** Whether the view query yields nothing, so that the fallback is sent. */
  predicate AsksTwice(db: Db, k: ApiKey, viewAt: nat, viewFails: bool) {
    viewFails || (k, Day(viewAt)) !in db.view
  }

  /** The answer of two separate statements, each with the tables and the clock it finds. */
  function TwoQueries(db: Db, later: Db, k: ApiKey, viewAt: nat, sumAt: nat, viewFails: bool, sumFails: bool): Answer {
    if !AsksTwice(db, k, viewAt, viewFails) then Spent(db.view[(k, Day(viewAt))])
    else if sumFails then Failed
    else Spent(DirectSum(later, k, sumAt))
  }

  class Store {
    var logs: seq<Log>
    var view: map<(ApiKey, nat), nat>

    function Contents(): Db reads this { Db(logs, view) }

    constructor ()
      ensures Contents() == EMPTY_DB
    {
      logs, view := [], map[];
    }

    /** created_at defaults to the database clock; `reply` is how the insert ends for the caller. */
    method InsertLog(apiKey: ApiKey, provider: string, cost: nat, now: nat, reply: Reply) returns (err: bool)
      modifies this
      ensures Contents() == if Executed(reply) then Inserted(old(Contents()), Log(apiKey, provider, cost, now))
                            else old(Contents())
      ensures err <==> !reply.Replied? || !(provider == "groq" || provider == "gemini")
    {
      if !Executed(reply) || (provider != "groq" && provider != "gemini") {
        return true;
      }
      logs := logs + [Log(apiKey, provider, cost, now)];
      return !reply.Replied?;
    }

    /**
      `viewFails` and `sumFails` say which of the two queries fails.  They are separate statements:
      `meanwhile` is how other clients leave the tables between them.
     */
    method GetDailySpend(k: ApiKey, viewAt: nat, sumAt: nat, viewFails: bool, sumFails: bool, meanwhile: Db)
      returns (a: Answer)
      modifies this
      ensures a == TwoQueries(old(Contents()), meanwhile, k, viewAt, sumAt, viewFails, sumFails)
      ensures Contents() == if AsksTwice(old(Contents()), k, viewAt, viewFails) then meanwhile else old(Contents())
    {
      if !viewFails && (k, Day(viewAt)) in view {
        return Spent(view[(k, Day(viewAt))]);
      }
      logs, view := meanwhile.logs, meanwhile.view;
      if sumFails {
        return Failed;
      }
      return Spent(SumSince(logs, k, Midnight(sumAt)));
    }
  }

  // ---------------------------------------------------------------- what the view can be off by

  predicate InPast(logs: seq<Log>, now: nat) { forall l | l in logs :: l.at <= now }

  predicate ViewBelow(db: Db) {
    forall g | g in db.view :: db.view[g] <= SumOn(db.logs, g.0, g.1)
  }

  lemma SumGrows(logs: seq<Log>, l: Log, k: ApiKey, day: nat)
    ensures SumOn(logs + [l], k, day) ==
            SumOn(logs, k, day) + if l.apiKey == k && Day(l.at) == day then l.cost else 0
  {
  }

  /** With no row from the future, the fallback sums exactly the current UTC day. */
  lemma {:induction false} FallbackIsDirectSum(logs: seq<Log>, k: ApiKey, now: nat)
    requires InPast(logs, now)
    ensures SumSince(logs, k, Midnight(now)) == SumOn(logs, k, Day(now))
  {
    if logs != [] {
      var l := logs[|logs| - 1];
      assert l in logs;
      assert forall x | x in logs[..|logs| - 1] :: x in logs;
      FallbackIsDirectSum(logs[..|logs| - 1], k, now);
    }
  }

  /** GetDailySpend never exceeds the direct sum and equals it where the view has no row. */
  lemma SpendBelowDirectSum(db: Db, k: ApiKey, now: nat)
    requires InPast(db.logs, now) && ViewBelow(db)
    ensures DailySpend(db, k, now) <= SumOn(db.logs, k, Day(now))
    ensures (k, Day(now)) !in db.view ==> DailySpend(db, k, now) == SumOn(db.logs, k, Day(now))
  {
    FallbackIsDirectSum(db.logs, k, now);
  }

  lemma {:induction false} NoGroupNoSum(logs: seq<Log>, k: ApiKey, day: nat)
    requires (k, day) !in Groups(logs)
    ensures SumOn(logs, k, day) == 0
  {
    if logs != [] {
      assert logs[|logs| - 1] in logs;
      assert Groups(logs[..|logs| - 1]) <= Groups(logs);
      NoGroupNoSum(logs[..|logs| - 1], k, day);
    }
  }

  /** Right after a refresh GetDailySpend is the direct sum for every key. */
  lemma FreshViewIsDirectSum(db: Db, k: ApiKey, now: nat)
    requires InPast(db.logs, now)
    ensures DailySpend(Refreshed(db), k, now) == SumOn(db.logs, k, Day(now))
    ensures ViewBelow(Refreshed(db))
  {
    FallbackIsDirectSum(db.logs, k, now);
  }

  /** An insert never lowers a sum or an answer. */
  lemma InsertKeepsSpend(db: Db, l: Log, k: ApiKey, now: nat)
    requires InPast(db.logs, now) && ViewBelow(db) && l.at == now
    ensures ViewBelow(Inserted(db, l)) && InPast(Inserted(db, l).logs, now)
    ensures DailySpend(Inserted(db, l), k, now) >= DailySpend(db, k, now)
    ensures forall k', day :: SumOn(Inserted(db, l).logs, k', day) >= SumOn(db.logs, k', day)
  {
    forall k', day
      ensures SumOn(Inserted(db, l).logs, k', day) >= SumOn(db.logs, k', day)
    {
      SumGrows(db.logs, l, k', day);
    }
    FallbackIsDirectSum(db.logs, k, now);
    FallbackIsDirectSum(Inserted(db, l).logs, k, now);
  }

  /** A refresh never lowers an answer, with or without an earlier row. */
  lemma RefreshKeepsSpend(db: Db, k: ApiKey, now: nat)
    requires InPast(db.logs, now) && ViewBelow(db)
    ensures DailySpend(Refreshed(db), k, now) >= DailySpend(db, k, now)
  {
    FreshViewIsDirectSum(db, k, now);
    SpendBelowDirectSum(db, k, now);
  }

  /**
    The fallback answers the direct sum whatever the view holds, and exceeds the answer of the view
    exactly when that has a row for today which lags behind the log.
   */
  lemma FallbackExceedsView(db: Db, k: ApiKey, now: nat)
    requires InPast(db.logs, now) && ViewBelow(db)
    ensures DirectSum(db, k, now) == SumOn(db.logs, k, Day(now)) >= DailySpend(db, k, now)
    ensures DirectSum(db, k, now) > DailySpend(db, k, now) <==>
            (k, Day(now)) in db.view && db.view[(k, Day(now))] < SumOn(db.logs, k, Day(now))
  {
    FallbackIsDirectSum(db.logs, k, now);
  }
}
