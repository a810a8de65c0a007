/**
  Stampede protection: what the lock of a key excludes, and in which environments.
 */
module Stampede {
  import opened Models
  import opened Gateway
  import opened Failover

  // ---------------------------------------------------------------- environments

  /**
    What may happen around a key: its lock expires; an error makes a caller act as owner; failover of
    another key's request calls a provider with this key, or deletes its lock; a stream calls with this
    key; the value is set while a request that missed it stands before the lock; a read of the cached
    value fails; the cached value goes away; the delete of the lock is sent again, so that it may be executed
    twice; a SET is executed that its client has given up.
   */
  datatype Env = Env(lockExpiry: bool, ownerErrors: bool, foreignCalls: bool, foreignUnlocks: bool, streamCalls: bool,
                     staleMisses: bool, failingGets: bool, eviction: bool, resentDeletes: bool, lateSets: bool)

  /** GetOrLock returns an error, so the handler acts as owner without a lock. */
  predicate OwnerError(cfg: Config, s: State, e: Event, k: Key) {
    (e.GiveUp? || (e.SetNX? && !e.reply.Replied?)) && e.rid in s.requests && cfg.hash(s.requests[e.rid].own) == k
  }

  /** A provider call is entered with a request whose key is `k`. */
  predicate EntersCall(cfg: Config, s: State, e: Event, k: Key) {
    && e.Try? && e.rid in s.requests && cfg.hash(s.requests[e.rid].req) == k
    && LetThrough(cfg, s, s.requests[e.rid].req.provider)
  }

  predicate StreamCall(cfg: Config, s: State, e: Event, k: Key) {
    EntersCall(cfg, s, e, k) && s.requests[e.rid].own.stream
  }

  /** Failover has rewritten a request with another key of its own. */
  predicate ForeignCall(cfg: Config, s: State, e: Event, k: Key) {
    EntersCall(cfg, s, e, k) && !s.requests[e.rid].own.stream && cfg.hash(s.requests[e.rid].own) != k
  }

  predicate ForeignUnlock(cfg: Config, s: State, e: Event, k: Key) {
    && DeletesLock(e) && e.rid in s.requests
    && cfg.hash(s.requests[e.rid].req) == k && cfg.hash(s.requests[e.rid].own) != k
  }

  /**
    The delete of the lock may be executed more than once: a copy is executed while the request still waits for
    the reply, or one is on its way when another is left behind or executed.
   */
  predicate ResentDelete(cfg: Config, s: State, e: Event, k: Key) {
    && (e.Late? || e.Leave? || e.Unlock?) && At(s, e.rid, Unlocking) && cfg.hash(s.requests[e.rid].req) == k
    && if e.Late? then e.command.DeleteLock?
       else DeleteLock in s.requests[e.rid].late && (e.Unlock? ==> Executed(e.reply))
  }

  predicate LateSet(cfg: Config, s: State, e: Event, k: Key) {
    e.Late? && e.command.SetValue? && e.rid in s.requests && cfg.hash(s.requests[e.rid].req) == k
  }

  predicate BeforeLock(cfg: Config, r: Request, k: Key) { r.pc.Locking? && cfg.hash(r.own) == k }

  predicate StaleMiss(cfg: Config, s: State, e: Event, k: Key) {
    && SetsValue(e) && e.rid in s.requests && cfg.hash(s.requests[e.rid].req) == k
    && exists x | x in s.requests :: BeforeLock(cfg, s.requests[x], k)
  }

  predicate FailingGet(cfg: Config, s: State, e: Event, k: Key) {
    e.Get? && e.fails && k in s.values && e.rid in s.requests && cfg.hash(s.requests[e.rid].own) == k
  }

  predicate Permitted(env: Env, cfg: Config, s: State, e: Event, k: Key) {
    && (e == ExpireLock(k) ==> env.lockExpiry)
    && (OwnerError(cfg, s, e, k) ==> env.ownerErrors)
    && (ForeignCall(cfg, s, e, k) ==> env.foreignCalls)
    && (ForeignUnlock(cfg, s, e, k) ==> env.foreignUnlocks)
    && (StreamCall(cfg, s, e, k) ==> env.streamCalls)
    && (StaleMiss(cfg, s, e, k) ==> env.staleMisses)
    && (FailingGet(cfg, s, e, k) ==> env.failingGets)
    && (e == Forget(k) ==> env.eviction)
    && (ResentDelete(cfg, s, e, k) ==> env.resentDeletes)
    && (LateSet(cfg, s, e, k) ==> env.lateSets)
  }

  /** Every step of the run is permitted for `k`. */
  predicate Within(env: Env, cfg: Config, run: seq<Event>, k: Key) {
    run == [] ||
    (Within(env, cfg, run[..|run| - 1], k) &&
     Permitted(env, cfg, Run(cfg, Start(cfg), run[..|run| - 1]), run[|run| - 1], k))
  }

  // ---------------------------------------------------------------- what the lock promises

  /** Between its successful SETNX on `k` and the delete of that lock. */
  predicate Holds(cfg: Config, requests: map<Rid, Request>, rid: Rid, k: Key) {
    rid in requests && requests[rid].holds && cfg.hash(requests[rid].own) == k
  }

  ghost predicate AtMostOneHolder(cfg: Config, requests: map<Rid, Request>, k: Key) {
    forall x, y | Holds(cfg, requests, x, k) && Holds(cfg, requests, y, k) :: x == y
  }

  /** A provider call made with key `k`, by whomever, that has not returned. */
  predicate CallsWith(cfg: Config, requests: map<Rid, Request>, rid: Rid, k: Key) {
    rid in requests && requests[rid].pc.Calling? && cfg.hash(requests[rid].req) == k
  }

  ghost predicate AtMostOneCaller(cfg: Config, requests: map<Rid, Request>, k: Key) {
    forall x, y | CallsWith(cfg, requests, x, k) && CallsWith(cfg, requests, y, k) :: x == y
  }

  /** No delete of the lock of `k` is executed. */
  predicate Undeleted(cfg: Config, s: State, run: seq<Event>, k: Key) {
    run == [] ||
    (var t, e := Run(cfg, s, run[..|run| - 1]), run[|run| - 1];
     Undeleted(cfg, s, run[..|run| - 1], k) &&
     !(Enabled(t, e) && DeletesLock(e) && cfg.hash(t.requests[e.rid].req) == k))
  }

  lemma LockStep(cfg: Config, s: State, e: Event, k: Key)
    requires k in s.locks && s.now <= s.locks[k] && Enabled(s, e)
    requires !(DeletesLock(e) && cfg.hash(s.requests[e.rid].req) == k)
    ensures k in NextLocks(cfg, s, e) && NextLocks(cfg, s, e)[k] == s.locks[k]
  {
  }

  lemma {:induction false} LockStands(cfg: Config, s: State, run: seq<Event>, k: Key)
    requires k in s.locks && Undeleted(cfg, s, run, k) && Run(cfg, s, run).now <= s.locks[k]
    ensures k in Run(cfg, s, run).locks && Run(cfg, s, run).locks[k] == s.locks[k]
  {
    if run != [] {
      var t, e := Run(cfg, s, run[..|run| - 1]), run[|run| - 1];
      LockStands(cfg, s, run[..|run| - 1], k);
      if Enabled(t, e) {
        LockStep(cfg, t, e, k);
      }
    }
  }

  /** A lock that is taken shuts everybody else out for 30 s, unless it is deleted, and may expire right afterwards. */
  lemma LockLastsThirtySeconds(cfg: Config, s: State, rid: Rid, run: seq<Event>)
    requires AtLock(s, rid) && cfg.hash(s.requests[rid].req) !in s.locks
    requires Undeleted(cfg, Advance(cfg, s, SetNX(rid, Replied)), run, cfg.hash(s.requests[rid].req))
    ensures var k, taken := cfg.hash(s.requests[rid].req), Advance(cfg, s, SetNX(rid, Replied));
            var t := Run(cfg, taken, run);
            && (t.now <= s.now + 30_000_000_000 ==> k in t.locks && !Enabled(t, ExpireLock(k)))
            && (k in t.locks && t.locks[k] == taken.locks[k] && t.now > s.now + 30_000_000_000 ==>
                  Enabled(t, ExpireLock(k)))
  {
    var k, taken := cfg.hash(s.requests[rid].req), Advance(cfg, s, SetNX(rid, Replied));
    assert k in taken.locks && taken.locks[k] == s.now + 30_000_000_000;
    if Run(cfg, taken, run).now <= taken.locks[k] {
      LockStands(cfg, taken, run, k);
    }
  }

  /** In every run of the environment at most one request holds a key. */
  ghost predicate MutualExclusion(env: Env, hash: GatewayRequest -> Key) {
    forall cfg: Config, run: seq<Event>, k: Key | cfg.hash == hash && Within(env, cfg, run, k) ::
      AtMostOneHolder(cfg, Run(cfg, Start(cfg), run).requests, k)
  }

  /** In every run of the environment at most one provider call with a key is under way. */
  ghost predicate SingleFlight(env: Env, hash: GatewayRequest -> Key) {
    forall cfg: Config, run: seq<Event>, k: Key | cfg.hash == hash && Within(env, cfg, run, k) ::
      AtMostOneCaller(cfg, Run(cfg, Start(cfg), run).requests, k)
  }

  /** Only requests with the key of their own go on to a call with it, and only from the lock. */
  predicate Guarded(env: Env) {
    !env.lockExpiry && !env.ownerErrors && !env.foreignCalls && !env.streamCalls
  }

  /** Nothing but the holder deletes the lock, as long as deletes are not sent again. */
  predicate Orderly(env: Env) {
    !env.lockExpiry && !env.ownerErrors && !(env.foreignCalls && env.foreignUnlocks)
  }

  // ---------------------------------------------------------------- why the lock excludes

  /**
    Only the winner of the lock gets past it.  It keeps the lock up to the delete, and for good when it
    is answered 503 or by a fallback, whose key is another; streams take no part.  With `resent` deletes
    the lock may be gone before the last of them; otherwise there is at most one, and whoever still has it on
    its way holds the lock.
   */
  predicate Disciplined(cfg: Config, r: Request, resent: bool) {
    && (r.own.stream ==> !r.holds)
    && (!resent && cfg.hash(r.req) == cfg.hash(r.own) ==> r.late[DeleteLock] <= (if r.holds then 1 else 0))
    && match r.pc
       case Attempt(_) => r.own.stream || r.holds
       case Calling(_) => r.own.stream || r.holds
       case Publishing(stage, _) =>
         r.holds || (cfg.hash(r.req) == cfg.hash(r.own) && (stage.Storing? || (stage.Unlocking? && resent)))
       case Finished => r.outcome.Unavailable? || (r.outcome.Fresh? && cfg.hash(r.req) != cfg.hash(r.own)) ==> r.holds
       case _ => !r.holds
  }

  predicate KeyDisciplined(cfg: Config, r: Request, k: Key, resent: bool) {
    cfg.hash(r.own) == k ==> Disciplined(cfg, r, resent)
  }

  ghost predicate AllDisciplined(cfg: Config, requests: map<Rid, Request>, k: Key, resent: bool) {
    forall x | x in requests :: KeyDisciplined(cfg, requests[x], k, resent)
  }

  /**
    Whoever calls, publishes or has been answered with `k` is a plain request with that key of its own, unless
    permitted otherwise.
   */
  predicate Domestic(env: Env, cfg: Config, r: Request, k: Key) {
    (r.pc.Calling? || r.pc.Publishing? || r.outcome.Fresh?) && cfg.hash(r.req) == k ==>
      if r.own.stream then env.streamCalls else cfg.hash(r.own) == k || env.foreignCalls
  }

  ghost predicate HoldersLock(cfg: Config, requests: map<Rid, Request>, locks: map<Key, nat>, k: Key) {
    forall x | Holds(cfg, requests, x, k) :: k in locks
  }

  ghost predicate Exclusive(cfg: Config, requests: map<Rid, Request>, locks: map<Key, nat>, k: Key) {
    AtMostOneHolder(cfg, requests, k) && HoldersLock(cfg, requests, locks, k)
  }

  ghost predicate AllDomestic(env: Env, cfg: Config, requests: map<Rid, Request>, k: Key) {
    forall x | x in requests :: Domestic(env, cfg, requests[x], k)
  }

  /** A step that leaves the lock to its holder. */
  predicate Keeps(cfg: Config, s: State, e: Event, k: Key) {
    e != ExpireLock(k) && !ForeignUnlock(cfg, s, e, k) && !ResentDelete(cfg, s, e, k)
  }

  /** What is known of the acting request. */
  predicate ActorShaped(cfg: Config, s: State, e: Event, k: Key, resent: bool) {
    IsAct(e) && !e.Arrive? ==>
      e.rid in s.requests && Shape(cfg, s.requests[e.rid]) && KeyDisciplined(cfg, s.requests[e.rid], k, resent)
  }

  lemma PublisherDisciplined(cfg: Config, s: State, e: Event, resent: bool)
    requires Enabled(s, e) && (e.Set? || e.Publish? || e.Unlock? || e.Store?)
    requires Shape(cfg, s.requests[e.rid]) && Disciplined(cfg, s.requests[e.rid], resent)
    requires ResentDelete(cfg, s, e, cfg.hash(s.requests[e.rid].own)) ==> resent
    ensures Disciplined(cfg, Next(cfg, s, e), resent)
  {
  }

  lemma LateDisciplined(cfg: Config, s: State, e: Event, resent: bool)
    requires Enabled(s, e) && (e.Leave? || e.Late?)
    requires Shape(cfg, s.requests[e.rid]) && Disciplined(cfg, s.requests[e.rid], resent)
    requires ResentDelete(cfg, s, e, cfg.hash(s.requests[e.rid].own)) ==> resent
    ensures Disciplined(cfg, Next(cfg, s, e), resent)
  {
  }

  /** Up to the attempt. */
  lemma LockerDisciplined(cfg: Config, s: State, e: Event, resent: bool)
    requires Enabled(s, e) && (e.FindSimilar? || e.Get? || e.SetNX? || e.Subscribe? || e.Receive?)
    requires Shape(cfg, s.requests[e.rid]) && Disciplined(cfg, s.requests[e.rid], resent)
    requires e.SetNX? ==> e.reply.Replied?
    ensures Disciplined(cfg, Next(cfg, s, e), resent)
  {
  }

  /** Between the attempt and the background task. */
  lemma CallerDisciplined(cfg: Config, s: State, e: Event, resent: bool)
    requires Enabled(s, e) && (e.Try? || e.Succeed? || e.Fail?)
    requires Shape(cfg, s.requests[e.rid]) && Disciplined(cfg, s.requests[e.rid], resent)
    ensures Disciplined(cfg, Next(cfg, s, e), resent)
  {
  }

  lemma ActorDisciplined(cfg: Config, s: State, e: Event, k: Key, resent: bool)
    requires Enabled(s, e) && IsAct(e) && ActorShaped(cfg, s, e, k, resent)
    requires !OwnerError(cfg, s, e, k) && (ResentDelete(cfg, s, e, k) ==> resent)
    ensures KeyDisciplined(cfg, Next(cfg, s, e), k, resent)
  {
    if !e.Arrive? && cfg.hash(s.requests[e.rid].own) == k {
      if e.Set? || e.Publish? || e.Unlock? || e.Store? {
        PublisherDisciplined(cfg, s, e, resent);
      } else if e.Leave? || e.Late? {
        LateDisciplined(cfg, s, e, resent);
      } else if e.Try? || e.Succeed? || e.Fail? {
        CallerDisciplined(cfg, s, e, resent);
      } else {
        LockerDisciplined(cfg, s, e, resent);
      }
    }
  }

  lemma TryDomestic(env: Env, cfg: Config, s: State, e: Event, k: Key)
    requires Enabled(s, e) && e.Try? && Permitted(env, cfg, s, e, k) && Shape(cfg, s.requests[e.rid])
    ensures Domestic(env, cfg, Next(cfg, s, e), k)
  {
  }

  lemma CallDomestic(env: Env, cfg: Config, s: State, e: Event, k: Key)
    requires Enabled(s, e) && (e.Succeed? || e.Fail?)
    requires Shape(cfg, s.requests[e.rid]) && Domestic(env, cfg, s.requests[e.rid], k)
    ensures Domestic(env, cfg, Next(cfg, s, e), k)
  {
  }

  lemma PublisherDomestic(env: Env, cfg: Config, s: State, e: Event, k: Key)
    requires Enabled(s, e) && (e.Set? || e.Publish? || e.Unlock? || e.Store? || e.Leave? || e.Late?)
    requires Shape(cfg, s.requests[e.rid]) && Domestic(env, cfg, s.requests[e.rid], k)
    ensures Domestic(env, cfg, Next(cfg, s, e), k)
  {
  }

  lemma ActorDomestic(env: Env, cfg: Config, s: State, e: Event, k: Key)
    requires Enabled(s, e) && IsAct(e) && Permitted(env, cfg, s, e, k)
    requires !e.Arrive? ==> Shape(cfg, s.requests[e.rid]) && Domestic(env, cfg, s.requests[e.rid], k)
    ensures Domestic(env, cfg, Next(cfg, s, e), k)
  {
    if e.Try? {
      TryDomestic(env, cfg, s, e, k);
    } else if e.Succeed? || e.Fail? {
      CallDomestic(env, cfg, s, e, k);
    } else if e.Set? || e.Publish? || e.Unlock? || e.Store? || e.Leave? || e.Late? {
      PublisherDomestic(env, cfg, s, e, k);
    }
  }

  /** A request becomes a holder only by SETNX on a free key. */
  lemma ActorHolds(cfg: Config, s: State, e: Event)
    requires Enabled(s, e) && IsAct(e) && (!e.Arrive? ==> Shape(cfg, s.requests[e.rid]))
    ensures !e.Arrive? ==> Next(cfg, s, e).own == s.requests[e.rid].own
    ensures Next(cfg, s, e).holds ==>
              !e.Arrive? && (s.requests[e.rid].holds || (e.SetNX? && cfg.hash(s.requests[e.rid].own) !in s.locks))
    ensures e.SetNX? && Next(cfg, s, e).holds && !s.requests[e.rid].holds ==>
              cfg.hash(s.requests[e.rid].own) in NextLocks(cfg, s, e)
  {
  }

  lemma BystanderHolds(cfg: Config, s: State, e: Event, r: Request, k: Key)
    requires Enabled(s, e)
    ensures var b := Bystander(cfg, s, e, r); b.own == r.own && b.holds == r.holds
    ensures forall resent :: KeyDisciplined(cfg, r, k, resent) ==>
              KeyDisciplined(cfg, Bystander(cfg, s, e, r), k, resent)
  {
  }

  /** The lock of `k` is deleted only by a holder, who gives it up. */
  lemma LockDeleted(cfg: Config, s: State, e: Event, k: Key)
    requires Enabled(s, e) && Keeps(cfg, s, e, k) && ActorShaped(cfg, s, e, k, false)
    requires k in s.locks && k !in NextLocks(cfg, s, e)
    ensures (e.Unlock? || e.Late?) && Holds(cfg, s.requests, e.rid, k) && !Next(cfg, s, e).holds
  {
  }

  predicate Wins(s: State, locks: map<Key, nat>, e: Event, x: Rid, k: Key) {
    Acts(e, x) && e.SetNX? && k !in s.locks && k in locks
  }

  lemma HolderStep(cfg: Config, s: State, e: Event, k: Key, x: Rid)
    requires Enabled(s, e) && (IsAct(e) && !e.Arrive? ==> Shape(cfg, s.requests[e.rid]))
    requires Holds(cfg, NextRequests(cfg, s, e), x, k)
    ensures Wins(s, NextLocks(cfg, s, e), e, x, k) ||
            (Holds(cfg, s.requests, x, k) && (Acts(e, x) ==> Next(cfg, s, e).holds))
  {
    if Acts(e, x) {
      ActorHolds(cfg, s, e);
    } else {
      BystanderHolds(cfg, s, e, s.requests[x], k);
    }
  }

  lemma HoldersStep(cfg: Config, s: State, e: Event, k: Key)
    requires Enabled(s, e) && Keeps(cfg, s, e, k) && ActorShaped(cfg, s, e, k, false)
    requires AtMostOneHolder(cfg, s.requests, k) && HoldersLock(cfg, s.requests, s.locks, k)
    ensures AtMostOneHolder(cfg, NextRequests(cfg, s, e), k)
    ensures HoldersLock(cfg, NextRequests(cfg, s, e), NextLocks(cfg, s, e), k)
  {
    var after, locks := NextRequests(cfg, s, e), NextLocks(cfg, s, e);
    if k in s.locks && k !in locks {
      LockDeleted(cfg, s, e, k);
    }
    forall x | Holds(cfg, after, x, k) ensures k in locks {
      HolderStep(cfg, s, e, k, x);
    }
    forall x, y | Holds(cfg, after, x, k) && Holds(cfg, after, y, k) ensures x == y {
      HolderStep(cfg, s, e, k, x);
      HolderStep(cfg, s, e, k, y);
    }
  }

  lemma DisciplineStep(cfg: Config, s: State, e: Event, k: Key, resent: bool, x: Rid)
    requires Enabled(s, e) && ActorShaped(cfg, s, e, k, resent) && x in NextRequests(cfg, s, e)
    requires !OwnerError(cfg, s, e, k) && (ResentDelete(cfg, s, e, k) ==> resent)
    requires x in s.requests ==> KeyDisciplined(cfg, s.requests[x], k, resent)
    ensures KeyDisciplined(cfg, NextRequests(cfg, s, e)[x], k, resent)
  {
    if Acts(e, x) {
      ActorDisciplined(cfg, s, e, k, resent);
    } else {
      BystanderHolds(cfg, s, e, s.requests[x], k);
    }
  }

  lemma {:induction false} DisciplineRun(env: Env, cfg: Config, run: seq<Event>, k: Key)
    requires !env.ownerErrors && Within(env, cfg, run, k)
    ensures AllDisciplined(cfg, Run(cfg, Start(cfg), run).requests, k, env.resentDeletes)
  {
    if run != [] {
      var before, e := Run(cfg, Start(cfg), run[..|run| - 1]), run[|run| - 1];
      DisciplineRun(env, cfg, run[..|run| - 1], k);
      KeptRun(cfg, run[..|run| - 1]);
      if Enabled(before, e) {
        assert ActorShaped(cfg, before, e, k, env.resentDeletes);
        forall x | x in NextRequests(cfg, before, e)
          ensures KeyDisciplined(cfg, NextRequests(cfg, before, e)[x], k, env.resentDeletes)
        {
          DisciplineStep(cfg, before, e, k, env.resentDeletes, x);
        }
      }
    }
  }

  lemma DomesticStep(env: Env, cfg: Config, s: State, e: Event, k: Key, x: Rid)
    requires Enabled(s, e) && Permitted(env, cfg, s, e, k) && x in NextRequests(cfg, s, e)
    requires x in s.requests ==> Shape(cfg, s.requests[x]) && Domestic(env, cfg, s.requests[x], k)
    ensures Domestic(env, cfg, NextRequests(cfg, s, e)[x], k)
  {
    if Acts(e, x) {
      ActorDomestic(env, cfg, s, e, k);
    }
  }

  lemma {:induction false} DomesticRun(env: Env, cfg: Config, run: seq<Event>, k: Key)
    requires Within(env, cfg, run, k)
    ensures AllDomestic(env, cfg, Run(cfg, Start(cfg), run).requests, k)
  {
    if run != [] {
      var before, e := Run(cfg, Start(cfg), run[..|run| - 1]), run[|run| - 1];
      DomesticRun(env, cfg, run[..|run| - 1], k);
      KeptRun(cfg, run[..|run| - 1]);
      if Enabled(before, e) {
        forall x | x in NextRequests(cfg, before, e) ensures Domestic(env, cfg, NextRequests(cfg, before, e)[x], k) {
          DomesticStep(env, cfg, before, e, k, x);
        }
      }
    }
  }

  /** In an orderly environment even a foreign publisher leaves the lock alone. */
  lemma OrderlyKeeps(env: Env, cfg: Config, s: State, e: Event, k: Key)
    requires Orderly(env) && !env.resentDeletes && Enabled(s, e) && Permitted(env, cfg, s, e, k)
    requires IsAct(e) && !e.Arrive? ==> Shape(cfg, s.requests[e.rid]) && Domestic(env, cfg, s.requests[e.rid], k)
    ensures Keeps(cfg, s, e, k)
  {
  }

  lemma {:induction false} ExclusiveRun(env: Env, cfg: Config, run: seq<Event>, k: Key)
    requires Orderly(env) && !env.resentDeletes && Within(env, cfg, run, k)
    ensures var s := Run(cfg, Start(cfg), run); Exclusive(cfg, s.requests, s.locks, k)
  {
    if run != [] {
      var before, e := Run(cfg, Start(cfg), run[..|run| - 1]), run[|run| - 1];
      ExclusiveRun(env, cfg, run[..|run| - 1], k);
      DomesticRun(env, cfg, run[..|run| - 1], k);
      DisciplineRun(env, cfg, run[..|run| - 1], k);
      KeptRun(cfg, run[..|run| - 1]);
      if Enabled(before, e) {
        OrderlyKeeps(env, cfg, before, e, k);
        assert ActorShaped(cfg, before, e, k, false);
        HoldersStep(cfg, before, e, k);
      }
    }
  }

  /** Calls with `k` are made by holders only. */
  lemma CallersHold(env: Env, cfg: Config, s: State, k: Key)
    requires Guarded(env) && AllDomestic(env, cfg, s.requests, k)
    requires AllDisciplined(cfg, s.requests, k, env.resentDeletes) && AtMostOneHolder(cfg, s.requests, k)
    ensures AtMostOneCaller(cfg, s.requests, k)
  {
    forall x, y | CallsWith(cfg, s.requests, x, k) && CallsWith(cfg, s.requests, y, k) ensures x == y {
      assert Domestic(env, cfg, s.requests[x], k) && Domestic(env, cfg, s.requests[y], k);
      assert KeyDisciplined(cfg, s.requests[x], k, env.resentDeletes);
      assert KeyDisciplined(cfg, s.requests[y], k, env.resentDeletes);
      assert Holds(cfg, s.requests, x, k) && Holds(cfg, s.requests, y, k);
    }
  }

  // ---------------------------------------------------------------- an owner that leaves its lock

  /** The request was answered 503, or failover has given it another key than its own. */
  predicate Abandons(cfg: Config, r: Request) {
    !r.own.stream && (r.outcome.Unavailable? || cfg.hash(r.req) != cfg.hash(r.own))
  }

  /** If request `x` tries the lock of `k` now, it becomes a subscriber. */
  predicate LockedOut(cfg: Config, s: State, x: Rid, k: Key) {
    Enabled(s, SetNX(x, Replied)) && cfg.hash(s.requests[x].own) == k ==>
      Next(cfg, s, SetNX(x, Replied)) == s.requests[x].(pc := Subscribing)
  }

  /** Request `x`, of key `k` itself, is on its way to wake those waiting for `k`. */
  predicate OnItsWay(cfg: Config, r: Request, k: Key) {
    && !r.own.stream && cfg.hash(r.own) == k && cfg.hash(r.req) == k
    && (r.pc.Attempt? || r.pc.Calling? || (r.pc.Publishing? && !r.pc.stage.Storing?))
  }

  /** The abandoned lock is there, shuts `x` out, and `x` wakes nobody. */
  ghost predicate LeftLocked(cfg: Config, s: State, k: Key, rid: Rid, x: Rid) {
    rid in s.requests && cfg.hash(s.requests[rid].own) == k && Abandons(cfg, s.requests[rid]) ==>
      && Holds(cfg, s.requests, rid, k) && k in s.locks && LockedOut(cfg, s, x, k)
      && (x in s.requests ==> !OnItsWay(cfg, s.requests[x], k))
  }

  lemma OnItsWayHolds(cfg: Config, r: Request, k: Key)
    requires KeyDisciplined(cfg, r, k, false) && OnItsWay(cfg, r, k)
    ensures r.holds
  {
  }

  lemma AbandonedStaysLocked(cfg: Config, s: State, k: Key, rid: Rid, x: Rid)
    requires AllKept(cfg, s.requests, s.calls) && Exclusive(cfg, s.requests, s.locks, k)
    requires AllDisciplined(cfg, s.requests, k, false)
    ensures LeftLocked(cfg, s, k, rid, x)
  {
    if rid in s.requests && cfg.hash(s.requests[rid].own) == k && Abandons(cfg, s.requests[rid]) {
      assert KeyDisciplined(cfg, s.requests[rid], k, false);
      assert Holds(cfg, s.requests, rid, k);
      assert Holds(cfg, s.requests, x, k) ==> x == rid;
      if x in s.requests && OnItsWay(cfg, s.requests[x], k) {
        assert KeyDisciplined(cfg, s.requests[x], k, false);
        OnItsWayHolds(cfg, s.requests[x], k);
      }
    }
  }

  /**
    Neither a 503 nor an answer by the fallback releases the lock or wakes anybody: as long as the lock
    does not expire, no request can win the key again, and none with that key is on its way to publish.
   */
  lemma AbandonedLockStays(env: Env, cfg: Config, run: seq<Event>, k: Key, rid: Rid, x: Rid)
    requires Orderly(env) && !env.resentDeletes && Within(env, cfg, run, k)
    ensures LeftLocked(cfg, Run(cfg, Start(cfg), run), k, rid, x)
  {
    ExclusiveRun(env, cfg, run, k);
    DisciplineRun(env, cfg, run, k);
    KeptRun(cfg, run);
    AbandonedStaysLocked(cfg, Run(cfg, Start(cfg), run), k, rid, x);
  }
}
