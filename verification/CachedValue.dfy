/**
  What a cached value prevents: calls with its key while it is there, and a second request that calls.
 */
module CachedValue {
  import opened Models
  import opened Gateway
  import opened Failover
  import opened Stampede

  // ---------------------------------------------------------------- the promises

  /** In every run of the environment no call with a key starts while the key is cached. */
  ghost predicate NoCallWhileCached(env: Env, hash: GatewayRequest -> Key) {
    forall cfg: Config, run: seq<Event>, e: Event, k: Key |
      cfg.hash == hash && Within(env, cfg, run + [e], k) && EntersCall(cfg, Run(cfg, Start(cfg), run), e, k) &&
      Enabled(Run(cfg, Start(cfg), run), e) ::
        k !in Run(cfg, Start(cfg), run).values
  }

  /** Some provider call of the request was made with key `k`: the own one, or that of the fallback. */
  predicate HasCalled(cfg: Config, r: Request, k: Key) {
    || (r.own.provider in r.called && cfg.hash(r.own) == k)
    || (Fallback(r.own.provider) in r.called && cfg.hash(FailedOver(r.own)) == k)
  }

  predicate Called(cfg: Config, requests: map<Rid, Request>, x: Rid, k: Key) {
    x in requests && HasCalled(cfg, requests[x], k)
  }

  ghost predicate AtMostOneCalled(cfg: Config, requests: map<Rid, Request>, k: Key) {
    forall x, y | Called(cfg, requests, x, k) && Called(cfg, requests, y, k) :: x == y
  }

  /** In every run of the environment at most one request ever calls a provider with a key. */
  ghost predicate OneCallPerKey(env: Env, hash: GatewayRequest -> Key) {
    forall cfg: Config, run: seq<Event>, k: Key | cfg.hash == hash && Within(env, cfg, run, k) ::
      AtMostOneCalled(cfg, Run(cfg, Start(cfg), run).requests, k)
  }

  /** Calls come from the lock only, and nobody reaches the lock past a cached value. */
  predicate Heeded(env: Env) { Guarded(env) && !env.staleMisses && !env.failingGets }

  // ---------------------------------------------------------------- exclusion without reentry

  /** Whoever is past its SET, or has a delete of the lock on its way, leaves the key cached. */
  predicate NotifiedFor(cfg: Config, r: Request, values: map<Key, GatewayResponse>, k: Key) {
    cfg.hash(r.req) == k &&
    (DeleteLock in r.late || (r.pc.Publishing? && (r.pc.stage.Notifying? || r.pc.stage.Unlocking?))) ==>
      k in values
  }

  ghost predicate AllNotified(cfg: Config, requests: map<Rid, Request>, values: map<Key, GatewayResponse>, k: Key) {
    forall x | x in requests :: NotifiedFor(cfg, requests[x], values, k)
  }

  lemma PublisherNotified(cfg: Config, s: State, e: Event, k: Key)
    requires Enabled(s, e) && (e.Set? || e.Publish? || e.Unlock? || e.Store? || e.Leave? || e.Late?)
    requires NotifiedFor(cfg, s.requests[e.rid], s.values, k)
    ensures NotifiedFor(cfg, Next(cfg, s, e), NextValues(cfg, s, e), k)
  {
  }

  /** Before the background task nothing of it is on its way. */
  lemma CallerNotified(cfg: Config, s: State, e: Event, k: Key)
    requires Enabled(s, e) && IsAct(e) && (!e.Arrive? ==> Shape(cfg, s.requests[e.rid]))
    requires !e.Set? && !e.Publish? && !e.Unlock? && !e.Store? && !e.Leave? && !e.Late?
    ensures NotifiedFor(cfg, Next(cfg, s, e), NextValues(cfg, s, e), k)
  {
  }

  lemma ActorNotified(cfg: Config, s: State, e: Event, k: Key)
    requires Enabled(s, e) && IsAct(e)
    requires !e.Arrive? ==> Shape(cfg, s.requests[e.rid]) && NotifiedFor(cfg, s.requests[e.rid], s.values, k)
    ensures NotifiedFor(cfg, Next(cfg, s, e), NextValues(cfg, s, e), k)
  {
    if e.Set? || e.Publish? || e.Unlock? || e.Store? || e.Leave? || e.Late? {
      PublisherNotified(cfg, s, e, k);
    } else {
      CallerNotified(cfg, s, e, k);
    }
  }

  lemma BystanderNotified(cfg: Config, s: State, e: Event, r: Request, k: Key)
    requires Enabled(s, e) && e != Forget(k) && NotifiedFor(cfg, r, s.values, k)
    ensures NotifiedFor(cfg, Bystander(cfg, s, e, r), NextValues(cfg, s, e), k)
  {
  }

  lemma NotifiedStep(cfg: Config, s: State, e: Event, k: Key, x: Rid)
    requires Enabled(s, e) && e != Forget(k) && x in NextRequests(cfg, s, e)
    requires x in s.requests ==> Shape(cfg, s.requests[x]) && NotifiedFor(cfg, s.requests[x], s.values, k)
    ensures NotifiedFor(cfg, NextRequests(cfg, s, e)[x], NextValues(cfg, s, e), k)
  {
    if Acts(e, x) {
      ActorNotified(cfg, s, e, k);
    } else {
      BystanderNotified(cfg, s, e, s.requests[x], k);
    }
  }

  lemma {:induction false} NotifiedRun(env: Env, cfg: Config, run: seq<Event>, k: Key)
    requires !env.eviction && Within(env, cfg, run, k)
    ensures var s := Run(cfg, Start(cfg), run); AllNotified(cfg, s.requests, s.values, k)
  {
    if run != [] {
      var before, e := Run(cfg, Start(cfg), run[..|run| - 1]), run[|run| - 1];
      NotifiedRun(env, cfg, run[..|run| - 1], k);
      KeptRun(cfg, run[..|run| - 1]);
      if Enabled(before, e) {
        forall x | x in NextRequests(cfg, before, e)
          ensures NotifiedFor(cfg, NextRequests(cfg, before, e)[x], NextValues(cfg, before, e), k)
        {
          NotifiedStep(cfg, before, e, k, x);
        }
      }
    }
  }

  /** Somebody may take the lock of a key that has been cached. */
  predicate Reentry(env: Env) { env.staleMisses || env.failingGets || env.eviction }

  ghost predicate NoneBeforeLock(cfg: Config, requests: map<Rid, Request>, k: Key) {
    forall x | x in requests :: !BeforeLock(cfg, requests[x], k)
  }

  /**
    Without reentry the lock need not be kept by its holder: it is deleted only once the key is cached,
    and then nobody comes for it.
   */
  ghost predicate SettledLock(cfg: Config, s: State, k: Key) {
    && AtMostOneHolder(cfg, s.requests, k)
    && (k in s.values ==> NoneBeforeLock(cfg, s.requests, k))
    && (k !in s.values ==> HoldersLock(cfg, s.requests, s.locks, k))
  }

  lemma ActorBeforeLock(env: Env, cfg: Config, s: State, e: Event, k: Key)
    requires !Reentry(env) && Enabled(s, e) && IsAct(e) && Permitted(env, cfg, s, e, k)
    requires k in s.values && !e.Arrive? && Shape(cfg, s.requests[e.rid]) && !BeforeLock(cfg, s.requests[e.rid], k)
    ensures !BeforeLock(cfg, Next(cfg, s, e), k)
  {
  }

  lemma SetFindsNoneBeforeLock(env: Env, cfg: Config, s: State, e: Event, k: Key, x: Rid)
    requires !Reentry(env) && Enabled(s, e) && Permitted(env, cfg, s, e, k) && x in NextRequests(cfg, s, e)
    requires k !in s.values && k in NextValues(cfg, s, e)
    ensures !BeforeLock(cfg, NextRequests(cfg, s, e)[x], k)
  {
    assert x in s.requests && (BeforeLock(cfg, s.requests[x], k) ==> StaleMiss(cfg, s, e, k));
  }

  lemma BystanderBeforeLock(cfg: Config, s: State, e: Event, r: Request, k: Key)
    requires Enabled(s, e)
    ensures BeforeLock(cfg, Bystander(cfg, s, e, r), k) <==> BeforeLock(cfg, r, k)
  {
  }

  lemma BeforeLockStep(env: Env, cfg: Config, s: State, e: Event, k: Key, x: Rid)
    requires !Reentry(env) && Enabled(s, e) && Permitted(env, cfg, s, e, k) && k in NextValues(cfg, s, e)
    requires k in s.values ==> NoneBeforeLock(cfg, s.requests, k)
    requires IsAct(e) && !e.Arrive? ==> Shape(cfg, s.requests[e.rid])
    requires x in NextRequests(cfg, s, e)
    ensures !BeforeLock(cfg, NextRequests(cfg, s, e)[x], k)
  {
    if k !in s.values {
      SetFindsNoneBeforeLock(env, cfg, s, e, k, x);
    } else if !Acts(e, x) {
      BystanderBeforeLock(cfg, s, e, s.requests[x], k);
    } else if !e.Arrive? {
      ActorBeforeLock(env, cfg, s, e, k);
    }
  }

  lemma LockSettles(env: Env, cfg: Config, s: State, e: Event, k: Key)
    requires !env.lockExpiry && !Reentry(env) && Enabled(s, e) && Permitted(env, cfg, s, e, k)
    requires DeletesLock(e) ==> NotifiedFor(cfg, s.requests[e.rid], s.values, k)
    requires k in s.locks && k !in NextValues(cfg, s, e)
    ensures k in NextLocks(cfg, s, e)
  {
  }

  lemma SettledLocks(env: Env, cfg: Config, s: State, e: Event, k: Key)
    requires !env.lockExpiry && !Reentry(env) && Enabled(s, e) && Permitted(env, cfg, s, e, k)
    requires SettledLock(cfg, s, k) && (IsAct(e) && !e.Arrive? ==> Shape(cfg, s.requests[e.rid]))
    requires DeletesLock(e) ==> NotifiedFor(cfg, s.requests[e.rid], s.values, k)
    requires k !in NextValues(cfg, s, e)
    ensures HoldersLock(cfg, NextRequests(cfg, s, e), NextLocks(cfg, s, e), k)
  {
    if k in s.locks {
      LockSettles(env, cfg, s, e, k);
    }
    forall x | Holds(cfg, NextRequests(cfg, s, e), x, k) ensures k in NextLocks(cfg, s, e) {
      HolderStep(cfg, s, e, k, x);
    }
  }

  lemma SettledHolders(cfg: Config, s: State, e: Event, k: Key)
    requires Enabled(s, e) && SettledLock(cfg, s, k) && (IsAct(e) && !e.Arrive? ==> Shape(cfg, s.requests[e.rid]))
    ensures AtMostOneHolder(cfg, NextRequests(cfg, s, e), k)
  {
    var after := NextRequests(cfg, s, e);
    forall x, y | Holds(cfg, after, x, k) && Holds(cfg, after, y, k) ensures x == y {
      HolderStep(cfg, s, e, k, x);
      HolderStep(cfg, s, e, k, y);
    }
  }

  lemma {:induction false} SettledRun(env: Env, cfg: Config, run: seq<Event>, k: Key)
    requires !env.lockExpiry && !Reentry(env) && Within(env, cfg, run, k)
    ensures SettledLock(cfg, Run(cfg, Start(cfg), run), k)
  {
    if run != [] {
      var before, e := Run(cfg, Start(cfg), run[..|run| - 1]), run[|run| - 1];
      SettledRun(env, cfg, run[..|run| - 1], k);
      NotifiedRun(env, cfg, run[..|run| - 1], k);
      KeptRun(cfg, run[..|run| - 1]);
      if Enabled(before, e) {
        SettledHolders(cfg, before, e, k);
        if k !in NextValues(cfg, before, e) {
          SettledLocks(env, cfg, before, e, k);
        }
        forall x | x in NextRequests(cfg, before, e) && k in NextValues(cfg, before, e)
          ensures !BeforeLock(cfg, NextRequests(cfg, before, e)[x], k)
        {
          BeforeLockStep(env, cfg, before, e, k, x);
        }
      }
    }
  }

  /** Nothing but the holder deletes the lock, and only once; or nobody takes it again past a cached value. */
  predicate OneHolder(env: Env) {
    (Orderly(env) && !env.resentDeletes) || (!env.lockExpiry && !Reentry(env))
  }

  lemma OneHolderRun(env: Env, cfg: Config, run: seq<Event>, k: Key)
    requires OneHolder(env) && Within(env, cfg, run, k)
    ensures AtMostOneHolder(cfg, Run(cfg, Start(cfg), run).requests, k)
  {
    if Orderly(env) && !env.resentDeletes {
      ExclusiveRun(env, cfg, run, k);
    } else {
      SettledRun(env, cfg, run, k);
    }
  }

  lemma SingleFlightRun(env: Env, cfg: Config, run: seq<Event>, k: Key)
    requires Guarded(env) && OneHolder(env) && Within(env, cfg, run, k)
    ensures AtMostOneCaller(cfg, Run(cfg, Start(cfg), run).requests, k)
  {
    OneHolderRun(env, cfg, run, k);
    DomesticRun(env, cfg, run, k);
    DisciplineRun(env, cfg, run, k);
    CallersHold(env, cfg, Run(cfg, Start(cfg), run), k);
  }

  // ---------------------------------------------------------------- who has called

  /** Whoever has called with `k` is a plain request for `k`, and has its lock until `k` is cached. */
  predicate SpentFor(cfg: Config, r: Request, cached: bool, k: Key) {
    HasCalled(cfg, r, k) ==> !r.own.stream && cfg.hash(r.own) == k && (cached || r.holds)
  }

  ghost predicate AllSpent(cfg: Config, requests: map<Rid, Request>, values: map<Key, GatewayResponse>, k: Key) {
    forall x | x in requests :: SpentFor(cfg, requests[x], k in values, k)
  }

  lemma TryCalled(cfg: Config, s: State, e: Event, k: Key)
    requires Enabled(s, e) && e.Try? && Shape(cfg, s.requests[e.rid])
    ensures HasCalled(cfg, Next(cfg, s, e), k) <==> HasCalled(cfg, s.requests[e.rid], k) || EntersCall(cfg, s, e, k)
    ensures Next(cfg, s, e).own == s.requests[e.rid].own && Next(cfg, s, e).holds == s.requests[e.rid].holds
  {
    var r := s.requests[e.rid];
    assert Fallback(r.own.provider) != r.own.provider;
  }

  lemma TrySpent(env: Env, cfg: Config, s: State, e: Event, k: Key)
    requires Guarded(env) && Enabled(s, e) && Permitted(env, cfg, s, e, k) && e.Try?
    requires Shape(cfg, s.requests[e.rid]) && KeyDisciplined(cfg, s.requests[e.rid], k, env.resentDeletes)
    requires SpentFor(cfg, s.requests[e.rid], k in s.values, k)
    ensures SpentFor(cfg, Next(cfg, s, e), k in s.values, k)
  {
    TryCalled(cfg, s, e, k);
  }

  lemma UnlockSpent(cfg: Config, s: State, e: Event, k: Key)
    requires Enabled(s, e) && (e.Unlock? || e.Leave? || e.Late?) && Shape(cfg, s.requests[e.rid])
    requires SpentFor(cfg, s.requests[e.rid], k in s.values, k) && NotifiedFor(cfg, s.requests[e.rid], s.values, k)
    ensures SpentFor(cfg, Next(cfg, s, e), k in NextValues(cfg, s, e), k)
  {
  }

  lemma ActorSpent(cfg: Config, s: State, e: Event, k: Key)
    requires Enabled(s, e) && IsAct(e) && !e.Try? && (!e.Arrive? ==> Shape(cfg, s.requests[e.rid]))
    requires !e.Arrive? ==> SpentFor(cfg, s.requests[e.rid], k in s.values, k)
    requires !e.Arrive? ==> NotifiedFor(cfg, s.requests[e.rid], s.values, k)
    ensures SpentFor(cfg, Next(cfg, s, e), k in NextValues(cfg, s, e), k)
  {
    if e.Unlock? || e.Leave? || e.Late? {
      UnlockSpent(cfg, s, e, k);
    }
  }

  lemma BystanderSpent(cfg: Config, s: State, e: Event, r: Request, k: Key)
    requires Enabled(s, e) && e != Forget(k) && SpentFor(cfg, r, k in s.values, k)
    ensures SpentFor(cfg, Bystander(cfg, s, e, r), k in NextValues(cfg, s, e), k)
    ensures HasCalled(cfg, Bystander(cfg, s, e, r), k) <==> HasCalled(cfg, r, k)
  {
  }

  lemma SpentStep(env: Env, cfg: Config, s: State, e: Event, k: Key, x: Rid)
    requires Guarded(env) && !env.eviction && Enabled(s, e) && Permitted(env, cfg, s, e, k)
    requires x in NextRequests(cfg, s, e)
    requires x in s.requests ==>
               && Shape(cfg, s.requests[x]) && KeyDisciplined(cfg, s.requests[x], k, env.resentDeletes)
               && SpentFor(cfg, s.requests[x], k in s.values, k) && NotifiedFor(cfg, s.requests[x], s.values, k)
    ensures SpentFor(cfg, NextRequests(cfg, s, e)[x], k in NextValues(cfg, s, e), k)
  {
    if !Acts(e, x) {
      BystanderSpent(cfg, s, e, s.requests[x], k);
    } else if e.Try? {
      TrySpent(env, cfg, s, e, k);
    } else {
      ActorSpent(cfg, s, e, k);
    }
  }

  lemma {:induction false} SpentRun(env: Env, cfg: Config, run: seq<Event>, k: Key)
    requires Guarded(env) && !env.eviction && Within(env, cfg, run, k)
    ensures var s := Run(cfg, Start(cfg), run); AllSpent(cfg, s.requests, s.values, k)
  {
    if run != [] {
      var before, e := Run(cfg, Start(cfg), run[..|run| - 1]), run[|run| - 1];
      SpentRun(env, cfg, run[..|run| - 1], k);
      NotifiedRun(env, cfg, run[..|run| - 1], k);
      DisciplineRun(env, cfg, run[..|run| - 1], k);
      KeptRun(cfg, run[..|run| - 1]);
      if Enabled(before, e) {
        forall x | x in NextRequests(cfg, before, e)
          ensures SpentFor(cfg, NextRequests(cfg, before, e)[x], k in NextValues(cfg, before, e), k)
        {
          SpentStep(env, cfg, before, e, k, x);
        }
      }
    }
  }

  // ---------------------------------------------------------------- why nobody calls past a cached value

  predicate IdleFor(cfg: Config, r: Request, k: Key) {
    !r.own.stream && cfg.hash(r.own) == k ==> !r.pc.Locking? && !r.pc.Attempt? && !r.pc.Calling?
  }

  ghost predicate AllIdle(cfg: Config, requests: map<Rid, Request>, values: map<Key, GatewayResponse>, k: Key) {
    k in values ==> forall x | x in requests :: IdleFor(cfg, requests[x], k)
  }

  /** A request in the background task stays there or is done. */
  lemma PublisherStaysIdle(cfg: Config, s: State, e: Event, k: Key)
    requires Enabled(s, e) && IsAct(e) && !e.Arrive? && s.requests[e.rid].pc.Publishing?
    ensures IdleFor(cfg, Next(cfg, s, e), k)
  {
  }

  /** A request that has finished stays so, whatever is executed late. */
  lemma FinishedStaysIdle(cfg: Config, s: State, e: Event, k: Key)
    requires Enabled(s, e) && IsAct(e) && !e.Arrive? && s.requests[e.rid].pc.Finished?
    ensures IdleFor(cfg, Next(cfg, s, e), k)
  {
  }

  /** Nobody with a cached key gets to the lock: a read finds it, and a message or an error does not. */
  lemma ReaderStaysIdle(env: Env, cfg: Config, s: State, e: Event, k: Key)
    requires Heeded(env) && Enabled(s, e) && IsAct(e) && Permitted(env, cfg, s, e, k) && k in s.values && !e.Arrive?
    requires Shape(cfg, s.requests[e.rid]) && IdleFor(cfg, s.requests[e.rid], k)
    requires s.requests[e.rid].pc.Semantic? || s.requests[e.rid].pc.Getting? || s.requests[e.rid].pc.Subscribing? ||
             s.requests[e.rid].pc.Waiting?
    ensures IdleFor(cfg, Next(cfg, s, e), k)
  {
  }

  lemma ActorStaysIdle(env: Env, cfg: Config, s: State, e: Event, k: Key)
    requires Heeded(env) && Enabled(s, e) && IsAct(e) && Permitted(env, cfg, s, e, k) && k in s.values
    requires !e.Arrive? ==> Shape(cfg, s.requests[e.rid]) && IdleFor(cfg, s.requests[e.rid], k)
    ensures IdleFor(cfg, Next(cfg, s, e), k)
  {
    if !e.Arrive? {
      var pc := s.requests[e.rid].pc;
      if pc.Publishing? {
        PublisherStaysIdle(cfg, s, e, k);
      } else if pc.Finished? {
        FinishedStaysIdle(cfg, s, e, k);
      } else if pc.Semantic? || pc.Getting? || pc.Subscribing? || pc.Waiting? {
        ReaderStaysIdle(env, cfg, s, e, k);
      }
    }
  }

  /** A key becomes cached only by the holder, with nobody else before the lock or past it. */
  lemma OthersIdleAtSet(cfg: Config, s: State, e: Event, k: Key, resent: bool, x: Rid)
    requires Enabled(s, e) && SetsValue(e) && x in s.requests && x != e.rid && !StaleMiss(cfg, s, e, k)
    requires cfg.hash(s.requests[e.rid].req) == k && Holds(cfg, s.requests, e.rid, k)
    requires AtMostOneHolder(cfg, s.requests, k) && KeyDisciplined(cfg, s.requests[x], k, resent)
    ensures IdleFor(cfg, s.requests[x], k)
  {
    assert !Holds(cfg, s.requests, x, k) && !BeforeLock(cfg, s.requests[x], k);
  }

  lemma SetterHolds(env: Env, cfg: Config, s: State, e: Event, k: Key)
    requires Guarded(env) && Enabled(s, e) && e.Set? && cfg.hash(s.requests[e.rid].req) == k
    requires Shape(cfg, s.requests[e.rid]) && Domestic(env, cfg, s.requests[e.rid], k)
    requires KeyDisciplined(cfg, s.requests[e.rid], k, env.resentDeletes)
    ensures Holds(cfg, s.requests, e.rid, k)
  {
  }

  /** A copy of a SET on its way is one of a request that has called, and holds the lock unless the key is cached. */
  lemma LateSetterHolds(cfg: Config, s: State, e: Event, k: Key)
    requires Enabled(s, e) && e.Late? && e.command.SetValue? && cfg.hash(s.requests[e.rid].req) == k
    requires Shape(cfg, s.requests[e.rid]) && SpentFor(cfg, s.requests[e.rid], false, k)
    ensures Holds(cfg, s.requests, e.rid, k)
  {
    assert HasCalled(cfg, s.requests[e.rid], k);
  }

  lemma IdleAfterSet(cfg: Config, s: State, e: Event, k: Key, resent: bool, x: Rid)
    requires Enabled(s, e) && SetsValue(e) && !StaleMiss(cfg, s, e, k) && x in NextRequests(cfg, s, e)
    requires cfg.hash(s.requests[e.rid].req) == k && Holds(cfg, s.requests, e.rid, k) && Shape(cfg, s.requests[e.rid])
    requires AtMostOneHolder(cfg, s.requests, k) && (x in s.requests ==> KeyDisciplined(cfg, s.requests[x], k, resent))
    ensures IdleFor(cfg, NextRequests(cfg, s, e)[x], k)
  {
    if x != e.rid {
      OthersIdleAtSet(cfg, s, e, k, resent, x);
    }
  }

  lemma IdleWhileCached(env: Env, cfg: Config, s: State, e: Event, k: Key, x: Rid)
    requires Heeded(env) && Enabled(s, e) && Permitted(env, cfg, s, e, k) && x in NextRequests(cfg, s, e)
    requires k in s.values && (x in s.requests ==> Shape(cfg, s.requests[x]) && IdleFor(cfg, s.requests[x], k))
    ensures IdleFor(cfg, NextRequests(cfg, s, e)[x], k)
  {
    if Acts(e, x) {
      ActorStaysIdle(env, cfg, s, e, k);
    }
  }

  /** The value is set by a holder of the lock. */
  lemma SomeoneHolds(env: Env, cfg: Config, run: seq<Event>, e: Event, k: Key)
    requires Quiet(env) && Within(env, cfg, run, k) && Permitted(env, cfg, Run(cfg, Start(cfg), run), e, k)
    requires var s := Run(cfg, Start(cfg), run); Enabled(s, e) && k !in s.values && k in NextValues(cfg, s, e)
    ensures Holds(cfg, Run(cfg, Start(cfg), run).requests, e.rid, k)
  {
    var s := Run(cfg, Start(cfg), run);
    KeptRun(cfg, run);
    if e.Late? {
      assert LateSet(cfg, s, e, k);
      SpentRun(env, cfg, run, k);
      LateSetterHolds(cfg, s, e, k);
    } else {
      DomesticRun(env, cfg, run, k);
      DisciplineRun(env, cfg, run, k);
      SetterHolds(env, cfg, s, e, k);
    }
  }

  /** One holder, nobody past a cached value, and no old value set after the value has gone. */
  predicate Quiet(env: Env) { Heeded(env) && OneHolder(env) && (!env.lateSets || !env.eviction) }

  lemma {:induction false} IdleRun(env: Env, cfg: Config, run: seq<Event>, k: Key)
    requires Quiet(env) && Within(env, cfg, run, k)
    ensures var s := Run(cfg, Start(cfg), run); AllIdle(cfg, s.requests, s.values, k)
  {
    if run != [] {
      var before, e := Run(cfg, Start(cfg), run[..|run| - 1]), run[|run| - 1];
      IdleRun(env, cfg, run[..|run| - 1], k);
      DomesticRun(env, cfg, run[..|run| - 1], k);
      OneHolderRun(env, cfg, run[..|run| - 1], k);
      DisciplineRun(env, cfg, run[..|run| - 1], k);
      KeptRun(cfg, run[..|run| - 1]);
      if Enabled(before, e) && k in NextValues(cfg, before, e) {
        if k !in before.values {
          SomeoneHolds(env, cfg, run[..|run| - 1], e, k);
        }
        forall x | x in NextRequests(cfg, before, e) ensures IdleFor(cfg, NextRequests(cfg, before, e)[x], k) {
          if k in before.values {
            IdleWhileCached(env, cfg, before, e, k, x);
          } else {
            IdleAfterSet(cfg, before, e, k, env.resentDeletes, x);
          }
        }
      }
    }
  }

  lemma CalledBeforeCached(env: Env, cfg: Config, run: seq<Event>, e: Event, k: Key)
    requires Quiet(env) && Within(env, cfg, run + [e], k)
    requires Enabled(Run(cfg, Start(cfg), run), e) && EntersCall(cfg, Run(cfg, Start(cfg), run), e, k)
    ensures k !in Run(cfg, Start(cfg), run).values
  {
    assert (run + [e])[..|run + [e]| - 1] == run;
    IdleRun(env, cfg, run, k);
  }

  // ---------------------------------------------------------------- one request per key

  lemma ActorCalled(cfg: Config, s: State, e: Event, k: Key)
    requires Enabled(s, e) && IsAct(e) && !EntersCall(cfg, s, e, k)
    requires !e.Arrive? ==> Shape(cfg, s.requests[e.rid])
    ensures HasCalled(cfg, Next(cfg, s, e), k) ==> !e.Arrive? && HasCalled(cfg, s.requests[e.rid], k)
  {
    if e.Try? {
      TryCalled(cfg, s, e, k);
    }
  }

  /** Whoever has called after a step had called before, or enters its call now. */
  lemma CalledStep(cfg: Config, s: State, e: Event, k: Key, x: Rid)
    requires Enabled(s, e) && (IsAct(e) && !e.Arrive? ==> Shape(cfg, s.requests[e.rid]))
    requires Called(cfg, NextRequests(cfg, s, e), x, k)
    ensures Called(cfg, s.requests, x, k) || (Acts(e, x) && EntersCall(cfg, s, e, k))
  {
    if Acts(e, x) && !EntersCall(cfg, s, e, k) {
      ActorCalled(cfg, s, e, k);
    }
  }

  /** At the moment of a call nobody else has called. */
  lemma FirstToCall(env: Env, cfg: Config, s: State, e: Event, k: Key, x: Rid)
    requires Guarded(env) && Enabled(s, e) && Permitted(env, cfg, s, e, k) && EntersCall(cfg, s, e, k)
    requires AtMostOneHolder(cfg, s.requests, k) && KeyDisciplined(cfg, s.requests[e.rid], k, env.resentDeletes)
    requires AllIdle(cfg, s.requests, s.values, k) && Called(cfg, s.requests, x, k)
    requires SpentFor(cfg, s.requests[x], k in s.values, k)
    ensures x == e.rid
  {
    assert Holds(cfg, s.requests, e.rid, k) && Holds(cfg, s.requests, x, k);
  }

  lemma OneCallStep(env: Env, cfg: Config, s: State, e: Event, k: Key)
    requires Guarded(env) && Enabled(s, e) && Permitted(env, cfg, s, e, k)
    requires AllKept(cfg, s.requests, s.calls) && AtMostOneHolder(cfg, s.requests, k)
    requires AllDisciplined(cfg, s.requests, k, env.resentDeletes)
    requires AllIdle(cfg, s.requests, s.values, k) && AllSpent(cfg, s.requests, s.values, k)
    requires AtMostOneCalled(cfg, s.requests, k)
    ensures AtMostOneCalled(cfg, NextRequests(cfg, s, e), k)
  {
    var after := NextRequests(cfg, s, e);
    forall x, y | Called(cfg, after, x, k) && Called(cfg, after, y, k) ensures x == y {
      CalledStep(cfg, s, e, k, x);
      CalledStep(cfg, s, e, k, y);
      if EntersCall(cfg, s, e, k) {
        if x != e.rid {
          FirstToCall(env, cfg, s, e, k, x);
        }
        if y != e.rid {
          FirstToCall(env, cfg, s, e, k, y);
        }
      }
    }
  }

  lemma {:induction false} OneCallRun(env: Env, cfg: Config, run: seq<Event>, k: Key)
    requires Heeded(env) && !env.eviction && Within(env, cfg, run, k)
    ensures AtMostOneCalled(cfg, Run(cfg, Start(cfg), run).requests, k)
  {
    if run != [] {
      var before, e := Run(cfg, Start(cfg), run[..|run| - 1]), run[|run| - 1];
      OneCallRun(env, cfg, run[..|run| - 1], k);
      IdleRun(env, cfg, run[..|run| - 1], k);
      SpentRun(env, cfg, run[..|run| - 1], k);
      OneHolderRun(env, cfg, run[..|run| - 1], k);
      DisciplineRun(env, cfg, run[..|run| - 1], k);
      KeptRun(cfg, run[..|run| - 1]);
      if Enabled(before, e) {
        OneCallStep(env, cfg, before, e, k);
      }
    }
  }

  // ---------------------------------------------------------------- one request, from any state

  /** A request for `k` that has not read the cache yet, or was answered from one of the caches. */
  predicate Spared(cfg: Config, r: Request, k: Key) {
    && cfg.hash(r.own) == k && !r.own.stream && r.req == r.own && r.called == []
    && (r.pc.Semantic? || r.pc.Getting? || (r.pc.Finished? && (r.outcome.Hit? || r.outcome.SemanticHit?)))
  }

  predicate CachedAndSpared(cfg: Config, s: State, k: Key, rid: Rid) {
    k in s.values && (rid in s.requests ==> Spared(cfg, s.requests[rid], k))
  }

  /** `k` stays cached, and request `rid` is one for `k` whose read of the cache does not err. */
  predicate Undisrupted(cfg: Config, e: Event, k: Key, rid: Rid) {
    && e != Forget(k)
    && (e.Arrive? && e.rid == rid ==> cfg.hash(e.req) == k && !e.req.stream)
    && (e.Get? && e.rid == rid ==> !e.fails)
  }

  lemma SparedActor(cfg: Config, s: State, e: Event, k: Key)
    requires Enabled(s, e) && IsAct(e) && k in s.values && Undisrupted(cfg, e, k, e.rid)
    requires e.Arrive? || Spared(cfg, s.requests[e.rid], k)
    ensures Spared(cfg, Next(cfg, s, e), k)
  {
  }

  lemma SparedBystander(cfg: Config, s: State, e: Event, r: Request, k: Key)
    requires Enabled(s, e) && Spared(cfg, r, k)
    ensures Spared(cfg, Bystander(cfg, s, e, r), k)
  {
  }

  lemma SparedStep(cfg: Config, s: State, e: Event, k: Key, rid: Rid)
    requires Enabled(s, e) && CachedAndSpared(cfg, s, k, rid) && Undisrupted(cfg, e, k, rid)
    ensures rid in NextRequests(cfg, s, e) ==> Spared(cfg, NextRequests(cfg, s, e)[rid], k)
  {
    if Acts(e, rid) {
      SparedActor(cfg, s, e, k);
    } else if rid in s.requests {
      SparedBystander(cfg, s, e, s.requests[rid], k);
    }
  }

  /**
    From any state in which `k` is cached, a request for `k` that reads the cache only now calls no
    provider, whatever else runs beside it, as long as the entry is there.
   */
  lemma {:induction false} CachedKeyCallsNoProvider(cfg: Config, s: State, run: seq<Event>, k: Key, rid: Rid)
    requires CachedAndSpared(cfg, s, k, rid)
    requires forall e | e in run :: Undisrupted(cfg, e, k, rid)
    ensures CachedAndSpared(cfg, Run(cfg, s, run), k, rid)
  {
    if run != [] {
      var before, e := run[..|run| - 1], run[|run| - 1];
      CachedKeyCallsNoProvider(cfg, s, before, k, rid);
      assert Undisrupted(cfg, e, k, rid);
      if Enabled(Run(cfg, s, before), e) {
        SparedStep(cfg, Run(cfg, s, before), e, k, rid);
      }
    }
  }
}
