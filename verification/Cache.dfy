/**
  The exact cache of internal/cache/redis.go as a client of Redis, one call at a time, and its
  agreement with the interleaved steps of the gateway.

  Redis is the fields of the class.  How a command ends, and what the wait for a message yields, are
  parameters.
 */
module Cache {
  import opened Models
  import Gateway
  import opened Messages

  type Key = Gateway.Key

  /** Cached values, locks with their expiry, and the messages published so far. */
  datatype Redis = Redis(values: map<Key, GatewayResponse>, locks: map<Key, nat>, published: seq<Posting>)

  /** How far one GetOrLock gets before it would have to wait. */
  datatype Entry = CacheHit(resp: GatewayResponse) | Acquired | LockError | Subscriber

  /** The three results of GetOrLock. */
  datatype Lookup = Found(resp: GatewayResponse) | Owner | Failed

  function Enter(values: map<Key, GatewayResponse>, locks: map<Key, nat>, k: Key, getFails: bool, setnx: Reply): Entry {
    if !getFails && k in values then CacheHit(values[k].(cached := true))
    else if !setnx.Replied? then LockError
    else if k in locks then Subscriber
    else Acquired
  }

  /** The locks after it; an answer from the cache leaves them alone. */
  function LocksAfterEnter(values: map<Key, GatewayResponse>, locks: map<Key, nat>, k: Key, now: nat, getFails: bool,
                           setnx: Reply): map<Key, nat>
  {
    if (!getFails && k in values) || !Executed(setnx) || k in locks then locks else locks[k := now + Gateway.LOCK_TTL]
  }

  /** What PublishResult leaves in Redis; it stops at the first error. */
  function PublishOnce(redis: Redis, k: Key, payload: GatewayResponse, stored: Reply, publish: Reply,
                       del: Reply): Redis {
    Redis(if Executed(stored) then redis.values[k := payload] else redis.values,
          if stored.Replied? && publish.Replied? && Executed(del) then redis.locks - {k} else redis.locks,
          redis.published + if stored.Replied? && Executed(publish) then [(k, payload)] else [])
  }

  class Cache {
    const hash: GatewayRequest -> Key
    var values: map<Key, GatewayResponse>
    var locks: map<Key, nat>
    var published: seq<Posting>

    function Contents(): Redis reads this { Redis(values, locks, published) }

    constructor (hash: GatewayRequest -> Key)
      ensures this.hash == hash && Contents() == Redis(map[], map[], [])
    {
      this.hash := hash;
      values, locks, published := map[], map[], [];
    }

    /** A miss is no error; a failing command and an unreadable value are. */
    method Get(req: GatewayRequest, fails: bool) returns (cached: Option<GatewayResponse>, err: bool)
      ensures err <==> fails
      ensures cached.Some? <==> !fails && hash(req) in values
      ensures cached.Some? ==> cached.value == values[hash(req)].(cached := true)
    {
      var key := hash(req);
      if fails {
        return None, true;
      }
      if key !in values {
        return None, false;
      }
      return Some(values[key].(cached := true)), false;
    }

    method Set(req: GatewayRequest, resp: GatewayResponse, reply: Reply) returns (ok: bool)
      modifies this`values
      ensures ok <==> reply.Replied?
      ensures values == if Executed(reply) then old(values)[hash(req) := Gateway.Canonical(resp)] else old(values)
    {
      var key := hash(req);
      var cacheResp := resp.(latencyMs := 0);
      cacheResp := cacheResp.(cached := false);
      if Executed(reply) {
        values := values[key := cacheResp];
      }
      return reply.Replied?;
    }

    /** `message` is what the subscription delivers, None for a timeout, a cancelled request or a bad payload. */
    method GetOrLock(req: GatewayRequest, now: nat, getFails: bool, setnx: Reply, message: Option<GatewayResponse>)
      returns (found: Lookup)
      modifies this`locks
      ensures locks == LocksAfterEnter(values, old(locks), hash(req), now, getFails, setnx)
      ensures found == match Enter(values, old(locks), hash(req), getFails, setnx)
                       case CacheHit(resp) => Found(resp)
                       case Acquired => Owner
                       case LockError => Failed
                       case Subscriber => if message.Some? then Found(message.value.(cached := true)) else Failed
    {
      var cached, err := Get(req, getFails);
      if !err && cached.Some? {
        return Found(cached.value);
      }
      var key := hash(req);
      var acquired := false;
      if Executed(setnx) && key !in locks {
        locks := locks[key := now + Gateway.LOCK_TTL];
        acquired := true;
      }
      if !setnx.Replied? {
        return Failed;
      }
      if acquired {
        return Owner;
      }
      match message {
        case None => return Failed;
        case Some(payload) => return Found(payload.(cached := true));
      }
    }

    method PublishResult(req: GatewayRequest, resp: GatewayResponse, stored: Reply, publish: Reply, del: Reply)
      returns (ok: bool)
      modifies this
      ensures Contents() == PublishOnce(old(Contents()), hash(req), Gateway.Canonical(resp), stored, publish, del)
      ensures ok <==> stored.Replied? && publish.Replied? && del.Replied?
    {
      var key := hash(req);
      var respCopy := resp.(latencyMs := 0);
      respCopy := respCopy.(cached := false);
      var kept := Set(req, resp, stored);
      if !kept {
        return false;
      }
      if Executed(publish) {
        published := published + [(key, respCopy)];
      }
      if !publish.Replied? {
        return false;
      }
      if Executed(del) {
        locks := locks - {key};
      }
      return del.Replied?;
    }
  }

  // ---------------------------------------------------------------- agreement with the steps

  /** Where the machine has taken a request that GetOrLock took as far as `entry`. */
  predicate Entered(r: Gateway.Request, before: Gateway.Request, entry: Entry) {
    match entry
    case CacheHit(resp) => r == before.(pc := Gateway.Finished, outcome := Gateway.Hit(resp))
    case Acquired => r == before.(pc := Gateway.Attempt(false), holds := true)
    case LockError => r == before.(pc := Gateway.Attempt(false))
    case Subscriber => r == before.(pc := Gateway.Waiting([]))
  }

  lemma GetStep(cfg: Gateway.Config, s: Gateway.State, rid: Gateway.Rid, fails: bool)
    requires rid in s.requests && s.requests[rid].pc.Getting?
    ensures var r, t := s.requests[rid], Gateway.Advance(cfg, s, Gateway.Get(rid, fails));
            && t.values == s.values && t.locks == s.locks && t.now == s.now && rid in t.requests
            && t.requests[rid] == if !fails && cfg.hash(r.req) in s.values
                                  then Gateway.Answered(r, Gateway.Hit(s.values[cfg.hash(r.req)].(cached := true)))
                                  else r.(pc := Gateway.Locking)
  {
  }

  lemma SetNXStep(cfg: Gateway.Config, s: Gateway.State, rid: Gateway.Rid, setnx: Reply)
    requires rid in s.requests && s.requests[rid].pc.Locking?
    ensures var r, t := s.requests[rid], Gateway.Advance(cfg, s, Gateway.SetNX(rid, setnx));
            && t.values == s.values && rid in t.requests
            && t.locks == LocksAfterEnter(s.values, s.locks, cfg.hash(r.req), s.now, true, setnx)
            && t.requests[rid] == if !setnx.Replied? then r.(pc := Gateway.Attempt(false))
                                  else if cfg.hash(r.req) in s.locks then r.(pc := Gateway.Subscribing)
                                  else r.(pc := Gateway.Attempt(false), holds := true)
  {
  }

  lemma SubscribeStep(cfg: Gateway.Config, s: Gateway.State, rid: Gateway.Rid)
    requires rid in s.requests
    ensures var r, t := s.requests[rid], Gateway.Advance(cfg, s, Gateway.Subscribe(rid));
            && t.values == s.values && t.locks == s.locks && rid in t.requests
            && t.requests[rid] == if r.pc.Subscribing? then r.(pc := Gateway.Waiting([])) else r
  {
  }

  /** A request that did not find its key goes on to the lock; one that did skips both steps. */
  lemma LockSteps(cfg: Gateway.Config, s: Gateway.State, rid: Gateway.Rid, setnx: Reply)
    requires rid in s.requests && (s.requests[rid].pc.Locking? || s.requests[rid].pc.Finished?)
    ensures var r := s.requests[rid];
            var t := Gateway.Advance(cfg, Gateway.Advance(cfg, s, Gateway.SetNX(rid, setnx)), Gateway.Subscribe(rid));
            && t.values == s.values && rid in t.requests
            && (r.pc.Finished? ==> t.requests[rid] == r && t.locks == s.locks)
            && (r.pc.Locking? ==>
                  && Entered(t.requests[rid], r, Enter(s.values, s.locks, cfg.hash(r.req), true, setnx))
                  && t.locks == LocksAfterEnter(s.values, s.locks, cfg.hash(r.req), s.now, true, setnx))
  {
    if s.requests[rid].pc.Locking? {
      SetNXStep(cfg, s, rid, setnx);
    }
    SubscribeStep(cfg, Gateway.Advance(cfg, s, Gateway.SetNX(rid, setnx)), rid);
  }

  /** GetOrLock alone is the machine's Get, SETNX and subscription, up to the wait. */
  lemma GetOrLockIsARun(cfg: Gateway.Config, s: Gateway.State, rid: Gateway.Rid, getFails: bool, setnx: Reply)
    requires rid in s.requests && s.requests[rid].pc.Getting?
    ensures var r := s.requests[rid];
            var after := Gateway.Run(cfg, s, [Gateway.Get(rid, getFails), Gateway.SetNX(rid, setnx),
                                              Gateway.Subscribe(rid)]);
            && after.values == s.values && rid in after.requests
            && Entered(after.requests[rid], r, Enter(s.values, s.locks, cfg.hash(r.req), getFails, setnx))
            && after.locks == LocksAfterEnter(s.values, s.locks, cfg.hash(r.req), s.now, getFails, setnx)
  {
    Gateway.RunOfThree(cfg, s, Gateway.Get(rid, getFails), Gateway.SetNX(rid, setnx), Gateway.Subscribe(rid));
    GetStep(cfg, s, rid, getFails);
    LockSteps(cfg, Gateway.Advance(cfg, s, Gateway.Get(rid, getFails)), rid, setnx);
  }

  /** What a publication sends: the PUBLISH of a request that gets as far. */
  lemma SentByPublication(cfg: Gateway.Config, s: Gateway.State, rid: Gateway.Rid, stored: Reply, publish: Reply,
                          del: Reply)
    requires Gateway.At(s, rid, Gateway.Setting)
    ensures var r := s.requests[rid];
            SentIn(cfg, s, [Gateway.Set(rid, stored), Gateway.Publish(rid, publish), Gateway.Unlock(rid, del)]) ==
            PublishOnce(Redis(s.values, s.locks, []), cfg.hash(r.req), Gateway.Canonical(r.pc.resp), stored, publish,
                        del).published
  {
    var a, b, c := Gateway.Set(rid, stored), Gateway.Publish(rid, publish), Gateway.Unlock(rid, del);
    var t := Gateway.Advance(cfg, s, a);
    SentByThree(cfg, s, a, b, c);
    SetStep(cfg, s, rid, stored);
    assert SentBy(cfg, s, a) == [] && SentBy(cfg, Gateway.Advance(cfg, t, b), c) == [];
    assert SentBy(cfg, t, b) == if stored.Replied? && Executed(publish)
                                then [(cfg.hash(t.requests[rid].req), Gateway.Canonical(t.requests[rid].pc.resp))]
                                else [];
  }

  lemma SetStep(cfg: Gateway.Config, s: Gateway.State, rid: Gateway.Rid, reply: Reply)
    requires Gateway.At(s, rid, Gateway.Setting)
    ensures var r, t := s.requests[rid], Gateway.Advance(cfg, s, Gateway.Set(rid, reply));
            && rid in t.requests && t.locks == s.locks
            && t.requests[rid] == r.(pc := Gateway.NextStage(reply, Gateway.Notifying, r.pc.resp))
            && t.values == if Executed(reply) then s.values[cfg.hash(r.req) := Gateway.Canonical(r.pc.resp)]
                           else s.values
  {
  }

  /** After a failed SET the background task is past its PUBLISH, and after a failed PUBLISH past its DEL. */
  lemma NotifyStep(cfg: Gateway.Config, s: Gateway.State, rid: Gateway.Rid, reply: Reply)
    requires Gateway.At(s, rid, Gateway.Notifying) || Gateway.At(s, rid, Gateway.Storing)
    ensures var r, t := s.requests[rid], Gateway.Advance(cfg, s, Gateway.Publish(rid, reply));
            && rid in t.requests && t.locks == s.locks && t.values == s.values
            && t.requests[rid] == if r.pc.stage.Storing? then r
                                  else r.(pc := Gateway.NextStage(reply, Gateway.Unlocking, r.pc.resp))
  {
  }

  lemma UnlockStep(cfg: Gateway.Config, s: Gateway.State, rid: Gateway.Rid, reply: Reply)
    requires Gateway.At(s, rid, Gateway.Unlocking) || Gateway.At(s, rid, Gateway.Storing)
    ensures var r, t := s.requests[rid], Gateway.Advance(cfg, s, Gateway.Unlock(rid, reply));
            && rid in t.requests && t.values == s.values
            && t.requests[rid].pc == Gateway.Publishing(Gateway.Storing, r.pc.resp)
            && t.locks == if r.pc.stage.Unlocking? && Executed(reply) then s.locks - {cfg.hash(r.req)} else s.locks
  {
  }

  lemma NotifySteps(cfg: Gateway.Config, s: Gateway.State, rid: Gateway.Rid, publish: Reply, del: Reply)
    requires Gateway.At(s, rid, Gateway.Notifying) || Gateway.At(s, rid, Gateway.Storing)
    ensures var r := s.requests[rid];
            var t := Gateway.Advance(cfg, Gateway.Advance(cfg, s, Gateway.Publish(rid, publish)),
                                     Gateway.Unlock(rid, del));
            && t.values == s.values && Gateway.At(t, rid, Gateway.Storing) && t.requests[rid].pc.resp == r.pc.resp
            && t.locks == if r.pc.stage.Notifying? && publish.Replied? && Executed(del)
                          then s.locks - {cfg.hash(r.req)} else s.locks
  {
    NotifyStep(cfg, s, rid, publish);
    UnlockStep(cfg, Gateway.Advance(cfg, s, Gateway.Publish(rid, publish)), rid, del);
  }

  /**
    PublishResult alone is the machine's SET, PUBLISH and DEL, cut short by the first error: same values and locks, and
    every subscriber of the key gets the message, nobody else anything.
   */
  lemma PublishResultIsARun(cfg: Gateway.Config, s: Gateway.State, rid: Gateway.Rid, stored: Reply, publish: Reply,
                            del: Reply)
    requires Gateway.At(s, rid, Gateway.Setting)
    ensures var r := s.requests[rid];
            var after := Gateway.Run(cfg, s, [Gateway.Set(rid, stored), Gateway.Publish(rid, publish),
                                              Gateway.Unlock(rid, del)]);
            var want := PublishOnce(Redis(s.values, s.locks, []), cfg.hash(r.req), Gateway.Canonical(r.pc.resp),
                                    stored, publish, del);
            && after.values == want.values && after.locks == want.locks
            && Heard(cfg, Waiters(s), s, after, want.published)
            && Gateway.At(after, rid, Gateway.Storing) && after.requests[rid].pc.resp == r.pc.resp
  {
    var run := [Gateway.Set(rid, stored), Gateway.Publish(rid, publish), Gateway.Unlock(rid, del)];
    SentByPublication(cfg, s, rid, stored, publish, del);
    HeardRun(cfg, Waiters(s), s, run);
    Gateway.RunOfThree(cfg, s, Gateway.Set(rid, stored), Gateway.Publish(rid, publish), Gateway.Unlock(rid, del));
    SetStep(cfg, s, rid, stored);
    NotifySteps(cfg, Gateway.Advance(cfg, s, Gateway.Set(rid, stored)), rid, publish, del);
  }
}
