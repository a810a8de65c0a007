/**
  Who hears what on the channels of internal/cache/redis.go: through any run, a request that waits receives
  exactly what the run publishes on its own channel, in order.
 */
module Messages {
  import opened Models
  import opened Gateway

  /** A channel, named by its key, and what is published on it. */
  type Posting = (Key, GatewayResponse)

  /** The messages of one channel, in order. */
  function MessagesFor(published: seq<Posting>, k: Key): seq<GatewayResponse> {
    if published == [] then [] else
    var last := published[|published| - 1];
    MessagesFor(published[..|published| - 1], k) + if last.0 == k then [last.1] else []
  }

  lemma {:induction false} MessagesAppend(a: seq<Posting>, b: seq<Posting>, k: Key)
    ensures MessagesFor(a + b, k) == MessagesFor(a, k) + MessagesFor(b, k)
  {
    if b == [] {
      assert a + b == a;
    } else {
      assert (a + b)[..|a + b| - 1] == a + b[..|b| - 1];
      MessagesAppend(a, b[..|b| - 1], k);
    }
  }

  lemma MessagesForOne(k: Key, m: Posting)
    ensures MessagesFor([m], k) == if m.0 == k then [m.1] else []
  {
    assert [m][..0] == [];
  }

  /** The subscriber has been waiting through `published`. */
  predicate Hears(cfg: Config, r: Request, r': Request, published: seq<Posting>)
    requires r.pc.Waiting?
  {
    r' == r.(pc := Waiting(r.pc.inbox + MessagesFor(published, cfg.hash(r.own))))
  }

  function Waiters(s: State): set<Rid> { set x | x in s.requests && s.requests[x].pc.Waiting? }

  /** These requests wait, and have received exactly what was published on their channels since, in order. */
  predicate Heard(cfg: Config, who: set<Rid>, s: State, t: State, published: seq<Posting>) {
    && who <= Waiters(s)
    && forall x | x in who :: x in t.requests && Hears(cfg, s.requests[x], t.requests[x], published)
  }

  /** What a step publishes. */
  function SentBy(cfg: Config, s: State, e: Event): seq<Posting> {
    if Enabled(s, e) && SendsMessage(e) then [(cfg.hash(s.requests[e.rid].req), Payload(s, e))] else []
  }

  /** What a run publishes. */
  function SentIn(cfg: Config, s: State, run: seq<Event>): seq<Posting> {
    if run == [] then [] else
    SentIn(cfg, s, run[..|run| - 1]) + SentBy(cfg, Run(cfg, s, run[..|run| - 1]), run[|run| - 1])
  }

  lemma SentExtends(cfg: Config, s: State, run: seq<Event>, e: Event)
    ensures SentIn(cfg, s, run + [e]) == SentIn(cfg, s, run) + SentBy(cfg, Run(cfg, s, run), e)
  {
    assert (run + [e])[..|run + [e]| - 1] == run;
  }

  lemma HearsNothing(cfg: Config, r: Request)
    requires r.pc.Waiting?
    ensures Hears(cfg, r, r, [])
  {
    assert r.pc.inbox + [] == r.pc.inbox;
  }

  lemma HearsBystander(cfg: Config, s: State, e: Event, r: Request)
    requires Enabled(s, e) && r.pc.Waiting?
    ensures Hears(cfg, r, Bystander(cfg, s, e, r), SentBy(cfg, s, e))
  {
    HearsNothing(cfg, r);
    if SendsMessage(e) {
      MessagesForOne(cfg.hash(r.own), SentBy(cfg, s, e)[0]);
    }
  }

  lemma StandsBy(cfg: Config, s: State, e: Event, x: Rid)
    requires Enabled(s, e) && x in s.requests && !Acts(e, x)
    ensures x in Advance(cfg, s, e).requests
    ensures Advance(cfg, s, e).requests[x] == Bystander(cfg, s, e, s.requests[x])
  {
  }

  lemma HearsStep(cfg: Config, s: State, e: Event, x: Rid)
    requires x in s.requests && s.requests[x].pc.Waiting? && !Acts(e, x)
    ensures x in Advance(cfg, s, e).requests
    ensures Hears(cfg, s.requests[x], Advance(cfg, s, e).requests[x], SentBy(cfg, s, e))
  {
    if Enabled(s, e) {
      StandsBy(cfg, s, e, x);
      HearsBystander(cfg, s, e, s.requests[x]);
    } else {
      HearsNothing(cfg, s.requests[x]);
    }
  }

  lemma HearsOn(cfg: Config, r: Request, r1: Request, r2: Request, a: seq<Posting>, b: seq<Posting>)
    requires r.pc.Waiting? && Hears(cfg, r, r1, a) && Hears(cfg, r1, r2, b)
    ensures Hears(cfg, r, r2, a + b)
  {
    var k := cfg.hash(r.own);
    MessagesAppend(a, b, k);
    assert r.pc.inbox + MessagesFor(a, k) + MessagesFor(b, k) == r.pc.inbox + (MessagesFor(a, k) + MessagesFor(b, k));
  }

  /** Whoever waits through a run hears what it publishes on the own channel, and nothing else. */
  lemma {:induction false} HearsRun(cfg: Config, s: State, run: seq<Event>, x: Rid)
    requires x in s.requests && s.requests[x].pc.Waiting? && forall e | e in run :: !Acts(e, x)
    ensures x in Run(cfg, s, run).requests
    ensures Hears(cfg, s.requests[x], Run(cfg, s, run).requests[x], SentIn(cfg, s, run))
  {
    if run == [] {
      HearsNothing(cfg, s.requests[x]);
    } else {
      var before, e := run[..|run| - 1], run[|run| - 1];
      var t := Run(cfg, s, before);
      HearsRun(cfg, s, before, x);
      HearsStep(cfg, t, e, x);
      HearsOn(cfg, s.requests[x], t.requests[x], Advance(cfg, t, e).requests[x], SentIn(cfg, s, before),
              SentBy(cfg, t, e));
    }
  }

  /** None of these requests acts in the run. */
  predicate Rest(who: set<Rid>, run: seq<Event>) { forall e, x | e in run && x in who :: !Acts(e, x) }

  lemma HeardRun(cfg: Config, who: set<Rid>, s: State, run: seq<Event>)
    requires who <= Waiters(s) && Rest(who, run)
    ensures Heard(cfg, who, s, Run(cfg, s, run), SentIn(cfg, s, run))
  {
    forall x | x in who
      ensures x in Run(cfg, s, run).requests
      ensures Hears(cfg, s.requests[x], Run(cfg, s, run).requests[x], SentIn(cfg, s, run))
    {
      HearsRun(cfg, s, run, x);
    }
  }

  lemma HeardNothing(cfg: Config, who: set<Rid>, s: State, run: seq<Event>)
    requires who <= Waiters(s) && Rest(who, run) && forall e | e in run :: !SendsMessage(e)
    ensures Heard(cfg, who, s, Run(cfg, s, run), [])
  {
    NothingSent(cfg, s, run);
    HeardRun(cfg, who, s, run);
  }

  lemma HeardThen(cfg: Config, who: set<Rid>, s: State, t: State, u: State, a: seq<Posting>, b: seq<Posting>)
    requires Heard(cfg, who, s, t, a) && Heard(cfg, who, t, u, b)
    ensures Heard(cfg, who, s, u, a + b)
  {
    forall x | x in who
      ensures x in u.requests && Hears(cfg, s.requests[x], u.requests[x], a + b)
    {
      HearsOn(cfg, s.requests[x], t.requests[x], u.requests[x], a, b);
    }
  }

  lemma {:induction false} NothingSent(cfg: Config, s: State, run: seq<Event>)
    requires forall e | e in run :: !SendsMessage(e)
    ensures SentIn(cfg, s, run) == []
  {
    if run != [] {
      NothingSent(cfg, s, run[..|run| - 1]);
      assert run[|run| - 1] in run;
    }
  }

  lemma SentByOne(cfg: Config, s: State, a: Event)
    ensures SentIn(cfg, s, [a]) == SentBy(cfg, s, a)
  {
    SentExtends(cfg, s, [], a);
    assert [] + [a] == [a];
  }

  lemma SentByTwo(cfg: Config, s: State, a: Event, b: Event)
    ensures SentIn(cfg, s, [a, b]) == SentBy(cfg, s, a) + SentBy(cfg, Advance(cfg, s, a), b)
  {
    SentByOne(cfg, s, a);
    RunOfOne(cfg, s, a);
    SentExtends(cfg, s, [a], b);
    assert [a] + [b] == [a, b];
  }

  lemma SentByThree(cfg: Config, s: State, a: Event, b: Event, c: Event)
    ensures SentIn(cfg, s, [a, b, c]) ==
            SentBy(cfg, s, a) + SentBy(cfg, Advance(cfg, s, a), b) + SentBy(cfg, Advance(cfg, Advance(cfg, s, a), b), c)
  {
    SentByTwo(cfg, s, a, b);
    RunOfTwo(cfg, s, a, b);
    SentExtends(cfg, s, [a, b], c);
    assert [a, b] + [c] == [a, b, c];
  }
}
