/** Material for example runs of the pool. */
module PoolExamples {
  import opened Options
  import opened Configuration
  import opened PoolModel
  import opened PoolInvariants
  import opened PoolWaiting
  import opened PoolRuns

  const WILLING := Env((id: nat) => true, (id: nat) => true, (id: nat, sql: string) => false)
  const FOR_PRIMARY := Request(true, false, false, None)
  const FOR_ANY := Request(false, false, false, None)

  lemma {:induction false} RunOfTwoParts(s: State, a: seq<Event>, b: seq<Event>)
    requires Legal(s, a) && Legal(After(s, a), b)
    ensures Legal(s, a + b) && After(s, a + b) == After(After(s, a), b)
    decreases a
  {
    hide Next, Enabled;
    if a == [] {
      assert a + b == b;
    } else {
      assert (a + b)[0] == a[0] && (a + b)[1..] == a[1..] + b;
      RunOfTwoParts(Next(s, a[0].step, a[0].env), a[1..], b);
    }
  }

  lemma RunOfThree(s: State, run: seq<Event>, s1: State, s2: State, s3: State)
    requires |run| == 3
    requires Enabled(s, run[0].step) && s1 == Next(s, run[0].step, run[0].env)
    requires Enabled(s1, run[1].step) && s2 == Next(s1, run[1].step, run[1].env)
    requires Enabled(s2, run[2].step) && s3 == Next(s2, run[2].step, run[2].env)
    ensures Legal(s, run) && After(s, run) == s3
  {
    hide Next, Enabled;
    assert run[1..][1..][1..] == [];
    assert Legal(s2, run[1..][1..]) && After(s2, run[1..][1..]) == s3;
    assert Legal(s1, run[1..]) && After(s1, run[1..]) == s3;
  }

  lemma RunOfTwo(s: State, run: seq<Event>, s1: State, s2: State)
    requires |run| == 2
    requires Enabled(s, run[0].step) && s1 == Next(s, run[0].step, run[0].env)
    requires Enabled(s1, run[1].step) && s2 == Next(s1, run[1].step, run[1].env)
    ensures Legal(s, run) && After(s, run) == s2
  {
    hide Next, Enabled;
    assert run[1..][1..] == [];
    assert Legal(s1, run[1..]) && After(s1, run[1..]) == s2;
  }

  lemma RunOfOne(s: State, e: Event)
    requires Enabled(s, e.step)
    ensures Legal(s, [e]) && After(s, [e]) == Next(s, e.step, e.env)
  {
    hide Next, Enabled;
    assert [e][1..] == [];
  }

  /** The first request for the primary connection takes the one the pool was opened with. */
  lemma PrimaryIsTaken(config: Config, build: Build)
    requires Distinct(config.functions)
    ensures var s := Start(config, build);
            var s1 := Next(s, AcquireStep(FOR_PRIMARY, false), WILLING);
            && Enabled(s, AcquireStep(FOR_PRIMARY, false)) && s1 == s.(pool := s1.pool) && PoolInv(s1.pool)
            && SameSettings(s.pool, s1.pool) && s1.pool.nextId == 1 && s1.pool.idlePrimary.None? && s1.pool.idle == []
            && |s1.pool.acquired| == 1 && 0 in s1.pool.acquired && s1.pool.acquired[0].conn.primary
            && PrimaryAcquired(s1.pool)
  {
    var s := Start(config, build);
    StartHasInv(config, build);
    TryServeKeepsPoolInv(s.pool, WILLING, FOR_PRIMARY, FRESH);
    hide PoolInv;
    var s1 := Next(s, AcquireStep(FOR_PRIMARY, false), WILLING);
    assert 0 in s1.pool.acquired && s1.pool.acquired[0].conn.primary;
  }

  /** `n` requests in a row that take any connection, and an environment that opens one for each. */
  function Filling(n: nat): seq<Event> {
    if n == 0 then [] else [Event(AcquireStep(FOR_ANY, false), WILLING)] + Filling(n - 1)
  }

  /** The connection that a request for any connection gets when one is opened for it. */
  function Newcomer(p: Pool): Held {
    Held(Opened(p.nextId, false, p.config), Normal, false)
  }

  /** As long as there is room, each of these requests opens one more non-primary connection. */
  lemma {:induction false} FillsUp(s: State, n: nat)
    requires PoolInv(s.pool) && s.pool.open && s.pool.idle == []
    requires |s.pool.acquired| + Count(s.pool.idlePrimary) + n <= s.pool.max
    ensures Legal(s, Filling(n))
    ensures var t := After(s, Filling(n));
            && t == s.(pool := t.pool) && PoolInv(t.pool) && Grows(s.pool, t.pool)
            && SameSettings(s.pool, t.pool) && t.pool.idle == []
            && |t.pool.acquired| == |s.pool.acquired| + n && NonPrimaryCount(t.pool) == NonPrimaryCount(s.pool) + n
            && t.pool.idlePrimary == s.pool.idlePrimary && t.pool.nextId == s.pool.nextId + n
            && (PrimaryAcquired(t.pool) <==> PrimaryAcquired(s.pool))
            && (n > 0 ==> s.pool.nextId in t.pool.acquired && t.pool.acquired[s.pool.nextId] == Newcomer(s.pool))
    decreases n
  {
    hide PoolInv, Grows, Next, PrimaryAcquired;
    GrowsReflexive(s.pool);
    if n > 0 {
      var s1 := s.(pool := Next(s, AcquireStep(FOR_ANY, false), WILLING).pool);
      OneMore(s);
      FillsUp(s1, n - 1);
      var t := After(s1, Filling(n - 1));
      assert Filling(n)[0] == Event(AcquireStep(FOR_ANY, false), WILLING) && Filling(n)[1..] == Filling(n - 1);
      GrowsTransitive(s.pool, s1.pool, t.pool);
      GrowsKeepsAcquired(s1.pool, t.pool, s.pool.nextId);
    }
  }

  /** The first request takes the primary connection, and `n` others have one opened each. */
  function Full(n: nat): seq<Event> {
    [Event(AcquireStep(FOR_PRIMARY, false), WILLING)] + Filling(n)
  }

  /** All connections that a pool may have are acquired, the first one being the primary. */
  lemma TakesAll(config: Config, build: Build)
    requires Distinct(config.functions)
    ensures var s, max := Start(config, build), MaxPoolSize(build, config);
            && Legal(s, Full(max - 1))
            && var t := After(s, Full(max - 1));
               && t == s.(pool := t.pool) && SameSettings(s.pool, t.pool)
               && t.pool.idlePrimary.None? && t.pool.idle == [] && |t.pool.acquired| == max
               && PrimaryAcquired(t.pool) && 0 in t.pool.acquired && t.pool.acquired[0].conn.primary
               && (max > 1 ==> 1 in t.pool.acquired && t.pool.acquired[1] == Held(Opened(1, false, config), Normal, false))
  {
    hide Next, Enabled, PoolInv, PrimaryAcquired, HasWal;
    var s, max := Start(config, build), MaxPoolSize(build, config);
    var take := Event(AcquireStep(FOR_PRIMARY, false), WILLING);
    var s1 := Next(s, take.step, WILLING);
    PrimaryIsTaken(config, build);
    RunOfOne(s, take);
    FillsUp(s1, max - 1);
    RunOfTwoParts(s, [take], Filling(max - 1));
    GrowsKeepsAcquired(s1.pool, After(s1, Filling(max - 1)).pool, 0);
  }

  lemma OneMore(s: State)
    requires PoolInv(s.pool) && s.pool.open && s.pool.idle == []
    requires |s.pool.acquired| + Count(s.pool.idlePrimary) < s.pool.max
    ensures var s1 := Next(s, AcquireStep(FOR_ANY, false), WILLING);
            && s1 == s.(pool := s1.pool) && PoolInv(s1.pool) && Grows(s.pool, s1.pool)
            && SameSettings(s.pool, s1.pool) && s1.pool.idle == []
            && |s1.pool.acquired| == |s.pool.acquired| + 1 && NonPrimaryCount(s1.pool) == NonPrimaryCount(s.pool) + 1
            && s1.pool.idlePrimary == s.pool.idlePrimary && s1.pool.nextId == s.pool.nextId + 1
            && (PrimaryAcquired(s1.pool) <==> PrimaryAcquired(s.pool))
            && s.pool.nextId in s1.pool.acquired && s1.pool.acquired[s.pool.nextId] == Newcomer(s.pool)
  {
    hide PoolInv, Grows, TryServe, Next, PrimaryAcquired;
    OneMoreIs(s);
    PoolInvOwned(s.pool);
    TryServeKeepsPoolInv(s.pool, WILLING, FOR_ANY, FRESH);
    TryServeFacts(s.pool, WILLING, FOR_ANY, FRESH);
    NewcomerCounts(s.pool);
    SamePrimaries(s.pool, Extended(s.pool));
  }

  /** The pool after it has opened one more non-primary connection. */
  function Extended(p: Pool): Pool {
    p.(nextId := p.nextId + 1, acquired := p.acquired[p.nextId := Newcomer(p)])
  }

  lemma OneMoreIs(s: State)
    requires s.pool.open && s.pool.idle == [] && |s.pool.acquired| + Count(s.pool.idlePrimary) < s.pool.max
    ensures Next(s, AcquireStep(FOR_ANY, false), WILLING) == s.(pool := Extended(s.pool))
    ensures TryServe(s.pool, WILLING, FOR_ANY, FRESH).pool == Extended(s.pool)
  {
  }

  lemma NewcomerCounts(p: Pool)
    requires Owned(p)
    ensures |Extended(p).acquired| == |p.acquired| + 1 && NonPrimaryCount(Extended(p)) == NonPrimaryCount(p) + 1
    ensures p.nextId !in p.acquired
  {
    assert LiveNonPrimaries(Extended(p).acquired) == LiveNonPrimaries(p.acquired) + {p.nextId};
  }

  lemma SamePrimaries(p: Pool, q: Pool)
    requires p.nextId !in p.acquired && q.acquired == p.acquired[p.nextId := Newcomer(p)]
    ensures PrimaryAcquired(q) <==> PrimaryAcquired(p)
  {
    if PrimaryAcquired(p) {
      var id :| id in p.acquired && p.acquired[id].conn.primary;
      assert id in q.acquired && q.acquired[id].conn.primary;
    }
  }
}
