/** Who can be overtaken: by a request that is served at once, and by a waiter further back in the queue. */
module PoolOvertaking {
  import opened Options
  import opened Configuration
  import opened PoolModel
  import opened PoolInvariants
  import opened PoolWaiting
  import opened PoolQueue
  import opened PoolRequests
  import opened PoolPasses
  import opened PoolRuns
  import opened PoolExamples

  // ---- Newcomers ---------------------------------------------------------------------------------

  /** `r` would take connection `c`. */
  predicate Accepts(r: Request, c: Conn) {
    c.primary || !r.wantPrimary
  }

  /** A newcomer with request `r` is served at once, with a connection that a waiter with request `w` accepts. */
  ghost predicate Overtakes(p: Pool, env: Env, r: Request, w: Request) {
    var service := TryServe(p, env, r, FRESH);
    && service.attempt.Got? && service.attempt.id in service.pool.acquired
    && Accepts(w, service.pool.acquired[service.attempt.id].conn)
  }

  /** Knowing beforehand what is taken does not change what a request is served with. */
  lemma BlockedNarrowsService(p: Pool, env: Env, r: Request, flags: Flags)
    requires Justified(p, flags)
    ensures TryServe(p, env, r, FRESH).pool == TryServe(p, env, r, flags).pool
    ensures TryServe(p, env, r, FRESH).attempt == TryServe(p, env, r, flags).attempt
  {
  }

  lemma BlockedIsNotOvertaken(p: Pool, env: Env, r: Request, w: Request)
    requires Owned(p) && Blocked(p, w)
    ensures !Overtakes(p, env, r, w)
  {
    hide Owned, TryServe, Grows;
    var known := Flags(true, !w.wantPrimary);
    BlockedNarrowsService(p, env, r, known);
    TryServeFacts(p, env, r, known);
  }

  /** A waiter that is not blocked is overtaken by a newcomer who asks for just the same. */
  lemma ServableIsOvertaken(p: Pool, w: Request)
    requires Owned(p) && !Blocked(p, w)
    ensures Overtakes(p, WILLING, w, w)
  {
  }

  /**
    In every reachable state of an open pool, leaks under way or not, some newcomer can take a connection that a
    queued request would accept if and only if that request is not blocked.
   */
  lemma NewcomerOvertakesIff(config: Config, build: Build, run: seq<Event>, i: nat)
    requires PoolRun(config, build, run)
    requires var s := After(Start(config, build), run); s.pool.open && i < |s.queue|
    ensures var s := After(Start(config, build), run);
            (exists r, env :: Overtakes(s.pool, env, r, s.queue[i].request)) <==>
            !Blocked(s.pool, s.queue[i].request)
  {
    hide PoolInv, Legal, After, Apart, Located, Exclusive, NoneForgotten, Overtakes, Blocked;
    ReachableInv(config, build, run);
    var s := After(Start(config, build), run);
    var w := s.queue[i].request;
    PoolInvOwned(s.pool);
    if Blocked(s.pool, w) {
      forall r, env ensures !Overtakes(s.pool, env, r, w) {
        BlockedIsNotOvertaken(s.pool, env, r, w);
      }
    } else {
      ServableIsOvertaken(s.pool, w);
    }
  }

  /** With no leak under way, a newcomer overtakes nobody. */
  lemma NewcomerOvertakesNobody(config: Config, build: Build, run: seq<Event>, r: Request, env: Env, i: nat)
    requires PoolRun(config, build, run)
    requires var s := After(Start(config, build), run); s.pool.open && s.leaks == NO_LEAKS && i < |s.queue|
    ensures var s := After(Start(config, build), run); !Overtakes(s.pool, env, r, s.queue[i].request)
  {
    hide PoolInv, Legal, After, Apart, Located, Exclusive, Overtakes, Blocked;
    ReachableInv(config, build, run);
    NewcomerOvertakesIff(config, build, run, i);
  }

  /** The primary connection leaks while someone waits for it, and before the leak is noticed a newcomer gets a new one. */
  const JUMP: seq<Event> := [
    Event(AcquireStep(FOR_PRIMARY, false), WILLING),
    Event(AcquireStep(FOR_PRIMARY, false), WILLING),
    Event(LeakStep(0), WILLING)
  ]

  lemma LeakLetsNewcomerOvertake(config: Config, build: Build)
    requires Distinct(config.functions)
    ensures PoolRun(config, build, JUMP)
    ensures var s := After(Start(config, build), JUMP);
            && s.pool.open && |s.queue| == 1 && s.queue[0].request == FOR_PRIMARY
            && Overtakes(s.pool, WILLING, FOR_PRIMARY, s.queue[0].request)
            && Next(s, AcquireStep(FOR_PRIMARY, false), WILLING).queue == s.queue
  {
    var s := Start(config, build);
    var p1 := Grant(s.pool.(idlePrimary := None), Opened(0, true, config), false);
    var s1 := s.(pool := p1);
    assert Next(s, JUMP[0].step, WILLING) == s1;
    assert p1.acquired[0].conn.primary;
    var s2 := s1.(queue := [Waiter(0, FOR_PRIMARY)], nextTicket := 1);
    assert Next(s1, JUMP[1].step, WILLING) == s2;
    var s3 := Leak(s2, 0);
    assert s3.pool.acquired == map[];
    RunOfThree(s, JUMP, s1, s2, s3);
  }

  // ---- Within a wake pass ------------------------------------------------------------------------

  /**
    Whatever step of whatever run it is that wakes waiters: one that stays behind a later one that got a
    connection insisted on the primary connection, and the later one got a non-primary connection.
   */
  lemma PassOvertakesOnlyPrimarySeekers(config: Config, build: Build, run: seq<Event>, step: Step, env: Env, i: nat, j: nat)
    requires PoolRun(config, build, run)
    requires var s := After(Start(config, build), run);
             && Enabled(s, step) && PassOf(s, step, env).Some?
             && PassOf(s, step, env).value.pool.open && i < j < |PassOf(s, step, env).value.queue|
    ensures var u := PassOf(After(Start(config, build), run), step, env).value;
            var pass := Wake(u.pool, env, u.queue, FRESH);
            && Next(After(Start(config, build), run), step, env) == WakeAll(u, env)
            && (pass.fates[i].Kept? && pass.fates[j].Served? ==>
                  && u.queue[i].request.wantPrimary
                  && pass.fates[j].id in pass.pool.acquired
                  && !pass.pool.acquired[pass.fates[j].id].conn.primary)
  {
    hide PoolInv, Wake, Legal, After, Apart, PassOf, Enabled, Next, WakeAll, Located, Exclusive, NoneForgotten;
    ReachableInv(config, build, run);
    var s := After(Start(config, build), run);
    StepIsPass(s, step, env);
    PassStart(s, step, env);
    var u := PassOf(s, step, env).value;
    WakeOvertakes(u.pool, env, u.queue, FRESH, i, j);
  }

  /** Where a waiter that is still queued after a pass was before it: in the queue, and the pass left it there. */
  lemma StayedSource(u: State, env: Env, t: Ticket) returns (k: nat)
    requires Queued(WakeAll(u, env).queue, t)
    ensures k < |u.queue| && u.queue[k].ticket == t && Wake(u.pool, env, u.queue, FRESH).fates[k].Kept?
  {
    hide Wake, KeptOf, Settle;
    var pass := Wake(u.pool, env, u.queue, FRESH);
    KeptMembers(u.queue, pass.fates);
    var kept := KeptOf(u.queue, pass.fates);
    var i :| 0 <= i < |kept| && kept[i].ticket == t;
    assert kept[i] in kept;
    k :| 0 <= k < |u.queue| && u.queue[k] == kept[i] && pass.fates[k].Kept?;
  }

  /** The order of two waiters is the same in every queue that has both. */
  lemma OrderIsShared(q: seq<Waiter>, r: seq<Waiter>, i: nat, j: nat, k: nat, m: nat)
    requires Ordered(q) && Ordered(r) && (forall w :: w in r ==> w in q)
    requires i < j < |q| && k < |r| && m < |r|
    requires r[k].ticket == q[i].ticket && r[m].ticket == q[j].ticket
    ensures k < m && r[k] == q[i]
  {
    assert forall a, b :: 0 <= a < b < |q| ==> Before(q[a], q[b]);
    assert forall a, b :: 0 <= a < b < |r| ==> Before(r[a], r[b]);
    assert r[k] in q && r[m] in q;
    var i' :| 0 <= i' < |q| && q[i'] == r[k];
    var j' :| 0 <= j' < |q| && q[j'] == r[m];
    assert i' == i && j' == j;
  }

  /**
    The same in terms of queue and outcomes: over every run and every step, if of two queued requests the later
    one is assigned a connection while the earlier one goes on waiting, then the earlier one insists on the
    primary connection and the later one got a non-primary connection.
   */
  lemma StepOvertakesOnlyPrimarySeekers(config: Config, build: Build, run: seq<Event>, step: Step, env: Env, i: nat, j: nat)
    requires PoolRun(config, build, run)
    requires var s := After(Start(config, build), run); Enabled(s, step) && i < j < |s.queue|
    ensures var s := After(Start(config, build), run);
            var s', u := Next(s, step, env), s.queue[j].ticket;
            Queued(s'.queue, s.queue[i].ticket) && u in s'.outcomes && s'.outcomes[u].Assigned? ==>
              && s.queue[i].request.wantPrimary
              && s'.outcomes[u].id in s'.pool.acquired
              && !s'.pool.acquired[s'.outcomes[u].id].conn.primary
  {
    hide PoolInv, Legal, After, PassOf, Enabled, Next, WakeAll, Wake, Queued, Located, Exclusive, NoneForgotten, Ordered;
    ReachableInv(config, build, run);
    var s := After(Start(config, build), run);
    var s', t, u := Next(s, step, env), s.queue[i].ticket, s.queue[j].ticket;
    StepIsPass(s, step, env);
    if Queued(s'.queue, t) && u in s'.outcomes && s'.outcomes[u].Assigned? {
      assert PassOf(s, step, env).Some?;
      PassStart(s, step, env);
      var b := PassOf(s, step, env).value;
      var k := StayedSource(b, env, t);
      var m := OutcomeSource(b, env, u);
      assert m != -1;
      OrderIsShared(s.queue, b.queue, i, j, k, m);
      StayedIsOpen(b, env, k);
      WakeOvertakes(b.pool, env, b.queue, FRESH, k, m);
      WakeAllPool(b, env);
    }
  }

  lemma StayedIsOpen(u: State, env: Env, k: nat)
    requires k < |u.queue| && Wake(u.pool, env, u.queue, FRESH).fates[k].Kept?
    ensures u.pool.open
  {
    hide Wake;
    if !u.pool.open {
      ClosedDropsAll(u.pool, env, u.queue, FRESH);
    }
  }

  // ---- Such overtaking happens -------------------------------------------------------------------

  /** Every connection is taken; one request waits for the primary, a later one for any; then a non-primary returns. */
  function Crowd(max: int): seq<Event>
    requires max >= 2
  {
    Full(max - 1) + [Event(AcquireStep(FOR_PRIMARY, false), WILLING), Event(AcquireStep(FOR_ANY, false), WILLING)]
  }

  /** In every pool of two or more connections, a release lets a later waiter overtake one that wants the primary. */
  lemma ReleaseOvertakes(config: Config, build: Build)
    requires Distinct(config.functions) && MaxPoolSize(build, config) >= 2
    ensures PoolRun(config, build, Crowd(MaxPoolSize(build, config)))
    ensures var s := After(Start(config, build), Crowd(MaxPoolSize(build, config)));
            var s' := Next(s, ReleaseStep(1), WILLING);
            && Enabled(s, ReleaseStep(1)) && s.pool.open && s.leaks == NO_LEAKS
            && s.queue == [Waiter(0, FOR_PRIMARY), Waiter(1, FOR_ANY)]
            && s'.queue == [Waiter(0, FOR_PRIMARY)] && s'.outcomes == map[1 := Assigned(1)]
  {
    hide Next, Enabled, PrimaryAcquired, Legal, After;
    var s, max := Start(config, build), MaxPoolSize(build, config);
    TakesAll(config, build);
    var t := After(s, Full(max - 1));
    CrowdWaits(t);
    var parked := [Event(AcquireStep(FOR_PRIMARY, false), WILLING), Event(AcquireStep(FOR_ANY, false), WILLING)];
    RunOfTwoParts(s, Full(max - 1), parked);
    CrowdOvertakes(After(t, parked));
  }

  lemma CrowdWaits(s: State)
    requires s.pool.open && s.queue == [] && s.nextTicket == 0 && s.pool.idle == []
    requires s.pool.idlePrimary.None? && PrimaryAcquired(s.pool) && |s.pool.acquired| == s.pool.max
    ensures var run := [Event(AcquireStep(FOR_PRIMARY, false), WILLING), Event(AcquireStep(FOR_ANY, false), WILLING)];
            && Legal(s, run)
            && After(s, run) == s.(queue := [Waiter(0, FOR_PRIMARY), Waiter(1, FOR_ANY)], nextTicket := 2)
  {
    var run := [Event(AcquireStep(FOR_PRIMARY, false), WILLING), Event(AcquireStep(FOR_ANY, false), WILLING)];
    BlockedIffUnavailable(s.pool, WILLING, FOR_PRIMARY);
    BlockedIffUnavailable(s.pool, WILLING, FOR_ANY);
    hide TryServe;
    var s1 := s.(queue := [Waiter(0, FOR_PRIMARY)], nextTicket := 1);
    var s2 := s.(queue := [Waiter(0, FOR_PRIMARY), Waiter(1, FOR_ANY)], nextTicket := 2);
    assert s1.queue[1..] == [] && Insert(s1.queue, Waiter(1, FOR_ANY)) == s2.queue;
    RunOfTwo(s, run, s1, s2);
  }

  lemma CrowdOvertakes(s: State)
    requires s.pool.open && s.pool.idle == [] && s.pool.idlePrimary.None? && s.pool.max >= 2
    requires s.outcomes == map[] && s.queue == [Waiter(0, FOR_PRIMARY), Waiter(1, FOR_ANY)]
    requires 0 in s.pool.acquired && s.pool.acquired[0].conn.primary
    requires 1 in s.pool.acquired && s.pool.acquired[1] == Held(Opened(1, false, s.pool.config), Normal, false)
    ensures var s' := Next(s, ReleaseStep(1), WILLING);
            && Enabled(s, ReleaseStep(1))
            && s'.queue == [Waiter(0, FOR_PRIMARY)] && s'.outcomes == map[1 := Assigned(1)]
  {
    var c := Opened(1, false, s.pool.config);
    var p := s.pool.(acquired := s.pool.acquired - {1}, idle := [c]);
    assert TakeBack(s.pool, 1, WILLING) == p;
    assert 0 in p.acquired && p.acquired[0].conn.primary;
    assert TryServe(p, WILLING, FOR_PRIMARY, FRESH) == Service(p, Unavailable, Flags(true, false));
    var served := TryServe(p, WILLING, FOR_ANY, Flags(true, false));
    assert served.attempt == Got(1);
    hide TryServe;
    assert s.queue[1..] == [Waiter(1, FOR_ANY)];
    assert Wake(served.pool, WILLING, s.queue[1..][1..], served.flags).fates == [];
    assert Wake(p, WILLING, s.queue[1..], Flags(true, false)).fates == [Served(1)];
    var fates := [Kept, Served(1)];
    assert Wake(p, WILLING, s.queue, FRESH).fates == fates;
    assert fates[1..] == [Served(1)] && fates[1..][1..] == [] && s.queue[1..][1..] == [];
    assert KeptOf(s.queue[1..], fates[1..]) == [] by { assert KeptOf(s.queue[1..][1..], fates[1..][1..]) == []; }
    assert KeptOf(s.queue, fates) == [Waiter(0, FOR_PRIMARY)];
    assert Settle(map[], s.queue[1..], fates[1..]) == map[1 := Assigned(1)] by {
      assert Settle(map[1 := Assigned(1)], s.queue[1..][1..], fates[1..][1..]) == map[1 := Assigned(1)];
    }
  }
}
