/** What one wake pass does: who is served, who stays, and why nobody who stays could have been served. */
module PoolWaiting {
  import opened Options
  import opened Sequences
  import opened Configuration
  import opened PoolModel
  import opened PoolInvariants

  // ---- When a request cannot be served -----------------------------------------------------------

  predicate PrimaryTaken(p: Pool) {
    p.idlePrimary.None? && PrimaryAcquired(p)
  }

  predicate NonPrimariesTaken(p: Pool) {
    p.idle == [] && |p.acquired| + Count(p.idlePrimary) >= p.max
  }

  /** No connection that `r` accepts is idle, and none may be opened for it. */
  predicate Blocked(p: Pool, r: Request) {
    PrimaryTaken(p) && (!r.wantPrimary ==> NonPrimariesTaken(p))
  }

  /** Blocked means exactly that an attempt to serve the request comes back empty-handed and changes nothing. */
  lemma BlockedIffUnavailable(p: Pool, env: Env, r: Request)
    ensures Blocked(p, r) <==> TryServe(p, env, r, FRESH).attempt.Unavailable?
    ensures Blocked(p, r) ==> TryServe(p, env, r, FRESH).pool == p
  {
  }

  /** How serving a request may change the pool: nothing acquired is lost and nothing becomes idle. */
  ghost predicate Grows(p: Pool, q: Pool) {
    && SameSettings(p, q)
    && p.nextId <= q.nextId
    && (forall id :: id in p.acquired ==> id in q.acquired && q.acquired[id] == p.acquired[id])
    && (p.idlePrimary.None? ==> q.idlePrimary.None?)
    && (p.idle == [] ==> q.idle == [])
    && |p.acquired| + Count(p.idlePrimary) <= |q.acquired| + Count(q.idlePrimary)
  }

  /** What the flags of a wake pass claim about the pool. */
  predicate Justified(p: Pool, flags: Flags) {
    && (flags.noPrimary ==> PrimaryTaken(p))
    && (flags.noNonPrimary ==> NonPrimariesTaken(p))
  }

  lemma GrowsKeepsJustified(p: Pool, q: Pool, flags: Flags)
    requires Grows(p, q) && Justified(p, flags)
    ensures Justified(q, flags)
  {
    if flags.noPrimary {
      var id :| id in p.acquired && p.acquired[id].conn.primary;
      assert id in q.acquired && q.acquired[id].conn.primary;
    }
  }

  lemma GrowsKeepsBlocked(p: Pool, q: Pool, r: Request)
    requires Grows(p, q) && Blocked(p, r)
    ensures Blocked(q, r)
  {
    GrowsKeepsJustified(p, q, Flags(true, !r.wantPrimary));
  }

  /** Granting `c` grows the pool, from the state `p` before `c` was taken out of the idle ones or numbered. */
  lemma GrantGrows(p: Pool, taken: Pool, c: Conn, readOnly: bool)
    requires SameSettings(p, taken) && p.nextId <= taken.nextId && taken.acquired == p.acquired
    requires taken.idlePrimary == p.idlePrimary || taken.idlePrimary.None?
    requires p.idle == [] ==> taken.idle == []
    requires c.id !in p.acquired
    ensures Grows(p, Grant(taken, c, readOnly))
  {
    assert Grant(taken, c, readOnly).acquired.Keys == p.acquired.Keys + {c.id};
  }

  /** What a successful attempt hands out: a connection that was not acquired before. */
  ghost predicate Handed(p: Pool, q: Pool, a: Attempt, primary: bool) {
    a.Got? ==> a.id !in p.acquired && a.id in q.acquired && q.acquired[a.id].conn.primary == primary
  }

  lemma TryPrimaryGrows(p: Pool, env: Env, readOnly: bool)
    requires Owned(p)
    ensures var t := TryPrimary(p, env, readOnly);
            && Grows(p, t.pool) && Handed(p, t.pool, t.attempt, true)
            && (t.attempt.Unavailable? ==> t.pool == p && PrimaryTaken(p))
  {
    hide Grows;
    GrowsReflexive(p);
    if p.idlePrimary.Some? {
      GrantGrows(p, p.(idlePrimary := None), p.idlePrimary.value, readOnly);
    } else if !PrimaryAcquired(p) {
      OpenGrows(p, env, true, readOnly);
    }
  }

  lemma OpenGrows(p: Pool, env: Env, primary: bool, readOnly: bool)
    requires Owned(p)
    ensures var t := OpenAndGrant(p, env, primary, readOnly);
            Grows(p, t.pool) && Handed(p, t.pool, t.attempt, primary) && !t.attempt.Unavailable?
  {
    GrantGrows(p, p.(nextId := p.nextId + 1), Opened(p.nextId, primary, p.config), readOnly);
  }

  lemma TryNonPrimaryGrows(p: Pool, env: Env, sql: Option<string>, readOnly: bool)
    requires Owned(p)
    ensures var t := TryNonPrimary(p, env, sql, readOnly);
            && Grows(p, t.pool) && Handed(p, t.pool, t.attempt, false)
            && (t.attempt.Unavailable? ==> t.pool == p && NonPrimariesTaken(p))
  {
    hide Grows, Choose, Without;
    GrowsReflexive(p);
    if p.idle != [] {
      var k := Choose(p.idle, env, sql);
      assert IdleAt(p, p.idle[k]);
      GrantGrows(p, p.(idle := Without(p.idle, k)), p.idle[k], readOnly);
    } else if |p.acquired| + Count(p.idlePrimary) < p.max {
      OpenGrows(p, env, false, readOnly);
    }
  }

  /** One service attempt within a wake pass. */
  lemma TryServeFacts(p: Pool, env: Env, r: Request, flags: Flags)
    requires Owned(p) && Justified(p, flags)
    ensures var s := TryServe(p, env, r, flags);
            && Grows(p, s.pool)
            && Justified(s.pool, s.flags)
            && (s.attempt.Unavailable? ==> s.pool == p && Blocked(p, r) && s.flags.noPrimary)
            && (flags.noPrimary ==> s.flags.noPrimary)
            && (flags.noNonPrimary ==> s.flags.noNonPrimary)
            && (s.attempt.Unavailable? && !r.wantPrimary ==> s.flags.noNonPrimary)
            && (s.attempt.Got? ==>
                  && s.attempt.id !in p.acquired && s.attempt.id in s.pool.acquired
                  && (flags.noPrimary ==> !s.pool.acquired[s.attempt.id].conn.primary)
                  && (flags.noNonPrimary ==> s.pool.acquired[s.attempt.id].conn.primary))
  {
    hide Owned, Grows, TryPrimary, TryNonPrimary, PrimaryTaken, NonPrimariesTaken;
    GrowsReflexive(p);
    TryNonPrimaryGrows(p, env, r.sql, r.readOnly);
    TryPrimaryGrows(p, env, r.readOnly);
    var s := TryServe(p, env, r, flags);
    GrowsKeepsJustified(p, s.pool, Flags(flags.noPrimary, s.flags.noNonPrimary));
  }

  // ---- One wake pass -----------------------------------------------------------------------------

  lemma {:induction false} WakeGrows(p: Pool, env: Env, todo: seq<Waiter>, flags: Flags)
    requires PoolInv(p) && Justified(p, flags)
    ensures Grows(p, Wake(p, env, todo, flags).pool)
    decreases todo
  {
    hide PoolInv, Grows, Justified, TryServe;
    GrowsReflexive(p);
    if todo != [] {
      if p.open {
        PoolInvOwned(p);
        TryServeFacts(p, env, todo[0].request, flags);
        TryServeKeepsPoolInv(p, env, todo[0].request, flags);
        var s := TryServe(p, env, todo[0].request, flags);
        WakeGrows(s.pool, env, todo[1..], s.flags);
        GrowsTransitive(p, s.pool, Wake(s.pool, env, todo[1..], s.flags).pool);
      } else {
        WakeGrows(p, env, todo[1..], flags);
      }
    }
  }

  lemma PoolInvOwned(p: Pool)
    requires PoolInv(p)
    ensures Owned(p)
  {
  }

  lemma GrowsReflexive(p: Pool)
    ensures Grows(p, p)
  {
  }

  lemma GrowsTransitive(p: Pool, q: Pool, r: Pool)
    requires Grows(p, q) && Grows(q, r)
    ensures Grows(p, r)
  {
  }

  /** Every waiter that an open pool's wake pass leaves in the queue is blocked when the pass ends. */
  lemma {:induction false} WakeLeavesBlocked(p: Pool, env: Env, todo: seq<Waiter>, flags: Flags, i: nat)
    requires PoolInv(p) && p.open && Justified(p, flags) && i < |todo|
    ensures var pass := Wake(p, env, todo, flags);
            !pass.fates[i].Dropped? && (pass.fates[i].Kept? ==> Blocked(pass.pool, todo[i].request))
    decreases todo
  {
    hide PoolInv, Grows, TryServe, Blocked;
    PoolInvOwned(p);
    TryServeFacts(p, env, todo[0].request, flags);
    TryServeKeepsPoolInv(p, env, todo[0].request, flags);
    var s := TryServe(p, env, todo[0].request, flags);
    if s.attempt.Unavailable? && s.flags == Flags(true, true) {
      FlagsBlockAll(s.pool, todo[i].request);
    } else {
      WakeGrows(s.pool, env, todo[1..], s.flags);
      if i == 0 {
        if s.attempt.Unavailable? {
          GrowsKeepsBlocked(s.pool, Wake(s.pool, env, todo[1..], s.flags).pool, todo[0].request);
        }
      } else {
        assert SameSettings(p, s.pool);
        WakeLeavesBlocked(s.pool, env, todo[1..], s.flags, i - 1);
      }
    }
  }

  lemma FlagsBlockAll(p: Pool, r: Request)
    requires Justified(p, Flags(true, true))
    ensures Blocked(p, r)
  {
  }

  /**
    Who may be overtaken: if a waiter stays while a later one gets a connection in the same pass, then the
    earlier one insists on the primary connection and the later one got a non-primary connection.
   */
  lemma {:induction false} WakeOvertakes(p: Pool, env: Env, todo: seq<Waiter>, flags: Flags, i: nat, j: nat)
    requires PoolInv(p) && p.open && Justified(p, flags) && i < j < |todo|
    ensures var pass := Wake(p, env, todo, flags);
            pass.fates[i].Kept? && pass.fates[j].Served? ==>
              && todo[i].request.wantPrimary
              && pass.fates[j].id in pass.pool.acquired
              && !pass.pool.acquired[pass.fates[j].id].conn.primary
    decreases todo
  {
    hide PoolInv, Grows, TryServe;
    PoolInvOwned(p);
    TryServeFacts(p, env, todo[0].request, flags);
    TryServeKeepsPoolInv(p, env, todo[0].request, flags);
    var s := TryServe(p, env, todo[0].request, flags);
    if !(s.attempt.Unavailable? && s.flags == Flags(true, true)) {
      assert SameSettings(p, s.pool);
      if i > 0 {
        WakeOvertakes(s.pool, env, todo[1..], s.flags, i - 1, j - 1);
      } else if s.attempt.Unavailable? {
        FlagsLimitService(s.pool, env, todo[1..], s.flags, j - 1);
      }
    }
  }

  /** Once the primary connection is known to be taken, the rest of the pass hands out non-primaries only. */
  lemma {:induction false} FlagsLimitService(p: Pool, env: Env, todo: seq<Waiter>, flags: Flags, j: nat)
    requires PoolInv(p) && p.open && Justified(p, flags) && j < |todo| && flags.noPrimary
    ensures var pass := Wake(p, env, todo, flags);
            pass.fates[j].Served? ==>
              && !flags.noNonPrimary
              && pass.fates[j].id in pass.pool.acquired
              && !pass.pool.acquired[pass.fates[j].id].conn.primary
    decreases todo
  {
    hide PoolInv, TryServe;
    PoolInvOwned(p);
    TryServeFacts(p, env, todo[0].request, flags);
    TryServeKeepsPoolInv(p, env, todo[0].request, flags);
    var s := TryServe(p, env, todo[0].request, flags);
    if !(s.attempt.Unavailable? && s.flags == Flags(true, true)) {
      WakeGrows(s.pool, env, todo[1..], s.flags);
      if j > 0 {
        FlagsLimitService(s.pool, env, todo[1..], s.flags, j - 1);
      }
    }
  }

  /** What a pass over an open pool does to the waiter at position `j`, in terms of the first waiter and the rest. */
  lemma WakeUnfolds(p: Pool, env: Env, todo: seq<Waiter>, flags: Flags, j: nat)
    requires p.open && j < |todo|
    ensures var s, pass := TryServe(p, env, todo[0].request, flags), Wake(p, env, todo, flags);
            var rest := Wake(s.pool, env, todo[1..], s.flags);
            if s.attempt.Unavailable? && s.flags == Flags(true, true)
            then pass.pool == s.pool && pass.fates[j].Kept?
            else pass.pool == rest.pool && pass.fates[j] == if j == 0 then FateOf(s.attempt) else rest.fates[j - 1]
  {
    hide TryServe;
  }

  lemma GrowsKeepsAcquired(p: Pool, q: Pool, id: nat)
    requires Grows(p, q) && id in p.acquired
    ensures id in q.acquired && q.acquired[id] == p.acquired[id]
  {
  }

  /** A pass hands out connections that were not acquired before it. */
  lemma {:induction false} WakeHandsOutNew(p: Pool, env: Env, todo: seq<Waiter>, flags: Flags, j: nat)
    requires PoolInv(p) && Justified(p, flags) && j < |todo|
    ensures var pass := Wake(p, env, todo, flags);
            pass.fates[j].Served? ==> pass.fates[j].id !in p.acquired && pass.fates[j].id in pass.pool.acquired
    decreases todo
  {
    hide PoolInv, TryServe, Justified, Wake, Grows;
    if p.open {
      PoolInvOwned(p);
      WakeUnfolds(p, env, todo, flags, j);
      TryServeFacts(p, env, todo[0].request, flags);
      TryServeKeepsPoolInv(p, env, todo[0].request, flags);
      var s := TryServe(p, env, todo[0].request, flags);
      WakeGrows(s.pool, env, todo[1..], s.flags);
      if j > 0 {
        WakeHandsOutNew(s.pool, env, todo[1..], s.flags, j - 1);
        if Wake(p, env, todo, flags).fates[j].Served? && Wake(p, env, todo, flags).fates[j].id in p.acquired {
          GrowsKeepsAcquired(p, s.pool, Wake(p, env, todo, flags).fates[j].id);
        }
      } else if s.attempt.Got? {
        GrowsKeepsAcquired(s.pool, Wake(s.pool, env, todo[1..], s.flags).pool, s.attempt.id);
      }
    } else {
      ClosedDropsAll(p, env, todo, flags);
    }
  }

  /** A pass hands out each connection to one waiter only. */
  lemma {:induction false} WakeHandsOutOnce(p: Pool, env: Env, todo: seq<Waiter>, flags: Flags, i: nat, j: nat)
    requires PoolInv(p) && Justified(p, flags) && i < j < |todo|
    ensures var pass := Wake(p, env, todo, flags);
            pass.fates[i].Served? && pass.fates[j].Served? ==> pass.fates[i].id != pass.fates[j].id
    decreases todo
  {
    hide PoolInv, TryServe, Justified, Grows;
    if p.open {
      PoolInvOwned(p);
      TryServeFacts(p, env, todo[0].request, flags);
      TryServeKeepsPoolInv(p, env, todo[0].request, flags);
      var s := TryServe(p, env, todo[0].request, flags);
      if i > 0 {
        WakeHandsOutOnce(s.pool, env, todo[1..], s.flags, i - 1, j - 1);
      } else {
        WakeHandsOutNew(s.pool, env, todo[1..], s.flags, j - 1);
      }
    } else if i > 0 {
      WakeHandsOutOnce(p, env, todo[1..], flags, i - 1, j - 1);
    }
  }

  lemma {:induction false} ClosedDropsAll(p: Pool, env: Env, todo: seq<Waiter>, flags: Flags)
    requires !p.open
    ensures Wake(p, env, todo, flags).pool == p
    ensures KeptOf(todo, Wake(p, env, todo, flags).fates) == []
    ensures forall i :: 0 <= i < |todo| ==> Wake(p, env, todo, flags).fates[i].Dropped?
    decreases todo
  {
    if todo != [] {
      ClosedDropsAll(p, env, todo[1..], flags);
      var rest := Wake(p, env, todo[1..], flags);
      assert ([Dropped] + rest.fates)[1..] == rest.fates;
    }
  }
}
