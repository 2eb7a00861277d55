/** The invariants of the connections a pool owns, and that acquiring keeps them. */
module PoolInvariants {
  import opened Options
  import opened Sequences
  import opened Configuration
  import opened PoolModel

  // ---- The invariants ----------------------------------------------------------------------------

  /** Single ownership: a connection is idle primary, idle in the list at one position, or acquired. */
  ghost predicate Owned(p: Pool) {
    && (forall id :: id in p.acquired ==> id < p.nextId && p.acquired[id].conn.id == id)
    && (p.idlePrimary.Some? ==>
          var c := p.idlePrimary.value; c.primary && c.id < p.nextId && c.id !in p.acquired)
    && (forall i :: 0 <= i < |p.idle| ==> IdleAt(p, p.idle[i]))
    && (forall i, j :: 0 <= i < j < |p.idle| ==> p.idle[i].id != p.idle[j].id)
  }

  ghost predicate IdleAt(p: Pool, c: Conn) {
    && !c.primary && c.id < p.nextId && c.id !in p.acquired
    && (p.idlePrimary.Some? ==> p.idlePrimary.value.id != c.id)
  }

  /** An acquired primary connection that is not marked for discarding. */
  predicate LivePrimary(acquired: map<nat, Held>, id: nat) {
    id in acquired && acquired[id].conn.primary && !acquired[id].status.Discard?
  }

  /** At most one primary connection is not marked for discarding. */
  ghost predicate OnePrimary(p: Pool) {
    && (forall a, b :: LivePrimary(p.acquired, a) && LivePrimary(p.acquired, b) ==> a == b)
    && (p.idlePrimary.Some? ==> forall a :: !LivePrimary(p.acquired, a))
  }

  /** What the status of an acquired connection says about its configuration. */
  predicate FreshHeld(h: Held, config: Config) {
    && h.conn.config.foreignKeys == config.foreignKeys
    && !WalDiffers(h.conn.config.openFlags, config.openFlags)
    && (h.status.Normal? ==> Current(h.conn, config))
    && (h.status.Reconfigure? ==> Outdated(h.conn, config))
  }

  /** Configuration freshness of every connection the pool owns. */
  ghost predicate Fresh(p: Pool) {
    && Distinct(p.config.functions)
    && (p.idlePrimary.Some? ==> Current(p.idlePrimary.value, p.config))
    && (forall i :: 0 <= i < |p.idle| ==> Current(p.idle[i], p.config))
    && (forall id :: id in p.acquired ==> FreshHeld(p.acquired[id], p.config))
  }

  /** Every acquired connection is in the read-only mode of the request it was granted to. */
  ghost predicate ModeHeld(p: Pool) {
    forall id :: id in p.acquired ==> p.acquired[id].conn.readOnly == p.acquired[id].grantedReadOnly
  }

  /** The acquired non-primary connections that are not marked for discarding. */
  function LiveNonPrimaries(acquired: map<nat, Held>): set<nat> {
    set id | id in acquired && !acquired[id].conn.primary && !acquired[id].status.Discard?
  }

  function NonPrimaryCount(p: Pool): nat {
    |p.idle| + |LiveNonPrimaries(p.acquired)|
  }

  /** The capacity bound of an open pool; a closed pool keeps nothing idle. */
  ghost predicate Bounded(p: Pool) {
    && p.max == MaxPoolSize(p.build, p.config)
    && |p.idle| <= p.max - 1
    && NonPrimaryCount(p) <= p.max
    && (!p.open ==> p.idle == [] && p.idlePrimary.None?)
  }

  ghost predicate PoolInv(p: Pool) {
    Owned(p) && OnePrimary(p) && Fresh(p) && ModeHeld(p) && Bounded(p)
  }

  // ---- Granting ----------------------------------------------------------------------------------

  /** A connection the pool may grant: unowned, current, and the only live primary if it is one. */
  ghost predicate Grantable(p: Pool, c: Conn) {
    && c.id < p.nextId && c.id !in p.acquired
    && (p.idlePrimary.Some? ==> p.idlePrimary.value.id != c.id)
    && (forall i :: 0 <= i < |p.idle| ==> p.idle[i].id != c.id)
    && Current(c, p.config)
    && (c.primary ==> p.idlePrimary.None? && forall a :: !LivePrimary(p.acquired, a))
    && (!c.primary ==> NonPrimaryCount(p) < p.max)
  }

  lemma GrantKeepsOwned(p: Pool, c: Conn, readOnly: bool)
    requires Owned(p) && Grantable(p, c)
    ensures Owned(Grant(p, c, readOnly))
  {
  }

  lemma GrantKeepsOnePrimary(p: Pool, c: Conn, readOnly: bool)
    requires OnePrimary(p) && Grantable(p, c)
    ensures OnePrimary(Grant(p, c, readOnly))
  {
    var q := Grant(p, c, readOnly);
    forall a | LivePrimary(q.acquired, a) ensures (a == c.id && c.primary) || LivePrimary(p.acquired, a) {
    }
  }

  lemma GrantKeepsBounded(p: Pool, c: Conn, readOnly: bool)
    requires Bounded(p) && p.open && Grantable(p, c)
    ensures Bounded(Grant(p, c, readOnly))
  {
    var q := Grant(p, c, readOnly);
    if c.primary {
      assert LiveNonPrimaries(q.acquired) == LiveNonPrimaries(p.acquired);
    } else {
      assert LiveNonPrimaries(q.acquired) == LiveNonPrimaries(p.acquired) + {c.id};
    }
  }

  lemma GrantKeepsPoolInv(p: Pool, c: Conn, readOnly: bool)
    requires PoolInv(p) && p.open && Grantable(p, c)
    ensures PoolInv(Grant(p, c, readOnly))
  {
    GrantKeepsOwned(p, c, readOnly);
    GrantKeepsOnePrimary(p, c, readOnly);
    GrantKeepsBounded(p, c, readOnly);
  }

  lemma LiveAreAcquired(p: Pool)
    ensures |LiveNonPrimaries(p.acquired)| <= |p.acquired|
  {
    assert LiveNonPrimaries(p.acquired) <= p.acquired.Keys;
    SubsetCount(LiveNonPrimaries(p.acquired), p.acquired.Keys);
  }

  lemma {:induction false} SubsetCount<T>(a: set<T>, b: set<T>)
    requires a <= b
    ensures |a| <= |b|
  {
    if a != {} {
      var x :| x in a;
      SubsetCount(a - {x}, b - {x});
    }
  }

  lemma NumberingKeepsPoolInv(p: Pool)
    requires PoolInv(p)
    ensures PoolInv(p.(nextId := p.nextId + 1))
  {
  }

  lemma OpenKeepsPoolInv(p: Pool, env: Env, primary: bool, readOnly: bool)
    requires PoolInv(p) && p.open
    requires primary ==> p.idlePrimary.None? && !PrimaryAcquired(p)
    requires !primary ==> NonPrimaryCount(p) < p.max
    ensures PoolInv(OpenAndGrant(p, env, primary, readOnly).pool)
  {
    NewIsGrantable(p, primary);
    hide PoolInv, Grantable;
    NumberingKeepsPoolInv(p);
    if env.opens(p.nextId) {
      GrantKeepsPoolInv(p.(nextId := p.nextId + 1), Opened(p.nextId, primary, p.config), readOnly);
    }
  }

  lemma NewIsGrantable(p: Pool, primary: bool)
    requires Owned(p)
    requires primary ==> p.idlePrimary.None? && !PrimaryAcquired(p)
    requires !primary ==> NonPrimaryCount(p) < p.max
    ensures Grantable(p.(nextId := p.nextId + 1), Opened(p.nextId, primary, p.config))
  {
    assert forall i :: 0 <= i < |p.idle| ==> IdleAt(p, p.idle[i]);
  }

  lemma TryPrimaryKeepsPoolInv(p: Pool, env: Env, readOnly: bool)
    requires PoolInv(p) && p.open
    ensures PoolInv(TryPrimary(p, env, readOnly).pool)
  {
    if p.idlePrimary.Some? {
      var q := p.(idlePrimary := None);
      assert PoolInv(q);
      assert Grantable(q, p.idlePrimary.value);
      GrantKeepsPoolInv(q, p.idlePrimary.value, readOnly);
    } else if !PrimaryAcquired(p) {
      OpenKeepsPoolInv(p, env, true, readOnly);
    }
  }

  lemma WithoutKeepsPoolInv(p: Pool, k: nat)
    requires PoolInv(p) && k < |p.idle|
    ensures PoolInv(p.(idle := Without(p.idle, k)))
    ensures Grantable(p.(idle := Without(p.idle, k)), p.idle[k])
  {
    var q := p.(idle := Without(p.idle, k));
    assert forall i :: 0 <= i < |q.idle| ==> q.idle[i] == p.idle[if i < k then i else i + 1];
  }

  lemma TryNonPrimaryKeepsPoolInv(p: Pool, env: Env, sql: Option<string>, readOnly: bool)
    requires PoolInv(p) && p.open
    ensures PoolInv(TryNonPrimary(p, env, sql, readOnly).pool)
  {
    if p.idle != [] {
      var k := Choose(p.idle, env, sql);
      WithoutKeepsPoolInv(p, k);
      GrantKeepsPoolInv(p.(idle := Without(p.idle, k)), p.idle[k], readOnly);
    } else if |p.acquired| + Count(p.idlePrimary) < p.max {
      LiveAreAcquired(p);
      OpenKeepsPoolInv(p, env, false, readOnly);
    }
  }

  lemma TryServeKeepsPoolInv(p: Pool, env: Env, r: Request, flags: Flags)
    requires PoolInv(p) && p.open
    ensures PoolInv(TryServe(p, env, r, flags).pool)
    ensures SameSettings(p, TryServe(p, env, r, flags).pool)
  {
    hide PoolInv;
    TryNonPrimaryKeepsPoolInv(p, env, r.sql, r.readOnly);
    TryPrimaryKeepsPoolInv(p, env, r.readOnly);
  }

  /** Only the connections change while a request is served. */
  predicate SameSettings(p: Pool, q: Pool) {
    q.open == p.open && q.build == p.build && q.config == p.config && q.max == p.max
  }

  lemma {:induction false} WakeKeepsPoolInv(p: Pool, env: Env, todo: seq<Waiter>, flags: Flags)
    requires PoolInv(p)
    ensures PoolInv(Wake(p, env, todo, flags).pool)
    ensures SameSettings(p, Wake(p, env, todo, flags).pool)
    decreases todo
  {
    hide PoolInv;
    if todo != [] {
      if p.open {
        TryServeKeepsPoolInv(p, env, todo[0].request, flags);
        var s := TryServe(p, env, todo[0].request, flags);
        WakeKeepsPoolInv(s.pool, env, todo[1..], s.flags);
      } else {
        WakeKeepsPoolInv(p, env, todo[1..], flags);
      }
    }
  }
}
