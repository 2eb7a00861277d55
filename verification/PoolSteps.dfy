/** Releasing, reconfiguring, closing and leaking keep the invariants of the pool's connections. */
module PoolSteps {
  import opened Options
  import opened Configuration
  import opened PoolModel
  import opened PoolInvariants

  // ---- Losing an acquired connection -------------------------------------------------------------

  function Drop(p: Pool, id: nat): Pool {
    p.(acquired := p.acquired - {id})
  }

  lemma DropShrinksLive(p: Pool, id: nat)
    ensures LiveNonPrimaries(Drop(p, id).acquired) == LiveNonPrimaries(p.acquired) - {id}
    ensures |LiveNonPrimaries(Drop(p, id).acquired)| <= |LiveNonPrimaries(p.acquired)|
    ensures id in LiveNonPrimaries(p.acquired) ==>
              |LiveNonPrimaries(Drop(p, id).acquired)| == |LiveNonPrimaries(p.acquired)| - 1
  {
    assert LiveNonPrimaries(Drop(p, id).acquired) == LiveNonPrimaries(p.acquired) - {id};
    SubsetCount(LiveNonPrimaries(Drop(p, id).acquired), LiveNonPrimaries(p.acquired));
  }

  lemma DropKeepsPoolInv(p: Pool, id: nat)
    requires PoolInv(p)
    ensures PoolInv(Drop(p, id))
  {
    DropShrinksLive(p, id);
    assert forall a :: LivePrimary(Drop(p, id).acquired, a) ==> LivePrimary(p.acquired, a);
  }

  // ---- Release -----------------------------------------------------------------------------------

  /**
    A recycled connection is current, whatever it went through while it was held; and if it was
    reconfigured on the way, its write-ahead-logging mode was already the right one.
   */
  lemma RecycledIsCurrent(p: Pool, id: nat, env: Env)
    requires Fresh(p) && id in p.acquired
    ensures var r := Recycle(p.acquired[id], p.config, env);
            r.Some? ==> Current(r.value, p.config) && r.value.id == p.acquired[id].conn.id
                        && r.value.primary == p.acquired[id].conn.primary
                        && !p.acquired[id].status.Discard?
    ensures !WalDiffers(p.acquired[id].conn.config.openFlags, p.config.openFlags)
  {
    var h := p.acquired[id];
    assert FreshHeld(h, p.config);
    if h.status.Reconfigure? {
      ReconfigureMakesCurrent(h.conn, p.config);
    }
  }

  /** The assertion in `releaseConnection` never fails: no primary connection is idle when a live one returns. */
  lemma ReturningPrimaryFindsNoneIdle(p: Pool, id: nat)
    requires OnePrimary(p) && LivePrimary(p.acquired, id)
    ensures p.idlePrimary.None?
    ensures forall a :: !LivePrimary(Drop(p, id).acquired, a)
  {
    assert forall a :: LivePrimary(Drop(p, id).acquired, a) ==> LivePrimary(p.acquired, a) && a != id;
  }

  lemma PutBackPrimary(p: Pool, c: Conn)
    requires PoolInv(p) && p.open && p.idlePrimary.None?
    requires forall a :: !LivePrimary(p.acquired, a)
    requires c.primary && c.id < p.nextId && c.id !in p.acquired && Current(c, p.config)
    requires forall i :: 0 <= i < |p.idle| ==> p.idle[i].id != c.id
    ensures PoolInv(p.(idlePrimary := Some(c)))
  {
  }

  lemma PutBackNonPrimary(p: Pool, c: Conn)
    requires PoolInv(p) && p.open && |p.idle| < p.max - 1 && NonPrimaryCount(p) < p.max
    requires !c.primary && c.id < p.nextId && c.id !in p.acquired && Current(c, p.config)
    requires p.idlePrimary.Some? ==> p.idlePrimary.value.id != c.id
    requires forall i :: 0 <= i < |p.idle| ==> p.idle[i].id != c.id
    ensures PoolInv(p.(idle := p.idle + [c]))
  {
    var q := p.(idle := p.idle + [c]);
    assert forall i :: 0 <= i < |q.idle| ==> q.idle[i] == if i < |p.idle| then p.idle[i] else c;
  }

  lemma TakeBackKeepsPoolInv(p: Pool, id: nat, env: Env)
    requires PoolInv(p) && id in p.acquired
    ensures PoolInv(TakeBack(p, id, env))
    ensures SameSettings(p, TakeBack(p, id, env))
  {
    var h := p.acquired[id];
    var q := Drop(p, id);
    DropKeepsPoolInv(p, id);
    DropShrinksLive(p, id);
    RecycledIsCurrent(p, id, env);
    var back := Recycle(h, p.config, env);
    if !ReleaseSkipsWake(q, h) && back.Some? {
      assert h.conn.id == id && id < p.nextId;
      if h.conn.primary {
        assert LivePrimary(p.acquired, id);
        ReturningPrimaryFindsNoneIdle(p, id);
        PutBackPrimary(q, back.value);
      } else {
        assert id in LiveNonPrimaries(p.acquired);
        PutBackNonPrimary(q, back.value);
      }
    }
  }

  // ---- Reconfigure -------------------------------------------------------------------------------

  lemma MarkKeepsLive(acquired: map<nat, Held>)
    ensures LiveNonPrimaries(Mark(acquired, Reconfigure)) == LiveNonPrimaries(acquired)
    ensures forall a :: LivePrimary(Mark(acquired, Reconfigure), a) <==> LivePrimary(acquired, a)
    ensures LiveNonPrimaries(Mark(acquired, Discard)) == {}
    ensures forall a :: !LivePrimary(Mark(acquired, Discard), a)
  {
  }

  /** The idle connections that survive a reconfiguration: each is the reconfigured form of an earlier one. */
  lemma {:induction false} ReconfigureIdleShape(idle: seq<Conn>, config: Config, env: Env)
    requires forall i, j :: 0 <= i < j < |idle| ==> idle[i].id != idle[j].id
    ensures var r := ReconfigureIdle(idle, config, env);
            && |r| <= |idle|
            && (forall i :: 0 <= i < |r| ==> exists k :: 0 <= k < |idle| && r[i] == Reconfigured(idle[k], config))
            && (forall i, j :: 0 <= i < j < |r| ==> r[i].id != r[j].id)
  {
    hide Reconfigured;
    if idle != [] {
      ReconfigureIdleShape(idle[1..], config, env);
      var rest := ReconfigureIdle(idle[1..], config, env);
      var r := ReconfigureIdle(idle, config, env);
      var shift := |r| - |rest|;
      assert forall i :: shift <= i < |r| ==> r[i] == rest[i - shift];
      forall i | 0 <= i < |rest|
        ensures exists k :: 1 <= k < |idle| && rest[i] == Reconfigured(idle[k], config)
        ensures rest[i].id != idle[0].id
      {
        var k :| 0 <= k < |idle[1..]| && rest[i] == Reconfigured(idle[1..][k], config);
        assert rest[i] == Reconfigured(idle[k + 1], config);
        ReconfiguredId(idle[k + 1], config);
      }
      ReconfiguredId(idle[0], config);
    }
  }

  lemma ReconfiguredId(c: Conn, config: Config)
    ensures Reconfigured(c, config).id == c.id
  {
  }

  /** A current connection becomes current again under any extension of its configuration. */
  lemma CurrentReconfigures(c: Conn, was: Config, config: Config)
    requires Current(c, was) && Extends(config, was) && config.openFlags == was.openFlags
    ensures Current(Reconfigured(c, config), config)
  {
    assert Outdated(c, config);
    ReconfigureMakesCurrent(c, config);
  }

  lemma InPlaceKeepsFresh(p: Pool, config: Config, env: Env)
    requires PoolInv(p) && Extends(config, p.config) && config.openFlags == p.config.openFlags
    requires p.acquired != map[] ==> config.foreignKeys == p.config.foreignKeys
    ensures Fresh(ReconfigureInPlace(p, config, env))
  {
    var q := ReconfigureInPlace(p, config, env);
    ReconfigureIdleShape(p.idle, config, env);
    if q.idlePrimary.Some? {
      CurrentReconfigures(p.idlePrimary.value, p.config, config);
    }
    forall i | 0 <= i < |q.idle| ensures Current(q.idle[i], config) {
      var k :| 0 <= k < |p.idle| && q.idle[i] == Reconfigured(p.idle[k], config);
      CurrentReconfigures(p.idle[k], p.config, config);
    }
    forall id | id in q.acquired ensures FreshHeld(q.acquired[id], config) {
      assert FreshHeld(p.acquired[id], p.config);
    }
  }

  lemma InPlaceKeepsOwned(p: Pool, config: Config, env: Env)
    requires PoolInv(p) && config.openFlags == p.config.openFlags
    ensures Owned(ReconfigureInPlace(p, config, env))
  {
    var q := ReconfigureInPlace(p, config, env);
    ReconfigureIdleShape(p.idle, config, env);
    forall i | 0 <= i < |q.idle| ensures IdleAt(q, q.idle[i]) {
      var k :| 0 <= k < |p.idle| && q.idle[i] == Reconfigured(p.idle[k], config);
      assert IdleAt(p, p.idle[k]);
    }
  }

  lemma InPlaceKeepsPoolInv(p: Pool, config: Config, env: Env)
    requires PoolInv(p) && p.open && Extends(config, p.config) && config.openFlags == p.config.openFlags
    requires p.acquired != map[] ==> config.foreignKeys == p.config.foreignKeys
    ensures PoolInv(ReconfigureInPlace(p, config, env))
  {
    InPlaceKeepsFresh(p, config, env);
    InPlaceKeepsOwned(p, config, env);
    MarkKeepsLive(p.acquired);
    ReconfigureIdleShape(p.idle, config, env);
  }

  lemma ReopenKeepsPoolInv(p: Pool, config: Config)
    requires PoolInv(p) && p.open && Extends(config, p.config)
    requires p.acquired != map[] ==>
               config.foreignKeys == p.config.foreignKeys && !WalDiffers(config.openFlags, p.config.openFlags)
    ensures PoolInv(Reopen(p, config))
  {
    MarkKeepsLive(p.acquired);
    forall id | id in p.acquired ensures FreshHeld(Mark(p.acquired, Discard)[id], config) {
      assert FreshHeld(p.acquired[id], p.config);
    }
  }

  lemma CloseIdleKeepsPoolInv(p: Pool)
    requires PoolInv(p)
    ensures PoolInv(CloseIdle(p))
    ensures PoolInv(CloseIdle(p).(open := false))
  {
  }

  lemma ReconfigureKeepsPoolInv(p: Pool, config: Config, env: Env)
    requires PoolInv(p) && Extends(config, p.config)
    ensures PoolInv(ReconfigurePool(p, config, env).pool)
    ensures ReconfigurePool(p, config, env).pool.open == p.open
  {
    hide PoolInv;
    var walChanged := WalDiffers(config.openFlags, p.config.openFlags);
    if !p.open || (p.acquired != map[] && (walChanged || config.foreignKeys != p.config.foreignKeys)) {
    } else if config.openFlags == p.config.openFlags {
      InPlaceKeepsPoolInv(p, config, env);
    } else if env.opens(p.nextId) {
      ReopenKeepsPoolInv(p, config);
    } else if walChanged {
      CloseIdleKeepsPoolInv(p);
      NumberingKeepsPoolInv(CloseIdle(p));
    } else {
      NumberingKeepsPoolInv(p);
    }
  }

  /**
    A reconfiguration in place never changes a connection's write-ahead-logging mode: the pool takes that
    branch only for equal open flags, and every idle connection carries the pool's flags.
   */
  lemma InPlaceSwitchesNoWal(p: Pool, config: Config)
    requires PoolInv(p) && config.openFlags == p.config.openFlags
    ensures p.idlePrimary.Some? ==> !WalDiffers(config.openFlags, p.idlePrimary.value.config.openFlags)
    ensures forall i :: 0 <= i < |p.idle| ==> !WalDiffers(config.openFlags, p.idle[i].config.openFlags)
  {
  }

  /** Every step keeps the pool invariants. */
  lemma NextKeepsPoolInv(s: State, step: Step, env: Env)
    requires PoolInv(s.pool) && Enabled(s, step)
    ensures PoolInv(Next(s, step, env).pool)
  {
    hide PoolInv;
    match step
    case AcquireStep(r, canceled) =>
      if s.pool.open {
        TryServeKeepsPoolInv(s.pool, env, r, FRESH);
      }
    case CancelStep(t) =>
      WakeKeepsPoolInv(s.pool, env, Remove(s.queue, t), FRESH);
    case PickUpStep(t) =>
    case ReleaseStep(id) =>
      if id in s.pool.acquired {
        TakeBackKeepsPoolInv(s.pool, id, env);
        WakeKeepsPoolInv(TakeBack(s.pool, id, env), env, s.queue, FRESH);
      }
    case ReconfigureStep(config) =>
      ReconfigureKeepsPoolInv(s.pool, config, env);
      WakeKeepsPoolInv(ReconfigurePool(s.pool, config, env).pool, env, s.queue, FRESH);
    case CloseStep =>
      CloseIdleKeepsPoolInv(s.pool);
      WakeKeepsPoolInv(CloseIdle(s.pool).(open := false), env, s.queue, FRESH);
    case LeakStep(id) =>
      DropKeepsPoolInv(s.pool, id);
    case FinalizeStep =>
    case NoticeStep =>
    case RecoverStep =>
      WakeKeepsPoolInv(s.pool, env, s.queue, FRESH);
  }
}
