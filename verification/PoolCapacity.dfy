/** How many connections a pool can have alive. */
module PoolCapacity {
  import opened Options
  import opened Sequences
  import opened Configuration
  import opened PoolModel
  import opened PoolInvariants
  import opened PoolSteps
  import opened PoolWaiting
  import opened PoolRequests
  import opened PoolPasses
  import opened PoolRuns
  import opened PoolExamples

  function LivePrimaries(acquired: map<nat, Held>): set<nat> {
    set id | id in acquired && LivePrimary(acquired, id)
  }

  /** The connections, idle or acquired, that are not marked for discarding. */
  function LiveConnections(p: Pool): nat {
    NonPrimaryCount(p) + Count(p.idlePrimary) + |LivePrimaries(p.acquired)|
  }

  lemma AtMostOneLivePrimary(p: Pool)
    requires OnePrimary(p)
    ensures Count(p.idlePrimary) + |LivePrimaries(p.acquired)| <= 1
  {
    var live := LivePrimaries(p.acquired);
    if live != {} {
      var a :| a in live;
      assert live == {a};
    }
  }

  /** The general bound: one more than the pool size. */
  lemma AtMostOneOver(config: Config, build: Build, run: seq<Event>)
    requires PoolRun(config, build, run)
    ensures var p := After(Start(config, build), run).pool;
            && |p.idle| <= p.max - 1
            && NonPrimaryCount(p) <= p.max
            && LiveConnections(p) <= p.max + 1
  {
    hide Legal, After, Apart, Located, Exclusive, NoneForgotten, Owned, Fresh, ModeHeld;
    ReachableInv(config, build, run);
    AtMostOneLivePrimary(After(Start(config, build), run).pool);
  }

  // ---- Exactly when the pool size is exceeded -----------------------------------------------------

  /** A primary connection is about to be opened although the non-primary ones alone fill the pool. */
  predicate OpensPrimaryWhenFull(p: Pool, env: Env) {
    p.idlePrimary.None? && !PrimaryAcquired(p) && env.opens(p.nextId) && NonPrimaryCount(p) == p.max
  }

  lemma GrantAddsOne(p: Pool, c: Conn, readOnly: bool)
    requires c.id !in p.acquired
    ensures LiveConnections(Grant(p, c, readOnly)) == LiveConnections(p) + 1
  {
    GrantCounts(p, c, readOnly);
    GrantCountsPrimaries(p, c, readOnly);
    hide Grant, NonPrimaryCount, LivePrimaries;
  }

  lemma GrantCountsPrimaries(p: Pool, c: Conn, readOnly: bool)
    requires c.id !in p.acquired
    ensures |LivePrimaries(Grant(p, c, readOnly).acquired)| == |LivePrimaries(p.acquired)| + (if c.primary then 1 else 0)
    ensures Grant(p, c, readOnly).idlePrimary == p.idlePrimary
  {
    var q := Grant(p, c, readOnly);
    if c.primary {
      assert LivePrimaries(q.acquired) == LivePrimaries(p.acquired) + {c.id};
    } else {
      assert LivePrimaries(q.acquired) == LivePrimaries(p.acquired);
    }
  }

  /** What an attempt at the primary connection does to the number of live connections. */
  lemma TryPrimaryCounts(p: Pool, env: Env, readOnly: bool)
    requires PoolInv(p)
    ensures LiveConnections(TryPrimary(p, env, readOnly).pool)
            == LiveConnections(p) + if p.idlePrimary.None? && !PrimaryAcquired(p) && env.opens(p.nextId) then 1 else 0
    ensures !PrimaryAcquired(p) ==> LivePrimaries(p.acquired) == {}
  {
    if p.idlePrimary.Some? {
      GrantAddsOne(p.(idlePrimary := None), p.idlePrimary.value, readOnly);
    } else {
      GrantAddsOne(p.(nextId := p.nextId + 1), Opened(p.nextId, true, p.config), readOnly);
    }
  }

  /** The guard of the branch that exceeds the pool size, read off before the attempt. */
  lemma TryPrimaryExceedsIff(p: Pool, env: Env, readOnly: bool)
    requires PoolInv(p) && LiveConnections(p) <= p.max
    ensures LiveConnections(TryPrimary(p, env, readOnly).pool) > p.max <==> OpensPrimaryWhenFull(p, env)
  {
    hide Owned, OnePrimary, Fresh, ModeHeld, TryPrimary, PrimaryAcquired;
    TryPrimaryCounts(p, env, readOnly);
  }

  /** Every live connection is one the pool counts when it decides whether it may open another. */
  lemma LiveAreCounted(p: Pool)
    ensures LiveConnections(p) <= |p.idle| + |p.acquired| + Count(p.idlePrimary)
  {
    var live := LiveNonPrimaries(p.acquired) + LivePrimaries(p.acquired);
    assert LiveNonPrimaries(p.acquired) !! LivePrimaries(p.acquired);
    assert live <= p.acquired.Keys;
    SubsetCount(live, p.acquired.Keys);
  }

  /** An attempt at a non-primary connection never exceeds the pool size. */
  lemma TryNonPrimaryStaysWithin(p: Pool, env: Env, sql: Option<string>, readOnly: bool)
    requires PoolInv(p)
    ensures var q := TryNonPrimary(p, env, sql, readOnly).pool;
            LiveConnections(p) <= LiveConnections(q) && (LiveConnections(p) <= p.max ==> LiveConnections(q) <= p.max)
  {
    hide Choose;
    if p.idle != [] {
      var k := Choose(p.idle, env, sql);
      assert IdleAt(p, p.idle[k]);
      GrantAddsOne(p.(idle := Without(p.idle, k)), p.idle[k], readOnly);
    } else {
      LiveAreCounted(p);
      GrantAddsOne(p.(nextId := p.nextId + 1), Opened(p.nextId, false, p.config), readOnly);
    }
  }

  /** Serving `r` comes to the attempt at the primary connection, and that one exceeds the pool size. */
  predicate ServiceOverfills(p: Pool, env: Env, r: Request, flags: Flags) {
    && !flags.noPrimary && (!r.wantPrimary && !flags.noNonPrimary ==> NonPrimariesTaken(p))
    && OpensPrimaryWhenFull(p, env)
  }

  lemma ServiceExceedsIff(p: Pool, env: Env, r: Request, flags: Flags)
    requires PoolInv(p)
    ensures var q := TryServe(p, env, r, flags).pool;
            && LiveConnections(p) <= LiveConnections(q)
            && (LiveConnections(p) <= p.max ==> (LiveConnections(q) > p.max <==> ServiceOverfills(p, env, r, flags)))
  {
    hide PoolInv, LiveConnections, TryPrimary, OpensPrimaryWhenFull;
    NonPrimaryUnavailableIff(p, env, r);
    TryNonPrimaryStaysWithin(p, env, r.sql, r.readOnly);
    TryPrimaryCounts(p, env, r.readOnly);
    if LiveConnections(p) <= p.max {
      TryPrimaryExceedsIff(p, env, r.readOnly);
    }
    hide TryNonPrimary, NonPrimariesTaken;
  }

  lemma NonPrimaryUnavailableIff(p: Pool, env: Env, r: Request)
    ensures TryNonPrimary(p, env, r.sql, r.readOnly).attempt.Unavailable? <==> NonPrimariesTaken(p)
    ensures NonPrimariesTaken(p) ==> TryNonPrimary(p, env, r.sql, r.readOnly).pool == p
  {
  }

  /** Some waiter of the pass is served that way. */
  predicate PassOverfills(p: Pool, env: Env, todo: seq<Waiter>, flags: Flags)
    decreases todo
  {
    && todo != [] && p.open
    && (|| ServiceOverfills(p, env, todo[0].request, flags)
        || var s := TryServe(p, env, todo[0].request, flags);
           PassOverfills(s.pool, env, todo[1..], s.flags))
  }

  lemma {:induction false} PassExceedsIff(p: Pool, env: Env, todo: seq<Waiter>, flags: Flags)
    requires PoolInv(p) && Justified(p, flags)
    ensures var q := Wake(p, env, todo, flags).pool;
            && LiveConnections(p) <= LiveConnections(q)
            && (LiveConnections(p) <= p.max ==> (LiveConnections(q) > p.max <==> PassOverfills(p, env, todo, flags)))
    decreases todo
  {
    hide PoolInv, LiveConnections, TryServe, ServiceOverfills, Justified;
    if todo != [] && !p.open {
      ClosedDropsAll(p, env, todo, flags);
    } else if todo != [] {
      PoolInvOwned(p);
      TryServeFacts(p, env, todo[0].request, flags);
      TryServeKeepsPoolInv(p, env, todo[0].request, flags);
      ServiceExceedsIff(p, env, todo[0].request, flags);
      var s := TryServe(p, env, todo[0].request, flags);
      PassExceedsIff(s.pool, env, todo[1..], s.flags);
      if s.attempt.Unavailable? && s.flags == Flags(true, true) {
        NothingLeftToOverfill(s.pool, env, todo[1..]);
      }
    }
  }

  /** Once both kinds are known to be taken, the rest of the queue would not change anything. */
  lemma {:induction false} NothingLeftToOverfill(p: Pool, env: Env, todo: seq<Waiter>)
    ensures !PassOverfills(p, env, todo, Flags(true, true))
    decreases todo
  {
    hide OpensPrimaryWhenFull, NonPrimariesTaken;
    if todo != [] {
      NothingLeftToOverfill(p, env, todo[1..]);
    }
  }

  /** The step serves a request, at once or in its wake pass, by opening a primary connection in a full pool. */
  predicate StepOverfills(s: State, step: Step, env: Env) {
    match step
    case AcquireStep(r, canceled) => s.pool.open && !canceled && ServiceOverfills(s.pool, env, r, FRESH)
    case _ =>
      var pass := PassOf(s, step, env);
      pass.Some? && PassOverfills(pass.value.pool, env, pass.value.queue, FRESH)
  }

  lemma DropStaysWithin(p: Pool, id: nat)
    ensures LiveConnections(Drop(p, id)) <= LiveConnections(p)
  {
    DropShrinksLive(p, id);
    assert LivePrimaries(Drop(p, id).acquired) == LivePrimaries(p.acquired) - {id};
    SubsetCount(LivePrimaries(Drop(p, id).acquired), LivePrimaries(p.acquired));
  }

  /** A live connection that is dropped is one less. */
  lemma DropCounts(p: Pool, id: nat)
    requires id in p.acquired && !p.acquired[id].status.Discard?
    ensures LiveConnections(Drop(p, id)) == LiveConnections(p) - 1
  {
    var q := Drop(p, id);
    assert LivePrimaries(q.acquired) == LivePrimaries(p.acquired) - {id};
    assert LiveNonPrimaries(q.acquired) == LiveNonPrimaries(p.acquired) - {id};
    if p.acquired[id].conn.primary {
      assert id in LivePrimaries(p.acquired) && id !in LiveNonPrimaries(p.acquired);
    } else {
      assert id !in LivePrimaries(p.acquired) && id in LiveNonPrimaries(p.acquired);
    }
  }

  lemma TakeBackStaysWithin(p: Pool, id: nat, env: Env)
    requires PoolInv(p) && id in p.acquired
    ensures LiveConnections(TakeBack(p, id, env)) <= LiveConnections(p)
  {
    hide PoolInv, LivePrimaries, LiveNonPrimaries;
    DropStaysWithin(p, id);
    if !p.acquired[id].status.Discard? {
      DropCounts(p, id);
    }
  }

  lemma ReconfigureStaysWithin(p: Pool, config: Config, env: Env)
    requires PoolInv(p) && LiveConnections(p) <= p.max
    ensures var q := ReconfigurePool(p, config, env).pool; LiveConnections(q) <= q.max
  {
    hide Fresh, ModeHeld, OnePrimary;
    MarkKeepsLive(p.acquired);
    assert LivePrimaries(Mark(p.acquired, Reconfigure)) == LivePrimaries(p.acquired);
    assert LivePrimaries(Mark(p.acquired, Discard)) == {};
    ReconfigureIdleShape(p.idle, config, env);
  }

  /** What a step does before its wake pass never exceeds the pool size. */
  lemma BeforePassStaysWithin(s: State, step: Step, env: Env)
    requires PoolInv(s.pool) && LiveConnections(s.pool) <= s.pool.max && Enabled(s, step) && !step.AcquireStep?
    ensures var pass := PassOf(s, step, env);
            var p := if pass.Some? then pass.value.pool else Next(s, step, env).pool;
            LiveConnections(p) <= p.max
  {
    hide PoolInv, ReconfigurePool, LiveConnections, ReleaseSkipsWake, WakeAll;
    match step
    case ReleaseStep(id) =>
      if id in s.pool.acquired {
        TakeBackStaysWithin(s.pool, id, env);
        TakeBackKeepsPoolInv(s.pool, id, env);
        hide TakeBack;
      }
    case ReconfigureStep(config) => ReconfigureStaysWithin(s.pool, config, env);
    case CloseStep => CloseStaysWithin(s.pool);
    case LeakStep(id) => DropStaysWithin(s.pool, id);
    case _ =>
  }

  lemma CloseStaysWithin(p: Pool)
    ensures LiveConnections(CloseIdle(p).(open := false)) <= LiveConnections(p)
  {
  }

  /**
    From a state within the pool size, a step exceeds it if and only if it serves somebody by opening a primary
    connection while the non-primary connections fill the pool.
   */
  lemma StepExceedsIff(s: State, step: Step, env: Env)
    requires Inv(s) && Enabled(s, step) && LiveConnections(s.pool) <= s.pool.max
    ensures var q := Next(s, step, env).pool; LiveConnections(q) > q.max <==> StepOverfills(s, step, env)
  {
    hide PoolInv, Apart, Located, Exclusive, NoneForgotten, LiveConnections, TryServe, Wake, PassOf, PassOverfills,
         ServiceOverfills, Enabled;
    if step.AcquireStep? {
      if s.pool.open {
        ServiceExceedsIff(s.pool, env, step.request, FRESH);
        TryServeKeepsPoolInv(s.pool, env, step.request, FRESH);
      }
    } else {
      BeforePassStaysWithin(s, step, env);
      StepIsPass(s, step, env);
      hide Next;
      if PassOf(s, step, env).Some? {
        PassStart(s, step, env);
        var u := PassOf(s, step, env).value;
        PassExceedsIff(u.pool, env, u.queue, FRESH);
        WakeKeepsPoolInv(u.pool, env, u.queue, FRESH);
      }
    }
  }

  /** No step of the run opens a primary connection in a full pool. */
  ghost predicate NeverOverfills(s: State, run: seq<Event>)
    decreases run
  {
    run != [] ==>
      && !StepOverfills(s, run[0].step, run[0].env)
      && NeverOverfills(Next(s, run[0].step, run[0].env), run[1..])
  }

  /** Every state of the run has at most as many live connections as the pool size. */
  ghost predicate WithinThroughout(s: State, run: seq<Event>)
    decreases run
  {
    && LiveConnections(s.pool) <= s.pool.max
    && (run != [] ==> WithinThroughout(Next(s, run[0].step, run[0].env), run[1..]))
  }

  lemma {:induction false} WithinIffNeverOverfills(s: State, run: seq<Event>)
    requires Inv(s) && Legal(s, run) && LiveConnections(s.pool) <= s.pool.max
    ensures WithinThroughout(s, run) <==> NeverOverfills(s, run)
    decreases run
  {
    hide Inv, Enabled, Next, StepOverfills, LiveConnections;
    if run != [] {
      StepExceedsIff(s, run[0].step, run[0].env);
      NextKeepsInv(s, run[0].step, run[0].env);
      if !StepOverfills(s, run[0].step, run[0].env) {
        WithinIffNeverOverfills(Next(s, run[0].step, run[0].env), run[1..]);
      }
    }
  }

  lemma StartIsWithin(config: Config, build: Build)
    ensures LiveConnections(Start(config, build).pool) == 1
  {
    assert LiveNonPrimaries(Start(config, build).pool.acquired) == {};
    assert LivePrimaries(Start(config, build).pool.acquired) == {};
  }

  /**
    The exact condition: the live connections stay within the pool size throughout a run if and only if no step
    opens a primary connection while the non-primary connections fill the pool.
   */
  lemma RunStaysWithinIff(config: Config, build: Build, run: seq<Event>)
    requires PoolRun(config, build, run)
    ensures WithinThroughout(Start(config, build), run) <==> NeverOverfills(Start(config, build), run)
  {
    hide Inv, Legal, WithinThroughout, NeverOverfills, LiveConnections;
    StartHasInv(config, build);
    StartIsWithin(config, build);
    WithinIffNeverOverfills(Start(config, build), run);
  }

  // ---- Runs that never lose the primary connection -----------------------------------------------

  predicate HasPrimary(p: Pool) {
    p.idlePrimary.Some? || exists a :: a in p.acquired && LivePrimary(p.acquired, a)
  }

  /** A live primary connection exists, and it has a place of its own. */
  predicate Tight(p: Pool) {
    p.open ==> HasPrimary(p) && NonPrimaryCount(p) + 1 <= p.max
  }

  /** The step makes the live primary connection leak, or fails to reconfigure or to reopen it. */
  predicate LosesPrimary(p: Pool, step: Step, env: Env) {
    match step
    case LeakStep(id) => LivePrimary(p.acquired, id)
    case ReleaseStep(id) => LivePrimary(p.acquired, id) && Recycle(p.acquired[id], p.config, env).None?
    case ReconfigureStep(config) =>
      if config.openFlags == p.config.openFlags
      then p.idlePrimary.Some? && !env.reconfigures(p.idlePrimary.value.id)
      else WalDiffers(config.openFlags, p.config.openFlags) && p.acquired == map[] && !env.opens(p.nextId)
    case _ => false
  }

  lemma TightBound(p: Pool)
    requires PoolInv(p) && p.open && Tight(p)
    ensures LiveConnections(p) <= p.max
  {
    AtMostOneLivePrimary(p);
  }

  /** With a live primary connection, the pool's own count of open connections covers it as well. */
  lemma CountCoversPrimary(p: Pool)
    requires HasPrimary(p)
    ensures |LiveNonPrimaries(p.acquired)| + 1 <= |p.acquired| + Count(p.idlePrimary)
  {
    LiveAreAcquired(p);
    if p.idlePrimary.None? {
      var a :| a in p.acquired && LivePrimary(p.acquired, a);
      var more := LiveNonPrimaries(p.acquired) + {a};
      assert more <= p.acquired.Keys;
      SubsetCount(more, p.acquired.Keys);
    }
  }

  lemma GrantCounts(p: Pool, c: Conn, readOnly: bool)
    requires c.id !in p.acquired
    ensures NonPrimaryCount(Grant(p, c, readOnly)) == NonPrimaryCount(p) + (if c.primary then 0 else 1)
    ensures HasPrimary(Grant(p, c, readOnly)) <==> HasPrimary(p) || c.primary
  {
    hide HasPrimary;
    var q := Grant(p, c, readOnly);
    assert LiveNonPrimaries(q.acquired) == LiveNonPrimaries(p.acquired) + (if c.primary then {} else {c.id});
    GrantPrimary(p, c, readOnly);
  }

  lemma GrantPrimary(p: Pool, c: Conn, readOnly: bool)
    requires c.id !in p.acquired
    ensures HasPrimary(Grant(p, c, readOnly)) <==> HasPrimary(p) || c.primary
  {
    var q := Grant(p, c, readOnly);
    forall a | a in p.acquired && LivePrimary(p.acquired, a) ensures a in q.acquired && LivePrimary(q.acquired, a) {
    }
    assert c.primary ==> c.id in q.acquired && LivePrimary(q.acquired, c.id);
  }

  lemma TryPrimaryKeepsTight(p: Pool, env: Env, readOnly: bool)
    requires PoolInv(p) && p.open && Tight(p)
    ensures Tight(TryPrimary(p, env, readOnly).pool)
  {
    if p.idlePrimary.Some? {
      GrantCounts(p.(idlePrimary := None), p.idlePrimary.value, readOnly);
    } else {
      assert PrimaryAcquired(p);
    }
  }

  lemma TryNonPrimaryKeepsTight(p: Pool, env: Env, sql: Option<string>, readOnly: bool)
    requires PoolInv(p) && p.open && Tight(p)
    ensures Tight(TryNonPrimary(p, env, sql, readOnly).pool)
  {
    hide Choose;
    if p.idle != [] {
      var k := Choose(p.idle, env, sql);
      assert IdleAt(p, p.idle[k]);
      GrantCounts(p.(idle := Without(p.idle, k)), p.idle[k], readOnly);
    } else if |p.acquired| + Count(p.idlePrimary) < p.max {
      CountCoversPrimary(p);
      GrantCounts(p.(nextId := p.nextId + 1), Opened(p.nextId, false, p.config), readOnly);
    }
  }

  lemma {:induction false} WakeKeepsTight(p: Pool, env: Env, todo: seq<Waiter>, flags: Flags)
    requires PoolInv(p) && Tight(p)
    ensures Tight(Wake(p, env, todo, flags).pool)
    decreases todo
  {
    hide PoolInv, Tight, TryPrimary, TryNonPrimary;
    if todo != [] {
      if p.open {
        TryServeKeepsPoolInv(p, env, todo[0].request, flags);
        TryServeKeepsTight(p, env, todo[0].request, flags);
        var s := TryServe(p, env, todo[0].request, flags);
        WakeKeepsTight(s.pool, env, todo[1..], s.flags);
      } else {
        WakeKeepsTight(p, env, todo[1..], flags);
      }
    }
  }

  lemma TryServeKeepsTight(p: Pool, env: Env, r: Request, flags: Flags)
    requires PoolInv(p) && p.open && Tight(p)
    ensures Tight(TryServe(p, env, r, flags).pool)
  {
    hide PoolInv, Tight, TryPrimary, TryNonPrimary;
    TryNonPrimaryKeepsTight(p, env, r.sql, r.readOnly);
    TryPrimaryKeepsTight(p, env, r.readOnly);
    TryPrimaryKeepsTight(TryNonPrimary(p, env, r.sql, r.readOnly).pool, env, r.readOnly) by {
      TryNonPrimaryKeepsPoolInv(p, env, r.sql, r.readOnly);
      assert TryNonPrimary(p, env, r.sql, r.readOnly).pool.open by { TryNonPrimaryOpen(p, env, r.sql, r.readOnly); }
    }
  }

  lemma TryNonPrimaryOpen(p: Pool, env: Env, sql: Option<string>, readOnly: bool)
    ensures TryNonPrimary(p, env, sql, readOnly).pool.open == p.open
  {
  }

  lemma DropKeepsTight(p: Pool, id: nat)
    requires Tight(p) && !LivePrimary(p.acquired, id)
    ensures Tight(Drop(p, id))
  {
    DropShrinksLive(p, id);
    forall a | a in p.acquired && LivePrimary(p.acquired, a)
      ensures a in Drop(p, id).acquired && LivePrimary(Drop(p, id).acquired, a)
    {
    }
  }

  lemma TakeBackKeepsTight(p: Pool, id: nat, env: Env)
    requires PoolInv(p) && Tight(p) && id in p.acquired && !LosesPrimary(p, ReleaseStep(id), env)
    ensures Tight(TakeBack(p, id, env))
  {
    hide Fresh, ModeHeld;
    var h := p.acquired[id];
    DropShrinksLive(p, id);
    if !LivePrimary(p.acquired, id) {
      DropKeepsTight(p, id);
      if h.status.Discard? || h.conn.primary {
      } else {
        assert id in LiveNonPrimaries(p.acquired);
      }
    }
  }

  lemma ReconfigureKeepsTight(p: Pool, config: Config, env: Env)
    requires PoolInv(p) && Tight(p) && !LosesPrimary(p, ReconfigureStep(config), env)
    ensures Tight(ReconfigurePool(p, config, env).pool)
  {
    hide Fresh, ModeHeld;
    MarkKeepsLive(p.acquired);
    ReconfigureIdleShape(p.idle, config, env);
    forall a | a in p.acquired && LivePrimary(p.acquired, a)
      ensures a in Mark(p.acquired, Reconfigure) && LivePrimary(Mark(p.acquired, Reconfigure), a)
    {
    }
  }

  lemma NextKeepsTight(s: State, step: Step, env: Env)
    requires PoolInv(s.pool) && Tight(s.pool) && Enabled(s, step) && !LosesPrimary(s.pool, step, env)
    ensures Tight(Next(s, step, env).pool)
  {
    hide PoolInv, Tight, TakeBack, ReconfigurePool, TryServe, Wake, LosesPrimary;
    match step
    case AcquireStep(r, canceled) =>
      if s.pool.open {
        TryServeKeepsTight(s.pool, env, r, FRESH);
      }
    case CancelStep(t) =>
      WakeKeepsTight(s.pool, env, Remove(s.queue, t), FRESH);
    case PickUpStep(t) =>
    case ReleaseStep(id) =>
      if id in s.pool.acquired {
        TakeBackKeepsTight(s.pool, id, env);
        TakeBackKeepsPoolInv(s.pool, id, env);
        WakeKeepsTight(TakeBack(s.pool, id, env), env, s.queue, FRESH);
      }
    case ReconfigureStep(config) =>
      ReconfigureKeepsTight(s.pool, config, env);
      ReconfigureKeepsPoolInv(s.pool, config, env);
      WakeKeepsTight(ReconfigurePool(s.pool, config, env).pool, env, s.queue, FRESH);
    case CloseStep =>
      ClosedIsTight(CloseIdle(s.pool).(open := false));
      CloseIdleKeepsPoolInv(s.pool);
      WakeKeepsTight(CloseIdle(s.pool).(open := false), env, s.queue, FRESH);
    case LeakStep(id) =>
      LeakLosesOnlyPrimary(s.pool, id, env);
      DropKeepsTight(s.pool, id);
    case FinalizeStep =>
    case NoticeStep =>
    case RecoverStep =>
      WakeKeepsTight(s.pool, env, s.queue, FRESH);
  }

  lemma ClosedIsTight(p: Pool)
    requires !p.open
    ensures Tight(p)
  {
  }

  lemma LeakLosesOnlyPrimary(p: Pool, id: nat, env: Env)
    requires !LosesPrimary(p, LeakStep(id), env)
    ensures !LivePrimary(p.acquired, id)
  {
  }

  ghost predicate KeepsPrimary(s: State, run: seq<Event>)
    decreases run
  {
    run != [] ==>
      && !LosesPrimary(s.pool, run[0].step, run[0].env)
      && KeepsPrimary(Next(s, run[0].step, run[0].env), run[1..])
  }

  /** A step after which the pool is closed opens nothing. */
  lemma ClosedDoesNotOverfill(s: State, step: Step, env: Env)
    requires Inv(s) && Enabled(s, step) && !Next(s, step, env).pool.open
    ensures !StepOverfills(s, step, env)
  {
    hide PoolInv, Apart, Located, Exclusive, NoneForgotten, TryServe, Wake, PassOf, Enabled, ServiceOverfills;
    if step.AcquireStep? {
      if s.pool.open {
        TryServeKeepsPoolInv(s.pool, env, step.request, FRESH);
      }
    } else {
      StepIsPass(s, step, env);
      hide Next;
      if PassOf(s, step, env).Some? {
        PassStart(s, step, env);
        var u := PassOf(s, step, env).value;
        WakeKeepsPoolInv(u.pool, env, u.queue, FRESH);
      }
    }
  }

  /** A run that never loses its primary connection never opens one in a full pool. */
  lemma {:induction false} KeepingPrimaryNeverOverfills(s: State, run: seq<Event>)
    requires Inv(s) && Tight(s.pool) && LiveConnections(s.pool) <= s.pool.max && Legal(s, run) && KeepsPrimary(s, run)
    ensures NeverOverfills(s, run)
    decreases run
  {
    hide PoolInv, Tight, Enabled, Next, LosesPrimary, Apart, Located, Exclusive, NoneForgotten, StepOverfills, LiveConnections;
    if run != [] {
      var t := Next(s, run[0].step, run[0].env);
      NextKeepsInv(s, run[0].step, run[0].env);
      NextKeepsTight(s, run[0].step, run[0].env);
      StepExceedsIff(s, run[0].step, run[0].env);
      if t.pool.open {
        TightBound(t.pool);
      } else {
        ClosedDoesNotOverfill(s, run[0].step, run[0].env);
      }
      KeepingPrimaryNeverOverfills(t, run[1..]);
    }
  }

  lemma {:induction false} WithinAtEnd(s: State, run: seq<Event>)
    requires WithinThroughout(s, run)
    ensures LiveConnections(After(s, run).pool) <= After(s, run).pool.max
    decreases run
  {
    hide Next, LiveConnections;
    if run != [] {
      WithinAtEnd(Next(s, run[0].step, run[0].env), run[1..]);
    }
  }

  /** A run that never loses its primary connection never has more live connections than the pool size. */
  lemma NeverOverWithoutLoss(config: Config, build: Build, run: seq<Event>)
    requires PoolRun(config, build, run) && KeepsPrimary(Start(config, build), run)
    ensures LiveConnections(After(Start(config, build), run).pool) <= After(Start(config, build), run).pool.max
  {
    hide Inv, Legal, After, KeepsPrimary, LiveConnections, NeverOverfills, WithinThroughout;
    StartHasInv(config, build);
    StartIsWithin(config, build);
    assert LiveNonPrimaries(Start(config, build).pool.acquired) == {};
    KeepingPrimaryNeverOverfills(Start(config, build), run);
    RunStaysWithinIff(config, build, run);
    WithinAtEnd(Start(config, build), run);
  }

  // ---- The general bound is reached ------------------------------------------------------------------

  /** The primary connection leaks, further requests fill the pool, and then one reopens the primary. */
  function Loss(max: nat): seq<Event> {
    [Event(AcquireStep(FOR_PRIMARY, false), WILLING), Event(LeakStep(0), WILLING)] +
    (Filling(max) + [Event(AcquireStep(FOR_PRIMARY, false), WILLING)])
  }

  /** Whatever the pool size is, a leaked primary reopened in a full pool is one connection more. */
  lemma OneOverIsReached(config: Config, build: Build)
    requires Distinct(config.functions)
    ensures PoolRun(config, build, Loss(MaxPoolSize(build, config)))
    ensures var p := After(Start(config, build), Loss(MaxPoolSize(build, config))).pool;
            p.max == MaxPoolSize(build, config) && LiveConnections(p) == p.max + 1
  {
    hide Next, PoolInv, PrimaryAcquired, LiveConnections;
    var s, max := Start(config, build), MaxPoolSize(build, config);
    var take := Event(AcquireStep(FOR_PRIMARY, false), WILLING);
    var lost := [take, Event(LeakStep(0), WILLING)];
    PrimaryIsLost(config, build);
    var s2 := After(s, lost);
    FillsUp(s2, max);
    var s3 := After(s2, Filling(max));
    RunOfOne(s3, take);
    RunOfTwoParts(s2, Filling(max), [take]);
    RunOfTwoParts(s, lost, Filling(max) + [take]);
    ReopeningCounts(s3);
  }

  lemma ReopeningCounts(s: State)
    requires PoolInv(s.pool) && s.pool.open && s.pool.idlePrimary.None? && !PrimaryAcquired(s.pool)
    ensures var q := Next(s, AcquireStep(FOR_PRIMARY, false), WILLING).pool;
            q.max == s.pool.max && LiveConnections(q) == NonPrimaryCount(s.pool) + 1
  {
    TryPrimaryCounts(s.pool, WILLING, false);
    TryServeKeepsPoolInv(s.pool, WILLING, FOR_PRIMARY, FRESH);
    hide PoolInv;
  }

  lemma PrimaryIsLost(config: Config, build: Build)
    requires Distinct(config.functions)
    ensures var lost := [Event(AcquireStep(FOR_PRIMARY, false), WILLING), Event(LeakStep(0), WILLING)];
            var s := Start(config, build);
            var p := After(s, lost).pool;
            && Legal(s, lost) && PoolInv(p) && SameSettings(s.pool, p)
            && p.idlePrimary.None? && p.idle == [] && p.acquired == map[] && !PrimaryAcquired(p)
  {
    var run := [Event(AcquireStep(FOR_PRIMARY, false), WILLING), Event(LeakStep(0), WILLING)];
    var s := Start(config, build);
    var s1 := s.(pool := Grant(s.pool.(idlePrimary := None), Opened(0, true, config), false));
    assert Next(s, run[0].step, WILLING) == s1;
    StartHasInv(config, build);
    NextKeepsPoolInv(s, run[0].step, WILLING);
    var s2 := Leak(s1, 0);
    NextKeepsPoolInv(s1, run[1].step, WILLING);
    assert s2.pool.acquired == map[];
    RunOfTwo(s, run, s1, s2);
  }

  // ---- What the size of the pool is for ----------------------------------------------------------

  /**
    Without a codec, a database in WAL mode serves as many requests at once as the pool size configured for that
    mode, two at least; the last of them leaves nothing idle, and one more request has to wait.
   */
  lemma WalPoolSizeIsReached(config: Config, build: Build)
    requires Distinct(config.functions) && !build.codec && HasWal(config.openFlags)
    ensures var size := if build.walPoolSize >= 2 then build.walPoolSize else 2;
            && PoolRun(config, build, Full(size - 1))
            && var p := After(Start(config, build), Full(size - 1)).pool;
               p.open && |p.acquired| == size && p.idlePrimary.None? && p.idle == [] && Blocked(p, FOR_ANY)
  {
    hide Legal, After, HasWal;
    TakesAll(config, build);
  }

  lemma NextKeepsBuild(s: State, step: Step, env: Env)
    requires Inv(s) && Enabled(s, step)
    ensures Next(s, step, env).pool.build == s.pool.build
  {
    hide PoolInv, Inv, Enabled, Wake, TryServe, Apart;
    StepIsPass(s, step, env);
    if PassOf(s, step, env).Some? {
      PassStart(s, step, env);
      var u := PassOf(s, step, env).value;
      WakeKeepsPoolInv(u.pool, env, u.queue, FRESH);
    } else if step.AcquireStep? {
      InvPool(s);
      if s.pool.open {
        TryServeKeepsPoolInv(s.pool, env, step.request, FRESH);
      }
    }
  }

  lemma InvPool(s: State)
    requires Inv(s)
    ensures PoolInv(s.pool)
  {
  }

  lemma {:induction false} RunKeepsBuild(s: State, run: seq<Event>)
    requires Inv(s) && Legal(s, run)
    ensures After(s, run).pool.build == s.pool.build
    decreases run
  {
    hide Inv, Enabled, Next;
    if run != [] {
      NextKeepsInv(s, run[0].step, run[0].env);
      NextKeepsBuild(s, run[0].step, run[0].env);
      RunKeepsBuild(Next(s, run[0].step, run[0].env), run[1..]);
    }
  }

  /** With a codec, or whenever the database is not in WAL mode, no non-primary connection is idle. */
  lemma SinglePoolKeepsNoOther(config: Config, build: Build, run: seq<Event>)
    requires PoolRun(config, build, run)
    requires build.codec || !HasWal(After(Start(config, build), run).pool.config.openFlags)
    ensures After(Start(config, build), run).pool.idle == []
  {
    hide Legal, After, Owned, OnePrimary, Fresh, ModeHeld, Apart, Located, Exclusive, NoneForgotten, HasWal;
    ReachableInv(config, build, run);
    StartHasInv(config, build);
    RunKeepsBuild(Start(config, build), run);
  }
}
