/** What holds in every reachable state of the connection pool, over every run and every environment. */
module PoolRuns {
  import opened Configuration
  import opened PoolModel
  import opened PoolInvariants
  import opened PoolSteps
  import opened PoolWaiting
  import opened PoolQueue
  import opened PoolRequests

  datatype Event = Event(step: Step, env: Env)

  ghost predicate Legal(s: State, run: seq<Event>)
    decreases run
  {
    run != [] ==> Enabled(s, run[0].step) && Legal(Next(s, run[0].step, run[0].env), run[1..])
  }

  function After(s: State, run: seq<Event>): State
    decreases run
  {
    if run == [] then s else After(Next(s, run[0].step, run[0].env), run[1..])
  }

  /** A run of a pool from the moment it has been opened. */
  ghost predicate PoolRun(config: Config, build: Build, run: seq<Event>) {
    Distinct(config.functions) && Legal(Start(config, build), run)
  }

  // ---- The invariant -----------------------------------------------------------------------------

  lemma StartHasInv(config: Config, build: Build)
    requires Distinct(config.functions)
    ensures Inv(Start(config, build))
  {
    var p := Start(config, build).pool;
    assert LiveNonPrimaries(p.acquired) == {};
    assert PoolInv(p);
  }

  lemma {:induction false} RunKeepsInv(s: State, run: seq<Event>)
    requires Inv(s) && Legal(s, run)
    ensures Inv(After(s, run))
    decreases run
  {
    hide Inv, Enabled, Next;
    if run != [] {
      NextKeepsInv(s, run[0].step, run[0].env);
      RunKeepsInv(Next(s, run[0].step, run[0].env), run[1..]);
    }
  }

  lemma ReachableInv(config: Config, build: Build, run: seq<Event>)
    requires PoolRun(config, build, run)
    ensures Inv(After(Start(config, build), run))
  {
    hide Inv;
    StartHasInv(config, build);
    RunKeepsInv(Start(config, build), run);
  }

  // ---- No lost wake-up ---------------------------------------------------------------------------

  /**
    In every reachable state of an open pool with no leak under way, no environment lets any queued request
    be served: serving it would find nothing and change nothing.
   */
  lemma NoLostWakeUp(config: Config, build: Build, run: seq<Event>, i: nat, env: Env)
    requires PoolRun(config, build, run)
    requires var s := After(Start(config, build), run); s.pool.open && s.leaks == NO_LEAKS && i < |s.queue|
    ensures var s := After(Start(config, build), run);
            var r := s.queue[i].request;
            && PrimaryAcquired(s.pool) && s.pool.idlePrimary.None?
            && (!r.wantPrimary ==> s.pool.idle == [] && |s.pool.acquired| >= s.pool.max)
            && TryServe(s.pool, env, r, FRESH).attempt.Unavailable?
            && TryServe(s.pool, env, r, FRESH).pool == s.pool
  {
    hide PoolInv, TryServe, Legal, After, Apart, Located, Exclusive;
    ReachableInv(config, build, run);
    var s := After(Start(config, build), run);
    assert Blocked(s.pool, s.queue[i].request);
    BlockedIffUnavailable(s.pool, env, s.queue[i].request);
  }

  /**
    In every reachable state interactive requests are queued before background ones, and requests of the same
    kind in the order in which they were parked.
   */
  lemma InteractiveFirst(config: Config, build: Build, run: seq<Event>, i: nat, j: nat)
    requires PoolRun(config, build, run)
    requires i < j < |After(Start(config, build), run).queue|
    ensures var q := After(Start(config, build), run).queue;
            && (q[j].request.interactive ==> q[i].request.interactive)
            && (q[i].request.interactive == q[j].request.interactive ==> q[i].ticket < q[j].ticket)
  {
    hide PoolInv, Legal, After, Located, Exclusive, NoneForgotten;
    ReachableInv(config, build, run);
    var q := After(Start(config, build), run).queue;
    assert Before(q[i], q[j]);
  }

  // ---- Cancellation and answers ------------------------------------------------------------------

  /**
    While the pool is open, a parked request has exactly one of three places: an answer, an outcome not yet
    picked up, or one position of the queue. So the search for a waiter to cancel always finds it.
   */
  lemma RequestHasOnePlace(config: Config, build: Build, run: seq<Event>, t: Ticket)
    requires PoolRun(config, build, run)
    requires var s := After(Start(config, build), run); s.pool.open && t < s.nextTicket
    ensures var s := After(Start(config, build), run);
            && (t in s.delivered ==> t !in s.outcomes && !Queued(s.queue, t))
            && (t in s.outcomes ==> !Queued(s.queue, t))
            && (t in s.delivered || t in s.outcomes || Queued(s.queue, t))
            && (forall i, j :: 0 <= i < j < |s.queue| ==> s.queue[i].ticket != s.queue[j].ticket)
  {
    hide PoolInv, Legal, After, Exclusive, NoneForgotten;
    ReachableInv(config, build, run);
    var s := After(Start(config, build), run);
    assert forall i, j :: 0 <= i < j < |s.queue| ==> Before(s.queue[i], s.queue[j]);
    assert t !in s.delivered ==> Pending(s, t);
  }

  /** An answer, once given, is never withdrawn or replaced. */
  lemma {:induction false} AnswersAreFinal(s: State, run: seq<Event>, t: Ticket)
    requires Legal(s, run) && t in s.delivered
    ensures t in After(s, run).delivered && After(s, run).delivered[t] == s.delivered[t]
    decreases run
  {
    hide Wake;
    if run != [] {
      AnswersAreFinal(Next(s, run[0].step, run[0].env), run[1..], t);
    }
  }

  /** A connection in flight to one request is acquired and in flight to no other. */
  lemma AssignmentIsExclusive(config: Config, build: Build, run: seq<Event>, t: Ticket, u: Ticket)
    requires PoolRun(config, build, run)
    requires var s := After(Start(config, build), run);
             t in s.outcomes && s.outcomes[t].Assigned? && u in s.outcomes
    ensures var s := After(Start(config, build), run);
            s.outcomes[t].id in s.pool.acquired && (s.outcomes[u] == s.outcomes[t] ==> t == u)
  {
    hide PoolInv, Legal, After, Apart, Located, NoneForgotten;
    ReachableInv(config, build, run);
  }

  // ---- Ownership, freshness, mode ----------------------------------------------------------------

  /**
    A primary connection that returns and is kept always finds the idle-primary slot empty, so the assertion
    in `releaseConnection` holds in every reachable state.
   */
  lemma IdlePrimarySlotIsFree(config: Config, build: Build, run: seq<Event>, id: nat, env: Env)
    requires PoolRun(config, build, run)
    requires var p := After(Start(config, build), run).pool;
             && p.open && id in p.acquired && p.acquired[id].conn.primary
             && Recycle(p.acquired[id], p.config, env).Some?
    ensures After(Start(config, build), run).pool.idlePrimary.None?
  {
    hide Legal, After, Apart, Located, Exclusive, NoneForgotten, Owned, Fresh, ModeHeld, Bounded;
    ReachableInv(config, build, run);
    var p := After(Start(config, build), run).pool;
    assert LivePrimary(p.acquired, id);
  }

  /**
    Whenever the pool reconfigures a connection that came back, the connection already has the pool's open
    flags and foreign-key mode, so neither the WAL nor the foreign-key switch of `reconfigure` is reached;
    and what goes back into the pool carries the pool's configuration with each function registered once.
   */
  lemma ReleaseReconfiguresSafely(config: Config, build: Build, run: seq<Event>, id: nat, env: Env)
    requires PoolRun(config, build, run)
    requires var p := After(Start(config, build), run).pool; p.open && id in p.acquired
    ensures var p := After(Start(config, build), run).pool;
            var h := p.acquired[id];
            && (h.status.Reconfigure? ==> h.conn.config.openFlags == p.config.openFlags)
            && !WalDiffers(p.config.openFlags, h.conn.config.openFlags)
            && h.conn.config.foreignKeys == p.config.foreignKeys
            && (Recycle(h, p.config, env).Some? ==> Current(Recycle(h, p.config, env).value, p.config))
  {
    hide Legal, After, Apart, Located, Exclusive, NoneForgotten, Owned, OnePrimary, ModeHeld, Bounded;
    ReachableInv(config, build, run);
    var p := After(Start(config, build), run).pool;
    assert FreshHeld(p.acquired[id], p.config);
    RecycledIsCurrent(p, id, env);
  }

  function Rank(s: Status): nat {
    match s case Normal => 0 case Reconfigure => 1 case Discard => 2
  }

  /** A held connection as its holder sees it: the connection is the same, its status can only rise. */
  ghost predicate StillHeld(p: Pool, q: Pool, id: nat) {
    && id in p.acquired && id in q.acquired
    && q.acquired[id].conn == p.acquired[id].conn
    && q.acquired[id].grantedReadOnly == p.acquired[id].grantedReadOnly
    && Rank(p.acquired[id].status) <= Rank(q.acquired[id].status)
  }

  lemma WakeAllKeepsHeld(s: State, env: Env, id: nat)
    requires PoolInv(s.pool) && id in s.pool.acquired
    ensures StillHeld(s.pool, WakeAll(s, env).pool, id)
  {
    hide PoolInv, Wake;
    WakeGrows(s.pool, env, s.queue, FRESH);
  }

  lemma ReconfigureKeepsHeld(p: Pool, config: Config, env: Env, id: nat)
    requires id in p.acquired
    ensures StillHeld(p, ReconfigurePool(p, config, env).pool, id)
  {
  }

  /** No step other than its own release or leak touches a held connection. */
  lemma NextKeepsHeld(s: State, step: Step, env: Env, id: nat)
    requires Inv(s) && Enabled(s, step) && id in s.pool.acquired
    requires step != ReleaseStep(id) && step != LeakStep(id)
    ensures StillHeld(s.pool, Next(s, step, env).pool, id)
  {
    hide PoolInv, WakeAll, Wake, TryServe, ReconfigurePool, Apart, Located, Exclusive, NoneForgotten;
    match step
    case AcquireStep(r, canceled) =>
      PoolInvOwned(s.pool);
      TryServeFacts(s.pool, env, r, FRESH);
    case CancelStep(t) =>
      WakeAllKeepsHeld(Unlinked(s, t), env, id);
    case PickUpStep(t) =>
    case ReleaseStep(other) =>
      if other in s.pool.acquired {
        TakeBackKeepsPoolInv(s.pool, other, env);
        WakeAllKeepsHeld(s.(pool := TakeBack(s.pool, other, env)), env, id);
      }
    case ReconfigureStep(config) =>
      ReconfigureKeepsPoolInv(s.pool, config, env);
      ReconfigureKeepsHeld(s.pool, config, env, id);
      WakeAllKeepsHeld(s.(pool := ReconfigurePool(s.pool, config, env).pool), env, id);
    case CloseStep =>
      CloseIdleKeepsPoolInv(s.pool);
      WakeAllKeepsHeld(s.(pool := CloseIdle(s.pool).(open := false)), env, id);
    case LeakStep(other) =>
    case FinalizeStep =>
    case NoticeStep =>
    case RecoverStep =>
      WakeAllKeepsHeld(s.(leaks := s.leaks.(recovering := s.leaks.recovering - (if s.leaks.recovering > 0 then 1 else 0))), env, id);
  }

  /**
    From grant to release, whatever else the run does, the holder's connection is not touched: its read-only
    mode and its configuration stay what they were, and a DISCARD mark is never taken back.
   */
  lemma {:induction false} HeldConnectionIsStable(s: State, run: seq<Event>, id: nat)
    requires Inv(s) && Legal(s, run) && id in s.pool.acquired
    requires forall e :: e in run ==> e.step != ReleaseStep(id) && e.step != LeakStep(id)
    ensures StillHeld(s.pool, After(s, run).pool, id)
    ensures After(s, run).pool.acquired[id].conn.readOnly == s.pool.acquired[id].grantedReadOnly
    decreases run
  {
    hide Enabled, Next, Owned, OnePrimary, Fresh, Bounded, Apart, Located, Exclusive, NoneForgotten;
    if run != [] {
      assert run[0] in run;
      NextKeepsInv(s, run[0].step, run[0].env);
      NextKeepsHeld(s, run[0].step, run[0].env, id);
      HeldConnectionIsStable(Next(s, run[0].step, run[0].env), run[1..], id);
    }
  }

  /** A request that gets a connection gets it in its own mode. */
  lemma ServiceSetsMode(p: Pool, env: Env, r: Request, flags: Flags)
    ensures var s := TryServe(p, env, r, flags);
            s.attempt.Got? ==>
              s.attempt.id in s.pool.acquired && s.pool.acquired[s.attempt.id].grantedReadOnly == r.readOnly
  {
  }

  /** A request that insists on the primary connection gets no other. */
  lemma ServiceSetsKind(p: Pool, env: Env, r: Request, flags: Flags)
    requires Owned(p)
    ensures var s := TryServe(p, env, r, flags);
            s.attempt.Got? && r.wantPrimary ==>
              s.attempt.id in s.pool.acquired && s.pool.acquired[s.attempt.id].conn.primary
  {
    hide TryNonPrimary;
  }

  /** So does a waiter that a wake pass serves; and it gets the primary connection if it insists on it. */
  lemma {:induction false} WakeSetsMode(p: Pool, env: Env, todo: seq<Waiter>, flags: Flags, j: nat)
    requires PoolInv(p) && Justified(p, flags) && j < |todo|
    ensures var pass := Wake(p, env, todo, flags);
            pass.fates[j].Served? ==>
              && pass.fates[j].id in pass.pool.acquired
              && pass.pool.acquired[pass.fates[j].id].grantedReadOnly == todo[j].request.readOnly
              && (todo[j].request.wantPrimary ==> pass.pool.acquired[pass.fates[j].id].conn.primary)
    decreases todo
  {
    hide PoolInv, Owned, TryServe, Justified, Wake, Grows;
    if p.open {
      PoolInvOwned(p);
      WakeUnfolds(p, env, todo, flags, j);
      ServiceSetsMode(p, env, todo[0].request, flags);
      ServiceSetsKind(p, env, todo[0].request, flags);
      TryServeFacts(p, env, todo[0].request, flags);
      TryServeKeepsPoolInv(p, env, todo[0].request, flags);
      var s := TryServe(p, env, todo[0].request, flags);
      WakeGrows(s.pool, env, todo[1..], s.flags);
      if j > 0 {
        WakeSetsMode(s.pool, env, todo[1..], s.flags, j - 1);
      } else if s.attempt.Got? {
        GrowsKeepsAcquired(s.pool, Wake(s.pool, env, todo[1..], s.flags).pool, s.attempt.id);
      }
    } else {
      ClosedDropsAll(p, env, todo, flags);
    }
  }

  // ---- After closing -----------------------------------------------------------------------------

  /** A closed pool keeps nothing idle and nobody queued, and a connection that comes back is not kept. */
  lemma ClosedPoolIsEmpty(config: Config, build: Build, run: seq<Event>, id: nat, env: Env)
    requires PoolRun(config, build, run)
    requires !After(Start(config, build), run).pool.open
    ensures var s := After(Start(config, build), run);
            && s.pool.idlePrimary.None? && s.pool.idle == [] && s.queue == []
            && (id in s.pool.acquired ==>
                  Release(s, id, env) == s.(pool := s.pool.(acquired := s.pool.acquired - {id})))
  {
    hide Legal, After, Apart, Exclusive, NoneForgotten, Owned, OnePrimary, Fresh, ModeHeld;
    ReachableInv(config, build, run);
  }
}
