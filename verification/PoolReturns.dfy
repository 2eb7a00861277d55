/** What becomes of every connection when one is returned, when the pool is reconfigured, and after it is closed. */
module PoolReturns {
  import opened Options
  import opened Sequences
  import opened Configuration
  import opened PoolModel
  import opened PoolInvariants
  import opened PoolSteps
  import opened PoolWaiting
  import opened PoolRequests
  import opened PoolRuns
  import opened PoolServices

  // ---- Returning a connection --------------------------------------------------------------------

  /** The pool keeps `h` when it returns: it may be used again, and the primary or there is room for it. */
  predicate IsKept(p: Pool, h: Held, env: Env) {
    && p.open && !h.status.Discard? && (h.status.Reconfigure? ==> env.reconfigures(h.conn.id))
    && (h.conn.primary || |p.idle| < p.max - 1)
  }

  /** `c` has joined the idle connections: in the empty place of the primary, or at the end of the others. */
  predicate Joins(p: Pool, q: Pool, c: Conn) {
    if c.primary then p.idlePrimary.None? && q.idlePrimary == Some(c) && q.idle == p.idle
    else q.idlePrimary == p.idlePrimary && q.idle == p.idle + [c]
  }

  /** `c` is what the held connection `h` comes back as: itself, brought up to date if it was marked for that. */
  predicate ComesBackAs(h: Held, config: Config, c: Conn) {
    && c.id == h.conn.id && c.primary == h.conn.primary && Current(c, config)
    && (h.status.Normal? ==> c == h.conn)
  }

  /**
    A returned connection, primary or not, is no longer acquired; it is idle afterwards exactly if it is kept,
    and otherwise closed. Every other connection stays where it is.
   */
  lemma ReturnedIsKeptIff(p: Pool, id: nat, env: Env)
    requires PoolInv(p) && id in p.acquired
    ensures var q, h := TakeBack(p, id, env), p.acquired[id];
            && q.acquired == p.acquired - {id} && SameSettings(p, q) && q.nextId == p.nextId
            && (IsKept(p, h, env) ==> exists c :: ComesBackAs(h, p.config, c) && Joins(p, q, c))
            && (!IsKept(p, h, env) ==> q.idlePrimary == p.idlePrimary && q.idle == p.idle)
  {
    var q, h := TakeBack(p, id, env), p.acquired[id];
    if IsKept(p, h, env) {
      RecycledIsCurrent(p, id, env);
      var c := Recycle(h, p.config, env).value;
      if c.primary {
        ReturningPrimaryFindsNoneIdle(p, id);
      }
      assert ComesBackAs(h, p.config, c) && Joins(p, q, c);
    }
  }

  /** Nobody is woken by a return exactly when the pool is closed or the connection was one too many. */
  lemma ReturnWakesIff(s: State, id: nat, env: Env)
    requires id in s.pool.acquired
    ensures var t := s.(pool := TakeBack(s.pool, id, env));
            Release(s, id, env)
            == if s.pool.open && (s.pool.acquired[id].conn.primary || |s.pool.idle| < s.pool.max - 1)
               then WakeAll(t, env) else t
  {
    hide WakeAll, TakeBack;
  }

  // ---- Acquiring and returning -------------------------------------------------------------------

  /**
    The round trip: a request served from the idle connections that returns what it got leaves the pool as it
    was, except that the connection keeps the mode of that request, and is the last one if it is not the primary.
   */
  lemma ServeThenReturn(p: Pool, env: Env, r: Request, later: Env)
    requires PoolInv(p) && p.open && !Blocked(p, r) && !NeedsOpening(p, r)
    ensures var s := TryServe(p, env, r, FRESH);
            && s.attempt.Got? && s.attempt.id in s.pool.acquired
            && var back := TakeBack(s.pool, s.attempt.id, later);
               && back.acquired == p.acquired && back.nextId == p.nextId && SameSettings(p, back)
               && exists c :: BackAgain(p, back, env, r, c)
  {
    hide PoolInv, Hands, Blocked, TryServe, TakeBack;
    PoolInvOwned(p);
    ServiceIs(p, env, r);
    var s := TryServe(p, env, r, FRESH);
    var c: Conn :| c.id == s.attempt.id && Hands(p, s.pool, env, r, c);
    TryServeKeepsPoolInv(p, env, r, FRESH);
    HandedIsKept(p, s.pool, env, r, c, later);
  }

  /** Connection `c` was taken for the request and is back: the primary in its place, another one at the end. */
  ghost predicate BackAgain(p: Pool, back: Pool, env: Env, r: Request, c: Conn) {
    var again := c.(readOnly := r.readOnly);
    if TakesNonPrimary(p, r)
    then && back.idlePrimary == p.idlePrimary
         && exists k: nat :: && Preferred(p.idle, env, r.sql, k) && c == p.idle[k]
                             && back.idle == Without(p.idle, k) + [again]
    else p.idlePrimary == Some(c) && back.idlePrimary == Some(again) && back.idle == p.idle
  }

  lemma HandedIsKept(p: Pool, q: Pool, env: Env, r: Request, c: Conn, later: Env)
    requires PoolInv(p) && PoolInv(q) && p.open && SameSettings(p, q) && !NeedsOpening(p, r) && Hands(p, q, env, r, c)
    ensures c.id in q.acquired
    ensures var back := TakeBack(q, c.id, later);
            && back.acquired == p.acquired && back.nextId == p.nextId && SameSettings(p, back)
            && BackAgain(p, back, env, r, c)
  {
    hide Owned, OnePrimary, Fresh, ModeHeld, TakeBack;
    var h := q.acquired[c.id];
    ReturnedIsKeptIff(q, c.id, later);
    if TakesNonPrimary(p, r) {
      var k: nat :| Preferred(p.idle, env, r.sql, k) && c == p.idle[k] && q.idle == Without(p.idle, k);
      assert |q.idle| == |p.idle| - 1;
    }
    assert IsKept(q, h, later);
    assert q.acquired - {c.id} == p.acquired;
  }

  // ---- Reconfiguring -----------------------------------------------------------------------------

  /** The settings that may change only while no connection is in use. */
  predicate NeedsQuiet(config: Config, was: Config) {
    HasWal(config.openFlags) != HasWal(was.openFlags) || config.foreignKeys != was.foreignKeys
  }

  /**
    When a reconfiguration throws, and what it leaves then: the same settings and the same acquired connections;
    the same idle ones too, unless it came as far as opening a primary connection for the other WAL mode.
   */
  lemma RefusedIff(p: Pool, config: Config, env: Env)
    ensures var r := ReconfigurePool(p, config, env);
            var opening := config.openFlags != p.config.openFlags && (NeedsQuiet(config, p.config) ==> p.acquired == map[]);
            && (r.Refused? <==>
                  || !p.open
                  || (p.acquired != map[] && NeedsQuiet(config, p.config))
                  || (config.openFlags != p.config.openFlags && !env.opens(p.nextId)))
            && (r.Refused? ==>
                  && SameSettings(p, r.pool) && r.pool.acquired == p.acquired
                  && r.pool.nextId == (if p.open && opening then p.nextId + 1 else p.nextId)
                  && if p.open && opening && HasWal(config.openFlags) != HasWal(p.config.openFlags)
                     then r.pool.idlePrimary.None? && r.pool.idle == []
                     else r.pool.idlePrimary == p.idlePrimary && r.pool.idle == p.idle)
  {
    hide HasWal, ReconfigureInPlace, Reopen;
  }

  /** An acquired connection through a reconfiguration: untouched, and marked unless it is to be discarded anyway. */
  predicate Marked(was: Held, now: Held, status: Status) {
    && now.conn == was.conn && now.grantedReadOnly == was.grantedReadOnly
    && now.status == if was.status.Discard? then Discard else status
  }

  predicate AllMarked(was: map<nat, Held>, now: map<nat, Held>, status: Status) {
    now.Keys == was.Keys && forall id :: id in was ==> Marked(was[id], now[id], status)
  }

  lemma MarkIs(acquired: map<nat, Held>, status: Status)
    ensures AllMarked(acquired, Mark(acquired, status), status)
  {
  }

  /** The connections `r` are those at the positions `at`: all from `start` on that can be reconfigured, in order. */
  ghost predicate Selects(at: seq<nat>, start: nat, idle: seq<Conn>, config: Config, env: Env, r: seq<Conn>) {
    && |at| == |r|
    && (forall i, j :: 0 <= i < j < |at| ==> at[i] < at[j])
    && (forall i :: 0 <= i < |at| ==> start <= at[i] < |idle| && env.reconfigures(idle[at[i]].id))
    && (forall i :: 0 <= i < |at| ==> r[i] == Reconfigured(idle[at[i]], config))
    && (forall k :: start <= k < |idle| && env.reconfigures(idle[k].id) ==> k in at)
  }

  /** An idle connection survives a reconfiguration exactly if it can be reconfigured. */
  lemma {:induction false} ReconfigureIdleSelects(idle: seq<Conn>, start: nat, config: Config, env: Env)
    returns (at: seq<nat>)
    requires start <= |idle|
    ensures Selects(at, start, idle, config, env, ReconfigureIdle(idle[start..], config, env))
    decreases |idle| - start
  {
    at := [];
    if start < |idle| {
      hide Reconfigured, Selects;
      assert idle[start..][0] == idle[start] && idle[start..][1..] == idle[start + 1..];
      var rest := ReconfigureIdleSelects(idle, start + 1, config, env);
      at := (if env.reconfigures(idle[start].id) then [start] else []) + rest;
      SelectsOneMore(rest, start, idle, config, env, ReconfigureIdle(idle[start + 1..], config, env));
    }
  }

  lemma SelectsOneMore(at: seq<nat>, start: nat, idle: seq<Conn>, config: Config, env: Env, r: seq<Conn>)
    requires start < |idle| && Selects(at, start + 1, idle, config, env, r)
    ensures if env.reconfigures(idle[start].id)
            then Selects([start] + at, start, idle, config, env, [Reconfigured(idle[start], config)] + r)
            else Selects([] + at, start, idle, config, env, [] + r)
  {
    if env.reconfigures(idle[start].id) {
      SelectsThisToo(at, start, idle, config, env, r, [start] + at, [Reconfigured(idle[start], config)] + r);
    } else {
      assert [] + at == at && [] + r == r;
    }
  }

  lemma SelectsThisToo(at: seq<nat>, start: nat, idle: seq<Conn>, config: Config, env: Env, r: seq<Conn>,
                       at': seq<nat>, r': seq<Conn>)
    requires start < |idle| && env.reconfigures(idle[start].id) && Selects(at, start + 1, idle, config, env, r)
    requires at' == [start] + at && r' == [Reconfigured(idle[start], config)] + r
    ensures Selects(at', start, idle, config, env, r')
  {
    hide Reconfigured;
    forall i | 0 <= i < |at'|
      ensures start <= at'[i] < |idle| && env.reconfigures(idle[at'[i]].id) && r'[i] == Reconfigured(idle[at'[i]], config)
    {
      if i > 0 {
        assert at'[i] == at[i - 1] && r'[i] == r[i - 1];
      }
    }
    forall i, j | 0 <= i < j < |at'| ensures at'[i] < at'[j] {
      assert at'[j] == at[j - 1];
    }
    forall k | start <= k < |idle| && env.reconfigures(idle[k].id) ensures k in at' {
      assert k == start || k in at;
    }
  }

  /**
    A change that leaves the open flags alone is applied in place: no connection is opened or interrupted, the
    acquired ones are marked to be brought up to date, and an idle one is lost only if that fails.
   */
  lemma InPlaceKeeps(p: Pool, config: Config, env: Env)
    requires PoolInv(p) && config.openFlags == p.config.openFlags && ReconfigurePool(p, config, env).Applied?
    ensures var q := ReconfigurePool(p, config, env).pool;
            && q.config == config && q.max == p.max && q.nextId == p.nextId
            && AllMarked(p.acquired, q.acquired, Reconfigure)
            && (q.idlePrimary.Some? <==> p.idlePrimary.Some? && env.reconfigures(p.idlePrimary.value.id))
            && (q.idlePrimary.Some? ==> q.idlePrimary.value.id == p.idlePrimary.value.id)
            && exists at :: Selects(at, 0, p.idle, config, env, q.idle)
  {
    hide Reconfigured, Mark, AllMarked, Selects, Fresh, OnePrimary, ModeHeld;
    MarkIs(p.acquired, Reconfigure);
    var at := ReconfigureIdleSelects(p.idle, 0, config, env);
    assert p.idle[0..] == p.idle;
    if p.idlePrimary.Some? {
      ReconfiguredId(p.idlePrimary.value, config);
    }
  }

  /** A change of the open flags replaces every connection: a new idle primary, and all acquired ones to be discarded. */
  lemma ReopenReplaces(p: Pool, config: Config, env: Env)
    requires config.openFlags != p.config.openFlags && ReconfigurePool(p, config, env).Applied?
    ensures var q := ReconfigurePool(p, config, env).pool;
            && q.config == config && q.max == MaxPoolSize(p.build, config) && q.nextId == p.nextId + 1
            && AllMarked(p.acquired, q.acquired, Discard) && q.idle == []
            && q.idlePrimary.Some? && q.idlePrimary.value.id == p.nextId && q.idlePrimary.value.primary
            && Current(q.idlePrimary.value, config)
  {
    hide Mark, AllMarked, MaxPoolSize, HasWal;
    MarkIs(p.acquired, Discard);
  }

  // ---- After closing -----------------------------------------------------------------------------

  /** A closed pool stays closed, opens no connection and hands none out, whatever the run does. */
  lemma {:induction false} ClosedStaysClosed(s: State, run: seq<Event>)
    requires Inv(s) && Legal(s, run) && !s.pool.open
    ensures var t := After(s, run);
            && !t.pool.open && t.pool.nextId == s.pool.nextId
            && (forall id :: id in t.pool.acquired ==> id in s.pool.acquired && t.pool.acquired[id] == s.pool.acquired[id])
    decreases run
  {
    hide Inv, Enabled, Next;
    if run != [] {
      ClosedStep(s, run[0].step, run[0].env);
      NextKeepsInv(s, run[0].step, run[0].env);
      ClosedStaysClosed(Next(s, run[0].step, run[0].env), run[1..]);
    }
  }

  lemma ClosedStep(s: State, step: Step, env: Env)
    requires Inv(s) && !s.pool.open
    ensures var t := Next(s, step, env);
            && !t.pool.open && t.pool.nextId == s.pool.nextId
            && (forall id :: id in t.pool.acquired ==> id in s.pool.acquired && t.pool.acquired[id] == s.pool.acquired[id])
  {
    hide PoolInv, Apart, Exclusive, NoneForgotten, Wake;
    ClosedDropsAll(s.pool, env, s.queue, FRESH);
  }

  // ---- After leaks -------------------------------------------------------------------------------

  /** Finalizers, then a thread that notices the flag, then the passes that were due. */
  function Handling(l: Leaks, env: Env): seq<Event>
    decreases l.unfinalized, if l.flagged then 1 else 0, l.recovering
  {
    if l.unfinalized > 0 then [Event(FinalizeStep, env)] + Handling(Leaks(l.unfinalized - 1, true, l.recovering), env)
    else if l.flagged then [Event(NoticeStep, env)] + Handling(Leaks(0, false, l.recovering + 1), env)
    else if l.recovering > 0 then [Event(RecoverStep, env)] + Handling(Leaks(0, false, l.recovering - 1), env)
    else []
  }

  /** Whatever leaks are under way, handling them comes to an end, and then no queued request could be served. */
  lemma {:induction false} LeaksAreHandled(s: State, env: Env)
    requires Inv(s)
    ensures Legal(s, Handling(s.leaks, env))
    ensures var t := After(s, Handling(s.leaks, env));
            t.leaks == NO_LEAKS && (t.pool.open ==> AllBlocked(t))
    decreases s.leaks.unfinalized, if s.leaks.flagged then 1 else 0, s.leaks.recovering
  {
    hide PoolInv, Apart, Located, Exclusive, AllBlocked, Next, Enabled;
    var run := Handling(s.leaks, env);
    if run != [] {
      HandlingStep(s, env);
      NextKeepsInv(s, run[0].step, env);
      LeaksAreHandled(Next(s, run[0].step, env), env);
    }
  }

  lemma HandlingStep(s: State, env: Env)
    requires Handling(s.leaks, env) != []
    ensures var l, run := s.leaks, Handling(s.leaks, env);
            && Enabled(s, run[0].step) && run[0].env == env
            && Next(s, run[0].step, env).leaks
               == (if l.unfinalized > 0 then Leaks(l.unfinalized - 1, true, l.recovering)
                   else if l.flagged then Leaks(0, false, l.recovering + 1)
                   else Leaks(0, false, l.recovering - 1))
            && run[1..] == Handling(Next(s, run[0].step, env).leaks, env)
  {
    hide Wake;
  }
}
