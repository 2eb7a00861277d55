/**
  A connection granted read-only executes nothing that writes, from the request to the native call: the pool and
  the prepared statements of all its connections as one machine.
 */
module ReadOnlyHolds {
  import opened Configuration
  import P = PoolModel
  import PoolInvariants
  import PoolRequests
  import PoolRuns
  import opened Sequences
  import opened StatementModel

  // ---- One connection ------------------------------------------------------------------------------------

  /** One of the first `n` calls prepared `ptr` from SQL with these properties. */
  ghost predicate PreparedAs(describe: string -> Info, log: seq<Call>, n: nat, ptr: nat, info: Info) {
    exists k, sql :: 0 <= k < n && k < |log| && log[k] == Prepare(ptr, sql) && describe(sql) == info
  }

  /** One of the first `n` calls prepared `ptr` from SQL that does not write. */
  ghost predicate PreparedToRead(describe: string -> Info, log: seq<Call>, n: nat, ptr: nat) {
    exists info: Info :: info.readOnly && PreparedAs(describe, log, n, ptr, info)
  }

  /** Holders tell the truth about their statements, and what was executed in read-only mode does not write. */
  ghost predicate Described<H>(s: State<H>) {
    && (forall h :: h in s.holders ==> PreparedAs(s.describe, s.log, |s.log|, s.holders[h].ptr, s.holders[h].info))
    && (forall i :: 0 <= i < |s.log| && s.log[i].Execute? && s.log[i].onlyReadOnly ==>
          PreparedToRead(s.describe, s.log, i, s.log[i].ptr))
  }

  /** `t` goes on from `s` without executing anything, with holders that are unchanged or newly prepared. */
  ghost predicate Follows<H>(s: State<H>, t: State<H>) {
    && t.describe == s.describe && s.log <= t.log
    && (forall i :: |s.log| <= i < |t.log| ==> !t.log[i].Execute?)
    && (forall h :: h in t.holders ==>
          || (h in s.holders && t.holders[h].ptr == s.holders[h].ptr && t.holders[h].info == s.holders[h].info)
          || PreparedAs(t.describe, t.log, |t.log|, t.holders[h].ptr, t.holders[h].info))
  }

  lemma PreparedStays(describe: string -> Info, log: seq<Call>, more: seq<Call>, n: nat, m: nat, ptr: nat, info: Info)
    requires PreparedAs(describe, log, n, ptr, info) && log <= more && n <= m
    ensures PreparedAs(describe, more, m, ptr, info)
  {
    var k, sql :| 0 <= k < n && k < |log| && log[k] == Prepare(ptr, sql) && describe(sql) == info;
    assert more[k] == Prepare(ptr, sql);
  }

  lemma FollowsKeepsDescribed<H>(s: State<H>, t: State<H>)
    requires Described(s) && Follows(s, t)
    ensures Described(t)
  {
    hide PreparedAs;
    forall h | h in t.holders ensures PreparedAs(t.describe, t.log, |t.log|, t.holders[h].ptr, t.holders[h].info) {
      if h in s.holders && t.holders[h].ptr == s.holders[h].ptr && t.holders[h].info == s.holders[h].info {
        PreparedStays(s.describe, s.log, t.log, |s.log|, |t.log|, t.holders[h].ptr, t.holders[h].info);
      }
    }
    forall i | 0 <= i < |t.log| && t.log[i].Execute? && t.log[i].onlyReadOnly
      ensures PreparedToRead(t.describe, t.log, i, t.log[i].ptr)
    {
      assert t.log[i] == s.log[i];
      var info: Info :| info.readOnly && PreparedAs(s.describe, s.log, i, s.log[i].ptr, info);
      PreparedStays(s.describe, s.log, t.log, i, i, s.log[i].ptr, info);
    }
  }

  lemma FollowsTransitive<H>(s: State<H>, t: State<H>, u: State<H>)
    requires Follows(s, t) && Follows(t, u)
    ensures Follows(s, u)
  {
    hide PreparedAs;
    forall h | h in u.holders
      ensures || (h in s.holders && u.holders[h].ptr == s.holders[h].ptr && u.holders[h].info == s.holders[h].info)
              || PreparedAs(u.describe, u.log, |u.log|, u.holders[h].ptr, u.holders[h].info)
    {
      if h in t.holders && PreparedAs(t.describe, t.log, |t.log|, t.holders[h].ptr, t.holders[h].info) {
        PreparedStays(t.describe, t.log, u.log, |t.log|, |u.log|, t.holders[h].ptr, t.holders[h].info);
      }
    }
  }

  lemma RemovalFollows<H>(s: State<H>, h: H)
    requires h in s.holders
    ensures Follows(s, EntryRemoved(s, h)) && Follows(s, Retire(s, h))
  {
  }

  lemma DropFollows<H>(s: State<H>, k: nat)
    requires k < |s.cache| && s.cache[k].holder in s.holders
    ensures Follows(s, DropEntry(s, k))
  {
    hide EntryRemoved;
    RemovalFollows(s.(cache := Without(s.cache, k)), s.cache[k].holder);
  }

  lemma {:induction false} EvictAllFollows<H>(s: State<H>)
    ensures Follows(s, EvictAll(s))
    decreases |s.cache|
  {
    hide Follows, DropEntry;
    FollowsItself(s);
    if s.cache != [] && s.cache[0].holder in s.holders {
      DropFollows(s, 0);
      DropShrinks(s);
      EvictAllFollows(DropEntry(s, 0));
      FollowsTransitive(s, DropEntry(s, 0), EvictAll(DropEntry(s, 0)));
    }
  }

  lemma DropShrinks<H>(s: State<H>)
    requires s.cache != [] && s.cache[0].holder in s.holders
    ensures |DropEntry(s, 0).cache| < |s.cache|
  {
  }

  lemma FollowsItself<H>(s: State<H>)
    ensures Follows(s, s)
  {
  }

  lemma PreparedFollows<H>(s: State<H>, sql: string, spare: H)
    ensures var u := Detach(Prepared(s.(cache := Touch(s.cache, sql)), sql), spare);
            Follows(s, u) && |s.log| < |u.log| && u.log[|s.log|] == Prepare(s.nextPtr, sql)
  {
    hide Touch;
  }

  lemma TakeNewFollows<H>(s: State<H>, sql: string, spare: H)
    ensures Follows(s, TakeNew(s, sql, spare))
  {
    hide Follows, Touch, Recursive, MakeRoom, Install;
    var caching := !Recursive(s, sql) && s.describe(sql).cacheable;
    var u := Detach(Prepared(s.(cache := Touch(s.cache, sql)), sql), spare);
    PreparedFollows(s, sql, spare);
    var m := if caching then MakeRoom(u) else u;
    assert Follows(u, m) by { MakeRoomFollows(u); FollowsItself(u); }
    FollowsTransitive(s, u, m);
    InstallFollows(u, m, NextHolder(s, spare), s.nextPtr, sql, caching, |s.log|);
    FollowsTransitive(s, m, Install(m, NextHolder(s, spare), s.nextPtr, sql, caching));
  }

  lemma MakeRoomFollows<H>(s: State<H>)
    ensures Follows(s, MakeRoom(s))
  {
    hide Follows, DropEntry;
    FollowsItself(s);
    if 0 < |s.cache| && s.capacity <= |s.cache| && s.cache[0].holder in s.holders {
      DropFollows(s, 0);
    }
  }

  lemma InstallFollows<H>(u: State<H>, m: State<H>, h: H, ptr: nat, sql: string, caching: bool, k: nat)
    requires Follows(u, m) && k < |u.log| && u.log[k] == Prepare(ptr, sql)
    ensures Follows(m, Install(m, h, ptr, sql, caching))
  {
    assert m.log[k] == Prepare(ptr, sql);
    assert PreparedAs(m.describe, m.log, |m.log|, ptr, m.describe(sql));
  }

  lemma ReleaseFollows<H>(s: State<H>, resets: bool)
    requires s.frames != [] && Top(s) in s.holders
    ensures Follows(s, Release(s, resets))
  {
    hide Find, PreparedAs, DropEntry, Retire;
    var h, out := Top(s), Pop(s);
    if !s.holders[h].inCache {
      RemovalFollows(out, h);
      FollowsTransitive(s, out, Retire(out, h));
    } else {
      var u := out.(log := out.log + [Use(s.holders[h].ptr)]);
      assert Follows(s, u);
      if !resets && s.holders[h].sql.Some? {
        var k := Find(u.cache, s.holders[h].sql.value);
        if k < |u.cache| && u.cache[k].holder in u.holders {
          DropFollows(u, k);
          FollowsTransitive(s, u, DropEntry(u, k));
        }
      }
    }
  }

  lemma ExecuteKeepsDescribed<H>(s: State<H>)
    requires Described(s) && s.frames != [] && Top(s) in s.holders
    ensures Described(ExecuteTop(s))
    ensures s.onlyReadOnly && s.holders[Top(s)].info.readOnly ==>
              PreparedToRead(s.describe, s.log, |s.log|, s.holders[Top(s)].ptr)
  {
    hide PreparedAs;
    var t, v := ExecuteTop(s), s.holders[Top(s)];
    forall n: nat, p: nat, info: Info | PreparedAs(s.describe, s.log, n, p, info)
      ensures forall m :: n <= m ==> PreparedAs(t.describe, t.log, m, p, info)
    {
      forall m | n <= m ensures PreparedAs(t.describe, t.log, m, p, info) {
        PreparedStays(s.describe, s.log, t.log, n, m, p, info);
      }
    }
    forall i | 0 <= i < |t.log| && t.log[i].Execute? && t.log[i].onlyReadOnly
      ensures PreparedToRead(t.describe, t.log, i, t.log[i].ptr)
    {
      if i < |s.log| {
        assert t.log[i] == s.log[i];
        var info: Info :| info.readOnly && PreparedAs(s.describe, s.log, i, s.log[i].ptr, info);
        assert PreparedAs(t.describe, t.log, i, s.log[i].ptr, info);
      } else {
        assert PreparedAs(t.describe, t.log, i, v.ptr, v.info);
      }
    }
  }

  /** Every step, including those that free a statement somebody still holds, keeps the holders truthful. */
  lemma NextKeepsDescribed<H>(s: State<H>, step: Step<H>)
    requires Described(s) && Enabled(s, step)
    ensures Described(Next(s, step)) && Next(s, step).describe == s.describe
  {
    hide Described, PreparedAs, Touch, TakeNew, Release, EvictAll, ExecuteTop, Recursive;
    var t := Next(s, step);
    match step
    case ExecuteStep =>
      ExecuteKeepsDescribed(s);
      ExecuteConstants(s);
    case AcquireStep(sql, outcome, spare) =>
      TakeNewFollows(s, sql, spare);
      FollowsKeepsDescribed(s, t);
    case ReleaseStep(resets) =>
      ReleaseFollows(s, resets);
      FollowsKeepsDescribed(s, t);
    case DisposeStep =>
      EvictAllFollows(s);
      FollowsKeepsDescribed(s, t);
    case _ =>
      FollowsKeepsDescribed(s, t);
  }

  lemma ExecuteConstants<H>(s: State<H>)
    requires s.frames != [] && Top(s) in s.holders
    ensures ExecuteTop(s).describe == s.describe
  {
  }

  lemma {:induction false} RunKeepsDescribed<H>(s: State<H>, run: seq<Step<H>>)
    requires Described(s) && Legal(s, run)
    ensures Described(After(s, run)) && After(s, run).describe == s.describe
    decreases |run|
  {
    hide Described, Next, Enabled;
    if run != [] {
      NextKeepsDescribed(s, run[0]);
      RunKeepsDescribed(Next(s, run[0]), run[1..]);
    }
  }

  /** Over every run, a statement executed while only read-only ones were allowed was prepared before from SQL that does not write. */
  lemma ReadOnlyHolderOnlyReads<H>(capacity: nat, describe: string -> Info, run: seq<Step<H>>, i: nat)
    requires Legal(Begin(capacity, describe), run)
    requires var log := After(Begin(capacity, describe), run).log; i < |log| && log[i].Execute? && log[i].onlyReadOnly
    ensures var log := After(Begin(capacity, describe), run).log;
      exists k, sql :: 0 <= k < i && log[k] == Prepare(log[i].ptr, sql) && describe(sql).readOnly
  {
    hide Legal, After;
    RunKeepsDescribed(Begin<H>(capacity, describe), run);
    var log := After(Begin(capacity, describe), run).log;
    var info: Info :| info.readOnly && PreparedAs(describe, log, i, log[i].ptr, info);
    var k, sql :| 0 <= k < i && k < |log| && log[k] == Prepare(log[i].ptr, sql) && describe(sql) == info;
  }

  // ---- The pool and its connections together -----------------------------------------------------------------

  /** The pool, and the statements of the connections that have done anything yet. */
  datatype System = System(
    pool: P.State,
    capacity: nat,
    describe: string -> Info,
    statements: map<nat, State<nat>>)

  function Opening(config: Config, build: Build, capacity: nat, describe: string -> Info): System {
    System(P.Start(config, build), capacity, describe, map[])
  }

  function Statements(j: System, id: nat): State<nat> {
    if id in j.statements then j.statements[id] else Begin(j.capacity, j.describe)
  }

  /** A block under the pool's lock, or something that a connection's statements do. */
  datatype Event = PoolEvent(step: P.Step, env: P.Env) | StatementEvent(id: nat, doing: Step<nat>)

  /** The step hands out connection `id`, perhaps just after it came back. */
  predicate Grants(was: P.State, step: P.Step, now: P.State, id: nat) {
    id in now.pool.acquired && (id !in was.pool.acquired || step == P.ReleaseStep(id))
  }

  /** The mode is set by the pool only; the pool also looks into idle caches and closes connections. */
  predicate Allowed(j: System, e: Event) {
    match e
    case PoolEvent(step, env) => P.Enabled(j.pool, step)
    case StatementEvent(id, doing) =>
      && !doing.ModeStep? && (id in j.pool.pool.acquired || doing.TouchStep? || doing.DisposeStep?)
      && Enabled(Statements(j, id), doing)
  }

  /** Handing out a connection sets its mode; nothing else that the pool does touches it. */
  function Advance(j: System, e: Event): System
    requires Allowed(j, e)
  {
    match e
    case PoolEvent(step, env) =>
      var now := P.Next(j.pool, step, env);
      j.(pool := now,
         statements := map id | id in j.statements.Keys + now.pool.acquired.Keys ::
           if Grants(j.pool, step, now, id)
           then Statements(j, id).(onlyReadOnly := now.pool.acquired[id].conn.readOnly)
           else Statements(j, id))
    case StatementEvent(id, doing) =>
      j.(statements := j.statements[id := Next(Statements(j, id), doing)])
  }

  ghost predicate SystemLegal(j: System, run: seq<Event>)
    decreases |run|
  {
    run != [] ==> Allowed(j, run[0]) && SystemLegal(Advance(j, run[0]), run[1..])
  }

  ghost function SystemAfter(j: System, run: seq<Event>): System
    requires SystemLegal(j, run)
    decreases |run|
  {
    if run == [] then j else SystemAfter(Advance(j, run[0]), run[1..])
  }

  /** A held connection is in the mode of the request that it was granted to. */
  ghost predicate ModesAgree(j: System) {
    forall id :: id in j.pool.pool.acquired ==>
      Statements(j, id).onlyReadOnly == j.pool.pool.acquired[id].grantedReadOnly
  }

  ghost predicate AllDescribed(j: System) {
    forall id :: id in j.statements ==> Described(j.statements[id]) && j.statements[id].describe == j.describe
  }

  ghost predicate SystemInv(j: System) {
    PoolRequests.Inv(j.pool) && ModesAgree(j) && AllDescribed(j)
  }

  lemma PoolEventKeepsModes(j: System, step: P.Step, env: P.Env)
    requires SystemInv(j) && P.Enabled(j.pool, step)
    ensures ModesAgree(Advance(j, PoolEvent(step, env)))
  {
    hide P.Next, P.Enabled, Described;
    var now := P.Next(j.pool, step, env);
    var t := Advance(j, PoolEvent(step, env));
    PoolRequests.NextKeepsInv(j.pool, step, env);
    forall id | id in now.pool.acquired
      ensures Statements(t, id).onlyReadOnly == now.pool.acquired[id].grantedReadOnly
    {
      assert now.pool.acquired[id].conn.readOnly == now.pool.acquired[id].grantedReadOnly by { ModeIsGranted(now, id); }
      if !Grants(j.pool, step, now, id) {
        LeakedIsGone(j.pool, step, env, id);
        PoolRuns.NextKeepsHeld(j.pool, step, env, id);
      }
    }
  }

  lemma ModeIsGranted(s: P.State, id: nat)
    requires PoolRequests.Inv(s) && id in s.pool.acquired
    ensures s.pool.acquired[id].conn.readOnly == s.pool.acquired[id].grantedReadOnly
  {
    hide PoolInvariants.Owned, PoolInvariants.OnePrimary, PoolInvariants.Fresh, PoolInvariants.Bounded;
  }

  lemma LeakedIsGone(s: P.State, step: P.Step, env: P.Env, id: nat)
    requires id in P.Next(s, step, env).pool.acquired
    ensures step != P.LeakStep(id)
  {
  }

  lemma BeginIsDescribed<H>(capacity: nat, describe: string -> Info)
    ensures Described(Begin<H>(capacity, describe)) && Begin<H>(capacity, describe).describe == describe
  {
  }

  lemma ModeKeepsDescribed<H>(s: State<H>, b: bool)
    requires Described(s)
    ensures Described(s.(onlyReadOnly := b))
  {
  }

  lemma EventKeepsDescribed(j: System, e: Event)
    requires AllDescribed(j) && Allowed(j, e)
    ensures AllDescribed(Advance(j, e))
  {
    hide Described, P.Next, Next;
    BeginIsDescribed<nat>(j.capacity, j.describe);
    if e.PoolEvent? {
      forall id, b ensures Described(Statements(j, id).(onlyReadOnly := b)) {
        ModeKeepsDescribed(Statements(j, id), b);
      }
    } else {
      NextKeepsDescribed(Statements(j, e.id), e.doing);
    }
  }

  lemma StatementEventKeepsModes(j: System, id: nat, doing: Step<nat>)
    requires ModesAgree(j) && Allowed(j, StatementEvent(id, doing))
    ensures ModesAgree(Advance(j, StatementEvent(id, doing)))
  {
    ModeIsKept(Statements(j, id), doing);
    hide Next, Enabled;
  }

  lemma ModeIsKept<H>(s: State<H>, step: Step<H>)
    requires Enabled(s, step) && !step.ModeStep?
    ensures Next(s, step).onlyReadOnly == s.onlyReadOnly
  {
    hide Touch, Find, EvictAll, Recursive;
    if step.DisposeStep? {
      EvictAllKeepsMode(s);
    }
  }

  lemma {:induction false} EvictAllKeepsMode<H>(s: State<H>)
    ensures EvictAll(s).onlyReadOnly == s.onlyReadOnly
    decreases |s.cache|
  {
    if s.cache != [] && s.cache[0].holder in s.holders {
      EvictAllKeepsMode(DropEntry(s, 0));
    }
  }

  lemma AdvanceKeepsInv(j: System, e: Event)
    requires SystemInv(j) && Allowed(j, e)
    ensures SystemInv(Advance(j, e))
  {
    hide PoolRequests.Inv, ModesAgree, AllDescribed, P.Next, Next, P.Enabled, Enabled;
    EventKeepsDescribed(j, e);
    match e
    case PoolEvent(step, env) =>
      PoolRequests.NextKeepsInv(j.pool, step, env);
      PoolEventKeepsModes(j, step, env);
    case StatementEvent(id, doing) =>
      StatementEventKeepsModes(j, id, doing);
  }

  lemma {:induction false} SystemKeepsInv(j: System, run: seq<Event>)
    requires SystemInv(j) && SystemLegal(j, run)
    ensures SystemInv(SystemAfter(j, run)) && SystemAfter(j, run).describe == j.describe
    decreases |run|
  {
    hide SystemInv, P.Next, Next, P.Enabled, Enabled;
    if run != [] {
      AdvanceKeepsInv(j, run[0]);
      SystemKeepsInv(Advance(j, run[0]), run[1..]);
    }
  }

  /** The run opens a pool and its connections and leads to `j`. */
  ghost predicate LeadsTo(config: Config, build: Build, capacity: nat, describe: string -> Info, run: seq<Event>, j: System) {
    var start := Opening(config, build, capacity, describe);
    Distinct(config.functions) && SystemLegal(start, run) && j == SystemAfter(start, run)
  }

  lemma ReachableSystemInv(config: Config, build: Build, capacity: nat, describe: string -> Info, run: seq<Event>, j: System)
    requires LeadsTo(config, build, capacity, describe, run, j)
    ensures SystemInv(j) && j.describe == describe
  {
    hide SystemLegal, SystemAfter, PoolRequests.Inv;
    PoolRuns.StartHasInv(config, build);
    SystemKeepsInv(Opening(config, build, capacity, describe), run);
  }

  /** The operation that wants to execute its statement on connection `id`: the innermost one. */
  predicate Executing(j: System, id: nat) {
    && id in j.pool.pool.acquired
    && Statements(j, id).frames != [] && Top(Statements(j, id)) in Statements(j, id).holders
  }

  /**
    Over every interleaving of what the pool does with what the holders of its connections do: a holder that
    executes a statement gets it executed, unless its request was for reading only and the statement writes;
    and what a holder with a read-only request gets executed was prepared from SQL that does not write.
   */
  lemma ReadOnlyRequestOnlyReads(config: Config, build: Build, capacity: nat, describe: string -> Info,
                                 run: seq<Event>, j: System, id: nat)
    requires LeadsTo(config, build, capacity, describe, run, j) && Executing(j, id)
    ensures var s, readOnly := Statements(j, id), j.pool.pool.acquired[id].grantedReadOnly;
            var v := s.holders[Top(s)];
            && ExecuteTop(s).log
               == s.log + (if readOnly && !v.info.readOnly then [] else [Execute(v.ptr, readOnly)])
            && (readOnly && v.info.readOnly ==> PreparedToRead(describe, s.log, |s.log|, v.ptr))
  {
    hide LeadsTo, Described, PoolRequests.Inv;
    ReachableSystemInv(config, build, capacity, describe, run, j);
    BeginIsDescribed<nat>(j.capacity, j.describe);
    ExecuteKeepsDescribed(Statements(j, id));
  }
}
