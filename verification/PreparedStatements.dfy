/**
 * The prepared-statement part of a connection as it is coded: holder objects with flags, a linked free
 * list of holders, and a least-recently-used cache with a callback for the entries it drops.
 */
module PreparedStatements {
  import opened Options
  import opened Sequences
  import M = StatementModel
  import opened StatementLives
  import Runs = StatementRuns

  class PreparedStatement {
    var poolNext: PreparedStatement?
    var sql: Option<string>
    var ptr: nat
    var info: M.Info
    var inCache: bool
    var inUse: bool

    constructor ()
      ensures fresh(this) && poolNext == null && sql == None && !inCache && !inUse
    {
      poolNext, sql, inCache, inUse := null, None, false, false;
    }

    function Value(): M.Holder
      reads this
    {
      M.Holder(sql, ptr, info, inCache, inUse)
    }
  }

  class SQLiteConnection {
    const capacity: nat
    const describe: string -> M.Info
    var onlyReadOnly: bool
    /** The cache's entries, from the least to the most recently used. */
    var cache: seq<M.Entry<PreparedStatement>>
    /** The head of the list of holders without a statement. */
    var pool: PreparedStatement?
    /** The next native statement to be prepared. */
    var nextPtr: nat

    ghost var all: set<PreparedStatement>
    ghost var free: seq<PreparedStatement>
    ghost var frames: seq<M.Frame<PreparedStatement>>
    ghost var log: seq<M.Call>
    ghost var lost: set<nat>

    ghost function Holders(): Holders<PreparedStatement>
      reads this`all, all
    {
      map h | h in all :: h.Value()
    }

    ghost function Abs(): M.State<PreparedStatement>
      reads this, all
    {
      M.State(capacity, describe, onlyReadOnly, cache, Holders(), free, frames, nextPtr, log)
    }

    ghost function FreeAt(i: nat): PreparedStatement?
      reads this`free
    {
      if i < |free| then free[i] else null
    }

    /** The free list is a duplicate-free chain of known holders. */
    ghost predicate Linked()
      reads this`all, this`free, this`pool, all`poolNext
    {
      && (forall i :: 0 <= i < |free| ==> free[i] in all)
      && (forall i, j :: 0 <= i < j < |free| ==> free[i] != free[j])
      && pool == FreeAt(0)
      && (forall i :: 0 <= i < |free| ==> free[i].poolNext == FreeAt(i + 1))
    }

    ghost predicate Valid()
      reads this, all
    {
      Linked() && Inv(Abs(), lost)
    }

    constructor (capacity: nat, describe: string -> M.Info)
      requires 1 <= capacity
      ensures Valid() && fresh(all) && Abs() == M.Begin(capacity, describe) && lost == {}
    {
      this.capacity, this.describe := capacity, describe;
      onlyReadOnly, cache, pool, nextPtr := false, [], null, 0;
      all, free, frames, log, lost := {}, [], [], [], {};
      new;
      Runs.BeginHasInv<PreparedStatement>(capacity, describe);
    }

    // ---- The free list of holders ------------------------------------------------------------------------

    method RecyclePreparedStatement(statement: PreparedStatement)
      requires Linked() && statement in all && statement !in free
      modifies this`pool, this`free, statement`sql, statement`poolNext
      ensures Linked() && free == [statement] + old(free)
      ensures Holders() == old(Holders())[statement := old(statement.Value()).(sql := None)]
    {
      statement.sql := None;
      statement.poolNext := pool;
      pool := statement;
      free := [statement] + free;
      assert forall i :: 0 < i < |free| ==> free[i] == old(free)[i - 1];
    }

    method FinalizePreparedStatement(statement: PreparedStatement)
      requires Linked() && statement in all && statement !in free
      modifies this`pool, this`free, this`log, statement`sql, statement`poolNext
      ensures Linked()
      ensures Abs() == M.Retire(old(Abs()), statement)
    {
      log := log + [M.Finalize(statement.ptr)];
      RecyclePreparedStatement(statement);
    }

    method ObtainPreparedStatement(sql: string, ptr: nat, info: M.Info) returns (statement: PreparedStatement)
      requires Linked()
      modifies this`pool, this`free, this`all, all
      ensures Linked() && statement in all && all == old(all) + {statement}
      ensures old(free) != [] ==> statement == old(free)[0] && free == old(free)[1..] && all == old(all)
      ensures old(free) == [] ==> fresh(statement) && free == []
      ensures statement !in free
      ensures statement.sql == Some(sql) && statement.ptr == ptr && statement.info == info && !statement.inCache
      ensures old(free) != [] ==> statement.inUse == old(free[0].inUse)
      ensures old(free) == [] ==> !statement.inUse
      ensures Holders() == old(Holders())[statement := statement.Value()]
    {
      if pool != null {
        statement := pool;
        pool := statement.poolNext;
        statement.poolNext := null;
        statement.inCache := false;
        free := free[1..];
      } else {
        statement := new PreparedStatement();
        all := all + {statement};
      }
      statement.sql := Some(sql);
      statement.ptr := ptr;
      statement.info := info;
    }

    // ---- The cache -----------------------------------------------------------------------------------------

    /** What the cache does with an entry that it has dropped. */
    method EntryRemoved(statement: PreparedStatement)
      requires Linked() && statement in all && statement !in free
      modifies this`pool, this`free, this`log, statement`sql, statement`poolNext, statement`inCache
      ensures Linked()
      ensures Abs() == M.EntryRemoved(old(Abs()), statement)
    {
      statement.inCache := false;
      assert Holders() == old(Holders())[statement := old(statement.Value()).(inCache := false)];
      if !statement.inUse {
        FinalizePreparedStatement(statement);
      }
    }

    method DropEntry(k: nat)
      requires Linked() && k < |cache| && cache[k].holder in all && cache[k].holder !in free
      modifies this`cache, this`pool, this`free, this`log
      modifies cache[k].holder`sql, cache[k].holder`poolNext, cache[k].holder`inCache
      ensures Linked()
      ensures Abs() == M.DropEntry(old(Abs()), k)
    {
      var statement := cache[k].holder;
      cache := cache[..k] + cache[k + 1..];
      EntryRemoved(statement);
    }

    method FindEntry(sql: string) returns (k: nat)
      ensures k == M.Find(cache, sql)
    {
      k := 0;
      while k < |cache| && cache[k].sql != sql
        invariant k <= |cache|
        invariant forall i :: 0 <= i < k ==> cache[i].sql != sql
      {
        k := k + 1;
      }
    }

    /** Looks an entry up, which makes it the most recently used. */
    method CacheGet(sql: string) returns (statement: PreparedStatement?)
      modifies this`cache
      ensures cache == M.Touch(old(cache), sql)
      ensures var k := M.Find(old(cache), sql);
        statement == if k < |old(cache)| then old(cache)[k].holder else null
    {
      var k := FindEntry(sql);
      if k < |cache| {
        statement := cache[k].holder;
        cache := cache[..k] + cache[k + 1..] + [cache[k]];
      } else {
        statement := null;
      }
    }

    /** Asked by the pool when it looks for an idle connection. The answer leaves a trace in the recency order. */
    method IsPreparedStatementInCache(sql: string) returns (cached: bool)
      requires Valid()
      modifies this`cache
      ensures Valid() && cached == (M.Find(old(cache), sql) < |old(cache)|)
      ensures Abs() == M.Next(old(Abs()), M.TouchStep(sql)) == old(Abs()).(cache := M.Touch(old(cache), sql))
    {
      hide Linked, Inv, M.Touch;
      TouchKeeps(Abs(), lost, sql);
      var statement := CacheGet(sql);
      cached := statement != null;
    }

    /** Cached statements are known and not on the free list. */
    ghost predicate Apart()
      reads this`cache, this`all, this`free
    {
      forall i :: 0 <= i < |cache| ==> cache[i].holder in all && cache[i].holder !in free
    }

    /** Adds an entry for SQL that the cache does not have, and drops the eldest entries that are too many. */
    method CachePut(sql: string, statement: PreparedStatement)
      requires Linked() && Apart() && statement in all && statement !in free && |cache| <= capacity
      modifies this`cache, this`pool, this`free, this`log, all
      ensures Linked()
      ensures Abs() == Trimmed(old(Abs()).(cache := old(cache) + [M.Entry(sql, statement)]))
    {
      cache := cache + [M.Entry(sql, statement)];
      ghost var full := Abs();
      assert Apart();
      while |cache| > capacity
        invariant Linked() && all == old(all)
        invariant |cache| <= capacity ==> Abs() == Trimmed(full)
        invariant |cache| > capacity ==> Abs() == full && Apart()
        invariant |cache| <= capacity + 1
        decreases |cache|
      {
        DropEntry(0);
      }
    }

    /** Gives a newly prepared native statement a holder, caches it if it may, and marks it as being executed. */
    method TakeStatement(sql: string, ptr: nat, caching: bool) returns (statement: PreparedStatement)
      requires Linked() && Apart() && 1 <= capacity && |cache| <= capacity
      requires free != [] ==> !free[0].inUse
      modifies this`pool, this`free, this`all, this`cache, this`log, this`frames, all
      ensures Linked() && statement in all && fresh(all - old(all))
      ensures old(free) == [] ==> statement !in old(all)
      ensures statement == M.NextHolder(old(Abs()), statement)
      ensures var u := M.Detach(old(Abs()), statement);
        Abs() == M.Install(if caching then M.MakeRoom(u) else u, statement, ptr, sql, caching)
    {
      hide M.MakeRoom, M.Detach;
      ghost var was := Abs();
      statement := ObtainPreparedStatement(sql, ptr, describe(sql));
      DetachThenPut(was, statement, statement.Value());
      Enter(sql, statement, caching, M.Detach(was, statement));
    }

    method Enter(sql: string, statement: PreparedStatement, caching: bool, ghost u: M.State<PreparedStatement>)
      requires Linked() && Apart() && 1 <= capacity && |cache| <= capacity
      requires statement in all && statement !in free && statement !in u.holders
      requires Abs() == u.(holders := u.holders[statement := statement.Value()])
      requires statement.sql == Some(sql) && statement.info == describe(sql) && !statement.inCache
      requires caching ==> forall i :: 0 <= i < |cache| ==> cache[i].holder != statement
      modifies this`pool, this`free, this`cache, this`log, this`frames, all
      ensures Linked()
      ensures Abs() == M.Install(if caching then M.MakeRoom(u) else u, statement, old(statement.ptr), sql, caching)
    {
      hide M.MakeRoom, M.Install, Linked;
      ghost var m := if caching then M.MakeRoom(u) else u;
      if caching {
        PutInCache(sql, statement, u);
      }
      MarkInstalls(m, statement, statement.Value(), sql, caching);
      Mark(statement, caching);
    }

    method PutInCache(sql: string, statement: PreparedStatement, ghost u: M.State<PreparedStatement>)
      requires Linked() && Apart() && 1 <= capacity && |cache| <= capacity
      requires statement in all && statement !in free && statement !in u.holders
      requires Abs() == u.(holders := u.holders[statement := statement.Value()])
      requires forall i :: 0 <= i < |cache| ==> cache[i].holder != statement
      modifies this`pool, this`free, this`cache, this`log, all
      ensures Linked() && statement.Value() == old(statement.Value())
      ensures var m := M.MakeRoom(u);
        Abs() == m.(holders := m.holders[statement := statement.Value()], cache := m.cache + [M.Entry(sql, statement)])
    {
      hide M.MakeRoom, Trimmed, Linked;
      forall i | 0 <= i < |cache| ensures u.cache[i].holder in u.holders {
        assert cache[i].holder in Abs().holders;
      }
      PutMakesRoom(u, statement, statement.Value(), sql);
      CachePut(sql, statement);
      assert Abs().holders[statement] == old(statement.Value());
    }

    method Mark(statement: PreparedStatement, caching: bool)
      requires statement in all
      modifies this`frames, statement`inCache, statement`inUse
      ensures frames == old(frames) + [M.Frame(statement, false)]
      ensures Holders() == old(Holders())[statement := old(statement.Value()).(inCache := caching || old(statement.inCache), inUse := true)]
    {
      if caching {
        statement.inCache := true;
      }
      statement.inUse := true;
      frames := frames + [M.Frame(statement, false)];
    }

    // ---- Operations ----------------------------------------------------------------------------------------

    /**
     * Obtains a statement for an operation; null when the preparation fails. It must not push a statement out
     * of the cache that an operation found there and still holds: the free list would not survive that.
     */
    method AcquirePreparedStatement(sql: string, outcome: M.Outcome) returns (statement: PreparedStatement?)
      requires Valid() && !M.EvictsHeld(Abs(), sql, outcome)
      modifies this, all
      ensures Valid() && fresh(all - old(all))
      ensures statement == null <==> !M.Hit(old(Abs()), sql) && !outcome.Ready?
      ensures statement != null ==> statement in all && Abs() == M.Acquire(old(Abs()), sql, outcome, statement)
      ensures statement == null ==> Abs() == M.Fail(old(Abs()), sql, outcome)
      ensures lost == old(lost) + if M.Forgets(old(Abs()), sql, outcome) then {old(nextPtr)} else {}
    {
      hide Linked, Inv, M.Touch, M.Detach, M.MakeRoom, M.Install;
      ghost var was := Abs();
      assert lost + {} == lost;
      Surroundings(was, lost);
      statement := CacheGet(sql);
      var skipCache := false;
      if statement != null {
        if !statement.inUse {
          frames := frames + [M.Frame(statement, true)];
          Runs.TakeHitKeeps(was, lost, sql);
          return;
        }
        // The statement is being executed already, so this operation gets a copy that is not cached.
        skipCache := true;
      }
      statement := PrepareStatement(sql, outcome, statement, skipCache, was);
    }

    /** The rest of an acquisition, after the cache had no statement or the `cached` one, which is being executed. */
    method PrepareStatement(sql: string, outcome: M.Outcome, cached: PreparedStatement?, skipCache: bool,
                            ghost was: M.State<PreparedStatement>) returns (statement: PreparedStatement?)
      requires Linked() && Inv(was, lost) && !M.EvictsHeld(was, sql, outcome) && !M.Hit(was, sql)
      requires Abs() == was.(cache := M.Touch(was.cache, sql))
      requires skipCache == M.Recursive(was, sql) && (cached != null <==> skipCache)
      requires cached != null ==> cached in all && (M.MistakesHolder(was, sql) <==> cached.inCache)
      modifies this, all
      ensures Valid() && fresh(all - old(all))
      ensures statement == null <==> !outcome.Ready?
      ensures statement != null ==> statement in all && Abs() == M.TakeNew(was, sql, statement)
      ensures statement == null ==> Abs() == M.Fail(was, sql, outcome)
      ensures lost == old(lost) + if M.Forgets(was, sql, outcome) then {was.nextPtr} else {}
    {
      hide Linked, Inv, M.Touch, M.TakeNew, M.MistakesHolder, M.Recursive;
      assert lost + {} == lost;
      if outcome.Refused? {
        Runs.FailKeeps(was, lost, sql, outcome);
        return null;
      }
      var ptr := nextPtr;
      nextPtr := nextPtr + 1;
      log := log + [M.Prepare(ptr, sql), M.Use(ptr)];
      if outcome.Unreadable? {
        Runs.FailKeeps(was, lost, sql, outcome);
        assert M.MistakesHolder(was, sql) ==> M.Recursive(was, sql) by { NoMistake(was, sql); }
        if cached == null || !cached.inCache {
          log := log + [M.Finalize(ptr)];
        } else {
          lost := lost + {ptr};
        }
        return null;
      }
      statement := FinishPreparing(sql, ptr, skipCache, was);
    }

    method FinishPreparing(sql: string, ptr: nat, skipCache: bool, ghost was: M.State<PreparedStatement>)
      returns (statement: PreparedStatement)
      requires Linked() && Inv(was, lost) && !M.EvictsHeld(was, sql, M.Ready) && !M.Hit(was, sql)
      requires Abs() == M.Prepared(was.(cache := M.Touch(was.cache, sql)), sql)
      requires skipCache == M.Recursive(was, sql) && ptr == was.nextPtr
      modifies this, all
      ensures Valid() && fresh(all - old(all)) && statement in all && lost == old(lost)
      ensures Abs() == M.TakeNew(was, sql, statement)
    {
      hide Linked, Inv, M.Touch, M.Detach, M.MakeRoom, M.Install, M.Recursive;
      TouchApart(was, lost, sql);
      Surroundings(was, lost);
      statement := TakeStatement(sql, ptr, !skipCache && describe(sql).cacheable);
      Runs.TakeNewKeeps(was, lost, sql, statement);
    }

    /** The innermost operation makes a native call on its statement, or executes it unless that is forbidden. */
    method ExecuteStatement(statement: PreparedStatement) returns (executed: bool)
      requires Valid() && frames != [] && M.Top(Abs()) == statement && statement in all
      modifies this`log
      ensures Valid() && Abs() == M.ExecuteTop(old(Abs()))
      ensures executed <==> (onlyReadOnly ==> describe(old(statement.sql.value)).readOnly)
      ensures log == old(log) + if executed then [M.Execute(statement.ptr, onlyReadOnly)] else []
    {
      hide Linked, Inv;
      TopInfo(Abs(), lost);
      Runs.ExecuteKeeps(Abs(), lost);
      if onlyReadOnly && !statement.info.readOnly {
        return false;
      }
      log := log + [M.Execute(statement.ptr, onlyReadOnly)];
      return true;
    }

    /** Ends the innermost operation; `resets` tells whether its statement can be reset. */
    method ReleasePreparedStatement(statement: PreparedStatement, resets: bool)
      requires Valid() && frames != [] && M.Top(Abs()) == statement && statement in all
      requires !M.RemovesHeld(Abs(), resets)
      modifies this`frames, this`log, this`cache, this`pool, this`free, all
      ensures Valid() && Abs() == M.Release(old(Abs()), resets)
    {
      hide Linked, Inv, M.Retire, M.Pop, M.RemoveEntry;
      ghost var was := Abs();
      Runs.ReleaseKeeps(was, lost, resets);
      TopInfo(was, lost);
      StaysApart(was, lost);
      EndUse(statement);
      if statement.inCache {
        log := log + [M.Use(statement.ptr)];
        if !resets {
          OwnEntry(was, lost);
          CacheRemove(statement.sql.value);
        }
      } else {
        FinalizePreparedStatement(statement);
      }
    }

    method EndUse(statement: PreparedStatement)
      requires Linked() && frames != [] && M.Top(Abs()) == statement && statement in all
      modifies this`frames, statement`inUse
      ensures Linked() && Abs() == M.Pop(old(Abs()))
      ensures cache == old(cache) && free == old(free) && statement.Value() == old(statement.Value()).(inUse := false)
    {
      statement.inUse := false;
      frames := frames[..|frames| - 1];
      assert Holders() == old(Holders())[statement := old(statement.Value()).(inUse := false)];
    }

    method CacheRemove(sql: string)
      requires Linked()
      requires var k := M.Find(cache, sql); k < |cache| ==> cache[k].holder in all && cache[k].holder !in free
      modifies this`cache, this`log, this`pool, this`free, all
      ensures Linked() && Abs() == M.RemoveEntry(old(Abs()), sql)
    {
      var k := FindEntry(sql);
      if k < |cache| {
        DropEntry(k);
      }
    }

    /** Drops every entry of the cache. */
    method EvictAll()
      requires Valid() && frames == []
      modifies this`cache, this`log, this`pool, this`free, all
      ensures Valid() && Abs() == M.EvictAll(old(Abs())) && cache == []
    {
      hide Linked, Inv, M.DropEntry, M.EvictAll;
      while cache != []
        invariant Valid() && all == old(all) && lost == old(lost) && frames == old(frames)
        invariant M.EvictAll(Abs()) == M.EvictAll(old(Abs()))
        decreases |cache|
      {
        Surroundings(Abs(), lost);
        DropKeeps(Abs(), lost, 0);
        EvictOne(Abs());
        DropEntry(0);
      }
      EvictNone(Abs());
    }

    /** Closes the connection, which no operation is using: the native handle goes after the last statement. */
    method Dispose()
      requires Valid() && frames == []
      modifies this`cache, this`log, this`pool, this`free, all
      ensures Valid() && Abs() == M.EvictAll(old(Abs()))
      ensures M.Live(log) == lost
    {
      Runs.DisposeFreesAll(Abs(), lost);
      EvictAll();
    }
  }

  lemma TopInfo<H>(s: M.State<H>, lost: set<nat>)
    requires Inv(s, lost) && s.frames != []
    ensures M.Top(s) in s.holders && s.holders[M.Top(s)].sql.Some?
    ensures s.holders[M.Top(s)].info == s.describe(s.holders[M.Top(s)].sql.value)
  {
    hide M.Live;
    Runs.TopIsActive(s, lost);
  }

  lemma EvictOne<H>(s: M.State<H>)
    requires s.cache != [] && s.cache[0].holder in s.holders
    ensures M.EvictAll(s) == M.EvictAll(M.DropEntry(s, 0))
    ensures M.DropEntry(s, 0).frames == s.frames && |M.DropEntry(s, 0).cache| < |s.cache|
  {
  }

  lemma EvictNone<H>(s: M.State<H>)
    requires s.cache == []
    ensures M.EvictAll(s) == s
  {
  }

  lemma StaysApart<H>(s: M.State<H>, lost: set<nat>)
    requires Inv(s, lost) && s.frames != []
    ensures M.Top(s) in s.holders && M.Top(s) !in s.free
  {
    hide M.Live;
    Runs.TopIsActive(s, lost);
  }

  lemma OwnEntry<H>(s: M.State<H>, lost: set<nat>)
    requires Inv(s, lost) && s.frames != [] && s.holders[M.Top(s)].inCache
    ensures s.holders[M.Top(s)].sql.Some?
    ensures var k := M.Find(s.cache, s.holders[M.Top(s)].sql.value); k < |s.cache| && s.cache[k].holder == M.Top(s)
  {
    hide M.Live;
    Runs.TopIsActive(s, lost);
    Runs.CacheHas(s.capacity, s.cache, s.holders, M.Top(s));
  }

  /** What the invariant says about the holders around an operation. */
  lemma Surroundings<H>(s: M.State<H>, lost: set<nat>)
    requires Inv(s, lost)
    ensures 1 <= s.capacity && |s.cache| <= s.capacity
    ensures forall i :: 0 <= i < |s.cache| ==> s.cache[i].holder in s.holders && s.cache[i].holder !in s.free
    ensures s.free != [] ==> s.free[0] in s.holders && !s.holders[s.free[0]].inUse
  {
    hide M.Live;
  }

  lemma TouchApart<H>(s: M.State<H>, lost: set<nat>, sql: string)
    requires Inv(s, lost)
    ensures |M.Touch(s.cache, sql)| <= s.capacity
    ensures var t := M.Touch(s.cache, sql);
      forall i :: 0 <= i < |t| ==> t[i].holder in s.holders && t[i].holder !in s.free
  {
    hide Inv;
    TouchKeeps(s, lost, sql);
    Surroundings(s.(cache := M.Touch(s.cache, sql)), lost);
  }

  ghost function Trimmed<H>(s: M.State<H>): M.State<H> {
    if s.capacity < |s.cache| && s.cache[0].holder in s.holders then M.DropEntry(s, 0) else s
  }

  lemma NoMistake<H>(s: M.State<H>, sql: string)
    ensures M.MistakesHolder(s, sql) ==> M.Recursive(s, sql)
  {
  }

  lemma MarkInstalls<H>(m: M.State<H>, h: H, v: M.Holder, sql: string, caching: bool)
    requires v.sql == Some(sql) && v.info == m.describe(sql) && !v.inCache
    ensures M.Install(m, h, v.ptr, sql, caching) ==
            M.State(m.capacity, m.describe, m.onlyReadOnly, if caching then m.cache + [M.Entry(sql, h)] else m.cache,
                    m.holders[h := v][h := v.(inCache := caching, inUse := true)], m.free,
                    m.frames + [M.Frame(h, false)], m.nextPtr, m.log)
  {
  }

  lemma DetachThenPut<H>(s: M.State<H>, h: H, v: M.Holder)
    requires h == M.NextHolder(s, h) && (s.free == [] ==> h !in s.holders)
    ensures var u := M.Detach(s, h);
      h !in u.holders && u.holders[h := v] == s.holders[h := v] && u == s.(holders := u.holders, free := if s.free == [] then [] else s.free[1..])
  {
  }

  /** Dropping the eldest entry after adding one is making room before adding it. */
  lemma PutMakesRoom<H>(u: M.State<H>, h: H, v: M.Holder, sql: string)
    requires 1 <= u.capacity && |u.cache| <= u.capacity && h !in u.holders
    requires forall i :: 0 <= i < |u.cache| ==> u.cache[i].holder in u.holders
    ensures var put := Trimmed(u.(holders := u.holders[h := v], cache := u.cache + [M.Entry(sql, h)]));
      put == M.MakeRoom(u).(holders := M.MakeRoom(u).holders[h := v], cache := M.MakeRoom(u).cache + [M.Entry(sql, h)])
  {
    if |u.cache| == u.capacity {
      RemovedElsewhere(u.(cache := u.cache[1..]), u.cache[0].holder, h, v, sql);
      assert Without(u.cache + [M.Entry(sql, h)], 0) == u.cache[1..] + [M.Entry(sql, h)];
      assert Without(u.cache, 0) == u.cache[1..];
    }
  }

  lemma RemovedElsewhere<H>(u: M.State<H>, e: H, h: H, v: M.Holder, sql: string)
    requires e in u.holders && h !in u.holders
    ensures M.EntryRemoved(u.(holders := u.holders[h := v], cache := u.cache + [M.Entry(sql, h)]), e) ==
            M.EntryRemoved(u, e).(holders := M.EntryRemoved(u, e).holders[h := v], cache := u.cache + [M.Entry(sql, h)])
  {
    var gone := u.holders[e].(inCache := false);
    assert u.holders[h := v][e := gone] == u.holders[e := gone][h := v];
    var freed := gone.(sql := None);
    assert u.holders[h := v][e := gone][e := freed] == u.holders[e := gone][e := freed][h := v];
  }
}
