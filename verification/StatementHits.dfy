/**
 * A statement found in the cache is not marked as being executed, so operations nested inside the one
 * that found it can free it: exactly when they do.
 */
module StatementHits {
  import opened Options
  import opened Sequences
  import opened StatementModel
  import opened StatementLives
  import opened StatementRuns

  /** The state in which an operation that found `h` in the cache is in progress as well. */
  function Under<H(==)>(s: State<H>, h: H): State<H> {
    s.(frames := s.frames + [Frame(h, true)])
  }

  /** A complete operation on `sql`. */
  function Op<H(==)>(s: State<H>, sql: string, spare: H): State<H> {
    var t := Acquire(s, sql, Ready, spare);
    if t.frames != [] && Top(t) in t.holders then Release(t, true) else t
  }

  function OpRun<H>(sqls: seq<string>, spares: seq<H>): seq<Step<H>>
    requires |sqls| == |spares|
  {
    if sqls == [] then []
    else [AcquireStep(sqls[0], Ready, spares[0]), ReleaseStep(true)] + OpRun(sqls[1..], spares[1..])
  }

  ghost predicate NewCacheable<H>(s: State<H>, sqls: seq<string>) {
    && (forall i :: 0 <= i < |sqls| ==> Find(s.cache, sqls[i]) == |s.cache| && s.describe(sqls[i]).cacheable)
    && (forall i, j :: 0 <= i < j < |sqls| ==> sqls[i] != sqls[j])
  }

  /** Distinct holders that have not been allocated yet. */
  ghost predicate Unallocated<H>(s: State<H>, spares: seq<H>) {
    && (forall i :: 0 <= i < |spares| ==> spares[i] !in s.holders)
    && (forall i, j :: 0 <= i < j < |spares| ==> spares[i] != spares[j])
  }

  ghost predicate IdleAt<H>(s: State<H>, k: nat) {
    k < |s.cache| && s.cache[k].holder in s.holders && !s.holders[s.cache[k].holder].inUse
  }

  /** No operation in progress found its statement in the cache. */
  ghost predicate NoHits<H>(s: State<H>) {
    forall i :: 0 <= i < |s.frames| ==> !s.frames[i].hit
  }

  // ---- One nested operation --------------------------------------------------------------------------------

  /** The outer operation makes no difference to the nested one. */
  lemma OpCommutes<H>(s: State<H>, lost: set<nat>, h: H, sql: string, spare: H)
    requires Inv(s, lost) && Find(s.cache, sql) == |s.cache|
    ensures Acquire(Under(s, h), sql, Ready, spare).frames != []
    ensures Top(Acquire(Under(s, h), sql, Ready, spare)) in Acquire(Under(s, h), sql, Ready, spare).holders
    ensures Release(Acquire(Under(s, h), sql, Ready, spare), true) == Under(Op(s, sql, spare), h)
  {
    hide Inv, MakeRoom, Detach, NextHolder, Touch;
    var u := Detach(Prepared(s.(cache := Touch(s.cache, sql)), sql), spare);
    RoomFrames(u, h);
    DetachFramesToo(Prepared(s.(cache := Touch(s.cache, sql)), sql), h, spare);
    var t, n := Acquire(s, sql, Ready, spare), Acquire(Under(s, h), sql, Ready, spare);
    assert n == t.(frames := s.frames + [Frame(h, true)] + [Frame(NextHolder(s, spare), false)]) by {
      NextHolderFrames(s, h, spare);
    }
    assert t.frames[..|t.frames| - 1] == s.frames;
    assert n.frames[..|n.frames| - 1] == s.frames + [Frame(h, true)];
  }

  lemma RoomFrames<H>(s: State<H>, h: H)
    ensures MakeRoom(Under(s, h)) == Under(MakeRoom(s), h)
    ensures MakeRoom(s).frames == s.frames
  {
  }

  lemma DetachFramesToo<H>(s: State<H>, h: H, spare: H)
    ensures Detach(Under(s, h), spare) == Under(Detach(s, spare), h)
    ensures Detach(s, spare).frames == s.frames
  {
  }

  lemma NextHolderFrames<H>(s: State<H>, h: H, spare: H)
    ensures NextHolder(Under(s, h), spare) == NextHolder(s, spare)
  {
  }

  lemma OpKeeps<H>(s: State<H>, lost: set<nat>, sql: string, spare: H)
    requires Inv(s, lost) && NoHits(s) && spare !in s.holders && Find(s.cache, sql) == |s.cache|
    ensures Inv(Op(s, sql, spare), lost)
    ensures NoHits(Op(s, sql, spare)) && Op(s, sql, spare).frames == s.frames
  {
    hide Inv, Acquire;
    AcquireFrames(s, lost, sql, Ready, spare);
    AcquireKeeps(s, lost, sql, Ready, spare);
    assert lost + {} == lost;
    ReleaseKeeps(Acquire(s, sql, Ready, spare), lost, true);
  }

  /** Every cached holder but one that had to make room is as it was. */
  ghost predicate OthersStay<H>(s: State<H>, t: State<H>) {
    forall k :: 0 <= k < |s.cache| && (|s.cache| == s.capacity ==> 0 < k) && s.cache[k].holder in s.holders ==>
      s.cache[k].holder in t.holders && t.holders[s.cache[k].holder] == s.holders[s.cache[k].holder]
  }

  /** How adding an entry for `sql` changes the cache and the log. */
  ghost predicate OpEffect<H>(s: State<H>, t: State<H>, sql: string, first: H) {
    && t.capacity == s.capacity && t.describe == s.describe
    && t.cache == (if |s.cache| < s.capacity then s.cache else if s.cache == [] then [] else s.cache[1..]) + [Entry(sql, first)]
    && OthersStay(s, t)
    && s.log <= t.log
    && (|s.cache| == s.capacity && IdleAt(s, 0) ==> Finalize(s.holders[s.cache[0].holder].ptr) in t.log)
  }

  lemma OpShape<H>(s: State<H>, lost: set<nat>, sql: string, spare: H)
    requires Inv(s, lost) && spare !in s.holders
    requires Find(s.cache, sql) == |s.cache| && s.describe(sql).cacheable
    ensures OpEffect(s, Op(s, sql, spare), sql, NextHolder(s, spare))
  {
    hide Inv, Touch, Find, Op, MakeRoom, Detach, NextHolder;
    var first := NextHolder(s, spare);
    var r := Prepared(s, sql);
    var u := Detach(r, spare);
    PreparedKeeps(s, lost, sql);
    DetachKeeps(r, lost + {s.nextPtr}, spare);
    DetachShape(s, lost, sql, spare);
    RoomShape(u, lost + {s.nextPtr});
    var m := MakeRoom(u);
    assert s.log <= r.log;
    CacheBound(s, lost);
    OpIs(s, sql, spare, m);
    hide Prepared;
    var t := Op(s, sql, spare);
    assert OthersStay(u, m);
    forall k | 0 <= k < |s.cache| && (|s.cache| == s.capacity ==> 0 < k) && s.cache[k].holder in s.holders
      ensures s.cache[k].holder in t.holders && t.holders[s.cache[k].holder] == s.holders[s.cache[k].holder]
    {
      assert u.cache[k] == s.cache[k];
    }
  }

  lemma OpIs<H>(s: State<H>, sql: string, spare: H, m: State<H>)
    requires Find(s.cache, sql) == |s.cache| && s.describe(sql).cacheable
    requires m == MakeRoom(Detach(Prepared(s, sql), spare))
    ensures var t, first := Op(s, sql, spare), NextHolder(s, spare);
      && t.capacity == m.capacity && t.describe == m.describe
      && t.cache == m.cache + [Entry(sql, first)]
      && t.log == m.log + [Use(s.nextPtr)]
      && (forall h :: h in m.holders && h != first ==> h in t.holders && t.holders[h] == m.holders[h])
      && first in t.holders && t.holders[first] == Holder(Some(sql), s.nextPtr, m.describe(sql), true, false)
  {
    hide Touch, MakeRoom, Detach, NextHolder;
    FindInTouched(s.cache, sql);
    assert s.(cache := Touch(s.cache, sql)) == s;
  }

  lemma DetachShape<H>(s: State<H>, lost: set<nat>, sql: string, spare: H)
    requires Inv(s, lost) && spare !in s.holders
    ensures var u := Detach(Prepared(s, sql), spare);
      && u.capacity == s.capacity && u.cache == s.cache && u.log == Prepared(s, sql).log && u.describe == s.describe
      && NextHolder(Prepared(s, sql), spare) == NextHolder(s, spare)
      && forall k :: 0 <= k < |s.cache| ==>
           && s.cache[k].holder != NextHolder(s, spare) && s.cache[k].holder in u.holders
           && u.holders[s.cache[k].holder] == s.holders[s.cache[k].holder]
  {
    hide Live, Framed, Backed, Truthful, Guarded, Numbered;
  }

  lemma RoomShape<H>(s: State<H>, lost: set<nat>)
    requires Inv(s, lost)
    ensures var m := MakeRoom(s);
      && m.capacity == s.capacity && m.describe == s.describe && s.log <= m.log
      && m.cache == (if |s.cache| < s.capacity then s.cache else s.cache[1..])
      && OthersStay(s, m)
      && (|s.cache| == s.capacity && IdleAt(s, 0) ==> Finalize(s.holders[s.cache[0].holder].ptr) in m.log)
  {
    hide Live, Framed, Freed, Backed, Truthful, Guarded, Numbered;
    if |s.cache| == s.capacity {
      assert Without(s.cache, 0) == s.cache[1..];
      forall k | 0 < k < |s.cache| ensures s.cache[k].holder != s.cache[0].holder {
        assert s.cache[k].sql != s.cache[0].sql;
      }
    }
  }

  // ---- The next operation ----------------------------------------------------------------------------------

  /**
   * What the cache is for: after an operation on SQL that was not cached, the next operation on it uses the same
   * native statement and prepares nothing if the SQL is cacheable; if it is not, that statement is finalized
   * when the operation ends.
   */
  lemma ReusedIffCacheable<H>(s: State<H>, lost: set<nat>, sql: string, spare: H, outcome: Outcome, another: H)
    requires Inv(s, lost) && spare !in s.holders && Find(s.cache, sql) == |s.cache|
    ensures var t := Op(s, sql, spare);
      && (Hit(t, sql) <==> s.describe(sql).cacheable)
      && (s.describe(sql).cacheable ==>
            var u := Acquire(t, sql, outcome, another);
            && u.log == t.log && u.frames != [] && Top(u) in u.holders
            && u.holders[Top(u)].ptr == s.nextPtr && u.holders[Top(u)].sql == Some(sql))
      && (!s.describe(sql).cacheable ==> s.nextPtr !in Live(t.log))
  {
    hide Inv, Touch, MakeRoom, Detach, NextHolder, Live, Prepared;
    FindInTouched(s.cache, sql);
    if s.describe(sql).cacheable {
      OpShape(s, lost, sql, spare);
      var m := MakeRoom(Detach(Prepared(s, sql), spare));
      OpIs(s, sql, spare, m);
      hide Op;
      CacheBound(s, lost);
      LastIsFound(Op(s, sql, spare).cache, sql);
    } else {
      UncachedOpIs(s, sql, spare);
      FinalizedIsDead(s.log + [Prepare(s.nextPtr, sql), Use(s.nextPtr)], s.nextPtr);
    }
  }

  lemma FinalizedIsDead(log: seq<Call>, ptr: nat)
    ensures ptr !in Live(log + [Finalize(ptr)])
  {
    assert (log + [Finalize(ptr)])[..|log|] == log;
  }

  lemma UncachedOpIs<H>(s: State<H>, sql: string, spare: H)
    requires Find(s.cache, sql) == |s.cache| && !s.describe(sql).cacheable
    ensures var t := Op(s, sql, spare);
      t.cache == s.cache && t.log == s.log + [Prepare(s.nextPtr, sql), Use(s.nextPtr)] + [Finalize(s.nextPtr)]
  {
    hide Touch, NextHolder;
    FindInTouched(s.cache, sql);
    assert s.(cache := Touch(s.cache, sql)) == s;
  }

  // ---- Many nested operations ---------------------------------------------------------------------------

  /** A finalized statement stays so. */
  lemma StaysFinalized<H>(s: State<H>, lost: set<nat>, p: nat)
    requires Inv(s, lost) && Finalize(p) in s.log
    ensures p !in Live(s.log)
  {
    hide Live;
    LiveMeans(s.log, p);
  }

  lemma OpRunUnfolds<H>(s: State<H>, lost: set<nat>, h: H, sqls: seq<string>, spares: seq<H>)
    requires Inv(s, lost) && |sqls| == |spares| > 0 && Find(s.cache, sqls[0]) == |s.cache| && spares[0] !in s.holders
    requires Legal(Under(Op(s, sqls[0], spares[0]), h), OpRun(sqls[1..], spares[1..]))
    ensures Legal(Under(s, h), OpRun(sqls, spares))
    ensures After(Under(s, h), OpRun(sqls, spares)) == After(Under(Op(s, sqls[0], spares[0]), h), OpRun(sqls[1..], spares[1..]))
  {
    hide Inv, Acquire, Release, Op;
    OpCommutes(s, lost, h, sqls[0], spares[0]);
    var run := OpRun(sqls, spares);
    assert run[1..][1..] == OpRun(sqls[1..], spares[1..]);
    var t := Acquire(Under(s, h), sqls[0], Ready, spares[0]);
    assert Next(Under(s, h), run[0]) == t;
    assert run[1..][0] == Step<H>.ReleaseStep(true);
    assert Next(t, run[1..][0]) == Under(Op(s, sqls[0], spares[0]), h);
    assert Legal(t, run[1..]);
  }

  /** An operation uses up at most the holder offered to it. */
  lemma SparesRemain<H>(s: State<H>, lost: set<nat>, sqls: seq<string>, spares: seq<H>)
    requires Inv(s, lost) && Unallocated(s, spares) && |sqls| == |spares| > 0 && Find(s.cache, sqls[0]) == |s.cache|
    ensures Unallocated(Op(s, sqls[0], spares[0]), spares[1..])
  {
    hide Live, Framed, Backed, Truthful, Guarded, Numbered, TakeNew, Release;
    var t := Acquire(s, sqls[0], Ready, spares[0]);
    TakeNewHolders(s, sqls[0], spares[0]);
    if t.frames != [] && Top(t) in t.holders {
      ReleaseHolders(t);
    }
  }

  lemma TakeNewHolders<H>(s: State<H>, sql: string, spare: H)
    ensures forall h :: h in TakeNew(s, sql, spare).holders ==> h in s.holders || h == NextHolder(s, spare)
  {
    hide Touch, Recursive;
  }

  lemma ReleaseHolders<H>(s: State<H>)
    requires s.frames != [] && Top(s) in s.holders
    ensures forall h :: h in Release(s, true).holders ==> h in s.holders
  {
  }

  lemma NewCacheableTail<H>(s: State<H>, t: State<H>, sqls: seq<string>, h: H)
    requires NewCacheable(s, sqls) && sqls != [] && t.describe == s.describe
    requires t.cache == s.cache + [Entry(sqls[0], h)] || (s.cache != [] && t.cache == s.cache[1..] + [Entry(sqls[0], h)])
    ensures NewCacheable(t, sqls[1..])
  {
    forall i | 0 <= i < |sqls[1..]| ensures Find(t.cache, sqls[1..][i]) == |t.cache| {
      assert sqls[1..][i] == sqls[i + 1];
      assert sqls[0] != sqls[i + 1];
      assert Find(s.cache, sqls[i + 1]) == |s.cache|;
    }
  }

  /**
   * An idle cached statement survives that many operations on distinct new cacheable SQL as there are
   * entries less recently used than its own and free places in the cache; one more finalizes it.
   */
  lemma {:induction false} SurvivesIff<H>(s: State<H>, lost: set<nat>, k: nat, sqls: seq<string>, spares: seq<H>)
    requires Inv(s, lost) && NoHits(s) && IdleAt(s, k) && |sqls| == |spares|
    requires NewCacheable(s, sqls) && Unallocated(s, spares)
    ensures Legal(Under(s, s.cache[k].holder), OpRun(sqls, spares))
    ensures s.holders[s.cache[k].holder].ptr in Live(After(Under(s, s.cache[k].holder), OpRun(sqls, spares)).log) <==>
            |sqls| <= k + s.capacity - |s.cache|
    decreases |sqls|
  {
    hide Inv, Live, Legal, After, Op, NewCacheable;
    var h, p := s.cache[k].holder, s.holders[s.cache[k].holder].ptr;
    if sqls == [] {
      IdleIsLive(s, lost, k);
      CacheBound(s, lost);
      NoSteps(Under(s, h));
    } else {
      FirstIsNew(s, sqls);
      SparesRemain(s, lost, sqls, spares);
      var t := Op(s, sqls[0], spares[0]);
      OpKeeps(s, lost, sqls[0], spares[0]);
      OpShape(s, lost, sqls[0], spares[0]);
      CacheBound(s, lost);
      NewCacheableTail(s, t, sqls, NextHolder(s, spares[0]));
      if |s.cache| < s.capacity {
        assert t.cache[k] == s.cache[k];
        SurvivesIff(t, lost, k, sqls[1..], spares[1..]);
      } else if k > 0 {
        assert t.cache[k - 1] == s.cache[k];
        SurvivesIff(t, lost, k - 1, sqls[1..], spares[1..]);
      } else {
        GoneForGood(t, lost, p, h, sqls[1..], spares[1..]);
      }
      OpRunUnfolds(s, lost, h, sqls, spares);
    }
  }

  lemma FirstIsNew<H>(s: State<H>, sqls: seq<string>)
    requires NewCacheable(s, sqls) && sqls != []
    ensures Find(s.cache, sqls[0]) == |s.cache| && s.describe(sqls[0]).cacheable
  {
  }

  lemma NoSteps<H>(s: State<H>)
    ensures Legal(s, []) && After(s, []) == s
  {
  }

  lemma CacheBound<H>(s: State<H>, lost: set<nat>)
    requires Inv(s, lost)
    ensures 1 <= s.capacity && |s.cache| <= s.capacity
  {
  }

  lemma IdleIsLive<H>(s: State<H>, lost: set<nat>, k: nat)
    requires Inv(s, lost) && IdleAt(s, k)
    ensures s.holders[s.cache[k].holder].ptr in Live(s.log)
  {
    CarriedIsLive(s, lost, s.cache[k].holder);
  }

  lemma {:induction false} GoneForGood<H>(s: State<H>, lost: set<nat>, p: nat, h: H, sqls: seq<string>, spares: seq<H>)
    requires Inv(s, lost) && NoHits(s) && |sqls| == |spares| && NewCacheable(s, sqls) && Unallocated(s, spares)
    requires Finalize(p) in s.log
    ensures Legal(Under(s, h), OpRun(sqls, spares))
    ensures p !in Live(After(Under(s, h), OpRun(sqls, spares)).log)
    decreases |sqls|
  {
    hide Inv, Live, Legal, After, Op, NewCacheable;
    if sqls == [] {
      StaysFinalized(s, lost, p);
      NoSteps(Under(s, h));
    } else {
      FirstIsNew(s, sqls);
      SparesRemain(s, lost, sqls, spares);
      var t := Op(s, sqls[0], spares[0]);
      OpKeeps(s, lost, sqls[0], spares[0]);
      OpShape(s, lost, sqls[0], spares[0]);
      CacheBound(s, lost);
      NewCacheableTail(s, t, sqls, NextHolder(s, spares[0]));
      GoneForGood(t, lost, p, h, sqls[1..], spares[1..]);
      OpRunUnfolds(s, lost, h, sqls, spares);
    }
  }

  /**
   * A statement found in the cache survives nested operations on distinct new cacheable SQL exactly when
   * there are fewer of them than the cache has places.
   */
  lemma HitSurvivesIff<H>(s: State<H>, lost: set<nat>, sql: string, spare: H, sqls: seq<string>, spares: seq<H>)
    requires Inv(s, lost) && NoHits(s) && Hit(s, sql) && |sqls| == |spares| && NewCacheable(s, sqls) && Unallocated(s, spares)
    ensures Legal(Acquire(s, sql, Ready, spare), OpRun(sqls, spares))
    ensures s.holders[s.cache[Find(s.cache, sql)].holder].ptr in Live(After(Acquire(s, sql, Ready, spare), OpRun(sqls, spares)).log)
            <==> |sqls| < s.capacity
  {
    hide Legal, After, Live, Freed, Framed, Backed, Truthful, Guarded, Numbered, Touch;
    var t := s.(cache := Touch(s.cache, sql));
    FindInTouched(s.cache, sql);
    TouchKeeps(s, lost, sql);
    var k := |s.cache| - 1;
    assert Under(t, t.cache[k].holder) == Acquire(s, sql, Ready, spare);
    forall i | 0 <= i < |sqls| ensures Find(t.cache, sqls[i]) == |t.cache| {
      TouchMembers(s.cache, sql);
    }
    SurvivesIff(t, lost, k, sqls, spares);
  }

  /**
   * An operation nested inside a cache hit that asks for the same SQL shares the outer operation's statement,
   * and frees it exactly when it cannot reset it.
   */
  lemma SharedStatementSurvivesIff<H>(s: State<H>, lost: set<nat>, sql: string, spare: H, resets: bool)
    requires Inv(s, lost) && NoHits(s) && Hit(s, sql)
    ensures var outer := Acquire(s, sql, Ready, spare);
      var inner := Acquire(outer, sql, Ready, spare);
      && Top(inner) == Top(outer) && Top(inner) in inner.holders
      && (outer.holders[Top(outer)].ptr in Live(Release(inner, resets).log) <==> resets)
  {
    hide Inv, Live, Touch, Release, WellUsed, Recursive;
    var outer := Acquire(s, sql, Ready, spare);
    var h := s.cache[Find(s.cache, sql)].holder;
    TouchedAgain(s, lost, sql);
    var p := s.holders[h].ptr;
    IdleIsLive(s, lost, Find(s.cache, sql));
    assert Hit(outer, sql) by { StillIdle(s, sql); }
    var inner := Acquire(outer, sql, Ready, spare);
    ReleaseLog(inner, resets, sql);
    LogIsWellUsed(s, lost);
    LogOne(s.log, Use(p));
    LogOne(s.log + [Use(p)], Finalize(p));
    assert s.log + [Use(p)] + [] == s.log + [Use(p)];
  }

  lemma TouchedAgain<H>(s: State<H>, lost: set<nat>, sql: string)
    requires Inv(s, lost) && Hit(s, sql)
    ensures var h, t := s.cache[Find(s.cache, sql)].holder, Touch(s.cache, sql);
      && IdleAt(s, Find(s.cache, sql)) && s.holders[h].inCache && s.holders[h].sql == Some(sql)
      && Find(t, sql) == |t| - 1 && t[|t| - 1].holder == h && Touch(t, sql) == t
  {
    hide Live, Freed, Framed, Backed, Truthful, Guarded, Numbered;
    var k, n, t := Find(s.cache, sql), |s.cache| - 1, Touch(s.cache, sql);
    FindInTouched(s.cache, sql);
    forall i | 0 <= i < n ensures t[i].sql != sql {
      assert t[i] == s.cache[if i < k then i else i + 1];
    }
    hide Cached, Touch, Find;
    LastIsFound(t, sql);
  }

  lemma LastIsFound<H>(cache: seq<Entry<H>>, sql: string)
    requires cache != [] && cache[|cache| - 1].sql == sql
    requires forall i :: 0 <= i < |cache| - 1 ==> cache[i].sql != sql
    ensures Find(cache, sql) == |cache| - 1 && Touch(cache, sql) == cache
  {
    hide Find;
    assert Find(cache, sql) == |cache| - 1;
  }

  lemma StillIdle<H>(s: State<H>, sql: string)
    requires Find(s.cache, sql) < |s.cache| && IdleAt(s, Find(s.cache, sql))
    requires var t := Touch(s.cache, sql); Find(t, sql) == |t| - 1 && t[|t| - 1].holder == s.cache[Find(s.cache, sql)].holder
    ensures Hit(Under(s.(cache := Touch(s.cache, sql)), s.cache[Find(s.cache, sql)].holder), sql)
  {
  }

  lemma LogIsWellUsed<H>(s: State<H>, lost: set<nat>)
    requires Inv(s, lost)
    ensures WellUsed(s.log)
  {
  }

  // ---- A run that goes wrong ------------------------------------------------------------------------------

  /** A state of a connection whose cache has one place and whose statements are all cacheable. */
  function Small(cache: seq<Entry<nat>>, holders: map<nat, Holder>, free: seq<nat>, frames: seq<Frame<nat>>, nextPtr: nat, log: seq<Call>): State<nat> {
    State(1, (sql: string) => Info(true, true), false, cache, holders, free, frames, nextPtr, log)
  }

  function Active(sql: string, ptr: nat, inCache: bool, inUse: bool): Holder {
    Holder(Some(sql), ptr, Info(true, true), inCache, inUse)
  }

  const FIRST: seq<Call> := [Prepare(0, "a"), Use(0), Use(0)]
  const SECOND: seq<Call> := FIRST + [Prepare(1, "b"), Use(1), Finalize(0)]

  lemma FirstAcquire()
    ensures Acquire(Small([], map[], [], [], 0, []), "a", Ready, 0) ==
      Small([Entry("a", 0)], map[0 := Active("a", 0, true, true)], [], [Frame(0, false)], 1, [Prepare(0, "a"), Use(0)])
  {
  }

  lemma FirstRelease()
    ensures var t := Small([Entry("a", 0)], map[0 := Active("a", 0, true, true)], [], [Frame(0, false)], 1, [Prepare(0, "a"), Use(0)]);
      Release(t, true) == Small([Entry("a", 0)], map[0 := Active("a", 0, true, false)], [], [], 1, FIRST)
  {
  }

  lemma OuterHit()
    ensures var s := Small([Entry("a", 0)], map[0 := Active("a", 0, true, false)], [], [], 1, FIRST);
      Acquire(s, "a", Ready, 1) == s.(frames := [Frame(0, true)])
  {
  }

  lemma NestedMiss()
    ensures var s := Small([Entry("a", 0)], map[0 := Active("a", 0, true, false)], [], [Frame(0, true)], 1, FIRST);
      Acquire(s, "b", Ready, 1) ==
      Small([Entry("b", 1)], map[0 := Active("a", 0, false, false).(sql := None), 1 := Active("b", 1, true, true)], [0],
            [Frame(0, true), Frame(1, false)], 2, SECOND)
  {
    var s := Small([Entry("a", 0)], map[0 := Active("a", 0, true, false)], [], [Frame(0, true)], 1, FIRST);
    assert "a"[0] != "b"[0];
    assert Find(s.cache, "b") == 1;
  }

  lemma BothReleases()
    ensures var s := Small([Entry("b", 1)], map[0 := Active("a", 0, false, false).(sql := None), 1 := Active("b", 1, true, true)], [0],
                           [Frame(0, true), Frame(1, false)], 2, SECOND);
      var t := Release(s, true);
      t == s.(holders := s.holders[1 := Active("b", 1, true, false)], frames := [Frame(0, true)], log := SECOND + [Use(1)]) &&
      Release(t, true).log == SECOND + [Use(1), Finalize(0)]
  {
  }

  /**
   * With a cache of one place: an operation finds its statement in the cache, runs a nested operation on
   * other SQL, and then finalizes a statement that is finalized already.
   */
  lemma NestedUnderHitMisuses()
    ensures var run := [AcquireStep("a", Ready, 0), ReleaseStep(true), AcquireStep("a", Ready, 1),
                        AcquireStep("b", Ready, 1), ReleaseStep(true), ReleaseStep(true)];
      var s := Small([], map[], [], [], 0, []);
      Legal(s, run) && After(s, run).log == SECOND + [Use(1), Finalize(0)]
    ensures !WellUsed(SECOND + [Use(1), Finalize(0)])
  {
    hide Acquire, Release;
    FirstAcquire();
    FirstRelease();
    OuterHit();
    NestedMiss();
    BothReleases();
    var log := SECOND + [Use(1), Finalize(0)];
    if WellUsed(log) {
      NothingAfterFinalize(log, 5, 7);
    }
  }

  // ---- A statement that is forgotten ----------------------------------------------------------------------------

  /** An operation on `sql` runs another one on the same SQL, whose copy is prepared but cannot be looked at. */
  function Forgetting(sql: string): seq<Step<nat>> {
    [AcquireStep(sql, Ready, 0), AcquireStep(sql, Unreadable, 1), ReleaseStep(true), DisposeStep]
  }

  /** The connection while the outer operation executes. */
  function Executing(capacity: nat, describe: string -> Info, sql: string): State<nat> {
    State(capacity, describe, false, [Entry(sql, 0)], map[0 := Holder(Some(sql), 0, describe(sql), true, true)], [],
          [Frame(0, false)], 1, [Prepare(0, sql), Use(0)])
  }

  lemma OuterExecutes(capacity: nat, describe: string -> Info, sql: string)
    requires 1 <= capacity && describe(sql).cacheable
    ensures Acquire(Begin<nat>(capacity, describe), sql, Ready, 0) == Executing(capacity, describe, sql)
  {
  }

  lemma CopyFails(capacity: nat, describe: string -> Info, sql: string)
    ensures var s := Executing(capacity, describe, sql);
      && Forgets(s, sql, Unreadable)
      && Acquire(s, sql, Unreadable, 1) == s.(nextPtr := 2, log := s.log + [Prepare(1, sql), Use(1)])
  {
    var s := Executing(capacity, describe, sql);
    assert Find(s.cache, sql) == 0;
    assert Touch(s.cache, sql) == s.cache;
  }

  /**
   * If looking at a copy can fail at all, then for every cache and every cacheable SQL there is a run that frees
   * nothing held and still leaves a native statement behind when the connection is disposed of.
   */
  lemma CopyIsForgotten(capacity: nat, describe: string -> Info, sql: string)
    requires 1 <= capacity && describe(sql).cacheable
    ensures var s, run := Begin<nat>(capacity, describe), Forgetting(sql);
      && Legal(s, run) && Spared(s, run) && Lost(s, run) == {1}
      && After(s, run).frames == [] && Live(After(s, run).log) == {1}
  {
    hide Acquire, Release, EvictAll, Live, Inv, Forgets, EvictsHeld;
    var s, run := Begin<nat>(capacity, describe), Forgetting(sql);
    OuterExecutes(capacity, describe, sql);
    CopyFails(capacity, describe, sql);
    var s1 := Executing(capacity, describe, sql);
    var s2 := s1.(nextPtr := 2, log := s1.log + [Prepare(1, sql), Use(1)]);
    FreesNothing(s, sql, Ready);
    FreesNothing(s1, sql, Unreadable);
    ReadyForgetsNothing(s, sql);
    var s3 := Release(s2, true);
    ReleaseFrames(s2);
    EvictAllConstants(s3);
    assert run[1..][1..][1..][1..] == [];
    assert Legal(s3, run[1..][1..][1..]) && Spared(s3, run[1..][1..][1..]) && Lost(s3, run[1..][1..][1..]) == {};
    assert After(s3, run[1..][1..][1..]) == EvictAll(s3);
    assert Legal(s2, run[1..][1..]) && Spared(s2, run[1..][1..]) && Lost(s2, run[1..][1..]) == {};
    assert After(s2, run[1..][1..]) == EvictAll(s3);
    assert Legal(s1, run[1..]) && Spared(s1, run[1..]) && Lost(s1, run[1..]) == {1};
    assert After(s1, run[1..]) == EvictAll(s3);
    var none: set<nat> := {};
    assert none + none == none && none + {1} == {1};
    BeginHasInv<nat>(capacity, describe);
    NextKeeps(s, {}, run[0]);
    NextKeeps(s1, {}, run[1]);
    NextKeeps(s2, {1}, run[2]);
    DisposeFreesAll(s3, {1});
  }

  lemma FreesNothing(s: State<nat>, sql: string, outcome: Outcome)
    requires s.frames == [] || !outcome.Ready?
    ensures !EvictsHeld(s, sql, outcome)
  {
  }

  lemma ReadyForgetsNothing(s: State<nat>, sql: string)
    ensures !Forgets(s, sql, Ready)
  {
  }

  lemma ReleaseFrames(s: State<nat>)
    requires |s.frames| == 1 && Top(s) in s.holders
    ensures Release(s, true).frames == [] && !RemovesHeld(s, true)
  {
  }
}
