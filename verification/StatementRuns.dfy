/** The lifetime of prepared statements over whole runs of nested operations. */
module StatementRuns {
  import opened Options
  import opened StatementModel
  import opened StatementLives

  // ---- One step -----------------------------------------------------------------------------------------

  lemma NextIsNotLost<H>(s: State<H>, lost: set<nat>)
    requires Inv(s, lost)
    ensures s.nextPtr !in lost
  {
    hide Live;
    NextIsNew(s.nextPtr, s.log);
  }

  lemma HitKeeps<H>(s: State<H>, lost: set<nat>, k: nat)
    requires Inv(s, lost)
    requires k < |s.cache| && !s.holders[s.cache[k].holder].inUse
    ensures Inv(s.(frames := s.frames + [Frame(s.cache[k].holder, true)]), lost)
  {
    hide Live, Freed, Backed, Truthful, Guarded, Numbered;
    var more := s.frames + [Frame(s.cache[k].holder, true)];
    forall h | h in s.holders && s.holders[h].inUse ensures Held(more, h) {
      assert Held(s.frames, h);
      var i :| 0 <= i < |s.frames| && s.frames[i].holder == h;
      assert more[i].holder == h;
    }
  }

  lemma FindInTouched<H>(cache: seq<Entry<H>>, sql: string)
    ensures Find(cache, sql) == |cache| ==> Touch(cache, sql) == cache
    ensures |Touch(cache, sql)| == |cache|
    ensures Find(cache, sql) < |cache| ==> Touch(cache, sql)[|cache| - 1] == cache[Find(cache, sql)]
  {
  }

  lemma MakeRoomKeeps<H>(s: State<H>, lost: set<nat>)
    requires Inv(s, lost) && (s.capacity <= |s.cache| ==> !HeldByHit(s.frames, s.cache[0].holder))
    ensures Inv(MakeRoom(s), lost)
    ensures |MakeRoom(s).cache| < s.capacity
    ensures MakeRoom(s).frames == s.frames && MakeRoom(s).capacity == s.capacity && MakeRoom(s).describe == s.describe
    ensures forall h :: h in MakeRoom(s).holders <==> h in s.holders
    ensures forall c :: c in s.log ==> c in MakeRoom(s).log
    ensures forall i :: 0 <= i < |MakeRoom(s).cache| ==> MakeRoom(s).cache[i] in s.cache
  {
    hide Live, Freed, Framed, Backed, Truthful, Guarded, Numbered;
    if s.capacity <= |s.cache| {
      DropKeeps(s, lost, 0);
    }
  }

  lemma ReadyKeeps<H>(s: State<H>, lost: set<nat>, p: nat, sql: string, caching: bool, spare: H)
    requires Inv(s, lost + {p}) && p !in lost && (s.free == [] ==> spare !in s.holders)
    requires Prepare(p, sql) in s.log
    requires caching ==> Find(s.cache, sql) == |s.cache|
    requires caching && s.capacity <= |s.cache| ==> !HeldByHit(s.frames, s.cache[0].holder)
    ensures var u := Detach(s, spare);
      Inv(Install(if caching then MakeRoom(u) else u, NextHolder(s, spare), p, sql, caching), lost)
  {
    hide Inv, Install, MakeRoom;
    var u := Detach(s, spare);
    DetachKeeps(s, lost + {p}, spare);
    if caching {
      var m := MakeRoom(u);
      MakeRoomKeeps(u, lost + {p});
      assert Find(m.cache, sql) == |m.cache|;
      InstallKeeps(m, lost, NextHolder(s, spare), p, sql, true);
    } else {
      InstallKeeps(u, lost, NextHolder(s, spare), p, sql, false);
    }
  }

  lemma TakeNewKeeps<H>(s: State<H>, lost: set<nat>, sql: string, spare: H)
    requires Inv(s, lost) && (s.free == [] ==> spare !in s.holders) && !Hit(s, sql) && !EvictsHeld(s, sql, Ready)
    ensures Inv(TakeNew(s, sql, spare), lost)
  {
    hide Inv, Touch, Install, MakeRoom, Detach;
    TouchKeeps(s, lost, sql);
    FindInTouched(s.cache, sql);
    var t := s.(cache := Touch(s.cache, sql));
    PreparedKeeps(t, lost, sql);
    NextIsNotLost(s, lost);
    var u := Prepared(t, sql);
    assert u.log[|s.log|] == Prepare(s.nextPtr, sql);
    RecursiveIsCached(s, lost, sql);
    ReadyKeeps(u, lost, s.nextPtr, sql, !Recursive(s, sql) && s.describe(sql).cacheable, spare);
  }

  lemma FailKeeps<H>(s: State<H>, lost: set<nat>, sql: string, outcome: Outcome)
    requires Inv(s, lost) && !outcome.Ready?
    ensures Inv(Fail(s, sql, outcome), lost + if Forgets(s, sql, outcome) then {s.nextPtr} else {})
  {
    hide Inv, Touch;
    assert lost + {} == lost;
    TouchKeeps(s, lost, sql);
    var t := s.(cache := Touch(s.cache, sql));
    if !outcome.Refused? {
      PreparedKeeps(t, lost, sql);
      NextIsNotLost(s, lost);
      if !MistakesHolder(s, sql) {
        AbandonKeeps(Prepared(t, sql), lost, s.nextPtr);
      }
    }
  }

  lemma AcquireKeeps<H>(s: State<H>, lost: set<nat>, sql: string, outcome: Outcome, spare: H)
    requires Inv(s, lost) && (s.free == [] ==> spare !in s.holders) && !EvictsHeld(s, sql, outcome)
    ensures Inv(Acquire(s, sql, outcome, spare), lost + if Forgets(s, sql, outcome) then {s.nextPtr} else {})
  {
    hide Inv, TakeHit, TakeNew, Fail;
    assert lost + {} == lost;
    if Hit(s, sql) {
      TakeHitKeeps(s, lost, sql);
    } else if outcome.Ready? {
      TakeNewKeeps(s, lost, sql, spare);
    } else {
      FailKeeps(s, lost, sql, outcome);
    }
  }

  lemma RecursiveIsCached<H>(s: State<H>, lost: set<nat>, sql: string)
    requires Inv(s, lost) && !Hit(s, sql)
    ensures !Recursive(s, sql) ==> Find(s.cache, sql) == |s.cache|
    ensures 1 <= s.capacity
  {
  }

  lemma TakeHitKeeps<H>(s: State<H>, lost: set<nat>, sql: string)
    requires Inv(s, lost) && Hit(s, sql)
    ensures Inv(TakeHit(s, sql), lost)
  {
    hide Live, Freed, Framed, Backed, Truthful, Guarded, Numbered, Touch;
    TouchKeeps(s, lost, sql);
    FindInTouched(s.cache, sql);
    HitKeeps(s.(cache := Touch(s.cache, sql)), lost, |s.cache| - 1);
  }

  lemma PopFrame<H>(frames: seq<Frame<H>>, holders: Holders<H>, v: Holder)
    requires Framed(frames, holders) && frames != [] && !v.inUse
    requires v.inCache == holders[frames[|frames| - 1].holder].inCache
    ensures Framed(frames[..|frames| - 1], holders[frames[|frames| - 1].holder := v])
  {
    var n := |frames| - 1;
    var h := frames[n].holder;
    forall k | k in holders && k != h && holders[k].inUse ensures Held(frames[..n], k) {
      assert Held(frames, k);
      var i :| 0 <= i < |frames| && frames[i].holder == k;
      assert frames[..n][i].holder == k;
    }
  }

  lemma TopIsActive<H>(s: State<H>, lost: set<nat>)
    requires Inv(s, lost) && s.frames != []
    ensures Top(s) in s.holders && s.holders[Top(s)].sql.Some?
    ensures s.holders[Top(s)].inCache || s.holders[Top(s)].inUse
    ensures s.holders[Top(s)].ptr in Live(s.log) && s.holders[Top(s)].ptr < s.nextPtr
  {
    hide Live, Cached, Truthful, Guarded, Numbered;
    CarriedIsLive(s, lost, Top(s));
  }

  /** The operation's statement was dropped from the cache, or never entered it. */
  lemma ReleaseUncached<H>(s: State<H>, lost: set<nat>, resets: bool)
    requires Inv(s, lost) && s.frames != [] && !s.holders[Top(s)].inCache
    ensures Inv(Release(s, resets), lost)
  {
    hide Live, Freed, Framed, Guarded, Numbered, Backed;
    TopIsActive(s, lost);
    var h, t := Top(s), Release(s, resets);
    var v := s.holders[h].(inUse := false, sql := None);
    assert t.holders == s.holders[h := v];
    LogKeepsFacts(s, lost, Finalize(s.holders[h].ptr));
    PopFrame(s.frames, s.holders, v);
    RetireBacks(s.holders, Live(s.log), lost, h, v);
    RetireFrees(s.free, s.holders, h, v);
    assert Cached(t.capacity, t.cache, t.holders);
    assert Truthful(t.describe, t.holders, t.log);
  }

  lemma ReleaseCached<H>(s: State<H>, lost: set<nat>)
    requires Inv(s, lost) && s.frames != [] && s.holders[Top(s)].inCache
    ensures Inv(Release(s, true), lost)
  {
    hide Live, Framed, Guarded, Numbered, Backed;
    TopIsActive(s, lost);
    var h, t := Top(s), Release(s, true);
    var v := s.holders[h].(inUse := false);
    LogKeepsFacts(s, lost, Use(s.holders[h].ptr));
    PopFrame(s.frames, s.holders, v);
    FlagsBack(s.holders, Live(s.log), lost, h, v);
    FlagsCache(s.capacity, s.cache, s.holders, h, v);
    hide Cached;
    assert Cached(t.capacity, t.cache, t.holders);
    assert Freed(t.free, t.holders);
    assert Truthful(t.describe, t.holders, t.log);
  }

  lemma FlagsCache<H>(capacity: nat, cache: seq<Entry<H>>, holders: Holders<H>, h: H, v: Holder)
    requires Cached(capacity, cache, holders) && h in holders
    requires v.sql == holders[h].sql && v.inCache == holders[h].inCache
    ensures Cached(capacity, cache, holders[h := v])
  {
  }

  lemma ReleaseKeeps<H>(s: State<H>, lost: set<nat>, resets: bool)
    requires Inv(s, lost) && s.frames != [] && !RemovesHeld(s, resets)
    ensures Inv(Release(s, resets), lost)
  {
    hide Live, Framed, Freed, Guarded, Numbered, Backed, Truthful;
    TopIsActive(s, lost);
    if !s.holders[Top(s)].inCache {
      ReleaseUncached(s, lost, resets);
    } else {
      ReleaseCached(s, lost);
      if !resets {
        CacheHas(s.capacity, s.cache, s.holders, Top(s));
        DropKeeps(Release(s, true), lost, Find(s.cache, s.holders[Top(s)].sql.value));
      }
    }
  }

  /** The entry under a cached holder's SQL is the holder's own. */
  lemma CacheHas<H>(capacity: nat, cache: seq<Entry<H>>, holders: Holders<H>, h: H)
    requires Cached(capacity, cache, holders) && h in holders && holders[h].inCache && holders[h].sql.Some?
    ensures Find(cache, holders[h].sql.value) < |cache|
    ensures cache[Find(cache, holders[h].sql.value)].holder == h
  {
    hide Find;
    assert InCache(cache, h);
    var i :| 0 <= i < |cache| && cache[i].holder == h;
    hide InCache;
    var k := Find(cache, holders[h].sql.value);
    assert cache[i].sql == holders[h].sql.value;
    assert k <= i;
  }

  /** The native calls with which an operation gives up a statement that is in the cache. */
  lemma ReleaseLog<H>(s: State<H>, resets: bool, sql: string)
    requires s.frames != [] && Top(s) in s.holders && s.holders[Top(s)].inCache && s.holders[Top(s)].sql == Some(sql)
    requires Find(s.cache, sql) < |s.cache| && s.cache[Find(s.cache, sql)].holder == Top(s)
    ensures Release(s, resets).log ==
            s.log + [Use(s.holders[Top(s)].ptr)] + if resets then [] else [Finalize(s.holders[Top(s)].ptr)]
  {
  }

  lemma {:induction false} EvictAllKeeps<H>(s: State<H>, lost: set<nat>)
    requires Inv(s, lost) && s.frames == []
    ensures Inv(EvictAll(s), lost)
    ensures EvictAll(s).cache == [] && EvictAll(s).frames == s.frames
    decreases |s.cache|
  {
    hide Live, Freed, Framed, Backed, Truthful, Guarded, Numbered;
    if s.cache != [] {
      DropKeeps(s, lost, 0);
      EvictAllKeeps(DropEntry(s, 0), lost);
    }
  }

  lemma NextKeeps<H>(s: State<H>, lost: set<nat>, step: Step<H>)
    requires Inv(s, lost) && Enabled(s, step) && !Frees(s, step)
    ensures Inv(Next(s, step), lost + (if Leaks(s, step) then {s.nextPtr} else {}))
  {
    hide Inv, Acquire, Release, EvictAll, MistakesHolder;
    assert lost + {} == lost;
    match step
    case AcquireStep(sql, outcome, spare) => AcquireKeeps(s, lost, sql, outcome, spare);
    case RunStep =>
      TopIsActive(s, lost);
      LogKeeps(s, lost, Use(s.holders[Top(s)].ptr));
    case ExecuteStep => ExecuteKeeps(s, lost);
    case ReleaseStep(resets) => ReleaseKeeps(s, lost, resets);
    case ModeStep(b) => ModeKeeps(s, lost, b);
    case TouchStep(sql) => TouchKeeps(s, lost, sql);
    case DisposeStep => EvictAllKeeps(s, lost);
  }

  lemma ModeKeeps<H>(s: State<H>, lost: set<nat>, b: bool)
    requires Inv(s, lost)
    ensures Inv(s.(onlyReadOnly := b), lost)
  {
  }

  lemma ExecuteKeeps<H>(s: State<H>, lost: set<nat>)
    requires Inv(s, lost) && s.frames != []
    ensures Inv(ExecuteTop(s), lost)
  {
    hide Live, Cached, Freed, Framed, Backed, Guarded, Numbered;
    TopIsActive(s, lost);
    var v := s.holders[Top(s)];
    if s.onlyReadOnly && v.info.readOnly {
      assert Prepare(v.ptr, v.sql.value) in s.log && s.describe(v.sql.value).readOnly;
    }
    if s.onlyReadOnly ==> v.info.readOnly {
      LogKeeps(s, lost, Execute(v.ptr, s.onlyReadOnly));
    }
  }

  // ---- Runs ---------------------------------------------------------------------------------------------

  lemma BeginHasInv<H>(capacity: nat, describe: string -> Info)
    requires 1 <= capacity
    ensures Inv(Begin<H>(capacity, describe), {})
  {
  }

  lemma {:induction false} RunKeeps<H>(s: State<H>, lost: set<nat>, run: seq<Step<H>>)
    requires Inv(s, lost) && Legal(s, run) && Spared(s, run)
    ensures Inv(After(s, run), lost + Lost(s, run))
    decreases |run|
  {
    hide Inv, Next, Enabled, Frees, Leaks;
    if run != [] {
      var more := lost + if Leaks(s, run[0]) then {s.nextPtr} else {};
      NextKeeps(s, lost, run[0]);
      RunKeeps(Next(s, run[0]), more, run[1..]);
      assert lost + Lost(s, run) == more + Lost(Next(s, run[0]), run[1..]);
    } else {
      assert lost + {} == lost;
    }
  }

  /** A legal run of a new connection in which no step frees a statement that an operation still holds. */
  ghost predicate StatementRun<H>(capacity: nat, describe: string -> Info, run: seq<Step<H>>) {
    1 <= capacity && Legal(Begin(capacity, describe), run) && Spared(Begin(capacity, describe), run)
  }

  /** A native statement is live exactly when a cached or a held holder carries it. */
  ghost predicate InKeeping<H>(s: State<H>, ptr: nat) {
    exists h :: h in s.holders && s.holders[h].ptr == ptr && (InCache(s.cache, h) || Held(s.frames, h))
  }

  /** The state that a run reaches satisfies the invariant. */
  lemma ReachableInv<H>(capacity: nat, describe: string -> Info, run: seq<Step<H>>)
    requires StatementRun(capacity, describe, run)
    ensures Inv(After(Begin(capacity, describe), run), Lost(Begin(capacity, describe), run))
  {
    hide Inv, Legal, Spared, After, Lost;
    BeginHasInv<H>(capacity, describe);
    RunKeeps(Begin(capacity, describe), {}, run);
    assert {} + Lost(Begin(capacity, describe), run) == Lost(Begin(capacity, describe), run);
  }

  lemma ActiveIsKept<H>(s: State<H>, lost: set<nat>, h: H)
    requires Inv(s, lost) && h in s.holders
    ensures s.holders[h].sql.Some? <==> InCache(s.cache, h) || Held(s.frames, h)
    ensures s.holders[h].inCache <==> InCache(s.cache, h)
    ensures h in s.free <==> s.holders[h].sql.None?
  {
    hide Live, Truthful, Guarded, Numbered;
    if InCache(s.cache, h) {
      var i :| 0 <= i < |s.cache| && s.cache[i].holder == h;
    }
    if Held(s.frames, h) {
      var i :| 0 <= i < |s.frames| && s.frames[i].holder == h;
    }
  }

  /** The main theorem: what holds of the statements, the cache and the free list in every reachable state. */
  lemma StatementLifetimes<H>(capacity: nat, describe: string -> Info, run: seq<Step<H>>)
    requires StatementRun(capacity, describe, run)
    ensures var s, lost := After(Begin(capacity, describe), run), Lost(Begin(capacity, describe), run);
      && WellUsed(s.log)
      && (forall p :: p in Live(s.log) <==> InKeeping(s, p) || p in lost)
      && (forall h :: h in s.holders ==> (s.holders[h].inCache <==> InCache(s.cache, h)))
      && (forall h :: h in s.holders ==> (h in s.free <==> !InCache(s.cache, h) && !Held(s.frames, h)))
      && |s.cache| <= capacity
  {
    hide Legal, Spared, After, Lost, Next, Live, WellUsed, Framed, Freed, Truthful, Guarded, InCache, Held;
    ReachableInv(capacity, describe, run);
    CapacityStays(Begin(capacity, describe), run);
    var s, lost := After(Begin(capacity, describe), run), Lost(Begin(capacity, describe), run);
    forall h | h in s.holders
      ensures s.holders[h].sql.Some? <==> InCache(s.cache, h) || Held(s.frames, h)
      ensures s.holders[h].inCache <==> InCache(s.cache, h)
      ensures h in s.free <==> s.holders[h].sql.None?
    {
      ActiveIsKept(s, lost, h);
    }
    forall p ensures p in Live(s.log) <==> InKeeping(s, p) || p in lost {
      if p in Live(s.log) && p !in lost {
        assert Carried(s.holders, p);
      }
    }
  }

  lemma NextConstants<H>(s: State<H>, step: Step<H>)
    requires Enabled(s, step)
    ensures Next(s, step).capacity == s.capacity && Next(s, step).describe == s.describe
  {
    hide Touch, EvictAll, Recursive, Hit, TakeNew, Release;
    match step
    case AcquireStep(sql, outcome, spare) => TakeNewFrames(s, sql, spare);
    case ReleaseStep(resets) => ReleaseConstants(s, resets);
    case DisposeStep => EvictAllConstants(s);
    case _ =>
  }

  lemma ReleaseConstants<H>(s: State<H>, resets: bool)
    requires s.frames != [] && Top(s) in s.holders
    ensures Release(s, resets).capacity == s.capacity && Release(s, resets).describe == s.describe
  {
  }

  lemma {:induction false} EvictAllConstants<H>(s: State<H>)
    ensures EvictAll(s).capacity == s.capacity && EvictAll(s).describe == s.describe && EvictAll(s).frames == s.frames
    decreases |s.cache|
  {
    if s.cache != [] && s.cache[0].holder in s.holders {
      EvictAllConstants(DropEntry(s, 0));
    }
  }

  lemma {:induction false} CapacityStays<H>(s: State<H>, run: seq<Step<H>>)
    requires Legal(s, run)
    ensures After(s, run).capacity == s.capacity && After(s, run).describe == s.describe
    decreases |run|
  {
    hide Next, Enabled;
    if run != [] {
      NextConstants(s, run[0]);
      CapacityStays(Next(s, run[0]), run[1..]);
    }
  }

  /** With no operation in progress, disposing of the connection leaves no live statement but the lost ones. */
  lemma DisposeFreesAll<H>(s: State<H>, lost: set<nat>)
    requires Inv(s, lost) && s.frames == []
    ensures Live(EvictAll(s).log) == lost
  {
    hide EvictAll, Live, Truthful, Guarded, Numbered, Freed;
    EvictAllKeeps(s, lost);
    var t := EvictAll(s);
    forall h | h in t.holders ensures t.holders[h].sql.None? {
      ActiveIsKept(t, lost, h);
    }
  }

  /**
   * Once the connection is disposed of, every statement it ever prepared, but for the lost ones, was
   * finalized exactly once, and that was the last native call concerning it.
   */
  lemma FinalizedExactlyOnce<H>(capacity: nat, describe: string -> Info, run: seq<Step<H>>, i: nat)
    requires StatementRun(capacity, describe, run)
    requires After(Begin(capacity, describe), run).frames == []
    requires var log := EvictAll(After(Begin(capacity, describe), run)).log;
      i < |log| && log[i].ptr !in Lost(Begin(capacity, describe), run)
    ensures var log := EvictAll(After(Begin(capacity, describe), run)).log;
      exists j :: i <= j < |log| && log[j] == Finalize(log[i].ptr) && forall k :: j < k < |log| ==> log[k].ptr != log[i].ptr
  {
    hide EvictAll, Legal, Spared, After, Lost, Next, Live, Cached, Framed, Freed, Backed, Truthful, Guarded;
    var s, lost := After(Begin(capacity, describe), run), Lost(Begin(capacity, describe), run);
    ReachableInv(capacity, describe, run);
    DisposeFreesAll(s, lost);
    EvictAllKeeps(s, lost);
    var log := EvictAll(s).log;
    var p := log[i].ptr;
    WasPrepared(log, i);
    LiveMeans(log, p);
    var j :| 0 <= j < |log| && log[j] == Finalize(p);
    forall k | j < k < |log| ensures log[k].ptr != p { NothingAfterFinalize(log, j, k); }
    assert i <= j;
  }

  lemma WasPrepared(log: seq<Call>, i: nat)
    requires WellUsed(log) && i < |log|
    ensures exists k :: 0 <= k <= i && log[k].Prepare? && log[k].ptr == log[i].ptr
  {
    if !log[i].Prepare? {
      var past := log[..i];
      assert Admissible(past, log[i]);
      forall k | 0 <= k < i ensures Admissible(past[..k], past[k]) {
        assert past[..k] == log[..k];
        assert Admissible(log[..k], log[k]);
      }
      LiveMeans(past, log[i].ptr);
      var k :| 0 <= k < |past| && past[k].Prepare? && past[k].ptr == log[i].ptr;
      assert log[k] == past[k];
    }
  }

  lemma FrameIsActive<H>(s: State<H>, lost: set<nat>, i: nat)
    requires Inv(s, lost) && i < |s.frames|
    ensures s.frames[i].holder in s.holders && s.holders[s.frames[i].holder].sql.Some?
  {
  }

  lemma AcquireFrames<H>(s: State<H>, lost: set<nat>, sql: string, outcome: Outcome, spare: H)
    requires Inv(s, lost) && (Hit(s, sql) || outcome.Ready?)
    ensures var t := Acquire(s, sql, outcome, spare);
      && |t.frames| == |s.frames| + 1 && t.frames[..|s.frames|] == s.frames
      && Top(t) in t.holders && t.holders[Top(t)].sql == Some(sql) && t.describe == s.describe
      && t.frames[|s.frames|].hit == Hit(s, sql)
  {
    hide Live, Freed, Framed, Backed, Truthful, Guarded, Numbered, Touch, TakeNew;
    if !Hit(s, sql) {
      TakeNewFrames(s, sql, spare);
    }
  }

  lemma TakeNewFrames<H>(s: State<H>, sql: string, spare: H)
    ensures var t, h := TakeNew(s, sql, spare), NextHolder(s, spare);
      && t.frames == s.frames + [Frame(h, false)] && t.describe == s.describe && t.capacity == s.capacity
      && h in t.holders && t.holders[h].sql == Some(sql)
  {
    hide Touch, Recursive;
  }
}
