/**
 * A statement found in the cache is not marked as being executed. Exactly which runs free a statement while an
 * operation holds it, and that runs without operations nested inside a cache hit never do.
 */
module StatementSafety {
  import opened Options
  import opened StatementModel
  import opened StatementLives
  import opened StatementRuns

  lemma InvHoldsLive<H>(s: State<H>, lost: set<nat>)
    requires Inv(s, lost)
    ensures AllHeldLive(s)
  {
    hide Live;
    forall i | 0 <= i < |s.frames|
      ensures s.frames[i].holder in s.holders && s.holders[s.frames[i].holder].ptr in Live(s.log)
    {
      FrameIsActive(s, lost, i);
      CarriedIsLive(s, lost, s.frames[i].holder);
    }
  }

  lemma NotLive<H>(s: State<H>, i: nat)
    requires i < |s.frames| && s.frames[i].holder in s.holders && s.holders[s.frames[i].holder].ptr !in Live(s.log)
    ensures !AllHeldLive(s)
  {
  }

  /** The native calls of an acquisition that makes room, and what becomes of the entry that has to go. */
  lemma EvictionFrees<H>(s: State<H>, lost: set<nat>, sql: string, spare: H)
    requires Inv(s, lost) && (s.free == [] ==> spare !in s.holders) && EvictsHeld(s, sql, Ready)
    ensures !AllHeldLive(TakeNew(s, sql, spare))
  {
    var e := s.cache[0].holder;
    var i :| 0 <= i < |s.frames| && s.frames[i].hit && s.frames[i].holder == e;
    var t, p := TakeNew(s, sql, spare), s.holders[e].ptr;
    EvictionLog(s, lost, sql, spare);
    TakeNewFrames(s, sql, spare);
    CarriedIsLive(s, lost, e);
    hide Inv, TakeNew, Live;
    LogOfEviction(s, lost, sql, p);
    assert t.frames[i].holder == e;
    NotLive(t, i);
  }

  lemma EvictionLog<H>(s: State<H>, lost: set<nat>, sql: string, spare: H)
    requires Inv(s, lost) && (s.free == [] ==> spare !in s.holders) && EvictsHeld(s, sql, Ready)
    ensures var t, e := TakeNew(s, sql, spare), s.cache[0].holder;
      && e in s.holders && s.holders[e].sql.Some? && e in t.holders && t.holders[e].ptr == s.holders[e].ptr
      && t.log == s.log + [Prepare(s.nextPtr, sql), Use(s.nextPtr)] + [Finalize(s.holders[e].ptr)]
  {
    hide Live, Backed, Truthful, Guarded, Numbered, Touch;
    FindInTouched(s.cache, sql);
    RecursiveIsCached(s, lost, sql);
    var e := s.cache[0].holder;
    assert !s.holders[e].inUse;
    assert s.(cache := Touch(s.cache, sql)) == s;
    var u := Detach(Prepared(s, sql), spare);
    assert u.cache == s.cache && e in u.holders && u.holders[e] == s.holders[e];
  }

  /** Even then, the new operation's statement is live and its own. */
  lemma EvictingIsOwn<H>(s: State<H>, lost: set<nat>, sql: string, spare: H)
    requires Inv(s, lost) && spare !in s.holders && EvictsHeld(s, sql, Ready)
    ensures var t := TakeNew(s, sql, spare);
      && t.frames == s.frames + [Frame(NextHolder(s, spare), false)] && Top(t) in t.holders
      && t.holders[Top(t)].ptr == s.nextPtr && t.holders[Top(t)].info == s.describe(sql)
      && Prepare(s.nextPtr, sql) in t.log && s.nextPtr in Live(t.log)
      && (forall i :: 0 <= i < |s.frames| ==>
            s.frames[i].holder in t.holders && t.holders[s.frames[i].holder].ptr < s.nextPtr)
  {
    EvictionLog(s, lost, sql, spare);
    EvictionHolders(s, lost, sql, spare);
    TakeNewFrames(s, sql, spare);
    CarriedIsLive(s, lost, s.cache[0].holder);
    hide Inv, TakeNew, Live, EvictsHeld, Recursive;
    LogOfEviction(s, lost, sql, s.holders[s.cache[0].holder].ptr);
    assert TakeNew(s, sql, spare).log[|s.log|] == Prepare(s.nextPtr, sql);
  }

  lemma EvictionHolders<H>(s: State<H>, lost: set<nat>, sql: string, spare: H)
    requires Inv(s, lost) && spare !in s.holders && EvictsHeld(s, sql, Ready)
    ensures var t, h := TakeNew(s, sql, spare), NextHolder(s, spare);
      && h in t.holders && t.holders[h].ptr == s.nextPtr && t.holders[h].info == s.describe(sql)
      && (forall i :: 0 <= i < |s.frames| ==>
            s.frames[i].holder in t.holders && t.holders[s.frames[i].holder].ptr < s.nextPtr)
  {
    forall i | 0 <= i < |s.frames| ensures s.frames[i].holder in s.holders && s.holders[s.frames[i].holder].sql.Some?
      ensures s.holders[s.frames[i].holder].ptr < s.nextPtr
    {
      FrameIsActive(s, lost, i);
      CarriedIsLive(s, lost, s.frames[i].holder);
    }
    hide Live, Cached, Framed, Backed, Truthful, Guarded, Numbered, Touch, Recursive;
  }

  lemma LogOfEviction<H>(s: State<H>, lost: set<nat>, sql: string, p: nat)
    requires Inv(s, lost) && p in Live(s.log) && p < s.nextPtr
    ensures var more := s.log + [Prepare(s.nextPtr, sql), Use(s.nextPtr)] + [Finalize(p)];
      p !in Live(more) && s.nextPtr in Live(more)
  {
    hide Live;
    NextIsNew(s.nextPtr, s.log);
    LogOne(s.log, Prepare(s.nextPtr, sql));
    var a := s.log + [Prepare(s.nextPtr, sql)];
    LogOne(a, Use(s.nextPtr));
    assert a + [Use(s.nextPtr)] == s.log + [Prepare(s.nextPtr, sql), Use(s.nextPtr)];
    LogOne(a + [Use(s.nextPtr)], Finalize(p));
  }

  lemma RemovalFrees<H>(s: State<H>, lost: set<nat>)
    requires Inv(s, lost) && s.frames != [] && RemovesHeld(s, false)
    ensures !AllHeldLive(Release(s, false))
  {
    var h, n := Top(s), |s.frames| - 1;
    var i :| 0 <= i < n && s.frames[..n][i].hit && s.frames[..n][i].holder == h;
    TopIsActive(s, lost);
    CacheHas(s.capacity, s.cache, s.holders, h);
    ReleaseLog(s, false, s.holders[h].sql.value);
    ReleaseKeepsPtr(s, s.holders[h].sql.value);
    hide Inv, Release, Live;
    var p := s.holders[h].ptr;
    assert WellUsed(s.log) by { InvLog(s, lost); }
    LogOne(s.log, Use(p));
    LogOne(s.log + [Use(p)], Finalize(p));
    NotLive(Release(s, false), i);
  }

  lemma InvLog<H>(s: State<H>, lost: set<nat>)
    requires Inv(s, lost)
    ensures WellUsed(s.log)
  {
  }

  lemma ReleaseKeepsPtr<H>(s: State<H>, sql: string)
    requires s.frames != [] && Top(s) in s.holders && s.holders[Top(s)].inCache && s.holders[Top(s)].sql == Some(sql)
    requires Find(s.cache, sql) < |s.cache| && s.cache[Find(s.cache, sql)].holder == Top(s)
    ensures var t := Release(s, false);
      && t.frames == s.frames[..|s.frames| - 1]
      && Top(s) in t.holders && t.holders[Top(s)].ptr == s.holders[Top(s)].ptr
  {
  }

  /** A step leaves every operation with a live statement if and only if it frees none that is held. */
  lemma StepIsSoundIff<H>(s: State<H>, lost: set<nat>, step: Step<H>)
    requires Inv(s, lost) && Enabled(s, step)
    ensures AllHeldLive(Next(s, step)) <==> !Frees(s, step)
  {
    hide Inv, AllHeldLive, EvictsHeld, RemovesHeld, Release, EvictAll, TakeNew, TakeHit, Fail, Hit;
    if !Frees(s, step) {
      NextKeeps(s, lost, step);
      InvHoldsLive(Next(s, step), lost + if Leaks(s, step) then {s.nextPtr} else {});
    } else if step.AcquireStep? {
      EvictsNew(s, step.sql, step.outcome);
      EvictionFrees(s, lost, step.sql, step.spare);
    } else {
      RemovesFails(s, step.resets);
      RemovalFrees(s, lost);
    }
  }

  lemma EvictsNew<H>(s: State<H>, sql: string, outcome: Outcome)
    requires EvictsHeld(s, sql, outcome)
    ensures !Hit(s, sql) && outcome == Ready
  {
  }

  lemma RemovesFails<H>(s: State<H>, resets: bool)
    requires s.frames != [] && Top(s) in s.holders && RemovesHeld(s, resets)
    ensures !resets
  {
  }

  /**
   * Over a whole run, every operation always holds a live statement if and only if no step pushes out or removes
   * the cache entry of a statement that an operation found there and still holds.
   */
  lemma {:induction false} SoundIffSpared<H>(s: State<H>, lost: set<nat>, run: seq<Step<H>>)
    requires Inv(s, lost) && Legal(s, run)
    ensures SoundThroughout(s, run) <==> Spared(s, run)
    decreases |run|
  {
    hide Inv, Next, Enabled, Frees, Leaks, AllHeldLive;
    InvHoldsLive(s, lost);
    if run != [] {
      StepIsSoundIff(s, lost, run[0]);
      if !Frees(s, run[0]) {
        NextKeeps(s, lost, run[0]);
        SoundIffSpared(Next(s, run[0]), lost + if Leaks(s, run[0]) then {s.nextPtr} else {}, run[1..]);
      }
    }
  }

  lemma RunIsSoundIff<H>(capacity: nat, describe: string -> Info, run: seq<Step<H>>)
    requires 1 <= capacity && Legal(Begin(capacity, describe), run)
    ensures SoundThroughout(Begin(capacity, describe), run) <==> Spared(Begin(capacity, describe), run)
  {
    hide Inv, Legal, SoundThroughout, Spared;
    BeginHasInv<H>(capacity, describe);
    SoundIffSpared(Begin(capacity, describe), {}, run);
  }

  /**
   * An operation that obtains a statement obtains one that is live and was prepared from the very SQL it asked
   * for. Another operation in progress holds it too only if both found it in the cache.
   */
  lemma AcquiredIsOwn<H>(s: State<H>, lost: set<nat>, sql: string, outcome: Outcome, spare: H)
    requires Inv(s, lost) && spare !in s.holders && (Hit(s, sql) || outcome.Ready?)
    ensures var t := Acquire(s, sql, outcome, spare);
      && |t.frames| == |s.frames| + 1 && t.frames[..|s.frames|] == s.frames
      && Top(t) in t.holders
      && Prepare(t.holders[Top(t)].ptr, sql) in t.log
      && t.holders[Top(t)].ptr in Live(t.log)
      && t.holders[Top(t)].info == s.describe(sql)
      && (forall i :: 0 <= i < |s.frames| ==>
            && s.frames[i].holder in t.holders
            && (t.holders[s.frames[i].holder].ptr == t.holders[Top(t)].ptr ==> Hit(s, sql) && s.frames[i].hit))
  {
    hide Live, Cached, Freed, Guarded, Numbered;
    if EvictsHeld(s, sql, outcome) {
      EvictingIsOwn(s, lost, sql, spare);
      return;
    }
    AcquireKeeps(s, lost, sql, outcome, spare);
    AcquireFrames(s, lost, sql, outcome, spare);
    var t := Acquire(s, sql, outcome, spare);
    hide Acquire;
    var lost' := lost + (if Forgets(s, sql, outcome) then {s.nextPtr} else {});
    TopIsActive(t, lost');
    forall i | 0 <= i < |s.frames|
      ensures s.frames[i].holder in t.holders
      ensures t.holders[s.frames[i].holder].ptr == t.holders[Top(t)].ptr ==> Hit(s, sql) && s.frames[i].hit
    {
      assert t.frames[i] == s.frames[i];
      FrameIsActive(t, lost', i);
    }
  }

  // ---- Runs without operations nested inside a cache hit ------------------------------------------------------

  ghost predicate OnlyTopHit<H>(frames: seq<Frame<H>>) {
    forall i :: 0 <= i < |frames| - 1 ==> !frames[i].hit
  }

  lemma NextFrames<H>(s: State<H>, step: Step<H>)
    requires Enabled(s, step) && OnlyTopHit(s.frames) && !(step.AcquireStep? && UnderHit(s))
    ensures OnlyTopHit(Next(s, step).frames) && !Frees(s, step)
  {
    hide Hit, Recursive, EvictAll, TakeNew;
    match step
    case AcquireStep(sql, outcome, spare) => TakeNewFrames(s, sql, spare);
    case DisposeStep => EvictAllConstants(s);
    case _ =>
  }

  /** If no operation starts inside one that found its statement in the cache, nothing that is held is freed. */
  lemma {:induction false} DisciplinedIsSpared<H>(s: State<H>, run: seq<Step<H>>)
    requires OnlyTopHit(s.frames) && Legal(s, run) && Disciplined(s, run)
    ensures Spared(s, run)
    decreases |run|
  {
    hide Next, Enabled, Frees;
    if run != [] {
      NextFrames(s, run[0]);
      DisciplinedIsSpared(Next(s, run[0]), run[1..]);
    }
  }
}
