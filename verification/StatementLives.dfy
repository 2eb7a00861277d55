/** Every native statement is finalized exactly once, and is never used afterwards. */
module StatementLives {
  import opened Options
  import opened Sequences
  import opened StatementModel

  // ---- The log of native calls ----------------------------------------------------------------------

  lemma LogOne(log: seq<Call>, call: Call)
    requires WellUsed(log) && Admissible(log, call)
    ensures WellUsed(log + [call])
    ensures Live(log + [call]) == Apply(Live(log), call)
  {
    var more := log + [call];
    assert more[..|more| - 1] == log;
    forall j | 0 <= j < |more| ensures Admissible(more[..j], more[j]) {
      if j < |log| {
        assert more[..j] == log[..j];
      } else {
        assert more[..j] == log;
      }
    }
  }

  lemma LogMembers(log: seq<Call>, call: Call)
    ensures forall c :: c in log + [call] <==> c in log || c == call
  {
  }

  /** A live statement was prepared, and has not been finalized since. */
  lemma {:induction false} LiveMeans(log: seq<Call>, ptr: nat)
    requires WellUsed(log)
    ensures ptr in Live(log) <==>
      && (exists i :: 0 <= i < |log| && log[i].Prepare? && log[i].ptr == ptr)
      && forall i :: 0 <= i < |log| ==> log[i] != Finalize(ptr)
  {
    if log != [] {
      var n := |log| - 1;
      var past, call := log[..n], log[n];
      forall j | 0 <= j < n ensures Admissible(past[..j], past[j]) {
        assert past[..j] == log[..j];
        assert Admissible(log[..j], log[j]);
      }
      assert past == log[..n];
      assert Admissible(past, call);
      LiveMeans(past, ptr);
      if call.Prepare? && call.ptr == ptr {
        assert forall i :: 0 <= i < n ==> past[i] == log[i];
        assert log[n] == call;
      } else if call == Finalize(ptr) {
        assert log[n] == Finalize(ptr);
      } else if ptr in Live(log) {
        var i :| 0 <= i < |past| && past[i].Prepare? && past[i].ptr == ptr;
        assert log[i] == past[i];
        forall k | 0 <= k < |log| ensures log[k] != Finalize(ptr) {
          assert k < n ==> past[k] == log[k];
        }
      } else if forall i :: 0 <= i < |log| ==> log[i] != Finalize(ptr) {
        forall k | 0 <= k < |past| ensures past[k] != Finalize(ptr) { assert past[k] == log[k]; }
        forall k | 0 <= k < |log| ensures !(log[k].Prepare? && log[k].ptr == ptr) {
          assert k < n ==> past[k] == log[k];
        }
      }
    }
  }

  /** After a statement is finalized, no native call concerns it again; so it is finalized at most once. */
  lemma NothingAfterFinalize(log: seq<Call>, i: nat, j: nat)
    requires WellUsed(log) && i < j < |log| && log[i].Finalize?
    ensures log[j].ptr != log[i].ptr
  {
    if log[j].ptr == log[i].ptr {
      var past := log[..j];
      assert Admissible(past, log[j]);
      assert past[i] == log[i];
      forall k | 0 <= k < j ensures Admissible(past[..k], past[k]) {
        assert past[..k] == log[..k];
        assert Admissible(log[..k], log[k]);
      }
      LiveMeans(past, log[i].ptr);
    }
  }

  // ---- The invariant --------------------------------------------------------------------------------

  type Holders<H> = map<H, Holder>

  ghost predicate InCache<H>(cache: seq<Entry<H>>, h: H) {
    exists i :: 0 <= i < |cache| && cache[i].holder == h
  }

  /** A holder says it is in the cache exactly when it is, under its own SQL. */
  ghost predicate Cached<H>(capacity: nat, cache: seq<Entry<H>>, holders: Holders<H>) {
    && |cache| <= capacity
    && (forall i :: 0 <= i < |cache| ==>
          && cache[i].holder in holders
          && holders[cache[i].holder].inCache
          && holders[cache[i].holder].sql == Some(cache[i].sql))
    && (forall i, j :: 0 <= i < j < |cache| ==> cache[i].sql != cache[j].sql)
    && (forall h :: h in holders && holders[h].inCache ==> InCache(cache, h))
  }

  /** The free list has no duplicates, and has exactly the holders without a statement. */
  ghost predicate Freed<H>(free: seq<H>, holders: Holders<H>) {
    && (forall i :: 0 <= i < |free| ==> free[i] in holders && holders[free[i]].sql.None?)
    && (forall i, j :: 0 <= i < j < |free| ==> free[i] != free[j])
    && (forall h :: h in holders && holders[h].sql.None? ==> h in free && !holders[h].inCache && !holders[h].inUse)
  }

  ghost predicate Held<H>(frames: seq<Frame<H>>, h: H) {
    exists i :: 0 <= i < |frames| && frames[i].holder == h
  }

  /** Operations mark the statements they prepared, each its own, and do not mark those they found in the cache. */
  ghost predicate Framed<H>(frames: seq<Frame<H>>, holders: Holders<H>) {
    && (forall i :: 0 <= i < |frames| ==>
          && frames[i].holder in holders
          && holders[frames[i].holder].inUse == !frames[i].hit
          && (frames[i].hit ==> holders[frames[i].holder].inCache))
    && (forall i, j :: 0 <= i < j < |frames| && !frames[i].hit && !frames[j].hit ==> frames[i].holder != frames[j].holder)
    && (forall h :: h in holders && holders[h].inUse ==> Held(frames, h))
  }

  ghost predicate Carried<H>(holders: Holders<H>, ptr: nat) {
    exists h :: h in holders && holders[h].sql.Some? && holders[h].ptr == ptr
  }

  /** The live native statements are those that holders carry, each by one holder, and the `lost` ones. */
  ghost predicate Backed<H>(holders: Holders<H>, live: set<nat>, lost: set<nat>) {
    && lost <= live
    && (forall h :: h in holders && holders[h].sql.Some? ==>
          && holders[h].ptr in live && holders[h].ptr !in lost
          && (holders[h].inCache || holders[h].inUse))
    && (forall h, k :: h in holders && k in holders && holders[h].sql.Some? && holders[k].sql.Some? && h != k ==>
          holders[h].ptr != holders[k].ptr)
    && (forall p :: p in live && p !in lost ==> Carried(holders, p))
  }

  /** A holder's statement was prepared from the holder's SQL and has the properties of that SQL. */
  ghost predicate Truthful<H>(describe: string -> Info, holders: Holders<H>, log: seq<Call>) {
    forall h :: h in holders && holders[h].sql.Some? ==>
      && Prepare(holders[h].ptr, holders[h].sql.value) in log
      && holders[h].info == describe(holders[h].sql.value)
  }

  ghost predicate PreparedReadOnly(describe: string -> Info, log: seq<Call>, ptr: nat) {
    exists sql :: Prepare(ptr, sql) in log && describe(sql).readOnly
  }

  /** While only read-only statements were allowed, only those were executed. */
  ghost predicate Guarded(describe: string -> Info, log: seq<Call>) {
    forall c :: c in log && c.Execute? && c.onlyReadOnly ==> PreparedReadOnly(describe, log, c.ptr)
  }

  ghost predicate Numbered(nextPtr: nat, log: seq<Call>) {
    WellUsed(log) && forall c :: c in log ==> c.ptr < nextPtr
  }

  ghost predicate Inv<H>(s: State<H>, lost: set<nat>) {
    && 1 <= s.capacity
    && Cached(s.capacity, s.cache, s.holders)
    && Freed(s.free, s.holders)
    && Framed(s.frames, s.holders)
    && Backed(s.holders, Live(s.log), lost)
    && Truthful(s.describe, s.holders, s.log)
    && Guarded(s.describe, s.log)
    && Numbered(s.nextPtr, s.log)
  }

  // ---- Steps on the log ---------------------------------------------------------------------------------

  lemma LogKeepsFacts<H>(s: State<H>, lost: set<nat>, call: Call)
    requires Inv(s, lost) && Admissible(s.log, call)
    requires call.Execute? && call.onlyReadOnly ==> PreparedReadOnly(s.describe, s.log, call.ptr)
    ensures Truthful(s.describe, s.holders, s.log + [call])
    ensures Guarded(s.describe, s.log + [call])
    ensures forall n: nat :: s.nextPtr <= n && call.ptr < n ==> Numbered(n, s.log + [call])
    ensures Live(s.log + [call]) == Apply(Live(s.log), call)
  {
    hide Live, WellUsed, Cached, Freed, Framed, Backed, Admissible;
    LogOne(s.log, call);
    LogMembers(s.log, call);
    forall p | PreparedReadOnly(s.describe, s.log, p) ensures PreparedReadOnly(s.describe, s.log + [call], p) {
    }
  }

  lemma LogKeeps<H>(s: State<H>, lost: set<nat>, call: Call)
    requires Inv(s, lost) && call.ptr in Live(s.log) && call.ptr < s.nextPtr
    requires call.Use? || (call.Execute? && (call.onlyReadOnly ==> PreparedReadOnly(s.describe, s.log, call.ptr)))
    ensures Inv(s.(log := s.log + [call]), lost)
  {
    hide Live, Cached, Freed, Framed, Backed, Truthful, Guarded, Numbered;
    LogKeepsFacts(s, lost, call);
  }

  lemma BackedGrows<H>(holders: Holders<H>, live: set<nat>, lost: set<nat>, p: nat)
    requires Backed(holders, live, lost) && p !in live
    ensures Backed(holders, live + {p}, lost + {p})
  {
  }

  lemma NextIsNew(nextPtr: nat, log: seq<Call>)
    requires Numbered(nextPtr, log)
    ensures Unissued(log, nextPtr) && nextPtr !in Live(log)
  {
    forall i | 0 <= i < |log| ensures log[i].ptr != nextPtr { assert log[i] in log; }
    LiveMeans(log, nextPtr);
  }

  lemma PreparedKeeps<H>(s: State<H>, lost: set<nat>, sql: string)
    requires Inv(s, lost)
    ensures Inv(Prepared(s, sql), lost + {s.nextPtr})
  {
    hide Live, Cached, Freed, Framed, Backed, Truthful, Guarded, Numbered;
    var t := s.(nextPtr := s.nextPtr + 1, log := s.log + [Prepare(s.nextPtr, sql)]);
    NextIsNew(s.nextPtr, s.log);
    LogKeepsFacts(s, lost, Prepare(s.nextPtr, sql));
    BackedGrows(s.holders, Live(s.log), lost, s.nextPtr);
    LogKeeps(t, lost + {s.nextPtr}, Use(s.nextPtr));
    assert t.log + [Use(s.nextPtr)] == s.log + [Prepare(s.nextPtr, sql), Use(s.nextPtr)];
  }

  /** A lost statement that is finalized after all is lost no longer. */
  lemma AbandonKeeps<H>(s: State<H>, lost: set<nat>, p: nat)
    requires Inv(s, lost + {p}) && p !in lost && p < s.nextPtr
    ensures Inv(s.(log := s.log + [Finalize(p)]), lost)
  {
    hide Live, Cached, Freed, Framed, Truthful, Guarded, Numbered;
    LogKeepsFacts(s, lost + {p}, Finalize(p));
  }

  // ---- Steps on the cache and the holders -----------------------------------------------------------------

  lemma TouchMembers<H>(cache: seq<Entry<H>>, sql: string)
    ensures |Touch(cache, sql)| == |cache|
    ensures forall h :: InCache(cache, h) ==> InCache(Touch(cache, sql), h)
    ensures forall i :: 0 <= i < |cache| ==>
      exists j :: 0 <= j < |cache| && Touch(cache, sql)[i] == cache[j]
  {
    var k := Find(cache, sql);
    if k < |cache| {
      var t := Touch(cache, sql);
      forall i | 0 <= i < |cache| ensures exists j :: 0 <= j < |cache| && t[i] == cache[j] {
        assert t[i] == cache[if i < k then i else if i < |cache| - 1 then i + 1 else k];
      }
      forall h | InCache(cache, h) ensures InCache(t, h) {
        var i :| 0 <= i < |cache| && cache[i].holder == h;
        assert t[if i < k then i else if i > k then i - 1 else |cache| - 1] == cache[i];
      }
    }
  }

  lemma TouchKeeps<H>(s: State<H>, lost: set<nat>, sql: string)
    requires Inv(s, lost)
    ensures Inv(s.(cache := Touch(s.cache, sql)), lost)
  {
    hide Live, InCache, Freed, Framed, Backed, Truthful, Guarded, Numbered;
    TouchMembers(s.cache, sql);
    var k, t := Find(s.cache, sql), Touch(s.cache, sql);
    forall i, j | 0 <= i < j < |t| ensures t[i].sql != t[j].sql {
      if k < |s.cache| {
        assert t[i] == s.cache[if i < k then i else i + 1];
        assert t[j] == s.cache[if j < k then j else if j < |t| - 1 then j + 1 else k];
      }
    }
  }

  lemma DetachKeeps<H>(s: State<H>, lost: set<nat>, spare: H)
    requires Inv(s, lost) && (s.free == [] ==> spare !in s.holders)
    ensures Inv(Detach(s, spare), lost)
    ensures NextHolder(s, spare) !in Detach(s, spare).holders
  {
    hide Live, Guarded, Numbered, Cached, Framed, Backed;
    if s.free != [] {
      DetachCaches(s.capacity, s.cache, s.holders, s.free[0]);
      DetachFrames(s.frames, s.holders, s.free[0]);
      DetachBacks(s.holders, Live(s.log), lost, s.free[0]);
      var t := Detach(s, spare);
      assert forall i :: 0 <= i < |t.free| ==> t.free[i] == s.free[i + 1];
      forall k | k in t.holders && t.holders[k].sql.None? ensures k in t.free {
        assert k in s.free;
      }
    }
  }

  lemma DetachCaches<H>(capacity: nat, cache: seq<Entry<H>>, holders: Holders<H>, h: H)
    requires Cached(capacity, cache, holders) && h in holders && holders[h].sql.None?
    ensures Cached(capacity, cache, holders - {h})
  {
  }

  lemma DetachFrames<H>(frames: seq<Frame<H>>, holders: Holders<H>, h: H)
    requires Framed(frames, holders) && h in holders && !holders[h].inCache && !holders[h].inUse
    ensures Framed(frames, holders - {h})
  {
  }

  lemma DetachBacks<H>(holders: Holders<H>, live: set<nat>, lost: set<nat>, h: H)
    requires Backed(holders, live, lost) && h in holders && holders[h].sql.None?
    ensures Backed(holders - {h}, live, lost)
  {
    forall p | p in live && p !in lost ensures Carried(holders - {h}, p) {
      assert Carried(holders, p);
      var c :| c in holders && holders[c].sql.Some? && holders[c].ptr == p;
      assert (holders - {h})[c].ptr == p;
    }
  }

  lemma InstallKeeps<H>(s: State<H>, lost: set<nat>, h: H, p: nat, sql: string, caching: bool)
    requires Inv(s, lost + {p}) && p !in lost && h !in s.holders
    requires Prepare(p, sql) in s.log
    requires caching ==> |s.cache| < s.capacity && Find(s.cache, sql) == |s.cache|
    ensures Inv(Install(s, h, p, sql, caching), lost)
  {
    hide Live, Guarded, Numbered, Cached, Framed, Backed;
    var t := Install(s, h, p, sql, caching);
    InstallCaches(s.capacity, s.cache, s.holders, h, t.holders[h], sql, caching);
    InstallFrames(s.frames, s.holders, h, t.holders[h]);
    InstallBacks(s.holders, Live(s.log), lost, h, t.holders[h], p);
    assert Freed(t.free, t.holders);
  }

  lemma InstallBacks<H>(holders: Holders<H>, live: set<nat>, lost: set<nat>, h: H, v: Holder, p: nat)
    requires Backed(holders, live, lost + {p}) && p !in lost && h !in holders
    requires v.sql.Some? && v.ptr == p && v.inUse
    ensures Backed(holders[h := v], live, lost)
  {
    forall q | q in live && q !in lost ensures Carried(holders[h := v], q) {
      if q == p {
        assert holders[h := v][h].ptr == p;
      } else {
        assert Carried(holders, q);
        var c :| c in holders && holders[c].sql.Some? && holders[c].ptr == q;
        assert holders[h := v][c].ptr == q;
      }
    }
  }

  lemma InstallCaches<H>(capacity: nat, cache: seq<Entry<H>>, holders: Holders<H>, h: H, v: Holder, sql: string, caching: bool)
    requires Cached(capacity, cache, holders) && h !in holders && v.inCache == caching && v.sql == Some(sql)
    requires caching ==> |cache| < capacity && Find(cache, sql) == |cache|
    ensures Cached(capacity, if caching then cache + [Entry(sql, h)] else cache, holders[h := v])
  {
    hide Find;
    var more := if caching then cache + [Entry(sql, h)] else cache;
    forall k | k in holders && holders[k].inCache ensures InCache(more, k) {
      assert InCache(cache, k);
      var i :| 0 <= i < |cache| && cache[i].holder == k;
      assert more[i] == cache[i];
    }
    if caching {
      assert more[|cache|].holder == h;
    }
  }

  lemma InstallFrames<H>(frames: seq<Frame<H>>, holders: Holders<H>, h: H, v: Holder)
    requires Framed(frames, holders) && h !in holders && v.inUse
    ensures Framed(frames + [Frame(h, false)], holders[h := v])
  {
    var more := frames + [Frame(h, false)];
    forall k | k in holders && holders[k].inUse ensures Held(more, k) {
      assert Held(frames, k);
      var i :| 0 <= i < |frames| && frames[i].holder == k;
      assert more[i] == frames[i];
    }
    assert more[|frames|].holder == h;
  }

  // ---- Dropping a cache entry -----------------------------------------------------------------------------

  lemma DropFromCache<H>(capacity: nat, cache: seq<Entry<H>>, holders: Holders<H>, k: nat, v: Holder)
    requires Cached(capacity, cache, holders) && k < |cache| && !v.inCache
    ensures Cached(capacity, Without(cache, k), holders[cache[k].holder := v])
    ensures !InCache(Without(cache, k), cache[k].holder)
  {
    var h, less := cache[k].holder, Without(cache, k);
    assert forall i :: 0 <= i < |less| ==> less[i] == cache[if i < k then i else i + 1];
    forall i | 0 <= i < |less| ensures less[i].holder != h {
      assert less[i].sql != cache[k].sql;
    }
    forall c | c in holders && c != h && holders[c].inCache ensures InCache(less, c) {
      assert InCache(cache, c);
      var i :| 0 <= i < |cache| && cache[i].holder == c;
      assert less[if i < k then i else i - 1] == cache[i];
    }
  }

  /** Finalizing the statement of a holder that no operation holds takes exactly that statement away. */
  lemma RetireBacks<H>(holders: Holders<H>, live: set<nat>, lost: set<nat>, h: H, v: Holder)
    requires Backed(holders, live, lost) && h in holders && holders[h].sql.Some? && v.sql.None?
    ensures Backed(holders[h := v], live - {holders[h].ptr}, lost)
  {
    forall p | p in live && p != holders[h].ptr && p !in lost ensures Carried(holders[h := v], p) {
      assert Carried(holders, p);
      var c :| c in holders && holders[c].sql.Some? && holders[c].ptr == p;
      assert holders[h := v][c].ptr == p;
    }
  }

  lemma RetireFrees<H>(free: seq<H>, holders: Holders<H>, h: H, v: Holder)
    requires Freed(free, holders) && h in holders && holders[h].sql.Some?
    requires v.sql.None? && !v.inCache && !v.inUse
    ensures Freed([h] + free, holders[h := v])
  {
    var more := [h] + free;
    assert forall i :: 0 < i < |more| ==> more[i] == free[i - 1];
    forall k | k in holders && k != h && holders[k].sql.None? ensures k in more {
      assert k in free;
    }
  }

  /** The holder of entry `k` is held by no operation that found it in the cache. */
  ghost predicate Droppable<H>(s: State<H>, k: nat) {
    k < |s.cache| && !HeldByHit(s.frames, s.cache[k].holder)
  }

  lemma DropKeeps<H>(s: State<H>, lost: set<nat>, k: nat)
    requires Inv(s, lost) && Droppable(s, k)
    ensures Inv(DropEntry(s, k), lost)
  {
    hide Live, Freed, Framed, Backed, Truthful, Guarded, Numbered, EntryRemoved;
    if s.holders[s.cache[k].holder].inUse {
      DropInUse(s, lost, k);
    } else {
      DropIdle(s, lost, k);
    }
  }

  lemma FlagsBack<H>(holders: Holders<H>, live: set<nat>, lost: set<nat>, h: H, v: Holder)
    requires Backed(holders, live, lost) && h in holders && (v.inCache || v.inUse)
    requires v.sql == holders[h].sql && v.ptr == holders[h].ptr
    ensures Backed(holders[h := v], live, lost)
  {
    forall p | p in live && p !in lost ensures Carried(holders[h := v], p) {
      assert Carried(holders, p);
      var c :| c in holders && holders[c].sql.Some? && holders[c].ptr == p;
      assert holders[h := v][c].ptr == p;
    }
  }

  lemma DropInUse<H>(s: State<H>, lost: set<nat>, k: nat)
    requires Inv(s, lost) && Droppable(s, k) && s.holders[s.cache[k].holder].inUse
    ensures Inv(DropEntry(s, k), lost)
  {
    hide Live, Guarded, Numbered, Backed;
    var h := s.cache[k].holder;
    var v := s.holders[h].(inCache := false);
    DropFromCache(s.capacity, s.cache, s.holders, k, v);
    FlagsBack(s.holders, Live(s.log), lost, h, v);
    hide Cached;
    assert Framed(s.frames, s.holders[h := v]);
    assert Freed(s.free, s.holders[h := v]);
    assert Truthful(s.describe, s.holders[h := v], s.log);
  }

  lemma DropIdle<H>(s: State<H>, lost: set<nat>, k: nat)
    requires Inv(s, lost) && Droppable(s, k) && !s.holders[s.cache[k].holder].inUse
    ensures Inv(DropEntry(s, k), lost)
  {
    hide Live, Freed, Guarded, Numbered, Backed;
    var h, t := s.cache[k].holder, DropEntry(s, k);
    var v := s.holders[h].(inCache := false, sql := None);
    var p := s.holders[h].ptr;
    assert t.holders == s.holders[h := v];
    assert p in Live(s.log) && p < s.nextPtr by { CarriedIsLive(s, lost, h); }
    LogKeepsFacts(s, lost, Finalize(p));
    DropFromCache(s.capacity, s.cache, s.holders, k, v);
    RetireBacks(s.holders, Live(s.log), lost, h, v);
    RetireFrees(s.free, s.holders, h, v);
    assert Truthful(t.describe, t.holders, t.log);
    assert Framed(t.frames, t.holders);
  }

  lemma CarriedIsLive<H>(s: State<H>, lost: set<nat>, h: H)
    requires Inv(s, lost) && h in s.holders && s.holders[h].sql.Some?
    ensures s.holders[h].ptr in Live(s.log) && s.holders[h].ptr < s.nextPtr
  {
    hide Live, WellUsed, Cached, Freed, Framed, Guarded;
    assert Prepare(s.holders[h].ptr, s.holders[h].sql.value) in s.log;
  }
}
