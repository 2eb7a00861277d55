/** What exactly one attempt to serve a request comes to, read off the pool before the attempt. */
module PoolServices {
  import opened Options
  import opened Sequences
  import opened Configuration
  import opened PoolModel
  import opened PoolInvariants
  import opened PoolWaiting

  // ---- Which idle connection ---------------------------------------------------------------------

  /**
    Position `k` is the one to take: the first connection that has the statement in its cache, if the request names
    a statement, there is a choice and one has it; otherwise the last.
   */
  ghost predicate Preferred(idle: seq<Conn>, env: Env, sql: Option<string>, k: nat) {
    && k < |idle|
    && if |idle| > 1 && sql.Some? && exists i :: 0 <= i < |idle| && env.caches(idle[i].id, sql.value)
       then env.caches(idle[k].id, sql.value) && forall i :: 0 <= i < k ==> !env.caches(idle[i].id, sql.value)
       else k == |idle| - 1
  }

  lemma {:induction false} FirstCachedIs(idle: seq<Conn>, env: Env, sql: string, i: nat)
    requires i <= |idle| && idle != []
    requires forall j :: 0 <= j < i ==> !env.caches(idle[j].id, sql)
    ensures var k := FirstCached(idle, env, sql, i);
            if exists j :: 0 <= j < |idle| && env.caches(idle[j].id, sql)
            then env.caches(idle[k].id, sql) && forall j :: 0 <= j < k ==> !env.caches(idle[j].id, sql)
            else k == |idle| - 1
    decreases |idle| - i
  {
    if i < |idle| && !env.caches(idle[i].id, sql) {
      FirstCachedIs(idle, env, sql, i + 1);
    }
  }

  lemma ChooseIsPreferred(idle: seq<Conn>, env: Env, sql: Option<string>)
    requires idle != []
    ensures Preferred(idle, env, sql, Choose(idle, env, sql))
  {
    if sql.Some? {
      FirstCachedIs(idle, env, sql.value, 0);
    }
  }

  // ---- Which kind, and from where ----------------------------------------------------------------

  /** The request is served with a non-primary connection: it does not insist, and there is one or may be one. */
  predicate TakesNonPrimary(p: Pool, r: Request) {
    !r.wantPrimary && !NonPrimariesTaken(p)
  }

  /** A connection has to be opened for the request. */
  predicate NeedsOpening(p: Pool, r: Request) {
    if TakesNonPrimary(p, r) then p.idle == [] else p.idlePrimary.None?
  }

  /** `c` was idle before, at the place where the request takes it from, and that place is empty now. */
  ghost predicate TakenFromIdle(p: Pool, q: Pool, env: Env, r: Request, c: Conn) {
    && q.nextId == p.nextId
    && if TakesNonPrimary(p, r)
       then q.idlePrimary == p.idlePrimary
            && exists k: nat :: Preferred(p.idle, env, r.sql, k) && c == p.idle[k] && q.idle == Without(p.idle, k)
       else p.idlePrimary == Some(c) && q.idlePrimary.None? && q.idle == p.idle
  }

  /** `c` was opened under the next number with the configuration of the pool, and nothing idle was touched. */
  ghost predicate NewlyOpened(p: Pool, q: Pool, c: Conn) {
    && c.id == p.nextId && q.nextId == p.nextId + 1 && Current(c, p.config)
    && q.idlePrimary == p.idlePrimary && q.idle == p.idle
  }

  /** From pool `p` the request is handed connection `c`, of the right kind, in its own mode, and `q` is left. */
  ghost predicate Hands(p: Pool, q: Pool, env: Env, r: Request, c: Conn) {
    && c.id !in p.acquired && c.primary == !TakesNonPrimary(p, r)
    && q.acquired == p.acquired[c.id := Held(c.(readOnly := r.readOnly), Normal, r.readOnly)]
    && (if NeedsOpening(p, r) then NewlyOpened(p, q, c) else TakenFromIdle(p, q, env, r, c))
  }

  lemma PrimaryServiceIs(p: Pool, env: Env, r: Request)
    requires Owned(p) && !TakesNonPrimary(p, r)
    ensures var s := TryPrimary(p, env, r.readOnly);
            && (s.attempt.Unavailable? <==> PrimaryTaken(p))
            && (s.attempt.Threw? <==> !PrimaryTaken(p) && NeedsOpening(p, r) && !env.opens(p.nextId))
            && (s.attempt.Threw? ==> s.pool == p.(nextId := p.nextId + 1))
            && (s.attempt.Got? ==> exists c: Conn :: c.id == s.attempt.id && Hands(p, s.pool, env, r, c))
  {
    var s := TryPrimary(p, env, r.readOnly);
    if s.attempt.Got? {
      var c := if p.idlePrimary.Some? then p.idlePrimary.value else Opened(p.nextId, true, p.config);
      assert Hands(p, s.pool, env, r, c);
    }
  }

  lemma NonPrimaryServiceIs(p: Pool, env: Env, r: Request)
    requires Owned(p) && TakesNonPrimary(p, r)
    ensures var s := TryNonPrimary(p, env, r.sql, r.readOnly);
            && !s.attempt.Unavailable?
            && (s.attempt.Threw? <==> NeedsOpening(p, r) && !env.opens(p.nextId))
            && (s.attempt.Threw? ==> s.pool == p.(nextId := p.nextId + 1))
            && (s.attempt.Got? ==> exists c: Conn :: c.id == s.attempt.id && Hands(p, s.pool, env, r, c))
  {
    var s := TryNonPrimary(p, env, r.sql, r.readOnly);
    if p.idle != [] {
      hide Preferred, Choose, Without;
      ChooseIsPreferred(p.idle, env, r.sql);
      var k := Choose(p.idle, env, r.sql);
      assert IdleAt(p, p.idle[k]);
      assert Hands(p, s.pool, env, r, p.idle[k]);
    } else if s.attempt.Got? {
      assert Hands(p, s.pool, env, r, Opened(p.nextId, false, p.config));
    }
  }

  /**
    The outcome of an attempt, in full: nothing exactly for a blocked request; otherwise a failed opening, which
    uses up a number and nothing else; otherwise exactly one more acquired connection, of the right kind, in the
    mode of the request, new if one had to be opened and else the preferred idle one.
   */
  lemma ServiceIs(p: Pool, env: Env, r: Request)
    requires Owned(p)
    ensures var s := TryServe(p, env, r, FRESH);
            && (s.attempt.Unavailable? <==> Blocked(p, r))
            && (s.attempt.Threw? <==> !Blocked(p, r) && NeedsOpening(p, r) && !env.opens(p.nextId))
            && (s.attempt.Threw? ==> s.pool == p.(nextId := p.nextId + 1))
            && (s.attempt.Got? ==> exists c: Conn :: c.id == s.attempt.id && Hands(p, s.pool, env, r, c))
  {
    hide Owned, Hands, TryPrimary, NeedsOpening;
    if TakesNonPrimary(p, r) {
      NonPrimaryServiceIs(p, env, r);
    } else {
      PrimaryServiceIs(p, env, r);
    }
  }
}
