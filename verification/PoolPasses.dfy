/** The wake pass that a step ends with, and the state it starts from. */
module PoolPasses {
  import opened Options
  import opened PoolModel
  import opened PoolInvariants
  import opened PoolSteps
  import opened PoolQueue
  import opened PoolRequests

  /** The state a step has reached when it begins to wake waiters, if it wakes any. */
  function PassOf(s: State, step: Step, env: Env): Option<State> {
    match step
    case CancelStep(t) => if Queued(s.queue, t) then Some(Unlinked(s, t)) else None
    case ReleaseStep(id) =>
      if id in s.pool.acquired && !ReleaseSkipsWake(s.pool, s.pool.acquired[id])
      then Some(s.(pool := TakeBack(s.pool, id, env))) else None
    case ReconfigureStep(config) =>
      var r := ReconfigurePool(s.pool, config, env);
      if r.Applied? then Some(s.(pool := r.pool)) else None
    case CloseStep => if s.pool.open then Some(s.(pool := CloseIdle(s.pool).(open := false))) else None
    case RecoverStep =>
      if s.leaks.recovering > 0 then Some(s.(leaks := s.leaks.(recovering := s.leaks.recovering - 1))) else None
    case _ => None
  }

  /** Every assignment of `b` is one of `a`. */
  ghost predicate NoNewAssignment(a: map<Ticket, Outcome>, b: map<Ticket, Outcome>) {
    forall t :: t in b && b[t].Assigned? ==> t in a && a[t] == b[t]
  }

  /** A step that wakes waiters is that wake pass; one that does not assigns nothing. */
  lemma StepIsPass(s: State, step: Step, env: Env)
    ensures var pass := PassOf(s, step, env);
            if pass.Some? then Next(s, step, env) == WakeAll(pass.value, env)
            else NoNewAssignment(s.outcomes, Next(s, step, env).outcomes)
  {
    hide WakeAll, TakeBack, ReconfigurePool, ReleaseSkipsWake, TryServe;
  }

  /** What holds when a step begins its pass: the invariants, and nothing has joined the queue or been assigned. */
  lemma PassStart(s: State, step: Step, env: Env)
    requires Inv(s) && Enabled(s, step) && PassOf(s, step, env).Some?
    ensures var u := PassOf(s, step, env).value;
            && PoolInv(u.pool) && Apart(u) && NoNewAssignment(s.outcomes, u.outcomes)
            && forall w :: w in u.queue ==> w in s.queue
  {
    hide PoolInv, TakeBack, ReconfigurePool, ReleaseSkipsWake, Ordered, Remove, Located, Exclusive, NoneForgotten;
    match step
    case CancelStep(t) =>
      var k :| 0 <= k < |s.queue| && s.queue[k].ticket == t;
      RemoveKeepsOrdered(s.queue, k);
      UnlinkKeepsApart(s, k);
    case ReleaseStep(id) =>
      TakeBackKeepsPoolInv(s.pool, id, env);
    case ReconfigureStep(config) =>
      ReconfigureKeepsPoolInv(s.pool, config, env);
    case CloseStep =>
      CloseIdleKeepsPoolInv(s.pool);
    case _ =>
  }

  lemma WakeAllPool(u: State, env: Env)
    ensures WakeAll(u, env).pool == Wake(u.pool, env, u.queue, FRESH).pool
  {
  }
}
