/** What each parked request is answered with, over every run: its own connection, or an exception with a reason. */
module PoolAnswers {
  import opened Configuration
  import opened PoolModel
  import opened PoolInvariants
  import opened PoolWaiting
  import opened PoolQueue
  import opened PoolRequests
  import opened PoolPasses
  import opened PoolRuns

  // ---- What was asked ----------------------------------------------------------------------------

  /** The requests parked so far, by ticket: a step that hands out a ticket parks the request it came with. */
  function Noted(s: State, step: Step, env: Env, known: map<Ticket, Request>): map<Ticket, Request> {
    if step.AcquireStep? && Next(s, step, env).nextTicket > s.nextTicket
    then known[s.nextTicket := step.request] else known
  }

  function Asked(s: State, run: seq<Event>, known: map<Ticket, Request>): map<Ticket, Request>
    decreases run
  {
    if run == [] then known
    else Asked(Next(s, run[0].step, run[0].env), run[1..], Noted(s, run[0].step, run[0].env, known))
  }

  /** A held connection is what the request asked for: in its mode, and the primary one if it insists. */
  predicate Suits(r: Request, h: Held) {
    h.grantedReadOnly == r.readOnly && (r.wantPrimary ==> h.conn.primary)
  }

  /** The connection is held, and suits what was asked under ticket `t`. */
  ghost predicate SuitsAt(p: Pool, known: map<Ticket, Request>, t: Ticket, id: nat) {
    t in known && id in p.acquired && Suits(known[t], p.acquired[id])
  }

  /** Every ticket is known, the queue holds what was asked, and every assignment suits what was asked. */
  ghost predicate Fits(s: State, known: map<Ticket, Request>) {
    && (forall t: Ticket :: t in known <==> t < s.nextTicket)
    && (forall w :: w in s.queue ==> w.ticket in known && known[w.ticket] == w.request)
    && (forall t :: t in s.outcomes && s.outcomes[t].Assigned? ==> SuitsAt(s.pool, known, t, s.outcomes[t].id))
  }

  // ---- Every step keeps it -----------------------------------------------------------------------

  /** Who is queued after a step: who was before, and the request a first block has just parked. */
  lemma QueueSource(s: State, step: Step, env: Env, w: Waiter)
    requires Inv(s) && Enabled(s, step) && w in Next(s, step, env).queue
    ensures w in s.queue || (step.AcquireStep? && w == Waiter(s.nextTicket, step.request)
                             && Next(s, step, env).nextTicket == s.nextTicket + 1)
  {
    hide Inv, PoolInv, Enabled, WakeAll, TryServe, TakeBack, ReconfigurePool, Insert;
    StepIsPass(s, step, env);
    if PassOf(s, step, env).Some? {
      PassStart(s, step, env);
      KeptAreQueued(PassOf(s, step, env).value, env);
    } else if step.AcquireStep? {
      InsertMembers(s.queue, Waiter(s.nextTicket, step.request));
    }
  }

  lemma KeptAreQueued(u: State, env: Env)
    ensures forall w :: w in WakeAll(u, env).queue ==> w in u.queue
  {
    hide Wake, KeptOf, Settle;
    KeptMembers(u.queue, Wake(u.pool, env, u.queue, FRESH).fates);
  }

  lemma TicketsGrow(s: State, step: Step, env: Env)
    ensures var n := Next(s, step, env).nextTicket;
            n == s.nextTicket || (step.AcquireStep? && n == s.nextTicket + 1)
  {
    hide Wake, TryServe, TakeBack, ReconfigurePool, Insert;
  }

  /** An assignment that was there before a step still suits: nobody else can release or leak the connection. */
  lemma OldAssignmentSuits(s: State, step: Step, env: Env, known: map<Ticket, Request>, t: Ticket)
    requires Inv(s) && Enabled(s, step) && Fits(s, known) && t in s.outcomes && s.outcomes[t].Assigned?
    ensures SuitsAt(Next(s, step, env).pool, known, t, s.outcomes[t].id)
  {
    hide Inv, Next;
    var id := s.outcomes[t].id;
    assert InFlight(s, id);
    NextKeepsHeld(s, step, env, id);
  }

  /** So does one that the step has made. */
  lemma NewAssignmentSuits(s: State, step: Step, env: Env, known: map<Ticket, Request>, t: Ticket)
    requires Inv(s) && Enabled(s, step) && Fits(s, known)
    requires var s' := Next(s, step, env);
             t in s'.outcomes && s'.outcomes[t].Assigned? && !(t in s.outcomes && s.outcomes[t] == s'.outcomes[t])
    ensures var s' := Next(s, step, env); SuitsAt(s'.pool, known, t, s'.outcomes[t].id)
  {
    hide Inv, PoolInv, Apart, Enabled, Next, PassOf, WakeAll, Wake;
    StepIsPass(s, step, env);
    PassStart(s, step, env);
    var u := PassOf(s, step, env).value;
    var k := OutcomeSource(u, env, t);
    assert k != -1;
    assert u.queue[k] in u.queue;
    WakeSetsMode(u.pool, env, u.queue, FRESH, k);
    WakeAllPool(u, env);
  }

  lemma NextKeepsFits(s: State, step: Step, env: Env, known: map<Ticket, Request>)
    requires Inv(s) && Enabled(s, step) && Fits(s, known)
    ensures Fits(Next(s, step, env), Noted(s, step, env, known))
  {
    hide Inv, Enabled, Next, Suits;
    var s', noted := Next(s, step, env), Noted(s, step, env, known);
    TicketsGrow(s, step, env);
    forall w | w in s'.queue ensures w.ticket in noted && noted[w.ticket] == w.request {
      QueueSource(s, step, env, w);
    }
    forall t | t in s'.outcomes && s'.outcomes[t].Assigned? ensures SuitsAt(s'.pool, noted, t, s'.outcomes[t].id) {
      if t in s.outcomes && s.outcomes[t] == s'.outcomes[t] {
        OldAssignmentSuits(s, step, env, known, t);
      } else {
        NewAssignmentSuits(s, step, env, known, t);
      }
      assert SuitsAt(s'.pool, known, t, s'.outcomes[t].id);
    }
  }

  lemma {:induction false} RunKeepsFits(s: State, run: seq<Event>, known: map<Ticket, Request>)
    requires Inv(s) && Legal(s, run) && Fits(s, known)
    ensures Fits(After(s, run), Asked(s, run, known))
    decreases run
  {
    hide Inv, Enabled, Next, Fits, Noted;
    if run != [] {
      NextKeepsInv(s, run[0].step, run[0].env);
      NextKeepsFits(s, run[0].step, run[0].env, known);
      RunKeepsFits(Next(s, run[0].step, run[0].env), run[1..], Noted(s, run[0].step, run[0].env, known));
    }
  }

  // ---- The answers -------------------------------------------------------------------------------

  /**
    What a waiting thread is answered when it looks: with the pool closed an exception; otherwise the connection
    it was assigned, which it then holds and which suits the request it parked; an exception if its request
    failed; and nothing, with nothing changed, while its request is queued.
   */
  lemma RequestIsAnswered(config: Config, build: Build, run: seq<Event>, t: Ticket, env: Env)
    requires PoolRun(config, build, run) && Pending(After(Start(config, build), run), t)
    ensures var s := After(Start(config, build), run);
            var s', known := Next(s, PickUpStep(t), env), Asked(Start(config, build), run, map[]);
            && (!s.pool.open ==> t in s'.delivered && s'.delivered[t] == Exception)
            && (s.pool.open && t in s.outcomes && s.outcomes[t] == Raised ==>
                  t in s'.delivered && s'.delivered[t] == Exception)
            && (s.pool.open && t in s.outcomes && s.outcomes[t].Assigned? ==>
                  && t in s'.delivered && s'.delivered[t] == Connection(s.outcomes[t].id)
                  && SuitsAt(s'.pool, known, t, s.outcomes[t].id))
            && (s.pool.open && t !in s.outcomes ==> s' == s && Queued(s.queue, t))
            && s'.pool == s.pool && s'.queue == s.queue && t !in s'.outcomes
  {
    hide PoolInv, Legal, After, Asked, Apart, Exclusive, NoneForgotten, SuitsAt;
    var s, known := After(Start(config, build), run), Asked(Start(config, build), run, map[]);
    ReachableInv(config, build, run);
    StartHasInv(config, build);
    RunKeepsFits(Start(config, build), run, map[]);
  }

  /** An answer comes from the own thread of the request, and an exception has one of two reasons. */
  lemma AnswerComesFrom(s: State, step: Step, env: Env, t: Ticket)
    requires t !in s.delivered && t in Next(s, step, env).delivered
    ensures step == PickUpStep(t)
    ensures Next(s, step, env).delivered[t] == Exception <==>
              !s.pool.open || (t in s.outcomes && s.outcomes[t] == Raised)
    ensures forall id :: Next(s, step, env).delivered[t] == Connection(id) <==>
                           s.pool.open && t in s.outcomes && s.outcomes[t] == Assigned(id)
  {
    hide Wake, TryServe, TakeBack, ReconfigurePool, Insert;
  }

  // ---- Why a parked request fails ----------------------------------------------------------------

  lemma ServiceFailsOnlyIf(p: Pool, env: Env, r: Request, flags: Flags)
    requires Owned(p)
    ensures var s := TryServe(p, env, r, flags);
            p.nextId <= s.pool.nextId && (s.attempt.Threw? ==> s.pool.nextId == p.nextId + 1 && !env.opens(p.nextId))
  {
  }

  /** A waiter fails in a pass only if a connection that the pass set out to open did not open. */
  lemma {:induction false} WakeFailsOnlyIf(p: Pool, env: Env, todo: seq<Waiter>, flags: Flags, j: nat)
    requires PoolInv(p) && Justified(p, flags) && j < |todo|
    ensures var pass := Wake(p, env, todo, flags);
            pass.fates[j].Failed? ==> exists n :: p.nextId <= n < pass.pool.nextId && !env.opens(n)
    decreases todo
  {
    hide PoolInv, Owned, TryServe, Justified, Wake;
    if p.open {
      PoolInvOwned(p);
      WakeUnfolds(p, env, todo, flags, j);
      ServiceFailsOnlyIf(p, env, todo[0].request, flags);
      TryServeFacts(p, env, todo[0].request, flags);
      TryServeKeepsPoolInv(p, env, todo[0].request, flags);
      var s := TryServe(p, env, todo[0].request, flags);
      WakeGrows(s.pool, env, todo[1..], s.flags);
      if j > 0 {
        WakeFailsOnlyIf(s.pool, env, todo[1..], s.flags, j - 1);
      }
    } else {
      ClosedDropsAll(p, env, todo, flags);
    }
  }

  /** A parked request fails only by its own cancellation, or because the step could not open a connection. */
  lemma FailureComesFrom(s: State, step: Step, env: Env, t: Ticket)
    requires Inv(s) && Enabled(s, step) && t !in s.outcomes
    requires t in Next(s, step, env).outcomes && Next(s, step, env).outcomes[t] == Raised
    ensures step == CancelStep(t) || exists n :: s.pool.nextId <= n < Next(s, step, env).pool.nextId && !env.opens(n)
  {
    hide Inv, PoolInv, Apart, Enabled, WakeAll, Wake, TryServe, TakeBack, ReconfigurePool, Insert;
    StepIsPass(s, step, env);
    if PassOf(s, step, env).Some? {
      PassStart(s, step, env);
      var u := PassOf(s, step, env).value;
      var k := OutcomeSource(u, env, t);
      if k != -1 {
        WakeFailsOnlyIf(u.pool, env, u.queue, FRESH, k);
        PassNumbers(s, step, env);
        WakeAllPool(u, env);
      }
    }
  }

  lemma PassNumbers(s: State, step: Step, env: Env)
    requires PassOf(s, step, env).Some?
    ensures s.pool.nextId <= PassOf(s, step, env).value.pool.nextId
  {
  }
}
