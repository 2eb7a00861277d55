/** A wake pass cut at any waiter: what is done so far, and what the rest of the pass will add. */
module WakeProgress {
  import opened Sequences
  import opened PoolModel
  import opened PoolQueue

  datatype Progress = Progress(pool: Pool, queue: seq<Waiter>, outcomes: map<Ticket, Outcome>)

  /** The end of a pass that has kept `kept`, has `todo` ahead of it and has recorded `outcomes`. */
  function Finish(p: Pool, env: Env, kept: seq<Waiter>, todo: seq<Waiter>, outcomes: map<Ticket, Outcome>,
                  flags: Flags): Progress
  {
    var pass := Wake(p, env, todo, flags);
    Progress(pass.pool, kept + KeptOf(todo, pass.fates), Settle(outcomes, todo, pass.fates))
  }

  lemma FinishEnd(p: Pool, env: Env, kept: seq<Waiter>, outcomes: map<Ticket, Outcome>, flags: Flags)
    ensures Finish(p, env, kept, [], outcomes, flags) == Progress(p, kept, outcomes)
  {
  }

  lemma FinishDrop(p: Pool, env: Env, kept: seq<Waiter>, todo: seq<Waiter>, outcomes: map<Ticket, Outcome>,
                   flags: Flags)
    requires todo != [] && !p.open
    ensures Finish(p, env, kept, todo, outcomes, flags) == Finish(p, env, kept, todo[1..], outcomes, flags)
  {
    hide TryServe;
    var rest := Wake(p, env, todo[1..], flags);
    assert ([Dropped] + rest.fates)[1..] == rest.fates;
  }

  lemma FinishServe(p: Pool, env: Env, kept: seq<Waiter>, todo: seq<Waiter>, outcomes: map<Ticket, Outcome>,
                    flags: Flags)
    requires todo != [] && p.open
    requires var s := TryServe(p, env, todo[0].request, flags); !(s.attempt.Unavailable? && s.flags == Flags(true, true))
    ensures var s := TryServe(p, env, todo[0].request, flags);
            Finish(p, env, kept, todo, outcomes, flags)
            == Finish(s.pool, env, if s.attempt.Unavailable? then kept + [todo[0]] else kept, todo[1..],
                      SettleOne(outcomes, todo[0].ticket, FateOf(s.attempt)), s.flags)
  {
    hide TryServe;
    var s := TryServe(p, env, todo[0].request, flags);
    var rest := Wake(s.pool, env, todo[1..], s.flags);
    assert ([FateOf(s.attempt)] + rest.fates)[1..] == rest.fates;
    var tail := KeptOf(todo[1..], rest.fates);
    if s.attempt.Unavailable? {
      assert kept + ([todo[0]] + tail) == (kept + [todo[0]]) + tail;
    } else {
      assert kept + ([] + tail) == kept + tail;
    }
  }

  lemma {:induction false} AllKept(q: seq<Waiter>, outcomes: map<Ticket, Outcome>)
    ensures KeptOf(q, seq(|q|, _ => Kept)) == q
    ensures Settle(outcomes, q, seq(|q|, _ => Kept)) == outcomes
  {
    if q != [] {
      AllKept(q[1..], outcomes);
      assert seq(|q|, _ => Kept)[1..] == seq(|q[1..]|, _ => Kept);
    }
  }

  lemma FinishBreak(p: Pool, env: Env, kept: seq<Waiter>, todo: seq<Waiter>, outcomes: map<Ticket, Outcome>,
                    flags: Flags)
    requires todo != [] && p.open
    requires var s := TryServe(p, env, todo[0].request, flags); s.attempt.Unavailable? && s.flags == Flags(true, true)
    ensures var s := TryServe(p, env, todo[0].request, flags);
            Finish(p, env, kept, todo, outcomes, flags) == Progress(s.pool, kept + todo, outcomes)
  {
    AllKept(todo, outcomes);
  }

  /** The state of a pass after one turn: `k` waiters kept so far, and whether the pass is over. */
  datatype Turn = Turn(pool: Pool, queue: seq<Waiter>, outcomes: map<Ticket, Outcome>, k: nat, flags: Flags, stop: bool)

  /** One turn of a pass: the waiter at position `k` is dropped, answered, kept, or ends the pass. */
  function TurnOf(p: Pool, env: Env, q: seq<Waiter>, outcomes: map<Ticket, Outcome>, k: nat, flags: Flags): (t: Turn)
    requires k < |q|
    ensures t.k <= |t.queue|
  {
    if !p.open then Turn(p, Without(q, k), outcomes, k, flags, false)
    else
      var s := TryServe(p, env, q[k].request, flags);
      if !s.attempt.Unavailable? then
        Turn(s.pool, Without(q, k), SettleOne(outcomes, q[k].ticket, FateOf(s.attempt)), k, s.flags, false)
      else if s.flags == Flags(true, true) then
        Turn(s.pool, q, outcomes, k, s.flags, true)
      else
        Turn(s.pool, q, outcomes, k + 1, s.flags, false)
  }

  /** A turn does not change where the pass ends up. */
  lemma FinishTurn(p: Pool, env: Env, q: seq<Waiter>, outcomes: map<Ticket, Outcome>, k: nat, flags: Flags)
    requires k < |q|
    ensures var t := TurnOf(p, env, q, outcomes, k, flags);
            var end := Finish(p, env, q[..k], q[k..], outcomes, flags);
            && (t.stop ==> end == Progress(t.pool, t.queue, t.outcomes))
            && (!t.stop ==> end == Finish(t.pool, env, t.queue[..t.k], t.queue[t.k..], t.outcomes, t.flags))
  {
    hide Finish, TryServe;
    var kept, todo := q[..k], q[k..];
    var t := TurnOf(p, env, q, outcomes, k, flags);
    assert todo[0] == q[k];
    assert Without(q, k)[..k] == kept && Without(q, k)[k..] == todo[1..];
    if !p.open {
      FinishDrop(p, env, kept, todo, outcomes, flags);
    } else if t.stop {
      FinishBreak(p, env, kept, todo, outcomes, flags);
      assert kept + todo == q;
    } else {
      FinishServe(p, env, kept, todo, outcomes, flags);
      assert q[..k + 1] == kept + [todo[0]] && q[k + 1..] == todo[1..];
    }
  }

  lemma FinishIsWakeAll(s: State, env: Env)
    ensures var end := Finish(s.pool, env, [], s.queue, s.outcomes, FRESH);
            WakeAll(s, env) == s.(pool := end.pool, queue := end.queue, outcomes := end.outcomes)
  {
  }
}
