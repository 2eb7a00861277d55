/** Every parked request has one place and one answer, and a wake pass loses none of them. */
module PoolRequests {
  import opened Configuration
  import opened PoolModel
  import opened PoolInvariants
  import opened PoolSteps
  import opened PoolWaiting
  import opened PoolQueue

  // ---- The invariants ----------------------------------------------------------------------------

  /** The queue is in order, and queued, settled and answered requests do not overlap. */
  ghost predicate Apart(s: State) {
    && Ordered(s.queue)
    && (forall i :: 0 <= i < |s.queue| ==>
          var t := s.queue[i].ticket; t < s.nextTicket && t !in s.outcomes && t !in s.delivered)
    && (forall t :: t in s.outcomes ==> t < s.nextTicket && t !in s.delivered)
    && (forall t :: t in s.delivered ==> t < s.nextTicket)
  }

  /** While the pool is open, a pending request without an outcome is in the queue; a closed pool has no queue. */
  ghost predicate Located(s: State) {
    && (s.pool.open ==> forall t :: Pending(s, t) && t !in s.outcomes ==> Queued(s.queue, t))
    && (!s.pool.open ==> s.queue == [])
  }

  /** A connection assigned to a request is acquired, and assigned to no other request. */
  ghost predicate Exclusive(s: State) {
    && (forall t :: t in s.outcomes && s.outcomes[t].Assigned? ==> s.outcomes[t].id in s.pool.acquired)
    && (forall t, u :: (t in s.outcomes && u in s.outcomes && s.outcomes[t].Assigned? && s.outcomes[t] == s.outcomes[u]) ==> t == u)
  }

  /** No queued request could be served. */
  ghost predicate AllBlocked(s: State) {
    forall i :: 0 <= i < |s.queue| ==> Blocked(s.pool, s.queue[i].request)
  }

  /** No lost wake-up: an open pool with no leak under way has only blocked waiters. */
  ghost predicate NoneForgotten(s: State) {
    s.pool.open && s.leaks == NO_LEAKS ==> AllBlocked(s)
  }

  ghost predicate Inv(s: State) {
    PoolInv(s.pool) && Apart(s) && Located(s) && Exclusive(s) && NoneForgotten(s)
  }

  // ---- The wake pass -----------------------------------------------------------------------------

  lemma WakeAllKeepsApart(s: State, env: Env)
    requires Apart(s)
    ensures Apart(WakeAll(s, env))
  {
    hide Wake, KeptOf, Settle;
    var pass := Wake(s.pool, env, s.queue, FRESH);
    var s' := WakeAll(s, env);
    KeptIsOrdered(s.queue, pass.fates);
    KeptMembers(s.queue, pass.fates);
    assert forall i, j :: 0 <= i < j < |s.queue| ==> Before(s.queue[i], s.queue[j]);
    forall i | 0 <= i < |s'.queue|
      ensures var t := s'.queue[i].ticket; t < s.nextTicket && t !in s'.outcomes && t !in s.delivered
    {
      assert s'.queue[i] in s'.queue;
      var k :| 0 <= k < |s.queue| && s.queue[k] == s'.queue[i] && pass.fates[k].Kept?;
      SettleEach(s.outcomes, s.queue, pass.fates, k);
    }
    forall t | t in s'.outcomes ensures t < s.nextTicket && t !in s.delivered {
      if !Queued(s.queue, t) {
        SettleOthers(s.outcomes, s.queue, pass.fates, t);
      }
    }
  }

  lemma WakeAllKeepsLocated(s: State, env: Env)
    requires PoolInv(s.pool) && Apart(s)
    requires s.pool.open ==> Located(s)
    ensures Located(WakeAll(s, env))
    ensures WakeAll(s, env).pool.open == s.pool.open
  {
    hide PoolInv, Wake, KeptOf, Settle, Blocked;
    var pass := Wake(s.pool, env, s.queue, FRESH);
    var s' := WakeAll(s, env);
    WakeKeepsPoolInv(s.pool, env, s.queue, FRESH);
    if s.pool.open {
      assert forall i, j :: 0 <= i < j < |s.queue| ==> Before(s.queue[i], s.queue[j]);
      forall t | Pending(s', t) && t !in s'.outcomes ensures Queued(s'.queue, t) {
        if t in s.outcomes {
          SettleOthers(s.outcomes, s.queue, pass.fates, t);
        } else {
          assert Pending(s, t);
          var k :| 0 <= k < |s.queue| && s.queue[k].ticket == t;
          SettleEach(s.outcomes, s.queue, pass.fates, k);
          WakeLeavesBlocked(s.pool, env, s.queue, FRESH, k);
          KeptContains(s.queue, pass.fates, k);
        }
      }
    } else {
      ClosedDropsAll(s.pool, env, s.queue, FRESH);
    }
  }

  /** The fate of a waiter that ends with outcome `o`. */
  function FateBehind(o: Outcome): Fate {
    match o
    case Assigned(id) => Served(id)
    case Raised => Failed
  }

  /** Where an outcome found after a wake pass comes from: it was there before, or the pass decided about a waiter. */
  lemma OutcomeSource(s: State, env: Env, t: Ticket) returns (k: int)
    requires Apart(s) && t in WakeAll(s, env).outcomes
    ensures k == -1 ==> t in s.outcomes && s.outcomes[t] == WakeAll(s, env).outcomes[t]
    ensures k != -1 ==> && 0 <= k < |s.queue| && s.queue[k].ticket == t
                        && Wake(s.pool, env, s.queue, FRESH).fates[k] == FateBehind(WakeAll(s, env).outcomes[t])
  {
    hide Wake, KeptOf, Settle;
    var pass := Wake(s.pool, env, s.queue, FRESH);
    if Queued(s.queue, t) {
      k :| 0 <= k < |s.queue| && s.queue[k].ticket == t;
      assert forall i, j :: 0 <= i < j < |s.queue| ==> Before(s.queue[i], s.queue[j]);
      SettleEach(s.outcomes, s.queue, pass.fates, k);
    } else {
      SettleOthers(s.outcomes, s.queue, pass.fates, t);
      k := -1;
    }
  }

  lemma WakeAllKeepsExclusive(s: State, env: Env)
    requires PoolInv(s.pool) && Apart(s) && Exclusive(s)
    ensures Exclusive(WakeAll(s, env))
  {
    hide PoolInv, Wake, KeptOf, Settle, Apart;
    var s' := WakeAll(s, env);
    WakeGrows(s.pool, env, s.queue, FRESH);
    forall t | t in s'.outcomes && s'.outcomes[t].Assigned? ensures s'.outcomes[t].id in s'.pool.acquired {
      var k := OutcomeSource(s, env, t);
      if k != -1 {
        WakeHandsOutNew(s.pool, env, s.queue, FRESH, k);
      }
    }
    forall t, u | t in s'.outcomes && u in s'.outcomes && s'.outcomes[t].Assigned? && s'.outcomes[t] == s'.outcomes[u]
      ensures t == u
    {
      WakeAllAssignsOnce(s, env, t, u);
    }
  }

  lemma WakeAllAssignsOnce(s: State, env: Env, t: Ticket, u: Ticket)
    requires PoolInv(s.pool) && Apart(s) && Exclusive(s)
    requires t in WakeAll(s, env).outcomes && u in WakeAll(s, env).outcomes
    requires WakeAll(s, env).outcomes[t].Assigned? && WakeAll(s, env).outcomes[t] == WakeAll(s, env).outcomes[u]
    ensures t == u
  {
    hide PoolInv, Wake, KeptOf, Settle, Apart;
    var k := OutcomeSource(s, env, t);
    var m := OutcomeSource(s, env, u);
    if k != -1 {
      WakeHandsOutNew(s.pool, env, s.queue, FRESH, k);
    }
    if m != -1 {
      WakeHandsOutNew(s.pool, env, s.queue, FRESH, m);
    }
    if k != -1 && m != -1 && k != m {
      WakeHandsOutOnce(s.pool, env, s.queue, FRESH, if k < m then k else m, if k < m then m else k);
    }
  }

  lemma WakeAllBlocksAll(s: State, env: Env)
    requires PoolInv(s.pool) && s.pool.open
    ensures AllBlocked(WakeAll(s, env))
  {
    hide PoolInv, Wake, KeptOf, Settle, Blocked;
    var pass := Wake(s.pool, env, s.queue, FRESH);
    var s' := WakeAll(s, env);
    KeptMembers(s.queue, pass.fates);
    forall i | 0 <= i < |s'.queue| ensures Blocked(s'.pool, s'.queue[i].request) {
      assert s'.queue[i] in s'.queue;
      var k :| 0 <= k < |s.queue| && s.queue[k] == s'.queue[i] && pass.fates[k].Kept?;
      WakeLeavesBlocked(s.pool, env, s.queue, FRESH, k);
    }
  }

  /** What a step must establish before its final wake pass. */
  ghost predicate Ready(s: State) {
    PoolInv(s.pool) && Apart(s) && (s.pool.open ==> Located(s)) && Exclusive(s)
  }

  lemma WakeAllGivesInv(s: State, env: Env)
    requires Ready(s)
    ensures Inv(WakeAll(s, env))
  {
    hide PoolInv, Apart, Located, Exclusive, AllBlocked, Wake;
    WakeKeepsPoolInv(s.pool, env, s.queue, FRESH);
    WakeAllKeepsApart(s, env);
    WakeAllKeepsLocated(s, env);
    WakeAllKeepsExclusive(s, env);
    if s.pool.open {
      WakeAllBlocksAll(s, env);
    }
  }

  // ---- The steps ---------------------------------------------------------------------------------

  lemma AcquireKeepsInv(s: State, r: Request, canceled: bool, env: Env)
    requires Inv(s)
    ensures Inv(Acquire(s, r, canceled, env))
  {
    hide PoolInv, Grows, TryServe, Insert, Blocked, Apart;
    if s.pool.open && !canceled {
      PoolInvOwned(s.pool);
      TryServeKeepsPoolInv(s.pool, env, r, FRESH);
      TryServeFacts(s.pool, env, r, FRESH);
      var service := TryServe(s.pool, env, r, FRESH);
      if service.attempt.Unavailable? {
        ParkKeepsInv(s, r);
      } else {
        GrowKeepsRequests(s, service.pool);
      }
    }
  }

  lemma GrowKeepsRequests(s: State, q: Pool)
    requires Apart(s) && Located(s) && Exclusive(s) && NoneForgotten(s) && Grows(s.pool, q)
    ensures var s' := s.(pool := q); Apart(s') && Located(s') && Exclusive(s') && NoneForgotten(s')
  {
    hide Blocked;
    if s.pool.open && s.leaks == NO_LEAKS {
      forall i | 0 <= i < |s.queue| ensures Blocked(q, s.queue[i].request) {
        GrowsKeepsBlocked(s.pool, q, s.queue[i].request);
      }
    }
  }

  function Parked(s: State, r: Request): State {
    s.(queue := Insert(s.queue, Waiter(s.nextTicket, r)), nextTicket := s.nextTicket + 1)
  }

  lemma ParkKeepsInv(s: State, r: Request)
    requires Inv(s) && s.pool.open && Blocked(s.pool, r)
    ensures Inv(Parked(s, r))
  {
    hide PoolInv, Insert, Blocked;
    var w := Waiter(s.nextTicket, r);
    var s' := Parked(s, r);
    InsertKeepsOrdered(s.queue, w);
    InsertMembers(s.queue, w);
    assert forall i :: 0 <= i < |s'.queue| ==> s'.queue[i] in s'.queue;
    forall t | Pending(s', t) && t !in s'.outcomes ensures Queued(s'.queue, t) {
      if t == s.nextTicket {
        assert w in s'.queue;
      } else {
        assert Pending(s, t);
        var i :| 0 <= i < |s.queue| && s.queue[i].ticket == t;
        assert s.queue[i] in s'.queue;
      }
    }
  }

  function Unlinked(s: State, t: Ticket): State {
    s.(queue := Remove(s.queue, t), outcomes := s.outcomes[t := Raised])
  }

  lemma UnlinkKeepsApart(s: State, k: nat)
    requires Apart(s) && k < |s.queue|
    ensures Apart(Unlinked(s, s.queue[k].ticket))
  {
    hide Remove;
    RemoveKeepsOrdered(s.queue, k);
    var t, s1 := s.queue[k].ticket, Unlinked(s, s.queue[k].ticket);
    forall i | 0 <= i < |s1.queue| ensures s1.queue[i].ticket != t && s1.queue[i] in s.queue {
      var j := if i < k then i else i + 1;
      assert s1.queue[i] == s.queue[j];
      assert if j < k then Before(s.queue[j], s.queue[k]) else Before(s.queue[k], s.queue[j]);
    }
  }

  lemma UnlinkKeepsLocated(s: State, k: nat)
    requires Ordered(s.queue) && Located(s) && k < |s.queue|
    ensures Located(Unlinked(s, s.queue[k].ticket))
  {
    hide Remove;
    RemoveKeepsOrdered(s.queue, k);
    var s1 := Unlinked(s, s.queue[k].ticket);
    forall x | Pending(s1, x) && x !in s1.outcomes ensures Queued(s1.queue, x) {
      assert Pending(s, x);
      var i :| 0 <= i < |s.queue| && s.queue[i].ticket == x;
      assert s1.queue[if i < k then i else i - 1].ticket == x;
    }
  }

  lemma CancelKeepsInv(s: State, t: Ticket, env: Env)
    requires Inv(s)
    ensures Inv(Cancel(s, t, env))
  {
    hide PoolInv, Remove, WakeAll, Ordered, Located, NoneForgotten;
    if Queued(s.queue, t) {
      var k :| 0 <= k < |s.queue| && s.queue[k].ticket == t;
      UnlinkKeepsApart(s, k);
      UnlinkKeepsLocated(s, k);
      WakeAllGivesInv(Unlinked(s, t), env);
    }
  }

  /** A canceled request is out of the queue and fails, whatever the wake pass after it does. */
  lemma CancelRaises(s: State, t: Ticket, env: Env)
    requires Apart(s) && Queued(s.queue, t)
    ensures var s' := Cancel(s, t, env); t in s'.outcomes && s'.outcomes[t] == Raised && !Queued(s'.queue, t)
  {
    hide Wake, KeptOf, Settle, Remove, Ordered;
    var k :| 0 <= k < |s.queue| && s.queue[k].ticket == t;
    UnlinkKeepsApart(s, k);
    var u := Unlinked(s, t);
    var fates := Wake(u.pool, env, u.queue, FRESH).fates;
    SettleOthers(u.outcomes, u.queue, fates, t);
    KeptMembers(u.queue, fates);
    var kept := KeptOf(u.queue, fates);
    forall i | 0 <= i < |kept| ensures kept[i].ticket != t {
      assert kept[i] in kept;
    }
  }

  lemma PickUpKeepsInv(s: State, t: Ticket)
    requires Inv(s) && Pending(s, t)
    ensures Inv(PickUp(s, t))
  {
    hide PoolInv, Blocked;
    var s' := PickUp(s, t);
    assert forall x :: Pending(s', x) ==> Pending(s, x);
  }

  /** The release branch that closes an excess connection without waking anyone leaves nobody servable. */
  lemma QuietReleaseKeepsBlocked(p: Pool, id: nat, r: Request)
    requires Bounded(p) && p.open && id in p.acquired && ReleaseSkipsWake(p, p.acquired[id])
    requires Blocked(p, r)
    ensures Blocked(Drop(p, id), r)
  {
    var a :| a in p.acquired && p.acquired[a].conn.primary;
    assert a in Drop(p, id).acquired && Drop(p, id).acquired[a].conn.primary;
    assert {a} <= Drop(p, id).acquired.Keys;
    SubsetCount({a}, Drop(p, id).acquired.Keys);
  }

  lemma ReleaseKeepsInv(s: State, id: nat, env: Env)
    requires Inv(s) && !InFlight(s, id)
    ensures Inv(Release(s, id, env))
  {
    hide PoolInv, WakeAll, Blocked, TakeBack, ReleaseSkipsWake;
    if id in s.pool.acquired {
      var t := s.(pool := TakeBack(s.pool, id, env));
      TakeBackKeepsPoolInv(s.pool, id, env);
      TakeBackKeepsExclusive(s, id, env);
      assert Apart(t) && Located(t);
      if ReleaseSkipsWake(s.pool, s.pool.acquired[id]) {
        QuietReleaseKeepsNoneForgotten(s, id, env);
      } else {
        WakeAllGivesInv(t, env);
      }
    }
  }

  lemma TakeBackKeepsExclusive(s: State, id: nat, env: Env)
    requires Exclusive(s) && !InFlight(s, id) && id in s.pool.acquired
    ensures Exclusive(s.(pool := TakeBack(s.pool, id, env)))
  {
    hide ReleaseSkipsWake, Recycle;
    assert TakeBack(s.pool, id, env).acquired == s.pool.acquired - {id};
  }

  lemma QuietReleaseKeepsNoneForgotten(s: State, id: nat, env: Env)
    requires PoolInv(s.pool) && NoneForgotten(s)
    requires id in s.pool.acquired && ReleaseSkipsWake(s.pool, s.pool.acquired[id])
    ensures NoneForgotten(s.(pool := TakeBack(s.pool, id, env)))
  {
    hide Blocked;
    assert TakeBack(s.pool, id, env) == Drop(s.pool, id);
    if s.pool.open && s.leaks == NO_LEAKS {
      forall i | 0 <= i < |s.queue| ensures Blocked(Drop(s.pool, id), s.queue[i].request) {
        QuietReleaseKeepsBlocked(s.pool, id, s.queue[i].request);
      }
    }
  }

  lemma ReconfigureKeepsKeys(p: Pool, config: Config, env: Env)
    ensures ReconfigurePool(p, config, env).pool.acquired.Keys == p.acquired.Keys
    ensures ReconfigurePool(p, config, env).pool.open == p.open
    ensures ReconfigurePool(p, config, env).Refused? && p.acquired != map[] ==>
              SameSettings(p, ReconfigurePool(p, config, env).pool)
              && ReconfigurePool(p, config, env).pool.idlePrimary == p.idlePrimary
              && ReconfigurePool(p, config, env).pool.idle == p.idle
              && ReconfigurePool(p, config, env).pool.acquired == p.acquired
  {
  }

  lemma RefusalKeepsNoneForgotten(s: State, config: Config, env: Env)
    requires NoneForgotten(s) && ReconfigurePool(s.pool, config, env).Refused?
    ensures NoneForgotten(s.(pool := ReconfigurePool(s.pool, config, env).pool))
  {
    hide ReconfigurePool;
    ReconfigureKeepsKeys(s.pool, config, env);
    if s.pool.open && s.leaks == NO_LEAKS && s.queue != [] {
      assert Blocked(s.pool, s.queue[0].request);
    }
  }

  lemma ReconfigureKeepsInv(s: State, config: Config, env: Env)
    requires Inv(s) && Extends(config, s.pool.config)
    ensures Inv(ReconfigureAll(s, config, env))
  {
    hide PoolInv, WakeAll, Blocked, ReconfigurePool, NoneForgotten;
    ReconfigureKeepsPoolInv(s.pool, config, env);
    ReconfigureKeepsKeys(s.pool, config, env);
    var s1 := s.(pool := ReconfigurePool(s.pool, config, env).pool);
    assert Apart(s1) && Located(s1) && Exclusive(s1);
    if ReconfigurePool(s.pool, config, env).Refused? {
      RefusalKeepsNoneForgotten(s, config, env);
    } else {
      WakeAllGivesInv(s1, env);
    }
  }

  lemma CloseKeepsInv(s: State, env: Env)
    requires Inv(s)
    ensures Inv(Close(s, env))
  {
    hide PoolInv, WakeAll, Blocked;
    if s.pool.open {
      CloseIdleKeepsPoolInv(s.pool);
      WakeAllGivesInv(s.(pool := CloseIdle(s.pool).(open := false)), env);
    }
  }

  lemma {:induction false} DroppedSettleNothing(outcomes: map<Ticket, Outcome>, q: seq<Waiter>, fates: seq<Fate>)
    requires |q| == |fates| && forall i :: 0 <= i < |fates| ==> fates[i].Dropped?
    ensures Settle(outcomes, q, fates) == outcomes
    decreases q
  {
    if q != [] {
      DroppedSettleNothing(outcomes, q[1..], fates[1..]);
    }
  }

  /** Closing ends it: nothing idle, nobody queued, no outcome made up, and what is held stays held. */
  lemma CloseEmpties(s: State, env: Env)
    ensures var s' := Close(s, env);
            && !s'.pool.open && s'.pool.acquired == s.pool.acquired && s'.outcomes == s.outcomes
            && (s.pool.open ==> s'.pool.idlePrimary.None? && s'.pool.idle == [] && s'.queue == [])
  {
    hide Wake, KeptOf, Settle;
    if s.pool.open {
      var p := CloseIdle(s.pool).(open := false);
      ClosedDropsAll(p, env, s.queue, FRESH);
      DroppedSettleNothing(s.outcomes, s.queue, Wake(p, env, s.queue, FRESH).fates);
    }
  }

  lemma LeakKeepsInv(s: State, id: nat)
    requires Inv(s) && !InFlight(s, id)
    ensures Inv(Leak(s, id))
  {
    hide PoolInv, Blocked;
    DropKeepsPoolInv(s.pool, id);
  }

  lemma RecoverKeepsInv(s: State, env: Env)
    requires Inv(s)
    ensures Inv(Recover(s, env))
  {
    hide PoolInv, WakeAll, Blocked;
    if s.leaks.recovering > 0 {
      WakeAllGivesInv(s.(leaks := s.leaks.(recovering := s.leaks.recovering - 1)), env);
    }
  }

  /** Every step of the machine keeps the whole invariant. */
  lemma NextKeepsInv(s: State, step: Step, env: Env)
    requires Inv(s) && Enabled(s, step)
    ensures Inv(Next(s, step, env))
  {
    hide PoolInv, Acquire, Cancel, PickUp, Release, ReconfigureAll, Close, Leak, Recover;
    match step
    case AcquireStep(r, canceled) => AcquireKeepsInv(s, r, canceled, env);
    case CancelStep(t) => CancelKeepsInv(s, t, env);
    case PickUpStep(t) => PickUpKeepsInv(s, t);
    case ReleaseStep(id) => ReleaseKeepsInv(s, id, env);
    case ReconfigureStep(config) => ReconfigureKeepsInv(s, config, env);
    case CloseStep => CloseKeepsInv(s, env);
    case LeakStep(id) => LeakKeepsInv(s, id);
    case FinalizeStep =>
    case NoticeStep =>
    case RecoverStep => RecoverKeepsInv(s, env);
  }
}
