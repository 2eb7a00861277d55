/**
  `SQLiteConnectionPool` as the object it is: fields updated in place, and the waiters in an intrusive linked
  list with a second list of recycled waiter objects. Each public method is proved to be one step of the
  state machine in `PoolModel`.
 */
module ConnectionPool {
  import opened Options
  import opened Sequences
  import opened Words
  import opened Configuration
  import opened DatabaseConfiguration
  import opened PoolModel
  import opened PoolQueue
  import opened PoolServices
  import opened WakeProgress
  import Requests = PoolRequests

  /**
    A waiter object. `log` records the tickets it has been used for, so `log`'s length counts its uses, and
    the nonce counts how often it has been recycled.
   */
  class ConnectionWaiter {
    var next: ConnectionWaiter?
    var request: Request
    var assignedId: Option<nat>
    var exception: bool
    var nonce: int
    ghost var ticket: Ticket
    ghost var log: seq<Ticket>

    constructor ()
      ensures next == null && assignedId.None? && !exception && nonce == 0 && log == []
    {
      next, request, assignedId, exception, nonce := null, Request(false, false, false, None), None, false, 0;
      ticket, log := 0, [];
    }

    ghost function Value(): Waiter
      reads this`ticket, this`request
    {
      Waiter(ticket, request)
    }

    ghost predicate Undecided()
      reads this`assignedId, this`exception
    {
      assignedId.None? && !exception
    }

    /** The object carries exactly this outcome. */
    ghost predicate Carries(o: Outcome)
      reads this`assignedId, this`exception
    {
      match o
      case Assigned(id) => assignedId == Some(id) && !exception
      case Raised => assignedId.None? && exception
    }

    /** The object is in use for the last ticket of its log, and carries the outcome of that request, if any. */
    ghost predicate InUse(outcomes: map<Ticket, Outcome>)
      reads this`ticket, this`log, this`nonce, this`assignedId, this`exception
    {
      && log != [] && log[|log| - 1] == ticket && nonce == Low32(|log| - 1)
      && if ticket in outcomes then Carries(outcomes[ticket]) else Undecided()
    }
  }

  /** The object at position `i`, or null beyond either end. */
  ghost function At(s: seq<ConnectionWaiter>, i: int): ConnectionWaiter? {
    if 0 <= i < |s| then s[i] else null
  }

  ghost predicate Linked(head: ConnectionWaiter?, s: seq<ConnectionWaiter>)
    reads s`next
  {
    && head == At(s, 0)
    && forall i :: 0 <= i < |s| ==> s[i].next == At(s, i + 1)
  }

  ghost predicate AllIn(s: seq<Ticket>, delivered: map<Ticket, Reply>) {
    forall i :: 0 <= i < |s| ==> s[i] in delivered
  }

  lemma AnswerKeepsAllIn(delivered: map<Ticket, Reply>, t: Ticket, reply: Reply)
    ensures forall s :: AllIn(s, delivered) ==> AllIn(s, delivered[t := reply])
  {
  }

  lemma AnswerCompletes(s: seq<Ticket>, delivered: map<Ticket, Reply>, reply: Reply)
    requires s != [] && AllIn(s[..|s| - 1], delivered)
    ensures AllIn(s, delivered[s[|s| - 1] := reply])
  {
  }

  ghost predicate Apart(s: seq<ConnectionWaiter>, t: seq<ConnectionWaiter>) {
    && (forall i, j :: 0 <= i < j < |s| ==> s[i] != s[j])
    && (forall i, j :: 0 <= i < j < |t| ==> t[i] != t[j])
    && (forall i, j :: 0 <= i < |s| && 0 <= j < |t| ==> s[i] != t[j])
  }

  /** The objects stand for these waiters, and none of them carries a result. */
  ghost predicate Shows(s: seq<ConnectionWaiter>, v: seq<Waiter>)
    reads s`ticket, s`request, s`assignedId, s`exception
  {
    |v| == |s| && forall i :: 0 <= i < |s| ==> s[i].Value() == v[i] && s[i].Undecided()
  }

  lemma ShowsAfterInsert(s: seq<ConnectionWaiter>, v: seq<Waiter>, w: ConnectionWaiter, k: nat)
    requires Shows(s, v) && w.Undecided() && k <= |s|
    ensures Shows(s[..k] + [w] + s[k..], v[..k] + [w.Value()] + v[k..])
    ensures forall n :: n in s[..k] + [w] + s[k..] <==> n in s || n == w
  {
    assert s == s[..k] + s[k..];
  }

  lemma ShowsAfterWithout(s: seq<ConnectionWaiter>, v: seq<Waiter>, k: nat)
    requires Shows(s, v) && k < |s|
    ensures Shows(Without(s, k), Without(v, k))
  {
  }

  lemma ApartAfterInsert(s: seq<ConnectionWaiter>, t: seq<ConnectionWaiter>, w: ConnectionWaiter, k: nat)
    requires Apart(s, t) && k <= |s| && w !in s && w !in t
    ensures Apart(s[..k] + [w] + s[k..], t)
  {
    var r := s[..k] + [w] + s[k..];
    assert forall i :: 0 <= i < |r| ==> r[i] == if i < k then s[i] else if i == k then w else s[i - 1];
  }

  lemma AtAfterInsert(s: seq<ConnectionWaiter>, w: ConnectionWaiter, k: nat, r: seq<ConnectionWaiter>, i: nat)
    requires k <= |s| && r == s[..k] + [w] + s[k..]
    ensures At(r, i) == if i < k then At(s, i) else if i == k then w else At(s, i - 1)
  {
    if k < i < |r| {
      assert r[i] == s[k..][i - k - 1];
    }
  }

  lemma AtAfterWithout(s: seq<ConnectionWaiter>, k: nat, i: nat)
    requires k < |s|
    ensures |Without(s, k)| == |s| - 1
    ensures At(Without(s, k), i) == At(s, if i < k then i else i + 1)
  {
  }

  /** A list is linked without the object at `k` once its predecessor, or the head, points past it. */
  lemma LinkedAfterWithout(head: ConnectionWaiter?, s: seq<ConnectionWaiter>, k: nat)
    requires k < |s| && head == At(s, if k == 0 then 1 else 0)
    requires forall i :: 0 <= i < |s| && i != k ==> s[i].next == At(s, if i == k - 1 then k + 1 else i + 1)
    ensures Linked(head, Without(s, k))
  {
    hide At, Without;
    var r := Without(s, k);
    AtAfterWithout(s, k, 0);
    forall i | 0 <= i < |r| ensures r[i].next == At(r, i + 1) {
      AtAfterWithout(s, k, i + 1);
      WithoutAt(s, k, i);
    }
  }

  lemma WithoutAt(s: seq<ConnectionWaiter>, k: nat, i: nat)
    requires k < |s| && i < |s| - 1
    ensures |Without(s, k)| == |s| - 1 && Without(s, k)[i] == s[if i < k then i else i + 1]
  {
  }

  lemma ApartAfterWithout(s: seq<ConnectionWaiter>, t: seq<ConnectionWaiter>, k: nat)
    requires Apart(s, t) && k < |s|
    ensures Apart(Without(s, k), t)
    ensures s[k] !in Without(s, k)
    ensures forall i :: 0 <= i < |s| - 1 ==> Without(s, k)[i] == s[if i < k then i else i + 1]
  {
  }

  class SQLiteConnectionPool {
    const build: Build
    const configuration: SQLiteDatabaseConfiguration
    var isOpen: bool
    var maxSize: int
    var nextConnectionId: nat
    var availablePrimary: Option<Conn>
    var availableNonPrimary: seq<Conn>
    var acquired: map<nat, Held>
    var waiterQueue: ConnectionWaiter?
    var waiterPool: ConnectionWaiter?
    var connectionLeaked: bool

    /** The objects on the two linked lists, the waiters the queue stands for, and the objects in use. */
    ghost var queue: seq<ConnectionWaiter>
    ghost var free: seq<ConnectionWaiter>
    ghost var view: seq<Waiter>
    ghost var users: set<ConnectionWaiter>
    ghost var outcomes: map<Ticket, Outcome>
    ghost var delivered: map<Ticket, Reply>
    ghost var nextTicket: Ticket
    ghost var leaks: Leaks

    ghost function Core(): Pool
      reads this`isOpen, this`maxSize, this`nextConnectionId, this`availablePrimary, this`availableNonPrimary,
            this`acquired, configuration, configuration.customFunctions
    {
      Pool(isOpen, build, configuration.Value(), maxSize, nextConnectionId, availablePrimary,
           availableNonPrimary, acquired)
    }

    ghost function Abs(): State
      reads this, configuration, configuration.customFunctions
    {
      State(Core(), view, outcomes, delivered, nextTicket, leaks)
    }

    /** Both lists are linked as the ghost sequences say, acyclic, and disjoint. */
    ghost predicate Lists()
      reads this`waiterQueue, this`waiterPool, this`queue, this`free, queue`next, free`next
    {
      Linked(waiterQueue, queue) && Linked(waiterPool, free) && Apart(queue, free)
    }

    /** The queue shows `view`, and no queued object carries a result. */
    ghost predicate Shown()
      reads this`queue, this`view, queue`ticket, queue`request, queue`assignedId, queue`exception
    {
      Shows(queue, view)
    }

    /** Every object in use carries the outcome of its request; no two are in use for the same request. */
    ghost predicate Carried()
      reads this`users, this`outcomes, this`nextTicket,
            users`ticket, users`log, users`nonce, users`assignedId, users`exception
    {
      && (forall n :: n in users ==> n.InUse(outcomes) && n.ticket < nextTicket)
      && (forall m, n :: m in users && n in users && m.ticket == n.ticket ==> m == n)
      && (forall t :: t in outcomes ==> t < nextTicket)
    }

    /** Queued objects are in use, recycled ones are not and are blank. */
    ghost predicate Pooled()
      reads this`users, this`queue, this`free, free`assignedId, free`exception, free`nonce, free`log
    {
      && (forall i :: 0 <= i < |queue| ==> queue[i] in users)
      && (forall i :: 0 <= i < |free| ==>
            free[i] !in users && free[i].Undecided() && free[i].nonce == Low32(|free[i].log|))
    }

    /** The request an object is in use for is not answered, all its earlier requests are. */
    ghost predicate Retired()
      reads this`users, this`free, this`nextTicket, this`delivered, users`ticket, users`log, free`log
    {
      && (forall n :: n in users ==> n.ticket !in delivered && AllIn(n.log[..if n.log == [] then 0 else |n.log| - 1], delivered))
      && (forall i :: 0 <= i < |free| ==> AllIn(free[i].log, delivered))
      && (forall t :: t in delivered ==> t < nextTicket)
    }

    ghost predicate Valid()
      reads this, queue, free, users
    {
      Lists() && Shown() && Carried() && Pooled() && Retired()
    }

    /** A pool that has its own copy of the configuration and is not open for business yet. */
    constructor (original: SQLiteDatabaseConfiguration, build: Build)
      ensures Valid() && queue == [] && free == []
      ensures Abs() == State(Pool(false, build, original.Value(), MaxPoolSize(build, original.Value()), 0, None, [], map[]),
                             [], map[], map[], 0, NO_LEAKS)
      ensures fresh(configuration) && fresh(configuration.customFunctions) && !connectionLeaked
    {
      this.build := build;
      configuration := new SQLiteDatabaseConfiguration.Copy(original);
      isOpen, nextConnectionId, availablePrimary, availableNonPrimary, acquired := false, 0, None, [], map[];
      waiterQueue, waiterPool, connectionLeaked := null, null, false;
      queue, free, view, users := [], [], [], {};
      outcomes, delivered, nextTicket, leaks := map[], map[], 0, NO_LEAKS;
      maxSize := MaxPoolSize(build, Config(original.path, original.openFlags, 0, "", false, []));
    }

    // ---- Acquiring -------------------------------------------------------------------------------

    method TryAcquirePrimary(env: Env, readOnly: bool) returns (a: Attempt)
      modifies this`availablePrimary, this`acquired, this`nextConnectionId
      ensures Tried(Core(), a) == TryPrimary(old(Core()), env, readOnly)
    {
      if availablePrimary.Some? {
        var c := availablePrimary.value;
        availablePrimary := None;
        FinishAcquire(c, readOnly);
        return Got(c.id);
      }
      if exists id :: id in acquired && acquired[id].conn.primary {
        return Unavailable;
      }
      a := OpenConnection(env, true, readOnly);
    }

    method FinishAcquire(c: Conn, readOnly: bool)
      modifies this`acquired
      ensures Core() == Grant(old(Core()), c, readOnly)
    {
      acquired := acquired[c.id := Held(c.(readOnly := readOnly), Normal, readOnly)];
    }

    method OpenConnection(env: Env, primary: bool, readOnly: bool) returns (a: Attempt)
      modifies this`acquired, this`nextConnectionId
      ensures Tried(Core(), a) == OpenAndGrant(old(Core()), env, primary, readOnly)
    {
      var id := nextConnectionId;
      nextConnectionId := nextConnectionId + 1;
      if !env.opens(id) {
        return Threw;
      }
      var config := Config(configuration.path, configuration.openFlags, configuration.maxSqlCacheSize,
                           configuration.locale, configuration.foreignKeys, configuration.customFunctions.items);
      FinishAcquire(Opened(id, primary, config), readOnly);
      return Got(id);
    }

    /** The search for an idle connection with the statement in its cache, then the last one, then a new one. */
    method TryAcquireNonPrimary(env: Env, sql: Option<string>, readOnly: bool) returns (a: Attempt)
      modifies this`availableNonPrimary, this`acquired, this`nextConnectionId
      ensures Tried(Core(), a) == TryNonPrimary(old(Core()), env, sql, readOnly)
      ensures old(availableNonPrimary) != [] ==>
                exists k: nat :: Preferred(old(availableNonPrimary), env, sql, k)
                                 && a == Got(old(availableNonPrimary)[k].id)
                                 && availableNonPrimary == Without(old(availableNonPrimary), k)
    {
      if availableNonPrimary != [] {
        ChooseIsPreferred(availableNonPrimary, env, sql);
      }
      var count := |availableNonPrimary|;
      if count > 1 && sql.Some? {
        for i := 0 to count
          invariant availableNonPrimary == old(availableNonPrimary) && acquired == old(acquired)
          invariant nextConnectionId == old(nextConnectionId)
          invariant FirstCached(availableNonPrimary, env, sql.value, 0)
                    == FirstCached(availableNonPrimary, env, sql.value, i)
        {
          var c := availableNonPrimary[i];
          if env.caches(c.id, sql.value) {
            availableNonPrimary := Without(availableNonPrimary, i);
            FinishAcquire(c, readOnly);
            return Got(c.id);
          }
        }
      }
      if count > 0 {
        var c := availableNonPrimary[count - 1];
        availableNonPrimary := Without(availableNonPrimary, count - 1);
        FinishAcquire(c, readOnly);
        return Got(c.id);
      }
      var openConnections := |acquired|;
      if availablePrimary.Some? {
        openConnections := openConnections + 1;
      }
      if openConnections >= maxSize {
        return Unavailable;
      }
      a := OpenConnection(env, false, readOnly);
    }

    /** The attempt made for a request, by a newcomer or within a wake pass. */
    method ServeRequest(env: Env, r: Request, noPrimary: bool, noNonPrimary: bool)
      returns (a: Attempt, noPrimary': bool, noNonPrimary': bool)
      modifies this`availablePrimary, this`availableNonPrimary, this`acquired, this`nextConnectionId
      ensures Service(Core(), a, Flags(noPrimary', noNonPrimary'))
              == TryServe(old(Core()), env, r, Flags(noPrimary, noNonPrimary))
    {
      noPrimary', noNonPrimary' := noPrimary, noNonPrimary;
      a := Unavailable;
      if !r.wantPrimary && !noNonPrimary {
        a := TryAcquireNonPrimary(env, r.sql, r.readOnly);
        if a.Unavailable? {
          noNonPrimary' := true;
        }
      }
      if a.Unavailable? && !noPrimary {
        a := TryAcquirePrimary(env, r.readOnly);
        if a.Unavailable? {
          noPrimary' := true;
        }
      }
    }

    // ---- The linked lists ------------------------------------------------------------------------

    /** Links `w` into the queue behind every waiter of the same or a higher priority. */
    method Enqueue(w: ConnectionWaiter)
      requires Lists() && Shown() && w !in queue && w !in free && w.next == null && w.Undecided()
      modifies this`waiterQueue, this`queue, this`view, queue`next, w`next
      ensures Lists() && Shown()
      ensures view == Insert(old(view), w.Value())
      ensures exists k :: InsertedAt(old(view), w.Value(), k, view)
      ensures forall n :: n in queue <==> n in old(queue) || n == w
    {
      hide Apart, Linked, Insert;
      ghost var k: nat;
      var predecessor;
      predecessor, k := FindPlace(w);
      ghost var q, v := queue, view;
      LinkIn(predecessor, w, k);
      InsertAt(v, w.Value(), k);
      ShowsAfterInsert(q, v, w, k);
      assert InsertedAt(v, w.Value(), k, view);
    }

    /** The search for the place of `w`; on the way `w` is pointed at its successor. */
    method FindPlace(w: ConnectionWaiter) returns (predecessor: ConnectionWaiter?, ghost k: nat)
      requires Lists() && Shown() && w !in queue && w !in free && w.next == null
      modifies w`next
      ensures Lists() && k <= |queue|
      ensures predecessor == At(queue, k - 1) && w.next == At(queue, k)
      ensures forall i :: 0 <= i < k ==> Priority(view[i].request) >= Priority(w.request)
      ensures k < |queue| ==> Priority(view[k].request) < Priority(w.request)
    {
      hide Apart;
      predecessor, k := null, 0;
      var successor := waiterQueue;
      while successor != null
        invariant k <= |queue| && w.next == null
        invariant predecessor == At(queue, k - 1) && successor == At(queue, k)
        invariant forall i :: 0 <= i < k ==> Priority(view[i].request) >= Priority(w.request)
        decreases |queue| - k
      {
        assert successor.Value() == view[k];
        if Priority(w.request) > Priority(successor.request) {
          w.next := successor;
          break;
        }
        predecessor := successor;
        successor := successor.next;
        k := k + 1;
      }
    }

    /** Hangs `w`, which already points at its successor, into the queue at position `k`. */
    method LinkIn(predecessor: ConnectionWaiter?, w: ConnectionWaiter, ghost k: nat)
      requires Lists() && |view| == |queue| && k <= |queue| && w !in queue && w !in free
      requires predecessor == At(queue, k - 1)
      requires w.next == At(queue, k)
      modifies this`waiterQueue, this`queue, this`view, queue`next
      ensures Lists()
      ensures queue == old(queue[..k] + [w] + queue[k..]) && view == old(view[..k] + [w.Value()] + view[k..])
    {
      ghost var q := queue;
      ApartAfterInsert(queue, free, w, k);
      assert forall i :: 0 <= i < |free| ==> free[i] != predecessor;
      assert forall i :: 0 <= i < |q| && i != k - 1 ==> q[i] != predecessor;
      assert if k == 0 then predecessor == null else q[k - 1] == predecessor && predecessor != w;
      hide Apart, At;
      if predecessor != null {
        predecessor.next := w;
      } else {
        waiterQueue := w;
      }
      queue := queue[..k] + [w] + queue[k..];
      view := view[..k] + [w.Value()] + view[k..];
      AtAfterInsert(q, w, k, queue, 0);
      forall i | 0 <= i < |queue| ensures queue[i].next == At(queue, i + 1) {
        assert queue[i] == if i < k then q[i] else if i == k then w else q[i - 1];
        AtAfterInsert(q, w, k, queue, i + 1);
      }
    }

    /** Takes the waiter at position `k` out of the queue. */
    method Unlink(predecessor: ConnectionWaiter?, w: ConnectionWaiter, ghost k: nat)
      requires Lists() && |view| == |queue| && k < |queue| && queue[k] == w
      requires predecessor == At(queue, k - 1)
      modifies this`waiterQueue, this`queue, this`view, queue`next
      ensures Lists()
      ensures queue == Without(old(queue), k) && view == Without(old(view), k)
      ensures w.next == old(w.next)
    {
      assert Apart(Without(queue, k), free) by { ApartAfterWithout(queue, free, k); }
      hide Apart, At, Without, Linked;
      Bypass(predecessor, w, k);
      queue := Without(queue, k);
      view := Without(view, k);
    }

    /** Makes the predecessor of the waiter at position `k`, or the head of the queue, point past it. */
    method Bypass(predecessor: ConnectionWaiter?, w: ConnectionWaiter, ghost k: nat)
      requires Lists() && k < |queue| && queue[k] == w && predecessor == At(queue, k - 1)
      modifies this`waiterQueue, queue`next
      ensures Linked(waiterQueue, Without(queue, k)) && Linked(waiterPool, free) && w.next == old(w.next)
    {
      assert forall i :: 0 <= i < |free| ==> free[i] != predecessor;
      assert forall i :: 0 <= i < |queue| && i != k - 1 ==> queue[i] != predecessor;
      assert if k == 0 then predecessor == null else queue[k - 1] == predecessor;
      assert w.next == At(queue, k + 1) && waiterQueue == At(queue, 0);
      hide Apart, At;
      if predecessor != null {
        predecessor.next := w.next;
      } else {
        waiterQueue := w.next;
      }
      LinkedAfterWithout(waiterQueue, queue, k);
    }

    // ---- Waking waiters --------------------------------------------------------------------------

    /** Stores the result of an attempt in a waiter object. */
    method Record(w: ConnectionWaiter, a: Attempt)
      requires Carried() && w in users && w.ticket !in outcomes && !a.Unavailable?
      modifies this`outcomes, w`assignedId, w`exception
      ensures Carried()
      ensures outcomes == SettleOne(old(outcomes), w.ticket, FateOf(a))
    {
      if a.Got? {
        w.assignedId := Some(a.id);
        outcomes := outcomes[w.ticket := Assigned(a.id)];
      } else {
        w.exception := true;
        outcomes := outcomes[w.ticket := Raised];
      }
    }

    /** Takes the waiter at position `k` out of the queue. */
    method Dequeue(predecessor: ConnectionWaiter?, w: ConnectionWaiter, ghost k: nat)
      requires Lists() && Pooled() && k < |queue| && queue[k] == w
      requires |view| == |queue| && Shows(Without(queue, k), Without(view, k))
      requires predecessor == At(queue, k - 1)
      modifies this`waiterQueue, this`queue, this`view, queue`next
      ensures Lists() && Shown() && Pooled()
      ensures queue == Without(old(queue), k) && view == Without(old(view), k)
      ensures w !in queue && w !in free && (k > 0 ==> queue[k - 1] == old(queue)[k - 1])
    {
      hide Linked, Shows;
      ApartAfterWithout(queue, free, k);
      assert forall i :: 0 <= i < |free| ==> free[i] != w;
      hide Apart, Without;
      Unlink(predecessor, w, k);
      assert forall i :: 0 <= i < |queue| ==> queue[i] != w;
    }

    method ClearLink(w: ConnectionWaiter)
      requires Valid() && w !in queue && w !in free
      modifies w`next
      ensures Valid() && w.next == null
    {
      hide Apart, Shown, Carried, Pooled, Retired;
      w.next := null;
    }

    /** The queue without the waiter at position `k` shows the remaining waiters, whatever `w` carries. */
    lemma OthersShown(k: nat)
      requires Lists() && Shown() && k < |queue|
      ensures Shows(Without(queue, k), Without(view, k))
      ensures forall i :: 0 <= i < |Without(queue, k)| ==> Without(queue, k)[i] != queue[k]
    {
      hide Linked;
      ApartAfterWithout(queue, free, k);
      ShowsAfterWithout(queue, view, k);
    }

    lemma QueuedIsUndecided(k: nat)
      requires Valid() && k < |queue|
      ensures queue[k] in users && queue[k] !in free && queue[k].ticket !in outcomes
      ensures |view| == |queue| && queue[k].Value() == view[k]
    {
      hide Lists, Retired;
    }

    /** Gives the waiter at position `k` the result of an attempt and takes it out of the queue. */
    method Answer(predecessor: ConnectionWaiter?, w: ConnectionWaiter, a: Attempt, ghost k: nat)
      requires Valid() && k < |queue| && queue[k] == w && !a.Unavailable?
      requires predecessor == At(queue, k - 1)
      modifies this`waiterQueue, this`queue, this`view, this`outcomes, queue`next, w`assignedId, w`exception
      ensures Valid()
      ensures queue == Without(old(queue), k) && view == Without(old(view), k)
      ensures w !in queue && w !in free && (k > 0 ==> queue[k - 1] == old(queue)[k - 1])
      ensures outcomes == SettleOne(old(outcomes), old(view)[k].ticket, FateOf(a))
    {
      hide Lists, Retired, Carried, Pooled;
      OthersShown(k);
      QueuedIsUndecided(k);
      Record(w, a);
      assert Shows(Without(queue, k), Without(view, k));
      hide Shows, Without;
      Dequeue(predecessor, w, k);
    }

    /** One turn of the wake loop, for the waiter at position `k`. */
    method WakeOne(predecessor: ConnectionWaiter?, waiter: ConnectionWaiter, env: Env,
                   noPrimary: bool, noNonPrimary: bool, ghost k: nat)
      returns (stop: bool, predecessor': ConnectionWaiter?, noPrimary': bool, noNonPrimary': bool, ghost k': nat)
      requires Valid() && k < |queue| && queue[k] == waiter && predecessor == At(queue, k - 1)
      modifies this`availablePrimary, this`availableNonPrimary, this`acquired, this`nextConnectionId
      modifies this`waiterQueue, this`queue, this`view, this`outcomes
      modifies queue`next, waiter`assignedId, waiter`exception
      ensures Valid()
      ensures Turn(Core(), view, outcomes, k', Flags(noPrimary', noNonPrimary'), stop)
              == old(TurnOf(Core(), env, view, outcomes, k, Flags(noPrimary, noNonPrimary)))
      ensures queue == old(queue) || queue == Without(old(queue), k)
      ensures predecessor' == At(queue, k' - 1) && (!stop ==> At(queue, k') == old(At(queue, k + 1)))
      ensures |queue| - k' <= |old(queue)| - k && (!stop ==> |queue| - k' < |old(queue)| - k)
    {
      hide Lists, Shown, Carried, Pooled, Retired, TryServe, SettleOne;
      assert waiter.request == view[k].request && |view| == |queue| by { QueuedShown(k); }
      predecessor', noPrimary', noNonPrimary', k', stop := predecessor, noPrimary, noNonPrimary, k, false;
      if !isOpen {
        DropWaiter(predecessor, waiter, k);
        ClearLink(waiter);
        return;
      }
      var a;
      a, noPrimary', noNonPrimary' := ServeRequest(env, waiter.request, noPrimary, noNonPrimary);
      if !a.Unavailable? {
        Answer(predecessor, waiter, a, k);
        ClearLink(waiter);
      } else if noPrimary' && noNonPrimary' {
        stop := true;
      } else {
        predecessor', k' := waiter, k + 1;
      }
    }

    lemma QueuedShown(k: nat)
      requires Valid() && k < |queue|
      ensures |view| == |queue| && view[k] == queue[k].Value() && queue[k].next == At(queue, k + 1)
    {
      hide Apart;
      assert queue[k].Value() == view[k];
    }

    /** A closed pool sends its waiters away without a result. */
    method DropWaiter(predecessor: ConnectionWaiter?, w: ConnectionWaiter, ghost k: nat)
      requires Valid() && k < |queue| && queue[k] == w
      requires predecessor == At(queue, k - 1)
      modifies this`waiterQueue, this`queue, this`view, queue`next
      ensures Valid()
      ensures queue == Without(old(queue), k) && view == Without(old(view), k)
      ensures w !in queue && w !in free && (k > 0 ==> queue[k - 1] == old(queue)[k - 1])
    {
      hide Linked, Apart, Carried;
      OthersShown(k);
      assert |view| == |queue|;
      hide Shows, Without;
      Dequeue(predecessor, w, k);
    }

    /** Serves every waiter that can be served; a closed pool sends them all away. */
    method WakeConnectionWaiters(env: Env)
      requires Valid()
      modifies this`availablePrimary, this`availableNonPrimary, this`acquired, this`nextConnectionId
      modifies this`waiterQueue, this`queue, this`view, this`outcomes
      modifies users`next, users`assignedId, users`exception
      ensures Valid()
      ensures Abs() == WakeAll(old(Abs()), env)
    {
      hide Lists, Shown, Carried, Pooled, Retired, Finish, TurnOf;
      var predecessor: ConnectionWaiter? := null;
      var waiter := waiterQueue;
      var noPrimary, noNonPrimary, stop := false, false, false;
      ghost var k: nat := 0;
      ghost var end := Finish(Core(), env, [], view, outcomes, FRESH);
      ListsAgree();
      assert view[..0] == [] && view[0..] == view;
      while waiter != null && !stop
        invariant Valid() && k <= |queue| == |view|
        invariant predecessor == At(queue, k - 1) && (!stop ==> waiter == At(queue, k))
        invariant forall i :: 0 <= i < |queue| ==> queue[i] in users
        invariant stop ==> end == Progress(Core(), view, outcomes)
        invariant !stop ==> end == Finish(Core(), env, view[..k], view[k..], outcomes, Flags(noPrimary, noNonPrimary))
        decreases |queue| - k, !stop
      {
        var successor := waiter.next;
        QueuedShown(k);
        FinishTurn(Core(), env, view, outcomes, k, Flags(noPrimary, noNonPrimary));
        stop, predecessor, noPrimary, noNonPrimary, k := WakeOne(predecessor, waiter, env, noPrimary, noNonPrimary, k);
        ListsAgree();
        waiter := successor;
      }
      if !stop {
        assert view[..k] == view && view[k..] == [];
        FinishEnd(Core(), env, view, outcomes, Flags(noPrimary, noNonPrimary));
      }
      FinishIsWakeAll(old(Abs()), env);
    }

    lemma ListsAgree()
      requires Valid()
      ensures |view| == |queue| && waiterQueue == At(queue, 0)
      ensures forall i :: 0 <= i < |queue| ==> queue[i] in users
    {
      hide Apart;
    }

    // ---- Requests --------------------------------------------------------------------------------

    /** Takes a waiter object from the recycled ones, or a new one, and puts it to use for a new request. */
    method ObtainWaiter(r: Request) returns (w: ConnectionWaiter)
      requires Valid()
      modifies this`waiterPool, this`free, this`users, this`nextTicket, free
      ensures Valid()
      ensures users == old(users) + {w} && w !in old(users) && w !in queue && w !in free
      ensures fresh(w) || w in old(free)
      ensures w.next == null && w.Undecided() && w.Value() == Waiter(old(nextTicket), r)
      ensures nextTicket == old(nextTicket) + 1
    {
      if waiterPool != null {
        w := TakeRecycled();
      } else {
        w := new ConnectionWaiter();
      }
      PutToUse(w, r);
    }

    /** Pops the first recycled object. */
    method TakeRecycled() returns (w: ConnectionWaiter)
      requires Valid() && waiterPool != null
      modifies this`waiterPool, this`free, free`next
      ensures Valid()
      ensures w !in users && w !in queue && w !in free && w in old(free)
      ensures w.next == null && w.Undecided() && w.nonce == Low32(|w.log|) && AllIn(w.log, delivered)
    {
      hide Linked, Apart, Carried, Shows;
      ghost var recycled := free;
      w := PopFree();
      assert forall i :: 0 <= i < |free| ==> free[i] == recycled[i + 1];
    }

    method PopFree() returns (w: ConnectionWaiter)
      requires Lists() && waiterPool != null
      modifies this`waiterPool, this`free, free`next
      ensures Lists() && w.next == null
      ensures old(free) != [] && w == old(free)[0] && free == old(free)[1..]
      ensures w !in queue && w !in free
    {
      w := waiterPool;
      waiterPool := w.next;
      w.next := null;
      free := free[1..];
    }

    method PutToUse(w: ConnectionWaiter, r: Request)
      requires Valid() && w !in users && w !in queue && w !in free
      requires w.Undecided() && w.nonce == Low32(|w.log|) && AllIn(w.log, delivered)
      modifies w`request, w`ticket, w`log, this`users, this`nextTicket
      ensures Valid()
      ensures users == old(users) + {w} && nextTicket == old(nextTicket) + 1
      ensures w.Value() == Waiter(old(nextTicket), r)
    {
      Fill(w, r);
      Join(w);
    }

    method Fill(w: ConnectionWaiter, r: Request)
      requires Valid() && w !in users && w !in queue && w !in free
      modifies w`request, w`ticket, w`log
      ensures Valid()
      ensures w.Value() == Waiter(nextTicket, r) && w.log == old(w.log) + [nextTicket]
    {
      hide Lists;
      w.request := r;
      w.ticket := nextTicket;
      w.log := w.log + [nextTicket];
    }

    ghost method Join(w: ConnectionWaiter)
      requires Valid() && w !in users && w !in queue && w !in free
      requires w.ticket == nextTicket && w.log != [] && w.log[|w.log| - 1] == nextTicket
      requires w.Undecided() && w.nonce == Low32(|w.log| - 1) && AllIn(w.log[..|w.log| - 1], delivered)
      modifies this`users, this`nextTicket
      ensures Valid()
      ensures users == old(users) + {w} && nextTicket == old(nextTicket) + 1
    {
      hide Lists, Shows, AllIn, Low32;
      assert w.InUse(outcomes);
      users := users + {w};
      nextTicket := nextTicket + 1;
    }

    /** The locked block that starts a request: refuse it, serve it, let it fail, or park it with a waiter object. */
    method AcquireConnection(r: Request, canceled: bool, env: Env) returns (a: Attempt, w: ConnectionWaiter?)
      requires Valid()
      modifies this`availablePrimary, this`availableNonPrimary, this`acquired, this`nextConnectionId
      modifies this`waiterQueue, this`queue, this`view, this`waiterPool, this`free, this`users, this`nextTicket
      modifies queue`next, free
      ensures Valid()
      ensures Abs() == Acquire(old(Abs()), r, canceled, env)
      ensures !old(isOpen) || canceled ==> Abs() == old(Abs())
      ensures a == if !old(isOpen) || canceled then Threw else TryServe(old(Core()), env, r, FRESH).attempt
      ensures a.Unavailable? <==> w != null
      ensures w != null ==> w in users && w.ticket == old(nextTicket)
    {
      hide Lists, Shown, Carried, Pooled, Retired, TryServe, Insert;
      if !isOpen || canceled {
        return Threw, null;
      }
      var noPrimary, noNonPrimary;
      a, noPrimary, noNonPrimary := ServeRequest(env, r, false, false);
      w := null;
      if a.Unavailable? {
        w := ParkRequest(r);
      }
    }

    /** Puts a waiter object for a new request into the queue. */
    method ParkRequest(r: Request) returns (w: ConnectionWaiter)
      requires Valid()
      modifies this`waiterQueue, this`queue, this`view, this`waiterPool, this`free, this`users, this`nextTicket
      modifies queue`next, free
      ensures Valid()
      ensures view == Insert(old(view), Waiter(old(nextTicket), r)) && nextTicket == old(nextTicket) + 1
      ensures w in users && w.ticket == old(nextTicket)
    {
      hide Valid, Insert;
      w := ObtainWaiter(r);
      Park(w);
    }

    method Park(w: ConnectionWaiter)
      requires Valid() && w in users && w !in queue && w !in free && w.next == null && w.Undecided()
      modifies this`waiterQueue, this`queue, this`view, queue`next, w`next
      ensures Valid()
      ensures view == Insert(old(view), w.Value())
    {
      hide Linked, Apart, Carried, Retired, Shows, Insert;
      assert forall n :: n in queue ==> n in users;
      Enqueue(w);
      assert forall i :: 0 <= i < |queue| ==> queue[i] in queue;
    }

    /** The thread that waits with `w` wakes up: it throws, takes its result and recycles `w`, or goes on waiting. */
    method TakeResult(w: ConnectionWaiter) returns (reply: Option<Reply>)
      requires Valid() && w in users && Requests.Located(Abs())
      modifies this`waiterPool, this`free, this`users, this`outcomes, this`delivered, w
      ensures Valid()
      ensures Abs() == PickUp(old(Abs()), old(w.ticket))
      ensures reply == if old(w.ticket) in delivered then Some(delivered[old(w.ticket)]) else None
      ensures !old(isOpen) ==> reply == Some(Exception)
      ensures old(isOpen && w.assignedId.Some?) ==> reply == Some(Connection(old(w.assignedId).value))
      ensures old(isOpen && w.exception) ==> reply == Some(Exception)
      ensures old(isOpen && w.Undecided()) ==> reply == None && Abs() == old(Abs())
    {
      hide Lists, Carried, Pooled, Retired;
      assert w.InUse(outcomes) && w.ticket !in delivered && w !in free by { UserFacts(w); }
      if !isOpen {
        Retire(w, Exception);
        return Some(Exception);
      }
      if w.assignedId.None? && !w.exception {
        return None;
      }
      reply := Some(if w.assignedId.Some? then Connection(w.assignedId.value) else Exception);
      assert forall i :: 0 <= i < |queue| ==> queue[i].Undecided();
      Retire(w, reply.value);
      RecycleWaiter(w);
    }

    lemma UserFacts(w: ConnectionWaiter)
      requires Valid() && w in users
      ensures w.InUse(outcomes) && w.ticket !in delivered && w !in free
    {
      hide Lists, Shows;
    }

    /** Request bookkeeping: the request of `w` is answered and `w` is no longer in use. */
    ghost method Retire(w: ConnectionWaiter, reply: Reply)
      requires Valid() && w in users && forall i :: 0 <= i < |queue| ==> queue[i] != w
      modifies this`users, this`outcomes, this`delivered
      ensures Valid() && w !in users
      ensures outcomes == old(outcomes) - {w.ticket} && delivered == old(delivered)[w.ticket := reply]
      ensures AllIn(w.log, delivered) && w.nonce == Low32(|w.log| - 1)
    {
      hide Lists, Shows, AllIn, Low32;
      AnswerKeepsAllIn(delivered, w.ticket, reply);
      assert AllIn(w.log, delivered[w.ticket := reply]) by { AnswerCompletes(w.log, delivered, reply); }
      users := users - {w};
      outcomes := outcomes - {w.ticket};
      delivered := delivered[w.ticket := reply];
    }

    /** Blanks an object that is no longer in use, counts its nonce up and pushes it on the recycled ones. */
    method RecycleWaiter(w: ConnectionWaiter)
      requires Valid() && w !in users && w !in queue && w !in free
      requires AllIn(w.log, delivered) && w.nonce == Low32(|w.log| - 1)
      modifies w, this`waiterPool, this`free
      ensures Valid()
    {
      hide Shows, Carried, Linked, Apart, AllIn;
      Blank(w);
      ghost var recycled := free;
      PushFree(w);
      assert forall i :: 0 < i < |free| ==> free[i] == recycled[i - 1];
    }

    method Blank(w: ConnectionWaiter)
      requires Valid() && w !in users && w !in queue && w !in free && w.nonce == Low32(|w.log| - 1)
      modifies w`assignedId, w`exception, w`nonce
      ensures Valid() && w.Undecided() && w.nonce == Low32(|w.log|)
    {
      hide Lists;
      CountsUp(|w.log| - 1);
      w.assignedId := None;
      w.exception := false;
      w.nonce := Low32(w.nonce + 1);
    }

    method PushFree(w: ConnectionWaiter)
      requires Lists() && w !in queue && w !in free
      modifies w`next, this`waiterPool, this`free
      ensures Lists() && free == [w] + old(free)
    {
      w.next := waiterPool;
      waiterPool := w;
      free := [w] + free;
    }

    // ---- Cancellation ----------------------------------------------------------------------------

    /**
      The cancellation listener that was set up for use number `use` of `w` fires, with the nonce it remembered.
      It acts on its own request only: a stale listener does nothing, whatever `w` is used for by then, unless
      exactly a multiple of 2^32 uses lie in between. While the pool is open the search for `w` never runs off
      the end of the queue (`threw` stands for the null dereference it would be); once the pool is closed, whatever
      has become of `w`, nothing changes.
     */
    method OnCancel(w: ConnectionWaiter, nonce: int, ghost use: nat, env: Env) returns (threw: bool)
      requires Valid() && Requests.Inv(Abs()) && (isOpen ==> w in users || w in free)
      requires use < |w.log| && nonce == Low32(use) && |w.log| - use < TWO_TO_32
      modifies this`availablePrimary, this`availableNonPrimary, this`acquired, this`nextConnectionId
      modifies this`waiterQueue, this`queue, this`view, this`outcomes
      modifies users`next, users`assignedId, users`exception
      ensures Valid()
      ensures Abs() == Cancel(old(Abs()), w.log[use], env)
      ensures old(isOpen) ==> !threw
    {
      hide Lists, Shown, Carried, Pooled, Retired, Cancel, Requests.Inv;
      threw := false;
      ClosedQueue();
      if w.nonce != nonce {
        if isOpen {
          StaleIsAnswered(w, use) by { assert Requests.Apart(Abs()) by { InvApart(Abs()); } }
        }
        StaleCancelsNothing(Abs(), w.log[use], env);
      } else {
        if isOpen {
          CurrentListener(w, use);
        } else {
          StaleCancelsNothing(Abs(), w.log[use], env);
          StaleCancelsNothing(Abs(), w.ticket, env);
        }
        threw := CancelWaiter(w, env);
      }
    }

    /** A closed pool has nobody queued. */
    lemma ClosedQueue()
      requires Valid() && Requests.Inv(Abs())
      ensures !isOpen ==> queue == [] && view == []
    {
      hide Lists;
    }

    method CancelWaiter(w: ConnectionWaiter, env: Env) returns (threw: bool)
      requires Valid() && Requests.Inv(Abs()) && (isOpen ==> w in users)
      modifies this`availablePrimary, this`availableNonPrimary, this`acquired, this`nextConnectionId
      modifies this`waiterQueue, this`queue, this`view, this`outcomes
      modifies users`next, users`assignedId, users`exception
      ensures Valid()
      ensures Abs() == Cancel(old(Abs()), w.ticket, env)
      ensures old(isOpen) ==> !threw
      ensures old(isOpen && w.Undecided()) ==> w.exception && w !in queue
      ensures !old(w.Undecided()) ==> Abs() == old(Abs())
    {
      hide Lists, Shown, Carried, Pooled, Retired, WakeAll, Remove, Requests.Inv;
      ClosedQueue();
      if isOpen {
        QueueFindsUser(w);
      }
      if w.assignedId.Some? || w.exception {
        return false;
      }
      var predecessor;
      ghost var k;
      threw, predecessor, k := FindWaiter(w);
      if !threw {
        ghost var s := Abs();
        InvApart(s);
        CancelFound(predecessor, w, k, env);
        if w in users {
          Requests.CancelRaises(s, w.ticket, env);
          RaisedIsOut(w);
        }
      }
    }

    method CancelFound(predecessor: ConnectionWaiter?, w: ConnectionWaiter, ghost k: nat, env: Env)
      requires Valid() && Ordered(view) && k < |queue| && queue[k] == w && predecessor == At(queue, k - 1)
      modifies this`availablePrimary, this`availableNonPrimary, this`acquired, this`nextConnectionId
      modifies this`waiterQueue, this`queue, this`view, this`outcomes
      modifies users`next, users`assignedId, users`exception
      ensures Valid()
      ensures Abs() == Cancel(old(Abs()), w.ticket, env) && Queued(old(view), w.ticket)
    {
      hide Valid, WakeAll, Remove, Ordered;
      QueuedShown(k);
      assert Queued(view, w.ticket);
      QueuedAreUsers();
      ghost var s := Abs();
      CancelQueued(predecessor, w, k);
      assert Abs() == s.(queue := Remove(s.queue, w.ticket), outcomes := s.outcomes[w.ticket := Raised]);
      WakeConnectionWaiters(env);
    }

    /** An object in use whose request failed carries the exception and is not queued. */
    lemma RaisedIsOut(w: ConnectionWaiter)
      requires Valid() && w in users && w.ticket in outcomes && outcomes[w.ticket] == Raised
      ensures w.exception && w !in queue
    {
      hide Lists;
      assert w.InUse(outcomes);
    }

    lemma QueuedAreUsers()
      requires Valid()
      ensures forall i :: 0 <= i < |queue| ==> queue[i] in users
    {
    }

    /** A listener whose nonce does not match belongs to a request that has been answered. */
    lemma StaleIsAnswered(w: ConnectionWaiter, use: nat)
      requires Valid() && Requests.Apart(Abs()) && (w in users || w in free) && use < |w.log|
      requires w.nonce != Low32(use)
      ensures w.log[use] in delivered && !Queued(view, w.log[use])
    {
      hide Lists, Shows;
      if w in users {
        assert w.InUse(outcomes);
        assert w.log[use] == w.log[..|w.log| - 1][use];
      }
    }

    /** A listener whose nonce matches belongs to the request `w` is in use for. */
    lemma CurrentListener(w: ConnectionWaiter, use: nat)
      requires Valid() && (w in users || w in free) && use < |w.log|
      requires w.nonce == Low32(use) && |w.log| - use < TWO_TO_32
      ensures w in users && w.log[use] == w.ticket
    {
      hide Lists, Retired;
      if w in free {
        assert w.nonce == Low32(|w.log|);
        TellsApart(use, |w.log|);
      }
      assert w in users && w.InUse(outcomes);
      if use < |w.log| - 1 {
        TellsApart(use, |w.log| - 1);
      }
    }

    lemma QueueFindsUser(w: ConnectionWaiter)
      requires Valid() && Requests.Inv(Abs()) && w in users
      ensures w.assignedId.Some? || w.exception ==> !Queued(view, w.ticket)
      ensures w.Undecided() && isOpen ==> exists k :: 0 <= k < |queue| && queue[k] == w
    {
      hide Lists;
      assert w.InUse(outcomes) && Pending(Abs(), w.ticket);
      if w.Undecided() && isOpen {
        assert Queued(view, w.ticket);
        var k :| 0 <= k < |view| && view[k].ticket == w.ticket;
        assert queue[k].Value() == view[k] && queue[k] in users;
      }
    }

    /** The walk down the queue to `w`. */
    method FindWaiter(w: ConnectionWaiter) returns (threw: bool, predecessor: ConnectionWaiter?, ghost k: nat)
      requires Lists()
      ensures threw <==> w !in queue
      ensures !threw ==> k < |queue| && queue[k] == w && predecessor == At(queue, k - 1)
    {
      hide Apart;
      predecessor, k, threw := null, 0, false;
      var current := waiterQueue;
      while current != w
        invariant k <= |queue| && predecessor == At(queue, k - 1) && current == At(queue, k)
        invariant forall i :: 0 <= i < k ==> queue[i] != w
        decreases |queue| - k
      {
        if current == null {
          threw := true;
          return;
        }
        predecessor := current;
        current := current.next;
        k := k + 1;
      }
    }

    /** Unlinks the waiter at position `k` and sends it an exception. */
    method CancelQueued(predecessor: ConnectionWaiter?, w: ConnectionWaiter, ghost k: nat)
      requires Valid() && Ordered(view) && k < |queue| && queue[k] == w && predecessor == At(queue, k - 1)
      modifies this`waiterQueue, this`queue, this`view, this`outcomes, queue`next, w`assignedId, w`exception
      ensures Valid()
      ensures view == Remove(old(view), w.ticket) && outcomes == old(outcomes)[w.ticket := Raised]
    {
      hide Lists, Shown, Carried, Pooled, Retired, Remove;
      QueuedShown(k);
      RemoveKeepsOrdered(view, k);
      Answer(predecessor, w, Threw, k);
    }

    // ---- Yielding --------------------------------------------------------------------------------

    /**
      Whether a session should give up connection `id`: the scan stops at the first waiter of a lower priority,
      and still answers for the whole queue, because the queue is in priority order.
     */
    method ShouldYield(id: nat, r: Request) returns (threw: bool, giveUp: bool)
      requires Lists() && Shown() && Ordered(view)
      ensures threw <==> id !in acquired
      ensures !threw ==>
                (giveUp <==>
                   && isOpen
                   && exists i :: && 0 <= i < |view| && (view[i].request.interactive || !r.interactive)
                                  && (acquired[id].conn.primary || !view[i].request.wantPrimary))
    {
      hide Apart, Ordered;
      threw, giveUp := id !in acquired, false;
      if threw || !isOpen {
        return;
      }
      var holdingPrimary := acquired[id].conn.primary;
      var waiter := waiterQueue;
      ghost var k := 0;
      while waiter != null
        invariant 0 <= k <= |queue| && waiter == At(queue, k) && !giveUp
        invariant forall i :: 0 <= i < k ==> !Contends(view[i], r, holdingPrimary)
        decreases |queue| - k
      {
        assert waiter.Value() == view[k];
        ContendsIff(view[k], r, holdingPrimary);
        if Priority(r) > Priority(waiter.request) {
          LowerTailDoesNotContend(view, k, r, holdingPrimary);
          return;
        }
        if holdingPrimary || !waiter.request.wantPrimary {
          giveUp := true;
          return;
        }
        waiter := waiter.next;
        k := k + 1;
      }
    }

    // ---- Release ---------------------------------------------------------------------------------

    /** The connection to put back, reconfigured if it must be, or nothing if it has to be closed. */
    method RecycleConnection(h: Held, env: Env) returns (c: Option<Conn>)
      ensures c == Recycle(h, configuration.Value(), env)
    {
      if h.status.Reconfigure? {
        if !env.reconfigures(h.conn.id) {
          return None;
        }
        var r := ReconfigureConnection(h.conn, configuration);
        return Some(r);
      }
      if h.status.Discard? {
        return None;
      }
      return Some(h.conn);
    }

    method ReleaseConnection(id: nat, env: Env) returns (threw: bool)
      requires Valid()
      modifies this`availablePrimary, this`availableNonPrimary, this`acquired, this`nextConnectionId
      modifies this`waiterQueue, this`queue, this`view, this`outcomes
      modifies users`next, users`assignedId, users`exception
      ensures Valid()
      ensures Abs() == Release(old(Abs()), id, env)
      ensures threw <==> id !in old(acquired)
    {
      hide Lists, Shown, Carried, Pooled, Retired, WakeAll, TakeBack, ReleaseSkipsWake;
      threw := id !in acquired;
      if threw {
        return;
      }
      var wake := PutBack(id, env);
      if wake {
        WakeConnectionWaiters(env);
      }
    }

    /** Takes connection `id` back or closes it, and tells whether waiters are to be woken. */
    method PutBack(id: nat, env: Env) returns (wake: bool)
      requires id in acquired
      modifies this`availablePrimary, this`availableNonPrimary, this`acquired
      ensures Core() == TakeBack(old(Core()), id, env)
      ensures wake <==> !ReleaseSkipsWake(old(Core()), old(acquired)[id])
    {
      hide Recycle;
      var h := acquired[id];
      acquired := acquired - {id};
      if !isOpen {
        return false;
      }
      if !h.conn.primary && |availableNonPrimary| >= maxSize - 1 {
        return false;
      }
      RecycleKeepsKind(h, configuration.Value(), env);
      var c := RecycleConnection(h, env);
      if c.Some? {
        if h.conn.primary {
          availablePrimary := c;
        } else {
          availableNonPrimary := availableNonPrimary + [c.value];
        }
      }
      return true;
    }

    // ---- Reconfigure and close -------------------------------------------------------------------

    /** Closes idle non-primary connections from the end until the pool size is respected. */
    method CloseExcessConnections()
      requires maxSize >= 1
      modifies this`availableNonPrimary
      ensures var was := old(availableNonPrimary);
              availableNonPrimary == if |was| > maxSize - 1 then was[..maxSize - 1] else was
    {
      var count := |availableNonPrimary|;
      while count > maxSize - 1
        invariant 0 <= count == |availableNonPrimary| <= |old(availableNonPrimary)|
        invariant availableNonPrimary == old(availableNonPrimary)[..count]
        invariant count < |old(availableNonPrimary)| ==> count >= maxSize - 1
      {
        count := count - 1;
        availableNonPrimary := availableNonPrimary[..count];
      }
    }

    /** Raises the status of every acquired connection that is not to be discarded. */
    method MarkAcquired(status: Status)
      modifies this`acquired
      ensures acquired == Mark(old(acquired), status)
    {
      var keys := set id | id in acquired && acquired[id].status != status && !acquired[id].status.Discard?;
      while keys != {}
        invariant acquired.Keys == old(acquired).Keys
        invariant forall id :: id in keys ==> id in acquired && acquired[id] == old(acquired)[id]
                                              && !acquired[id].status.Discard?
        invariant forall id :: id in acquired && id !in keys ==> acquired[id] == Mark(old(acquired), status)[id]
      {
        var id :| id in keys;
        acquired := acquired[id := acquired[id].(status := status)];
        keys := keys - {id};
      }
    }

    /** Reconfigures the idle non-primary connections in place, dropping those that fail. */
    method ReconfigureNonPrimaries(env: Env)
      modifies this`availableNonPrimary
      ensures availableNonPrimary == ReconfigureIdle(old(availableNonPrimary), configuration.Value(), env)
    {
      hide ReconfigureIdle, Reconfigured;
      var i, count := 0, |availableNonPrimary|;
      ghost var config := configuration.Value();
      assert availableNonPrimary[..0] + ReconfigureIdle(availableNonPrimary[0..], config, env)
             == ReconfigureIdle(availableNonPrimary, config, env) by {
        assert availableNonPrimary[0..] == availableNonPrimary;
      }
      while i < count
        invariant 0 <= i <= count == |availableNonPrimary|
        invariant availableNonPrimary[..i] + ReconfigureIdle(availableNonPrimary[i..], config, env)
                  == ReconfigureIdle(old(availableNonPrimary), config, env)
        decreases count - i
      {
        ghost var was := availableNonPrimary;
        var c := availableNonPrimary[i];
        assert was[i..][0] == c && was[i..][1..] == was[i + 1..];
        ReconfigureIdleSplits(was[..i], was[i..], config, env);
        if env.reconfigures(c.id) {
          var r := ReconfigureConnection(c, configuration);
          availableNonPrimary := availableNonPrimary[i := r];
          assert availableNonPrimary[..i + 1] == was[..i] + [r] && availableNonPrimary[i + 1..] == was[i + 1..];
          i := i + 1;
        } else {
          availableNonPrimary := Without(availableNonPrimary, i);
          assert availableNonPrimary[..i] == was[..i] + [] && availableNonPrimary[i..] == was[i + 1..];
          count := count - 1;
        }
      }
      ReconfigureIdleEmpty(config, env);
      assert availableNonPrimary[i..] == [] && availableNonPrimary[..i] == availableNonPrimary;
    }

    method SetMaxPoolSize()
      modifies this`maxSize
      ensures maxSize == MaxPoolSize(build, configuration.Value())
    {
      maxSize := if !build.codec && HasWal(configuration.openFlags) then WalPoolSize(build) else 1;
    }

    /** The in-place branch of `reconfigure`. */
    method ApplyInPlace(config: SQLiteDatabaseConfiguration, env: Env)
      requires config != configuration && config.customFunctions != configuration.customFunctions
      requires config.path == configuration.path
      modifies this`availablePrimary, this`availableNonPrimary, this`acquired, this`maxSize
      modifies configuration, configuration.customFunctions
      ensures Core() == ReconfigureInPlace(old(Core()), config.Value(), env)
      ensures configuration.Value() == config.Value() == old(config.Value())
    {
      hide Reconfigured, ReconfigureIdle, Mark, HasWal;
      var threw := configuration.UpdateParametersFrom(config);
      assert configuration.Value() == config.Value() == old(config.Value());
      SetMaxPoolSize();
      CloseExcessConnections();
      if availablePrimary.Some? {
        if env.reconfigures(availablePrimary.value.id) {
          var c := ReconfigureConnection(availablePrimary.value, configuration);
          availablePrimary := Some(c);
        } else {
          availablePrimary := None;
        }
      }
      ReconfigureNonPrimaries(env);
      MarkAcquired(Reconfigure);
    }

    /** The branch for changed open flags, after the new primary connection has been opened. */
    method ApplyReopened(config: SQLiteDatabaseConfiguration, primary: Conn)
      requires config != configuration && config.customFunctions != configuration.customFunctions
      requires config.path == configuration.path
      modifies this`availablePrimary, this`availableNonPrimary, this`acquired, this`maxSize
      modifies configuration, configuration.customFunctions
      ensures configuration.Value() == config.Value() == old(config.Value())
      ensures Core() == old(Core()).(config := config.Value(), max := MaxPoolSize(build, config.Value()),
                                     idlePrimary := Some(primary), idle := [],
                                     acquired := Mark(old(acquired), Discard))
    {
      hide Mark, HasWal;
      availableNonPrimary := [];
      MarkAcquired(Discard);
      availablePrimary := Some(primary);
      var threw := configuration.UpdateParametersFrom(config);
      assert configuration.Value() == config.Value() == old(config.Value());
      SetMaxPoolSize();
    }

    /** `reconfigure` up to its final wake pass. It throws only before it touches the pool's configuration. */
    method ApplyConfiguration(config: SQLiteDatabaseConfiguration, env: Env) returns (threw: bool)
      requires config != configuration && config.customFunctions != configuration.customFunctions
      requires config.path == configuration.path
      modifies this`availablePrimary, this`availableNonPrimary, this`acquired, this`maxSize, this`nextConnectionId
      modifies configuration, configuration.customFunctions
      ensures threw <==> || !old(isOpen)
                         || (old(acquired) != map[] && (|| WalDiffers(config.openFlags, old(configuration.openFlags))
                                                        || config.foreignKeys != old(configuration.foreignKeys)))
                         || (config.openFlags != old(configuration.openFlags) && !env.opens(old(nextConnectionId)))
      ensures (if threw then Refused(Core()) else Applied(Core()))
              == ReconfigurePool(old(Core()), old(config.Value()), env)
      ensures config.Value() == old(config.Value())
      ensures configuration.Value() == if threw then old(configuration.Value()) else config.Value()
    {
      hide ReconfigureInPlace, Mark, HasWal, MaxPoolSize;
      if !isOpen {
        return true;
      }
      var walChanged := WalDiffers(config.openFlags, configuration.openFlags);
      if walChanged {
        if acquired != map[] {
          return true;
        }
        availableNonPrimary := [];
      }
      if config.foreignKeys != configuration.foreignKeys && acquired != map[] {
        return true;
      }
      if configuration.openFlags == config.openFlags {
        ApplyInPlace(config, env);
        return false;
      }
      if walChanged {
        availableNonPrimary, availablePrimary := [], None;
      }
      var id := nextConnectionId;
      nextConnectionId := nextConnectionId + 1;
      if !env.opens(id) {
        return true;
      }
      var value := Config(config.path, config.openFlags, config.maxSqlCacheSize, config.locale, config.foreignKeys,
                          config.customFunctions.items);
      ApplyReopened(config, Opened(id, true, value));
      return false;
    }

    method ReconfigureConnections(config: SQLiteDatabaseConfiguration, env: Env) returns (threw: bool)
      requires Valid() && config != configuration && config.customFunctions != configuration.customFunctions
      requires config.path == configuration.path
      modifies this`availablePrimary, this`availableNonPrimary, this`acquired, this`maxSize, this`nextConnectionId
      modifies configuration, configuration.customFunctions
      modifies this`waiterQueue, this`queue, this`view, this`outcomes
      modifies users`next, users`assignedId, users`exception
      ensures Valid()
      ensures Abs() == ReconfigureAll(old(Abs()), old(config.Value()), env)
      ensures threw <==> || !old(isOpen)
                         || (old(acquired) != map[] && (|| WalDiffers(config.openFlags, old(configuration.openFlags))
                                                        || config.foreignKeys != old(configuration.foreignKeys)))
                         || (config.openFlags != old(configuration.openFlags) && !env.opens(old(nextConnectionId)))
      ensures config.Value() == old(config.Value())
      ensures configuration.Value() == if threw then old(configuration.Value()) else config.Value()
    {
      hide Lists, Shown, Carried, Pooled, Retired, WakeAll, ReconfigurePool;
      threw := ApplyConfiguration(config, env);
      if !threw {
        WakeConnectionWaiters(env);
      }
    }

    method ClosePool(env: Env) returns (threw: bool)
      requires Valid()
      modifies this`isOpen, this`availablePrimary, this`availableNonPrimary, this`acquired, this`nextConnectionId
      modifies this`waiterQueue, this`queue, this`view, this`outcomes
      modifies users`next, users`assignedId, users`exception
      ensures Valid()
      ensures Abs() == Close(old(Abs()), env)
      ensures threw <==> !old(isOpen)
      ensures !isOpen && acquired == old(acquired)
      ensures !threw ==> availablePrimary == None && availableNonPrimary == [] && view == []
    {
      hide Lists, Shown, Carried, Pooled, Retired, WakeAll;
      threw := !isOpen;
      Requests.CloseEmpties(Abs(), env);
      if !threw {
        isOpen, availableNonPrimary, availablePrimary := false, [], None;
        WakeConnectionWaiters(env);
      }
    }

    /** Opens the primary connection and the pool with it. */
    method OpenPool(env: Env) returns (threw: bool)
      requires Valid() && Abs() == State(Pool(false, build, configuration.Value(), MaxPoolSize(build, configuration.Value()),
                                              0, None, [], map[]), [], map[], map[], 0, NO_LEAKS)
      modifies this`isOpen, this`availablePrimary, this`nextConnectionId
      ensures Valid()
      ensures threw <==> !env.opens(0)
      ensures !threw ==> Abs() == Start(configuration.Value(), build)
    {
      hide Lists, Shown, Carried, Pooled, Retired;
      var id := nextConnectionId;
      nextConnectionId := nextConnectionId + 1;
      threw := !env.opens(id);
      if !threw {
        var config := Config(configuration.path, configuration.openFlags, configuration.maxSqlCacheSize,
                             configuration.locale, configuration.foreignKeys, configuration.customFunctions.items);
        availablePrimary, isOpen := Some(Opened(id, true, config)), true;
      }
    }

    // ---- Leaks -----------------------------------------------------------------------------------

    /** Called by a connection's finalizer. */
    method OnConnectionLeaked()
      requires connectionLeaked == leaks.flagged
      modifies this`connectionLeaked, this`leaks
      ensures Abs() == Finalize(old(Abs())) && connectionLeaked == leaks.flagged
    {
      connectionLeaked := true;
      leaks := Leaks(if leaks.unfinalized > 0 then leaks.unfinalized - 1 else 0, true, leaks.recovering);
    }

    /** A waiting thread tests and clears the leak flag. */
    method NoticeLeak() returns (found: bool)
      requires connectionLeaked == leaks.flagged
      modifies this`connectionLeaked, this`leaks
      ensures Abs() == Notice(old(Abs())) && connectionLeaked == leaks.flagged
      ensures found == old(connectionLeaked)
    {
      found := connectionLeaked;
      if found {
        connectionLeaked := false;
        leaks := leaks.(flagged := false, recovering := leaks.recovering + 1);
      }
    }

    /** The wake pass that the thread runs after it has found the flag raised. */
    method RecoverFromLeak(env: Env)
      requires Valid() && leaks.recovering > 0
      modifies this`availablePrimary, this`availableNonPrimary, this`acquired, this`nextConnectionId, this`leaks
      modifies this`waiterQueue, this`queue, this`view, this`outcomes
      modifies users`next, users`assignedId, users`exception
      ensures Valid()
      ensures Abs() == Recover(old(Abs()), env)
    {
      hide Lists, Shown, Carried, Pooled, Retired, WakeAll;
      leaks := leaks.(recovering := leaks.recovering - 1);
      WakeConnectionWaiters(env);
    }
  }

  /** A waiter that `r` does not go before and that would accept what the session holds. */
  predicate Contends(w: Waiter, r: Request, holdingPrimary: bool) {
    (w.request.interactive || !r.interactive) && (holdingPrimary || !w.request.wantPrimary)
  }

  lemma ContendsIff(w: Waiter, r: Request, holdingPrimary: bool)
    ensures Contends(w, r, holdingPrimary) <==>
              Priority(w.request) >= Priority(r) && (holdingPrimary || !w.request.wantPrimary)
  {
  }

  lemma LowerTailDoesNotContend(q: seq<Waiter>, k: nat, r: Request, holdingPrimary: bool)
    requires Ordered(q) && k < |q| && Priority(r) > Priority(q[k].request)
    ensures forall i :: k <= i < |q| ==> !Contends(q[i], r, holdingPrimary)
  {
    assert forall i :: k < i < |q| ==> Before(q[k], q[i]);
  }

  lemma ReconfigureIdleEmpty(config: Config, env: Env)
    ensures ReconfigureIdle([], config, env) == []
  {
  }

  lemma ReconfigureIdleSplits(done: seq<Conn>, rest: seq<Conn>, config: Config, env: Env)
    requires rest != []
    ensures done + ReconfigureIdle(rest, config, env)
            == done + (if env.reconfigures(rest[0].id) then [Reconfigured(rest[0], config)] else [])
               + ReconfigureIdle(rest[1..], config, env)
  {
  }

  lemma RecycleKeepsKind(h: Held, config: Config, env: Env)
    ensures Recycle(h, config, env).Some? ==> Recycle(h, config, env).value.primary == h.conn.primary
  {
  }

  /**
    `SQLiteConnection.reconfigure`: registers the functions the connection does not know yet and takes over
    the settings.
   */
  method ReconfigureConnection(c: Conn, configuration: SQLiteDatabaseConfiguration) returns (r: Conn)
    ensures r == Reconfigured(c, configuration.Value())
  {
    var functions := configuration.customFunctions.items;
    var registered := c.registered;
    for i := 0 to |functions|
      invariant registered + Missing(functions[i..], c.config.functions)
                == c.registered + Missing(functions, c.config.functions)
    {
      if functions[i] !in c.config.functions {
        registered := registered + [functions[i]];
      }
    }
    var config := Config(configuration.path, configuration.openFlags, configuration.maxSqlCacheSize,
                         configuration.locale, configuration.foreignKeys, functions);
    r := Conn(c.id, c.primary, config, registered, false);
  }

  lemma InvApart(s: State)
    requires Requests.Inv(s)
    ensures Requests.Apart(s) && Ordered(s.queue)
  {
  }

  lemma StaleCancelsNothing(s: State, t: Ticket, env: Env)
    requires !Queued(s.queue, t)
    ensures Cancel(s, t, env) == s
  {
  }
}
