/**
  The connection pool as a state machine.

  Every block that the pool runs under its lock is one atomic step. Calls that leave the pool (opening a
  connection, reconfiguring one, asking a connection for a cached statement) are answered by an `Env`, so a
  statement about all environments covers every way those calls can succeed or fail.
 */
module PoolModel {
  import opened Options
  import opened Sequences
  import opened Configuration

  /** The answers of the calls that leave the pool during one step, by connection id. */
  datatype Env = Env(opens: nat -> bool, reconfigures: nat -> bool, caches: (nat, string) -> bool)

  /** What to do with an acquired connection when it comes back. */
  datatype Status = Normal | Reconfigure | Discard

  /** An acquired connection; `grantedReadOnly` records the READ_ONLY flag of the request it was granted to. */
  datatype Held = Held(conn: Conn, status: Status, grantedReadOnly: bool)

  datatype Pool = Pool(
    open: bool,
    build: Build,
    config: Config,
    max: int,
    nextId: nat,
    idlePrimary: Option<Conn>,
    idle: seq<Conn>,
    acquired: map<nat, Held>)

  /** A request: the decoded connection flags and the SQL it intends to run. */
  datatype Request = Request(wantPrimary: bool, readOnly: bool, interactive: bool, sql: Option<string>)

  function Priority(r: Request): int {
    if r.interactive then 1 else 0
  }

  // ---- Acquiring ---------------------------------------------------------------------------------

  datatype Attempt = Got(id: nat) | Unavailable | Threw

  datatype Tried = Tried(pool: Pool, attempt: Attempt)

  predicate PrimaryAcquired(p: Pool) {
    exists id :: id in p.acquired && p.acquired[id].conn.primary
  }

  function Grant(p: Pool, c: Conn, readOnly: bool): Pool {
    p.(acquired := p.acquired[c.id := Held(c.(readOnly := readOnly), Normal, readOnly)])
  }

  function OpenAndGrant(p: Pool, env: Env, primary: bool, readOnly: bool): Tried {
    var numbered := p.(nextId := p.nextId + 1);
    if env.opens(p.nextId)
    then Tried(Grant(numbered, Opened(p.nextId, primary, p.config), readOnly), Got(p.nextId))
    else Tried(numbered, Threw)
  }

  function TryPrimary(p: Pool, env: Env, readOnly: bool): Tried {
    if p.idlePrimary.Some? then
      Tried(Grant(p.(idlePrimary := None), p.idlePrimary.value, readOnly), Got(p.idlePrimary.value.id))
    else if PrimaryAcquired(p) then
      Tried(p, Unavailable)
    else
      OpenAndGrant(p, env, true, readOnly)
  }

  /** The first idle connection from position `i` on that has `sql` cached, else the last one. */
  function FirstCached(idle: seq<Conn>, env: Env, sql: string, i: nat): (k: nat)
    requires i <= |idle| && idle != []
    ensures k < |idle|
    decreases |idle| - i
  {
    if i == |idle| then |idle| - 1
    else if env.caches(idle[i].id, sql) then i
    else FirstCached(idle, env, sql, i + 1)
  }

  function Choose(idle: seq<Conn>, env: Env, sql: Option<string>): (k: nat)
    requires idle != []
    ensures k < |idle|
  {
    if |idle| > 1 && sql.Some? then FirstCached(idle, env, sql.value, 0) else |idle| - 1
  }

  function Count<T>(o: Option<T>): nat {
    if o.Some? then 1 else 0
  }

  function TryNonPrimary(p: Pool, env: Env, sql: Option<string>, readOnly: bool): Tried {
    if p.idle != [] then
      var k := Choose(p.idle, env, sql);
      Tried(Grant(p.(idle := Without(p.idle, k)), p.idle[k], readOnly), Got(p.idle[k].id))
    else if |p.acquired| + Count(p.idlePrimary) >= p.max then
      Tried(p, Unavailable)
    else
      OpenAndGrant(p, env, false, readOnly)
  }

  /** The flags a wake pass remembers between waiters. */
  datatype Flags = Flags(noPrimary: bool, noNonPrimary: bool)

  datatype Service = Service(pool: Pool, attempt: Attempt, flags: Flags)

  /** One attempt to serve a request, skipping the kinds of connection already known to be unavailable. */
  function TryServe(p: Pool, env: Env, r: Request, flags: Flags): Service {
    var first := if !r.wantPrimary && !flags.noNonPrimary
                 then TryNonPrimary(p, env, r.sql, r.readOnly)
                 else Tried(p, Unavailable);
    var noNonPrimary := flags.noNonPrimary || (!r.wantPrimary && first.attempt.Unavailable?);
    if !first.attempt.Unavailable? || flags.noPrimary then
      Service(first.pool, first.attempt, Flags(flags.noPrimary, noNonPrimary))
    else
      var second := TryPrimary(first.pool, env, r.readOnly);
      Service(second.pool, second.attempt, Flags(second.attempt.Unavailable?, noNonPrimary))
  }

  const FRESH := Flags(false, false)

  // ---- Waking waiters ----------------------------------------------------------------------------

  type Ticket = nat

  /** A parked request; the ticket tells it apart from every other parked request of the run. */
  datatype Waiter = Waiter(ticket: Ticket, request: Request)

  /** What one wake pass does to a waiter. A closed pool drops its waiters without a result. */
  datatype Fate = Kept | Served(id: nat) | Failed | Dropped

  datatype Pass = Pass(pool: Pool, fates: seq<Fate>)

  function Wake(p: Pool, env: Env, todo: seq<Waiter>, flags: Flags): (pass: Pass)
    ensures |pass.fates| == |todo|
    decreases todo
  {
    if todo == [] then Pass(p, [])
    else if !p.open then
      var rest := Wake(p, env, todo[1..], flags);
      Pass(rest.pool, [Dropped] + rest.fates)
    else
      var s := TryServe(p, env, todo[0].request, flags);
      if s.attempt.Unavailable? && s.flags == Flags(true, true) then
        Pass(s.pool, seq(|todo|, _ => Kept))
      else
        var rest := Wake(s.pool, env, todo[1..], s.flags);
        Pass(rest.pool, [FateOf(s.attempt)] + rest.fates)
  }

  function FateOf(a: Attempt): Fate {
    match a
    case Got(id) => Served(id)
    case Threw => Failed
    case Unavailable => Kept
  }

  datatype Outcome = Assigned(id: nat) | Raised

  function KeptOf(q: seq<Waiter>, fates: seq<Fate>): seq<Waiter>
    requires |q| == |fates|
  {
    if q == [] then []
    else (if fates[0].Kept? then [q[0]] else []) + KeptOf(q[1..], fates[1..])
  }

  function Settle(outcomes: map<Ticket, Outcome>, q: seq<Waiter>, fates: seq<Fate>): map<Ticket, Outcome>
    requires |q| == |fates|
    decreases q
  {
    if q == [] then outcomes
    else
      var now := match fates[0]
        case Served(id) => outcomes[q[0].ticket := Assigned(id)]
        case Failed => outcomes[q[0].ticket := Raised]
        case _ => outcomes;
      Settle(now, q[1..], fates[1..])
  }

  // ---- The machine -------------------------------------------------------------------------------

  /**
    Leaks under way: connections that vanished but whose finalizer has not run, the leak flag, and threads
    that have cleared the flag but have not yet run the wake pass that follows.
   */
  datatype Leaks = Leaks(unfinalized: nat, flagged: bool, recovering: nat)

  const NO_LEAKS := Leaks(0, false, 0)

  /** What a request was finally answered with. */
  datatype Reply = Connection(id: nat) | Exception

  datatype State = State(
    pool: Pool,
    queue: seq<Waiter>,
    outcomes: map<Ticket, Outcome>,
    delivered: map<Ticket, Reply>,
    nextTicket: Ticket,
    leaks: Leaks)

  function WakeAll(s: State, env: Env): State {
    var pass := Wake(s.pool, env, s.queue, FRESH);
    s.(pool := pass.pool,
       queue := KeptOf(s.queue, pass.fates),
       outcomes := Settle(s.outcomes, s.queue, pass.fates))
  }

  /** Insertion behind every waiter of the same or a higher priority. */
  function Insert(q: seq<Waiter>, w: Waiter): seq<Waiter> {
    if q == [] || Priority(w.request) > Priority(q[0].request) then [w] + q
    else [q[0]] + Insert(q[1..], w)
  }

  /** The locked block that starts a request: refuse it, serve it, let it fail, or park it. */
  function Acquire(s: State, r: Request, canceled: bool, env: Env): State {
    if !s.pool.open || canceled then s
    else
      var service := TryServe(s.pool, env, r, FRESH);
      if !service.attempt.Unavailable? then s.(pool := service.pool)
      else s.(pool := service.pool,
              queue := Insert(s.queue, Waiter(s.nextTicket, r)),
              nextTicket := s.nextTicket + 1)
  }

  function Remove(q: seq<Waiter>, t: Ticket): seq<Waiter> {
    if q == [] then []
    else if q[0].ticket == t then q[1..]
    else [q[0]] + Remove(q[1..], t)
  }

  predicate Queued(q: seq<Waiter>, t: Ticket) {
    exists i :: 0 <= i < |q| && q[i].ticket == t
  }

  /** The cancellation listener of request `t` fires. */
  function Cancel(s: State, t: Ticket, env: Env): State {
    if !Queued(s.queue, t) then s
    else WakeAll(s.(queue := Remove(s.queue, t), outcomes := s.outcomes[t := Raised]), env)
  }

  /** The thread that waits for request `t` wakes up and looks for its result. */
  function PickUp(s: State, t: Ticket): State {
    if !s.pool.open then s.(outcomes := s.outcomes - {t}, delivered := s.delivered[t := Exception])
    else if t !in s.outcomes then s
    else
      var reply := match s.outcomes[t] case Assigned(id) => Connection(id) case Raised => Exception;
      s.(outcomes := s.outcomes - {t}, delivered := s.delivered[t := reply])
  }

  /** The connection to put back, or nothing when it must be closed instead. */
  function Recycle(h: Held, config: Config, env: Env): Option<Conn> {
    match h.status
    case Normal => Some(h.conn)
    case Discard => None
    case Reconfigure => if env.reconfigures(h.conn.id) then Some(Reconfigured(h.conn, config)) else None
  }

  /** Whether a release closes the connection as an excess one and wakes nobody. */
  predicate ReleaseSkipsWake(p: Pool, h: Held) {
    !p.open || (!h.conn.primary && |p.idle| >= p.max - 1)
  }

  /** The pool after connection `h` has been taken back and before any waiter is woken. */
  function TakeBack(p: Pool, id: nat, env: Env): Pool
    requires id in p.acquired
  {
    var h := p.acquired[id];
    var q := p.(acquired := p.acquired - {id});
    if ReleaseSkipsWake(q, h) then q
    else
      match Recycle(h, p.config, env)
      case None => q
      case Some(c) => if c.primary then q.(idlePrimary := Some(c)) else q.(idle := q.idle + [c])
  }

  function Release(s: State, id: nat, env: Env): State {
    if id !in s.pool.acquired then s
    else
      var t := s.(pool := TakeBack(s.pool, id, env));
      if ReleaseSkipsWake(s.pool, s.pool.acquired[id]) then t else WakeAll(t, env)
  }

  function CloseIdle(p: Pool): Pool {
    p.(idlePrimary := None, idle := [])
  }

  function Mark(acquired: map<nat, Held>, status: Status): map<nat, Held> {
    map id | id in acquired ::
      if acquired[id].status.Discard? then acquired[id] else acquired[id].(status := status)
  }

  function ReconfigureIdle(idle: seq<Conn>, config: Config, env: Env): seq<Conn> {
    if idle == [] then []
    else (if env.reconfigures(idle[0].id) then [Reconfigured(idle[0], config)] else [])
         + ReconfigureIdle(idle[1..], config, env)
  }

  /** The in-place branch: same open flags, so every connection is kept and told about the new settings. */
  function ReconfigureInPlace(p: Pool, config: Config, env: Env): Pool {
    var max := MaxPoolSize(p.build, config);
    var trimmed := if |p.idle| > max - 1 then p.idle[..max - 1] else p.idle;
    var primary := if p.idlePrimary.Some? && env.reconfigures(p.idlePrimary.value.id)
                   then Some(Reconfigured(p.idlePrimary.value, config)) else None;
    p.(config := config,
       max := max,
       idlePrimary := primary,
       idle := ReconfigureIdle(trimmed, config, env),
       acquired := Mark(p.acquired, Reconfigure))
  }

  /** The branch for changed open flags, once the new primary connection has been opened. */
  function Reopen(p: Pool, config: Config): Pool {
    p.(config := config,
       max := MaxPoolSize(p.build, config),
       nextId := p.nextId + 1,
       idlePrimary := Some(Opened(p.nextId, true, config)),
       idle := [],
       acquired := Mark(p.acquired, Discard))
  }

  datatype Reconfiguration = Applied(pool: Pool) | Refused(pool: Pool)

  /** `reconfigure` up to its final wake pass; refused when it throws. */
  function ReconfigurePool(p: Pool, config: Config, env: Env): Reconfiguration {
    var walChanged := WalDiffers(config.openFlags, p.config.openFlags);
    if !p.open then Refused(p)
    else if p.acquired != map[] && (walChanged || config.foreignKeys != p.config.foreignKeys) then Refused(p)
    else if config.openFlags == p.config.openFlags then Applied(ReconfigureInPlace(p, config, env))
    else if env.opens(p.nextId) then Applied(Reopen(p, config))
    else Refused((if walChanged then CloseIdle(p) else p).(nextId := p.nextId + 1))
  }

  function ReconfigureAll(s: State, config: Config, env: Env): State {
    match ReconfigurePool(s.pool, config, env)
    case Refused(p) => s.(pool := p)
    case Applied(p) => WakeAll(s.(pool := p), env)
  }

  function Close(s: State, env: Env): State {
    if !s.pool.open then s
    else WakeAll(s.(pool := CloseIdle(s.pool).(open := false)), env)
  }

  function Leak(s: State, id: nat): State {
    s.(pool := s.pool.(acquired := s.pool.acquired - {id}),
       leaks := s.leaks.(unfinalized := s.leaks.unfinalized + 1))
  }

  /** A finalizer runs and raises the leak flag. */
  function Finalize(s: State): State {
    s.(leaks := Leaks(if s.leaks.unfinalized > 0 then s.leaks.unfinalized - 1 else 0, true, s.leaks.recovering))
  }

  /** A waiting thread finds the leak flag raised and clears it. */
  function Notice(s: State): State {
    if !s.leaks.flagged then s
    else s.(leaks := s.leaks.(flagged := false, recovering := s.leaks.recovering + 1))
  }

  /** The wake pass that a thread runs after it has cleared the leak flag. */
  function Recover(s: State, env: Env): State {
    if s.leaks.recovering == 0 then s
    else WakeAll(s.(leaks := s.leaks.(recovering := s.leaks.recovering - 1)), env)
  }

  datatype Step =
    | AcquireStep(request: Request, canceled: bool)
    | CancelStep(ticket: Ticket)
    | PickUpStep(ticket: Ticket)
    | ReleaseStep(id: nat)
    | ReconfigureStep(config: Config)
    | CloseStep
    | LeakStep(id: nat)
    | FinalizeStep
    | NoticeStep
    | RecoverStep

  /** A request that has been parked and not yet answered. */
  predicate Pending(s: State, t: Ticket) {
    t < s.nextTicket && t !in s.delivered
  }

  /** A connection assigned to a waiter that has not woken up yet: nobody else can name it. */
  predicate InFlight(s: State, id: nat) {
    exists t :: t in s.outcomes && s.outcomes[t] == Assigned(id)
  }

  /** What the callers keep to when they reconfigure: the same database, functions only ever appended. */
  predicate Extends(config: Config, earlier: Config) {
    && config.path == earlier.path
    && earlier.functions <= config.functions
    && Distinct(config.functions)
  }

  predicate Enabled(s: State, step: Step) {
    match step
    case PickUpStep(t) => Pending(s, t)
    case ReleaseStep(id) => !InFlight(s, id)
    case LeakStep(id) => id in s.pool.acquired && !InFlight(s, id)
    case ReconfigureStep(config) => Extends(config, s.pool.config)
    case _ => true
  }

  function Next(s: State, step: Step, env: Env): State {
    match step
    case AcquireStep(r, canceled) => Acquire(s, r, canceled, env)
    case CancelStep(t) => Cancel(s, t, env)
    case PickUpStep(t) => PickUp(s, t)
    case ReleaseStep(id) => Release(s, id, env)
    case ReconfigureStep(config) => ReconfigureAll(s, config, env)
    case CloseStep => Close(s, env)
    case LeakStep(id) => Leak(s, id)
    case FinalizeStep => Finalize(s)
    case NoticeStep => Notice(s)
    case RecoverStep => Recover(s, env)
  }

  /** A pool whose primary connection has just been opened. */
  function Start(config: Config, build: Build): State {
    State(
      Pool(true, build, config, MaxPoolSize(build, config), 1, Some(Opened(0, true, config)), [], map[]),
      [], map[], map[], 0, NO_LEAKS)
  }
}
