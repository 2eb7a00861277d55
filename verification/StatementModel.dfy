/**
 * The prepared statements of one connection, as a state machine that records its
 * native calls. Operations nest, because a custom function may run SQL on the connection that is
 * calling it, so the statements being executed form a stack.
 */
module StatementModel {
  import opened Options
  import opened Sequences

  /** What preparing a statement reveals about its SQL. */
  datatype Info = Info(cacheable: bool, readOnly: bool)

  /** The native calls that concern one native statement. */
  datatype Call =
    | Prepare(ptr: nat, sql: string)
    | Use(ptr: nat)
    | Execute(ptr: nat, onlyReadOnly: bool)
    | Finalize(ptr: nat)

  /** A holder object; its `sql` is null exactly while it waits on the free list. */
  datatype Holder = Holder(sql: Option<string>, ptr: nat, info: Info, inCache: bool, inUse: bool)

  datatype Entry<H> = Entry(sql: string, holder: H)

  /** One operation in progress; `hit` when its statement came out of the cache. */
  datatype Frame<H> = Frame(holder: H, hit: bool)

  /** The cache is listed from the least to the most recently used entry; `log` has the oldest call first. */
  datatype State<H(==)> = State(
    capacity: nat,
    describe: string -> Info,
    onlyReadOnly: bool,
    cache: seq<Entry<H>>,
    holders: map<H, Holder>,
    free: seq<H>,
    frames: seq<Frame<H>>,
    nextPtr: nat,
    log: seq<Call>
  )

  function Begin<H(==)>(capacity: nat, describe: string -> Info): State<H> {
    State(capacity, describe, false, [], map[], [], [], 0, [])
  }

  // ---- What the native library demands --------------------------------------------------------------

  /** The native statements that have been prepared and not finalized. */
  function Live(log: seq<Call>): set<nat> {
    if log == [] then {} else
      Apply(Live(log[..|log| - 1]), log[|log| - 1])
  }

  function Apply(live: set<nat>, call: Call): set<nat> {
    match call
    case Prepare(p, _) => live + {p}
    case Finalize(p) => live - {p}
    case _ => live
  }

  predicate Unissued(log: seq<Call>, ptr: nat) {
    forall i :: 0 <= i < |log| ==> log[i].ptr != ptr
  }

  predicate Admissible(past: seq<Call>, call: Call) {
    match call
    case Prepare(p, _) => Unissued(past, p)
    case _ => call.ptr in Live(past)
  }

  /** No statement is used or finalized unless it is live. */
  predicate WellUsed(log: seq<Call>) {
    forall j :: 0 <= j < |log| ==> Admissible(log[..j], log[j])
  }

  // ---- The cache ------------------------------------------------------------------------------------

  /** Where `sql` is in the cache, or the cache's length. */
  function Find<H>(cache: seq<Entry<H>>, sql: string): (k: nat)
    ensures k <= |cache|
    ensures k < |cache| ==> cache[k].sql == sql
    ensures forall i :: 0 <= i < k ==> cache[i].sql != sql
  {
    if cache == [] then 0
    else if cache[0].sql == sql then 0
    else 1 + Find(cache[1..], sql)
  }

  /** Looking `sql` up makes its entry the most recently used one. */
  function Touch<H>(cache: seq<Entry<H>>, sql: string): seq<Entry<H>> {
    var k := Find(cache, sql);
    if k == |cache| then cache else Without(cache, k) + [cache[k]]
  }

  // ---- Steps ----------------------------------------------------------------------------------------

  /** Finalizes the holder's native statement and puts the holder on the free list. */
  function Retire<H(==)>(s: State<H>, h: H): State<H>
    requires h in s.holders
  {
    s.(log := s.log + [Finalize(s.holders[h].ptr)],
       holders := s.holders[h := s.holders[h].(sql := None)],
       free := [h] + s.free)
  }

  /** The cache's callback for an entry it has dropped. */
  function EntryRemoved<H(==)>(s: State<H>, h: H): State<H>
    requires h in s.holders
  {
    var out := s.(holders := s.holders[h := s.holders[h].(inCache := false)]);
    if s.holders[h].inUse then out else Retire(out, h)
  }

  function DropEntry<H(==)>(s: State<H>, k: nat): State<H>
    requires k < |s.cache| && s.cache[k].holder in s.holders
  {
    EntryRemoved(s.(cache := Without(s.cache, k)), s.cache[k].holder)
  }

  /** Makes room for one more entry. */
  function MakeRoom<H(==)>(s: State<H>): State<H> {
    if 0 < |s.cache| && s.capacity <= |s.cache| && s.cache[0].holder in s.holders then DropEntry(s, 0) else s
  }

  /** The holder a new statement gets: the head of the free list, or a newly allocated one. */
  function NextHolder<H(==)>(s: State<H>, spare: H): H {
    if s.free != [] then s.free[0] else spare
  }

  function Detach<H(==)>(s: State<H>, spare: H): State<H> {
    if s.free != [] then s.(free := s.free[1..], holders := s.holders - {s.free[0]}) else s
  }

  /** Holder `h` carries native statement `ptr` of `sql` for a new operation. */
  function Install<H(==)>(s: State<H>, h: H, ptr: nat, sql: string, caching: bool): State<H> {
    s.(holders := s.holders[h := Holder(Some(sql), ptr, s.describe(sql), caching, true)],
       cache := if caching then s.cache + [Entry(sql, h)] else s.cache,
       frames := s.frames + [Frame(h, false)])
  }

  function Prepared<H(==)>(s: State<H>, sql: string): State<H> {
    s.(nextPtr := s.nextPtr + 1, log := s.log + [Prepare(s.nextPtr, sql), Use(s.nextPtr)])
  }

  /** `sql` is in the cache, and its statement is marked as being executed. */
  predicate Recursive<H(==)>(s: State<H>, sql: string) {
    var k := Find(s.cache, sql);
    k < |s.cache| && s.cache[k].holder in s.holders && s.holders[s.cache[k].holder].inUse
  }

  predicate Hit<H(==)>(s: State<H>, sql: string) {
    Find(s.cache, sql) < |s.cache| && !Recursive(s, sql)
  }

  /** The cached holder that a failed recursive preparation mistakes for its own is still in the cache. */
  predicate MistakesHolder<H(==)>(s: State<H>, sql: string) {
    Recursive(s, sql) && s.holders[s.cache[Find(s.cache, sql)].holder].inCache
  }

  /** Preparing a copy of a statement that is being executed succeeds, but looking at the copy fails. */
  predicate Forgets<H(==)>(s: State<H>, sql: string, outcome: Outcome) {
    outcome.Unreadable? && MistakesHolder(s, sql)
  }

  /** The operation's statement is found in the cache; nothing marks it as being executed. */
  function TakeHit<H(==)>(s: State<H>, sql: string): State<H>
    requires Hit(s, sql)
  {
    s.(cache := Touch(s.cache, sql), frames := s.frames + [Frame(s.cache[Find(s.cache, sql)].holder, true)])
  }

  /** Preparing a new statement fails, so the operation does not start. */
  function Fail<H(==)>(s: State<H>, sql: string, outcome: Outcome): State<H>
    requires !outcome.Ready?
  {
    var t := s.(cache := Touch(s.cache, sql));
    if outcome.Refused? then t else
      var u := Prepared(t, sql);
      if MistakesHolder(s, sql) then u else u.(log := u.log + [Finalize(s.nextPtr)])
  }

  /** A new statement is prepared, and goes into the cache unless a copy of it is there and being executed. */
  function TakeNew<H(==)>(s: State<H>, sql: string, spare: H): State<H> {
    var caching := !Recursive(s, sql) && s.describe(sql).cacheable;
    var u := Detach(Prepared(s.(cache := Touch(s.cache, sql)), sql), spare);
    Install(if caching then MakeRoom(u) else u, NextHolder(s, spare), s.nextPtr, sql, caching)
  }

  function Acquire<H(==)>(s: State<H>, sql: string, outcome: Outcome, spare: H): State<H> {
    if Hit(s, sql) then TakeHit(s, sql)
    else if outcome.Ready? then TakeNew(s, sql, spare)
    else Fail(s, sql, outcome)
  }

  /** How preparing goes: the native call fails, looking at the new statement fails, or neither. */
  datatype Outcome = Refused | Unreadable | Ready

  function Top<H(==)>(s: State<H>): H
    requires s.frames != []
  {
    s.frames[|s.frames| - 1].holder
  }

  /** The innermost operation makes a native call on its statement. */
  function Run<H(==)>(s: State<H>): State<H>
    requires s.frames != [] && Top(s) in s.holders
  {
    s.(log := s.log + [Use(s.holders[Top(s)].ptr)])
  }

  /** The innermost operation executes its statement, unless the connection forbids that. */
  function ExecuteTop<H(==)>(s: State<H>): State<H>
    requires s.frames != [] && Top(s) in s.holders
  {
    if s.onlyReadOnly && !s.holders[Top(s)].info.readOnly then s
    else s.(log := s.log + [Execute(s.holders[Top(s)].ptr, s.onlyReadOnly)])
  }

  /** The innermost operation no longer holds its statement. */
  function Pop<H(==)>(s: State<H>): State<H>
    requires s.frames != [] && Top(s) in s.holders
  {
    s.(frames := s.frames[..|s.frames| - 1], holders := s.holders[Top(s) := s.holders[Top(s)].(inUse := false)])
  }

  /** Removes the entry for `sql`, if there is one. */
  function RemoveEntry<H(==)>(s: State<H>, sql: string): State<H> {
    var k := Find(s.cache, sql);
    if k < |s.cache| && s.cache[k].holder in s.holders then DropEntry(s, k) else s
  }

  /** The innermost operation ends; `resets` tells whether its statement could be reset. */
  function Release<H(==)>(s: State<H>, resets: bool): State<H>
    requires s.frames != [] && Top(s) in s.holders
  {
    var h, out := Top(s), Pop(s);
    if !s.holders[h].inCache then Retire(out, h) else
      var u := out.(log := out.log + [Use(s.holders[h].ptr)]);
      if resets || s.holders[h].sql.None? then u else RemoveEntry(u, s.holders[h].sql.value)
  }

  function EvictAll<H(==)>(s: State<H>): State<H>
    decreases |s.cache|
  {
    if s.cache != [] && s.cache[0].holder in s.holders then EvictAll(DropEntry(s, 0)) else s
  }

  // ---- Runs -----------------------------------------------------------------------------------------

  /** `TouchStep`: the pool asks whether the statement is cached, which is a use of it for the recency order. */
  datatype Step<H> =
    | AcquireStep(sql: string, outcome: Outcome, spare: H)
    | RunStep
    | ExecuteStep
    | ReleaseStep(resets: bool)
    | ModeStep(onlyReadOnly: bool)
    | TouchStep(sql: string)
    | DisposeStep

  predicate Enabled<H(==)>(s: State<H>, step: Step<H>) {
    match step
    case AcquireStep(_, _, spare) => spare !in s.holders
    case RunStep => s.frames != [] && Top(s) in s.holders
    case ExecuteStep => s.frames != [] && Top(s) in s.holders
    case ReleaseStep(_) => s.frames != [] && Top(s) in s.holders
    case ModeStep(_) => s.frames == []
    case TouchStep(_) => true
    case DisposeStep => s.frames == []
  }

  function Next<H(==)>(s: State<H>, step: Step<H>): State<H>
    requires Enabled(s, step)
  {
    match step
    case AcquireStep(sql, outcome, spare) => Acquire(s, sql, outcome, spare)
    case RunStep => Run(s)
    case ExecuteStep => ExecuteTop(s)
    case ReleaseStep(resets) => Release(s, resets)
    case ModeStep(b) => s.(onlyReadOnly := b)
    case TouchStep(sql) => s.(cache := Touch(s.cache, sql))
    case DisposeStep => EvictAll(s)
  }

  predicate Legal<H(==)>(s: State<H>, run: seq<Step<H>>)
    decreases |run|
  {
    run != [] ==> Enabled(s, run[0]) && Legal(Next(s, run[0]), run[1..])
  }

  function After<H(==)>(s: State<H>, run: seq<Step<H>>): State<H>
    requires Legal(s, run)
    decreases |run|
  {
    if run == [] then s else After(Next(s, run[0]), run[1..])
  }

  // ---- Holding a statement without marking it -----------------------------------------------------------

  /** Some operation in progress found `h` in the cache. */
  predicate HeldByHit<H(==)>(frames: seq<Frame<H>>, h: H) {
    exists i :: 0 <= i < |frames| && frames[i].hit && frames[i].holder == h
  }

  /** A new cacheable statement pushes out the eldest entry, which an operation that hit it still holds. */
  predicate EvictsHeld<H(==)>(s: State<H>, sql: string, outcome: Outcome) {
    && !Hit(s, sql) && outcome.Ready? && !Recursive(s, sql) && s.describe(sql).cacheable
    && 0 < |s.cache| && s.capacity <= |s.cache| && HeldByHit(s.frames, s.cache[0].holder)
  }

  /** The operation that ends cannot reset its cached statement, which an outer operation that hit it still holds. */
  predicate RemovesHeld<H(==)>(s: State<H>, resets: bool)
    requires s.frames != [] && Top(s) in s.holders
  {
    !resets && s.holders[Top(s)].inCache && HeldByHit(s.frames[..|s.frames| - 1], Top(s))
  }

  /** The step frees a statement that an operation still holds. */
  predicate Frees<H(==)>(s: State<H>, step: Step<H>)
    requires Enabled(s, step)
  {
    match step
    case AcquireStep(sql, outcome, _) => EvictsHeld(s, sql, outcome)
    case ReleaseStep(resets) => RemovesHeld(s, resets)
    case _ => false
  }

  predicate Spared<H(==)>(s: State<H>, run: seq<Step<H>>)
    requires Legal(s, run)
    decreases |run|
  {
    run != [] ==> !Frees(s, run[0]) && Spared(Next(s, run[0]), run[1..])
  }

  /** Every operation in progress holds a live statement. */
  predicate AllHeldLive<H(==)>(s: State<H>) {
    forall i :: 0 <= i < |s.frames| ==>
      s.frames[i].holder in s.holders && s.holders[s.frames[i].holder].ptr in Live(s.log)
  }

  predicate SoundThroughout<H(==)>(s: State<H>, run: seq<Step<H>>)
    requires Legal(s, run)
    decreases |run|
  {
    AllHeldLive(s) && (run != [] ==> SoundThroughout(Next(s, run[0]), run[1..]))
  }

  /** The innermost operation found its statement in the cache. */
  predicate UnderHit<H>(s: State<H>) {
    s.frames != [] && s.frames[|s.frames| - 1].hit
  }

  /** No operation of the run starts inside one that found its statement in the cache. */
  predicate Disciplined<H(==)>(s: State<H>, run: seq<Step<H>>)
    requires Legal(s, run)
    decreases |run|
  {
    run != [] ==> !(run[0].AcquireStep? && UnderHit(s)) && Disciplined(Next(s, run[0]), run[1..])
  }

  // ---- Statements that are forgotten -----------------------------------------------------------------------

  /** The step fails to look at the new copy of a statement that is being executed. */
  predicate Leaks<H(==)>(s: State<H>, step: Step<H>) {
    step.AcquireStep? && Forgets(s, step.sql, step.outcome)
  }

  /** The native statements that the run prepares and then forgets. */
  function Lost<H(==)>(s: State<H>, run: seq<Step<H>>): set<nat>
    requires Legal(s, run)
    decreases |run|
  {
    if run == [] then {}
    else (if Leaks(s, run[0]) then {s.nextPtr} else {}) + Lost(Next(s, run[0]), run[1..])
  }
}
