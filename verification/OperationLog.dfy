/** The log of a connection's most recent operations, a ring whose entries are addressed by cookies. */
module OperationLog {
  import opened Options
  import opened Words

  const SLOTS := 20
  const GENERATIONS := 0x100_0000
  /** The distance at which cookies repeat: the least common multiple of the two periods. */
  const PERIOD := 5 * GENERATIONS

  // ---- Cookies ----------------------------------------------------------------------------------------------

  /** `generation << 8 | index` on 32-bit integers, for an index below 256: the shift drops the top eight bits. */
  function NewCookie(generation: int, index: nat): int {
    Low32(generation % GENERATIONS * 256 + index)
  }

  /** `cookie & 0xff`. */
  function SlotOf(cookie: int): nat {
    cookie % 256
  }

  /** The bit patterns behind `NewCookie` and `SlotOf`. */
  lemma CookieBits(generation: bv32, index: bv32)
    requires index <= 0xff
    ensures (generation << 8) | index == (generation & 0xff_ffff) * 256 + index
    ensures ((generation << 8) | index) & 0xff == index
  {
  }

  /** The slot that the `n`th operation is logged in. */
  function Slot(n: nat): (i: nat)
    ensures i < SLOTS
  {
    (n + 1) % SLOTS
  }

  /** The cookie of the `n`th operation; the generation is a 32-bit counter that wraps around. */
  function Cookie(n: nat): int {
    NewCookie(Low32(n), Slot(n))
  }

  lemma CookieIs(n: nat)
    ensures Cookie(n) == Low32(n % GENERATIONS * 256 + Slot(n))
    ensures SlotOf(Cookie(n)) == Slot(n)
  {
    var g, i := n % GENERATIONS, Slot(n);
    hide Low32, Wraps, Slot;
    LowAndWraps(n);
    Reduce(n, -256 * Wraps(n));
    LowAndWraps(g * 256 + i);
    ReadBack(g - Wraps(g * 256 + i) * GENERATIONS, i);
  }

  lemma ReadBack(g: int, i: nat)
    requires i < 256
    ensures (g * 256 + i) % 256 == i
  {
  }

  lemma Reduce(n: int, k: int)
    ensures (n + k * GENERATIONS) % GENERATIONS == n % GENERATIONS
  {
    var q := n / GENERATIONS;
    assert n + k * GENERATIONS == (q + k) * GENERATIONS + n % GENERATIONS;
  }

  /** Two operations get the same cookie exactly when their distance is a multiple of the period. */
  lemma SameCookieIff(m: nat, n: nat)
    requires m <= n
    ensures Cookie(m) == Cookie(n) <==> (n - m) % PERIOD == 0
  {
    CookieIs(m);
    CookieIs(n);
    var g, h := m % GENERATIONS, n % GENERATIONS;
    SameWordIff(g, Slot(m), h, Slot(n));
    hide Low32, Slot, NewCookie;
    SameGeneration(m, n);
    SameSlot(m, n);
    PeriodIsBoth(n - m);
  }

  lemma SameWordIff(g: nat, i: nat, h: nat, j: nat)
    requires g < GENERATIONS && h < GENERATIONS && i < 256 && j < 256
    ensures Low32(g * 256 + i) == Low32(h * 256 + j) <==> g == h && i == j
  {
    var a, b := g * 256 + i, h * 256 + j;
    hide Low32, Wraps;
    if a < b {
      TellsApart(a, b);
    } else if b < a {
      TellsApart(b, a);
    }
  }

  lemma SameGeneration(m: nat, n: nat)
    requires m <= n
    ensures m % GENERATIONS == n % GENERATIONS <==> (n - m) % GENERATIONS == 0
  {
    var a, b := m / GENERATIONS, n / GENERATIONS;
    assert n - m == (b - a) * GENERATIONS + (n % GENERATIONS - m % GENERATIONS);
    if (n - m) % GENERATIONS == 0 {
      var c := (n - m) / GENERATIONS;
      assert (c + a - b) * GENERATIONS == n % GENERATIONS - m % GENERATIONS;
    }
  }

  lemma SameSlot(m: nat, n: nat)
    requires m <= n
    ensures Slot(m) == Slot(n) <==> (n - m) % SLOTS == 0
  {
  }

  lemma PeriodIsBoth(d: nat)
    ensures d % PERIOD == 0 <==> d % GENERATIONS == 0 && d % SLOTS == 0
  {
    if d % PERIOD == 0 {
      MultipleOfPeriod(d / PERIOD);
    }
    if d % GENERATIONS == 0 && d % SLOTS == 0 {
      MultipleOfBoth(d / GENERATIONS, d / SLOTS);
    }
  }

  lemma MultipleOfPeriod(q: nat)
    ensures q * PERIOD % GENERATIONS == 0 && q * PERIOD % SLOTS == 0
  {
    assert q * PERIOD % GENERATIONS == 0 by {
      Reduce(0, 5 * q);
    }
    assert q * PERIOD % SLOTS == 0 by {
      WholeTurns(q * 0x40_0000);
    }
  }

  lemma WholeTurns(k: nat)
    ensures k * SLOTS % SLOTS == 0
  {
  }

  /** A generation count that is a multiple of the slots is one of five generations, because 2^24 is 1 modulo 5. */
  lemma MultipleOfBoth(k: nat, l: nat)
    requires k * GENERATIONS == l * SLOTS
    ensures k * GENERATIONS % PERIOD == 0
  {
    assert k == 5 * (4 * l - 3355443 * k);
    var q := 4 * l - 3355443 * k;
    assert k * GENERATIONS == q * PERIOD;
  }

  // ---- Looking an operation up -----------------------------------------------------------------------------------

  /** The operation whose entry is in the slot of operation `m` after `count` operations have begun. */
  function Occupant(m: nat, count: nat): (n: nat)
    requires m < count
    ensures m <= n < count <= n + SLOTS && Slot(n) == Slot(m)
  {
    var q := (count - 1 - m) / SLOTS;
    assert m + q * SLOTS + 1 == m + 1 + q * SLOTS;
    m + q * SLOTS
  }

  /** The operation that the cookie of operation `m` stands for after `count` operations have begun, if any. */
  function Resolve(m: nat, count: nat): Option<nat>
    requires m < count
  {
    var n := Occupant(m, count);
    if Cookie(n) == Cookie(m) then Some(n) else None
  }

  /** A cookie stands for its own operation exactly while fewer than twenty later ones have begun. */
  lemma ResolvesToItselfIff(m: nat, count: nat)
    requires m < count
    ensures Resolve(m, count) == Some(m) <==> count - 1 - m < SLOTS
  {
  }

  /** Until cookies repeat, it never stands for another operation. */
  lemma NeverResolvesToAnother(m: nat, count: nat)
    requires m < count && count - 1 - m < PERIOD
    ensures Resolve(m, count) == if count - 1 - m < SLOTS then Some(m) else None
  {
    hide Cookie, Slot;
    SameCookieIff(m, Occupant(m, count));
    ResolvesToItselfIff(m, count);
  }

  /** Over any distance, it stands for some operation exactly when the whole turns of the ring are a multiple of 2^22. */
  lemma ResolvesIff(m: nat, count: nat)
    requires m < count
    ensures Resolve(m, count).Some? <==> (count - 1 - m) / SLOTS % (GENERATIONS / 4) == 0
  {
    hide Cookie, Slot;
    var q := (count - 1 - m) / SLOTS;
    SameCookieIff(m, Occupant(m, count));
    TurnsOfPeriod(q);
  }

  lemma TurnsOfPeriod(q: nat)
    ensures (q * SLOTS) % PERIOD == 0 <==> q % 0x40_0000 == 0
  {
    if (q * SLOTS) % PERIOD == 0 {
      var k := q * SLOTS / PERIOD;
      assert q == k * 0x40_0000;
    }
    if q % 0x40_0000 == 0 {
      var k := q / 0x40_0000;
      assert q * SLOTS == k * PERIOD;
    }
  }

  // ---- The ring -------------------------------------------------------------------------------------------------

  datatype Record = Record(kind: string, sql: Option<string>, finished: bool, exception: Option<string>)

  class Operation {
    var kind: string
    var sql: Option<string>
    var finished: bool
    var exception: Option<string>
    var cookie: int

    constructor ()
      ensures !finished && exception == None
    {
      kind, sql, finished, exception, cookie := "", None, false, None, 0;
    }

    function Value(): Record
      reads this
    {
      Record(kind, sql, finished, exception)
    }
  }

  class OperationLog {
    const operations: array<Operation?>
    var index: nat
    var generation: int

    /** What has become of every operation there ever was, the first one first. */
    ghost var history: seq<Record>
    ghost var entries: set<Operation>

    /** Each slot that is in use has an entry of its own. */
    ghost predicate Placed()
      reads this`entries, operations
    {
      && operations.Length == SLOTS
      && (forall i :: 0 <= i < SLOTS && operations[i] != null ==> operations[i] in entries)
      && (forall i, j :: 0 <= i < j < SLOTS && operations[i] != null ==> operations[i] != operations[j])
    }

    /** The ring holds the last twenty operations, each in its own slot and under its own cookie. */
    ghost predicate Valid()
      reads this, operations, entries
    {
      && Placed()
      && index == |history| % SLOTS && generation == Low32(|history|)
      && (forall m: nat :: |history| - SLOTS <= m < |history| ==>
            && operations[Slot(m)] != null
            && operations[Slot(m)].cookie == Cookie(m)
            && operations[Slot(m)].Value() == history[m])
    }

    constructor ()
      ensures Valid() && fresh(operations) && fresh(entries) && history == []
    {
      operations := new Operation?[SLOTS](i => null);
      index, generation, history, entries := 0, 0, [], {};
    }

    method BeginOperation(kind: string, sql: Option<string>) returns (cookie: int)
      requires Valid()
      modifies this, operations, entries
      ensures Valid() && fresh(entries - old(entries))
      ensures cookie == Cookie(|old(history)|)
      ensures history == old(history) + [Record(kind, sql, false, None)]
    {
      var next := (index + 1) % SLOTS;
      ghost var n := |history|;
      NextGeneration(n);
      hide Low32, Slot, NewCookie, Placed;
      assert next == Slot(n);
      forall m: nat | n - SLOTS < m < n ensures Slot(m) != next {
        OtherSlots(n);
      }
      var operation := ObtainEntry(next);
      operation.kind := kind;
      operation.sql := sql;
      operation.cookie := NewCookie(generation, next);
      generation := Low32(generation + 1);
      index := next;
      history := history + [Record(kind, sql, false, None)];
      cookie := operation.cookie;
    }

    /** The entry of a slot, made blank. */
    method ObtainEntry(slot: nat) returns (operation: Operation)
      requires Placed() && slot < SLOTS
      modifies operations, this`entries, entries`finished, entries`exception
      ensures Placed() && fresh(entries - old(entries)) && operation in entries
      ensures operations[slot] == operation && !operation.finished && operation.exception == None
      ensures forall i :: 0 <= i < SLOTS && i != slot ==>
        && operations[i] == old(operations[i]) && operations[i] != operation
        && (operations[i] != null ==> operations[i].Value() == old(operations[i].Value()))
    {
      if operations[slot] == null {
        var entry := new Operation();
        operations[slot] := entry;
        entries := entries + {entry};
      } else {
        operations[slot].finished := false;
        operations[slot].exception := None;
      }
      operation := operations[slot];
    }

    /** The entry that a cookie obtained from this log addresses, or null. */
    method GetOperation(cookie: int, ghost m: nat) returns (operation: Operation?)
      requires Valid() && m < |history| && cookie == Cookie(m)
      ensures operation != null <==> Resolve(m, |history|).Some?
      ensures operation != null ==> operation in entries && operation == operations[Slot(m)]
    {
      hide Cookie;
      CookieIs(m);
      ghost var n := Occupant(m, |history|);
      operation := operations[SlotOf(cookie)];
      assert operation == operations[Slot(n)];
      if operation.cookie != cookie {
        operation := null;
      }
    }

    lemma OthersStay(n: nat)
      requires Valid() && |history| - SLOTS <= n < |history|
      ensures forall k: nat :: |history| - SLOTS <= k < |history| && k != n ==> operations[Slot(k)] != operations[Slot(n)]
    {
      OtherSlots(|history|);
      forall k: nat | |history| - SLOTS <= k < |history| && k != n ensures operations[Slot(k)] != operations[Slot(n)] {
        assert Slot(k) != Slot(n);
      }
    }

    /** What the log's history becomes when the operation that `m`'s cookie stands for changes. */
    ghost function Amended(h: seq<Record>, m: nat, change: Record -> Record): seq<Record>
      requires m < |h|
    {
      match Resolve(m, |h|)
      case Some(n) => assert n == Occupant(m, |h|); h[n := change(h[n])]
      case None => h
    }

    method FailOperation(cookie: int, exception: string, ghost m: nat)
      requires Valid() && m < |history| && cookie == Cookie(m)
      modifies this`history, entries`exception
      ensures Valid()
      ensures history == Amended(old(history), m, (r: Record) => r.(exception := Some(exception)))
    {
      hide Cookie, Slot;
      var operation := GetOperation(cookie, m);
      if operation != null {
        ghost var n := Occupant(m, |history|);
        OthersStay(n);
        operation.exception := Some(exception);
        history := history[n := history[n].(exception := Some(exception))];
      }
    }

    method EndOperation(cookie: int, ghost m: nat)
      requires Valid() && m < |history| && cookie == Cookie(m)
      modifies this`history, entries`finished
      ensures Valid()
      ensures history == Amended(old(history), m, (r: Record) => r.(finished := true))
    {
      hide Cookie, Slot;
      var operation := GetOperation(cookie, m);
      if operation != null {
        ghost var n := Occupant(m, |history|);
        OthersStay(n);
        operation.finished := true;
        history := history[n := history[n].(finished := true)];
      }
    }
  }

  lemma NextGeneration(n: nat)
    ensures Low32(Low32(n) + 1) == Low32(n + 1)
    ensures (n % SLOTS + 1) % SLOTS == Slot(n) == (n + 1) % SLOTS
  {
    hide Low32;
    CountsUp(n);
  }

  lemma OtherSlots(n: nat)
    ensures forall m: nat :: n - SLOTS < m < n ==> Slot(m) != Slot(n)
    ensures forall m: nat, k: nat :: n - SLOTS <= m < k < n ==> Slot(m) != Slot(k)
  {
    forall m: nat, k: nat | m < k < m + SLOTS ensures Slot(m) != Slot(k) {
      SameSlot(m, k);
    }
  }
}
