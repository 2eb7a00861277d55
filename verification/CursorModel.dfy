/**
  The windowed cursor in terms of row sizes: which rows are in the window after a move, and how often the query
  is run.
 */
module CursorModel {
  import opened WindowChunks

  /** The rows `start` up to `end` are in the window; `capacity` is how many rows the first window held. */
  datatype Cursor = Cursor(start: nat, end: nat, capacity: nat, queries: nat)

  /** Where to start filling so that a third of the window lies before the requested row. */
  function PickStart(position: nat, capacity: nat): (s: nat)
    ensures s <= position && position - s <= capacity / 3
    ensures s == 0 || position - s == capacity / 3
  {
    if position - capacity / 3 > 0 then position - capacity / 3 else 0
  }

  predicate InWindow(c: Cursor, p: int) {
    c.start <= p < c.end
  }

  /** The window of a fill that begins at `s` and must include row `p`. */
  function Fill(sizes: seq<nat>, bytes: nat, s: nat, p: nat): (c: (nat, nat))
    requires s <= |sizes|
    ensures c.0 <= c.1 <= |sizes|
  {
    var b := ChunkStart(sizes, s, p, bytes);
    (b, ChunkEnd(sizes, b, bytes))
  }

  /** The first fill, which also counts the rows and remembers how many fitted. */
  function FirstFill(sizes: seq<nat>, bytes: nat, p: nat, queries: nat): Cursor
    requires p <= |sizes|
  {
    var (b, e) := Fill(sizes, bytes, PickStart(p, 0), p);
    Cursor(b, e, e - b, queries + 1)
  }

  function Refill(sizes: seq<nat>, bytes: nat, c: Cursor, p: nat): Cursor
    requires p < |sizes|
  {
    var (b, e) := Fill(sizes, bytes, PickStart(p, c.capacity), p);
    Cursor(b, e, c.capacity, c.queries + 1)
  }

  function MoveTo(sizes: seq<nat>, bytes: nat, c: Cursor, p: nat): Cursor
    requires p < |sizes|
  {
    if InWindow(c, p) then c else Refill(sizes, bytes, c, p)
  }

  /** A move always brings the row into the window when each row fits an empty window. */
  lemma MoveFindsRow(sizes: seq<nat>, bytes: nat, c: Cursor, p: nat)
    requires p < |sizes| && forall i :: 0 <= i < |sizes| ==> sizes[i] <= bytes
    ensures InWindow(MoveTo(sizes, bytes, c, p), p)
  {
    RequiredIsPresentIff(sizes, PickStart(p, c.capacity), p, bytes);
  }

  /**
    The first fill puts the requested row first; a later one puts a third of a window before it, or all there is,
    if what lies between fits together with it.
   */
  lemma FillStartsAt(sizes: seq<nat>, bytes: nat, c: Cursor, p: nat)
    requires p < |sizes|
    ensures FirstFill(sizes, bytes, p, c.queries).start == p
    ensures var before := if p < c.capacity / 3 then 0 else p - c.capacity / 3;
            Sum(sizes, before, p + 1) <= bytes ==> Refill(sizes, bytes, c, p).start == before
  {
    var before := if p < c.capacity / 3 then 0 else p - c.capacity / 3;
    if Refill(sizes, bytes, c, p).start != before {
      RestartOnlyWhenNeeded(sizes, before, p, bytes);
    }
  }

  // ---- Scanning forward over rows of one size ----------------------------------------------------

  /** A window holds `rows` rows, wherever it starts. */
  ghost predicate Uniform(sizes: seq<nat>, bytes: nat, rows: nat) {
    forall s :: 0 <= s <= |sizes| ==>
      ChunkEnd(sizes, s, bytes) == if s + rows < |sizes| then s + rows else |sizes|
  }

  /** Rows of one size, of which `rows` fit and one more does not. */
  lemma UniformRows(sizes: seq<nat>, bytes: nat, unit: nat, rows: nat)
    requires forall i :: 0 <= i < |sizes| ==> sizes[i] == unit
    requires rows * unit <= bytes < rows * unit + unit
    ensures Uniform(sizes, bytes, rows)
  {
    forall s | 0 <= s <= |sizes|
      ensures ChunkEnd(sizes, s, bytes) == if s + rows < |sizes| then s + rows else |sizes|
    {
      UniformGreedy(sizes, bytes, unit, rows, s, 0);
    }
  }

  lemma {:induction false} UniformGreedy(sizes: seq<nat>, bytes: nat, unit: nat, rows: nat, s: nat, k: nat)
    requires forall i :: 0 <= i < |sizes| ==> sizes[i] == unit
    requires rows * unit <= bytes < rows * unit + unit
    requires s <= |sizes| && k <= rows
    ensures GreedyEnd(sizes, s, k * unit, bytes) == if s + (rows - k) < |sizes| then s + (rows - k) else |sizes|
    decreases |sizes| - s
  {
    if k < rows {
      OneMoreFits(unit, rows, k);
      if s < |sizes| {
        UniformGreedy(sizes, bytes, unit, rows, s + 1, k + 1);
      }
    }
  }

  lemma OneMoreFits(unit: nat, rows: nat, k: nat)
    requires k < rows
    ensures (k + 1) * unit == k * unit + unit <= rows * unit
  {
    assert rows * unit == (k + 1) * unit + (rows - k - 1) * unit;
  }

  /** The moves `p`, `p + 1`, ... up to the last row. */
  function Scan(sizes: seq<nat>, bytes: nat, c: Cursor, p: nat): Cursor
    requires p <= |sizes|
    decreases |sizes| - p
  {
    if p == |sizes| then c else Scan(sizes, bytes, MoveTo(sizes, bytes, c, p), p + 1)
  }

  /** How many steps of `b` it takes to cover `a`. */
  function CeilDiv(a: nat, b: nat): (n: nat)
    requires b > 0
  {
    if a == 0 then 0 else 1 + CeilDiv(if a > b then a - b else 0, b)
  }

  /** `CeilDiv` is division rounded up. */
  lemma {:induction false} CeilDivIsCeiling(a: nat, b: nat)
    requires b > 0
    ensures var n := CeilDiv(a, b); a <= n * b && (n > 0 ==> (n - 1) * b < a)
    decreases a
  {
    if a > b {
      CeilDivIsCeiling(a - b, b);
      var m := CeilDiv(a - b, b);
      assert (m + 1) * b == m * b + b && (m > 0 ==> m * b == (m - 1) * b + b);
    }
  }

  /** From a window that ends at `e`, a scan reruns the query once for every `rows - rows / 3` further rows. */
  lemma {:induction false} ScanCost(sizes: seq<nat>, bytes: nat, rows: nat, c: Cursor, p: nat)
    requires rows >= 1 && Uniform(sizes, bytes, rows) && c.start <= p <= c.end <= |sizes|
    requires c.end < |sizes| ==> c.capacity == rows && rows <= c.end
    ensures Scan(sizes, bytes, c, p).queries == c.queries + CeilDiv(|sizes| - c.end, rows - rows / 3)
    decreases |sizes| - p
  {
    if p == |sizes| {
    } else if p < c.end {
      ScanCost(sizes, bytes, rows, c, p + 1);
    } else {
      var s := p - rows / 3;
      var d := Refill(sizes, bytes, c, p);
      assert ChunkEnd(sizes, s, bytes) == if s + rows < |sizes| then s + rows else |sizes|;
      assert d == Cursor(s, ChunkEnd(sizes, s, bytes), rows, c.queries + 1);
      ScanCost(sizes, bytes, rows, d, p + 1);
    }
  }

  /**
    The forward-scan bound: over N rows of which a window holds C, counting the rows and then visiting each once
    runs the query exactly 1 + ceil(max(0, N - C) / (C - C / 3)) times.
   */
  lemma ForwardScanBound(sizes: seq<nat>, bytes: nat, rows: nat)
    requires rows >= 1 && Uniform(sizes, bytes, rows)
    ensures Scan(sizes, bytes, FirstFill(sizes, bytes, 0, 0), 0).queries
            == 1 + CeilDiv(if |sizes| > rows then |sizes| - rows else 0, rows - rows / 3)
  {
    var c := FirstFill(sizes, bytes, 0, 0);
    assert ChunkEnd(sizes, 0, bytes) == if rows < |sizes| then rows else |sizes|;
    ScanCost(sizes, bytes, rows, c, 0);
  }
}
