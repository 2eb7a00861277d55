/**
  Filling a cursor window from a query: `nativeExecuteForCursorWindow` and its helpers.

  The window itself is platform code. Its assumed contract is the class `CursorWindow` below: a window has a
  fixed capacity in bytes, a row takes room for its slots when it is allocated and for each value when it is
  stored, an operation that does not fit fails and changes nothing, dropping the last row need not free its room,
  and a cleared window is empty and takes any number of columns.
 */
module CursorWindows {
  import opened WindowChunks

  datatype Value = Null | Integer(i: int) | Float(r: real) | Text(s: string) | Blob(b: seq<bv8>)

  type Row = seq<Value>

  /** The room the first `k` values of a row take, on top of the row's slots. */
  function Payload(weigh: Value -> nat, row: Row, k: nat): nat
    requires k <= |row|
  {
    if k == 0 then 0 else Payload(weigh, row, k - 1) + weigh(row[k - 1])
  }

  function Bytes(slots: nat -> nat, weigh: Value -> nat, row: Row): nat {
    slots(|row|) + Payload(weigh, row, |row|)
  }

  function Sizes(slots: nat -> nat, weigh: Value -> nat, result: seq<Row>): (s: seq<nat>)
    ensures |s| == |result| && forall i :: 0 <= i < |s| ==> s[i] == Bytes(slots, weigh, result[i])
  {
    if result == [] then [] else [Bytes(slots, weigh, result[0])] + Sizes(slots, weigh, result[1..])
  }

  class CursorWindow {
    const capacity: nat
    const slots: nat -> nat
    const weigh: Value -> nat
    var columns: nat
    var rows: seq<Row>
    var used: nat
    var startPosition: int

    constructor (capacity: nat, slots: nat -> nat, weigh: Value -> nat)
      ensures this.capacity == capacity && this.slots == slots && this.weigh == weigh
      ensures rows == [] && used == 0 && startPosition == 0
    {
      this.capacity, this.slots, this.weigh := capacity, slots, weigh;
      columns, rows, used, startPosition := 0, [], 0, 0;
    }

    method Clear()
      modifies this
      ensures rows == [] && used == 0 && startPosition == 0
    {
      rows, used, columns, startPosition := [], 0, 0, 0;
    }

    method SetNumColumns(n: nat)
      requires rows == []
      modifies this`columns
      ensures columns == n
    {
      columns := n;
    }

    method AllocRow() returns (ok: bool)
      modifies this`rows, this`used
      ensures ok <==> old(used) + slots(columns) <= capacity
      ensures ok ==> rows == old(rows) + [seq(columns, _ => Null)] && used == old(used) + slots(columns)
      ensures !ok ==> rows == old(rows) && used == old(used)
    {
      ok := used + slots(columns) <= capacity;
      if ok {
        rows := rows + [seq(columns, _ => Null)];
        used := used + slots(columns);
      }
    }

    method FreeLastRow()
      requires rows != []
      modifies this`rows
      ensures rows == old(rows)[..|old(rows)| - 1]
    {
      rows := rows[..|rows| - 1];
    }

    /** Stores a value; a row or a column outside the window is refused. */
    method Put(v: Value, row: int, column: int) returns (ok: bool)
      modifies this`rows, this`used
      ensures ok <==> 0 <= row < |old(rows)| && 0 <= column < |old(rows)[row]| && old(used) + weigh(v) <= capacity
      ensures ok ==> rows == old(rows)[row := old(rows)[row][column := v]] && used == old(used) + weigh(v)
      ensures !ok ==> rows == old(rows) && used == old(used)
    {
      ok := 0 <= row < |rows| && 0 <= column < |rows[row]| && used + weigh(v) <= capacity;
      if ok {
        rows := rows[row := rows[row][column := v]];
        used := used + weigh(v);
      }
    }
  }

  /** What a row looks like while it is being copied: the first `k` values, then nulls. */
  function Partial(row: Row, k: nat): Row
    requires k <= |row|
  {
    row[..k] + seq(|row| - k, _ => Null)
  }

  /**
    Appends a row to the window. `iRow` is the index the values are written to; it must be the index of the row
    that is about to be allocated. If any part does not fit, the window has the rows it had before.
   */
  method CopyRowToWindow(win: CursorWindow, iRow: int, row: Row) returns (ok: bool)
    requires |row| == win.columns && iRow == |win.rows|
    modifies win`rows, win`used
    ensures ok <==> old(win.used) + Bytes(win.slots, win.weigh, row) <= win.capacity
    ensures ok ==> win.rows == old(win.rows) + [row] && win.used == old(win.used) + Bytes(win.slots, win.weigh, row)
    ensures !ok ==> win.rows == old(win.rows)
  {
    ok := win.AllocRow();
    ghost var base := old(win.used) + win.slots(|row|);
    var i := 0;
    assert ok ==> seq(|row|, _ => Null) == Partial(row, 0);
    PayloadGrows(win.weigh, row, 0);
    while ok && i < |row|
      invariant 0 <= i <= |row|
      invariant ok ==> win.rows == old(win.rows) + [Partial(row, i)] && win.used == base + Payload(win.weigh, row, i)
      invariant ok ==> win.used <= win.capacity
      invariant !ok ==> win.rows == old(win.rows) && base + Payload(win.weigh, row, |row|) > win.capacity
      decreases |row| - i
    {
      PayloadGrows(win.weigh, row, i + 1);
      assert Partial(row, i)[i := row[i]] == Partial(row, i + 1);
      assert (old(win.rows) + [Partial(row, i)])[iRow := Partial(row, i + 1)] == old(win.rows) + [Partial(row, i + 1)];
      ok := win.Put(row[i], iRow, i);
      if !ok {
        win.FreeLastRow();
      }
      i := i + 1;
    }
    assert ok ==> Partial(row, |row|) == row;
  }

  lemma {:induction false} PayloadGrows(weigh: Value -> nat, row: Row, k: nat)
    requires k <= |row|
    ensures Payload(weigh, row, k) <= Payload(weigh, row, |row|)
    decreases |row| - k
  {
    if k < |row| {
      PayloadGrows(weigh, row, k + 1);
    }
  }

  /** The rows of the result that a window started at `s` holds. */
  function Chunk(result: seq<Row>, sizes: seq<nat>, s: nat, capacity: nat): seq<Row>
    requires s <= |result| == |sizes|
  {
    result[s..ChunkEnd(sizes, s, capacity)]
  }

  /** What a fill must leave behind: the window, its start and the counted rows. */
  ghost predicate Filled(rows: seq<Row>, iStart: nat, nRow: nat, result: seq<Row>, sizes: seq<nat>,
                         startPos: nat, required: int, countAll: bool, capacity: nat)
    requires |sizes| == |result|
  {
    if startPos > |result| then rows == [] && iStart == startPos && nRow == |result|
    else
      && iStart == ChunkStart(sizes, startPos, required, capacity)
      && rows == Chunk(result, sizes, iStart, capacity)
      && nRow == if countAll then |result| else ChunkEnd(sizes, iStart, capacity)
  }

  /** The fill loop, between two rows: still copying, or full. */
  ghost predicate Copying(win: CursorWindow, n: nat, iStart: nat, ok: bool, result: seq<Row>, sizes: seq<nat>,
                          startPos: nat, required: int)
    requires |sizes| == |result|
    reads win
  {
    && n <= |result|
    && (n < iStart ==> ok && iStart == startPos && win.rows == [] && win.used == 0)
    && (iStart <= n ==>
          && startPos <= iStart
          && ChunkStart(sizes, startPos, required, win.capacity) == ChunkStart(sizes, iStart, required, win.capacity)
          && (ok ==>
                && win.rows == result[iStart..n]
                && ChunkEnd(sizes, iStart, win.capacity) == GreedyEnd(sizes, n, win.used, win.capacity))
          && (!ok ==>
                && ChunkStart(sizes, iStart, required, win.capacity) == iStart
                && win.rows == Chunk(result, sizes, iStart, win.capacity)
                && ChunkEnd(sizes, iStart, win.capacity) < n))
  }

  method ResetWindow(win: CursorWindow, columns: nat)
    modifies win
    ensures win.rows == [] && win.used == 0 && win.columns == columns
  {
    win.Clear();
    win.SetNumColumns(columns);
  }

  /** The body of the fill loop that handles one row at or after the start of the window. */
  method CopyOrRestart(win: CursorWindow, n: nat, start: nat, result: seq<Row>, ghost sizes: seq<nat>,
                       ghost startPos: nat, required: int)
    returns (ok: bool, iStart: nat)
    requires |sizes| == |result| && sizes == Sizes(win.slots, win.weigh, result)
    requires n < |result| && start <= n && |result[n]| == win.columns
    requires Copying(win, n, start, true, result, sizes, startPos, required)
    modifies win
    ensures win.columns == old(win.columns) && iStart <= n
    ensures ok ==> Copying(win, n + 1, iStart, true, result, sizes, startPos, required)
    ensures !ok ==> Copying(win, n + 1, iStart, false, result, sizes, startPos, required)
                    && ChunkEnd(sizes, iStart, win.capacity) == n
  {
    hide Sizes, GreedyEnd, ChunkStart, Bytes;
    GreedyStep(sizes, n, win.used, win.capacity);
    iStart := start;
    ok := CopyRowToWindow(win, n - iStart, result[n]);
    if ok {
      assert result[iStart..n + 1] == result[iStart..n] + [result[n]];
    } else {
      ChunkStep(sizes, iStart, required, win.capacity);
      if n <= required {
        ResetWindow(win, win.columns);
        iStart := n;
        ok := CopyRowToWindow(win, 0, result[n]);
        assert [] + [result[n]] == result[n..n + 1];
        GreedyStep(sizes, n, 0, win.capacity);
        if !ok {
          ChunkOfHugeRow(sizes, n, required, win.capacity);
        }
      }
    }
  }

  /**
    Runs the query and copies rows into the window from `startPos` on, giving up earlier rows if that is what it
    takes to get row `required` in. Returns the first row copied and the number of rows counted.
   */
  method FillWindow(win: CursorWindow, result: seq<Row>, columns: nat, startPos: nat, required: int, countAll: bool)
    returns (iStart: nat, nRow: nat)
    requires forall i :: 0 <= i < |result| ==> |result[i]| == columns
    modifies win
    ensures Filled(win.rows, iStart, nRow, result, Sizes(win.slots, win.weigh, result), startPos, required, countAll, win.capacity)
  {
    hide Sizes, GreedyEnd, ChunkStart, Bytes;
    ghost var sizes := Sizes(win.slots, win.weigh, result);
    ResetWindow(win, columns);
    nRow, iStart := 0, startPos;
    var ok := true;
    while nRow < |result|
      invariant win.columns == columns && nRow <= |result|
      invariant Copying(win, nRow, iStart, ok, result, sizes, startPos, required)
      invariant !ok ==> countAll && iStart <= nRow
    {
      if nRow >= iStart && ok {
        ok, iStart := CopyOrRestart(win, nRow, iStart, result, sizes, startPos, required);
        if !ok && !countAll {
          break;
        }
      }
      nRow := nRow + 1;
    }
    if ok && iStart <= nRow {
      ChunkToTheEnd(sizes, iStart, required, win.capacity);
    }
  }
}
