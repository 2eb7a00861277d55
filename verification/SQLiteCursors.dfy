/** `SQLiteCursor`: a window on a query result that is refilled by running the query again. */
module SQLiteCursors {
  import opened WindowChunks
  import opened CursorWindows
  import opened CursorModel
  import opened Packing
  import opened Words

  const NO_COUNT := -1

  /**
    Runs the query into the window. The native fill returns its two results in one packed value, which is taken
    apart again here; `fails` says whether the query ends in an error.
   */
  method ExecuteForCursorWindow(win: CursorWindow, result: seq<Row>, columns: nat, startPos: nat, required: int,
                                countAll: bool, fails: bool)
    returns (threw: bool, counted: int)
    requires |result| < TWO_TO_31 && startPos < TWO_TO_31
    requires forall i :: 0 <= i < |result| ==> |result[i]| == columns
    modifies win
    ensures threw == fails
    ensures !threw ==> win.startPosition >= 0 && counted >= 0
                       && Filled(win.rows, win.startPosition, counted, result, Sizes(win.slots, win.weigh, result),
                                 startPos, required, countAll, win.capacity)
  {
    hide Sizes, Chunk, UnpackStart, UnpackCount, Pack;
    var iStart, nRow := FillWindow(win, result, columns, startPos, required, countAll);
    if fails {
      return true, 0;
    }
    PackRoundTrip(iStart, nRow);
    var packed := Pack(iStart, nRow);
    win.startPosition := UnpackStart(packed);
    counted := UnpackCount(packed);
    threw := false;
  }

  class SQLiteCursor {
    /** The result of the query, the same at every run. */
    const result: seq<Row>
    const columns: nat
    const bytes: nat
    const slots: nat -> nat
    const weigh: Value -> nat

    var window: CursorWindow?
    var count: int
    var windowCapacity: nat
    ghost var queries: nat

    constructor (result: seq<Row>, columns: nat, bytes: nat, slots: nat -> nat, weigh: Value -> nat)
      requires |result| < TWO_TO_31 && forall i :: 0 <= i < |result| ==> |result[i]| == columns
      ensures Valid() && window == null && count == NO_COUNT && queries == 0
      ensures this.result == result && this.bytes == bytes && this.slots == slots && this.weigh == weigh
    {
      this.result, this.columns, this.bytes, this.slots, this.weigh := result, columns, bytes, slots, weigh;
      window, count, windowCapacity, queries := null, NO_COUNT, 0, 0;
    }

    ghost function RowSizes(): (s: seq<nat>)
      ensures |s| == |result|
    {
      Sizes(slots, weigh, result)
    }

    /** The window shows a contiguous part of the result, at its true position. */
    ghost predicate Shows(w: CursorWindow)
      reads w
    {
      && w.capacity == bytes && w.slots == slots && w.weigh == weigh && w.startPosition >= 0
      && (w.rows != [] ==> w.startPosition + |w.rows| <= |result|
                           && w.rows == result[w.startPosition..w.startPosition + |w.rows|])
    }

    ghost predicate Valid()
      reads this, window
    {
      && |result| < TWO_TO_31 && (forall i :: 0 <= i < |result| ==> |result[i]| == columns)
      && (count == NO_COUNT || count == |result|)
      && (window == null ==> count == NO_COUNT)
      && (window != null ==> Shows(window))
    }

    ghost function Abs(): Cursor
      requires Valid() && window != null
      reads this, window
    {
      Cursor(window.startPosition, window.startPosition + |window.rows|, windowCapacity, queries)
    }

    /** Clears the window, or makes one; a new window forgets the count. */
    method ClearOrCreateWindow()
      requires Valid()
      modifies this`window, this`count, window
      ensures Valid() && window != null && window.rows == []
      ensures old(window) != null ==> window == old(window) && count == old(count)
      ensures old(window) == null ==> fresh(window) && count == NO_COUNT
    {
      if window == null {
        window := new CursorWindow(bytes, slots, weigh);
        count := NO_COUNT;
      } else {
        window.Clear();
      }
    }

    /** Runs the query so that row `required` comes into the window; the first run also counts the rows. */
    method Refresh(required: nat, fails: bool) returns (threw: bool)
      requires Valid() && required < TWO_TO_31
      modifies this`window, this`count, this`windowCapacity, this`queries, window
      ensures Valid() && threw == fails
      ensures threw ==> window == null && count == NO_COUNT
      ensures !threw ==> window != null && count == |result| && (window == old(window) || fresh(window))
      ensures !threw && old(count) == NO_COUNT && required <= |result| ==>
                Abs() == FirstFill(RowSizes(), bytes, required, old(queries))
      ensures !threw && old(count) != NO_COUNT && required < |result| ==>
                Abs() == Refill(RowSizes(), bytes, old(Abs()), required)
      ensures !threw ==> windowCapacity == if old(count) == NO_COUNT then |window.rows| else old(windowCapacity)
    {
      hide Sizes, ChunkStart, ChunkEnd;
      ClearOrCreateWindow();
      queries := queries + 1;
      if count == NO_COUNT {
        var startPos := PickStart(required, 0);
        var counted;
        threw, counted := ExecuteForCursorWindow(window, result, columns, startPos, required, true, fails);
        if !threw {
          count := counted;
          windowCapacity := |window.rows|;
        }
      } else {
        var startPos := PickStart(required, windowCapacity);
        var counted;
        threw, counted := ExecuteForCursorWindow(window, result, columns, startPos, required, false, fails);
      }
      if threw {
        window, count := null, NO_COUNT;
      }
    }

    method GetCount(fails: bool) returns (threw: bool, n: int)
      requires Valid()
      modifies this`window, this`count, this`windowCapacity, this`queries, window
      ensures Valid()
      ensures threw ==> fails && old(count) == NO_COUNT
      ensures !threw ==> n == |result| == count && window != null && (window == old(window) || fresh(window))
      ensures old(count) != NO_COUNT ==> !threw && window == old(window) && Abs() == old(Abs())
      ensures !threw && old(count) == NO_COUNT ==> Abs() == FirstFill(RowSizes(), bytes, 0, old(queries))
    {
      threw := false;
      if count == NO_COUNT {
        threw := Refresh(0, fails);
      }
      n := count;
    }

    /**
      Called when the cursor moves to `newPosition`. A cursor that has not counted its rows, or has lost its window to
      a failed query, fills its first window at that position.
     */
    method OnMove(newPosition: nat, fails: bool) returns (threw: bool)
      requires Valid() && newPosition < TWO_TO_31
      modifies this`window, this`count, this`windowCapacity, this`queries, window
      ensures Valid()
      ensures threw ==> fails && window == null && count == NO_COUNT
      ensures !threw ==> window != null && (window == old(window) || fresh(window))
      ensures old(window) != null && old(InWindow(Abs(), newPosition)) ==>
                !threw && count == old(count) && Abs() == old(Abs())
      ensures old(window) == null || !old(InWindow(Abs(), newPosition)) ==> threw == fails
      ensures old(window) == null || !old(InWindow(Abs(), newPosition)) ==> !threw ==>
                && count == |result|
                && (old(count) == NO_COUNT && newPosition <= |result| ==>
                      Abs() == FirstFill(RowSizes(), bytes, newPosition, old(queries)))
      ensures !threw && old(count) != NO_COUNT && newPosition < |result| ==>
                Abs() == MoveTo(RowSizes(), bytes, old(Abs()), newPosition)
    {
      hide Sizes, ChunkStart, ChunkEnd;
      threw := false;
      if window == null || newPosition < window.startPosition
         || newPosition >= window.startPosition + |window.rows| {
        threw := Refresh(newPosition, fails);
      }
    }

    /** The row at `position`, read from the window. */
    method ReadRow(position: nat) returns (row: Row)
      requires Valid() && window != null && InWindow(Abs(), position)
      ensures position < |result| && row == result[position]
    {
      row := window.rows[position - window.startPosition];
    }

    /**
      The cursor refines the plain result list: counting and then moving to any positions in any order reads the
      rows of the result at those positions, as long as each row fits an empty window.
     */
    method Visit(positions: seq<nat>) returns (rows: seq<Row>)
      requires Valid() && forall i :: 0 <= i < |positions| ==> positions[i] < |result|
      requires forall i :: 0 <= i < |result| ==> Bytes(slots, weigh, result[i]) <= bytes
      modifies this`window, this`count, this`windowCapacity, this`queries, window
      ensures Valid() && count == |result|
      ensures |rows| == |positions| && forall i :: 0 <= i < |positions| ==> rows[i] == result[positions[i]]
    {
      hide Sizes, Bytes, ChunkStart, ChunkEnd, MoveTo;
      rows := [];
      var threw, n := GetCount(false);
      ghost var sizes := RowSizes();
      for i := 0 to |positions|
        invariant Valid() && window != null && count == |result| && (window == old(window) || fresh(window))
        invariant |rows| == i && forall j :: 0 <= j < i ==> rows[j] == result[positions[j]]
      {
        MoveFindsRow(sizes, bytes, Abs(), positions[i]);
        threw := OnMove(positions[i], false);
        var row := ReadRow(positions[i]);
        rows := rows + [row];
      }
    }
  }
}
