/**
  Which rows a bounded window ends up with, in terms of row sizes alone: rows are taken greedily, and the window
  is started afresh whenever it overflows before the required row.
 */
module WindowChunks {

  /** The end of the longest run of rows from `s` on that fits on top of `used` bytes. */
  function GreedyEnd(sizes: seq<nat>, s: nat, used: nat, capacity: nat): (e: nat)
    requires s <= |sizes|
    ensures s <= e <= |sizes|
    decreases |sizes| - s
  {
    if s < |sizes| && used + sizes[s] <= capacity
    then GreedyEnd(sizes, s + 1, used + sizes[s], capacity)
    else s
  }

  function Sum(sizes: seq<nat>, s: nat, e: nat): nat
    requires s <= e <= |sizes|
    decreases e - s
  {
    if s == e then 0 else sizes[s] + Sum(sizes, s + 1, e)
  }

  /** The rows a window started at `s` holds when it is full: `s` up to this bound. */
  function ChunkEnd(sizes: seq<nat>, s: nat, capacity: nat): (e: nat)
    requires s <= |sizes|
    ensures s <= e <= |sizes|
  {
    GreedyEnd(sizes, s, 0, capacity)
  }

  /** Where the window finally starts if filling begins at `s` and row `required` is asked for. */
  function ChunkStart(sizes: seq<nat>, s: nat, required: int, capacity: nat): (b: nat)
    requires s <= |sizes|
    ensures s <= b <= |sizes|
    decreases |sizes| - s
  {
    var e := ChunkEnd(sizes, s, capacity);
    if e == |sizes| || e > required || e == s then s else ChunkStart(sizes, e, required, capacity)
  }

  /** The greedy run is exactly the longest one whose total fits. */
  lemma {:induction false} GreedyIsMaximal(sizes: seq<nat>, s: nat, used: nat, capacity: nat)
    requires s <= |sizes| && used <= capacity
    ensures var e := GreedyEnd(sizes, s, used, capacity);
            && used + Sum(sizes, s, e) <= capacity
            && (e < |sizes| ==> used + Sum(sizes, s, e) + sizes[e] > capacity)
    decreases |sizes| - s
  {
    if s < |sizes| && used + sizes[s] <= capacity {
      GreedyIsMaximal(sizes, s + 1, used + sizes[s], capacity);
    }
  }

  /** Each row of a chunk fits an empty window on its own. */
  lemma {:induction false} GreedyRowsFit(sizes: seq<nat>, s: nat, used: nat, capacity: nat, n: nat)
    requires s <= |sizes| && s <= n < GreedyEnd(sizes, s, used, capacity)
    ensures sizes[n] <= capacity
    decreases |sizes| - s
  {
    if n > s {
      GreedyRowsFit(sizes, s + 1, used + sizes[s], capacity, n);
    }
  }

  /**
    The required row is in the final window if and only if it exists, filling does not begin beyond it, and
    every row from where filling begins up to it fits an empty window on its own.
   */
  lemma {:induction false} RequiredIsPresentIff(sizes: seq<nat>, s: nat, required: int, capacity: nat)
    requires s <= |sizes|
    ensures var b := ChunkStart(sizes, s, required, capacity);
            b <= required < ChunkEnd(sizes, b, capacity) <==>
            s <= required < |sizes| && forall n :: s <= n <= required ==> sizes[n] <= capacity
    decreases |sizes| - s
  {
    var e := ChunkEnd(sizes, s, capacity);
    if s <= required < |sizes| {
      forall n: nat | s <= n < e ensures sizes[n] <= capacity {
        GreedyRowsFit(sizes, s, 0, capacity, n);
      }
    }
    if e == |sizes| || e > required || e == s {
    } else {
      RequiredIsPresentIff(sizes, e, required, capacity);
    }
  }

  /** If the window does not start where it was asked to, the rows up to the required one did not fit together. */
  lemma {:induction false} RestartOnlyWhenNeeded(sizes: seq<nat>, s: nat, required: int, capacity: nat)
    requires s <= |sizes| && s < ChunkStart(sizes, s, required, capacity)
    ensures s <= required
    ensures Sum(sizes, s, if required < |sizes| then required + 1 else |sizes|) > capacity
  {
    var e := ChunkEnd(sizes, s, capacity);
    GreedyIsMaximal(sizes, s, 0, capacity);
    SumSplits(sizes, s, e, if required < |sizes| then required + 1 else |sizes|);
  }

  lemma {:induction false} SumSplits(sizes: seq<nat>, s: nat, m: nat, e: nat)
    requires s <= m < e <= |sizes|
    ensures Sum(sizes, s, e) >= Sum(sizes, s, m) + sizes[m]
    decreases m - s
  {
    if s < m {
      SumSplits(sizes, s + 1, m, e);
    }
  }

  lemma GreedyStep(sizes: seq<nat>, n: nat, used: nat, capacity: nat)
    requires n < |sizes|
    ensures used + sizes[n] <= capacity ==>
              GreedyEnd(sizes, n, used, capacity) == GreedyEnd(sizes, n + 1, used + sizes[n], capacity)
    ensures used + sizes[n] > capacity ==> GreedyEnd(sizes, n, used, capacity) == n
  {
  }

  /** A chunk that ends before the end of the result either is the final one or gives way to the next. */
  lemma ChunkStep(sizes: seq<nat>, s: nat, required: int, capacity: nat)
    requires s <= |sizes| && ChunkEnd(sizes, s, capacity) < |sizes|
    ensures var e := ChunkEnd(sizes, s, capacity);
            ChunkStart(sizes, s, required, capacity)
            == if e > required || e == s then s else ChunkStart(sizes, e, required, capacity)
  {
  }

  lemma ChunkOfHugeRow(sizes: seq<nat>, n: nat, required: int, capacity: nat)
    requires n < |sizes| && sizes[n] > capacity
    ensures ChunkEnd(sizes, n, capacity) == n && ChunkStart(sizes, n, required, capacity) == n
  {
  }

  lemma ChunkToTheEnd(sizes: seq<nat>, s: nat, required: int, capacity: nat)
    requires s <= |sizes| && ChunkEnd(sizes, s, capacity) == |sizes|
    ensures ChunkStart(sizes, s, required, capacity) == s
  {
  }
}
