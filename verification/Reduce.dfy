/**
 reduce_sum: the recursive in-place tree reduction of several rows into the first, over a range of columns. Elements are
 integers: the tree adds in another order than a plain sum, so rounding is not modelled.
 */
module Reduce {

  /** Rows of one width. */
  ghost predicate Wide(m: seq<seq<int>>, width: nat) {
    forall g | 0 <= g < |m| :: |m[g]| == width
  }

  /** What the tree over rows lo..lo+n-1 leaves in row g of column i: the total on top, partial sums below. */
  function Tree(m: seq<seq<int>>, width: nat, i: nat, lo: nat, n: nat, g: nat): int
    requires Wide(m, width) && i < width && lo <= g < lo + n <= |m|
    decreases n
  {
    if n <= 1 then m[g][i]
    else
      var part := n / 2;
      if g == lo then Tree(m, width, i, lo, part, lo) + Tree(m, width, i, lo + part, n - part, lo + part)
      else if g < lo + part then Tree(m, width, i, lo, part, g)
      else Tree(m, width, i, lo + part, n - part, g)
  }

  function Sum(m: seq<seq<int>>, width: nat, i: nat, lo: nat, n: nat): int
    requires Wide(m, width) && i < width && lo + n <= |m|
  {
    if n == 0 then 0 else Sum(m, width, i, lo, n - 1) + m[lo + n - 1][i]
  }

  lemma {:induction false} SumSplit(m: seq<seq<int>>, width: nat, i: nat, lo: nat, k: nat, n: nat)
    requires Wide(m, width) && i < width && lo + n <= |m| && k <= n
    ensures Sum(m, width, i, lo, n) == Sum(m, width, i, lo, k) + Sum(m, width, i, lo + k, n - k)
    decreases n
  {
    if k < n {
      SumSplit(m, width, i, lo, k, n - 1);
    }
  }

  /** The tree's top is the plain sum of the column. */
  lemma {:induction false} TreeSums(m: seq<seq<int>>, width: nat, i: nat, lo: nat, n: nat)
    requires Wide(m, width) && i < width && 0 < n && lo + n <= |m|
    ensures Tree(m, width, i, lo, n, lo) == Sum(m, width, i, lo, n)
    decreases n
  {
    if n == 1 {
      assert Sum(m, width, i, lo, 1) == Sum(m, width, i, lo, 0) + m[lo][i];
    } else {
      TreeSums(m, width, i, lo, n / 2);
      TreeSums(m, width, i, lo + n / 2, n - n / 2);
      SumSplit(m, width, i, lo, n / 2, n);
    }
  }

  /** The tree looks at nothing but its rows in its column. */
  lemma {:induction false} TreeFrame(m: seq<seq<int>>, m': seq<seq<int>>, width: nat, i: nat, lo: nat, n: nat, g: nat)
    requires Wide(m, width) && Wide(m', width) && i < width && lo <= g < lo + n <= |m| == |m'|
    requires forall h | lo <= h < lo + n :: m'[h][i] == m[h][i]
    ensures Tree(m', width, i, lo, n, g) == Tree(m, width, i, lo, n, g)
    decreases n
  {
    if n > 1 {
      var part := n / 2;
      if g < lo + part {
        TreeFrame(m, m', width, i, lo, part, g);
      }
      if g == lo || g >= lo + part {
        TreeFrame(m, m', width, i, lo + part, n - part, if g == lo then lo + part else g);
      }
    }
  }

  /** What reducing rows lo..lo+n-1 over columns begin..end-1 leaves in row g of column i. */
  function Entry(m: seq<seq<int>>, width: nat, begin: nat, end: nat, lo: nat, n: nat, g: nat, i: nat): int
    requires Wide(m, width) && i < width && g < |m| && lo + n <= |m|
  {
    if lo <= g < lo + n && begin <= i < end then Tree(m, width, i, lo, n, g) else m[g][i]
  }

  /** The rows of the range hold their trees over the columns of the range; nothing else has changed. */
  ghost predicate Reduced(m: seq<seq<int>>, m': seq<seq<int>>, width: nat, begin: nat, end: nat, lo: nat, n: nat) {
    && |m| == |m'| && Wide(m, width) && Wide(m', width) && lo + n <= |m|
    && forall g, i | 0 <= g < |m| && 0 <= i < width :: m'[g][i] == Entry(m, width, begin, end, lo, n, g, i)
  }

  /** Row lo with row other added over the range of columns. */
  ghost predicate TopAdded(m: seq<seq<int>>, m': seq<seq<int>>, width: nat, begin: nat, end: nat, lo: nat, other: nat) {
    && |m| == |m'| && Wide(m, width) && Wide(m', width) && lo < |m| && other < |m|
    && forall g, i | 0 <= g < |m| && 0 <= i < width ::
         m'[g][i] == if g == lo && begin <= i < end then m[lo][i] + m[other][i] else m[g][i]
  }

  lemma HalvesEntry(m: seq<seq<int>>, first: seq<seq<int>>, both: seq<seq<int>>, width: nat, begin: nat, end: nat,
                    lo: nat, n: nat, g: nat, i: nat)
    requires n > 1 && Reduced(m, first, width, begin, end, lo, n / 2)
    requires Reduced(first, both, width, begin, end, lo + n / 2, n - n / 2)
    requires g < |m| && i < width
    ensures both[g][i] == if g < lo + n / 2 then Entry(m, width, begin, end, lo, n / 2, g, i)
                          else Entry(m, width, begin, end, lo + n / 2, n - n / 2, g, i)
  {
    var part := n / 2;
    if lo + part <= g < lo + n && begin <= i < end {
      assert forall h | lo + part <= h < lo + n :: first[h][i] == m[h][i];
      TreeFrame(m, first, width, i, lo + part, n - part, g);
    }
  }

  lemma HalvesReduceEntry(m: seq<seq<int>>, first: seq<seq<int>>, both: seq<seq<int>>, after: seq<seq<int>>, width: nat,
                          begin: nat, end: nat, lo: nat, n: nat, g: nat, i: nat)
    requires n > 1 && Reduced(m, first, width, begin, end, lo, n / 2)
    requires Reduced(first, both, width, begin, end, lo + n / 2, n - n / 2)
    requires TopAdded(both, after, width, begin, end, lo, lo + n / 2)
    requires g < |m| && i < width
    ensures after[g][i] == Entry(m, width, begin, end, lo, n, g, i)
  {
    HalvesEntry(m, first, both, width, begin, end, lo, n, g, i);
    HalvesEntry(m, first, both, width, begin, end, lo, n, lo + n / 2, i);
    assert after[g][i] == if g == lo && begin <= i < end then both[lo][i] + both[lo + n / 2][i] else both[g][i];
  }

  /** Reducing the first half, then the second, then adding the tops, reduces the whole. */
  lemma HalvesReduce(m: seq<seq<int>>, first: seq<seq<int>>, both: seq<seq<int>>, after: seq<seq<int>>, width: nat,
                     begin: nat, end: nat, lo: nat, n: nat)
    requires n > 1 && Reduced(m, first, width, begin, end, lo, n / 2)
    requires Reduced(first, both, width, begin, end, lo + n / 2, n - n / 2)
    requires TopAdded(both, after, width, begin, end, lo, lo + n / 2)
    ensures Reduced(m, after, width, begin, end, lo, n)
  {
    forall g, i | 0 <= g < |m| && 0 <= i < width
      ensures after[g][i] == Entry(m, width, begin, end, lo, n, g, i)
    {
      HalvesReduceEntry(m, first, both, after, width, begin, end, lo, n, g, i);
    }
  }

  /** Reading the result: the top row holds the sums of all rows over the range. */
  lemma ReducedSums(m: seq<seq<int>>, m': seq<seq<int>>, width: nat, begin: nat, end: nat, i: nat)
    requires m != [] && Reduced(m, m', width, begin, end, 0, |m|) && begin <= i < end && i < width
    ensures m'[0][i] == Sum(m, width, i, 0, |m|)
  {
    TreeSums(m, width, i, 0, |m|);
  }

  // ----- chunks of columns

  predicate In(chunk: (nat, nat), i: nat) {
    chunk.0 <= i < chunk.1
  }

  /** The range split into chunks, in any order. */
  ghost predicate Covers(chunks: seq<(nat, nat)>, k: nat, i: nat)
    requires k <= |chunks|
  {
    exists c :: 0 <= c < k && In(chunks[c], i)
  }

  ghost predicate Apart(chunks: seq<(nat, nat)>, i: nat) {
    forall c, d | 0 <= c < d < |chunks| :: !(In(chunks[c], i) && In(chunks[d], i))
  }

  ghost predicate ChunkDone(states: seq<seq<seq<int>>>, chunks: seq<(nat, nat)>, width: nat, c: nat)
    requires c < |chunks| && |states| == |chunks| + 1
  {
    Reduced(states[c], states[c + 1], width, chunks[c].0, chunks[c].1, 0, |states[c]|)
  }

  /** One reduction of all rows after another, each over its chunk of columns. */
  ghost predicate ReducedInTurn(states: seq<seq<seq<int>>>, chunks: seq<(nat, nat)>, width: nat) {
    && |states| == |chunks| + 1
    && forall c | 0 <= c < |chunks| :: ChunkDone(states, chunks, width, c)
  }

  /** Column i after the first k chunks. */
  lemma {:induction false} ChunksColumn(states: seq<seq<seq<int>>>, chunks: seq<(nat, nat)>, width: nat, k: nat, i: nat)
    requires ReducedInTurn(states, chunks, width) && k <= |chunks| && chunks != [] && i < width && Apart(chunks, i)
    ensures Wide(states[0], width) && Wide(states[k], width) && |states[k]| == |states[0]|
    ensures forall g | 0 <= g < |states[0]| ::
      states[k][g][i] == if Covers(chunks, k, i) then Tree(states[0], width, i, 0, |states[0]|, g) else states[0][g][i]
  {
    assert ChunkDone(states, chunks, width, 0);
    if k > 0 {
      assert ChunkDone(states, chunks, width, k - 1);
      ChunksColumn(states, chunks, width, k - 1, i);
      assert Covers(chunks, k, i) <==> Covers(chunks, k - 1, i) || In(chunks[k - 1], i);
      forall g | 0 <= g < |states[0]|
        ensures states[k][g][i]
                == if Covers(chunks, k, i) then Tree(states[0], width, i, 0, |states[0]|, g) else states[0][g][i]
      {
        if In(chunks[k - 1], i) {
          TreeFrame(states[0], states[k - 1], width, i, 0, |states[0]|, g);
        }
      }
    }
  }

  lemma {:induction false} RowsStay(states: seq<seq<seq<int>>>, chunks: seq<(nat, nat)>, width: nat, k: nat)
    requires ReducedInTurn(states, chunks, width) && chunks != [] && k <= |chunks|
    ensures |states[k]| == |states[0]| && Wide(states[k], width)
  {
    if k > 0 {
      RowsStay(states, chunks, width, k - 1);
      assert ChunkDone(states, chunks, width, k - 1);
    } else {
      assert ChunkDone(states, chunks, width, 0);
    }
  }

  /** Disjoint chunks that make up a range, reduced in any order, do what one reduction of the range does. */
  lemma AnyChunkOrder(states: seq<seq<seq<int>>>, chunks: seq<(nat, nat)>, width: nat, begin: nat, end: nat)
    requires ReducedInTurn(states, chunks, width) && chunks != []
    requires forall i: nat :: Apart(chunks, i) && (Covers(chunks, |chunks|, i) <==> begin <= i < end)
    ensures Reduced(states[0], states[|chunks|], width, begin, end, 0, |states[0]|)
  {
    var m, m' := states[0], states[|chunks|];
    assert ChunkDone(states, chunks, width, 0);
    RowsStay(states, chunks, width, |chunks|);
    forall g, i | 0 <= g < |m| && 0 <= i < width
      ensures m'[g][i] == Entry(m, width, begin, end, 0, |m|, g, i)
    {
      assert Apart(chunks, i);
      ChunksColumn(states, chunks, width, |chunks|, i);
    }
  }

  // ----- the method

  ghost function Contents(data: seq<array<int>>): (m: seq<seq<int>>)
    reads data
    ensures |m| == |data| && forall g | 0 <= g < |data| :: m[g] == data[g][..]
  {
    seq(|data|, g requires 0 <= g < |data| reads data => data[g][..])
  }

  /** Rows of one width, no two the same array. */
  ghost predicate Rows(data: seq<array<int>>, width: nat) {
    && (forall g | 0 <= g < |data| :: data[g].Length == width)
    && (forall g, h | 0 <= g < h < |data| :: data[g] != data[h])
  }

  lemma FewReduce(m: seq<seq<int>>, width: nat, begin: nat, end: nat, lo: nat, n: nat)
    requires n <= 1 && lo + n <= |m| && Wide(m, width)
    ensures Reduced(m, m, width, begin, end, lo, n)
  {
  }

  lemma PairReduces(m: seq<seq<int>>, m': seq<seq<int>>, width: nat, begin: nat, end: nat, lo: nat)
    requires lo + 2 <= |m| && TopAdded(m, m', width, begin, end, lo, lo + 1)
    ensures Reduced(m, m', width, begin, end, lo, 2)
  {
    forall g, i | 0 <= g < |m| && 0 <= i < width
      ensures m'[g][i] == Entry(m, width, begin, end, lo, 2, g, i)
    {
      assert Tree(m, width, i, lo, 1, lo) == m[lo][i] && Tree(m, width, i, lo + 1, 1, lo + 1) == m[lo + 1][i];
    }
  }

  /** The loop that adds one row to another. */
  method AddRow(data: seq<array<int>>, width: nat, lo: nat, other: nat, begin: nat, end: nat)
    requires Rows(data, width) && lo < |data| && other < |data| && lo != other && end <= width
    modifies data[lo]
    ensures TopAdded(old(Contents(data)), Contents(data), width, begin, end, lo, other)
  {
    var i := begin;
    while i < end
      invariant begin <= i && (i <= end || i == begin)
      invariant forall k | 0 <= k < width ::
        data[lo][k] == if begin <= k < i then old(data[lo][k]) + data[other][k] else old(data[lo][k])
    {
      data[lo][i] := data[lo][i] + data[other][i];
      i := i + 1;
    }
  }

  /** reduce_sum on data + lo with n rows. */
  method ReduceSum(data: seq<array<int>>, width: nat, lo: nat, n: nat, begin: nat, end: nat)
    requires Rows(data, width) && lo + n <= |data| && end <= width
    modifies data
    ensures Reduced(old(Contents(data)), Contents(data), width, begin, end, lo, n)
    decreases n
  {
    hide Contents;
    ghost var before := Contents(data);
    if n <= 1 {
      FewReduce(before, width, begin, end, lo, n);
    } else if n == 2 {
      AddRow(data, width, lo, lo + 1, begin, end);
      PairReduces(before, Contents(data), width, begin, end, lo);
    } else {
      var part := n / 2;
      ReduceSum(data, width, lo, part, begin, end);
      ghost var first := Contents(data);
      ReduceSum(data, width, lo + part, n - part, begin, end);
      ghost var both := Contents(data);
      AddRow(data, width, lo, lo + part, begin, end);
      HalvesReduce(before, first, both, Contents(data), width, begin, end, lo, n);
    }
  }
}
