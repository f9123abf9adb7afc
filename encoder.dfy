/**
 * Rotary-encoder direction count over a five-channel interleaved sample
 * list (`Expt.get_avg_vel` in utils.py). Channel 0 carries the encoder's
 * pulse counter, channel 1 its direction line; the other three channels
 * are never read. A rising step of exactly one on channel 0 is an edge;
 * at an edge, direction 0 counts as forward and direction 1 as backward.
 * The result is backward minus forward. Samples are exact integers here.
 */
module EncoderVelocity {
  import opened Common

  /** Channels per scan in the interleaved list. */
  const SCAN_WIDTH: nat := 5

  /** `d[ch::5]`: every sample of channel `ch`. */
  function Column(d: seq<int>, ch: nat): seq<int>
  {
    StepSlice(d, ch, |d|, SCAN_WIDTH)
  }

  /** `np.diff`: successive differences. */
  function Diff(a: seq<int>): (r: seq<int>)
    ensures |r| == if |a| == 0 then 0 else |a| - 1
    ensures forall i :: 0 <= i < |r| ==> r[i] == a[i + 1] - a[i]
  {
    if |a| <= 1 then [] else [a[1] - a[0]] + Diff(a[1..])
  }

  /** `np.where(xs == v)[0]` restricted to positions `lo..`: the matching positions in increasing order. */
  function WhereFrom(xs: seq<int>, v: int, lo: nat): (idx: seq<nat>)
    ensures forall k :: 0 <= k < |idx| ==> lo <= idx[k] < |xs| && xs[idx[k]] == v
    ensures |idx| <= if lo <= |xs| then |xs| - lo else 0
    decreases |xs| - lo
  {
    if lo >= |xs| then []
    else (if xs[lo] == v then [lo] else []) + WhereFrom(xs, v, lo + 1)
  }

  /** `np.where` misses no match, and reports the matches in increasing order. */
  lemma {:induction false} WhereFromFindsAll(xs: seq<int>, v: int, lo: nat)
    ensures forall j :: lo <= j < |xs| && xs[j] == v ==> j in WhereFrom(xs, v, lo)
    ensures forall a, b :: 0 <= a < b < |WhereFrom(xs, v, lo)| ==> WhereFrom(xs, v, lo)[a] < WhereFrom(xs, v, lo)[b]
    decreases |xs| - lo
  {
    if lo < |xs| {
      WhereFromFindsAll(xs, v, lo + 1);
      var rest := WhereFrom(xs, v, lo + 1);
      if xs[lo] == v {
        assert WhereFrom(xs, v, lo) == [lo] + rest;
      } else {
        assert WhereFrom(xs, v, lo) == rest;
      }
    }
  }

  /** `b[idx]` (numpy fancy indexing). */
  function Gather(b: seq<int>, idx: seq<nat>): (g: seq<int>)
    requires forall k :: 0 <= k < |idx| ==> idx[k] < |b|
    ensures |g| == |idx|
  {
    if idx == [] then [] else [b[idx[0]]] + Gather(b, idx[1..])
  }

  /** `len(np.where(xs == v)[0])`. */
  function CountEq(xs: seq<int>, v: int): nat
  {
    if xs == [] then 0 else (if xs[0] == v then 1 else 0) + CountEq(xs[1..], v)
  }

  /** Positions of the edges: where channel 0 rises by exactly one. */
  function Edges(d: seq<int>): seq<nat>
  {
    WhereFrom(Diff(Column(d, 0)), 1, 0)
  }

  /**
   * Every edge position indexes the direction column, whatever the length
   * of the list: an edge at scan i needs scan i + 1 on channel 0, so scan i
   * of channel 1 exists.
   */
  lemma EdgesInRange(d: seq<int>)
    ensures forall k :: 0 <= k < |Edges(d)| ==> Edges(d)[k] < |Column(d, 1)|
    ensures forall k :: 0 <= k < |Edges(d)| ==> Edges(d)[k] + 1 < |Column(d, 0)|
  {
    var idx := Edges(d);
    forall k | 0 <= k < |idx|
      ensures idx[k] < |Column(d, 1)| && idx[k] + 1 < |Column(d, 0)|
    {
      var i := idx[k];
      assert i + 1 < |Column(d, 0)|;
      StepSliceAt(d, 0, |d|, SCAN_WIDTH, i + 1);
      StepSliceAt(d, 1, |d|, SCAN_WIDTH, i);
    }
  }

  /** `get_avg_vel`: backward edges minus forward edges. */
  function GetAvgVel(d: seq<int>): int
  {
    EdgesInRange(d);
    var g := Gather(Column(d, 1), Edges(d));
    CountEq(g, 1) - CountEq(g, 0)
  }

  // ---------------------------------------------------------------------
  // Reference definition straight on the raw samples
  // ---------------------------------------------------------------------

  /** What scan i contributes: +1 for a backward edge, -1 for a forward edge, else 0. */
  function Contribution(d: seq<int>, i: nat): int
    requires SCAN_WIDTH * i + SCAN_WIDTH < |d|
  {
    if d[SCAN_WIDTH * i + SCAN_WIDTH] - d[SCAN_WIDTH * i] != 1 then 0
    else if d[SCAN_WIDTH * i + 1] == 1 then 1
    else if d[SCAN_WIDTH * i + 1] == 0 then -1
    else 0
  }

  /** Sum of the contributions of scans `i..` that have a following scan. */
  function DirectVelFrom(d: seq<int>, i: nat): int
    decreases |d| - SCAN_WIDTH * i
  {
    if SCAN_WIDTH * i + SCAN_WIDTH >= |d| then 0
    else Contribution(d, i) + DirectVelFrom(d, i + 1)
  }

  function Score(g: seq<int>): int
  {
    CountEq(g, 1) - CountEq(g, 0)
  }

  lemma {:induction false} CountEqAppend(x: seq<int>, y: seq<int>, v: int)
    ensures CountEq(x + y, v) == CountEq(x, v) + CountEq(y, v)
  {
    if x != [] {
      assert (x + y)[1..] == x[1..] + y;
      CountEqAppend(x[1..], y, v);
    } else {
      assert x + y == y;
    }
  }

  /** Channel 1 has at least as many scans as channel 0 has minus one. */
  lemma ColumnLengths(d: seq<int>)
    ensures |Column(d, 0)| <= |Column(d, 1)| + 1
  {
    var m := |Column(d, 0)|;
    if m >= 2 {
      StepSliceAt(d, 0, |d|, SCAN_WIDTH, m - 1);
      StepSliceAt(d, 1, |d|, SCAN_WIDTH, m - 2);
    }
  }

  /** Scan j of channel `ch` exists exactly when sample `ch + 5j` does, and it is that sample. */
  lemma ColumnAt(d: seq<int>, ch: nat, j: nat)
    ensures j < |Column(d, ch)| <==> ch + SCAN_WIDTH * j < |d|
    ensures j < |Column(d, ch)| ==> Column(d, ch)[j] == d[ch + SCAN_WIDTH * j]
  {
    StepSliceAt(d, ch, |d|, SCAN_WIDTH, j);
    assert j * SCAN_WIDTH == SCAN_WIDTH * j;
  }

  /** Scan `lo` of the pipeline: the edge test and the direction read agree with the raw samples. */
  lemma ScanMatches(d: seq<int>, lo: nat)
    requires lo < |Diff(Column(d, 0))|
    ensures lo < |Column(d, 1)|
    ensures SCAN_WIDTH * lo + SCAN_WIDTH < |d|
    ensures Diff(Column(d, 0))[lo] == d[SCAN_WIDTH * lo + SCAN_WIDTH] - d[SCAN_WIDTH * lo]
    ensures Column(d, 1)[lo] == d[SCAN_WIDTH * lo + 1]
  {
    ColumnLengths(d);
    ColumnAt(d, 0, lo);
    ColumnAt(d, 0, lo + 1);
    assert SCAN_WIDTH * (lo + 1) == SCAN_WIDTH * lo + SCAN_WIDTH;
    ColumnAt(d, 1, lo);
  }

  /** The per-position sum the pipeline computes, over the difference list `xs` and direction column `b`. */
  function SumFrom(xs: seq<int>, b: seq<int>, lo: nat): int
    requires |xs| <= |b|
    decreases |xs| - lo
  {
    if lo >= |xs| then 0
    else (if xs[lo] != 1 then 0 else if b[lo] == 1 then 1 else if b[lo] == 0 then -1 else 0)
         + SumFrom(xs, b, lo + 1)
  }

  lemma ScoreCons(b: seq<int>, i: nat, r: seq<nat>)
    requires i < |b|
    requires forall k :: 0 <= k < |r| ==> r[k] < |b|
    ensures Score(Gather(b, [i] + r)) == (if b[i] == 1 then 1 else if b[i] == 0 then -1 else 0) + Score(Gather(b, r))
  {
    assert ([i] + r)[1..] == r;
    var g := Gather(b, r);
    assert Gather(b, [i] + r) == [b[i]] + g;
    assert ([b[i]] + g)[1..] == g;
  }

  /** One position of the edge search: it adds to the score exactly what it adds to the sum. */
  lemma ScoreIsSumStep(xs: seq<int>, b: seq<int>, lo: nat)
    requires |xs| <= |b| && lo < |xs|
    ensures Score(Gather(b, WhereFrom(xs, 1, lo))) - Score(Gather(b, WhereFrom(xs, 1, lo + 1)))
            == SumFrom(xs, b, lo) - SumFrom(xs, b, lo + 1)
  {
    var rest := WhereFrom(xs, 1, lo + 1);
    if xs[lo] == 1 {
      assert WhereFrom(xs, 1, lo) == [lo] + rest;
      ScoreCons(b, lo, rest);
    } else {
      assert WhereFrom(xs, 1, lo) == rest;
    }
  }

  /** Gathering and counting over the edge positions from `lo` on is that sum. */
  lemma {:induction false} ScoreIsSum(xs: seq<int>, b: seq<int>, lo: nat)
    requires |xs| <= |b|
    ensures Score(Gather(b, WhereFrom(xs, 1, lo))) == SumFrom(xs, b, lo)
    decreases |xs| - lo
  {
    if lo < |xs| {
      ScoreIsSum(xs, b, lo + 1);
      ScoreIsSumStep(xs, b, lo);
    }
  }

  /** The sum over the pipeline's columns is the direct sum over the raw samples. */
  lemma {:induction false} SumIsDirect(d: seq<int>, lo: nat)
    requires |Diff(Column(d, 0))| <= |Column(d, 1)|
    requires lo <= |Diff(Column(d, 0))|
    ensures SumFrom(Diff(Column(d, 0)), Column(d, 1), lo) == DirectVelFrom(d, lo)
    decreases |Diff(Column(d, 0))| - lo
  {
    if lo == |Diff(Column(d, 0))| {
      StepSliceAt(d, 0, |d|, SCAN_WIDTH, lo + 1);
    } else {
      ScanMatches(d, lo);
      SumIsDirect(d, lo + 1);
    }
  }

  /** `get_avg_vel` equals the direct per-scan sum over the raw samples. */
  lemma AvgVelIsDirect(d: seq<int>)
    ensures GetAvgVel(d) == DirectVelFrom(d, 0)
  {
    ColumnLengths(d);
    ScoreIsSum(Diff(Column(d, 0)), Column(d, 1), 0);
    SumIsDirect(d, 0);
  }

  /** Fewer than two scans (at most five samples) give no edge and a zero result. */
  lemma {:induction false} FewScansGiveZero(d: seq<int>)
    requires |d| <= SCAN_WIDTH
    ensures Edges(d) == []
    ensures GetAvgVel(d) == 0
  {
    StepSliceAt(d, 0, |d|, SCAN_WIDTH, 1);
    assert |Column(d, 0)| <= 1;
  }

  lemma {:induction false} ScoreBound(g: seq<int>)
    ensures CountEq(g, 1) + CountEq(g, 0) <= |g|
  {
    if g != [] { ScoreBound(g[1..]); }
  }

  /**
   * The result is bounded by the number of edges, which is at most the
   * number of scans of channel 0 minus one.
   */
  lemma AvgVelBound(d: seq<int>)
    ensures -|Edges(d)| <= GetAvgVel(d) <= |Edges(d)|
    ensures |Column(d, 0)| >= 1 ==> |Edges(d)| <= |Column(d, 0)| - 1
    ensures |Column(d, 0)| == 0 ==> |Edges(d)| == 0
  {
    EdgesInRange(d);
    ScoreBound(Gather(Column(d, 1), Edges(d)));
  }

  /**
   * Only channels 0 and 1 are read: two lists of the same length that agree
   * at every position 5k and 5k + 1 give the same result.
   */
  lemma {:induction false} ReadsOnlyChannels01From(d1: seq<int>, d2: seq<int>, i: nat)
    requires |d1| == |d2|
    requires forall k: nat :: SCAN_WIDTH * k < |d1| ==> d1[SCAN_WIDTH * k] == d2[SCAN_WIDTH * k]
    requires forall k: nat :: SCAN_WIDTH * k + 1 < |d1| ==> d1[SCAN_WIDTH * k + 1] == d2[SCAN_WIDTH * k + 1]
    ensures DirectVelFrom(d1, i) == DirectVelFrom(d2, i)
    decreases |d1| - SCAN_WIDTH * i
  {
    if SCAN_WIDTH * i + SCAN_WIDTH < |d1| {
      assert SCAN_WIDTH * i + SCAN_WIDTH == SCAN_WIDTH * (i + 1);
      ReadsOnlyChannels01From(d1, d2, i + 1);
    }
  }

  lemma ReadsOnlyChannels01(d1: seq<int>, d2: seq<int>)
    requires |d1| == |d2|
    requires forall k: nat :: SCAN_WIDTH * k < |d1| ==> d1[SCAN_WIDTH * k] == d2[SCAN_WIDTH * k]
    requires forall k: nat :: SCAN_WIDTH * k + 1 < |d1| ==> d1[SCAN_WIDTH * k + 1] == d2[SCAN_WIDTH * k + 1]
    ensures GetAvgVel(d1) == GetAvgVel(d2)
  {
    AvgVelIsDirect(d1);
    AvgVelIsDirect(d2);
    ReadsOnlyChannels01From(d1, d2, 0);
  }
}
