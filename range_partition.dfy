/** The range partitioner of tools.py (`get_ranges`): it splits the index
    interval [n_start, n_start + n_size) into contiguous sub-ranges, the last
    of which absorbs the remainder of an uneven division. */
module RangePartition {

  /** One `[start, end]` list of the source: the half-open interval [start, end). */
  datatype Range = Range(start: int, end: int)

  function Min(a: int, b: int): int { if a <= b then a else b }

  function Max(a: int, b: int): int { if a <= b then b else a }

  /** Number of indices in a range. */
  function Len(r: Range): int { r.end - r.start }

  /** The inputs the model partitions: a positive chunk count, or fewer
      indices than chunks (step 1). Outside them, `n_chunks == 0` with
      `n_size >= 0` divides by zero; a negative `n_chunks` with
      `n_size > n_chunks` gives a step of zero (on which Python's `range`
      raises `ValueError`) or a negative one; and `n_size == n_chunks < 0`
      gives step 1 and the single range
      `[n_start + n_chunks - 1, n_start + n_chunks]`, which the model does
      not cover. The planner's guard rejects every negative count first. */
  predicate Partitionable(n_size: int, n_chunks: int)
  {
    n_chunks >= 1 || n_size < n_chunks
  }

  /** `range_size`: the length of every range but the last.  The source
      computes `int(float(n_size) / n_chunks)`, which is the floor of the
      quotient for the non-negative sizes that reach it. */
  function RangeSize(n_size: int, n_chunks: int): (q: int)
    requires Partitionable(n_size, n_chunks)
    ensures q >= 1
    ensures n_size >= n_chunks ==> n_chunks * q <= n_size < n_chunks * (q + 1)
  {
    if n_size >= n_chunks then n_size / n_chunks else 1
  }

  /** The ranges the source's stepped loop appends:
      one `[base + i, base + i + step]` for each `i` in `range(i, stop, step)`. */
  function Stepped(base: int, i: int, stop: int, step: int): seq<Range>
    requires step >= 1
    decreases stop - i
  {
    if i < stop then [Range(base + i, base + i + step)] + Stepped(base, i + step, stop, step)
    else []
  }

  /** What `get_ranges(n_size, n_start, n_chunks)` returns. */
  function Ranges(n_size: int, n_start: int, n_chunks: int): seq<Range>
    requires Partitionable(n_size, n_chunks)
  {
    var q := RangeSize(n_size, n_chunks);
    var lastStart := (n_chunks - 1) * q;
    Stepped(n_start, 0, Min(lastStart, n_size), q)
    + (if lastStart < n_size then [Range(n_start + lastStart, n_start + n_size)] else [])
  }

  /** `rs` is an ordered partition of [lo, hi) into non-empty contiguous
      ranges: empty exactly when the interval is, starting at `lo`, each
      range starting where the previous one ends, the last ending at `hi`. */
  ghost predicate Tiles(rs: seq<Range>, lo: int, hi: int)
  {
    (rs == [] <==> lo == hi) &&
    (rs != [] ==> rs[0].start == lo && rs[|rs| - 1].end == hi) &&
    (forall i :: 0 <= i < |rs| ==> rs[i].start < rs[i].end) &&
    (forall i, j :: 0 <= i && j == i + 1 && j < |rs| ==> rs[i].end == rs[j].start)
  }

  /** `get_ranges` as the source writes it: the stepped loop, then the
      remainder-absorbing last range. */
  method GetRanges(n_size: int, n_start: int, n_chunks: int) returns (ranges: seq<Range>)
    requires Partitionable(n_size, n_chunks)
    ensures ranges == Ranges(n_size, n_start, n_chunks)
    ensures |ranges| == if n_size <= 0 then 0 else Min(n_chunks, n_size)
    ensures n_size >= 0 ==> Tiles(ranges, n_start, n_start + n_size)
  {
    ranges := [];
    var rangeSize := if n_size >= n_chunks then n_size / n_chunks else 1;
    assert rangeSize == RangeSize(n_size, n_chunks);
    var stop := Min((n_chunks - 1) * rangeSize, n_size);
    var i := 0;
    while i < stop
      invariant 0 <= i
      invariant ranges + Stepped(n_start, i, stop, rangeSize) == Stepped(n_start, 0, stop, rangeSize)
      decreases stop - i
    {
      assert Stepped(n_start, i, stop, rangeSize)
          == [Range(n_start + i, n_start + i + rangeSize)] + Stepped(n_start, i + rangeSize, stop, rangeSize);
      ranges := ranges + [Range(n_start + i, n_start + i + rangeSize)];
      i := i + rangeSize;
    }
    assert ranges == Stepped(n_start, 0, stop, rangeSize);
    if (n_chunks - 1) * rangeSize < n_size {
      ranges := ranges + [Range(n_start + (n_chunks - 1) * rangeSize, n_start + n_size)];
    }
    RangesCount(n_size, n_start, n_chunks);
    if n_size >= 0 {
      RangesTile(n_size, n_start, n_chunks);
    }
  }

  lemma {:induction false} SteppedAt(base: int, i: int, m: nat, step: int)
    requires step >= 1
    ensures |Stepped(base, i, i + m * step, step)| == m
    ensures forall j :: 0 <= j < m ==>
              Stepped(base, i, i + m * step, step)[j] == Range(base + i + j * step, base + i + j * step + step)
    decreases m
  {
    if m > 0 {
      var rest := Stepped(base, i + step, i + m * step, step);
      assert i + m * step == (i + step) + (m - 1) * step;
      SteppedAt(base, i + step, m - 1, step);
      assert Stepped(base, i, i + m * step, step) == [Range(base + i, base + i + step)] + rest;
      forall j | 0 < j < m
        ensures Stepped(base, i, i + m * step, step)[j] == Range(base + i + j * step, base + i + j * step + step)
      {
        assert i + step + (j - 1) * step == i + j * step;
      }
    }
  }

  /** Closed form of `get_ranges`: with `n_size >= n_chunks` there are
      `n_chunks` ranges, all but the last of length `n_size / n_chunks`;
      otherwise one unit range per index. */
  lemma {:induction false} RangesShape(n_size: int, n_start: int, n_chunks: int)
    requires Partitionable(n_size, n_chunks)
    ensures var r := Ranges(n_size, n_start, n_chunks);
            var q := RangeSize(n_size, n_chunks);
            n_size >= n_chunks ==>
              |r| == n_chunks &&
              (forall j :: 0 <= j < n_chunks - 1 ==> r[j] == Range(n_start + j * q, n_start + j * q + q)) &&
              r[n_chunks - 1] == Range(n_start + (n_chunks - 1) * q, n_start + n_size)
    ensures var r := Ranges(n_size, n_start, n_chunks);
            n_size < n_chunks ==>
              |r| == Max(n_size, 0) &&
              forall j :: 0 <= j < |r| ==> r[j] == Range(n_start + j, n_start + j + 1)
  {
    var q := RangeSize(n_size, n_chunks);
    if n_size >= n_chunks {
      assert (n_chunks - 1) * q == n_chunks * q - q;
      SteppedAt(n_start, 0, n_chunks - 1, q);
    } else if n_size > 0 {
      assert q == 1 && Min((n_chunks - 1) * q, n_size) == 0 + n_size * 1;
      SteppedAt(n_start, 0, n_size, 1);
      var r := Ranges(n_size, n_start, n_chunks);
      forall j | 0 <= j < |r| ensures r[j] == Range(n_start + j, n_start + j + 1) {
        assert j * 1 == j;
      }
    }
  }

  /** `get_ranges` returns `min(n_chunks, n_size)` ranges, none for a size of zero or less. */
  lemma {:induction false} RangesCount(n_size: int, n_start: int, n_chunks: int)
    requires Partitionable(n_size, n_chunks)
    ensures |Ranges(n_size, n_start, n_chunks)| == if n_size <= 0 then 0 else Min(n_chunks, n_size)
  {
    RangesShape(n_size, n_start, n_chunks);
  }

  /** The ranges cover [n_start, n_start + n_size) exactly, non-empty and contiguous. */
  lemma {:induction false} RangesTile(n_size: int, n_start: int, n_chunks: int)
    requires Partitionable(n_size, n_chunks)
    requires n_size >= 0
    ensures Tiles(Ranges(n_size, n_start, n_chunks), n_start, n_start + n_size)
  {
    RangesShape(n_size, n_start, n_chunks);
    var r := Ranges(n_size, n_start, n_chunks);
    var q := RangeSize(n_size, n_chunks);
    if n_size >= n_chunks {
      forall i, j | 0 <= i && j == i + 1 && j < |r| ensures r[i].end == r[j].start {
        assert i * q + q == j * q;
      }
      forall i | 0 <= i < |r| ensures r[i].start < r[i].end {
        if i == n_chunks - 1 {
          assert (n_chunks - 1) * q == n_chunks * q - q;
        }
      }
    }
  }

  /** With at least as many indices as chunks, the first `n_chunks - 1`
      ranges have the base length and the last one absorbs the remainder. */
  lemma {:induction false} RangesLengths(n_size: int, n_start: int, n_chunks: int)
    requires n_chunks >= 1 && n_size >= n_chunks
    ensures var r := Ranges(n_size, n_start, n_chunks);
            |r| == n_chunks &&
            (forall j :: 0 <= j < n_chunks - 1 ==> Len(r[j]) == n_size / n_chunks) &&
            Len(r[n_chunks - 1]) == n_size / n_chunks + n_size % n_chunks
  {
    RangesShape(n_size, n_start, n_chunks);
    var q := n_size / n_chunks;
    assert n_size == n_chunks * q + n_size % n_chunks;
    assert (n_chunks - 1) * q == n_chunks * q - q;
  }

  /** With fewer indices than chunks, every range holds exactly one index. */
  lemma {:induction false} RangesUnits(n_size: int, n_start: int, n_chunks: int)
    requires n_size < n_chunks
    ensures var r := Ranges(n_size, n_start, n_chunks);
            |r| == Max(n_size, 0) && forall j :: 0 <= j < |r| ==> Len(r[j]) == 1
  {
    RangesShape(n_size, n_start, n_chunks);
  }

  /** No gaps and no overlaps: every index of [n_start, n_start + n_size) lies
      in exactly one range of `get_ranges`, and no other index lies in any. */
  lemma {:induction false} RangesExactlyOne(n_size: int, n_start: int, n_chunks: int, x: int)
    requires Partitionable(n_size, n_chunks)
    ensures var r := Ranges(n_size, n_start, n_chunks);
            (n_start <= x < n_start + n_size <==> exists i :: 0 <= i < |r| && r[i].start <= x < r[i].end) &&
            forall i, j ::
              (0 <= i < |r| && 0 <= j < |r| && r[i].start <= x < r[i].end && r[j].start <= x < r[j].end)
              ==> i == j
  {
    var r := Ranges(n_size, n_start, n_chunks);
    if n_size >= 0 {
      RangesTile(n_size, n_start, n_chunks);
      TilesCover(r, n_start, n_start + n_size, x);
      TilesDisjoint(r, n_start, n_start + n_size, x);
    } else {
      RangesCount(n_size, n_start, n_chunks);
    }
  }

  /** A tiling is strictly ordered: an earlier range ends no later than a later one starts. */
  lemma {:induction false} TilesOrdered(rs: seq<Range>, lo: int, hi: int, i: int, j: int)
    requires Tiles(rs, lo, hi)
    requires 0 <= i < j < |rs|
    ensures rs[i].end <= rs[j].start
    decreases j - i
  {
    if j > i + 1 {
      TilesOrdered(rs, lo, hi, i + 1, j);
      assert rs[i].end == rs[i + 1].start;
    } else {
      assert rs[i].end == rs[j].start;
    }
  }

  /** No index lies in two ranges of a tiling. */
  lemma {:induction false} TilesDisjoint(rs: seq<Range>, lo: int, hi: int, x: int)
    requires Tiles(rs, lo, hi)
    ensures forall i, j ::
              (0 <= i < |rs| && 0 <= j < |rs| && rs[i].start <= x < rs[i].end && rs[j].start <= x < rs[j].end)
              ==> i == j
  {
    forall i, j | 0 <= i < |rs| && 0 <= j < |rs| && rs[i].start <= x < rs[i].end &&
                  rs[j].start <= x < rs[j].end
      ensures i == j
    {
      if i < j { TilesOrdered(rs, lo, hi, i, j); }
      if j < i { TilesOrdered(rs, lo, hi, j, i); }
    }
  }

  /** An index lies in [lo, hi) exactly when some range of the tiling holds it. */
  lemma {:induction false} TilesCover(rs: seq<Range>, lo: int, hi: int, x: int)
    requires Tiles(rs, lo, hi)
    ensures lo <= x < hi <==> exists i :: 0 <= i < |rs| && rs[i].start <= x < rs[i].end
    decreases |rs|
  {
    if rs != [] {
      var tail := rs[1..];
      TilesTail(rs, lo, hi);
      TilesCover(tail, rs[0].end, hi, x);
      if lo <= x < hi {
        if x < rs[0].end {
          assert rs[0].start <= x < rs[0].end;
        } else {
          var k :| 0 <= k < |tail| && tail[k].start <= x < tail[k].end;
          assert rs[k + 1] == tail[k];
        }
      }
      if exists i :: 0 <= i < |rs| && rs[i].start <= x < rs[i].end {
        var i :| 0 <= i < |rs| && rs[i].start <= x < rs[i].end;
        if i > 0 {
          assert tail[i - 1] == rs[i];
        }
      }
    }
  }

  /** Every range of a tiling of [lo, hi) lies inside [lo, hi). */
  lemma {:induction false} TilesWithin(rs: seq<Range>, lo: int, hi: int)
    requires Tiles(rs, lo, hi)
    ensures forall i :: 0 <= i < |rs| ==> lo <= rs[i].start && rs[i].end <= hi
  {
    forall i | 0 <= i < |rs| ensures lo <= rs[i].start && rs[i].end <= hi {
      if i > 0 { TilesOrdered(rs, lo, hi, 0, i); }
      if i < |rs| - 1 { TilesOrdered(rs, lo, hi, i, |rs| - 1); }
    }
  }

  /** Dropping the first range of a tiling leaves a tiling of the rest. */
  lemma {:induction false} TilesTail(rs: seq<Range>, lo: int, hi: int)
    requires Tiles(rs, lo, hi) && rs != []
    ensures Tiles(rs[1..], rs[0].end, hi)
    ensures lo < rs[0].end <= hi
  {
    if |rs| > 1 {
      assert rs[0].end == rs[1].start;
      TilesOrdered(rs, lo, hi, 0, |rs| - 1);
      var t := rs[1..];
      forall i, j | 0 <= i && j == i + 1 && j < |t| ensures t[i].end == t[j].start {
        assert rs[i + 1].end == rs[j + 1].start;
      }
    }
  }

  /** Two tilings of adjacent intervals concatenate to a tiling of their union. */
  lemma {:induction false} TilesAppend(xs: seq<Range>, ys: seq<Range>, lo: int, mid: int, hi: int)
    requires Tiles(xs, lo, mid) && Tiles(ys, mid, hi)
    ensures Tiles(xs + ys, lo, hi)
  {
    var s := xs + ys;
    if xs != [] && ys != [] {
      forall i, j | 0 <= i && j == i + 1 && j < |s| ensures s[i].end == s[j].start {
        if j < |xs| {
          assert s[i] == xs[i] && s[j] == xs[j];
        } else if i == |xs| - 1 {
          assert s[j] == ys[0];
        } else {
          assert s[i] == ys[i - |xs|] && s[j] == ys[j - |xs|];
        }
      }
      TilesNonDecreasing(xs, lo, mid);
      TilesNonDecreasing(ys, mid, hi);
    }
  }

  /** A tiling spans a non-empty interval unless it has no ranges. */
  lemma {:induction false} TilesNonDecreasing(rs: seq<Range>, lo: int, hi: int)
    requires Tiles(rs, lo, hi)
    ensures lo <= hi
    ensures rs != [] ==> lo < hi
  {
    if rs != [] {
      if |rs| > 1 {
        TilesOrdered(rs, lo, hi, 0, |rs| - 1);
      }
    }
  }

  /** Example: `get_ranges(10, 0, 3)` is `[[0,3],[3,6],[6,10]]`. */
  lemma ExampleTenInThree()
    ensures Ranges(10, 0, 3) == [Range(0, 3), Range(3, 6), Range(6, 10)]
  {
    RangesShape(10, 0, 3);
  }

  /** `get_ranges(1, 0, 5)` is the single range `[0,1]`. */
  lemma ExampleOneInFive()
    ensures Ranges(1, 0, 5) == [Range(0, 1)]
  {
    RangesShape(1, 0, 5);
  }
}
