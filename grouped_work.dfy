/** The grouped-work arithmetic of the plan trace in tools.py: how many
    underlying items the groups `id_pairs[a:b]` hold, with Python's slice
    rules for out-of-range and negative bounds. */
module GroupedWork {

  /** Python's normalisation of one slice bound against a sequence of length `n`:
      a negative bound counts from the end, and the result is clamped to [0, n]. */
  function SliceBound(i: int, n: nat): (k: nat)
    ensures k <= n
    ensures 0 <= i <= n ==> k == i
    ensures i > n ==> k == n
    ensures i < 0 && 0 <= i + n ==> k == i + n
    ensures i + n < 0 ==> k == 0
  {
    if i < 0 then (if i + n < 0 then 0 else i + n)
    else if i > n then n
    else i
  }

  /** `s[a:b]` in Python: the elements from the normalised lower bound up to
      the normalised upper one, and none when the bounds cross. */
  function PySlice<T>(s: seq<T>, a: int, b: int): (r: seq<T>)
    ensures var lo, hi := SliceBound(a, |s|), SliceBound(b, |s|);
            |r| == (if lo < hi then hi - lo else 0) &&
            forall k :: 0 <= k < |r| ==> r[k] == s[lo + k]
  {
    var lo := SliceBound(a, |s|);
    var hi := SliceBound(b, |s|);
    if lo < hi then s[lo..hi] else []
  }

  /** `sum([len(v) for v in groups])`. */
  function LenSum<T>(groups: seq<seq<T>>): nat
  {
    if groups == [] then 0 else |groups[0]| + LenSum(groups[1..])
  }

  /** Items held by the groups `id_pairs[a:b]`: no more than all groups
      hold, all of them for a slice spanning the whole list, and none when
      the normalised bounds cross. */
  function GroupedLength<T>(idPairs: seq<seq<T>>, a: int, b: int): (items: nat)
    ensures items <= LenSum(idPairs)
    ensures SliceBound(a, |idPairs|) == 0 && SliceBound(b, |idPairs|) == |idPairs| ==> items == LenSum(idPairs)
    ensures SliceBound(b, |idPairs|) <= SliceBound(a, |idPairs|) ==> items == 0
  {
    var lo, hi := SliceBound(a, |idPairs|), SliceBound(b, |idPairs|);
    if lo < hi then
      assert idPairs == idPairs[..lo] + idPairs[lo..hi] + idPairs[hi..];
      assert PySlice(idPairs, a, b) == idPairs[lo..hi];
      LenSumAppend(idPairs[..lo], idPairs[lo..hi]);
      LenSumAppend(idPairs[..lo] + idPairs[lo..hi], idPairs[hi..]);
      LenSum(PySlice(idPairs, a, b))
    else
      LenSum(PySlice(idPairs, a, b))
  }

  /** Items held by the first `a` groups: `GroupedLength(idPairs, 0, a)`. */
  function ItemsBefore<T>(idPairs: seq<seq<T>>, a: int): nat
  {
    GroupedLength(idPairs, 0, a)
  }

  /** The item count of two runs of groups put end to end is the sum of their counts. */
  lemma {:induction false} LenSumAppend<T>(xs: seq<seq<T>>, ys: seq<seq<T>>)
    ensures LenSum(xs + ys) == LenSum(xs) + LenSum(ys)
    decreases |xs|
  {
    if xs != [] {
      assert (xs + ys)[1..] == xs[1..] + ys;
      LenSumAppend(xs[1..], ys);
    } else {
      assert xs + ys == ys;
    }
  }

  /** The item count is at least the length of every group, and zero
      exactly when every group is empty. */
  lemma {:induction false} LenSumBounds<T>(groups: seq<seq<T>>)
    ensures forall i :: 0 <= i < |groups| ==> |groups[i]| <= LenSum(groups)
    ensures LenSum(groups) == 0 <==> forall i :: 0 <= i < |groups| ==> groups[i] == []
    decreases |groups|
  {
    if groups != [] {
      LenSumBounds(groups[1..]);
      forall i | 1 <= i < |groups| ensures groups[i] == groups[1..][i - 1] { }
    }
  }

  /** The groups of a slice between two non-negative bounds hold the items
      counted up to the upper bound less those counted up to the lower one. */
  lemma {:induction false} GroupedLengthIsDifference<T>(idPairs: seq<seq<T>>, a: int, b: int)
    requires 0 <= a <= b
    ensures GroupedLength(idPairs, a, b) == ItemsBefore(idPairs, b) - ItemsBefore(idPairs, a)
    ensures ItemsBefore(idPairs, a) <= ItemsBefore(idPairs, b)
  {
    var n := |idPairs|;
    var lo := SliceBound(a, n);
    var hi := SliceBound(b, n);
    assert lo <= hi;
    assert idPairs[..hi] == idPairs[..lo] + idPairs[lo..hi];
    LenSumAppend(idPairs[..lo], idPairs[lo..hi]);
    assert PySlice(idPairs, 0, b) == if 0 < hi then idPairs[0..hi] else [];
    assert PySlice(idPairs, 0, a) == if 0 < lo then idPairs[0..lo] else [];
    assert idPairs[0..0] == [];
  }

  /** Example: groups of lengths 1, 2 and 1; the first two
      groups hold three items. */
  lemma ExampleFirstTwoGroups()
    ensures GroupedLength([[10], [20, 30], [40]], 0, 2) == 3
  {
    var g: seq<seq<int>> := [[10], [20, 30], [40]];
    assert PySlice(g, 0, 2) == [[10], [20, 30]];
    assert PySlice(g, 0, 2)[1..] == [[20, 30]];
  }
}
