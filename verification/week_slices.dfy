/**
 * Cutting an ordered sequence into consecutive slices of 7, as the weekly
 * roll-up walks `days.slice(cursor, cursor + 7)` with `cursor` stepping by
 * 7 from 0. JavaScript's `slice` clamps its end to the length, so only the
 * last slice can be short.
 */
module WeekSlices {

  const SliceLength: nat := 7

  function Min(a: int, b: int): int {
    if a <= b then a else b
  }

  /** How many slices a sequence of `n` elements yields: ceil(n / 7). */
  function SliceCount(n: nat): (c: nat)
    ensures 7 * c >= n
    ensures c > 0 ==> 7 * (c - 1) < n
  {
    (n + 6) / 7
  }

  /** Slice `i`: elements [7i, 7i + 7), clamped to the sequence. */
  function Slice<T>(s: seq<T>, i: nat): (r: seq<T>)
    requires i < SliceCount(|s|)
    ensures 1 <= |r| <= SliceLength
    ensures i + 1 < SliceCount(|s|) ==> |r| == SliceLength
    ensures 7 * i + |r| <= |s|
    ensures i + 1 == SliceCount(|s|) ==> 7 * i + |r| == |s|
    ensures forall k :: 0 <= k < |r| ==> r[k] == s[7 * i + k]
  {
    s[7 * i .. Min(7 * i + 7, |s|)]
  }

  function Slices<T>(s: seq<T>): (ss: seq<seq<T>>)
    ensures |ss| == SliceCount(|s|)
  {
    seq(SliceCount(|s|), i requires 0 <= i < SliceCount(|s|) => Slice(s, i))
  }

  function Flatten<T>(ss: seq<seq<T>>): seq<T> {
    if |ss| == 0 then [] else Flatten(ss[..|ss| - 1]) + ss[|ss| - 1]
  }

  /** The first `k` slices, concatenated, are the first min(7k, n) elements. */
  lemma {:induction false} FlattenPrefix<T>(s: seq<T>, k: nat)
    requires k <= SliceCount(|s|)
    ensures Flatten(Slices(s)[..k]) == s[..Min(7 * k, |s|)]
  {
    if k > 0 {
      var ss := Slices(s);
      FlattenPrefix(s, k - 1);
      assert ss[..k][..k - 1] == ss[..k - 1];
      assert Flatten(ss[..k]) == Flatten(ss[..k - 1]) + ss[k - 1];
      assert s[..Min(7 * k, |s|)] == s[..7 * (k - 1)] + s[7 * (k - 1) .. Min(7 * k, |s|)];
    }
  }

  /**
   * The slices partition the sequence: concatenated in order they give it
   * back, with no gap and no overlap.
   */
  lemma SlicesPartition<T>(s: seq<T>)
    ensures Flatten(Slices(s)) == s
  {
    FlattenPrefix(s, SliceCount(|s|));
    assert Slices(s)[..SliceCount(|s|)] == Slices(s);
  }
}
