/**
 * The two medians the services use. `statistics.median` averages the two
 * middle values of an even-length list; the hand-written `sorted(s)[len(s) // 2]`
 * picks the upper of the two. Each service keeps its own convention.
 */
module Stats {
  import opened Numbers
  import opened Sorting

  /** `sorted(s)[len(s) // 2]`. */
  function IndexMedian(s: seq<real>): real
    requires |s| > 0
  {
    SortAsc(s)[|s| / 2]
  }

  /** `statistics.median(s)`. */
  function StatMedian(s: seq<real>): real
    requires |s| > 0
  {
    var t := SortAsc(s);
    var n := |t|;
    if n % 2 == 1 then t[n / 2] else (t[n / 2 - 1] + t[n / 2]) / 2.0
  }

  /** The index-picked median is one of the values, so it lies between their minimum and maximum. */
  lemma IndexMedianBetween(s: seq<real>)
    requires |s| > 0
    ensures MinOf(s) <= IndexMedian(s) <= MaxOf(s)
  {
    SortAscMembers(s);
    assert SortAsc(s)[|s| / 2] in SortAsc(s);
  }

  /** The averaging median lies between the minimum and the maximum of the values. */
  lemma StatMedianBetween(s: seq<real>)
    requires |s| > 0
    ensures MinOf(s) <= StatMedian(s) <= MaxOf(s)
  {
    SortAscMembers(s);
    var t := SortAsc(s);
    var n := |t|;
    var lo, hi := MinOf(s), MaxOf(s);
    assert t[n / 2] in t;
    assert lo <= t[n / 2] <= hi;
    if n % 2 == 0 {
      assert t[n / 2 - 1] in t;
      assert lo <= t[n / 2 - 1] <= hi;
    }
  }

  /** The two conventions disagree on even-length lists: for [1, 2] the index pick is 2, the average 1.5. */
  lemma MedianConventionsDiffer()
    ensures IndexMedian([1.0, 2.0]) == 2.0
    ensures StatMedian([1.0, 2.0]) == 1.5
  {
    assert SortAsc([1.0, 2.0]) == [1.0, 2.0];
  }
}
