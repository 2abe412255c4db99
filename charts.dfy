/**
 * The two ways the statistics page script (`server/assets/stats.js`) can fold a long chart
 * series into an `Other` bucket: keep the first `n` points and sum the rest, or keep the
 * points above the series' median and count the rest. The script defines both functions
 * but never calls them; its charts plot the extracted series as they are. A point is an `{x, y}` pair; the
 * JavaScript numbers are reals here, without floating-point rounding.
 */
module Charts {
  import opened Wrappers

  datatype Entry = Entry(x: string, y: real)

  /** The bucket's label. */
  const OtherLabel := "Other"

  /** The sum of the `y` values, added up from the front as the loop does. */
  function SumY(s: seq<Entry>): real {
    if |s| == 0 then 0.0 else SumY(s[..|s| - 1]) + s[|s| - 1].y
  }

  lemma {:induction false} SumYAppend(a: seq<Entry>, b: seq<Entry>)
    ensures SumY(a + b) == SumY(a) + SumY(b)
  {
    if |b| == 0 {
      assert a + b == a;
    } else {
      var b' := b[..|b| - 1];
      assert (a + b)[..|a + b| - 1] == a + b';
      SumYAppend(a, b');
    }
  }

  // ---------------------------------------------------------------------------------------
  // combineTopN
  // ---------------------------------------------------------------------------------------

  /** How many of the first `len` points satisfy `i < n`. */
  function KeepCount(len: nat, n: int): (k: nat)
    ensures k <= len
    ensures n <= 0 ==> k == 0
    ensures 0 <= n <= len ==> k == n
    ensures n >= len ==> k == len
  {
    if n <= 0 then 0 else if n < len then n else len
  }

  /** The points before index `n`, then an `Other` point holding the sum of the rest. */
  function TopN(data: seq<Entry>, n: int): seq<Entry> {
    var k := KeepCount(|data|, n);
    data[..k] + [Entry(OtherLabel, SumY(data[k..]))]
  }

  /** `combineTopN`: one pass that copies the points before `n` and adds up the others. */
  method CombineTopN(data: seq<Entry>, n: int) returns (r: seq<Entry>)
    ensures r == TopN(data, n)
  {
    var newData: seq<Entry> := [];
    var other := 0.0;
    for i := 0 to |data|
      invariant newData == data[..KeepCount(i, n)]
      invariant other == SumY(data[KeepCount(i, n)..i])
    {
      if i < n {
        assert KeepCount(i + 1, n) == i + 1;
        newData := newData + [data[i]];
        continue;
      }
      var k := KeepCount(i, n);
      assert KeepCount(i + 1, n) == k;
      assert data[k..i + 1][..i - k] == data[k..i];
      other := other + data[i].y;
    }
    assert data[KeepCount(|data|, n)..|data|] == data[KeepCount(|data|, n)..];
    return newData + [Entry(OtherLabel, other)];
  }

  /**
   * The first `min(n, length)` points are kept unchanged and in order, one `Other` point
   * follows them, and the total of `y` is the same as before.
   */
  lemma TopNShape(data: seq<Entry>, n: int)
    ensures |TopN(data, n)| == KeepCount(|data|, n) + 1
    ensures forall i :: 0 <= i < KeepCount(|data|, n) ==> TopN(data, n)[i] == data[i]
    ensures TopN(data, n)[|TopN(data, n)| - 1].x == OtherLabel
    ensures SumY(TopN(data, n)) == SumY(data)
  {
    var k := KeepCount(|data|, n);
    var r := TopN(data, n);
    assert r[..|r| - 1] == data[..k];
    SumYAppend(data[..k], data[k..]);
    assert data[..k] + data[k..] == data;
  }

  // ---------------------------------------------------------------------------------------
  // combineUnderMedian
  // ---------------------------------------------------------------------------------------

  /** The points whose `y` lies above `median`, in their original order. */
  function Above(s: seq<Entry>, median: real): (r: seq<Entry>)
    ensures |r| <= |s|
    ensures forall i :: 0 <= i < |r| ==> r[i].y > median
    ensures multiset(r) <= multiset(s)
  {
    if |s| == 0 then []
    else
      var init := s[..|s| - 1];
      assert s == init + [s[|s| - 1]];
      if s[|s| - 1].y <= median then Above(init, median) else Above(init, median) + [s[|s| - 1]]
  }

  /** The side of `median` a value is on: at most it when `below`, at least it otherwise. */
  predicate OnSide(y: real, median: real, below: bool) {
    if below then y <= median else y >= median
  }

  /** How many points lie on the given side of `median`. */
  function CountSide(s: seq<Entry>, median: real, below: bool): (c: nat)
    ensures c <= |s|
  {
    if |s| == 0 then 0
    else CountSide(s[..|s| - 1], median, below) + (if OnSide(s[|s| - 1].y, median, below) then 1 else 0)
  }

  /** Every point is either kept or counted into `Other`. */
  lemma {:induction false} AboveAndBelow(s: seq<Entry>, median: real)
    ensures |Above(s, median)| + CountSide(s, median, true) == |s|
  {
    if |s| > 0 {
      AboveAndBelow(s[..|s| - 1], median);
    }
  }

  /** Keeping the points above the median commutes with concatenation: their order is kept. */
  lemma {:induction false} AboveAppend(a: seq<Entry>, b: seq<Entry>, median: real)
    ensures Above(a + b, median) == Above(a, median) + Above(b, median)
  {
    if |b| == 0 {
      assert a + b == a;
    } else {
      var b' := b[..|b| - 1];
      assert (a + b)[..|a + b| - 1] == a + b';
      AboveAppend(a, b', median);
    }
  }

  /** The kept points, then an `Other` point counting (not summing) the points at or below `median`. */
  function UnderMedian(data: seq<Entry>, median: real): seq<Entry> {
    Above(data, median) + [Entry(OtherLabel, CountSide(data, median, true) as real)]
  }

  /**
   * The threshold `combineUnderMedian` computes: with `mid` half the length rounded down,
   * the mean of `data[mid]` and `data[mid + 1]` for an odd length and `data[mid]` for an
   * even one. Reading a missing point throws, which happens for lengths 0 and 1: `None`.
   */
  function MedianAsWritten(data: seq<Entry>): (r: Option<real>)
    ensures r.None? <==> |data| <= 1
  {
    var mid := |data| / 2;
    if |data| % 2 == 1 then
      if mid + 1 < |data| then Some((data[mid].y + data[mid + 1].y) / 2.0) else None
    else
      if mid < |data| then Some(data[mid].y) else None
  }

  /** `combineUnderMedian`: the threshold, then one pass over the points; `None` when it throws. */
  method CombineUnderMedian(data: seq<Entry>) returns (r: Option<seq<Entry>>)
    ensures MedianAsWritten(data).None? ==> r.None?
    ensures MedianAsWritten(data).Some? ==> r == Some(UnderMedian(data, MedianAsWritten(data).value))
  {
    var mid := |data| / 2;
    var median: real;
    if |data| % 2 == 1 {
      if mid + 1 >= |data| {
        return None;
      }
      median := (data[mid].y + data[mid + 1].y) / 2.0;
    } else {
      if mid >= |data| {
        return None;
      }
      median := data[mid].y;
    }
    var combined := FoldUnder(data, median);
    return Some(combined);
  }

  /** The loop of `combineUnderMedian`: keep a point above `median`, else count it into `Other`. */
  method FoldUnder(data: seq<Entry>, median: real) returns (r: seq<Entry>)
    ensures r == UnderMedian(data, median)
  {
    var newData: seq<Entry> := [];
    var other := 0.0;
    for i := 0 to |data|
      invariant newData == Above(data[..i], median)
      invariant other == CountSide(data[..i], median, true) as real
    {
      FoldStep(data, median, i);
      if data[i].y <= median {
        other := other + 1.0;
        continue;
      }
      newData := newData + [data[i]];
    }
    assert data[..|data|] == data;
    return newData + [Entry(OtherLabel, other)];
  }

  /** One more point is kept when above the median, and counted otherwise. */
  lemma FoldStep(data: seq<Entry>, median: real, i: nat)
    requires i < |data|
    ensures Above(data[..i + 1], median) == Above(data[..i], median) + (if data[i].y <= median then [] else [data[i]])
    ensures CountSide(data[..i + 1], median, true) as real ==
      CountSide(data[..i], median, true) as real + (if data[i].y <= median then 1.0 else 0.0)
  {
    var s := data[..i + 1];
    assert s[..|s| - 1] == data[..i] && s[|s| - 1] == data[i];
  }

  /** With a median, the result keeps the points above it and counts all the others. */
  lemma UnderMedianShape(data: seq<Entry>, median: real)
    ensures |UnderMedian(data, median)| == |data| - CountSide(data, median, true) + 1
    ensures UnderMedian(data, median)[|UnderMedian(data, median)| - 1] == Entry(OtherLabel, CountSide(data, median, true) as real)
    ensures forall i :: 0 <= i < |UnderMedian(data, median)| - 1 ==> UnderMedian(data, median)[i].y > median
  {
    AboveAndBelow(data, median);
  }

  // ---------------------------------------------------------------------------------------
  // What a median promises
  // ---------------------------------------------------------------------------------------

  predicate Ascending(s: seq<Entry>) {
    forall i, j :: 0 <= i < j < |s| ==> s[i].y <= s[j].y
  }

  predicate Descending(s: seq<Entry>) {
    forall i, j :: 0 <= i < j < |s| ==> s[i].y >= s[j].y
  }

  /** A value is a median of `s` when at least half the points lie on each side of it. */
  predicate SplitsInHalves(s: seq<Entry>, median: real) {
    2 * CountSide(s, median, true) >= |s| && 2 * CountSide(s, median, false) >= |s|
  }

  /** A prefix of points on one side is counted. */
  lemma {:induction false} CountSidePrefix(s: seq<Entry>, median: real, below: bool, k: nat)
    requires k <= |s|
    requires forall i :: 0 <= i < k ==> OnSide(s[i].y, median, below)
    ensures CountSide(s, median, below) >= k
  {
    if |s| > 0 {
      var init := s[..|s| - 1];
      if k < |s| {
        CountSidePrefix(init, median, below, k);
      } else {
        CountSidePrefix(init, median, below, k - 1);
      }
    }
  }

  /** A suffix of points on one side is counted. */
  lemma {:induction false} CountSideSuffix(s: seq<Entry>, median: real, below: bool, k: nat)
    requires k <= |s|
    requires forall i :: k <= i < |s| ==> OnSide(s[i].y, median, below)
    ensures CountSide(s, median, below) >= |s| - k
  {
    if k < |s| {
      var init := s[..|s| - 1];
      CountSideSuffix(init, median, below, k);
    }
  }

  /**
   * The median as the name promises: the middle point of an odd-length series, the mean of
   * the two middle points of an even-length one, and a one-point series' only value.
   */
  function Median(data: seq<Entry>): (r: Option<real>)
    ensures r.None? <==> |data| == 0
  {
    var mid := |data| / 2;
    if |data| == 0 then None
    else if |data| % 2 == 1 then Some(data[mid].y)
    else Some((data[mid - 1].y + data[mid].y) / 2.0)
  }

  /** On a sorted series, in either direction, `Median` has half the points on each side. */
  lemma MedianSplitsInHalves(data: seq<Entry>)
    requires |data| > 0
    requires Ascending(data) || Descending(data)
    ensures SplitsInHalves(data, Median(data).value)
  {
    var m := Median(data).value;
    var n, mid := |data|, |data| / 2;
    // The index where the lower half ends and the upper half begins.
    var lo, hi := if n % 2 == 1 then mid + 1 else mid, mid;
    if Ascending(data) {
      assert forall i :: 0 <= i < lo ==> data[i].y <= m;
      assert forall i :: hi <= i < n ==> data[i].y >= m;
      CountSidePrefix(data, m, true, lo);
      CountSideSuffix(data, m, false, hi);
    } else {
      assert forall i :: 0 <= i < lo ==> data[i].y >= m;
      assert forall i :: hi <= i < n ==> data[i].y <= m;
      CountSidePrefix(data, m, false, lo);
      CountSideSuffix(data, m, true, hi);
    }
  }

  /** `combineUnderMedian` with the median it evidently means; a one-point series is kept. */
  function CombineUnderMedianCorrected(data: seq<Entry>): (r: Option<seq<Entry>>)
    ensures r.None? <==> |data| == 0
    ensures r.Some? ==> r.value == UnderMedian(data, Median(data).value)
  {
    match Median(data)
    case None => None
    case Some(m) => Some(UnderMedian(data, m))
  }

  const Sample: seq<Entry> := [Entry("a", 1.0), Entry("b", 2.0), Entry("c", 3.0)]

  /**
   * For the sorted series 1, 2, 3 the threshold as written is 2.5, with one point of three
   * at or above it; the median is 2. A one-point series throws.
   */
  lemma MedianAsWrittenOffCentre(single: Entry)
    ensures MedianAsWritten(Sample) == Some(2.5) && !SplitsInHalves(Sample, 2.5)
    ensures Median(Sample) == Some(2.0)
    ensures MedianAsWritten([single]).None? && Median([single]) == Some(single.y)
  {
    assert Sample[..2] == [Entry("a", 1.0), Entry("b", 2.0)];
    assert Sample[..2][..1] == [Entry("a", 1.0)];
    assert CountSide(Sample, 2.5, false) == 1;
  }
}
