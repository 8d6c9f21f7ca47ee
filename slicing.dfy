/** Time-window extraction from a timestamp-sorted sample sequence
    (`getSliceBetweenTimes`, `getSliceAroundTime`). */
module Slicing {
  import opened Telemetry

  function Min(a: int, b: int): int
  {
    if a <= b then a else b
  }

  /** `_.sortedIndex(data, {t: x}, d => d.t)`: the first index whose timestamp is not below `x`
      (the library's binary search computes this index on sorted data). */
  function LowerBound(data: seq<Sample>, x: Time): (r: nat)
    ensures r <= |data|
    ensures forall k :: 0 <= k < r ==> data[k].t < x
    ensures r < |data| ==> x <= data[r].t
  {
    if |data| == 0 || x <= data[0].t then 0 else 1 + LowerBound(data[1..], x)
  }

  /** On sorted data every sample from the lower bound on is at or after `x`. */
  lemma LowerBoundSorted(data: seq<Sample>, x: Time)
    requires Sorted(data)
    ensures forall k :: LowerBound(data, x) <= k < |data| ==> x <= data[k].t
  {
  }

  /** A later bound never comes before an earlier one. */
  lemma LowerBoundMonotone(data: seq<Sample>, x: Time, y: Time)
    requires Sorted(data) && x <= y
    ensures LowerBound(data, x) <= LowerBound(data, y)
  {
    LowerBoundSorted(data, x);
  }

  /** `Array.prototype.slice(from, to)` for non-negative bounds: `to` is clamped to the length
      and an inverted range is empty. */
  function JsSlice<T>(s: seq<T>, from: nat, to: nat): (r: seq<T>)
    ensures |r| == if from < Min(to, |s|) then Min(to, |s|) - from else 0
    ensures forall i :: 0 <= i < |r| ==> from + i < |s| && r[i] == s[from + i]
  {
    var hi := Min(to, |s|);
    if from < hi then seq(hi - from, i requires 0 <= i < hi - from => s[from + i]) else []
  }

  /** `getSliceBetweenTimes(data, from, to)`: `data.slice(lb(from), lb(to) + 1)`. The slice is the
      contiguous run of `data` that starts at the first sample at or after `from`, and every
      element but the last is before `to`. */
  function SliceBetweenTimes(data: seq<Sample>, from: Time, to: Time): (r: seq<Sample>)
    ensures |r| <= |data|
    ensures forall i :: 0 <= i < |r| ==> LowerBound(data, from) + i < |data| && r[i] == data[LowerBound(data, from) + i]
    ensures forall i :: 0 <= i < |r| - 1 ==> r[i].t < to
  {
    var lo, hi := LowerBound(data, from), LowerBound(data, to);
    var r := JsSlice(data, lo, hi + 1);
    assert |r| == 0 || lo + |r| - 1 <= hi;
    r
  }

  /** What the slice holds on sorted data: a contiguous run starting at the first sample at or
      after `from`; it holds every sample with `from <= t < to`; every element but the last is
      before `to`; and when some sample is at or after `to`, the first such sample closes the
      run (so the slice may end with one sample later than `to`). */
  lemma SliceBetweenTimesWindow(data: seq<Sample>, from: Time, to: Time)
    requires Sorted(data)
    ensures var r := SliceBetweenTimes(data, from, to);
            var lo := LowerBound(data, from);
            && (forall i :: 0 <= i < |r| ==> lo + i < |data| && r[i] == data[lo + i])
            && (forall i :: 0 <= i < |r| ==> from <= r[i].t)
            && (forall i :: 0 <= i < |r| - 1 ==> r[i].t < to)
            && (forall k :: 0 <= k < |data| && from <= data[k].t < to ==> lo <= k < lo + |r|)
            && (from <= to && LowerBound(data, to) < |data| ==>
                  |r| > 0 && r[|r| - 1] == data[LowerBound(data, to)] && to <= r[|r| - 1].t)
  {
    SliceStartsAtFrom(data, from, to);
    SliceHoldsEarlierThanTo(data, from, to);
    SliceEndsAtFirstAfterTo(data, from, to);
  }

  lemma SliceStartsAtFrom(data: seq<Sample>, from: Time, to: Time)
    requires Sorted(data)
    ensures var r := SliceBetweenTimes(data, from, to);
            forall i :: 0 <= i < |r| ==> from <= r[i].t
  {
    LowerBoundSorted(data, from);
  }

  lemma SliceHoldsEarlierThanTo(data: seq<Sample>, from: Time, to: Time)
    requires Sorted(data)
    ensures var r := SliceBetweenTimes(data, from, to);
            forall k :: 0 <= k < |data| && from <= data[k].t < to ==> LowerBound(data, from) <= k < LowerBound(data, from) + |r|
  {
    var r := SliceBetweenTimes(data, from, to);
    var lo, hi := LowerBound(data, from), LowerBound(data, to);
    LowerBoundSorted(data, to);
    forall k | 0 <= k < |data| && from <= data[k].t < to
      ensures lo <= k < lo + |r|
    {
      assert k < hi;
    }
  }

  lemma SliceEndsAtFirstAfterTo(data: seq<Sample>, from: Time, to: Time)
    requires Sorted(data)
    ensures var r := SliceBetweenTimes(data, from, to);
            from <= to && LowerBound(data, to) < |data| ==>
              |r| > 0 && r[|r| - 1] == data[LowerBound(data, to)] && to <= r[|r| - 1].t
  {
    var lo, hi := LowerBound(data, from), LowerBound(data, to);
    if from <= to && hi < |data| {
      LowerBoundMonotone(data, from, to);
      assert |SliceBetweenTimes(data, from, to)| == hi + 1 - lo;
    }
  }

  /** With distinct timestamps the slice holds exactly the samples in `[from, to]`, plus at most
      one sample after `to`, as its last element. */
  lemma SliceBetweenTimesStrict(data: seq<Sample>, from: Time, to: Time)
    requires StrictlySorted(data)
    ensures var r := SliceBetweenTimes(data, from, to);
            var lo := LowerBound(data, from);
            && (forall k :: 0 <= k < |data| && from <= data[k].t <= to ==> lo <= k < lo + |r| && r[k - lo] == data[k])
            && (forall i :: 0 <= i < |r| - 1 ==> from <= r[i].t <= to)
  {
    assert Sorted(data);
    SliceBetweenTimesWindow(data, from, to);
    var r := SliceBetweenTimes(data, from, to);
    var lo := LowerBound(data, from);
    var hi := LowerBound(data, to);
    forall k | 0 <= k < |data| && from <= data[k].t <= to
      ensures lo <= k < lo + |r|
    {
      assert k <= hi;
      LowerBoundMonotone(data, from, to);
    }
  }

  /** Two samples sharing the timestamp `to`: only the first is in the slice. */
  lemma SliceDropsRepeatedEndTime()
    ensures var data := [Blank(5000), Blank(5000)];
            Sorted(data) && |SliceBetweenTimes(data, 5000, 5000)| == 1
  {
  }

  /** `getSliceAroundTime(data, time, before, after)`: the slice from `before` seconds before
      `time` to `after` seconds after it, a contiguous run of `data` whose elements but the last
      are before `time + after` seconds. */
  function SliceAroundTime(data: seq<Sample>, time: Time, before: int, after: int): (r: seq<Sample>)
    ensures var lo := LowerBound(data, time - before * MsPerSecond);
            forall i :: 0 <= i < |r| ==> lo + i < |data| && r[i] == data[lo + i]
    ensures forall i :: 0 <= i < |r| - 1 ==> r[i].t < time + after * MsPerSecond
  {
    SliceBetweenTimes(data, time - before * MsPerSecond, time + after * MsPerSecond)
  }

  /** With distinct timestamps the window around `time` holds every sample from `before` seconds
      before it to `after` seconds after it, and nothing else except possibly its last element. */
  lemma SliceAroundTimeWindow(data: seq<Sample>, time: Time, before: int, after: int)
    requires StrictlySorted(data)
    ensures var r := SliceAroundTime(data, time, before, after);
            && (forall k :: 0 <= k < |data| && time - before * MsPerSecond <= data[k].t <= time + after * MsPerSecond ==> data[k] in r)
            && (forall i :: 0 <= i < |r| - 1 ==> time - before * MsPerSecond <= r[i].t <= time + after * MsPerSecond)
  {
    var from, to := time - before * MsPerSecond, time + after * MsPerSecond;
    SliceBetweenTimesMembers(data, from, to);
    assert SliceAroundTime(data, time, before, after) == SliceBetweenTimes(data, from, to);
  }

  /** With distinct timestamps every sample in `[from, to]` is in the slice, and every element
      but the last lies in `[from, to]`. */
  lemma SliceBetweenTimesMembers(data: seq<Sample>, from: Time, to: Time)
    requires StrictlySorted(data)
    ensures var r := SliceBetweenTimes(data, from, to);
            && (forall k :: 0 <= k < |data| && from <= data[k].t <= to ==> data[k] in r)
            && (forall i :: 0 <= i < |r| - 1 ==> from <= r[i].t <= to)
  {
    SliceBetweenTimesStrict(data, from, to);
    var r := SliceBetweenTimes(data, from, to);
    var lo := LowerBound(data, from);
    forall k | 0 <= k < |data| && from <= data[k].t <= to
      ensures data[k] in r
    {
      assert r[k - lo] == data[k];
    }
  }
}
