/** The scroll positions of a full-page capture (src/agent_runtime/computer_use.py,
    _result_section_scroll_offsets).

    `scaled` is int(viewport_height * 0.85): of the float product only its range is used. */
module ScrollOffsets {
  import opened Common
  import opened Sorting

  const MAX_OFFSETS: nat := 8

  /** The k-th stop of a page: every `step` pixels, the last one at the bottom. */
  function Stop(bottom: nat, step: nat, k: nat): int { Min(bottom, k * step) }

  /** How many stops a page has: one at 0 and one for each started step down to the bottom. */
  function Stops(bottom: nat, step: nat): nat
    requires step > 0
  {
    (bottom + step - 1) / step + 1
  }

  /** round(index * (n - 1) / 7); a seventh is never halfway between two integers. */
  function Picked(index: nat, n: nat): int { (2 * (index * (n - 1)) + 7) / 14 }

  function Height(viewport: int): int { Max(300, viewport) }

  function Bottom(viewport: int, scroll: int): nat { Max(Height(viewport), scroll) - Height(viewport) }

  /** The stops, thinned out to eight when there are more. */
  function Offsets(bottom: nat, step: nat): (r: seq<int>)
    requires step > 0
  {
    var n := Stops(bottom, step);
    if n <= MAX_OFFSETS then seq(n, k requires 0 <= k < n => Stop(bottom, step, k))
    else seq(MAX_OFFSETS, i requires 0 <= i < MAX_OFFSETS => Stop(bottom, step, Max(0, Picked(i, n))))
  }

  /* ---- arithmetic of the stops ---- */

  lemma MulMono(a: int, b: int, step: int)
    requires a <= b && step > 0
    ensures a * step <= b * step && (b - a) * step == b * step - a * step
  {
    assert (b - a) * step >= 0;
  }

  lemma MulLess(a: int, b: int, step: int)
    requires a * step < b * step && step > 0
    ensures a < b
  {
    if b <= a {
      MulMono(b, a, step);
    }
  }

  /** The last stop is the first multiple of the step that reaches the bottom. */
  lemma LastStop(bottom: nat, step: nat)
    requires step > 0
    ensures var n := Stops(bottom, step);
            (n - 1) * step >= bottom && (n > 1 ==> (n - 2) * step < bottom) && (n == 1 <==> bottom == 0)
  {
    var q := (bottom + step - 1) / step;
    assert bottom + step - 1 == q * step + (bottom + step - 1) % step;
    assert (q - 1) * step == q * step - step;
    if bottom == 0 && q > 0 {
      MulMono(1, q, step);
    }
  }

  /** Consecutive stops differ by at least one pixel and at most one step. */
  lemma StopsAscend(bottom: nat, step: nat, i: nat, j: nat)
    requires step > 0 && i < j < Stops(bottom, step)
    ensures Stop(bottom, step, i) < Stop(bottom, step, j)
    ensures j == i + 1 ==> Stop(bottom, step, j) - Stop(bottom, step, i) <= step
  {
    LastStop(bottom, step);
    MulMono(i, Stops(bottom, step) - 2, step);
    MulMono(i + 1, j, step);
    assert (i + 1) * step == i * step + step;
  }

  lemma StopAtEnd(bottom: nat, step: nat, k: nat)
    requires step > 0 && k + 1 >= Stops(bottom, step)
    ensures Stop(bottom, step, k) == bottom
  {
    LastStop(bottom, step);
    MulMono(Stops(bottom, step) - 1, k, step);
  }

  /* ---- rounding ---- */

  /** With more than eight stops the eight rounded indexes run from the first to the last,
      strictly ascending. */
  lemma PicksAscend(n: nat)
    requires n > MAX_OFFSETS
    ensures Picked(0, n) == 0 && Picked(7, n) == n - 1
    ensures forall i, j :: 0 <= i < j < MAX_OFFSETS ==> Picked(i, n) < Picked(j, n)
    ensures forall i :: 0 <= i < MAX_OFFSETS ==> 0 <= Picked(i, n) < n
  {
    forall i, j | 0 <= i < j < MAX_OFFSETS
      ensures Picked(i, n) < Picked(j, n)
    {
      MulMono(i + 1, j, n - 1);
      assert (i + 1) * (n - 1) == i * (n - 1) + (n - 1);
    }
    forall i | 0 <= i < MAX_OFFSETS
      ensures 0 <= Picked(i, n) < n
    {
      MulMono(i, 7, n - 1);
    }
  }

  /* ---- what the offsets are for ---- */

  ghost predicate Ascends(s: seq<int>) {
    forall i, j :: 0 <= i < j < |s| ==> s[i] < s[j]
  }

  /** The offsets ascend strictly from the top of the page to its bottom; there are at most
      eight, and fewer only when the page has fewer stops. */
  lemma OffsetsSpanThePage(bottom: nat, step: nat)
    requires step > 0
    ensures var r := Offsets(bottom, step);
            && Ascends(r) && |r| == Min(Stops(bottom, step), MAX_OFFSETS) && 0 < |r|
            && r[0] == 0 && r[|r| - 1] == bottom
            && (forall i :: 0 <= i < |r| ==> 0 <= r[i] <= bottom)
  {
    var n, r := Stops(bottom, step), Offsets(bottom, step);
    LastStop(bottom, step);
    StopAtEnd(bottom, step, n - 1);
    if n > MAX_OFFSETS {
      PicksAscend(n);
    }
    forall i, j | 0 <= i < j < |r|
      ensures r[i] < r[j]
    {
      if n <= MAX_OFFSETS {
        StopsAscend(bottom, step, i, j);
      } else {
        StopsAscend(bottom, step, Picked(i, n), Picked(j, n));
      }
    }
  }

  /** Pixel row `y` is inside the viewport of some offset. */
  ghost predicate Captured(offsets: seq<int>, height: nat, y: int) {
    exists i :: 0 <= i < |offsets| && offsets[i] <= y < offsets[i] + height
  }

  lemma NoGaps(bottom: nat, step: nat, height: nat, y: nat)
    requires 0 < step <= height && Stops(bottom, step) <= MAX_OFFSETS && y < bottom + height
    ensures Captured(Offsets(bottom, step), height, y)
  {
    var r := Offsets(bottom, step);
    OffsetsSpanThePage(bottom, step);
    var i := |r| - 1;
    while r[i] > y
      invariant 0 <= i < |r| && y < r[i] + height
      decreases i
    {
      StopsAscend(bottom, step, i - 1, i);
      i := i - 1;
    }
  }

  /** Thinning skips a stop before the last one: the fifth of nine, the third of ten or
      eleven, and the second of more. */
  lemma SkippedStop(n: nat) returns (i: nat)
    requires n > MAX_OFFSETS
    ensures i < 6 && Picked(i + 1, n) >= Picked(i, n) + 2 && Picked(i + 1, n) <= n - 2
  {
    i := if n == 9 then 3 else if n <= 11 then 1 else 0;
    assert 1 * (n - 1) == n - 1 && 2 * (n - 1) == n - 1 + (n - 1);
  }

  lemma GapAfterThinning(bottom: nat, step: nat, height: nat)
    requires step <= height < 2 * step && Stops(bottom, step) > MAX_OFFSETS
    ensures exists y :: 0 <= y < bottom + height && !Captured(Offsets(bottom, step), height, y)
  {
    var n, r := Stops(bottom, step), Offsets(bottom, step);
    OffsetsSpanThePage(bottom, step);
    PicksAscend(n);
    var i := SkippedStop(n);
    StopsAreTwoStepsApart(bottom, step, Picked(i, n), Picked(i + 1, n));
    var y := r[i] + height;
    assert r[i + 1] > y;
    forall k | 0 <= k < |r|
      ensures !(r[k] <= y < r[k] + height)
    {
      if k > i + 1 {
        assert r[k] > r[i + 1];
      } else if k < i {
        assert r[k] < r[i];
      }
    }
    assert !Captured(r, height, y);
  }

  lemma StopsAreTwoStepsApart(bottom: nat, step: nat, a: nat, b: nat)
    requires step > 0 && a + 2 <= b <= Stops(bottom, step) - 2
    ensures Stop(bottom, step, b) - Stop(bottom, step, a) >= 2 * step
  {
    LastStop(bottom, step);
    MulMono(a + 2, b, step);
    MulMono(b, Stops(bottom, step) - 2, step);
    assert (a + 2) * step == a * step + 2 * step;
  }

  lemma StopsBound(bottom: nat, step: nat)
    requires step > 0
    ensures Stops(bottom, step) <= MAX_OFFSETS <==> bottom <= 7 * step
  {
    var n := Stops(bottom, step);
    LastStop(bottom, step);
    if n <= MAX_OFFSETS {
      MulMono(n - 1, 7, step);
    } else {
      MulMono(7, n - 2, step);
    }
  }

  /** The offsets capture every pixel row of the page if and only if its bottom is at most
      seven steps down; the viewport is between one and two steps high. */
  lemma CapturedWholeIff(bottom: nat, step: nat, height: nat)
    requires step <= height < 2 * step
    ensures (forall y :: 0 <= y < bottom + height ==> Captured(Offsets(bottom, step), height, y))
         <==> bottom <= 7 * step
  {
    StopsBound(bottom, step);
    if bottom <= 7 * step {
      forall y | 0 <= y < bottom + height
        ensures Captured(Offsets(bottom, step), height, y)
      {
        NoGaps(bottom, step, height, y);
      }
    } else {
      GapAfterThinning(bottom, step, height);
    }
  }

  /** With a viewport of 300 pixels and steps of 255, a page of 2086 pixels has an uncaptured row. */
  lemma GapExample()
    ensures exists y :: 0 <= y < 2086 && !Captured(Offsets(Bottom(300, 2086), 255), 300, y)
  {
    assert Bottom(300, 2086) == 1786;
    CapturedWholeIff(1786, 255, 300);
    var y :| 0 <= y < 2086 && !Captured(Offsets(1786, 255), 300, y);
  }

  /* ---- the computation ---- */

  method Range(stop: nat, step: nat) returns (r: seq<int>)
    requires step > 0
    ensures forall k :: 0 <= k < |r| ==> r[k] == k * step && r[k] < stop
    ensures |r| * step >= stop
  {
    r := [];
    var x := 0;
    while x < stop
      invariant x == |r| * step
      invariant forall k :: 0 <= k < |r| ==> r[k] == k * step && r[k] < stop
      decreases stop - x
    {
      r := r + [x];
      x := x + step;
    }
  }

  /** Clamp every offset into [0, bottom] and drop repetitions, keeping first occurrences. */
  method ClampDistinct(raw: seq<int>, bottom: nat, step: nat) returns (r: seq<int>)
    requires step > 0 && |raw| >= Stops(bottom, step)
    requires forall k :: 0 <= k < |raw| ==> raw[k] == k * step || (raw[k] == bottom && k + 1 >= Stops(bottom, step))
    ensures |r| == Stops(bottom, step)
    ensures forall k :: 0 <= k < |r| ==> r[k] == Stop(bottom, step, k)
  {
    var n := Stops(bottom, step);
    r := [];
    for i := 0 to |raw|
      invariant |r| == Min(i, n)
      invariant forall k :: 0 <= k < |r| ==> r[k] == Stop(bottom, step, k)
    {
      var offset := Max(0, Min(bottom, raw[i]));
      if i + 1 >= n {
        StopAtEnd(bottom, step, i);
        StopAtEnd(bottom, step, n - 1);
      }
      assert offset == Stop(bottom, step, i);
      if i < n {
        forall k | 0 <= k < |r|
          ensures r[k] != offset
        {
          StopsAscend(bottom, step, k, i);
        }
      } else {
        assert r[n - 1] == offset;
      }
      if offset !in r {
        r := r + [offset];
      }
    }
  }

  method ResultSectionScrollOffsets(viewport: int, scroll: int, scaled: int) returns (offsets: seq<int>)
    requires scaled <= Height(viewport)
    ensures offsets == Offsets(Bottom(viewport, scroll), Max(250, scaled))
  {
    var viewportHeight := Max(300, viewport);
    var scrollHeight := Max(viewportHeight, scroll);
    var step := Max(250, scaled);
    offsets := Range(scrollHeight, step);
    var bottom := Max(0, scrollHeight - viewportHeight);
    RangeReachesBottom(|offsets|, scrollHeight, bottom, step);
    if bottom !in offsets {
      offsets := offsets + [bottom];
    }
    offsets := ClampDistinct(offsets, bottom, step);
    StopsAreSorted(offsets, bottom, step);
    offsets := Sorted(offsets, x => x);
    if |offsets| <= MAX_OFFSETS {
      return;
    }
    offsets := Pick(offsets);
  }

  lemma RangeReachesBottom(count: nat, scroll: nat, bottom: nat, step: nat)
    requires step > 0 && count * step >= scroll >= bottom + step
    ensures count >= Stops(bottom, step)
  {
    var n := Stops(bottom, step);
    LastStop(bottom, step);
    if n > 1 {
      assert (n - 2) * step + step == (n - 1) * step;
      MulLess(n - 1, count, step);
    } else {
      MulLess(0, count, step);
    }
  }

  lemma StopsAreSorted(stops: seq<int>, bottom: nat, step: nat)
    requires step > 0 && |stops| == Stops(bottom, step)
    requires forall k :: 0 <= k < |stops| ==> stops[k] == Stop(bottom, step, k)
    ensures Sorted(stops, x => x) == stops
  {
    forall i, j | 0 <= i <= j < |stops|
      ensures stops[i] <= stops[j]
    {
      if i < j {
        StopsAscend(bottom, step, i, j);
      }
    }
    SortedIsFixed(stops, x => x);
  }

  /** The rounded indexes, without repetitions and in order, select the offsets kept. */
  method Pick(stops: seq<int>) returns (r: seq<int>)
    requires |stops| > MAX_OFFSETS
    ensures |r| == MAX_OFFSETS
    ensures forall i :: 0 <= i < MAX_OFFSETS ==> 0 <= Picked(i, |stops|) < |stops| && r[i] == stops[Picked(i, |stops|)]
  {
    var n := |stops|;
    PicksAscend(n);
    var indexes: seq<int> := [];
    for i := 0 to MAX_OFFSETS
      invariant |indexes| == i
      invariant forall k :: 0 <= k < i ==> indexes[k] == Picked(k, n)
    {
      if Picked(i, n) !in indexes {
        indexes := indexes + [Picked(i, n)];
      }
    }
    SortedIsFixed(indexes, x => x);
    indexes := Sorted(indexes, x => x);
    r := seq(MAX_OFFSETS, i requires 0 <= i < MAX_OFFSETS => stops[indexes[i]]);
  }
}
