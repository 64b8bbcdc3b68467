/** Python's `range(start, stop, step)`: its length and its elements. */
module PyRange {

  /** `len(range(start, stop, step))`; Python refuses a zero step, so it is excluded here. */
  function RangeLen(start: int, stop: int, step: int): nat
    requires step != 0
  {
    if step > 0 then (if start < stop then (stop - start - 1) / step + 1 else 0)
    else (if stop < start then (start - stop - 1) / (-step) + 1 else 0)
  }

  /** The elements of `range(start, stop, step)`, in iteration order. */
  function Range(start: int, stop: int, step: int): seq<int>
    requires step != 0
  {
    seq(RangeLen(start, stop, step), i => start + i * step)
  }

  lemma MulLe(a: int, b: int, c: nat)
    requires a <= b
    ensures a * c <= b * c
  {
    assert b * c - a * c == (b - a) * c;
  }

  /** A multiple of `b` that is at most `c` is at most `(c / b) * b`. */
  lemma MulBelowDiv(i: nat, b: int, c: int)
    requires b > 0 && i * b <= c
    ensures i <= c / b
  {
    if i > c / b {
      MulLe(c / b + 1, i, b);
    }
  }

  lemma ModOfMultiple(i: nat, b: int)
    requires b > 0
    ensures (i * b) % b == 0 && (i * b) / b == i
  {
    var q, r := (i * b) / b, (i * b) % b;
    assert i * b == q * b + r && 0 <= r < b;
    if q < i {
      MulLe(q + 1, i, b);
    } else if q > i {
      MulLe(i + 1, q, b);
    }
  }

  /** Element `i` of the range lies in `[start, stop)`, a whole number of steps from `start`. */
  lemma RangeElement(start: int, stop: int, step: int, i: nat)
    requires step > 0 && i < RangeLen(start, stop, step)
    ensures start <= start + i * step < stop && (i * step) % step == 0
  {
    ModOfMultiple(i, step);
    MulLe(i, (stop - start - 1) / step, step);
    assert (stop - start - 1) / step * step <= stop - start - 1;
  }

  /** A number in `[start, stop)` a whole number of steps from `start` is element `(x - start) / step`. */
  lemma RangeIndexOf(start: int, stop: int, step: int, x: int)
    requires step > 0 && start <= x < stop && (x - start) % step == 0
    ensures (x - start) / step < RangeLen(start, stop, step)
    ensures start + (x - start) / step * step == x
  {
    var i := (x - start) / step;
    assert i * step == x - start;
    MulBelowDiv(i, step, stop - start - 1);
  }

  /**
   * With a positive step, the range holds exactly the numbers in `[start, stop)` that are
   * reached from `start` in whole steps.
   */
  lemma RangeMembers(start: int, stop: int, step: int, x: int)
    requires step > 0
    ensures x in Range(start, stop, step) <==> start <= x < stop && (x - start) % step == 0
  {
    var r := Range(start, stop, step);
    if x in r {
      var i :| 0 <= i < |r| && r[i] == x;
      RangeElement(start, stop, step, i);
    }
    if start <= x < stop && (x - start) % step == 0 {
      RangeIndexOf(start, stop, step, x);
      assert r[(x - start) / step] == x;
    }
  }

  /** With a positive step the range ascends strictly, one step at a time. */
  lemma RangeAscends(start: int, stop: int, step: int)
    requires step > 0
    ensures var r := Range(start, stop, step);
      (r != [] ==> r[0] == start) &&
      (forall i :: 0 <= i < |r| - 1 ==> r[i + 1] == r[i] + step) &&
      (forall i, j :: 0 <= i < j < |r| ==> r[i] < r[j])
  {
    var r := Range(start, stop, step);
    forall i | 0 <= i < |r| - 1
      ensures r[i + 1] == r[i] + step
    {
      assert (i + 1) * step == i * step + step;
    }
    forall i, j | 0 <= i < j < |r|
      ensures r[i] < r[j]
    {
      MulLe(i + 1, j, step);
      assert (i + 1) * step == i * step + step;
    }
  }

  /** The count the add-on uses for a frame range: empty when `end < start`, else `(end - start) / step + 1`. */
  lemma FrameCount(start: int, end: int, step: int)
    requires step >= 1
    ensures RangeLen(start, end + 1, step) == if end < start then 0 else (end - start) / step + 1
  {
  }
}
