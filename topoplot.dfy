/** The topoplot window's arithmetic: how many head plots it draws for the
    predictions in the displayed window (or for one chosen time) and where
    they start, the grid of subplots they are laid out on, and the
    conversions between prediction bins and seconds. */
module Topoplot {
  import opened Common

  // ---------------------------------------------------------------------------
  // The subplot grid

  /** The largest r whose square is at most n, searching upwards from r. */
  function FloorSqrtFrom(n: nat, r: nat): (s: nat)
    requires r * r <= n
    ensures s * s <= n < (s + 1) * (s + 1)
    decreases n - r
  {
    if (r + 1) * (r + 1) <= n then FloorSqrtFrom(n, r + 1) else r
  }

  /** math.floor(math.sqrt(n)). */
  function FloorSqrt(n: nat): (s: nat)
    ensures s * s <= n < (s + 1) * (s + 1)
  {
    FloorSqrtFrom(n, 0)
  }

  lemma SquareMonotonic(a: nat, b: nat)
    requires a <= b
    ensures a * a <= b * b
  {
    assert a * a <= a * b <= b * b;
  }

  /** Only one number has its square at most n and the next square above n. */
  lemma FloorSqrtUnique(n: nat, s: nat)
    requires s * s <= n < (s + 1) * (s + 1)
    ensures FloorSqrt(n) == s
  {
    var t := FloorSqrt(n);
    if t < s {
      SquareMonotonic(t + 1, s);
    } else if s < t {
      SquareMonotonic(s + 1, t);
    }
  }

  /** _get_dim: floor(sqrt(n)) rows and as many columns as it takes to hold
      n plots; None where n is not positive (the square root or the division
      raises). */
  function GetDim(n: int): (r: Option<(int, int)>)
    ensures r.Some? <==> n >= 1
  {
    if n <= 0 then None
    else
      var rows := FloorSqrt(n);
      Some((rows, (n + rows - 1) / rows))
  }

  /** The grid holds all n plots with no column to spare, has as many rows
      as the whole square root of n, and is at least as wide as it is
      tall. */
  lemma GetDimFits(n: int)
    requires n >= 1
    ensures var (rows, cols) := GetDim(n).value;
      && rows * rows <= n < (rows + 1) * (rows + 1)
      && rows * cols >= n && rows * (cols - 1) < n
      && 1 <= rows <= cols
  {
    var rows := FloorSqrt(n);
    assert rows >= 1;
    var cols := (n + rows - 1) / rows;
    var m := (n + rows - 1) % rows;
    assert n + rows - 1 == cols * rows + m && 0 <= m < rows;
    assert rows * cols == n + rows - 1 - m;
    assert rows * (cols - 1) == rows * cols - rows;
    if cols < rows {
      assert rows * cols <= rows * (rows - 1);
    }
  }

  /** The grids the test suite expects: 45 plots on 6 by 8, 10 on 3 by 4,
      1 on 1 by 1. */
  lemma GetDimExamples()
    ensures GetDim(45) == Some((6, 8))
    ensures GetDim(10) == Some((3, 4))
    ensures GetDim(1) == Some((1, 1))
  {
    FloorSqrtUnique(45, 6);
    FloorSqrtUnique(10, 3);
    FloorSqrtUnique(1, 1);
  }

  // ---------------------------------------------------------------------------
  // The predictions in the displayed window

  /** The smallest multiple of width at or above lo, divided by width. */
  function CeilDiv(lo: int, width: int): (q: int)
    requires width >= 1
    ensures (q - 1) * width < lo <= q * width
  {
    var q := -((-lo) / width);
    assert (-lo) == ((-lo) / width) * width + (-lo) % width;
    q
  }

  /** The plots drawn for a window of ws seconds starting at count seconds,
      fs samples a second and predictions width samples wide: the
      predictions whose first sample lies in the window, as their number and
      the first one. None where no prediction starts in the window (the
      search leaves its result unset and the lookup raises). */
  function SubplotsOf(count: int, ws: int, width: int, fs: int): (r: Option<(int, int)>)
    requires width >= 1
    ensures r.Some? ==>
      var (num, start) := r.value;
      && count * fs <= start * width < (count + ws) * fs
      && (start - 1) * width < count * fs
      && (start + num - 1) * width < (count + ws) * fs <= (start + num) * width
  {
    var lo, hi := count * fs, (count + ws) * fs;
    var start := CeilDiv(lo, width);
    var end := CeilDiv(hi - width, width);
    if start * width < hi then Some((end - start + 1, start)) else None
  }

  /** When the window is at least one prediction wide, there is always at
      least one plot. */
  lemma SubplotsDefined(count: int, ws: int, width: int, fs: int)
    requires 1 <= width <= ws * fs
    ensures SubplotsOf(count, ws, width, fs).Some? && SubplotsOf(count, ws, width, fs).value.0 >= 1
  {
    var lo, hi := count * fs, (count + ws) * fs;
    assert hi == lo + ws * fs;
  }

  /** The counts the test suite expects at 256 samples a second and
      predictions two seconds wide: 5 plots from 0 for a 10-second window at
      0 s, 5 from 14 at 27 s, and 15 from 14 for a 30-second window at
      27 s. */
  lemma SubplotsExamples()
    ensures SubplotsOf(0, 10, 512, 256) == Some((5, 0))
    ensures SubplotsOf(27, 10, 512, 256) == Some((5, 14))
    ensures SubplotsOf(27, 30, 512, 256) == Some((15, 14))
  {
    assert CeilDiv(0, 512) == 0;
    assert CeilDiv(2048, 512) == 4;
    assert CeilDiv(6912, 512) == 14;
    assert CeilDiv(8960, 512) == 18;
    assert CeilDiv(14080, 512) == 28;
  }

  /** The first i in lo..hi-1 divisible by width, divided by width, as the
      loop that breaks at it finds it; None where there is none. */
  method FirstMultiple(lo: int, hi: int, width: int) returns (q: Option<int>)
    requires width >= 1
    ensures q.Some? ==> lo <= q.value * width < hi && (q.value - 1) * width < lo
    ensures q.None? <==> CeilDiv(lo, width) * width >= hi
  {
    var i := lo;
    while i < hi
      invariant lo <= i <= if lo <= hi then hi else lo
      invariant forall j :: lo <= j < i ==> j % width != 0
      decreases hi - i
    {
      if i % width == 0 {
        FirstMultipleFound(lo, i, width);
        return Some(i / width);
      }
      i := i + 1;
    }
    NoMultipleBelow(lo, i, width);
    return None;
  }

  lemma FirstMultipleFound(lo: int, i: int, width: int)
    requires width >= 1 && lo <= i && i % width == 0
    requires forall j :: lo <= j < i ==> j % width != 0
    ensures i == (i / width) * width && CeilDiv(lo, width) == i / width
  {
    var k := i / width;
    assert i == k * width;
    MultipleMod(k - 1, width);
    CeilDivUnique(lo, width, k);
  }

  lemma NoMultipleBelow(lo: int, hi: int, width: int)
    requires width >= 1
    requires forall j :: lo <= j < hi ==> j % width != 0
    ensures CeilDiv(lo, width) * width >= hi
  {
    MultipleMod(CeilDiv(lo, width), width);
  }

  // ---------------------------------------------------------------------------
  // Times and prediction bins

  /** _get_time: the second at which prediction start + i begins. */
  function GetTime(start: int, i: int, predWidth: real, fs: real): (t: real)
    requires fs != 0.0
    ensures t * fs == (start + i) as real * predWidth
  {
    (start + i) as real * predWidth / fs
  }

  /** _get_pred_sample_from_time: the prediction bin a time falls in,
      truncated toward zero. */
  function PredSampleFromTime(time: real, predWidth: real, fs: real): (k: int)
    requires predWidth != 0.0
    ensures time * fs / predWidth >= 0.0 ==> k as real <= time * fs / predWidth < k as real + 1.0
  {
    Trunc(time * fs / predWidth)
  }

  /** The time a prediction begins converts back to that prediction. */
  lemma TimeRoundTrip(start: int, i: int, predWidth: real, fs: real)
    requires fs != 0.0 && predWidth != 0.0 && start + i >= 0
    ensures PredSampleFromTime(GetTime(start, i, predWidth, fs), predWidth, fs) == start + i
  {
    var x := (start + i) as real;
    var t := GetTime(start, i, predWidth, fs);
    var y := t * fs / predWidth;
    assert y * predWidth == t * fs == x * predWidth;
    assert (y - x) * predWidth == 0.0;
    assert y == x;
    PredSampleOfWhole(t, predWidth, fs, start + i);
  }

  lemma PredSampleOfWhole(time: real, predWidth: real, fs: real, n: nat)
    requires predWidth != 0.0 && time * fs / predWidth == n as real
    ensures PredSampleFromTime(time, predWidth, fs) == n
  {
    TruncOfNat(n);
  }

  /** The bins the test suite expects at 256 samples a second and
      predictions two seconds wide: 0.1 s is bin 0 and 27.2 s is bin 13. */
  lemma PredSampleExamples()
    ensures PredSampleFromTime(0.1, 512.0, 256.0) == 0
    ensures PredSampleFromTime(27.2, 512.0, 256.0) == 13
  {
  }

  // ---------------------------------------------------------------------------
  // The window

  class SaveTopoplotOptions {
    /** Whether one time is plotted instead of the whole window. */
    var plotSingleTime: bool
    /** The prediction bin plotted when one time is. */
    var plotAtTime: int

    /** The window opens plotting the whole window, with the single time set
        to the bin of the topoplot line (given in seconds). */
    constructor (lineTime: real, predWidth: real, fs: real)
      requires predWidth != 0.0
      ensures !plotSingleTime && plotAtTime == PredSampleFromTime(lineTime, predWidth, fs)
    {
      plotSingleTime := false;
      plotAtTime := PredSampleFromTime(lineTime, predWidth, fs);
    }

    /** toggle_plot_single_time: follows the check box and takes the bin of
        the time in the spin box. */
    method TogglePlotSingleTime(checked: bool, time: real, predWidth: real, fs: real)
      requires predWidth != 0.0
      modifies this
      ensures plotSingleTime == checked && plotAtTime == PredSampleFromTime(time, predWidth, fs)
    {
      plotSingleTime := checked;
      plotAtTime := PredSampleFromTime(time, predWidth, fs);
    }

    /** _get_num_subplots: one plot at the chosen bin for a single time;
        otherwise the predictions starting in the displayed window, as
        SubplotsOf describes; None where the search finds none. */
    method GetNumSubplots(count: int, ws: int, width: int, fs: int) returns (r: Option<(int, int)>)
      requires width >= 1
      ensures plotSingleTime ==> r == Some((1, plotAtTime))
      ensures !plotSingleTime ==> r == SubplotsOf(count, ws, width, fs)
    {
      if plotSingleTime {
        return Some((1, plotAtTime));
      }
      var hi := (count + ws) * fs;
      var start := FirstMultiple(count * fs, hi, width);
      var end := FirstMultiple(hi - width, hi, width);
      if start.None? || end.None? {
        return None;
      }
      CeilDivUnique(count * fs, width, start.value);
      CeilDivUnique(hi - width, width, end.value);
      r := Some((end.value - start.value + 1, start.value));
    }
  }

  /** Only one multiple of width lies in lo..lo+width-1. */
  lemma CeilDivUnique(lo: int, width: int, q: int)
    requires width >= 1
    requires (q - 1) * width < lo <= q * width
    ensures CeilDiv(lo, width) == q
  {
    var c := CeilDiv(lo, width);
    MulMonotone(c, q - 1, width);
    MulMonotone(q, c - 1, width);
  }

  lemma MulMonotone(a: int, b: int, w: int)
    requires w >= 1
    ensures a <= b ==> a * w <= b * w
  {
    if a <= b {
      assert b * w == a * w + (b - a) * w;
    }
  }

  /** A multiple of w leaves no remainder. */
  lemma MultipleMod(k: int, w: int)
    requires w >= 1
    ensures (k * w) % w == 0
  {
    var r := (k * w) % w;
    var d := (k * w) / w;
    assert k * w == d * w + r && 0 <= r < w;
    assert (k - d) * w == r;
    MulMonotone(k - d, 0, w);
    MulMonotone(1, k - d, w);
  }
}
