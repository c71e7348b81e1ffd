/**
 * The array bookkeeping shared by the two forecasting scripts (Gaussian process
 * and support vector regression): the training inputs 0..n-1, the centred
 * moving averages built from an edge-padded series and a valid convolution
 * with an all-ones window, the fourteen forecast inputs and dates, and the
 * confidence band laid over dates followed by forecast dates.
 */
module Forecast {
  import opened Wrappers
  import opened Calendar

  // ---------------------------------------------------------------------------
  // np.arange

  /** `np.arange(lo, hi)`: lo, lo + 1, ..., hi - 1 (empty when hi <= lo). */
  function Arange(lo: int, hi: int): (r: seq<int>)
    ensures |r| == if hi <= lo then 0 else hi - lo
    ensures forall i :: 0 <= i < |r| ==> r[i] == lo + i
    decreases hi - lo
  {
    if hi <= lo then [] else [lo] + Arange(lo + 1, hi)
  }

  /** The training inputs: one index per date row, counting from 0. */
  function TrainingInputs(n: nat): seq<int> {
    Arange(0, n)
  }

  // ---------------------------------------------------------------------------
  // np.pad(y, k, mode='edge')

  function Clamp(j: int, lo: int, hi: int): int
    requires lo <= hi
  {
    if j < lo then lo else if j > hi then hi else j
  }

  function Repeat(x: int, k: nat): (r: seq<int>)
    ensures |r| == k && forall i :: 0 <= i < k ==> r[i] == x
  {
    seq(k, _ => x)
  }

  /** `k` copies of the first value, the series, `k` copies of the last value:
      position i holds the series value at i - k, clamped into range. */
  function PadEdge(y: seq<int>, k: nat): (p: seq<int>)
    requires |y| >= 1
    ensures |p| == |y| + 2 * k
    ensures forall i :: 0 <= i < |p| ==> p[i] == y[Clamp(i - k, 0, |y| - 1)]
  {
    Repeat(y[0], k) + y + Repeat(y[|y| - 1], k)
  }

  // ---------------------------------------------------------------------------
  // np.convolve(a, w, mode='valid')

  /** The first `m` terms of the convolution sum at output `i`: the window is
      applied flipped, a[i + j] meeting w[|w| - 1 - j]. */
  function ConvolveTerms(a: seq<int>, w: seq<int>, i: nat, m: nat): int
    requires m <= |w| && i + |w| <= |a|
  {
    if m == 0 then 0 else ConvolveTerms(a, w, i, m - 1) + a[i + m - 1] * w[|w| - m]
  }

  /** The same sum with the window not flipped (a correlation). */
  function CorrelateTerms(a: seq<int>, w: seq<int>, i: nat, m: nat): int
    requires m <= |w| && i + |w| <= |a|
  {
    if m == 0 then 0 else CorrelateTerms(a, w, i, m - 1) + a[i + m - 1] * w[m - 1]
  }

  /** Valid mode: one output per position where the window fits entirely. */
  function ConvolveValid(a: seq<int>, w: seq<int>): (r: seq<int>)
    requires 1 <= |w| <= |a|
    ensures |r| == |a| - |w| + 1
  {
    seq(|a| - |w| + 1, i requires 0 <= i < |a| - |w| + 1 => ConvolveTerms(a, w, i, |w|))
  }

  predicate Symmetric(w: seq<int>) {
    forall j :: 0 <= j < |w| ==> w[j] == w[|w| - 1 - j]
  }

  /** For a symmetric window the flip of the convolution makes no difference. */
  lemma {:induction false} ConvolveSymmetric(a: seq<int>, w: seq<int>, i: nat, m: nat)
    requires Symmetric(w) && m <= |w| && i + |w| <= |a|
    ensures ConvolveTerms(a, w, i, m) == CorrelateTerms(a, w, i, m)
    decreases m
  {
    if m > 0 {
      ConvolveSymmetric(a, w, i, m - 1);
      assert w[|w| - m] == w[m - 1];
    }
  }

  // ---------------------------------------------------------------------------
  // series[:-k]

  /** Python's `s[:-k]` for k >= 1: all but the last k elements, or nothing. */
  function DropLast<T>(s: seq<T>, k: nat): (r: seq<T>)
    requires k >= 1
    ensures |r| == if |s| >= k then |s| - k else 0
    ensures forall i :: 0 <= i < |r| ==> r[i] == s[i]
  {
    if |s| >= k then s[..|s| - k] else []
  }

  // ---------------------------------------------------------------------------
  // The moving windows drawn over the observed series

  /** Half-widths of the two averages: 7 = 2 * 3 + 1 and 31 = 2 * 15 + 1 days. */
  const WeekHalf: nat := 3
  const MonthHalf: nat := 15

  /** The summed window of the plotted average: pad by k, convolve with 2k + 1
      ones, keep the valid part and drop the last k entries. */
  function MovingSum(y: seq<int>, k: nat): seq<int>
    requires |y| >= 1 && k >= 1
  {
    DropLast(ConvolveValid(PadEdge(y, k), Repeat(1, 2 * k + 1)), k)
  }

  /** Sum of y over the `m` positions from `lo` on, each position clamped into
      the series (so days before the start count as the first day, days after
      the end as the last). */
  function ClampedWindow(y: seq<int>, lo: int, m: nat): int
    requires |y| >= 1
  {
    if m == 0 then 0 else ClampedWindow(y, lo, m - 1) + y[Clamp(lo + m - 1, 0, |y| - 1)]
  }

  lemma {:induction false} PaddedConvolution(y: seq<int>, k: nat, i: nat, m: nat)
    requires |y| >= 1 && i < |y| && m <= 2 * k + 1
    ensures ConvolveTerms(PadEdge(y, k), Repeat(1, 2 * k + 1), i, m) == ClampedWindow(y, i - k, m)
    decreases m
  {
    if m > 0 {
      PaddedConvolution(y, k, i, m - 1);
    }
  }

  /** The moving sum has one entry per day except the last k, and entry i is
      the sum over the 2k + 1 days centred on day i, clamped at both ends. */
  lemma MovingSumSpec(y: seq<int>, k: nat)
    requires |y| >= 1 && k >= 1
    ensures var r := MovingSum(y, k);
            && |r| == (if |y| >= k then |y| - k else 0)
            && forall i :: 0 <= i < |r| ==> r[i] == ClampedWindow(y, i - k, 2 * k + 1)
  {
    var r := MovingSum(y, k);
    forall i | 0 <= i < |r|
      ensures r[i] == ClampedWindow(y, i - k, 2 * k + 1)
    {
      PaddedConvolution(y, k, i, 2 * k + 1);
    }
  }

  lemma {:induction false} ClampedWindowConstant(y: seq<int>, c: int, lo: int, m: nat)
    requires |y| >= 1 && forall j :: 0 <= j < |y| ==> y[j] == c
    ensures ClampedWindow(y, lo, m) == m * c
    decreases m
  {
    if m > 0 {
      ClampedWindowConstant(y, c, lo, m - 1);
    }
  }

  /** The plotted average: each window sum divided by the window width. */
  function MovingAverage(y: seq<int>, k: nat): (r: seq<real>)
    requires |y| >= 1 && k >= 1
    ensures |r| == |MovingSum(y, k)|
  {
    var s := MovingSum(y, k);
    seq(|s|, i requires 0 <= i < |s| => s[i] as real / (2 * k + 1) as real)
  }

  /** A constant series averages to itself everywhere. */
  lemma MovingAverageConstant(y: seq<int>, c: int, k: nat)
    requires |y| >= 1 && k >= 1 && forall j :: 0 <= j < |y| ==> y[j] == c
    ensures forall i :: 0 <= i < |MovingAverage(y, k)| ==> MovingAverage(y, k)[i] == c as real
  {
    MovingSumSpec(y, k);
    var s := MovingSum(y, k);
    forall i | 0 <= i < |s|
      ensures MovingAverage(y, k)[i] == c as real
    {
      ClampedWindowConstant(y, c, i - k, 2 * k + 1);
      assert s[i] == (2 * k + 1) * c;
    }
  }

  /** One plotted average curve: the dates without their last k and the
      averages; None where padding an empty series fails. */
  function AverageCurve(dates: seq<Date>, y: seq<int>, k: nat): Option<(seq<Date>, seq<real>)>
    requires k >= 1
  {
    if |y| == 0 then None else Some((DropLast(dates, k), MovingAverage(y, k)))
  }

  /** With one value per date, the curve has as many dates as averages, and
      the average drawn at date i is centred on day i: the plot never pairs
      an average with another day. */
  lemma AverageCurveAligned(dates: seq<Date>, y: seq<int>, k: nat)
    requires k >= 1 && |dates| == |y|
    ensures AverageCurve(dates, y, k).None? <==> |y| == 0
    ensures AverageCurve(dates, y, k).Some? ==>
              var (ds, avg) := AverageCurve(dates, y, k).value;
              && |ds| == |avg| == (if |y| >= k then |y| - k else 0)
              && forall i :: 0 <= i < |ds| ==>
                   ds[i] == dates[i] && avg[i] == ClampedWindow(y, i - k, 2 * k + 1) as real / (2 * k + 1) as real
  {
    if |y| > 0 {
      MovingSumSpec(y, k);
    }
  }

  /** The two plotted curves: a 7-day average over all dates but the last 3,
      and a 31-day average over all dates but the last 15. */
  lemma WeekAndMonthCurves(dates: seq<Date>, y: seq<int>)
    requires |dates| == |y| >= 1
    ensures 2 * WeekHalf + 1 == 7 && 2 * MonthHalf + 1 == 31
    ensures |AverageCurve(dates, y, WeekHalf).value.1| == (if |y| >= 3 then |y| - 3 else 0)
    ensures |AverageCurve(dates, y, MonthHalf).value.1| == (if |y| >= 15 then |y| - 15 else 0)
  {
    AverageCurveAligned(dates, y, WeekHalf);
    AverageCurveAligned(dates, y, MonthHalf);
  }

  // ---------------------------------------------------------------------------
  // Forecast inputs and dates for the fourteen days after the last observation

  const DaysToPredict: nat := 14

  /** `np.arange(x[-1], x[-1] + 14)`; None where `x` is empty and `x[-1]` fails. */
  function ForecastInputs(x: seq<int>): Option<seq<int>> {
    if x == [] then None else Some(Arange(x[|x| - 1], x[|x| - 1] + DaysToPredict))
  }

  /** From the training inputs 0..n-1 the forecast inputs are n-1..n+12: the
      first repeats the last training input and the rest follow it one by one. */
  lemma ForecastInputsSpec(n: nat)
    ensures ForecastInputs(TrainingInputs(n)).None? <==> n == 0
    ensures n >= 1 ==>
              var f := ForecastInputs(TrainingInputs(n)).value;
              && |f| == DaysToPredict
              && f[0] == TrainingInputs(n)[n - 1]
              && forall i :: 0 <= i < |f| ==> f[i] == n - 1 + i
  {
  }

  /** `[last + i days for i in range(14)]`; None where there is no last date. */
  function ForecastDates(dates: seq<Date>): Option<seq<Date>>
    requires dates == [] || Valid(dates[|dates| - 1])
  {
    if dates == [] then None
    else Some(seq(DaysToPredict, i requires 0 <= i < DaysToPredict => AddDays(dates[|dates| - 1], i)))
  }

  /** The forecast dates start on the last observed date and run day by day:
      date i lies exactly i days after it, and each is the calendar successor
      of the one before. */
  lemma ForecastDatesSpec(dates: seq<Date>)
    requires dates == [] || Valid(dates[|dates| - 1])
    ensures ForecastDates(dates).None? <==> dates == []
    ensures dates != [] ==>
              var last := dates[|dates| - 1];
              var f := ForecastDates(dates).value;
              && |f| == DaysToPredict
              && f[0] == last
              && (forall i :: 0 <= i < |f| ==> Valid(f[i]) && DayNumber(f[i]) == DayNumber(last) + i)
              && (forall i :: 0 <= i < |f| - 1 ==> f[i + 1] == NextDay(f[i]))
  {
    if dates != [] {
      var last := dates[|dates| - 1];
      forall i | 0 <= i < DaysToPredict
        ensures DayNumber(AddDays(last, i)) == DayNumber(last) + i
      {
        AddDaysNumber(last, i);
      }
    }
  }

  /** Forecast input i and forecast date i are the same distance from the last
      observation, so each prediction is drawn at the day it predicts. */
  lemma ForecastAligned(dates: seq<Date>)
    requires dates != [] && Valid(dates[|dates| - 1])
    ensures var x := TrainingInputs(|dates|);
            var fx := ForecastInputs(x).value;
            var fd := ForecastDates(dates).value;
            && |fx| == |fd|
            && forall i :: 0 <= i < |fx| ==>
                 fx[i] - x[|x| - 1] == DayNumber(fd[i]) - DayNumber(dates[|dates| - 1])
  {
    ForecastInputsSpec(|dates|);
    ForecastDatesSpec(dates);
  }

  // ---------------------------------------------------------------------------
  // The confidence band of the Gaussian-process forecast

  /** `fit - 2 * sd` or `fit + 2 * sd`, element by element. */
  function Shift(fit: seq<real>, sd: seq<real>, sign: real): (r: seq<real>)
    requires |fit| == |sd|
    ensures |r| == |fit|
  {
    seq(|fit|, i requires 0 <= i < |fit| => fit[i] + sign * 2.0 * sd[i])
  }

  datatype Band = Band(axis: seq<Date>, lower: seq<real>, upper: seq<real>)

  /** The fill between the fitted and predicted curves less and plus twice their
      standard deviations, over the dates followed by the forecast dates. */
  function ConfidenceBand(dates: seq<Date>, fit: seq<real>, sd: seq<real>,
                          forecastDates: seq<Date>, pred: seq<real>, predSd: seq<real>): Band
    requires |fit| == |sd| && |pred| == |predSd|
  {
    Band(dates + forecastDates, Shift(fit, sd, -1.0) + Shift(pred, predSd, -1.0),
         Shift(fit, sd, 1.0) + Shift(pred, predSd, 1.0))
  }

  /** With one fitted value per date and one prediction per forecast date, the
      band's axis and both bounds have n + 14 entries; the bounds lie either
      side of the model curve, centred on it, since deviations are never
      negative. */
  lemma ConfidenceBandShape(dates: seq<Date>, fit: seq<real>, sd: seq<real>,
                            forecastDates: seq<Date>, pred: seq<real>, predSd: seq<real>)
    requires |fit| == |sd| == |dates| && |pred| == |predSd| == |forecastDates| == DaysToPredict
    requires forall i :: 0 <= i < |sd| ==> sd[i] >= 0.0
    requires forall i :: 0 <= i < |predSd| ==> predSd[i] >= 0.0
    ensures var b := ConfidenceBand(dates, fit, sd, forecastDates, pred, predSd);
            && |b.axis| == |b.lower| == |b.upper| == |dates| + DaysToPredict
            && forall i :: 0 <= i < |b.axis| ==>
                 b.lower[i] <= (fit + pred)[i] <= b.upper[i] &&
                 (b.lower[i] + b.upper[i]) / 2.0 == (fit + pred)[i]
  {
  }
}
