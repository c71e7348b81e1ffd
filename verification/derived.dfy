/**
 * The integer series the tracker derives from the collected records: the daily
 * number of new tests (differences of the cumulative test count, with the first
 * day set to zero) and the number of new positives over the last seven days.
 */
module Derived {

  /** Sum of a series, adding the last element last. */
  function Sum(s: seq<int>): int
    decreases |s|
  {
    if s == [] then 0 else Sum(s[..|s| - 1]) + s[|s| - 1]
  }

  lemma {:induction false} SumFront(x: int, s: seq<int>)
    ensures Sum([x] + s) == x + Sum(s)
    decreases |s|
  {
    if s != [] {
      assert ([x] + s)[..|[x] + s| - 1] == [x] + s[..|s| - 1];
      SumFront(x, s[..|s| - 1]);
    }
  }

  lemma {:induction false} SumBounds(s: seq<int>, lo: int, hi: int)
    requires forall i :: 0 <= i < |s| ==> lo <= s[i] <= hi
    ensures |s| * lo <= Sum(s) <= |s| * hi
    decreases |s|
  {
    if s != [] {
      var n := |s| - 1;
      SumBounds(s[..n], lo, hi);
      assert |s| * lo == n * lo + lo && |s| * hi == n * hi + hi;
    }
  }

  function Min(a: int, b: int): int {
    if a <= b then a else b
  }

  // ---------------------------------------------------------------------------
  // The seven-day figure of new positives

  /** The new positives of the last seven days, or of every day when fewer
      than seven have been collected (`np.sum(series[-7:])`). */
  function LastWeekSum(s: seq<int>): int {
    Sum(s[|s| - Min(7, |s|)..])
  }

  /** Up to seven days the figure is the whole sum; from then on it is the
      sum of exactly the last seven values. */
  lemma LastWeekWindow(s: seq<int>)
    ensures |s| <= 7 ==> LastWeekSum(s) == Sum(s)
    ensures |s| >= 7 ==> LastWeekSum(s) == Sum(s[|s| - 7..]) && |s[|s| - 7..]| == 7
  {
    if |s| <= 7 {
      assert s[0..] == s;
    }
  }

  /** Each new day enters the figure, and the day a week earlier leaves it. */
  lemma LastWeekSlides(s: seq<int>, x: int)
    ensures LastWeekSum(s + [x]) == LastWeekSum(s) + x - (if |s| >= 7 then s[|s| - 7] else 0)
  {
    var t := s + [x];
    var w := t[|t| - Min(7, |t|)..];
    assert w == t[|t| - Min(7, |t|)..|s|] + [x];
    if |s| >= 7 {
      assert w[..|w| - 1] == s[|s| - 6..];
      assert s[|s| - 7..] == [s[|s| - 7]] + s[|s| - 6..];
      SumFront(s[|s| - 7], s[|s| - 6..]);
    } else {
      assert w[..|w| - 1] == s;
      assert s[0..] == s;
    }
  }

  /** With daily counts between 0 and `hi`, the figure lies between 0 and
      seven times `hi`. */
  lemma LastWeekBounds(s: seq<int>, hi: int)
    requires hi >= 0
    requires forall i :: 0 <= i < |s| ==> 0 <= s[i] <= hi
    ensures 0 <= LastWeekSum(s) <= 7 * hi
  {
    var w := s[|s| - Min(7, |s|)..];
    SumBounds(w, 0, hi);
  }

  // ---------------------------------------------------------------------------
  // New tests per day (`nuovi_tamponi`)

  /** The daily increments of a cumulative count: 0 on the first day and the
      change from the previous day after that. */
  function Increments(t: seq<int>): (d: seq<int>)
    ensures |d| == |t|
  {
    seq(|t|, i requires 0 <= i < |t| => if i == 0 then 0 else t[i] - t[i - 1])
  }

  /** Adding up the increments from the first day recovers the cumulative
      count: the increments lose nothing but the starting value. */
  lemma {:induction false} IncrementsTelescope(t: seq<int>, k: nat)
    requires k < |t|
    ensures t[0] + Sum(Increments(t)[..k + 1]) == t[k]
    decreases k
  {
    var d := Increments(t);
    if k == 0 {
      assert d[..1] == [0];
    } else {
      IncrementsTelescope(t, k - 1);
      assert d[..k + 1][..k] == d[..k];
    }
  }

  /** Two cumulative counts with the same first value and the same increments
      are equal. */
  lemma IncrementsDetermine(t: seq<int>, u: seq<int>)
    requires |t| == |u| && |t| > 0 && t[0] == u[0]
    requires Increments(t) == Increments(u)
    ensures t == u
  {
    forall k | 0 <= k < |t|
      ensures t[k] == u[k]
    {
      IncrementsTelescope(t, k);
      IncrementsTelescope(u, k);
    }
  }

  /** The `nuovi_tamponi` block: a zero array as long as the test series, filled from
      index 1 with the day-to-day change, then element 0 set to 0. That last
      assignment raises on an empty series, which `ok` reports. */
  method NewTests(tamponi: seq<int>) returns (ok: bool, nuovi: array<int>)
    ensures fresh(nuovi)
    ensures nuovi.Length == |tamponi|
    ensures ok <==> |tamponi| > 0
    ensures ok ==> nuovi[..] == Increments(tamponi)
  {
    nuovi := new int[|tamponi|](_ => 0);
    var i := 1;
    while i < nuovi.Length
      invariant 1 <= i && (nuovi.Length > 0 ==> i <= nuovi.Length)
      invariant forall j :: 1 <= j < i && j < nuovi.Length ==> nuovi[j] == tamponi[j] - tamponi[j - 1]
      invariant nuovi.Length > 0 ==> nuovi[0] == 0
    {
      nuovi[i] := tamponi[i] - tamponi[i - 1];
      i := i + 1;
    }
    if nuovi.Length == 0 {
      return false, nuovi;
    }
    nuovi[0] := 0;
    ok := true;
  }
}
