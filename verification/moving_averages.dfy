/** `findMovingAverage`: the mean closing price over a window of rows of the
    year's history, with the history passed in as its closes, oldest first. */
module MovingAverages {
  import opened Wrappers

  function Sum(s: seq<real>): real {
    if |s| == 0 then 0.0 else Sum(s[..|s| - 1]) + s[|s| - 1]
  }

  /** The arithmetic mean, as pandas' `Series.mean()` computes it. */
  function Mean(s: seq<real>): real
    requires 0 < |s|
  {
    Sum(s) / |s| as real
  }

  /** The least element. */
  function Min(s: seq<real>): (m: real)
    requires 0 < |s|
    ensures m in s
    ensures forall i :: 0 <= i < |s| ==> m <= s[i]
  {
    if |s| == 1 then s[0]
    else
      var rest := Min(s[1..]);
      if s[0] <= rest then s[0] else rest
  }

  /** The greatest element. */
  function Max(s: seq<real>): (m: real)
    requires 0 < |s|
    ensures m in s
    ensures forall i :: 0 <= i < |s| ==> s[i] <= m
  {
    if |s| == 1 then s[0]
    else
      var rest := Max(s[1..]);
      if rest <= s[0] then s[0] else rest
  }

  /** Python's positional index `df.index[k]` into `count` rows: a negative
      `k` counts back from the last row, and any `k` outside the rows raises
      IndexError. */
  function RowAt(count: nat, k: int): (r: Result<nat>)
    ensures r.Ok? <==> -(count as int) <= k < count
    ensures r.Err? ==> r.error == IndexError
    ensures r.Ok? ==> r.value < count && r.value as int == k % count
  {
    if 0 <= k < count then Ok(k)
    else if -(count as int) <= k < 0 then Ok(k + count)
    else Err(IndexError)
  }

  /** `findMovingAverage(ticker, days)` over the closes of the year, oldest
      first. The frame is never reversed (the reversal's result is dropped),
      so the window runs from the oldest row to row `days - 1` as Python
      indexes it: for `days` in 1..|closes| the oldest `days` closes, and for
      `days` <= 0 the oldest `|closes| + days` of them. */
  function MovingAverage(closes: seq<real>, days: int): (r: Result<real>)
    ensures r.Ok? <==> 1 - |closes| <= days <= |closes|
    ensures r.Err? ==> r.error == IndexError
    ensures 1 <= days <= |closes| ==> r == Ok(Mean(closes[..days]))
    ensures 1 - |closes| <= days <= 0 ==> r == Ok(Mean(closes[..|closes| + days]))
  {
    var first :- RowAt(|closes|, 0);
    var last :- RowAt(|closes|, days - 1);
    // The date-labelled slice takes both end rows and every row between them.
    assert closes[first..last + 1] == closes[..last + 1];
    Ok(Mean(closes[first..last + 1]))
  }

  lemma {:induction false} SumBounds(s: seq<real>, lo: real, hi: real)
    requires forall i :: 0 <= i < |s| ==> lo <= s[i] <= hi
    ensures |s| as real * lo <= Sum(s) <= |s| as real * hi
  {
    if 0 < |s| {
      SumBounds(s[..|s| - 1], lo, hi);
    }
  }

  /** A mean lies within any bounds that hold of every element. */
  lemma MeanBounds(s: seq<real>, lo: real, hi: real)
    requires 0 < |s|
    requires forall i :: 0 <= i < |s| ==> lo <= s[i] <= hi
    ensures lo <= Mean(s) <= hi
  {
    SumBounds(s, lo, hi);
  }

  /** A moving average lies between the least and greatest close of its
      window, and so between those of the whole history. */
  lemma MovingAverageWithinRange(closes: seq<real>, days: int)
    requires 1 <= days <= |closes|
    ensures MovingAverage(closes, days).Ok?
    ensures Min(closes[..days]) <= MovingAverage(closes, days).value <= Max(closes[..days])
    ensures Min(closes) <= MovingAverage(closes, days).value <= Max(closes)
  {
    var window := closes[..days];
    MeanBounds(window, Min(window), Max(window));
    assert Min(closes) <= Min(window) by {
      assert Min(window) in closes;
    }
    assert Max(window) <= Max(closes) by {
      assert Max(window) in closes;
    }
  }

  /** Closes appended after the window never move the average: the window is
      anchored at the oldest row, not at the newest. */
  lemma MovingAverageIgnoresNewerCloses(closes: seq<real>, newer: seq<real>, days: int)
    requires 1 <= days <= |closes|
    ensures MovingAverage(closes + newer, days) == MovingAverage(closes, days)
  {
    assert (closes + newer)[..days] == closes[..days];
  }

  /** The closes `start, start + 1, ...`, `count` of them. */
  function Ramp(start: real, count: nat): (s: seq<real>)
    ensures |s| == count
  {
    seq(count, i => start + i as real)
  }

  lemma {:induction false} SumOfRamp(start: real, count: nat)
    ensures Sum(Ramp(start, count)) == count as real * start + (count * (count - 1) / 2) as real
  {
    if 0 < count {
      assert Ramp(start, count)[..count - 1] == Ramp(start, count - 1);
      SumOfRamp(start, count - 1);
      assert (count - 1) * (count - 2) / 2 + (count - 1) == count * (count - 1) / 2 by {
        assert (count - 1) * (count - 2) + 2 * (count - 1) == count * (count - 1);
      }
    }
  }

  /** Sixty rising closes 100, 101, ..., 159: the 12-day average is 105.5. */
  lemma TwelveDayAverageOfRisingSeries()
    ensures MovingAverage(Ramp(100.0, 60), 12) == Ok(105.5)
  {
    assert Ramp(100.0, 60)[..12] == Ramp(100.0, 12);
    SumOfRamp(100.0, 12);
  }
}
