/**
 * CalculateAverageFps of src/Main.cpp: a function-static buffer of the last
 * eight frame rates, shifted one slot to the right on every call, the newest
 * rate stored in slot 0, and the truncated mean of the eight slots returned.
 */
module Fps {

  const HistorySize: nat := 8
  /** Microseconds per second: the numerator of a frame rate. */
  const MicrosPerSecond: int := 1000000

  /** The sum of a sequence, adding its elements from the front. */
  function Sum(s: seq<int>): int
  {
    if |s| == 0 then 0 else Sum(s[..|s| - 1]) + s[|s| - 1]
  }

  /** A sum of values in [lo, hi] lies between |s| times lo and |s| times hi. */
  lemma {:induction false} SumBounds(s: seq<int>, lo: int, hi: int)
    requires forall i :: 0 <= i < |s| ==> lo <= s[i] <= hi
    ensures |s| * lo <= Sum(s) <= |s| * hi
  {
    if |s| > 0 {
      SumBounds(s[..|s| - 1], lo, hi);
    }
  }

  /** A sum of |s| copies of one value is |s| times that value. */
  lemma {:induction false} SumConstant(s: seq<int>, f: int)
    requires forall i :: 0 <= i < |s| ==> s[i] == f
    ensures Sum(s) == |s| * f
  {
    if |s| > 0 {
      SumConstant(s[..|s| - 1], f);
    }
  }

  /** Once all eight slots hold the same rate, the average is that rate. */
  lemma SteadyAverage(history: seq<int>, f: int)
    requires |history| == HistorySize
    requires forall i :: 0 <= i < |history| ==> history[i] == f
    ensures Sum(history) / HistorySize == f
  {
    SumConstant(history, f);
  }

  /** The static `fpsHistory` array, zero-initialised as C++ statics are. */
  class FpsHistory {
    var fpsHistory: array<int>

    /** Eight slots, each holding a rate 1000000 / t for some t > 0, or the initial 0. */
    ghost predicate Valid()
      reads this, fpsHistory
    {
      fpsHistory.Length == HistorySize &&
      forall i :: 0 <= i < HistorySize ==> 0 <= fpsHistory[i] <= MicrosPerSecond
    }

    constructor ()
      ensures Valid() && fresh(fpsHistory)
      ensures fpsHistory[..] == [0, 0, 0, 0, 0, 0, 0, 0]
    {
      fpsHistory := new int[HistorySize](_ => 0);
    }

    /**
     * Records a frame of `executionTime` microseconds and returns the mean of
     * the last eight rates. Division by a zero time is undefined in C++; the
     * time is a difference of a monotonic clock, so it is never negative.
     */
    method CalculateAverageFps(executionTime: int) returns (avgFps: int)
      requires Valid() && executionTime > 0
      modifies fpsHistory
      ensures Valid()
      ensures fpsHistory[..] == [MicrosPerSecond / executionTime] + old(fpsHistory[..])[..HistorySize - 1]
      ensures Sum(fpsHistory[..]) <= HistorySize * MicrosPerSecond < 0x8000_0000
      ensures avgFps == Sum(fpsHistory[..]) / HistorySize
      ensures 0 <= avgFps <= MicrosPerSecond
    {
      // Shift right by one, from the top slot down; i = 8 and i = 7 write nothing.
      var i: int := HistorySize;
      while i >= 0
        invariant -1 <= i <= HistorySize
        invariant forall k :: i + 2 <= k < HistorySize ==> fpsHistory[k] == old(fpsHistory[k - 1])
        invariant forall k :: 0 <= k < HistorySize && k <= i + 1 ==> fpsHistory[k] == old(fpsHistory[k])
      {
        var nexti := i + 1;
        if nexti <= HistorySize - 1 {
          fpsHistory[nexti] := fpsHistory[i];
        }
        i := i - 1;
      }
      fpsHistory[0] := MicrosPerSecond / executionTime;

      // Accumulate in a 32-bit int; the bound below shows it cannot overflow.
      var sumFps := 0;
      var j := 0;
      while j < HistorySize
        invariant 0 <= j <= HistorySize
        invariant sumFps == Sum(fpsHistory[..j])
      {
        assert fpsHistory[..j + 1][..j] == fpsHistory[..j];
        sumFps := sumFps + fpsHistory[j];
        j := j + 1;
      }
      assert fpsHistory[..HistorySize] == fpsHistory[..];
      SumBounds(fpsHistory[..], 0, MicrosPerSecond);
      avgFps := sumFps / HistorySize;
    }
  }
}
