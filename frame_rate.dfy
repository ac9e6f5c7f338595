/**
 * The frame-rate estimate of the vision receiver (`SSLVision.set_fps` with
 * the `_frame_times` window and the `_fps` field). The wall clock is not
 * read here: each arrival time is passed in. Times are exact reals.
 */
module FrameRate {

  /** `deque(maxlen=60)`: the number of arrival times kept. */
  const WindowSize: nat := 60

  /** While the window holds this many times or fewer, the estimate is not recomputed. */
  const WarmupSamples: nat := 3

  function Min(a: nat, b: nat): nat
  {
    if a <= b then a else b
  }

  /** The latest `WindowSize` entries of `ts` (all of them when there are fewer). */
  function Latest(ts: seq<real>): (r: seq<real>)
    ensures |r| == Min(|ts|, WindowSize)
  {
    ts[|ts| - Min(|ts|, WindowSize)..]
  }

  /** `append` on a deque with `maxlen=WindowSize`: when full, the oldest entry falls out. */
  function Push(window: seq<real>, t: real): (r: seq<real>)
    requires |window| <= WindowSize
    ensures |r| == Min(|window| + 1, WindowSize)
    ensures r == (window + [t])[|window| + 1 - |r|..]
  {
    if |window| < WindowSize then window + [t] else window[1..] + [t]
  }

  /** Appending to the window of the latest arrivals gives the window of the latest arrivals. */
  lemma PushKeepsLatest(ts: seq<real>, t: real)
    ensures Push(Latest(ts), t) == Latest(ts + [t])
  {
    var n := |ts|;
    if n >= WindowSize {
      calc {
        Push(Latest(ts), t);
        ts[n - WindowSize..][1..] + [t];
        { assert ts[n - WindowSize..][1..] == (ts + [t])[n + 1 - WindowSize..n]; }
        (ts + [t])[n + 1 - WindowSize..n] + [t];
        { assert (ts + [t])[n + 1 - WindowSize..] == (ts + [t])[n + 1 - WindowSize..n] + [t]; }
        Latest(ts + [t]);
      }
    } else {
      assert Latest(ts) == ts;
      assert Latest(ts + [t]) == ts + [t];
    }
  }

  /** The window after the arrival times `ts` have been appended one by one to an empty deque. */
  function Window(ts: seq<real>): (w: seq<real>)
    ensures |w| <= WindowSize
  {
    if ts == [] then [] else Push(Window(ts[..|ts| - 1]), ts[|ts| - 1])
  }

  /** The window always holds the latest `WindowSize` arrival times, oldest first. */
  lemma {:induction false} WindowHoldsLatest(ts: seq<real>)
    ensures Window(ts) == Latest(ts)
  {
    if ts != [] {
      var init, t := ts[..|ts| - 1], ts[|ts| - 1];
      assert init + [t] == ts;
      calc {
        Window(ts);
        Push(Window(init), t);
        { WindowHoldsLatest(init); }
        Push(Latest(init), t);
        { PushKeepsLatest(init, t); }
        Latest(init + [t]);
      }
    }
  }

  /** `[(v - i) for i, v in zip(t, t[1:])]`: the gaps between consecutive times. */
  function Deltas(ts: seq<real>): (ds: seq<real>)
    ensures |ds| == if |ts| == 0 then 0 else |ts| - 1
  {
    if |ts| == 0 then [] else seq(|ts| - 1, i requires 0 <= i < |ts| - 1 => ts[i + 1] - ts[i])
  }

  /** `sum(ds)`. */
  function Sum(ds: seq<real>): (r: real)
    ensures (forall i :: 0 <= i < |ds| ==> ds[i] >= 0.0) ==> r >= 0.0
    ensures (forall i :: 0 <= i < |ds| ==> ds[i] > 0.0) && |ds| > 0 ==> r > 0.0
  {
    if ds == [] then 0.0 else ds[0] + Sum(ds[1..])
  }

  /** `len(deltas) / sum(deltas)`: arrivals per second over the window. */
  function Estimate(ts: seq<real>): (r: real)
    requires Sum(Deltas(ts)) != 0.0
    ensures r * Sum(Deltas(ts)) == (|ts| - 1) as real
  {
    var gaps, total := |Deltas(ts)| as real, Sum(Deltas(ts));
    QuotientTimesDivisor(gaps, total);
    gaps / total
  }

  /** Multiplying a quotient by its divisor gives back the dividend. */
  lemma QuotientTimesDivisor(a: real, b: real)
    requires b != 0.0
    ensures (a / b) * b == a
  {
  }

  /** The gaps telescope: their sum is the span from the first time to the last. */
  lemma {:induction false} SumOfDeltas(ts: seq<real>)
    requires |ts| >= 1
    ensures Sum(Deltas(ts)) == ts[|ts| - 1] - ts[0]
  {
    if |ts| > 1 {
      var ds := Deltas(ts);
      var rest := ts[1..];
      var dr := Deltas(rest);
      assert forall i :: 0 <= i < |dr| ==> ds[1..][i] == dr[i];
      assert ds[1..] == dr;
      SumOfDeltas(rest);
      assert Sum(ds) == ds[0] + Sum(dr);
    }
  }

  /**
   * The estimate is defined exactly when the first and last times differ, and
   * is then the number of gaps over the span of the window.
   */
  lemma EstimateOverSpan(ts: seq<real>)
    requires |ts| >= 1
    ensures Sum(Deltas(ts)) != 0.0 <==> ts[|ts| - 1] != ts[0]
    ensures ts[|ts| - 1] != ts[0] ==> Estimate(ts) == (|ts| - 1) as real / (ts[|ts| - 1] - ts[0])
  {
    SumOfDeltas(ts);
    var total := Sum(Deltas(ts));
    var span := ts[|ts| - 1] - ts[0];
    var gaps := |Deltas(ts)| as real;
    assert total == span;
    assert gaps == (|ts| - 1) as real;
    if span != 0.0 {
      assert Estimate(ts) == gaps / total;
    }
  }

  /** A quotient of two positive reals is positive. */
  lemma QuotientPositive(a: real, b: real)
    requires a > 0.0 && b > 0.0
    ensures a / b > 0.0
  {
  }

  /** A positive factor common to numerator and denominator cancels. */
  lemma CancelFactor(a: real, p: real)
    requires a > 0.0 && p > 0.0
    ensures a / (a * p) == 1.0 / p
  {
  }

  /** Strictly increasing times: the estimate is defined and positive. */
  lemma IncreasingTimesPositiveRate(ts: seq<real>)
    requires |ts| >= 2
    requires forall i :: 0 <= i < |ts| - 1 ==> ts[i] < ts[i + 1]
    ensures Sum(Deltas(ts)) > 0.0
    ensures Estimate(ts) > 0.0
  {
    var i := 1;
    while i < |ts| - 1
      invariant 1 <= i <= |ts| - 1
      invariant ts[0] < ts[i]
    {
      i := i + 1;
    }
    var span := ts[|ts| - 1] - ts[0];
    SumOfDeltas(ts);
    EstimateOverSpan(ts);
    QuotientPositive((|ts| - 1) as real, span);
  }

  /** Arrivals every `period` seconds give an estimate of exactly `1 / period`. */
  lemma UniformArrivals(ts: seq<real>, period: real)
    requires |ts| >= 2 && period > 0.0
    requires forall i :: 0 <= i < |ts| ==> ts[i] == ts[0] + i as real * period
    ensures Sum(Deltas(ts)) != 0.0
    ensures Estimate(ts) == 1.0 / period
  {
    var gaps := (|ts| - 1) as real;
    var span := ts[|ts| - 1] - ts[0];
    assert span == gaps * period;
    assert Sum(Deltas(ts)) == span by { SumOfDeltas(ts); }
    assert Estimate(ts) == gaps / span by { EstimateOverSpan(ts); }
    assert gaps / span == 1.0 / period by { CancelFactor(gaps, period); }
  }

  /** The rate-tracking state of the receiver: `_frame_times` and `_fps`. */
  class SSLVision {
    var frameTimes: seq<real>
    var fps: real

    ghost predicate Valid()
      reads this
    {
      |frameTimes| <= WindowSize
    }

    constructor ()
      ensures Valid()
      ensures frameTimes == [] && fps == 0.0
    {
      frameTimes := [];
      fps := 0.0;
    }

    /**
     * `set_fps` with the arrival time `now`. `ok` is false when the gaps sum
     * to zero: the source then raises ZeroDivisionError after the time has
     * been appended and before `_fps` is assigned.
     */
    method SetFps(now: real) returns (ok: bool)
      requires Valid()
      modifies this
      ensures Valid()
      ensures frameTimes == Push(old(frameTimes), now)
      ensures |frameTimes| <= WarmupSamples ==> ok && fps == old(fps)
      ensures |frameTimes| > WarmupSamples ==>
        (ok <==> Sum(Deltas(frameTimes)) != 0.0) &&
        fps == if ok then Estimate(frameTimes) else old(fps)
    {
      frameTimes := Push(frameTimes, now);
      ok := true;
      if |frameTimes| <= WarmupSamples {
        return;
      }
      var deltas := Deltas(frameTimes);
      var total := Sum(deltas);
      if total == 0.0 {
        ok := false;
        return;
      }
      fps := |deltas| as real / total;
    }
  }

  /** Three arrivals or fewer leave the estimate at its initial 0. */
  method WarmupKeepsZero(t0: real, t1: real, t2: real) returns (rate: real)
    ensures rate == 0.0
  {
    var v := new SSLVision();
    var ok := v.SetFps(t0);
    ok := v.SetFps(t1);
    ok := v.SetFps(t2);
    rate := v.fps;
  }

  /** A receiver fed any stream of arrival times holds the latest `WindowSize` of them, oldest first. */
  method FeedArrivals(ts: seq<real>) returns (window: seq<real>)
    ensures window == Latest(ts)
  {
    var v := new SSLVision();
    for i := 0 to |ts|
      invariant v.Valid() && v.frameTimes == Window(ts[..i])
    {
      var ok := v.SetFps(ts[i]);
      assert ts[..i + 1][..i] == ts[..i];
    }
    assert ts[..|ts|] == ts;
    WindowHoldsLatest(ts);
    window := v.frameTimes;
  }
}
