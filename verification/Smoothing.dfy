/** Exponential smoothing over whole runs of samples: every smoothed metric stays
    in the hull of what was blended into it and contracts at the rate 1 - alpha. */
module Smoothing {
  import opened Adaptive

  datatype Metric = Bandwidth | Loss | Rtt | Jitter | AudioLoss | AudioJitter | Fps | Dropped | Decode

  function Smoothed(st: AdaptiveState, m: Metric): (v: real) {
    match m
    case Bandwidth => st.bandwidth
    case Loss => st.loss
    case Rtt => st.rtt
    case Jitter => st.jitter
    case AudioLoss => st.audioLoss
    case AudioJitter => st.audioJitter
    case Fps => st.fps
    case Dropped => st.dropped
    case Decode => st.decode
  }

  function Reported(s: NetworkSample, m: Metric): (v: real) {
    match m
    case Bandwidth => s.Bandwidth() as real
    case Loss => s.lossPct
    case Rtt => s.rttMs as real
    case Jitter => s.jitterMs
    case AudioLoss => s.audioLossPct
    case AudioJitter => s.audioJitterMs
    case Fps => s.fps
    case Dropped => s.droppedFramesPct
    case Decode => s.decodeTimeMs
  }

  /** Bandwidth, round-trip time and frame rate ignore missing (non-positive) readings. */
  predicate Blended(s: NetworkSample, m: Metric) {
    m in {Bandwidth, Rtt, Fps} ==> Reported(s, m) > 0.0
  }

  /** State after the samples, oldest first, from an uninitialised state. */
  function After(st: AdaptiveState, samples: seq<NetworkSample>, alpha: real): (r: AdaptiveState) {
    if |samples| == 0 then st
    else UpdateState(After(st, samples[..|samples| - 1], alpha), samples[|samples| - 1], alpha)
  }

  /** The values of one metric that count: the first report whatever it is, later
      ones when they are blended in. */
  function Inputs(samples: seq<NetworkSample>, m: Metric): (vs: seq<real>)
    requires |samples| > 0
    ensures |vs| > 0 && vs[0] == Reported(samples[0], m)
  {
    var last := samples[|samples| - 1];
    if |samples| == 1 then [Reported(last, m)]
    else if Blended(last, m) then Inputs(samples[..|samples| - 1], m) + [Reported(last, m)]
    else Inputs(samples[..|samples| - 1], m)
  }

  function Power(x: real, n: nat): (r: real) {
    if n == 0 then 1.0 else x * Power(x, n - 1)
  }

  /** Closed form of exponential smoothing: the newest value has weight alpha, every
      older one 1 - alpha times as much, the first one all the remaining weight. */
  function Weighted(vs: seq<real>, alpha: real, weight: real): (r: real)
    requires |vs| > 0
  {
    if |vs| == 1 then weight * vs[0]
    else (weight * alpha) * vs[|vs| - 1] + Weighted(vs[..|vs| - 1], alpha, weight * (1.0 - alpha))
  }

  /** The inputs blended one after the other. */
  function Blend(vs: seq<real>, alpha: real): (r: real)
    requires |vs| > 0
  {
    if |vs| == 1 then vs[0] else Ewma(Blend(vs[..|vs| - 1], alpha), vs[|vs| - 1], alpha)
  }

  lemma {:induction false} FactorOut(c: real, prev: real, next: real, alpha: real)
    ensures (c * alpha) * next + (c * (1.0 - alpha)) * prev == c * Ewma(prev, next, alpha)
  {
    var b := 1.0 - alpha;
    assert (c * alpha) * next == c * (next * alpha);
    assert (c * b) * prev == c * (prev * b);
  }

  lemma {:induction false} BlendIsWeighted(vs: seq<real>, alpha: real, weight: real)
    requires |vs| > 0
    ensures Weighted(vs, alpha, weight) == weight * Blend(vs, alpha)
    decreases |vs|
  {
    if |vs| > 1 {
      BlendIsWeighted(vs[..|vs| - 1], alpha, weight * (1.0 - alpha));
      FactorOut(weight, Blend(vs[..|vs| - 1], alpha), vs[|vs| - 1], alpha);
    }
  }

  lemma {:induction false} Combine(lo: real, x: real, y: real, a: real, b: real)
    requires lo <= x && lo <= y && 0.0 <= a && 0.0 <= b && a + b == 1.0
    ensures lo <= x * b + y * a
  {
    assert (x - lo) * b >= 0.0;
    assert (y - lo) * a >= 0.0;
    assert x * b + y * a - lo == (x - lo) * b + (y - lo) * a;
  }

  lemma {:induction false} EwmaBetween(lo: real, hi: real, prev: real, next: real, alpha: real)
    requires lo <= prev <= hi && lo <= next <= hi && 0.0 < alpha <= 1.0
    ensures lo <= Ewma(prev, next, alpha) <= hi
  {
    Combine(lo, prev, next, alpha, 1.0 - alpha);
    Combine(-hi, -prev, -next, alpha, 1.0 - alpha);
    assert (-prev) * (1.0 - alpha) + (-next) * alpha == -(prev * (1.0 - alpha) + next * alpha);
  }

  predicate Within(lo: real, hi: real, vs: seq<real>) {
    forall i :: 0 <= i < |vs| ==> lo <= vs[i] <= hi
  }

  lemma {:induction false} BlendInHull(vs: seq<real>, alpha: real, lo: real, hi: real)
    requires |vs| > 0 && 0.0 < alpha <= 1.0 && Within(lo, hi, vs)
    ensures lo <= Blend(vs, alpha) <= hi
    decreases |vs|
  {
    if |vs| > 1 {
      BlendInHull(vs[..|vs| - 1], alpha, lo, hi);
      EwmaBetween(lo, hi, Blend(vs[..|vs| - 1], alpha), vs[|vs| - 1], alpha);
    }
  }

  lemma {:induction false} ContractOnce(v: real, d: real, p: real, alpha: real)
    ensures Ewma(v + p * d, v, alpha) == v + ((1.0 - alpha) * p) * d
  {
    var b := 1.0 - alpha;
    assert (v + p * d) * b == v * b + (b * p) * d;
    assert v * b + v * alpha == v;
  }

  // ---- Runs of samples ----

  /** What one sample does to one metric. */
  function Moved(before: real, s: NetworkSample, m: Metric, alpha: real): (after: real) {
    if Blended(s, m) then Ewma(before, Reported(s, m), alpha) else before
  }

  lemma {:induction false} UpdateMetric(st: AdaptiveState, s: NetworkSample, alpha: real, m: Metric)
    ensures !st.initialized ==> Smoothed(UpdateState(st, s, alpha), m) == Reported(s, m)
    ensures st.initialized ==> Smoothed(UpdateState(st, s, alpha), m) == Moved(Smoothed(st, m), s, m, alpha)
  {
  }

  /** After any run every metric is its inputs blended in order, equivalently their
      exponentially weighted sum. */
  lemma {:induction false} SmoothedIsWeighted(st: AdaptiveState, samples: seq<NetworkSample>, alpha: real, m: Metric)
    requires !st.initialized && |samples| > 0
    ensures After(st, samples, alpha).initialized
    ensures Smoothed(After(st, samples, alpha), m) == Blend(Inputs(samples, m), alpha)
      == Weighted(Inputs(samples, m), alpha, 1.0)
    decreases |samples|
  {
    var last := samples[|samples| - 1];
    var init := samples[..|samples| - 1];
    if |samples| == 1 {
      assert init == [];
      UpdateMetric(st, last, alpha, m);
    } else {
      SmoothedIsWeighted(st, init, alpha, m);
      UpdateMetric(After(st, init, alpha), last, alpha, m);
      var vs := Inputs(samples, m);
      if Blended(last, m) {
        assert vs[..|vs| - 1] == Inputs(init, m) && vs[|vs| - 1] == Reported(last, m);
      }
    }
    BlendIsWeighted(Inputs(samples, m), alpha, 1.0);
  }

  /** Bounded: any interval that holds the inputs of a metric holds its smoothed value. */
  lemma {:induction false} SmoothedInHull(st: AdaptiveState, samples: seq<NetworkSample>, alpha: real, m: Metric,
                                          lo: real, hi: real)
    requires !st.initialized && |samples| > 0 && 0.0 < alpha <= 1.0
    requires Within(lo, hi, Inputs(samples, m))
    ensures lo <= Smoothed(After(st, samples, alpha), m) <= hi
  {
    SmoothedIsWeighted(st, samples, alpha, m);
    BlendInHull(Inputs(samples, m), alpha, lo, hi);
  }

  function Repeat(s: NetworkSample, n: nat): (r: seq<NetworkSample>)
    ensures |r| == n && forall i :: 0 <= i < n ==> r[i] == s
  {
    seq(n, _ => s)
  }

  /** A value pulled n times towards v. */
  function Pulled(x: real, v: real, n: nat, alpha: real): (r: real) {
    if n == 0 then x else Ewma(Pulled(x, v, n - 1, alpha), v, alpha)
  }

  lemma {:induction false} PulledContracts(v: real, d: real, n: nat, alpha: real)
    ensures Pulled(v + d, v, n, alpha) == v + Power(1.0 - alpha, n) * d
    decreases n
  {
    if n > 0 {
      var p := Power(1.0 - alpha, n - 1);
      PulledContracts(v, d, n - 1, alpha);
      ContractOnce(v, d, p, alpha);
      assert Pulled(v + d, v, n, alpha) == Ewma(v + p * d, v, alpha);
    }
  }

  lemma {:induction false} EqualSamplesPull(st: AdaptiveState, s: NetworkSample, alpha: real, m: Metric, n: nat)
    requires st.initialized && Blended(s, m)
    ensures After(st, Repeat(s, n), alpha).initialized
    ensures Smoothed(After(st, Repeat(s, n), alpha), m) == Pulled(Smoothed(st, m), Reported(s, m), n, alpha)
    decreases n
  {
    if n == 0 {
      assert Repeat(s, n) == [];
    } else {
      assert Repeat(s, n)[..n - 1] == Repeat(s, n - 1);
      EqualSamplesPull(st, s, alpha, m, n - 1);
      UpdateMetric(After(st, Repeat(s, n - 1), alpha), s, alpha, m);
    }
  }

  /** Contraction: n further equal samples turn a distance d to their value into
      exactly (1 - alpha)^n * d. */
  lemma {:induction false} SmoothedContracts(st: AdaptiveState, s: NetworkSample, alpha: real, m: Metric, n: nat,
                                             d: real)
    requires st.initialized && Blended(s, m)
    requires Smoothed(st, m) == Reported(s, m) + d
    ensures Smoothed(After(st, Repeat(s, n), alpha), m) == Reported(s, m) + Power(1.0 - alpha, n) * d
  {
    EqualSamplesPull(st, s, alpha, m, n);
    PulledContracts(Reported(s, m), d, n, alpha);
  }
}
