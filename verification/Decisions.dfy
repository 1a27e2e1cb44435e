/** What one decision of the adaptive controller means, in terms of the sample, the wish and
    the smoothed metrics: which switches are immediate, which wait, and for how long. */
module Decisions {
  import opened Wrappers
  import opened Quality
  import opened Adaptive

  /** The layer a decision asks for before hysteresis. */
  function WishOf(opts: AdaptiveOptions, prior: Option<AdaptiveState>, sample: NetworkSample, current0: QualityLayer,
                  available: seq<QualityLayer>, now: int): (want: QualityLayer)
  {
    var st := if prior.Some? then prior.value else FreshState(Effective(current0), now);
    Desired(RawDecision(opts, UpdateState(st, sample, opts.alpha), sample), sample, available)
  }

  /** The device a sample names: a legacy one gets the low layer at most, a weak or
      power-saving one the medium layer. */
  function DeviceCap(sample: NetworkSample): (rank: int) {
    if sample.device == Legacy then 1 else if sample.device == LowEnd || sample.lowPower then 2 else 3
  }

  /** The wish is the clamped layer of the raw decision, lowered to the device's cap; a
      suspended video asks for the low layer and nothing caps it. */
  lemma {:induction false} WishExactly(raw: Raw, sample: NetworkSample, available: seq<QualityLayer>)
    ensures var want := Desired(raw, sample, available);
      var clamped := ClampQuality(if raw.suspend then Low else raw.quality, available);
      && (raw.suspend || Rank(clamped) <= DeviceCap(sample) ==> want == clamped)
      && (!raw.suspend && Rank(clamped) > DeviceCap(sample) ==> Known(want) && Rank(want) == DeviceCap(sample))
  {
  }

  /** The flags of a decision, on the smoothed metrics it leaves behind. */
  lemma {:induction false} FlagsExactly(opts: AdaptiveOptions, prior: Option<AdaptiveState>, sample: NetworkSample,
                                        current0: QualityLayer, available: seq<QualityLayer>, now: int)
    ensures var (st, d) := DecideStep(opts, prior, sample, current0, available, now);
      && (d.audioPriority <==> st.audioLoss >= 4.0 || st.audioJitter >= 55.0)
      && (d.suspended <==>
            0 < d.estimatedKbps < opts.criticalLayerKbps || st.audioLoss >= 10.0 || st.audioJitter >= 120.0)
      && (d.grade == Critical <==>
            || 0 < d.estimatedKbps < opts.criticalLayerKbps
            || st.loss >= 12.0 || st.rtt >= 700.0 || st.jitter >= 120.0 || d.score < 30)
      && (d.grade != Critical ==>
            && (d.grade == Excellent <==> d.score >= 90) && (d.grade == Good <==> 75 <= d.score < 90)
            && (d.grade == Fair <==> 55 <= d.score < 75) && (d.grade == Poor <==> 30 <= d.score < 55))
      && d.score == Score(st, sample)
      && (d.userID, d.streamID, d.decidedAt) == (sample.userID, sample.streamID, now)
      && d.previous == (if current0 == Unknown("") then Medium else current0)
      && (d.changed <==> d.target != d.previous)
      && st.lastQuality == (if d.changed then d.target
                            else if prior.Some? then prior.value.lastQuality else d.previous)
  {
    var st0 := if prior.Some? then prior.value else FreshState(Effective(current0), now);
    var (st, d) := DecideStep(opts, prior, sample, current0, available, now);
    ScoreReadsMetrics(st, UpdateState(st0, sample, opts.alpha), sample);
  }

  /** The score reads the metrics and not the switching history. */
  lemma {:induction false} ScoreReadsMetrics(a: AdaptiveState, b: AdaptiveState, sample: NetworkSample)
    requires a.loss == b.loss && a.rtt == b.rtt && a.jitter == b.jitter
    requires a.dropped == b.dropped && a.decode == b.decode
    ensures Score(a, sample) == Score(b, sample)
  {
  }

  /** The estimate is the smoothed bandwidth to the nearest kilobit, halves away from zero. */
  lemma {:induction false} EstimateIsNearest(x: real)
    ensures x >= 0.0 ==> Round(x) as real - 0.5 <= x < Round(x) as real + 0.5
    ensures x <= 0.0 ==> Round(x) as real - 0.5 < x <= Round(x) as real + 0.5
  {
  }

  /** A wish below the current layer is granted at once when the grade is critical, the audio
      needs the bandwidth, the video is suspended or the device is constrained. Any other is
      held exactly while too few poor samples came in a row or the last switch is too recent. */
  lemma {:induction false} DownswitchExactly(
    opts: AdaptiveOptions, prior: Option<AdaptiveState>, sample: NetworkSample, current0: QualityLayer,
    available: seq<QualityLayer>, now: int)
    requires Rank(WishOf(opts, prior, sample, current0, available, now))
      < Rank(if current0 == Unknown("") then Medium else current0)
    ensures var (st, d) := DecideStep(opts, prior, sample, current0, available, now);
      var poor := 1 + if prior.Some? then prior.value.consecutivePoor else 0;
      var switched := if prior.Some? then prior.value.lastSwitchAt else now;
      var urgent := d.grade == Critical || d.audioPriority || d.suspended
        || sample.device == Legacy || sample.device == LowEnd || sample.lowPower;
      && (d.hold <==>
            !urgent && (poor < opts.poorSamplesForDowngrade || now - switched < opts.minDownswitchInterval))
      && d.target == (if d.hold then d.previous else WishOf(opts, prior, sample, current0, available, now))
      && d.changed == !d.hold
      && st.consecutivePoor == poor && st.consecutiveGood == 0
      && st.lastSwitchAt == (if d.hold then switched else now)
  {
  }

  /** A wish above the current layer is held exactly while too few good samples came in a row
      or the last switch is too recent; nothing makes it immediate. */
  lemma {:induction false} UpswitchExactly(
    opts: AdaptiveOptions, prior: Option<AdaptiveState>, sample: NetworkSample, current0: QualityLayer,
    available: seq<QualityLayer>, now: int)
    requires Rank(WishOf(opts, prior, sample, current0, available, now))
      > Rank(if current0 == Unknown("") then Medium else current0)
    ensures var (st, d) := DecideStep(opts, prior, sample, current0, available, now);
      var good := 1 + if prior.Some? then prior.value.consecutiveGood else 0;
      var switched := if prior.Some? then prior.value.lastSwitchAt else now;
      && (d.hold <==> good < opts.goodSamplesForUpgrade || now - switched < opts.minUpswitchInterval)
      && d.target == (if d.hold then d.previous else WishOf(opts, prior, sample, current0, available, now))
      && d.changed == !d.hold
      && st.consecutiveGood == good && st.consecutivePoor == 0
      && st.lastSwitchAt == (if d.hold then switched else now)
  {
  }

  /** A wish of the same rank is granted at once and ends both streaks; it is a switch only
      between the high layer and an unrecognised one. */
  lemma {:induction false} LevelWishExactly(
    opts: AdaptiveOptions, prior: Option<AdaptiveState>, sample: NetworkSample, current0: QualityLayer,
    available: seq<QualityLayer>, now: int)
    requires Rank(WishOf(opts, prior, sample, current0, available, now))
      == Rank(if current0 == Unknown("") then Medium else current0)
    ensures var (st, d) := DecideStep(opts, prior, sample, current0, available, now);
      && !d.hold && d.target == WishOf(opts, prior, sample, current0, available, now)
      && st.consecutiveGood == 0 && st.consecutivePoor == 0
      && st.lastSwitchAt == (if prior.Some? && !d.changed then prior.value.lastSwitchAt else now)
      && (d.changed ==> Rank(d.previous) == 3)
  {
  }

  // ---- What is measured ----

  /** Two samples that report the same but for where the bandwidth comes from. */
  predicate SameReport(a: NetworkSample, b: NetworkSample) {
    && a == b.(availableKbps := a.availableKbps, observedKbps := a.observedKbps)
    && (if a.availableKbps <= 0 then a.observedKbps else a.availableKbps)
      == (if b.availableKbps <= 0 then b.observedKbps else b.availableKbps)
  }

  lemma {:induction false} SameReportSameState(st: AdaptiveState, a: NetworkSample, b: NetworkSample, alpha: real)
    requires SameReport(a, b)
    ensures UpdateState(st, a, alpha) == UpdateState(st, b, alpha)
  {
  }

  lemma {:induction false} SameReportSameRaw(opts: AdaptiveOptions, st: AdaptiveState, a: NetworkSample,
                                             b: NetworkSample)
    requires SameReport(a, b)
    ensures RawDecision(opts, st, a) == RawDecision(opts, st, b)
  {
    assert EventPenalty(a) == EventPenalty(b);
  }

  /** The available bandwidth counts, and the observed one only where none is available. */
  lemma {:induction false} ObservedIsStandIn(
    opts: AdaptiveOptions, prior: Option<AdaptiveState>, a: NetworkSample, b: NetworkSample, current0: QualityLayer,
    available: seq<QualityLayer>, now: int)
    requires SameReport(a, b)
    ensures DecideStep(opts, prior, a, current0, available, now) == DecideStep(opts, prior, b, current0, available, now)
  {
    var st0 := if prior.Some? then prior.value else FreshState(Effective(current0), now);
    var st := UpdateState(st0, a, opts.alpha);
    SameReportSameState(st0, a, b, opts.alpha);
    SameReportSameRaw(opts, st, a, b);
    var raw := RawDecision(opts, st, a);
    DecideStepParts(opts, prior, a, current0, available, now, st, raw, Desired(raw, a, available));
    DecideStepParts(opts, prior, b, current0, available, now, st, raw, Desired(raw, b, available));
  }

  /** Conversion to an integer drops the fraction, on either side of zero. */
  lemma {:induction false} TruncDropsFraction(x: real)
    ensures x >= 0.0 ==> Trunc(x) as real <= x < Trunc(x) as real + 1.0
    ensures x <= 0.0 ==> Trunc(x) as real - 1.0 < x <= Trunc(x) as real
  {
  }

  function Reduced(score: int, points: int): (r: int) {
    if score < points then 0 else score - points
  }

  /** A perfect stream scores 100. */
  lemma {:induction false} PerfectScore(st: AdaptiveState, sample: NetworkSample)
    requires st.loss == 0.0 && st.rtt <= 120.0 && st.jitter <= 20.0 && st.dropped == 0.0 && st.decode <= 24.0
    requires sample.freezeDelta <= 0 && sample.pliDelta <= 0 && sample.nackDelta <= 0
    ensures Score(st, sample) == 100
  {
  }

  lemma {:induction false} WholePoints(x: real, k: nat)
    requires x >= 0.0
    ensures Trunc(x + k as real) == Trunc(x) + k
  {
    assert (x + k as real).Floor == x.Floor + k;
  }

  lemma {:induction false} PenaltyReduces(a: AdaptiveState, b: AdaptiveState, sample: NetworkSample, k: nat)
    requires TransportPenalty(b) + DecoderPenalty(b) == TransportPenalty(a) + DecoderPenalty(a) + k
    ensures Score(b, sample) == Reduced(Score(a, sample), k)
  {
  }

  // What each metric costs, whatever the others are, down to a score of zero.

  /** A quarter of a percent of loss costs a point. */
  lemma {:induction false} LossPrice(st: AdaptiveState, sample: NetworkSample, k: nat)
    requires st.loss >= 0.0
    ensures Score(st.(loss := st.loss + k as real / 4.0), sample) == Reduced(Score(st, sample), k)
  {
    WholePoints(st.loss * 4.0, k);
    assert (st.loss + k as real / 4.0) * 4.0 == st.loss * 4.0 + k as real;
    PenaltyReduces(st, st.(loss := st.loss + k as real / 4.0), sample, k);
  }

  /** So do eight milliseconds of round trip over 120. */
  lemma {:induction false} RoundTripPrice(st: AdaptiveState, sample: NetworkSample, k: nat)
    requires st.rtt >= 120.0
    ensures Score(st.(rtt := st.rtt + k as real * 8.0), sample) == Reduced(Score(st, sample), k)
  {
    WholePoints((st.rtt - 120.0) / 8.0, k);
    assert (st.rtt + k as real * 8.0 - 120.0) / 8.0 == (st.rtt - 120.0) / 8.0 + k as real;
    PenaltyReduces(st, st.(rtt := st.rtt + k as real * 8.0), sample, k);
  }

  /** Two milliseconds of jitter over 20. */
  lemma {:induction false} JitterPrice(st: AdaptiveState, sample: NetworkSample, k: nat)
    requires st.jitter >= 20.0
    ensures Score(st.(jitter := st.jitter + k as real * 2.0), sample) == Reduced(Score(st, sample), k)
  {
    WholePoints((st.jitter - 20.0) / 2.0, k);
    assert (st.jitter + k as real * 2.0 - 20.0) / 2.0 == (st.jitter - 20.0) / 2.0 + k as real;
    PenaltyReduces(st, st.(jitter := st.jitter + k as real * 2.0), sample, k);
  }

  /** Half a percent of dropped frames. */
  lemma {:induction false} DroppedPrice(st: AdaptiveState, sample: NetworkSample, k: nat)
    requires st.dropped >= 0.0
    ensures Score(st.(dropped := st.dropped + k as real / 2.0), sample) == Reduced(Score(st, sample), k)
  {
    WholePoints(st.dropped * 2.0, k);
    assert (st.dropped + k as real / 2.0) * 2.0 == st.dropped * 2.0 + k as real;
    PenaltyReduces(st, st.(dropped := st.dropped + k as real / 2.0), sample, k);
  }

  /** And half a millisecond of decoding over 24. */
  lemma {:induction false} DecodePrice(st: AdaptiveState, sample: NetworkSample, k: nat)
    requires st.decode >= 24.0
    ensures Score(st.(decode := st.decode + k as real / 2.0), sample) == Reduced(Score(st, sample), k)
  {
    WholePoints((st.decode - 24.0) * 2.0, k);
    assert (st.decode + k as real / 2.0 - 24.0) * 2.0 == (st.decode - 24.0) * 2.0 + k as real;
    PenaltyReduces(st, st.(decode := st.decode + k as real / 2.0), sample, k);
  }

  /** And each event: a freeze costs 15 points and four more a piece, a picture loss three,
      a retransmission request one up to thirty. */
  lemma {:induction false} EventPrices(st: AdaptiveState, sample: NetworkSample, n: nat)
    requires n > 0
    ensures sample.freezeDelta <= 0 ==>
      Score(st, sample.(freezeDelta := n)) == Reduced(Score(st, sample), 15 + 4 * n)
    ensures sample.pliDelta <= 0 ==> Score(st, sample.(pliDelta := n)) == Reduced(Score(st, sample), 3 * n)
    ensures sample.nackDelta <= 0 ==>
      Score(st, sample.(nackDelta := n)) == Reduced(Score(st, sample), if n < 30 then n else 30)
  {
  }

  /** What an operator leaves unset. */
  lemma {:induction false} UnsetOptions(o: AdaptiveOptions)
    requires o.mediumLayerMinKbps <= 0 && o.highLayerMinKbps <= 0 && o.criticalLayerKbps <= 0
    requires o.minUpswitchInterval <= 0 && o.minDownswitchInterval <= 0
    requires o.goodSamplesForUpgrade <= 0 && o.poorSamplesForDowngrade <= 0 && (o.alpha <= 0.0 || o.alpha > 1.0)
    ensures o.WithDefaults() == AdaptiveOptions(650, 1600, 120, 8_000_000_000, 1_500_000_000, 3, 1, 0.35)
  {
  }
}
