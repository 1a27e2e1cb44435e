/** Worse never looks better: the policy is monotone in the network it sees. */
module Monotone {
  import opened Quality
  import opened Adaptive

  /** Every smoothed metric the policy reads is at least as bad in `a` as in `b`. */
  predicate WorseState(a: AdaptiveState, b: AdaptiveState) {
    && a.bandwidth <= b.bandwidth
    && a.loss >= b.loss && a.rtt >= b.rtt && a.jitter >= b.jitter
    && a.audioLoss >= b.audioLoss && a.audioJitter >= b.audioJitter
    && a.dropped >= b.dropped && a.decode >= b.decode
  }

  predicate WorseSample(a: NetworkSample, b: NetworkSample) {
    a.freezeDelta >= b.freezeDelta && a.pliDelta >= b.pliDelta && a.nackDelta >= b.nackDelta
  }

  /** A rounded estimate of zero or less means "unknown" and reads as unlimited. */
  predicate ComparableBandwidth(a: AdaptiveState, b: AdaptiveState) {
    Round(a.bandwidth) > 0 || Round(b.bandwidth) <= 0
  }

  lemma {:induction false} TruncMonotone(x: real, y: real)
    requires x <= y
    ensures Trunc(x) <= Trunc(y)
  {
  }

  lemma {:induction false} RoundMonotone(x: real, y: real)
    requires x <= y
    ensures Round(x) <= Round(y)
  {
  }

  lemma {:induction false} TransportPenaltyMonotone(a: AdaptiveState, b: AdaptiveState)
    requires WorseState(a, b)
    ensures TransportPenalty(b) <= TransportPenalty(a)
  {
    TruncMonotone(b.loss * 4.0, a.loss * 4.0);
    TruncMonotone(Excess(b.rtt, 120.0) / 8.0, Excess(a.rtt, 120.0) / 8.0);
    TruncMonotone(Excess(b.jitter, 20.0) / 2.0, Excess(a.jitter, 20.0) / 2.0);
  }

  lemma {:induction false} DecoderPenaltyMonotone(a: AdaptiveState, b: AdaptiveState)
    requires WorseState(a, b)
    ensures DecoderPenalty(b) <= DecoderPenalty(a)
  {
    TruncMonotone(b.dropped * 2.0, a.dropped * 2.0);
    TruncMonotone(Excess(b.decode, 24.0) * 2.0, Excess(a.decode, 24.0) * 2.0);
  }

  lemma {:induction false} EventPenaltyMonotone(a: NetworkSample, b: NetworkSample)
    requires WorseSample(a, b)
    ensures EventPenalty(b) <= EventPenalty(a)
  {
  }

  lemma {:induction false} ScoreMonotone(a: AdaptiveState, xa: NetworkSample, b: AdaptiveState, xb: NetworkSample)
    requires WorseState(a, b) && WorseSample(xa, xb)
    ensures Score(a, xa) <= Score(b, xb)
  {
    TransportPenaltyMonotone(a, b);
    DecoderPenaltyMonotone(a, b);
    EventPenaltyMonotone(xa, xb);
  }

  // ---- What a lost bandwidth estimate can hide, exactly ----

  /** Suspension does not end with the worse network: its estimate is known, or the better
      one is not critical, or the worse audio suspends video by itself. */
  predicate SuspensionSafe(opts: AdaptiveOptions, a: AdaptiveState, b: AdaptiveState) {
    ComparableBandwidth(a, b) || !BelowCriticalBandwidth(opts, b) || a.audioLoss >= 10.0 || a.audioJitter >= 120.0
  }

  lemma {:induction false} SuspensionMonotoneExactly(opts: AdaptiveOptions, a: AdaptiveState, b: AdaptiveState)
    requires WorseState(a, b)
    ensures (Suspend(opts, b) ==> Suspend(opts, a)) <==> SuspensionSafe(opts, a, b)
  {
    RoundMonotone(a.bandwidth, b.bandwidth);
  }

  /** The grade does not improve: or the worse transport or score is critical by itself. */
  predicate GradeSafe(opts: AdaptiveOptions, a: AdaptiveState, xa: NetworkSample, b: AdaptiveState) {
    ComparableBandwidth(a, b) || !BelowCriticalBandwidth(opts, b) || CriticalTransport(a) || Score(a, xa) < 30
  }

  lemma {:induction false} GradeMonotoneExactly(opts: AdaptiveOptions, a: AdaptiveState, xa: NetworkSample,
                                                b: AdaptiveState, xb: NetworkSample)
    requires WorseState(a, b) && WorseSample(xa, xb)
    ensures GradeRank(RawDecision(opts, a, xa).grade) >= GradeRank(RawDecision(opts, b, xb).grade) <==>
      GradeSafe(opts, a, xa, b)
  {
    RoundMonotone(a.bandwidth, b.bandwidth);
    ScoreMonotone(a, xa, b, xb);
  }

  /** Something other than bandwidth keeps the worse network at the low layer. */
  predicate LowAnyway(a: AdaptiveState, xa: NetworkSample) {
    PoorTransport(a) || CriticalTransport(a) || AudioPriority(a) || (DecodePressure(a, xa) && ModerateTransport(a))
  }

  /** The layer does not rise. */
  predicate LayerSafe(opts: AdaptiveOptions, a: AdaptiveState, xa: NetworkSample, b: AdaptiveState, xb: NetworkSample) {
    || ComparableBandwidth(a, b)
    || LowAnyway(a, xa)
    || BandwidthQuality(opts, b) == High
    || ((DecodePressure(a, xa) || ModerateTransport(a))
        && BandwidthQuality(opts, b) == Medium && !DecodePressure(b, xb))
  }

  lemma {:induction false} RawLayerMonotoneExactly(opts: AdaptiveOptions, a: AdaptiveState, xa: NetworkSample,
                                                   b: AdaptiveState, xb: NetworkSample)
    requires WorseState(a, b) && WorseSample(xa, xb)
    ensures Rank(RawDecision(opts, a, xa).quality) <= Rank(RawDecision(opts, b, xb).quality) <==>
      LayerSafe(opts, a, xa, b, xb)
  {
    RoundMonotone(a.bandwidth, b.bandwidth);
    RawQualityMeaning(opts, a, xa);
    RawQualityMeaning(opts, b, xb);
  }

  // ---- Clamping ----

  lemma {:induction false} ClampMonotone(low: QualityLayer, high: QualityLayer, available: seq<QualityLayer>)
    requires Rank(low) <= Rank(high)
    ensures Rank(ClampQuality(low, available)) <= Rank(ClampQuality(high, available))
  {
    assert forall q :: q in available && Known(q) ==> q in LayerPriority(low) && q in LayerPriority(high);
  }

  /** The available layers tell two wanted ones apart: some layer above the lower wish and
      within the higher one is there, and so is a lower alternative. */
  ghost predicate Separates(available: seq<QualityLayer>, low: QualityLayer, high: QualityLayer) {
    || available == []
    || exists k, m :: k in available && m in available && Known(k) && Known(m)
                      && Rank(k) < Rank(m) && Rank(low) < Rank(m) <= Rank(high)
  }

  /** Clamping keeps two different wishes apart exactly when the available layers do. */
  lemma {:induction false} ClampSeparatesExactly(low: QualityLayer, high: QualityLayer, available: seq<QualityLayer>)
    requires Rank(low) < Rank(high)
    ensures Rank(ClampQuality(low, available)) < Rank(ClampQuality(high, available)) <==>
      Separates(available, low, high)
  {
    if available != [] && Separates(available, low, high) {
      var k, m :| k in available && m in available && Known(k) && Known(m)
                  && Rank(k) < Rank(m) && Rank(low) < Rank(m) <= Rank(high);
      SeparatedClamps(low, high, available, k, m);
    } else if exists k :: k in available && Known(k) {
      var cl, ch := ClampQuality(low, available), ClampQuality(high, available);
      assert cl in available && ch in available && Known(cl) && Known(ch);
    }
  }

  lemma {:induction false} SeparatedClamps(low: QualityLayer, high: QualityLayer, available: seq<QualityLayer>,
                                           k: QualityLayer, m: QualityLayer)
    requires k in available && m in available && Known(k) && Known(m)
    requires Rank(k) < Rank(m) && Rank(low) < Rank(m) <= Rank(high)
    ensures Rank(ClampQuality(low, available)) < Rank(ClampQuality(high, available))
  {
    assert ClampQuality(high, available) == m || Closer(high, ClampQuality(high, available), m);
    assert ClampQuality(low, available) == k || Closer(low, ClampQuality(low, available), k);
  }

  // ---- The whole comparison ----

  /** Score and audio priority are monotone on every pair of networks; grade, suspension
      and clamped layer exactly under the conditions above, and so always when the worse
      bandwidth estimate is known, or the better one is unknown too. */
  lemma {:induction false} WorseNeverLooksBetter(opts: AdaptiveOptions, a: AdaptiveState, xa: NetworkSample,
                                                 b: AdaptiveState, xb: NetworkSample, available: seq<QualityLayer>)
    requires WorseState(a, b) && WorseSample(xa, xb)
    ensures var ra, rb := RawDecision(opts, a, xa), RawDecision(opts, b, xb);
      && ra.score <= rb.score
      && (rb.audioPriority ==> ra.audioPriority)
      && ((rb.suspend ==> ra.suspend) <==> SuspensionSafe(opts, a, b))
      && (GradeRank(ra.grade) >= GradeRank(rb.grade) <==> GradeSafe(opts, a, xa, b))
      && (Rank(ClampQuality(ra.quality, available)) <= Rank(ClampQuality(rb.quality, available)) <==>
          (LayerSafe(opts, a, xa, b, xb) || !Separates(available, rb.quality, ra.quality)))
    ensures ComparableBandwidth(a, b) ==>
      SuspensionSafe(opts, a, b) && GradeSafe(opts, a, xa, b) && LayerSafe(opts, a, xa, b, xb)
  {
    var ra, rb := RawDecision(opts, a, xa), RawDecision(opts, b, xb);
    ScoreMonotone(a, xa, b, xb);
    SuspensionMonotoneExactly(opts, a, b);
    GradeMonotoneExactly(opts, a, xa, b, xb);
    RawLayerMonotoneExactly(opts, a, xa, b, xb);
    if LayerSafe(opts, a, xa, b, xb) {
      ClampMonotone(ra.quality, rb.quality, available);
    } else {
      ClampSeparatesExactly(rb.quality, ra.quality, available);
    }
  }

  /** The rank the device cap allows. */
  function CapRank(device: DeviceClass, lowPower: bool): (r: int) {
    if device == Legacy then 1 else if device == LowEnd || lowPower then 2 else 3
  }

  lemma {:induction false} CapRankMeaning(q: QualityLayer, device: DeviceClass, lowPower: bool)
    ensures Rank(CapForDevice(q, device, lowPower))
         == (if Rank(q) <= CapRank(device, lowPower) then Rank(q) else CapRank(device, lowPower))
  {
  }

  /** The wanted layer does not rise. If the worse network suspends video, the better one
      does too or the lowest layer there is fits the device cap, which suspension bypasses.
      If it does not, the clamped layer does not rise, or the cap hides that it does. */
  ghost predicate DesiredSafe(opts: AdaptiveOptions, a: AdaptiveState, xa: NetworkSample,
                              b: AdaptiveState, xb: NetworkSample, available: seq<QualityLayer>)
  {
    var cap := CapRank(xa.device, xa.lowPower);
    if Suspend(opts, a) then Suspend(opts, b) || Rank(ClampQuality(Low, available)) <= cap
    else
      var qa, qb := RawDecision(opts, a, xa).quality, RawDecision(opts, b, xb).quality;
      LayerSafe(opts, a, xa, b, xb) || !Separates(available, qb, qa) || cap <= Rank(ClampQuality(qb, available))
  }

  /** The layer wanted after the device cap, on the same device, for every pair of networks. */
  lemma {:induction false} DesiredMonotoneExactly(opts: AdaptiveOptions, a: AdaptiveState, xa: NetworkSample,
                                                  b: AdaptiveState, xb: NetworkSample, available: seq<QualityLayer>)
    requires WorseState(a, b) && WorseSample(xa, xb)
    requires xa.device == xb.device && xa.lowPower == xb.lowPower
    ensures var da := Desired(RawDecision(opts, a, xa), xa, available);
      var db := Desired(RawDecision(opts, b, xb), xb, available);
      Rank(da) <= Rank(db) <==> DesiredSafe(opts, a, xa, b, xb, available)
  {
    var ra, rb := RawDecision(opts, a, xa), RawDecision(opts, b, xb);
    WorseNeverLooksBetter(opts, a, xa, b, xb, available);
    RawQualityMeaning(opts, b, xb);
    ClampMonotone(Low, rb.quality, available);
    CapRankMeaning(ClampQuality(ra.quality, available), xa.device, xa.lowPower);
    CapRankMeaning(ClampQuality(rb.quality, available), xb.device, xb.lowPower);
  }

  /** The exception is real: on a legacy device that is offered only the full layer,
      losing audio raises the wanted layer from low to full. */
  lemma {:induction false} SuspensionBypassesDeviceCap(opts: AdaptiveOptions, b: AdaptiveState, x: NetworkSample)
    requires x.device == Legacy && !Suspend(opts, b)
    ensures WorseState(b.(audioLoss := 12.0), b)
    ensures Desired(RawDecision(opts, b, x), x, [High]) == Low
    ensures Desired(RawDecision(opts, b.(audioLoss := 12.0), x), x, [High]) == High
  {
    CapRankMeaning(ClampQuality(RawDecision(opts, b, x).quality, [High]), Legacy, x.lowPower);
  }

  /** So is the other one: a healthy link whose bandwidth estimate is lost altogether
      looks better than the same link at a known low bandwidth; below the critical
      bandwidth it also stops being suspended and loses its critical grade. */
  lemma {:induction false} UnknownBandwidthReadsAsUnlimited(opts: AdaptiveOptions, b: AdaptiveState, x: NetworkSample)
    requires 0 < Round(b.bandwidth) < opts.mediumLayerMinKbps
    requires !ModerateTransport(b) && !PoorTransport(b) && !DecodePressure(b, x) && !AudioPriority(b)
    ensures var lost := b.(bandwidth := 0.0);
      && RawDecision(opts, b, x).quality == Low && RawDecision(opts, lost, x).quality == High
      && (BelowCriticalBandwidth(opts, b) ==>
            && Suspend(opts, b) && !Suspend(opts, lost)
            && RawDecision(opts, b, x).grade == Critical
            && (RawDecision(opts, lost, x).grade == Critical <==> Score(b, x) < 30))
  {
    RawQualityMeaning(opts, b, x);
    RawQualityMeaning(opts, b.(bandwidth := 0.0), x);
  }
}
