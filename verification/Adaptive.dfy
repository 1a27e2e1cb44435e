/** The network-driven video adaptation policy: smoothing, scoring, layer choice
    and hysteresis for one received stream of one subscriber. */
module Adaptive {
  import opened Wrappers
  import opened Quality

  datatype DeviceClass = Legacy | LowEnd | OtherDevice

  datatype NetworkGrade = Excellent | Good | Fair | Poor | Critical

  datatype AdaptiveOptions = AdaptiveOptions(
    mediumLayerMinKbps: int,
    highLayerMinKbps: int,
    criticalLayerKbps: int,
    minUpswitchInterval: int,
    minDownswitchInterval: int,
    goodSamplesForUpgrade: int,
    poorSamplesForDowngrade: int,
    alpha: real)
  {
    predicate Valid() {
      && mediumLayerMinKbps > 0 && highLayerMinKbps > 0 && criticalLayerKbps > 0
      && minUpswitchInterval > 0 && minDownswitchInterval > 0
      && goodSamplesForUpgrade > 0 && poorSamplesForDowngrade > 0
      && 0.0 < alpha <= 1.0
    }

    /** Out-of-range settings get their defaults; usable ones are kept. Times are
        in nanoseconds. */
    function WithDefaults(): (o: AdaptiveOptions)
      ensures o.Valid()
      ensures Valid() ==> o == this
    {
      AdaptiveOptions(
        if mediumLayerMinKbps <= 0 then 650 else mediumLayerMinKbps,
        if highLayerMinKbps <= 0 then 1600 else highLayerMinKbps,
        if criticalLayerKbps <= 0 then 120 else criticalLayerKbps,
        if minUpswitchInterval <= 0 then 8_000_000_000 else minUpswitchInterval,
        if minDownswitchInterval <= 0 then 1_500_000_000 else minDownswitchInterval,
        if goodSamplesForUpgrade <= 0 then 3 else goodSamplesForUpgrade,
        if poorSamplesForDowngrade <= 0 then 1 else poorSamplesForDowngrade,
        if alpha <= 0.0 || alpha > 1.0 then 0.35 else alpha)
    }
  }

  datatype NetworkSample = NetworkSample(
    userID: string,
    streamID: string,
    availableKbps: int,
    observedKbps: int,
    lossPct: real,
    rttMs: int,
    jitterMs: real,
    audioLossPct: real,
    audioJitterMs: real,
    fps: real,
    droppedFramesPct: real,
    decodeTimeMs: real,
    freezeDelta: int,
    nackDelta: int,
    pliDelta: int,
    device: DeviceClass,
    lowPower: bool,
    timestamp: Option<int>)
  {
    /** Available bandwidth, or the observed one when none is reported. */
    function Bandwidth(): (bw: int) {
      if availableKbps <= 0 then observedKbps else availableKbps
    }

    /** The instant a decision on this sample is taken at. */
    function At(clock: int): (now: int) {
      if timestamp.Some? then timestamp.value else clock
    }
  }

  datatype AdaptiveState = AdaptiveState(
    initialized: bool,
    bandwidth: real,
    loss: real,
    rtt: real,
    jitter: real,
    audioLoss: real,
    audioJitter: real,
    fps: real,
    dropped: real,
    decode: real,
    lastQuality: QualityLayer,
    lastSwitchAt: int,
    consecutiveGood: nat,
    consecutivePoor: nat)

  function FreshState(current: QualityLayer, now: int): (st: AdaptiveState) {
    AdaptiveState(false, 0.0, 0.0, 0.0, 0.0, 0.0, 0.0, 0.0, 0.0, 0.0, current, now, 0, 0)
  }

  // ---- Arithmetic ----

  function Ewma(prev: real, next: real, alpha: real): (r: real) {
    prev * (1.0 - alpha) + next * alpha
  }

  /** Conversion to an integer: towards zero. */
  function Trunc(x: real): (n: int) {
    if x >= 0.0 then x.Floor else -((-x).Floor)
  }

  /** Rounding to the nearest integer, halves away from zero. */
  function Round(x: real): (n: int) {
    if x >= 0.0 then (x + 0.5).Floor else -((0.5 - x).Floor)
  }

  /** How far a metric is above a tolerated level. */
  function Excess(x: real, level: real): (r: real) {
    if x > level then x - level else 0.0
  }

  // ---- Smoothing ----

  function UpdateState(st: AdaptiveState, sample: NetworkSample, alpha: real): (r: AdaptiveState)
    ensures r.initialized
    ensures r.lastQuality == st.lastQuality && r.lastSwitchAt == st.lastSwitchAt
    ensures r.consecutiveGood == st.consecutiveGood && r.consecutivePoor == st.consecutivePoor
  {
    var bw := sample.Bandwidth();
    if !st.initialized then
      st.(initialized := true,
          bandwidth := bw as real,
          loss := sample.lossPct,
          rtt := sample.rttMs as real,
          jitter := sample.jitterMs,
          audioLoss := sample.audioLossPct,
          audioJitter := sample.audioJitterMs,
          fps := sample.fps,
          dropped := sample.droppedFramesPct,
          decode := sample.decodeTimeMs)
    else
      st.(bandwidth := if bw > 0 then Ewma(st.bandwidth, bw as real, alpha) else st.bandwidth,
          loss := Ewma(st.loss, sample.lossPct, alpha),
          rtt := if sample.rttMs > 0 then Ewma(st.rtt, sample.rttMs as real, alpha) else st.rtt,
          jitter := Ewma(st.jitter, sample.jitterMs, alpha),
          audioLoss := Ewma(st.audioLoss, sample.audioLossPct, alpha),
          audioJitter := Ewma(st.audioJitter, sample.audioJitterMs, alpha),
          fps := if sample.fps > 0.0 then Ewma(st.fps, sample.fps, alpha) else st.fps,
          dropped := Ewma(st.dropped, sample.droppedFramesPct, alpha),
          decode := Ewma(st.decode, sample.decodeTimeMs, alpha))
  }

  // ---- Scoring ----

  function EventPenalty(sample: NetworkSample): (p: int) {
    (if sample.freezeDelta > 0 then 15 + sample.freezeDelta * 4 else 0)
    + (if sample.pliDelta > 0 then sample.pliDelta * 3 else 0)
    + (if sample.nackDelta > 0 then if sample.nackDelta < 30 then sample.nackDelta else 30 else 0)
  }

  function TransportPenalty(st: AdaptiveState): (p: int) {
    Trunc(st.loss * 4.0) + Trunc(Excess(st.rtt, 120.0) / 8.0) + Trunc(Excess(st.jitter, 20.0) / 2.0)
  }

  function DecoderPenalty(st: AdaptiveState): (p: int) {
    Trunc(st.dropped * 2.0) + Trunc(Excess(st.decode, 24.0) * 2.0)
  }

  function Score(st: AdaptiveState, sample: NetworkSample): (score: int)
    ensures score >= 0
  {
    var raw := 100 - TransportPenalty(st) - DecoderPenalty(st) - EventPenalty(sample);
    if raw < 0 then 0 else raw
  }

  function GradeFromScore(score: int): (g: NetworkGrade) {
    if score >= 90 then Excellent
    else if score >= 75 then Good
    else if score >= 55 then Fair
    else if score >= 30 then Poor
    else Critical
  }

  /** 0 is best. */
  function GradeRank(g: NetworkGrade): (r: int) {
    match g
    case Excellent => 0
    case Good => 1
    case Fair => 2
    case Poor => 3
    case Critical => 4
  }

  // ---- Layer choice ----

  predicate AudioPriority(st: AdaptiveState) {
    st.audioLoss >= 4.0 || st.audioJitter >= 55.0
  }

  predicate BelowCriticalBandwidth(opts: AdaptiveOptions, st: AdaptiveState) {
    var bw := Round(st.bandwidth);
    bw > 0 && bw < opts.criticalLayerKbps
  }

  predicate Suspend(opts: AdaptiveOptions, st: AdaptiveState) {
    BelowCriticalBandwidth(opts, st) || st.audioLoss >= 10.0 || st.audioJitter >= 120.0
  }

  predicate CriticalTransport(st: AdaptiveState) {
    st.loss >= 12.0 || st.rtt >= 700.0 || st.jitter >= 120.0
  }

  predicate PoorTransport(st: AdaptiveState) {
    st.loss >= 5.0 || st.rtt >= 400.0 || st.jitter >= 70.0
  }

  predicate ModerateTransport(st: AdaptiveState) {
    st.loss >= 2.0 || st.rtt >= 220.0 || st.jitter >= 40.0
  }

  predicate DecodePressure(st: AdaptiveState, sample: NetworkSample) {
    st.dropped >= 12.0 || st.decode >= 45.0 || sample.freezeDelta >= 2
  }

  function BandwidthQuality(opts: AdaptiveOptions, st: AdaptiveState): (q: QualityLayer)
    ensures Known(q)
  {
    var bw := Round(st.bandwidth);
    if bw > 0 && bw < opts.criticalLayerKbps then Low
    else if bw > 0 && bw < opts.mediumLayerMinKbps then Low
    else if bw > 0 && bw < opts.highLayerMinKbps then Medium
    else High
  }

  datatype Raw = Raw(
    quality: QualityLayer,
    grade: NetworkGrade,
    score: int,
    audioPriority: bool,
    suspend: bool)

  function RawDecision(opts: AdaptiveOptions, st: AdaptiveState, sample: NetworkSample): (raw: Raw)
    ensures Known(raw.quality)
  {
    var score := Score(st, sample);
    var q0 := BandwidthQuality(opts, st);
    var g0 := if BelowCriticalBandwidth(opts, st) then Critical else GradeFromScore(score);
    var q1 :=
      if CriticalTransport(st) then MinQuality(q0, Low)
      else if PoorTransport(st) then MinQuality(q0, Low)
      else if ModerateTransport(st) then MinQuality(q0, Medium)
      else q0;
    var g1 := if CriticalTransport(st) then Critical else g0;
    var q2 := if DecodePressure(st, sample) then DowngradeQuality(q1) else q1;
    var q3 := if AudioPriority(st) then MinQuality(q2, Low) else q2;
    Raw(q3, g1, score, AudioPriority(st), Suspend(opts, st))
  }

  /** What the wanted layer means: high exactly when bandwidth, transport, decoder
      and audio are all healthy; low exactly when one of them rules out more. A
      suspended video always wants the low layer. */
  lemma {:induction false} RawQualityMeaning(opts: AdaptiveOptions, st: AdaptiveState, sample: NetworkSample)
    ensures var q := RawDecision(opts, st, sample).quality;
      && (q == High <==>
           && (Round(st.bandwidth) <= 0
               || (Round(st.bandwidth) >= opts.criticalLayerKbps && Round(st.bandwidth) >= opts.mediumLayerMinKbps
                   && Round(st.bandwidth) >= opts.highLayerMinKbps))
           && st.loss < 2.0 && st.rtt < 220.0 && st.jitter < 40.0
           && st.dropped < 12.0 && st.decode < 45.0 && sample.freezeDelta < 2
           && st.audioLoss < 4.0 && st.audioJitter < 55.0)
      && (q == Low <==>
           || (0 < Round(st.bandwidth)
               && (Round(st.bandwidth) < opts.criticalLayerKbps || Round(st.bandwidth) < opts.mediumLayerMinKbps))
           || st.loss >= 5.0 || st.rtt >= 400.0 || st.jitter >= 70.0
           || st.audioLoss >= 4.0 || st.audioJitter >= 55.0
           || (DecodePressure(st, sample)
               && (0 < Round(st.bandwidth) < opts.highLayerMinKbps
                   || st.loss >= 2.0 || st.rtt >= 220.0 || st.jitter >= 40.0)))
      && (Suspend(opts, st) ==> q == Low)
  {
  }

  function ClampQuality(q: QualityLayer, available: seq<QualityLayer>): (r: QualityLayer)
    ensures available != [] ==> r in available
    ensures available == [] ==> r == q
    ensures forall k :: k in available && Known(k) ==> Known(r) && (k == r || Closer(q, r, k))
    ensures available != [] && (forall k :: k in available ==> !Known(k)) ==> r == available[0]
  {
    if |available| == 0 then q
    else
      var order := LayerPriority(q);
      if order[0] in available then order[0]
      else if order[1] in available then order[1]
      else if order[2] in available then order[2]
      else available[0]
  }

  function CapForDevice(q: QualityLayer, device: DeviceClass, lowPower: bool): (r: QualityLayer)
    ensures Rank(r) <= Rank(q)
  {
    if device == Legacy then MinQuality(q, Low)
    else if device == LowEnd || lowPower then MinQuality(q, Medium)
    else q
  }

  predicate DeviceConstrained(device: DeviceClass, lowPower: bool) {
    device == Legacy || device == LowEnd || lowPower
  }

  /** The layer wanted before hysteresis. */
  function Desired(raw: Raw, sample: NetworkSample, available: seq<QualityLayer>): (q: QualityLayer) {
    if raw.suspend then ClampQuality(Low, available)
    else CapForDevice(ClampQuality(raw.quality, available), sample.device, sample.lowPower)
  }

  // ---- One decision ----

  datatype Decision = Decision(
    userID: string,
    streamID: string,
    previous: QualityLayer,
    target: QualityLayer,
    grade: NetworkGrade,
    changed: bool,
    hold: bool,
    audioPriority: bool,
    suspended: bool,
    estimatedKbps: int,
    score: int,
    decidedAt: int)

  function Effective(current: QualityLayer): (q: QualityLayer) {
    if current == Unknown("") then Medium else current
  }

  function Key(userID: string, streamID: string): (k: string) {
    userID + ":" + streamID
  }

  /** Smoothed state with the agreement counters of this decision. */
  function Counted(st: AdaptiveState, want: QualityLayer, current: QualityLayer): (r: AdaptiveState) {
    st.(consecutiveGood := if Rank(want) > Rank(current) then st.consecutiveGood + 1 else 0,
        consecutivePoor := if Rank(want) < Rank(current) then st.consecutivePoor + 1 else 0)
  }

  /** Whether hysteresis keeps the current layer although another one is wanted. */
  predicate Held(opts: AdaptiveOptions, st: AdaptiveState, raw: Raw, sample: NetworkSample,
                 want: QualityLayer, current: QualityLayer, now: int)
  {
    if Rank(want) > Rank(current) then
      st.consecutiveGood < opts.goodSamplesForUpgrade || now - st.lastSwitchAt < opts.minUpswitchInterval
    else
      && Rank(want) < Rank(current)
      && raw.grade != Critical
      && !(raw.audioPriority || raw.suspend || DeviceConstrained(sample.device, sample.lowPower))
      && (st.consecutivePoor < opts.poorSamplesForDowngrade || now - st.lastSwitchAt < opts.minDownswitchInterval)
  }

  /** New state, target layer and hold flag once the wanted layer is known. */
  function Switched(opts: AdaptiveOptions, st: AdaptiveState, raw: Raw, sample: NetworkSample,
                    want: QualityLayer, current: QualityLayer, now: int): (r: (AdaptiveState, QualityLayer, bool))
  {
    var st2 := Counted(st, want, current);
    var hold := Held(opts, st2, raw, sample, want, current, now);
    var target := if hold then current else want;
    (if target != current then st2.(lastSwitchAt := now, lastQuality := target) else st2, target, hold)
  }

  /** State and decision for one sample of one key. */
  function DecideStep(opts: AdaptiveOptions, prior: Option<AdaptiveState>, sample: NetworkSample,
                      current0: QualityLayer, available: seq<QualityLayer>, now: int): (r: (AdaptiveState, Decision))
  {
    var current := Effective(current0);
    var st0 := if prior.Some? then prior.value else FreshState(current, now);
    var st1 := UpdateState(st0, sample, opts.alpha);
    var raw := RawDecision(opts, st1, sample);
    var want := Desired(raw, sample, available);
    var (st2, target, hold) := Switched(opts, st1, raw, sample, want, current, now);
    (st2, Decision(sample.userID, sample.streamID, current, target, raw.grade, target != current, hold,
                   raw.audioPriority, raw.suspend, Round(st1.bandwidth), raw.score, now))
  }

  /** The parts of a decision, named as the controller computes them. */
  lemma {:induction false} DecideStepParts(opts: AdaptiveOptions, prior: Option<AdaptiveState>, sample: NetworkSample,
                                           current0: QualityLayer, available: seq<QualityLayer>, now: int,
                                           st: AdaptiveState, raw: Raw, want: QualityLayer)
    requires var st0 := if prior.Some? then prior.value else FreshState(Effective(current0), now);
      st == UpdateState(st0, sample, opts.alpha)
    requires raw == RawDecision(opts, st, sample)
    requires want == Desired(raw, sample, available)
    ensures var (st2, target, hold) := Switched(opts, st, raw, sample, want, Effective(current0), now);
      DecideStep(opts, prior, sample, current0, available, now)
      == (st2, Decision(sample.userID, sample.streamID, Effective(current0), target, raw.grade,
                        target != Effective(current0), hold, raw.audioPriority, raw.suspend,
                        Round(st.bandwidth), raw.score, now))
  {
  }

  function Lookup<T>(m: map<string, T>, k: string): (r: Option<T>) {
    if k in m then Some(m[k]) else None
  }

  predicate HasPrefix(s: string, prefix: string) {
    |prefix| <= |s| && s[..|prefix|] == prefix
  }

  predicate HasSuffix(s: string, suffix: string) {
    |suffix| <= |s| && s[|s| - |suffix|..] == suffix
  }

  /** The controller's table without the entries of some keys. */
  function Without(m: map<string, AdaptiveState>, gone: set<string>): (r: map<string, AdaptiveState>) {
    map k | k in m && k !in gone :: m[k]
  }

  function UserKeys(m: map<string, AdaptiveState>, userID: string): (ks: set<string>) {
    set k | k in m && HasPrefix(k, userID + ":")
  }

  function StreamKeys(m: map<string, AdaptiveState>, streamID: string): (ks: set<string>) {
    set k | k in m && HasSuffix(k, ":" + streamID)
  }

  class AdaptiveController {
    const options: AdaptiveOptions
    var state: map<string, AdaptiveState>

    constructor (opts: AdaptiveOptions)
      ensures options == opts.WithDefaults()
      ensures state == map[]
    {
      options := opts.WithDefaults();
      state := map[];
    }

    /** The switching half of a decision: agreement counters, hold, switch time. */
    method ApplyHysteresis(st0: AdaptiveState, raw: Raw, sample: NetworkSample,
                           want: QualityLayer, current: QualityLayer, now: int)
      returns (st: AdaptiveState, target: QualityLayer, hold: bool)
      ensures (st, target, hold) == Switched(options, st0, raw, sample, want, current, now)
      ensures target == if hold then current else want
      ensures Rank(want) > Rank(current) ==>
        (hold <==> st.consecutiveGood < options.goodSamplesForUpgrade
                   || now - st0.lastSwitchAt < options.minUpswitchInterval)
      ensures Rank(want) < Rank(current) ==>
        (hold <==> && raw.grade != Critical && !raw.audioPriority && !raw.suspend
                   && sample.device != Legacy && sample.device != LowEnd && !sample.lowPower
                   && (st.consecutivePoor < options.poorSamplesForDowngrade
                       || now - st0.lastSwitchAt < options.minDownswitchInterval))
      ensures Rank(want) == Rank(current) ==> !hold
    {
      st, target := st0, want;
      var immediateDownswitch := raw.audioPriority || raw.suspend || DeviceConstrained(sample.device, sample.lowPower);
      if Rank(target) > Rank(current) {
        st := st.(consecutiveGood := st.consecutiveGood + 1, consecutivePoor := 0);
      } else if Rank(target) < Rank(current) {
        st := st.(consecutivePoor := st.consecutivePoor + 1, consecutiveGood := 0);
      } else {
        st := st.(consecutiveGood := 0, consecutivePoor := 0);
      }

      hold := false;
      if Rank(target) > Rank(current) {
        if st.consecutiveGood < options.goodSamplesForUpgrade || now - st.lastSwitchAt < options.minUpswitchInterval {
          hold := true;
          target := current;
        }
      } else if Rank(target) < Rank(current) && raw.grade != Critical && !immediateDownswitch {
        if st.consecutivePoor < options.poorSamplesForDowngrade
           || now - st.lastSwitchAt < options.minDownswitchInterval {
          hold := true;
          target := current;
        }
      }

      var changed := target != current;
      if changed {
        st := st.(lastSwitchAt := now, lastQuality := target);
      }
    }

    method Decide(sample: NetworkSample, current0: QualityLayer, available: seq<QualityLayer>, clock: int)
      returns (d: Decision)
      modifies this`state
      ensures var key := sample.userID + ":" + sample.streamID;
        var prior := if key in old(state) then Some(old(state)[key]) else None;
        var r := DecideStep(options, prior, sample, current0, available, sample.At(clock));
        state == old(state)[key := r.0] && d == r.1
      ensures d.decidedAt == if sample.timestamp.Some? then sample.timestamp.value else clock
    {
      var now := sample.At(clock);
      var current := Effective(current0);
      var key := Key(sample.userID, sample.streamID);
      var prior := if key in state then state[key] else FreshState(current, now);
      var raw, target, hold;
      var st := UpdateState(prior, sample, options.alpha);
      raw := RawDecision(options, st, sample);
      target := ClampQuality(raw.quality, available);
      target := CapForDevice(target, sample.device, sample.lowPower);
      if raw.suspend {
        target := ClampQuality(Low, available);
      }
      assert target == Desired(raw, sample, available);
      DecideStepParts(options, if key in state then Some(state[key]) else None, sample, current0, available, now,
                      st, raw, target);

      st, target, hold := ApplyHysteresis(st, raw, sample, target, current, now);
      state := state[key := st];
      d := Decision(sample.userID, sample.streamID, current, target, raw.grade, target != current, hold,
                    raw.audioPriority, raw.suspend, Round(st.bandwidth), raw.score, now);
    }

    method ForgetUser(userID: string)
      modifies this`state
      ensures state == Without(old(state), UserKeys(old(state), userID))
    {
      var prefix := userID + ":";
      var todo := state.Keys;
      ghost var was := state;
      while todo != {}
        invariant todo <= was.Keys
        invariant state == map k | k in was && (k in todo || !HasPrefix(k, prefix)) :: was[k]
      {
        var key :| key in todo;
        todo := todo - {key};
        if HasPrefix(key, prefix) {
          state := state - {key};
        }
      }
    }

    method ForgetStream(streamID: string)
      modifies this`state
      ensures state == Without(old(state), StreamKeys(old(state), streamID))
    {
      var suffix := ":" + streamID;
      var todo := state.Keys;
      ghost var was := state;
      while todo != {}
        invariant todo <= was.Keys
        invariant state == map k | k in was && (k in todo || !HasSuffix(k, suffix)) :: was[k]
      {
        var key :| key in todo;
        todo := todo - {key};
        if HasSuffix(key, suffix) {
          state := state - {key};
        }
      }
    }
  }
}
