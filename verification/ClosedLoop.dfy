/** The closed loop of adaptation: a subscriber's recorded layer is an input of the
    next decision, and the decision moves the recorded layer. */
module ClosedLoop {
  import opened Wrappers
  import opened Quality
  import opened Adaptive

  /** Controller state of the key and layer recorded for the subscriber. */
  datatype Loop = Loop(st: Option<AdaptiveState>, recorded: Option<QualityLayer>)

  /** One report: when it is decided on, and the stream's layers in the order the
      layer map happens to be walked. */
  datatype Tick = Tick(now: int, available: seq<QualityLayer>)

  ghost predicate KnownLayers(layers: set<QualityLayer>) {
    layers != {} && forall q :: q in layers ==> Known(q)
  }

  function Shown(recorded: Option<QualityLayer>): (q: QualityLayer) {
    if recorded.Some? then recorded.value else Medium
  }

  /** Plan and apply one adaptation of a live subscriber. */
  ghost function LoopStep(opts: AdaptiveOptions, layers: set<QualityLayer>, l: Loop, sample: NetworkSample,
                          t: Tick): (r: Loop)
    requires KnownLayers(layers)
  {
    var (st, d) := DecideStep(opts, l.st, sample, Shown(l.recorded), t.available, t.now);
    Loop(Some(st), if d.changed || d.suspended then Some(BestKnown(layers, d.target)) else l.recorded)
  }

  ghost function LoopRun(opts: AdaptiveOptions, layers: set<QualityLayer>, l: Loop, sample: NetworkSample,
                         ts: seq<Tick>): (r: Loop)
    requires KnownLayers(layers)
  {
    if |ts| == 0 then l
    else LoopStep(opts, layers, LoopRun(opts, layers, l, sample, ts[..|ts| - 1]), sample, ts[|ts| - 1])
  }

  /** Every tick lists exactly the stream's layers. */
  ghost predicate Enumerates(layers: set<QualityLayer>, ts: seq<Tick>) {
    forall i :: 0 <= i < |ts| ==> (set q | q in ts[i].available) == layers
  }

  // ---- A constant sample gives a constant wish ----

  /** The smoothed metrics equal what the sample reports. */
  predicate Steady(st: AdaptiveState, s: NetworkSample) {
    && st.initialized
    && st.bandwidth == s.Bandwidth() as real && st.loss == s.lossPct && st.rtt == s.rttMs as real
    && st.jitter == s.jitterMs && st.audioLoss == s.audioLossPct && st.audioJitter == s.audioJitterMs
    && st.fps == s.fps && st.dropped == s.droppedFramesPct && st.decode == s.decodeTimeMs
  }

  lemma {:induction false} EwmaFixed(x: real, alpha: real)
    ensures Ewma(x, x, alpha) == x
  {
    assert x * (1.0 - alpha) + x * alpha == x;
  }

  lemma {:induction false} UpdateKeepsSteady(st: AdaptiveState, s: NetworkSample, alpha: real)
    requires !st.initialized || Steady(st, s)
    ensures Steady(UpdateState(st, s, alpha), s)
  {
    if st.initialized {
      EwmaFixed(st.bandwidth, alpha);
      EwmaFixed(st.loss, alpha);
      EwmaFixed(st.rtt, alpha);
      EwmaFixed(st.jitter, alpha);
      EwmaFixed(st.audioLoss, alpha);
      EwmaFixed(st.audioJitter, alpha);
      EwmaFixed(st.fps, alpha);
      EwmaFixed(st.dropped, alpha);
      EwmaFixed(st.decode, alpha);
    }
  }

  /** The state without its switching history. */
  function Bare(st: AdaptiveState): (r: AdaptiveState) {
    st.(lastQuality := Medium, lastSwitchAt := 0, consecutiveGood := 0, consecutivePoor := 0)
  }

  /** The policy's verdict on the sample taken at face value. */
  function Verdict(opts: AdaptiveOptions, s: NetworkSample): (raw: Raw) {
    RawDecision(opts, UpdateState(FreshState(Medium, 0), s, opts.alpha), s)
  }

  lemma {:induction false} ScoreIgnoresHistory(st: AdaptiveState, s: NetworkSample)
    ensures Score(st, s) == Score(Bare(st), s)
  {
  }

  lemma {:induction false} RawIgnoresHistory(opts: AdaptiveOptions, st: AdaptiveState, s: NetworkSample)
    ensures RawDecision(opts, st, s) == RawDecision(opts, Bare(st), s)
  {
    ScoreIgnoresHistory(st, s);
    assert BandwidthQuality(opts, st) == BandwidthQuality(opts, Bare(st));
  }

  lemma {:induction false} SteadyVerdict(opts: AdaptiveOptions, st: AdaptiveState, s: NetworkSample)
    requires Steady(st, s)
    ensures RawDecision(opts, st, s) == Verdict(opts, s)
  {
    RawIgnoresHistory(opts, st, s);
    assert Bare(st) == UpdateState(FreshState(Medium, 0), s, opts.alpha);
  }

  lemma {:induction false} ClampIgnoresOrder(q: QualityLayer, available: seq<QualityLayer>, layers: set<QualityLayer>)
    requires KnownLayers(layers) && (set k | k in available) == layers
    ensures ClampQuality(q, available) == BestKnown(layers, q)
  {
    var k :| k in layers;
    assert k in available && k in LayerPriority(q);
    assert forall c :: c in available <==> c in layers;
  }

  /** The layer the constant sample asks for. */
  ghost function Wish(opts: AdaptiveOptions, layers: set<QualityLayer>, s: NetworkSample): (q: QualityLayer)
    requires KnownLayers(layers)
    ensures Known(q)
  {
    var raw := Verdict(opts, s);
    if raw.suspend then BestKnown(layers, Low)
    else CapForDevice(BestKnown(layers, raw.quality), s.device, s.lowPower)
  }

  /** Where the subscriber ends up: the best layer there is for that wish. */
  ghost function Goal(opts: AdaptiveOptions, layers: set<QualityLayer>, s: NetworkSample): (q: QualityLayer)
    requires KnownLayers(layers)
    ensures q in layers
  {
    BestKnown(layers, Wish(opts, layers, s))
  }

  predicate Coherent(l: Loop, s: NetworkSample) {
    l.st.Some? ==> Steady(l.st.value, s)
  }

  /** One adaptation seen through the constant wish. */
  lemma {:induction false} StepSeesWish(opts: AdaptiveOptions, layers: set<QualityLayer>, l: Loop, s: NetworkSample,
                                        t: Tick)
    requires KnownLayers(layers) && Coherent(l, s) && (set q | q in t.available) == layers
    ensures var current := Effective(Shown(l.recorded));
      var st0 := if l.st.Some? then l.st.value else FreshState(current, t.now);
      var (st2, target, hold) :=
        Switched(opts, UpdateState(st0, s, opts.alpha), Verdict(opts, s), s, Wish(opts, layers, s), current, t.now);
      && LoopStep(opts, layers, l, s, t)
         == Loop(Some(st2), if target != current || Verdict(opts, s).suspend
                            then Some(BestKnown(layers, target)) else l.recorded)
      && Coherent(LoopStep(opts, layers, l, s, t), s)
  {
    var current := Effective(Shown(l.recorded));
    var st0 := if l.st.Some? then l.st.value else FreshState(current, t.now);
    var st1 := UpdateState(st0, s, opts.alpha);
    UpdateKeepsSteady(st0, s, opts.alpha);
    SteadyVerdict(opts, st1, s);
    ClampIgnoresOrder(Verdict(opts, s).quality, t.available, layers);
    ClampIgnoresOrder(Low, t.available, layers);
    DecideStepParts(opts, l.st, s, Shown(l.recorded), t.available, t.now, st1, Verdict(opts, s), Wish(opts, layers, s));
  }

  /** A suspended upgrade that hysteresis holds back resolves to the goal anyway. */
  lemma {:induction false} HeldSuspensionReachesGoal(layers: set<QualityLayer>, current: QualityLayer)
    requires KnownLayers(layers) && Rank(BestKnown(layers, Low)) > Rank(current)
    ensures BestKnown(layers, current) == BestKnown(layers, Low)
  {
  }

  lemma {:induction false} StepKeepsOrReaches(opts: AdaptiveOptions, layers: set<QualityLayer>, l: Loop,
                                              s: NetworkSample, t: Tick)
    requires KnownLayers(layers) && Coherent(l, s) && (set q | q in t.available) == layers
    ensures var r := LoopStep(opts, layers, l, s, t).recorded;
      r == l.recorded || r == Some(Goal(opts, layers, s))
    ensures Coherent(LoopStep(opts, layers, l, s, t), s)
  {
    StepSeesWish(opts, layers, l, s, t);
    var current := Effective(Shown(l.recorded));
    if Verdict(opts, s).suspend && Rank(BestKnown(layers, Low)) > Rank(current) {
      HeldSuspensionReachesGoal(layers, current);
    }
  }

  lemma {:induction false} RunCoherent(opts: AdaptiveOptions, layers: set<QualityLayer>, l: Loop, s: NetworkSample,
                                       ts: seq<Tick>)
    requires KnownLayers(layers) && Enumerates(layers, ts) && l.st == None
    ensures Coherent(LoopRun(opts, layers, l, s, ts), s)
    decreases |ts|
  {
    if |ts| > 0 {
      RunCoherent(opts, layers, l, s, ts[..|ts| - 1]);
      StepKeepsOrReaches(opts, layers, LoopRun(opts, layers, l, s, ts[..|ts| - 1]), s, ts[|ts| - 1]);
    }
  }

  /** The layer recorded after the first i adaptations. */
  ghost function RecordedAfter(opts: AdaptiveOptions, layers: set<QualityLayer>, l: Loop, s: NetworkSample,
                               ts: seq<Tick>, i: nat): (r: Option<QualityLayer>)
    requires KnownLayers(layers) && i <= |ts|
  {
    LoopRun(opts, layers, l, s, ts[..i]).recorded
  }

  lemma {:induction false} KeepsOrReaches(opts: AdaptiveOptions, layers: set<QualityLayer>, l: Loop, s: NetworkSample,
                                          ts: seq<Tick>, i: nat, j: nat)
    requires KnownLayers(layers) && Enumerates(layers, ts) && l.st == None && i <= j <= |ts|
    ensures
      || RecordedAfter(opts, layers, l, s, ts, j) == RecordedAfter(opts, layers, l, s, ts, i)
      || RecordedAfter(opts, layers, l, s, ts, j) == Some(Goal(opts, layers, s))
    decreases j
  {
    if i < j {
      KeepsOrReaches(opts, layers, l, s, ts, i, j - 1);
      RunCoherent(opts, layers, l, s, ts[..j - 1]);
      assert ts[..j][..j - 1] == ts[..j - 1];
      StepKeepsOrReaches(opts, layers, LoopRun(opts, layers, l, s, ts[..j - 1]), s, ts[j - 1]);
    }
  }

  /** The layers recorded over the run, before the first adaptation and after each. */
  ghost function History(opts: AdaptiveOptions, layers: set<QualityLayer>, l: Loop, s: NetworkSample,
                         ts: seq<Tick>): (h: seq<Option<QualityLayer>>)
    requires KnownLayers(layers)
    ensures |h| == |ts| + 1 && h[0] == l.recorded
  {
    seq(|ts| + 1, i requires 0 <= i <= |ts| => RecordedAfter(opts, layers, l, s, ts, i))
  }

  predicate OneWay(h: seq<Option<QualityLayer>>, goal: Option<QualityLayer>) {
    forall i, j :: 0 <= i <= j < |h| ==> h[j] == h[i] || h[j] == goal
  }

  /** A change at one step rules out a change at any later one. */
  predicate AtMostOneChange(h: seq<Option<QualityLayer>>) {
    forall i, j :: 0 < i < j < |h| && h[i] != h[i - 1] ==> h[j] == h[j - 1]
  }

  lemma {:induction false} OneWayChangesOnce(h: seq<Option<QualityLayer>>, goal: Option<QualityLayer>)
    requires OneWay(h, goal)
    ensures AtMostOneChange(h)
  {
    forall i, j | 0 < i < j < |h| && h[i] != h[i - 1]
      ensures h[j] == h[j - 1]
    {
      assert h[i] == goal;
      assert h[j - 1] == goal;
      assert h[j] == goal;
    }
  }

  /** Stability: with equal samples and fixed known layers, whatever the timestamps
      and whatever was recorded before, the recorded layer changes at most once, and
      only to the goal. */
  lemma {:induction false} ChangesAtMostOnce(opts: AdaptiveOptions, layers: set<QualityLayer>, l: Loop,
                                             s: NetworkSample, ts: seq<Tick>)
    requires KnownLayers(layers) && Enumerates(layers, ts) && l.st == None
    ensures AtMostOneChange(History(opts, layers, l, s, ts))
    ensures OneWay(History(opts, layers, l, s, ts), Some(Goal(opts, layers, s)))
  {
    var h := History(opts, layers, l, s, ts);
    var goal := Some(Goal(opts, layers, s));
    forall i, j | 0 <= i <= j < |h|
      ensures h[j] == h[i] || h[j] == goal
    {
      KeepsOrReaches(opts, layers, l, s, ts, i, j);
    }
    OneWayChangesOnce(h, goal);
  }

  // ---- and it does get there ----

  /** Still waiting after i adaptations: nothing switched, every one of them counted. */
  ghost predicate Waiting(opts: AdaptiveOptions, layers: set<QualityLayer>, r: Loop, s: NetworkSample,
                          current: QualityLayer, start: int, i: nat)
    requires KnownLayers(layers)
  {
    && r.recorded == Some(current) && r.st.Some?
    && r.st.value.lastSwitchAt == start
    && (Rank(Wish(opts, layers, s)) > Rank(current) ==> r.st.value.consecutiveGood == i)
    && (Rank(Wish(opts, layers, s)) < Rank(current) ==> r.st.value.consecutivePoor == i)
  }

  lemma {:induction false} WaitsOrArrived(opts: AdaptiveOptions, layers: set<QualityLayer>, current: QualityLayer,
                                          s: NetworkSample, ts: seq<Tick>)
    requires KnownLayers(layers) && Enumerates(layers, ts) && current in layers && |ts| > 0
    ensures var r := LoopRun(opts, layers, Loop(None, Some(current)), s, ts);
      || r.recorded == Some(Goal(opts, layers, s))
      || Waiting(opts, layers, r, s, current, ts[0].now, |ts|)
    decreases |ts|
  {
    var l := Loop(None, Some(current));
    var init, last := ts[..|ts| - 1], ts[|ts| - 1];
    var prior := LoopRun(opts, layers, l, s, init);
    RunCoherent(opts, layers, l, s, init);
    StepSeesWish(opts, layers, prior, s, last);
    StepKeepsOrReaches(opts, layers, prior, s, last);
    if |ts| > 1 {
      assert init[0] == ts[0];
      WaitsOrArrived(opts, layers, current, s, init);
    }
  }

  lemma {:induction false} WaitingEnds(opts: AdaptiveOptions, layers: set<QualityLayer>, r: Loop, s: NetworkSample,
                                       current: QualityLayer, start: int, i: nat, t: Tick)
    requires KnownLayers(layers) && Coherent(r, s) && (set q | q in t.available) == layers && current in layers
    requires Waiting(opts, layers, r, s, current, start, i)
    requires i + 1 >= opts.goodSamplesForUpgrade && i + 1 >= opts.poorSamplesForDowngrade
    requires t.now - start >= opts.minUpswitchInterval && t.now - start >= opts.minDownswitchInterval
    ensures LoopStep(opts, layers, r, s, t).recorded == Some(Goal(opts, layers, s))
  {
    StepSeesWish(opts, layers, r, s, t);
  }

  /** Convergence: after enough reports over long enough, the subscriber receives the
      goal layer. */
  lemma {:induction false} ReachesGoal(opts: AdaptiveOptions, layers: set<QualityLayer>, current: QualityLayer,
                                       s: NetworkSample, ts: seq<Tick>)
    requires KnownLayers(layers) && Enumerates(layers, ts) && current in layers && |ts| > 1
    requires |ts| >= opts.goodSamplesForUpgrade && |ts| >= opts.poorSamplesForDowngrade
    requires ts[|ts| - 1].now - ts[0].now >= opts.minUpswitchInterval
    requires ts[|ts| - 1].now - ts[0].now >= opts.minDownswitchInterval
    ensures LoopRun(opts, layers, Loop(None, Some(current)), s, ts).recorded == Some(Goal(opts, layers, s))
  {
    var init, last := ts[..|ts| - 1], ts[|ts| - 1];
    var r := LoopRun(opts, layers, Loop(None, Some(current)), s, init);
    WaitsOrArrived(opts, layers, current, s, init);
    RunCoherent(opts, layers, Loop(None, Some(current)), s, init);
    if r.recorded == Some(Goal(opts, layers, s)) {
      StepKeepsOrReaches(opts, layers, r, s, last);
    } else {
      WaitingEnds(opts, layers, r, s, current, ts[0].now, |init|, last);
    }
  }
}
