/** How often one subscriber's stream can be upgraded, over every run of the
    controller: any mix of keys, samples, available layers and forgets. */
module Upswitch {
  import opened Wrappers
  import opened Quality
  import opened Adaptive
  import opened Decisions

  datatype Event =
    | Decide(sample: NetworkSample, current: QualityLayer, available: seq<QualityLayer>, clock: int)
    | ForgetUser(userID: string)
    | ForgetStream(streamID: string)

  predicate DecidesOn(e: Event, key: string) {
    e.Decide? && Key(e.sample.userID, e.sample.streamID) == key
  }

  function Outcome(opts: AdaptiveOptions, m: map<string, AdaptiveState>, e: Event): (r: (AdaptiveState, Decision))
    requires e.Decide?
  {
    DecideStep(opts, Lookup(m, Key(e.sample.userID, e.sample.streamID)), e.sample, e.current, e.available,
               e.sample.At(e.clock))
  }

  /** What one controller call leaves in the table. */
  function Apply(opts: AdaptiveOptions, m: map<string, AdaptiveState>, e: Event): (r: map<string, AdaptiveState>) {
    match e
    case Decide(sample, _, _, _) => m[Key(sample.userID, sample.streamID) := Outcome(opts, m, e).0]
    case ForgetUser(u) => Without(m, UserKeys(m, u))
    case ForgetStream(s) => Without(m, StreamKeys(m, s))
  }

  function Run(opts: AdaptiveOptions, es: seq<Event>): (m: map<string, AdaptiveState>) {
    if |es| == 0 then map[] else Apply(opts, Run(opts, es[..|es| - 1]), es[|es| - 1])
  }

  /** The instants at which decisions on `key` were taken. */
  function Times(es: seq<Event>, key: string): (ts: seq<int>) {
    if |es| == 0 then []
    else
      var e := es[|es| - 1];
      Times(es[..|es| - 1], key) + if DecidesOn(e, key) then [e.sample.At(e.clock)] else []
  }

  predicate NonDecreasing(ts: seq<int>) {
    forall i, j :: 0 <= i < j < |ts| ==> ts[i] <= ts[j]
  }

  predicate IsUpswitch(opts: AdaptiveOptions, m: map<string, AdaptiveState>, e: Event, key: string) {
    DecidesOn(e, key) && Rank(Outcome(opts, m, e).1.target) > Rank(Outcome(opts, m, e).1.previous)
  }

  /** Which events of the run were upswitches of `key`. */
  function Flags(opts: AdaptiveOptions, es: seq<Event>, key: string): (fs: seq<bool>)
    ensures |fs| == |es|
  {
    if |es| == 0 then []
    else
      var before := es[..|es| - 1];
      Flags(opts, before, key) + [IsUpswitch(opts, Run(opts, before), es[|es| - 1], key)]
  }

  function Count(fs: seq<bool>): (n: nat) {
    if |fs| == 0 then 0 else Count(fs[..|fs| - 1]) + if fs[|fs| - 1] then 1 else 0
  }

  function Upswitches(opts: AdaptiveOptions, es: seq<Event>, key: string): (n: nat) {
    Count(Flags(opts, es, key))
  }

  predicate WantsHigher(opts: AdaptiveOptions, m: map<string, AdaptiveState>, e: Event)
    requires e.Decide?
  {
    Rank(WishOf(opts, Lookup(m, Key(e.sample.userID, e.sample.streamID)), e.sample, e.current, e.available,
                e.sample.At(e.clock)))
    > Rank(Effective(e.current))
  }

  /** Length of the last unbroken run of decisions on `key` that wanted a higher layer. */
  function Streak(opts: AdaptiveOptions, es: seq<Event>, key: string): (n: nat) {
    if |es| == 0 then 0
    else
      var before, e := es[..|es| - 1], es[|es| - 1];
      if !DecidesOn(e, key) then Streak(opts, before, key)
      else if WantsHigher(opts, Run(opts, before), e) then Streak(opts, before, key) + 1
      else 0
  }

  /** A single decision: an upswitch has waited its interval, and only a change of
      layer moves the switch time. */
  lemma {:induction false} SwitchTime(opts: AdaptiveOptions, prior: Option<AdaptiveState>, sample: NetworkSample,
                                      current: QualityLayer, available: seq<QualityLayer>, now: int)
    ensures var (st, d) := DecideStep(opts, prior, sample, current, available, now);
      var since := if prior.Some? then prior.value.lastSwitchAt else now;
      && (st.lastSwitchAt == now || st.lastSwitchAt == since)
      && (Rank(d.target) > Rank(d.previous) ==> st.lastSwitchAt == now && now - since >= opts.minUpswitchInterval)
  {
    var st0 := if prior.Some? then prior.value else FreshState(Effective(current), now);
    var st1 := UpdateState(st0, sample, opts.alpha);
    var raw := RawDecision(opts, st1, sample);
    DecideStepParts(opts, prior, sample, current, available, now, st1, raw, Desired(raw, sample, available));
  }

  /** A single decision: the agreement counter counts the decisions wanting a higher
      layer, and an upswitch needs enough of them. */
  lemma {:induction false} DecisionFacts(opts: AdaptiveOptions, prior: Option<AdaptiveState>, sample: NetworkSample,
                                         current: QualityLayer, available: seq<QualityLayer>, now: int)
    ensures var (st, d) := DecideStep(opts, prior, sample, current, available, now);
      var good := if prior.Some? then prior.value.consecutiveGood else 0;
      var up := Rank(WishOf(opts, prior, sample, current, available, now)) > Rank(Effective(current));
      && st.consecutiveGood == (if up then good + 1 else 0)
      && (Rank(d.target) > Rank(d.previous) ==> up && good + 1 >= opts.goodSamplesForUpgrade)
  {
    var st0 := if prior.Some? then prior.value else FreshState(Effective(current), now);
    var st1 := UpdateState(st0, sample, opts.alpha);
    var raw := RawDecision(opts, st1, sample);
    DecideStepParts(opts, prior, sample, current, available, now, st1, raw, Desired(raw, sample, available));
  }

  /** The time a number of upswitches uses up. */
  function Cost(fs: seq<bool>, interval: int): (t: int) {
    if |fs| == 0 then 0 else Cost(fs[..|fs| - 1], interval) + if fs[|fs| - 1] then interval else 0
  }

  lemma {:induction false} CostPerUpswitch(fs: seq<bool>, d: int)
    ensures Cost(fs, d) == Count(fs) * d
    decreases |fs|
  {
    if |fs| > 0 {
      var k := Count(fs[..|fs| - 1]);
      CostPerUpswitch(fs[..|fs| - 1], d);
      assert (k + 1) * d == k * d + d;
    }
  }

  function Spent(opts: AdaptiveOptions, es: seq<Event>, key: string): (t: int) {
    Cost(Flags(opts, es, key), opts.minUpswitchInterval)
  }

  /** Each upswitch has used up its own interval since the first decision. */
  ghost predicate Paid(opts: AdaptiveOptions, es: seq<Event>, key: string) {
    var ts, m := Times(es, key), Run(opts, es);
    && (|ts| == 0 ==> key !in m && Spent(opts, es, key) == 0)
    && (|ts| > 0 ==>
          && ts[0] + Spent(opts, es, key) <= ts[|ts| - 1]
          && (key in m ==> ts[0] + Spent(opts, es, key) <= m[key].lastSwitchAt <= ts[|ts| - 1]))
  }

  lemma {:induction false} PaidThroughDecision(opts: AdaptiveOptions, es: seq<Event>, key: string)
    requires opts.Valid() && |es| > 0 && DecidesOn(es[|es| - 1], key)
    requires Paid(opts, es[..|es| - 1], key)
    requires NonDecreasing(Times(es, key))
    ensures Paid(opts, es, key)
  {
    var before, e := es[..|es| - 1], es[|es| - 1];
    var ts, now := Times(before, key), e.sample.At(e.clock);
    assert Times(es, key) == ts + [now];
    assert Flags(opts, es, key)[..|before|] == Flags(opts, before, key);
    assert |ts| > 0 ==> Times(es, key)[|ts| - 1] <= Times(es, key)[|ts|];
    SwitchTime(opts, Lookup(Run(opts, before), key), e.sample, e.current, e.available, now);
  }

  lemma {:induction false} AlwaysPaid(opts: AdaptiveOptions, es: seq<Event>, key: string)
    requires opts.Valid() && NonDecreasing(Times(es, key))
    ensures Paid(opts, es, key)
    decreases |es|
  {
    if |es| > 0 {
      var before := es[..|es| - 1];
      assert Times(before, key) == Times(es, key)[..|Times(before, key)|];
      AlwaysPaid(opts, before, key);
      if DecidesOn(es[|es| - 1], key) {
        PaidThroughDecision(opts, es, key);
      } else {
        OtherKeysUntouched(opts, Run(opts, before), es[|es| - 1], key);
        assert Flags(opts, es, key)[..|before|] == Flags(opts, before, key);
      }
    }
  }

  lemma {:induction false} OtherKeysUntouched(opts: AdaptiveOptions, m: map<string, AdaptiveState>, e: Event,
                                              key: string)
    requires !DecidesOn(e, key)
    ensures key in Apply(opts, m, e) ==> key in m && Apply(opts, m, e)[key] == m[key]
  {
  }

  /** Rate bound: by any instant t at or after the last decision on a key, its
      upswitches number at most the elapsed time over the minimum interval. */
  lemma {:induction false} UpswitchRateBound(opts: AdaptiveOptions, es: seq<Event>, key: string, t: int)
    requires opts.Valid() && NonDecreasing(Times(es, key))
    requires |Times(es, key)| > 0 && t >= Times(es, key)[|Times(es, key)| - 1]
    ensures Upswitches(opts, es, key) <= (t - Times(es, key)[0]) / opts.minUpswitchInterval
  {
    AlwaysPaid(opts, es, key);
    CostPerUpswitch(Flags(opts, es, key), opts.minUpswitchInterval);
    QuotientBound(Upswitches(opts, es, key), opts.minUpswitchInterval, t - Times(es, key)[0]);
  }

  lemma {:induction false} PositiveFactor(x: int, d: int)
    requires d > 0 && x * d > 0
    ensures x > 0
  {
  }

  lemma {:induction false} QuotientBound(k: int, d: int, n: int)
    requires d > 0 && k * d <= n
    ensures k <= n / d
  {
    var q, r := n / d, n % d;
    assert n == q * d + r;
    assert (q - k + 1) * d == q * d - k * d + d;
    PositiveFactor(q - k + 1, d);
  }

  lemma {:induction false} GoodWithinStreak(opts: AdaptiveOptions, es: seq<Event>, key: string)
    ensures key in Run(opts, es) ==> Run(opts, es)[key].consecutiveGood <= Streak(opts, es, key)
    decreases |es|
  {
    if |es| > 0 {
      var before, e := es[..|es| - 1], es[|es| - 1];
      GoodWithinStreak(opts, before, key);
      if DecidesOn(e, key) {
        DecisionFacts(opts, Lookup(Run(opts, before), key), e.sample, e.current, e.available, e.sample.At(e.clock));
      }
    }
  }

  /** Every upswitch ends a run of at least `goodSamplesForUpgrade` consecutive
      decisions on its key that all wanted a higher layer. */
  lemma {:induction false} UpswitchEndsGoodStreak(opts: AdaptiveOptions, es: seq<Event>, key: string)
    requires |es| > 0 && Flags(opts, es, key)[|es| - 1]
    ensures Streak(opts, es, key) >= opts.goodSamplesForUpgrade
  {
    var before, e := es[..|es| - 1], es[|es| - 1];
    GoodWithinStreak(opts, before, key);
    DecisionFacts(opts, Lookup(Run(opts, before), key), e.sample, e.current, e.available, e.sample.At(e.clock));
  }

  /** When a key counts as a user's: it is that user's, or the separator inside an ID makes
      it look so, on either side. */
  predicate LooksLike(forgotten: string, user: string, stream: string) {
    || forgotten == user
    || HasPrefix(user, forgotten + ":")
    || (HasPrefix(forgotten, user + ":") && HasPrefix(stream, forgotten[|user| + 1..] + ":"))
  }

  lemma {:induction false} PrefixExactly(forgotten: string, user: string, stream: string)
    ensures HasPrefix(Key(user, stream), forgotten + ":") <==> LooksLike(forgotten, user, stream)
  {
    var k, p := Key(user, stream), forgotten + ":";
    if |forgotten| < |user| {
      assert k[..|p|] == user[..|p|];
    } else if |forgotten| == |user| {
      assert k[..|p|] == user + ":" && p[..|user|] == forgotten;
    } else {
      var n := |user| + 1;
      assert k[..n] == user + ":" && p[..n] == forgotten[..n];
      assert k[n..] == stream && p[n..] == forgotten[n..] + ":";
      PrefixSplits(k, p, n);
    }
  }

  lemma {:induction false} PrefixSplits(s: string, p: string, n: nat)
    requires n <= |s| && n <= |p|
    ensures HasPrefix(s, p) <==> s[..n] == p[..n] && HasPrefix(s[n..], p[n..])
  {
    if |p| <= |s| {
      assert s[..|p|] == s[..n] + s[n..][..|p| - n];
      assert p == p[..n] + p[n..];
      assert s[..|p|][..n] == s[..n] && s[..|p|][n..] == s[n..][..|p| - n];
    }
  }

  /** Forgetting a user drops exactly the keys that look like that user's and keeps every
      other as it was; without separators in user IDs those are the user's own keys. */
  lemma {:induction false} ForgetUserExactly(m: map<string, AdaptiveState>, forgotten: string, user: string,
                                             stream: string)
    ensures var k, m' := Key(user, stream), Without(m, UserKeys(m, forgotten));
      && (k in m' <==> k in m && !LooksLike(forgotten, user, stream))
      && (k in m' ==> m'[k] == m[k])
    ensures ':' !in forgotten && ':' !in user ==> (LooksLike(forgotten, user, stream) <==> forgotten == user)
  {
    PrefixExactly(forgotten, user, stream);
    if HasPrefix(user, forgotten + ":") {
      assert user[|forgotten|] == (forgotten + ":")[|forgotten|];
    }
    if HasPrefix(forgotten, user + ":") {
      assert forgotten[|user|] == (user + ":")[|user|];
    }
  }

  /** When a key counts as a stream's, likewise. */
  predicate LooksLikeStream(forgotten: string, user: string, stream: string) {
    || forgotten == stream
    || HasSuffix(stream, ":" + forgotten)
    || (HasSuffix(forgotten, ":" + stream) && HasSuffix(user, ":" + forgotten[..|forgotten| - |stream| - 1]))
  }

  lemma {:induction false} SuffixExactly(forgotten: string, user: string, stream: string)
    ensures HasSuffix(Key(user, stream), ":" + forgotten) <==> LooksLikeStream(forgotten, user, stream)
  {
    var k, p := Key(user, stream), ":" + forgotten;
    if |forgotten| < |stream| {
      assert k[|k| - |p|..] == stream[|stream| - |p|..];
    } else if |forgotten| == |stream| {
      assert k[|k| - |p|..] == ":" + stream && p[1..] == forgotten;
    } else {
      var n := |stream| + 1;
      var rest := |forgotten| - |stream| - 1;
      assert k[|k| - n..] == ":" + stream && p[|p| - n..] == forgotten[rest..];
      assert k[..|k| - n] == user && p[..|p| - n] == ":" + forgotten[..rest];
      SuffixSplits(k, p, n);
    }
  }

  lemma {:induction false} SuffixSplits(s: string, p: string, n: nat)
    requires n <= |s| && n <= |p|
    ensures HasSuffix(s, p) <==> s[|s| - n..] == p[|p| - n..] && HasSuffix(s[..|s| - n], p[..|p| - n])
  {
    if |p| <= |s| {
      var end := s[|s| - |p|..];
      assert end[..|p| - n] == s[..|s| - n][|s| - |p|..] && end[|p| - n..] == s[|s| - n..];
      assert end == end[..|p| - n] + end[|p| - n..] && p == p[..|p| - n] + p[|p| - n..];
    }
  }

  /** Forgetting a stream drops exactly the keys that look like that stream's and keeps
      every other as it was; without separators in stream IDs those are its own keys. */
  lemma {:induction false} ForgetStreamExactly(m: map<string, AdaptiveState>, forgotten: string, user: string,
                                               stream: string)
    ensures var k, m' := Key(user, stream), Without(m, StreamKeys(m, forgotten));
      && (k in m' <==> k in m && !LooksLikeStream(forgotten, user, stream))
      && (k in m' ==> m'[k] == m[k])
    ensures ':' !in forgotten && ':' !in stream ==> (LooksLikeStream(forgotten, user, stream) <==> forgotten == stream)
  {
    SuffixExactly(forgotten, user, stream);
    if HasSuffix(stream, ":" + forgotten) {
      assert stream[|stream| - |forgotten| - 1] == (":" + forgotten)[0];
    }
    if HasSuffix(forgotten, ":" + stream) {
      assert forgotten[|forgotten| - |stream| - 1] == (":" + stream)[0];
    }
  }
}
