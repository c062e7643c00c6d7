/**
  Trend classification over a rolling history, and its text form.

  With two samples the trend is read from the last step alone; with a full
  history it needs three strictly monotone samples and a long-term change of
  at least the threshold; with no samples it is steady. With exactly one
  sample trend.cpp's `trend` compares against a slot no push has written, so the
  result is `Indeterminate` here rather than a made-up value.
 */
module Trend {
  import opened History

  /** Declared in the order of the `Trend` enum of trend.h: 0, 1, 2. */
  datatype Trend = Falling | Steady | Rising

  datatype Verdict = Decided(trend: Trend) | Indeterminate

  /** Every pair of held samples is in strictly increasing order. */
  predicate StrictlyIncreasing(w: seq<real>) {
    forall i, j :: 0 <= i < j < |w| ==> w[i] < w[j]
  }

  /** Every pair of held samples is in strictly decreasing order. */
  predicate StrictlyDecreasing(w: seq<real>) {
    forall i, j :: 0 <= i < j < |w| ==> w[i] > w[j]
  }

  /** A single step of `delta`, judged against `threshold`; the rising test comes first. */
  function StepTrend(delta: real, threshold: real): Trend {
    if delta >= threshold then Rising
    else if delta <= -threshold then Falling
    else Steady
  }

  /**
    Classification of a window of samples, oldest first. It follows the same
    branches as `Classify` and is not an independent specification: it moves
    the rule from slots to samples so that `ClassifyPushes` can state it on
    the pushed sequence. The rule is specified independently, regime by
    regime, by `PartialHistory`, `FullRising`, `FullFalling` and
    `FullNotMonotoneIsSteady`.
   */
  function WindowTrend(w: seq<real>, threshold: real): Verdict
    requires |w| <= CAPACITY
  {
    if |w| == 0 then Decided(Steady)
    else if |w| == 1 then Indeterminate
    else if |w| == 2 then Decided(StepTrend(w[1] - w[0], threshold))
    else if StrictlyIncreasing(w) && w[2] - w[0] >= threshold then Decided(Rising)
    else if StrictlyDecreasing(w) && w[2] - w[0] <= -threshold then Decided(Falling)
    else Decided(Steady)
  }

  /**
    The classifier. The samples are read through the accessors; the extra
    test of the count for a single held sample is this model's own, since
    trend.cpp has no count accessor and instead reads an unwritten slot.
   */
  function Classify(h: History, threshold: real): (r: Verdict)
    requires Valid(h)
    ensures r.Indeterminate? <==> h.count == 1
    ensures Empty(h) ==> r == Decided(Steady)
    ensures r == WindowTrend(Window(h), threshold)
  {
    if !Full(h) && !Empty(h) then
      if h.count < 2 then Indeterminate
      else
        var delta := Latest(h) - Previous(h);
        if delta >= threshold then Decided(Rising)
        else if delta <= -threshold then Decided(Falling)
        else Decided(Steady)
    else if Full(h) then
      var delta := Latest(h) - First(h);
      if First(h) < Previous(h) && Previous(h) < Latest(h) && delta >= threshold then
        Decided(Rising)
      else if First(h) > Previous(h) && Previous(h) > Latest(h) && delta <= -threshold then
        Decided(Falling)
      else Decided(Steady)
    else Decided(Steady)
  }

  /** The trend of the history built from `s` is the reference trend of its last three samples. */
  lemma ClassifyPushes(s: seq<real>, threshold: real)
    ensures Classify(Pushes(s), threshold) == WindowTrend(LastThree(s), threshold)
  {
    PushesHoldsLastThree(s);
  }

  /** Two samples: the step `latest - previous` decides, and the rising test wins a tie. */
  lemma PartialHistory(h: History, threshold: real)
    requires Valid(h) && h.count == 2
    ensures var delta := Latest(h) - Previous(h);
      && (Classify(h, threshold) == Decided(Rising) <==> delta >= threshold)
      && (Classify(h, threshold) == Decided(Falling) <==> delta < threshold && delta <= -threshold)
      && (Classify(h, threshold) == Decided(Steady) <==> -threshold < delta < threshold)
  {
  }

  /** Full history: rising exactly on a strictly increasing triple that rose by at least the threshold. */
  lemma FullRising(h: History, threshold: real)
    requires Valid(h) && Full(h)
    ensures Classify(h, threshold) == Decided(Rising)
        <==> First(h) < Previous(h) < Latest(h) && Latest(h) - First(h) >= threshold
  {
  }

  /** Full history: falling exactly on a strictly decreasing triple that fell by at least the threshold. */
  lemma FullFalling(h: History, threshold: real)
    requires Valid(h) && Full(h)
    ensures Classify(h, threshold) == Decided(Falling)
        <==> First(h) > Previous(h) > Latest(h) && Latest(h) - First(h) <= -threshold
  {
  }

  /** Full history: a triple that is not strictly monotone is steady whatever its long-term change. */
  lemma FullNotMonotoneIsSteady(h: History, threshold: real)
    requires Valid(h) && Full(h)
    requires !(First(h) < Previous(h) < Latest(h))
    requires !(First(h) > Previous(h) > Latest(h))
    ensures Classify(h, threshold) == Decided(Steady)
  {
  }

  /** Lowering the threshold never loses a rising or falling verdict. */
  lemma LowerThresholdKeepsDirection(h: History, threshold: real, lower: real)
    requires Valid(h) && lower <= threshold
    ensures Classify(h, threshold) == Decided(Rising) ==> Classify(h, lower) == Decided(Rising)
    ensures Classify(h, threshold) == Decided(Falling) ==>
              Classify(h, lower) in {Decided(Falling), Decided(Rising)}
  {
  }

  /**
    Worked readings with threshold 0.5: a steady climb is rising; a zig-zag
    is steady although it ends 1.5 above where it started; small noise is
    steady; a single reading cannot be classified.
   */
  lemma SampleReadings()
    ensures Classify(Pushes([10.0, 10.6, 11.3]), 0.5) == Decided(Rising)
    ensures Classify(Pushes([10.0, 12.0, 11.5]), 0.5) == Decided(Steady)
    ensures Classify(Pushes([20.0, 20.1, 19.95]), 0.5) == Decided(Steady)
    ensures Classify(Pushes([9.0, 10.0, 12.0, 11.0]), 0.5) == Decided(Steady)
    ensures Classify(Pushes([21.0, 20.0]), 0.5) == Decided(Falling)
    ensures Classify(Pushes([21.0]), 0.5) == Indeterminate
  {
    ClassifyPushes([10.0, 10.6, 11.3], 0.5);
    ClassifyPushes([10.0, 12.0, 11.5], 0.5);
    ClassifyPushes([20.0, 20.1, 19.95], 0.5);
    ClassifyPushes([9.0, 10.0, 12.0, 11.0], 0.5);
    ClassifyPushes([21.0, 20.0], 0.5);
    ClassifyPushes([21.0], 0.5);
  }

  function Opposite(t: Trend): Trend {
    match t
    case Falling => Rising
    case Steady => Steady
    case Rising => Falling
  }

  function NegateSlot(s: Slot): Slot {
    match s
    case Uninitialised => Uninitialised
    case Holds(v) => Holds(-v)
  }

  /** The same history with every held sample negated. */
  function Negate(h: History): (n: History)
    requires Valid(h)
    ensures Valid(n) && n.count == h.count
    ensures !Empty(h) ==> Latest(n) == -Latest(h)
    ensures h.count >= 2 ==> Previous(n) == -Previous(h)
    ensures Full(h) ==> First(n) == -First(h)
  {
    History(NegateSlot(h.latest), NegateSlot(h.previous), NegateSlot(h.first), h.count)
  }

  /** With a positive threshold, mirroring every sample mirrors the verdict. */
  lemma MirrorSwapsDirection(h: History, threshold: real)
    requires Valid(h) && threshold > 0.0
    ensures Classify(h, threshold).Decided? ==>
              Classify(Negate(h), threshold) == Decided(Opposite(Classify(h, threshold).trend))
  {
  }

  /** The text trend_str in trend.cpp returns for anything outside the enumeration. */
  const UNKNOWN_TREND := "unknown trend"

  /** Human-readable trend; total over the closed enumeration. */
  function TrendText(t: Trend): (s: string)
    ensures s != UNKNOWN_TREND
  {
    match t
    case Falling => "falling"
    case Steady => "steady"
    case Rising => "rising"
  }

  /** Distinct trends read differently. */
  lemma TrendTextInjective(a: Trend, b: Trend)
    ensures TrendText(a) == TrendText(b) ==> a == b
  {
  }

  /** The integer the `Trend` enum of trend.h assigns to each trend. */
  function Ordinal(t: Trend): (n: int)
    ensures 0 <= n < 3
  {
    match t
    case Falling => 0
    case Steady => 1
    case Rising => 2
  }

  /** trend_str's if-chain in trend.cpp over enumeration codes, including its fallback. */
  function TrendStrOfCode(code: int): (s: string)
    ensures s == UNKNOWN_TREND <==> !(0 <= code < 3)
  {
    if code == Ordinal(Falling) then "falling"
    else if code == Ordinal(Steady) then "steady"
    else if code == Ordinal(Rising) then "rising"
    else UNKNOWN_TREND
  }

  /** The fallback branch is unreachable from a trend: the chain agrees with the total mapping. */
  lemma UnknownTrendUnreachable(t: Trend)
    ensures TrendStrOfCode(Ordinal(t)) == TrendText(t)
    ensures TrendStrOfCode(Ordinal(t)) != UNKNOWN_TREND
  {
  }
}
