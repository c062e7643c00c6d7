# Thermometer trend core, modelled in Dafny

The thermometer sketch keeps a rolling history of the last three temperature
samples. It classifies the recent trend as rising, falling or steady against a
caller-supplied threshold. This project models those two pieces and proves
their properties.

- `history.dfy`, module `History`: the three-slot shift buffer of
  `thermometer_sketch/history.cpp`.
  - Slots follow the source's layout: `LATEST = 0`, `PREVIOUS = 1`,
    `FIRST = 2`.
  - The count saturates at `CAPACITY = 3`.
  - `Push` shifts every slot one place toward `FIRST` and writes the new
    sample into `LATEST`.
  - `Full` is `count >= 3` and `Empty` is `count == 0`, as in the source.
  - A slot no push has reached is `Uninitialised`. It is never given a value.
  - The three slots are the fields `latest`, `previous` and `first` of the
    `History` datatype, standing for the array `values[3]`.
  - `Valid` is the representation invariant. It requires a count of at most
    3 and that exactly the `count` newest slots hold samples.
  - `Window` is the abstraction function: the held samples, oldest first.
  - `PushAll(h, s)` pushes every sample of `s` into `h`, oldest first.
    `Pushes(s)` does so into a fresh history.
  - `Refines(h, s)` says that `h` holds what a history fed exactly the
    samples `s` holds. The refinement lemmas relate a history to the sequence
    `s` of all samples pushed into it.
- `trend.dfy`, module `Trend`: the classifier `trend` and the text mapping
  `trend_str` of `thermometer_sketch/trend.cpp`. The `Trend` enumeration
  follows `thermometer_sketch/trend.h`.
  - `Classify` follows the source branch by branch. It is also proved equal
    to `WindowTrend`, the same rule restated on the sample window. That rule
    follows the same branches, so it mainly carries the mapping from slots to
    samples. The independent statements of the rule are the lemmas
    `PartialHistory`, `FullRising`, `FullFalling` and
    `FullNotMonotoneIsSteady`.

Samples and the threshold are `real`. The source compares samples and
computes one float subtraction per regime (trend.cpp:8 and :19). Real
arithmetic matches the source only where that subtraction is exact. When the
exact difference lies within half a unit in the last place of the threshold
or its negation, the float result can round onto the other side and the
verdict can flip. For example, previous = 2^-30, latest = 1.0 and
threshold = 1.0 give rising in float but steady here.

The accessors are pure functions of an immutable value. Reading `Latest`,
`Previous`, `First`, `Full` or `Empty` therefore cannot change a history, and
`Classify` cannot mutate the history it reads.

One behaviour of the source is worth knowing. With a threshold of zero or
less, two equal samples in a partial history classify as rising, because the
rising test runs first and `0 >= threshold` holds (`Trend.PartialHistory`).
A full history of three equal samples classifies as steady.

## Model

| member | source | states |
|---|---|---|
| History.New | thermometer_sketch/history.cpp:7 | a new history is valid, holds no samples, is empty and is not full |
| History.Window | thermometer_sketch/history.cpp:3-5 | the abstract window holds exactly `count` samples |
| History.Latest | thermometer_sketch/history.cpp:17-19 | requires at least one held sample; reads the newest sample of the window |
| History.Previous | thermometer_sketch/history.cpp:21-23 | requires at least two held samples; reads the second-newest sample of the window |
| History.First | thermometer_sketch/history.cpp:25-27 | requires a full history; reads the oldest sample of the window |
| History.Full | thermometer_sketch/history.cpp:29-31 | true exactly when the count is at least 3 |
| History.Empty | thermometer_sketch/history.cpp:33-35 | true exactly when the count is 0 |
| History.AccessorsReadWindow | thermometer_sketch/history.cpp:17-27 | latest is the newest sample of the window when one is held; previous is the second-newest when two are held; first is the oldest when the history is full |
| History.Push | thermometer_sketch/history.cpp:9-15 | a push keeps the representation invariant and raises the count by one, saturating at 3 |
| History.PushShifts | thermometer_sketch/history.cpp:9-15 | after a push the history is non-empty and a full one stays full; the new latest is the pushed value; the new previous is the old latest; the new first is the old previous |
| History.PushAll | thermometer_sketch/history.cpp:9-15 | any run of pushes keeps the representation invariant |
| History.Pushes | thermometer_sketch/history.cpp:7-15 | a fresh history followed by any run of pushes is valid |
| History.PushSlidesWindow | thermometer_sketch/history.cpp:9-15 | a push appends the sample to the window and keeps the last three; on a full history it evicts exactly the oldest sample |
| History.PushRefines | thermometer_sketch/history.cpp:9-15 | a history whose window is the last three of the samples `s` has, after pushing `v`, the last three of `s` followed by `v` |
| History.PushAllRefines | thermometer_sketch/history.cpp:9-15 | the same holds for any run of pushes: the window follows the whole sample sequence |
| History.PushesHoldsLastThree | thermometer_sketch/history.cpp:7-15 | refinement: after pushing `s` into a new history, the count is the smaller of 3 and the number of pushes, and the window is the last three samples of `s` in order |
| History.AccessorsReadLastSamples | thermometer_sketch/history.cpp:9-35 | after pushing `s`: latest is the last sample of `s`; previous is the one before it when two were pushed; first is the third-last when three were pushed, so the oldest is evicted on the fourth push; empty iff nothing was pushed; full iff at least three were pushed |
| History.FullStaysFull | thermometer_sketch/history.cpp:29-35 | a full history stays full after any further pushes, and a history is non-empty after any push (the count only rises, history.cpp:14) |
| Trend.Classify | thermometer_sketch/trend.cpp:6-37 | the result is indeterminate exactly when one sample is held; an empty history is steady; the result equals the reference window rule |
| Trend.ClassifyPushes | thermometer_sketch/trend.cpp:6-37 | the trend after pushing `s` is the reference rule applied to the last three samples of `s` |
| Trend.PartialHistory | thermometer_sketch/trend.cpp:7-15 | with two samples and delta = latest - previous: rising iff delta >= threshold; falling iff the rising test failed and delta <= -threshold; steady iff -threshold < delta < threshold |
| Trend.FullRising | thermometer_sketch/trend.cpp:18-26 | full history: rising iff first < previous < latest and latest - first >= threshold |
| Trend.FullFalling | thermometer_sketch/trend.cpp:27-32 | full history: falling iff first > previous > latest and latest - first <= -threshold; the rising test can never have fired first |
| Trend.FullNotMonotoneIsSteady | thermometer_sketch/trend.cpp:21-33 | full history: a triple that is neither strictly increasing nor strictly decreasing is steady whatever its long-term change |
| Trend.LowerThresholdKeepsDirection | thermometer_sketch/trend.cpp:6-37 | lowering the threshold keeps a rising verdict; a falling verdict stays falling unless the rising test now fires first |
| Trend.MirrorSwapsDirection | thermometer_sketch/trend.cpp:6-37 | with a positive threshold, negating every sample swaps rising and falling and keeps steady |
| Trend.SampleReadings | thermometer_sketch/trend.cpp:6-37 | with threshold 0.5: 10.0, 10.6, 11.3 is rising; the zig-zag 10.0, 12.0, 11.5 is steady; 20.0, 20.1, 19.95 is steady; after 9, 10, 12, 11 only 10, 12, 11 count, so steady; 21, 20 is falling; a single reading is indeterminate |
| Trend.TrendText | thermometer_sketch/trend.cpp:42-47 | the text of each trend is never the "unknown trend" fallback |
| Trend.TrendTextInjective | thermometer_sketch/trend.cpp:42-47 | distinct trends map to distinct texts |
| Trend.Ordinal | thermometer_sketch/trend.h:6 | each trend has the enumeration code 0, 1 or 2 |
| Trend.TrendStrOfCode | thermometer_sketch/trend.cpp:42-47 | the if-chain over enumeration codes yields "unknown trend" exactly for codes outside 0..2 |
| Trend.UnknownTrendUnreachable | thermometer_sketch/trend.cpp:42-47 | for every trend, the if-chain agrees with the total mapping and never reaches the fallback |

## Left out

- Uninitialised reads. `values[]` is never initialised by the constructor
  (history.cpp:7). Reading a slot no push has reached yields an indeterminate
  value.
  - `Latest`, `Previous` and `First` therefore require 1, 2 and 3 held
    samples respectively.
  - `Trend.Classify` with exactly one sample compares the newest sample with
    such a slot (trend.cpp:7-8). The model returns `Indeterminate` for that
    case instead of a value the source does not define.
- Early accessor reads. The accessors carry preconditions instead of error
  results; the source's accessors read the slot unconditionally.
- The `trend()` method declared at history.h:12 has no body in the files
  modelled here. Only the free function `trend` of trend.cpp, with its single
  caller-supplied threshold, is modelled.
- `thermometer_sketch/history.h` is stale. It declares a `size` field and a
  `trend()` method, omits `n_values` and the accessors, and has a `#defin`
  typo. The model follows history.cpp. The `Trend` enumeration is taken from
  trend.h.
- `thermometer_sketch/secrets.h` holds Wi-Fi and endpoint credentials. It has
  no logic.
- Float rounding, NaN and infinities. Samples are `real`, so a verdict that
  a rounded subtraction would flip (see above) is not modelled.
- The integer width of `n_values`. Its declaration is not part of this model.
  It never exceeds 3, so the width does not matter.
- The sensor-read, display and transmit loop is I/O and is not part of this
  model.
- `Trend.Classify` works on a value and so cannot mutate the history. The
  source's non-mutation of `h` (a non-const reference) follows from trend.cpp
  calling only the read accessors. It is not stated as a separate contract.
