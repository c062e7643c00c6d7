/**
  The rolling sample history of the thermometer: a fixed three-slot shift
  buffer with a saturating count of how many slots hold a pushed sample.

  Slot 0 (LATEST) holds the newest sample, slot 1 (PREVIOUS) the one before
  it and slot 2 (FIRST) the oldest one still held. A slot that no push has
  reached yet is `Uninitialised`; its content is indeterminate in
  history.cpp's `values[]`, which the constructor never initialises, and is
  never given a value here.
 */
module History {

  /** Number of slots, and the value at which the count saturates. */
  const CAPACITY := 3

  datatype Slot = Uninitialised | Holds(sample: real)

  /** The slots LATEST (index 0), PREVIOUS (1) and FIRST (2), and the count. */
  datatype History = History(latest: Slot, previous: Slot, first: Slot, count: nat)

  /** Exactly the `count` newest slots hold samples. */
  predicate Valid(h: History) {
    && h.count <= CAPACITY
    && (h.latest.Holds? <==> h.count >= 1)
    && (h.previous.Holds? <==> h.count >= 2)
    && (h.first.Holds? <==> h.count >= 3)
  }

  predicate Full(h: History) {
    h.count >= CAPACITY
  }

  predicate Empty(h: History) {
    h.count == 0
  }

  function Min(a: int, b: int): int {
    if a <= b then a else b
  }

  /** The held samples, oldest first: the abstract view of a history. */
  function Window(h: History): (w: seq<real>)
    requires Valid(h)
    ensures |w| == h.count
  {
    if h.count == 0 then []
    else if h.count == 1 then [h.latest.sample]
    else if h.count == 2 then [h.previous.sample, h.latest.sample]
    else [h.first.sample, h.previous.sample, h.latest.sample]
  }

  /** The last (at most) three elements of `s`: what a history of capacity 3 keeps. */
  function LastThree(s: seq<real>): (w: seq<real>)
    ensures |w| == Min(|s|, CAPACITY)
  {
    if |s| <= CAPACITY then s else s[|s| - CAPACITY..]
  }

  /** A freshly constructed history holds nothing. */
  function New(): (h: History)
    ensures Valid(h)
    ensures Empty(h) && !Full(h)
    ensures Window(h) == []
  {
    History(Uninitialised, Uninitialised, Uninitialised, 0)
  }

  /** The newest sample. Reading it from an empty history would read an uninitialised slot. */
  function Latest(h: History): (r: real)
    requires Valid(h) && !Empty(h)
    ensures r == Window(h)[h.count - 1]
  {
    h.latest.sample
  }

  /** The sample pushed just before the newest. */
  function Previous(h: History): (r: real)
    requires Valid(h) && h.count >= 2
    ensures r == Window(h)[h.count - 2]
  {
    h.previous.sample
  }

  /** The oldest of the three held samples. */
  function First(h: History): (r: real)
    requires Valid(h) && Full(h)
    ensures r == Window(h)[0]
  {
    h.first.sample
  }

  /** The accessors read the newest, second-newest and oldest samples of the window. */
  lemma AccessorsReadWindow(h: History)
    requires Valid(h)
    ensures !Empty(h) ==> Latest(h) == Window(h)[h.count - 1]
    ensures h.count >= 2 ==> Previous(h) == Window(h)[h.count - 2]
    ensures Full(h) ==> First(h) == Window(h)[0]
  {
  }

  /**
    Shift every slot one place toward FIRST, write `v` into LATEST and bump
    the count unless it has reached CAPACITY.
   */
  function Push(h: History, v: real): (h': History)
    requires Valid(h)
    ensures Valid(h')
    ensures h'.count == Min(h.count + 1, CAPACITY)
  {
    History(Holds(v), h.latest, h.previous,
            if h.count < CAPACITY then h.count + 1 else h.count)
  }

  /** A push writes the new sample as the latest and moves the others one place older. */
  lemma PushShifts(h: History, v: real)
    requires Valid(h)
    ensures !Empty(Push(h, v)) && (Full(h) ==> Full(Push(h, v)))
    ensures Latest(Push(h, v)) == v
    ensures !Empty(h) ==> Previous(Push(h, v)) == Latest(h)
    ensures h.count >= 2 ==> First(Push(h, v)) == Previous(h)
  {
  }

  /** `h` after pushing every sample of `s`, oldest first. */
  function PushAll(h: History, s: seq<real>): (r: History)
    requires Valid(h)
    ensures Valid(r)
    decreases |s|
  {
    if |s| == 0 then h else PushAll(Push(h, s[0]), s[1..])
  }

  /** The history built by pushing every sample of `s` into a new one. */
  function Pushes(s: seq<real>): (h: History)
    ensures Valid(h)
  {
    PushAll(New(), s)
  }

  /** `h` holds what a history fed exactly the samples `s` holds. */
  predicate Refines(h: History, s: seq<real>) {
    && Valid(h)
    && Window(h) == LastThree(s)
  }

  /** Pushing appends to the window and, once three are held, evicts the oldest. */
  lemma PushSlidesWindow(h: History, v: real)
    requires Valid(h)
    ensures Window(Push(h, v)) == LastThree(Window(h) + [v])
    ensures Full(h) ==> Window(Push(h, v)) == Window(h)[1..] + [v]
  {
  }

  /** Keeping the last three of the last three is keeping the last three. */
  lemma LastThreeSnoc(s: seq<real>, v: real)
    ensures LastThree(LastThree(s) + [v]) == LastThree(s + [v])
  {
    if |s| > CAPACITY {
      assert s[|s| - CAPACITY..][1..] == s[|s| - CAPACITY + 1..];
      assert s[|s| - CAPACITY + 1..] + [v] == (s + [v])[|s| + 1 - CAPACITY..];
    }
  }

  /** One push keeps a history in step with the samples fed to it. */
  lemma PushRefines(h: History, s: seq<real>, v: real)
    requires Refines(h, s)
    ensures Refines(Push(h, v), s + [v])
  {
    PushSlidesWindow(h, v);
    LastThreeSnoc(s, v);
  }

  /** Any run of pushes keeps a history in step with the samples fed to it. */
  lemma {:induction false} PushAllRefines(h: History, past: seq<real>, s: seq<real>)
    requires Refines(h, past)
    ensures Refines(PushAll(h, s), past + s)
    decreases |s|
  {
    if |s| == 0 {
      assert past + s == past;
    } else {
      var h', past' := Push(h, s[0]), past + [s[0]];
      PushRefines(h, past, s[0]);
      PushAllRefines(h', past', s[1..]);
      assert PushAll(h, s) == PushAll(h', s[1..]);
      assert past' + s[1..] == past + s;
    }
  }

  /**
    Refinement: the history built from any sample sequence holds exactly its
    last three samples, with the count saturating at three.
   */
  lemma PushesHoldsLastThree(s: seq<real>)
    ensures Pushes(s).count == Min(|s|, CAPACITY)
    ensures Window(Pushes(s)) == LastThree(s)
  {
    PushAllRefines(New(), [], s);
    assert [] + s == s;
  }

  /** The accessors of a history built from `s` read its last three samples. */
  lemma AccessorsReadLastSamples(s: seq<real>)
    ensures Pushes(s).count == Min(|s|, CAPACITY)
    ensures Empty(Pushes(s)) <==> |s| == 0
    ensures Full(Pushes(s)) <==> |s| >= CAPACITY
    ensures |s| >= 1 ==> Latest(Pushes(s)) == s[|s| - 1]
    ensures |s| >= 2 ==> Previous(Pushes(s)) == s[|s| - 2]
    ensures |s| >= 3 ==> First(Pushes(s)) == s[|s| - 3]
  {
    PushesHoldsLastThree(s);
  }

  /** A full history stays full whatever is pushed next; a non-empty one stays non-empty. */
  lemma {:induction false} FullStaysFull(h: History, s: seq<real>)
    requires Valid(h)
    ensures Full(h) ==> Full(PushAll(h, s))
    ensures !Empty(h) || |s| > 0 ==> !Empty(PushAll(h, s))
    decreases |s|
  {
    if |s| > 0 {
      FullStaysFull(Push(h, s[0]), s[1..]);
    }
  }
}
