/**
 * The adaptive normaliser: maps each raw risk value onto 0..100 using a bounded
 * history of recent raw values and all-time extremes.
 */
module Normalizer {
  import opened Wrappers

  /** Below this many samples the normaliser falls back to plain 0..1 scaling. */
  const MinAdaptiveSamples: nat := 5
  /** Fraction of the window's range added on each side before scaling. */
  const PaddingFraction: real := 0.1
  /** A padded range below this is treated as "no variance". */
  const DegenerateRange: real := 0.0001
  /** Score returned when the window has no variance. */
  const NeutralScore: real := 50.0

  /** max(lo, min(hi, v)). */
  function Clamp(v: real, lo: real, hi: real): (r: real)
    ensures lo <= hi ==> lo <= r <= hi
    ensures lo <= v <= hi ==> r == v
    ensures r == v || r == lo || r == hi
  {
    var m := if hi < v then hi else v;
    if m < lo then lo else m
  }

  /** The smallest of the first `n` values of `s`. */
  function MinOfFirst(s: seq<real>, n: nat): (m: real)
    requires 0 < n <= |s|
    ensures exists i :: 0 <= i < n && s[i] == m
    ensures forall i :: 0 <= i < n ==> m <= s[i]
  {
    if n == 1 then s[0]
    else
      var t := MinOfFirst(s, n - 1);
      if t <= s[n - 1] then t else s[n - 1]
  }

  /** The largest of the first `n` values of `s`. */
  function MaxOfFirst(s: seq<real>, n: nat): (m: real)
    requires 0 < n <= |s|
    ensures exists i :: 0 <= i < n && s[i] == m
    ensures forall i :: 0 <= i < n ==> s[i] <= m
  {
    if n == 1 then s[0]
    else
      var t := MaxOfFirst(s, n - 1);
      if s[n - 1] <= t then t else s[n - 1]
  }

  /** Python's `min` over a non-empty list. */
  function SeqMin(s: seq<real>): (m: real)
    requires |s| > 0
    ensures m in s
    ensures forall x :: x in s ==> m <= x
  {
    MinOfFirst(s, |s|)
  }

  /** Python's `max` over a non-empty list. */
  function SeqMax(s: seq<real>): (m: real)
    requires |s| > 0
    ensures m in s
    ensures forall x :: x in s ==> x <= m
  {
    MaxOfFirst(s, |s|)
  }

  /** The sum of the first `n` values of `s`, added left to right. */
  function SumOfFirst(s: seq<real>, n: nat): real
    requires n <= |s|
  {
    if n == 0 then 0.0 else SumOfFirst(s, n - 1) + s[n - 1]
  }

  /** Python's `sum`. */
  function Sum(s: seq<real>): real
  {
    SumOfFirst(s, |s|)
  }

  /** `suffix` consists of the last `|suffix|` elements of `s`, in order. */
  predicate IsSuffix(suffix: seq<real>, s: seq<real>)
  {
    |suffix| <= |s| && forall i :: 0 <= i < |suffix| ==> suffix[i] == s[|s| - |suffix| + i]
  }

  /** A bounded deque's append: the newest `capacity` values of `history + [v]`. */
  function Push(history: seq<real>, v: real, capacity: nat): (h: seq<real>)
    requires |history| <= capacity
    ensures |h| <= capacity
    ensures |h| == if |history| + 1 <= capacity then |history| + 1 else capacity
    ensures IsSuffix(h, history + [v])
  {
    if capacity == 0 then []
    else if |history| < capacity then history + [v]
    else seq(capacity, i requires 0 <= i < capacity => (history + [v])[i + 1])
  }

  /** Scaling used while fewer than five samples have been seen: raw values are taken as 0..1. */
  function SimpleNormalize(v: real): (r: real)
    ensures 0.0 <= r <= 100.0
    ensures 0.0 <= v <= 1.0 ==> r == v * 100.0
    ensures v <= 0.0 ==> r == 0.0
    ensures 1.0 <= v ==> r == 100.0
  {
    Clamp(v * 100.0, 0.0, 100.0)
  }

  /** Width of the window's range once padded by 10% on each side. */
  function PaddedRange(window: seq<real>): real
    requires |window| > 0
  {
    var lo, hi := SeqMin(window), SeqMax(window);
    var pad := (hi - lo) * PaddingFraction;
    (hi + pad) - (lo - pad)
  }

  /** Min-max scaling of `v` over the padded range of `window`. */
  function AdaptiveNormalize(window: seq<real>, v: real): (r: real)
    requires |window| > 0
    ensures 0.0 <= r <= 100.0
  {
    var lo, hi := SeqMin(window), SeqMax(window);
    var pad := (hi - lo) * PaddingFraction;
    var dmin, dmax := lo - pad, hi + pad;
    if dmax - dmin < DegenerateRange then NeutralScore
    else Clamp((v - dmin) / (dmax - dmin) * 100.0, 0.0, 100.0)
  }

  /** The score `normalize` returns once `v` has been appended to `history`. */
  function Score(history: seq<real>, v: real): (r: real)
    ensures 0.0 <= r <= 100.0
  {
    if |history| < MinAdaptiveSamples then SimpleNormalize(v) else AdaptiveNormalize(history, v)
  }

  /** With fewer than five samples the score is the clamped `raw * 100`. */
  lemma ScoreWithShortHistory(history: seq<real>, v: real)
    requires |history| < MinAdaptiveSamples
    ensures Score(history, v) == Clamp(v * 100.0, 0.0, 100.0)
    ensures 0.0 <= v <= 1.0 ==> Score(history, v) == v * 100.0
  {
  }

  /** A window whose padded range is (almost) zero, e.g. a constant feed, scores exactly 50. */
  lemma DegenerateWindowScoresNeutral(history: seq<real>, v: real)
    requires |history| >= MinAdaptiveSamples
    requires PaddedRange(history) < DegenerateRange
    ensures Score(history, v) == NeutralScore
  {
  }

  /** A constant feed is the typical degenerate window. */
  lemma {:induction false} ConstantWindowScoresNeutral(history: seq<real>, c: real, v: real)
    requires |history| >= MinAdaptiveSamples
    requires forall i :: 0 <= i < |history| ==> history[i] == c
    ensures Score(history, v) == NeutralScore
  {
    var lo, hi := SeqMin(history), SeqMax(history);
    assert lo == c by { var k :| 0 <= k < |history| && history[k] == lo; }
    assert hi == c by { var k :| 0 <= k < |history| && history[k] == hi; }
    DegenerateWindowScoresNeutral(history, v);
  }

  lemma DivBetween(a: real, b: real, lo: real, hi: real)
    requires 0.0 < b
    requires lo * b <= a <= hi * b
    ensures lo <= a / b <= hi
  {
  }

  /**
   * In the adaptive case the new value lies inside its own window, so the padding keeps
   * the score strictly away from 0 and 100: it lies in [100*0.1/1.2, 100*1.1/1.2].
   */
  lemma {:induction false} AdaptiveScoreIsPadded(history: seq<real>, v: real)
    requires |history| >= MinAdaptiveSamples
    requires v in history
    requires PaddedRange(history) >= DegenerateRange
    ensures 100.0 * 0.1 / 1.2 <= Score(history, v) <= 100.0 * 1.1 / 1.2
  {
    var lo, hi := SeqMin(history), SeqMax(history);
    var pad := (hi - lo) * PaddingFraction;
    var dmin, dmax := lo - pad, hi + pad;
    var width := dmax - dmin;
    assert width == 1.2 * (hi - lo);
    assert lo <= v <= hi;
    assert (1.0 / 12.0) * width <= v - dmin <= (11.0 / 12.0) * width;
    DivBetween(v - dmin, width, 1.0 / 12.0, 11.0 / 12.0);
    var ratio := (v - dmin) / width;
    assert 100.0 / 12.0 <= ratio * 100.0 <= 1100.0 / 12.0;
  }

  /** Each of `n` summands within [lo, hi] puts the sum within [n * lo, n * hi]. */
  lemma {:induction false} SumOfFirstBounds(s: seq<real>, n: nat, lo: real, hi: real)
    requires n <= |s|
    requires forall i :: 0 <= i < n ==> lo <= s[i] <= hi
    ensures n as real * lo <= SumOfFirst(s, n) <= n as real * hi
  {
    if n > 0 {
      SumOfFirstBounds(s, n - 1, lo, hi);
      var k := (n - 1) as real;
      assert n as real * lo == k * lo + lo;
      assert n as real * hi == k * hi + hi;
    }
  }

  lemma SumBounds(s: seq<real>, lo: real, hi: real)
    requires forall x :: x in s ==> lo <= x <= hi
    ensures |s| as real * lo <= Sum(s) <= |s| as real * hi
  {
    assert forall i :: 0 <= i < |s| ==> s[i] in s;
    SumOfFirstBounds(s, |s|, lo, hi);
  }

  /** Statistics reported for the current history. */
  datatype Stats = Stats(historySize: nat, min: Option<real>, max: Option<real>, mean: Option<real>)

  function Statistics(history: seq<real>): (st: Stats)
    ensures st.historySize == |history|
    ensures history == [] <==> st.min.None?
    ensures history == [] <==> st.max.None?
    ensures history == [] <==> st.mean.None?
    ensures history != [] ==> st.min.value in history && st.max.value in history
    ensures history != [] ==> st.min.value <= st.mean.value <= st.max.value
  {
    if history == [] then Stats(0, None, None, None)
    else
      var lo, hi := SeqMin(history), SeqMax(history);
      var n := |history| as real;
      SumBounds(history, lo, hi);
      DivBetween(Sum(history), n, lo, hi);
      Stats(|history|, Some(lo), Some(hi), Some(Sum(history) / n))
  }

  lemma SeqMinAppend(s: seq<real>, x: real)
    requires |s| > 0
    ensures SeqMin(s + [x]) == if x < SeqMin(s) then x else SeqMin(s)
  {
    var m, a := SeqMin(s + [x]), SeqMin(s);
    assert forall y :: y in s + [x] <==> y in s || y == x;
    assert a in s + [x] && x in s + [x];
    if m in s { assert a <= m; } else { assert m == x; }
  }

  lemma SeqMaxAppend(s: seq<real>, x: real)
    requires |s| > 0
    ensures SeqMax(s + [x]) == if SeqMax(s) < x then x else SeqMax(s)
  {
    var m, a := SeqMax(s + [x]), SeqMax(s);
    assert forall y :: y in s + [x] <==> y in s || y == x;
    assert a in s + [x] && x in s + [x];
    if m in s { assert m <= a; } else { assert m == x; }
  }

  /** Pushing onto the newest-`capacity` suffix of a feed gives the newest suffix of the longer feed. */
  lemma PushKeepsNewest(observed: seq<real>, history: seq<real>, v: real, capacity: nat)
    requires |history| == (if |observed| <= capacity then |observed| else capacity)
    requires IsSuffix(history, observed)
    ensures var h := Push(history, v, capacity);
      var o := observed + [v];
      |h| == (if |o| <= capacity then |o| else capacity) && IsSuffix(h, o)
  {
    var h := Push(history, v, capacity);
    var o := observed + [v];
    forall i | 0 <= i < |h|
      ensures h[i] == o[|o| - |h| + i]
    {
      var k := |history| + 1 - |h| + i;
      assert h[i] == (history + [v])[k];
      if k < |history| {
        assert history[k] == observed[|observed| - |history| + k];
      }
    }
  }

  /** The source's incremental update of the all-time extremes agrees with SeqMin/SeqMax. */
  lemma ExtremesAfterAppend(observed: seq<real>, raw: real, minValue: Option<real>, maxValue: Option<real>)
    requires observed == [] ==> minValue.None? && maxValue.None?
    requires observed != [] ==> minValue == Some(SeqMin(observed)) && maxValue == Some(SeqMax(observed))
    ensures SeqMin(observed + [raw]) == if minValue.None? || raw < minValue.value then raw else minValue.value
    ensures SeqMax(observed + [raw]) == if maxValue.None? || raw > maxValue.value then raw else maxValue.value
  {
    if observed == [] {
      assert observed + [raw] == [raw];
    } else {
      SeqMinAppend(observed, raw);
      SeqMaxAppend(observed, raw);
    }
  }

  /**
   * `history` is the newest `capacity` values of `observed`, and the extremes are those of
   * all of `observed` (absent while nothing was observed).
   */
  ghost predicate Tracks(observed: seq<real>, history: seq<real>, minValue: Option<real>, maxValue: Option<real>, capacity: nat)
  {
    && |history| <= capacity
    && |history| == (if |observed| <= capacity then |observed| else capacity)
    && IsSuffix(history, observed)
    && (observed == [] ==> minValue.None? && maxValue.None?)
    && (observed != [] ==> minValue == Some(SeqMin(observed)) && maxValue == Some(SeqMax(observed)))
  }

  /** One `normalize` step keeps the history and the extremes in step with the observed feed. */
  lemma TracksAfterAppend(observed: seq<real>, history: seq<real>, minValue: Option<real>, maxValue: Option<real>, capacity: nat, raw: real)
    requires Tracks(observed, history, minValue, maxValue, capacity)
    ensures Tracks(observed + [raw], Push(history, raw, capacity),
      Some(if minValue.None? || raw < minValue.value then raw else minValue.value),
      Some(if maxValue.None? || raw > maxValue.value then raw else maxValue.value), capacity)
  {
    PushKeepsNewest(observed, history, raw, capacity);
    ExtremesAfterAppend(observed, raw, minValue, maxValue);
  }

  class RiskNormalizer {
    const historySize: nat
    var history: seq<real>
    var minValue: Option<real>
    var maxValue: Option<real>
    /** Every raw value passed to `Normalize` since construction or the last `Reset`. */
    ghost var observed: seq<real>

    ghost predicate Valid()
      reads this
    {
      Tracks(observed, history, minValue, maxValue, historySize)
    }

    constructor (historySize: nat)
      ensures Valid()
      ensures this.historySize == historySize
      ensures history == [] && observed == []
      ensures minValue.None? && maxValue.None?
    {
      this.historySize := historySize;
      history := [];
      minValue, maxValue := None, None;
      observed := [];
    }

    method Normalize(raw: real) returns (score: real)
      requires Valid()
      modifies this
      ensures Valid()
      ensures observed == old(observed) + [raw]
      ensures history == Push(old(history), raw, historySize)
      ensures score == Score(history, raw)
      ensures 0.0 <= score <= 100.0
    {
      var h := Push(history, raw, historySize);
      var lo := if minValue.None? || raw < minValue.value then raw else minValue.value;
      var hi := if maxValue.None? || raw > maxValue.value then raw else maxValue.value;
      TracksAfterAppend(observed, history, minValue, maxValue, historySize, raw);
      score := Score(h, raw);
      history, minValue, maxValue := h, Some(lo), Some(hi);
      observed := observed + [raw];
    }

    method Reset()
      modifies this
      ensures Valid()
      ensures history == [] && observed == []
      ensures minValue.None? && maxValue.None?
    {
      history := [];
      minValue, maxValue := None, None;
      observed := [];
    }
  }

  /** The all-time extremes bound every value passed since the last reset. */
  lemma ExtremesBoundObserved(n: RiskNormalizer, v: real)
    requires n.Valid()
    requires v in n.observed
    ensures n.minValue.Some? && n.maxValue.Some?
    ensures n.minValue.value <= v <= n.maxValue.value
  {
  }
}
