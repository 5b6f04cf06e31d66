/**
 * The risk engine: three bounded sample windows, volatility tracking, the raw risk formula
 * with its correlation multiplier, normalisation, and the cooldown-gated interrupt check.
 */
module Engine {
  import opened Wrappers
  import opened Config
  import opened MarketContext
  import N = Normalizer

  /** What the model assumes of the square root it is given: non-negative, and zero exactly at zero. */
  ghost predicate SqrtLike(sqrt: real -> real)
  {
    forall x: real :: 0.0 <= x ==> 0.0 <= sqrt(x) && (sqrt(x) == 0.0 <==> x == 0.0)
  }

  function Abs(x: real): (r: real)
    ensures 0.0 <= r && (r == x || r == -x)
  {
    if x < 0.0 then -x else x
  }

  function Last(s: seq<real>): real
    requires |s| > 0
  {
    s[|s| - 1]
  }

  // ----------------------------------------------------------------------------------------
  // Volatility: population standard deviation of absolute percentage changes
  // ----------------------------------------------------------------------------------------

  /**
   * Absolute relative changes between neighbours among the first `n` values, in order,
   * skipping pairs whose earlier value is zero.
   */
  function ChangesOfFirst(values: seq<real>, n: nat): (ch: seq<real>)
    requires n <= |values|
    ensures n < 2 ==> ch == []
    ensures n >= 2 ==> |ch| <= n - 1
    ensures forall i :: 0 <= i < |ch| ==> 0.0 <= ch[i]
  {
    if n < 2 then []
    else
      var earlier := ChangesOfFirst(values, n - 1);
      if values[n - 2] != 0.0 then earlier + [Abs((values[n - 1] - values[n - 2]) / values[n - 2])]
      else earlier
  }

  /** The percentage changes `_calculate_volatility` collects. */
  function PctChanges(values: seq<real>): (ch: seq<real>)
    ensures |ch| <= if |values| < 2 then 0 else |values| - 1
    ensures forall i :: 0 <= i < |ch| ==> 0.0 <= ch[i]
  {
    ChangesOfFirst(values, |values|)
  }

  function Mean(xs: seq<real>): real
    requires |xs| > 0
  {
    N.Sum(xs) / |xs| as real
  }

  lemma SquareNonNegative(x: real)
    ensures 0.0 <= x * x
  {
  }

  /** The sum of squared deviations from `mean` of the first `n` values. */
  function SquaredDeviations(xs: seq<real>, mean: real, n: nat): (r: real)
    requires n <= |xs|
    ensures 0.0 <= r
  {
    if n == 0 then 0.0
    else
      var d := xs[n - 1] - mean;
      SquareNonNegative(d);
      SquaredDeviations(xs, mean, n - 1) + d * d
  }

  function Variance(xs: seq<real>): (v: real)
    requires |xs| > 0
    ensures 0.0 <= v
  {
    SquaredDeviations(xs, Mean(xs), |xs|) / |xs| as real
  }

  function Volatility(values: seq<real>, sqrt: real -> real): real
  {
    var ch := PctChanges(values);
    if |values| < 2 || ch == [] then 0.0 else sqrt(Variance(ch))
  }

  /** Volatility is zero without two values or without a non-zero predecessor, and never negative. */
  lemma VolatilityNonNegative(values: seq<real>, sqrt: real -> real)
    requires SqrtLike(sqrt)
    ensures 0.0 <= Volatility(values, sqrt)
    ensures |values| < 2 ==> Volatility(values, sqrt) == 0.0
  {
  }

  /** Among the first `n` values there is no change exactly when every predecessor is zero. */
  lemma {:induction false} NoChangesOfFirstIffZeroPredecessors(values: seq<real>, n: nat)
    requires n <= |values|
    ensures ChangesOfFirst(values, n) == [] <==> forall i :: 0 <= i < n - 1 ==> values[i] == 0.0
  {
    if n >= 2 {
      NoChangesOfFirstIffZeroPredecessors(values, n - 1);
    }
  }

  /** There is no percentage change at all exactly when every predecessor is zero. */
  lemma NoChangesIffZeroPredecessors(values: seq<real>)
    ensures PctChanges(values) == [] <==> forall i :: 0 <= i < |values| - 1 ==> values[i] == 0.0
  {
    NoChangesOfFirstIffZeroPredecessors(values, |values|);
  }

  /** The loop of `_calculate_volatility`. */
  method CalculateVolatility(values: seq<real>, sqrt: real -> real) returns (vol: real)
    ensures vol == Volatility(values, sqrt)
  {
    if |values| < 2 {
      return 0.0;
    }
    var changes: seq<real> := [];
    var i := 1;
    while i < |values|
      invariant 1 <= i <= |values|
      invariant changes == ChangesOfFirst(values, i)
    {
      if values[i - 1] != 0.0 {
        changes := changes + [Abs((values[i] - values[i - 1]) / values[i - 1])];
      }
      i := i + 1;
    }
    if changes == [] {
      return 0.0;
    }
    var mean := N.Sum(changes) / |changes| as real;
    var variance := SquaredDeviations(changes, mean, |changes|) / |changes| as real;
    vol := sqrt(variance);
  }

  // ----------------------------------------------------------------------------------------
  // Raw risk
  // ----------------------------------------------------------------------------------------

  /** Reddit component: `(1 - latest) / 2`, plus the sentiment volatility once two samples exist. */
  function SentimentRisk(sentiments: seq<real>, sqrt: real -> real): real
    requires |sentiments| > 0
  {
    var base := (1.0 - Last(sentiments)) / 2.0;
    if |sentiments| >= 2 then base + Volatility(sentiments, sqrt) else base
  }

  /** Polymarket component: half of (extremity of the latest probability plus its volatility). */
  function ProbabilityRisk(probs: seq<real>, volatility: real): real
    requires |probs| > 0
  {
    (Abs(Last(probs) - 0.5) * 2.0 + volatility) * 0.5
  }

  /** The present risk components, in the source's order: crypto, Polymarket, Reddit. */
  function Components(cryptoVolatility: real, probs: seq<real>, probVolatility: real,
                      sentiments: seq<real>, sqrt: real -> real): seq<real>
  {
    (if cryptoVolatility > 0.0 then [cryptoVolatility * 10.0] else [])
    + (if probs != [] then [ProbabilityRisk(probs, probVolatility)] else [])
    + (if sentiments != [] then [SentimentRisk(sentiments, sqrt)] else [])
  }

  /** `1 + 0.1 * k` once at least two components are present, otherwise 1. */
  function CorrelationMultiplier(k: nat): real
  {
    if k >= 2 then 1.0 + k as real * 0.1 else 1.0
  }

  function RawRisk(components: seq<real>): real
  {
    N.Sum(components) * CorrelationMultiplier(|components|)
  }

  /**
   * Which components are present: crypto only with positive volatility, the others once they
   * have a sample; with none present the raw risk is 0, and with fewer than two it is the
   * plain sum.
   */
  lemma ComponentsPresent(cryptoVolatility: real, probs: seq<real>, probVolatility: real,
                          sentiments: seq<real>, sqrt: real -> real)
    ensures var c := Components(cryptoVolatility, probs, probVolatility, sentiments, sqrt);
      && |c| == (if cryptoVolatility > 0.0 then 1 else 0) + (if probs != [] then 1 else 0)
                + (if sentiments != [] then 1 else 0)
      && (cryptoVolatility > 0.0 ==> c[0] == cryptoVolatility * 10.0)
      && (c == [] ==> RawRisk(c) == 0.0)
      && (|c| < 2 ==> RawRisk(c) == N.Sum(c))
  {
  }

  lemma {:induction false} SumOfFirstNonNegative(s: seq<real>, n: nat)
    requires n <= |s|
    requires forall i :: 0 <= i < n ==> 0.0 <= s[i]
    ensures 0.0 <= N.SumOfFirst(s, n)
  {
    if n > 0 {
      SumOfFirstNonNegative(s, n - 1);
    }
  }

  lemma SumNonNegative(s: seq<real>)
    requires forall i :: 0 <= i < |s| ==> 0.0 <= s[i]
    ensures 0.0 <= N.Sum(s)
  {
    SumOfFirstNonNegative(s, |s|);
  }

  /**
   * With probabilities in [0,1], sentiments in [-1,1] and non-negative volatilities every
   * component is non-negative, so the raw risk lies between the plain sum and 1.3 times it.
   */
  lemma RawRiskNonNegative(cryptoVolatility: real, probs: seq<real>, probVolatility: real,
                           sentiments: seq<real>, sqrt: real -> real)
    requires SqrtLike(sqrt)
    requires 0.0 <= probVolatility
    requires forall i :: 0 <= i < |sentiments| ==> -1.0 <= sentiments[i] <= 1.0
    ensures var c := Components(cryptoVolatility, probs, probVolatility, sentiments, sqrt);
      && (forall i :: 0 <= i < |c| ==> 0.0 <= c[i])
      && 0.0 <= N.Sum(c) <= RawRisk(c) <= 1.3 * N.Sum(c)
  {
    var c := Components(cryptoVolatility, probs, probVolatility, sentiments, sqrt);
    if sentiments != [] {
      VolatilityNonNegative(sentiments, sqrt);
      assert -1.0 <= Last(sentiments) <= 1.0;
    }
    assert forall i :: 0 <= i < |c| ==> 0.0 <= c[i];
    SumNonNegative(c);
  }

  // ----------------------------------------------------------------------------------------
  // Interrupt gate
  // ----------------------------------------------------------------------------------------

  /** The interrupt fires when the score reaches the threshold and the cooldown has elapsed. */
  predicate ShouldFire(score: real, lastInterruptTime: real, now: real)
  {
    score >= RiskThreshold && now - lastInterruptTime >= InterruptCooldownSeconds
  }

  /** Any two firing times, in order, are at least one cooldown apart. */
  ghost predicate Spaced(firings: seq<real>)
  {
    forall i, j :: 0 <= i < j < |firings| ==> firings[i] + InterruptCooldownSeconds <= firings[j]
  }

  /** Hence firings `j - i` places apart are at least `j - i` cooldowns apart. */
  lemma {:induction false} SpacedPairwise(firings: seq<real>, i: nat, j: nat)
    requires Spaced(firings)
    requires i < j < |firings|
    ensures firings[i] + (j - i) as real * InterruptCooldownSeconds <= firings[j]
    decreases j - i
  {
    if i + 1 < j {
      SpacedPairwise(firings, i + 1, j);
      assert firings[i] + InterruptCooldownSeconds <= firings[i + 1];
    }
  }

  /** The firing times produced by the gate over a stream of (score, time) samples. */
  function Firings(lastInterruptTime: real, samples: seq<(real, real)>): seq<real>
    decreases |samples|
  {
    if samples == [] then []
    else
      var (score, now) := samples[0];
      if ShouldFire(score, lastInterruptTime, now) then [now] + Firings(now, samples[1..])
      else Firings(lastInterruptTime, samples[1..])
  }

  /** Whatever the scores and clocks, the gate never fires twice within one cooldown. */
  lemma {:induction false} FiringsAreSpaced(lastInterruptTime: real, samples: seq<(real, real)>)
    ensures var f := Firings(lastInterruptTime, samples);
      && Spaced(f)
      && forall k :: 0 <= k < |f| ==> lastInterruptTime + InterruptCooldownSeconds <= f[k]
    decreases |samples|
  {
    if samples != [] {
      var (score, now) := samples[0];
      if ShouldFire(score, lastInterruptTime, now) {
        FiringsAreSpaced(now, samples[1..]);
        var rest := Firings(now, samples[1..]);
        assert Firings(lastInterruptTime, samples) == [now] + rest;
      } else {
        FiringsAreSpaced(lastInterruptTime, samples[1..]);
      }
    }
  }

  /** Spaced firings inside a stretch of `width` seconds number at most `1 + width / 60`. */
  lemma SpacedWithinWindow(firings: seq<real>, start: real, width: real)
    requires Spaced(firings)
    requires forall k :: 0 <= k < |firings| ==> start <= firings[k] <= start + width
    ensures firings != [] ==> (|firings| - 1) as real * InterruptCooldownSeconds <= width
  {
    if firings != [] {
      var last := |firings| - 1;
      assert start <= firings[0] && firings[last] <= start + width;
      if 0 < last {
        SpacedPairwise(firings, 0, last);
      }
    }
  }

  /** So over any stretch of `width` seconds the gate fires at most `1 + width / 60` times. */
  lemma GateFiresRarely(lastInterruptTime: real, samples: seq<(real, real)>, start: real, width: real)
    requires var f := Firings(lastInterruptTime, samples);
      forall k :: 0 <= k < |f| ==> start <= f[k] <= start + width
    ensures var f := Firings(lastInterruptTime, samples);
      f != [] ==> (|f| - 1) as real * InterruptCooldownSeconds <= width
  {
    FiringsAreSpaced(lastInterruptTime, samples);
    SpacedWithinWindow(Firings(lastInterruptTime, samples), start, width);
  }

  /**
   * Threshold 75 and cooldown 60 over the scores 60, 80, 82, 76 at t, t+1, t+2, t+71:
   * exactly two interrupts, at the first crossing and once the cooldown has elapsed.
   */
  lemma CooldownScenario()
    ensures Firings(0.0, [(60.0, 1000.0), (80.0, 1001.0), (82.0, 1002.0), (76.0, 1071.0)]) == [1001.0, 1071.0]
  {
  }

  // ----------------------------------------------------------------------------------------
  // The engine
  // ----------------------------------------------------------------------------------------

  /** What `get_statistics` reports. */
  datatype EngineStats = EngineStats(
    currentRiskScore: real,
    totalUpdates: nat,
    interruptCount: nat,
    cryptoDataPoints: nat,
    polymarketDataPoints: nat,
    redditDataPoints: nat,
    cryptoVolatility: real,
    polymarketVolatility: real,
    normalizerStats: N.Stats)

  class RiskEngine {
    var cryptoPrices: seq<real>
    var polymarketProbs: seq<real>
    var redditSentiments: seq<real>
    var currentRiskScore: real
    var lastInterruptTime: real
    var cryptoVolatility: real
    var polymarketVolatility: real
    var totalUpdates: nat
    var interruptCount: nat
    const normalizer: N.RiskNormalizer
    /** The square root used for standard deviations. */
    const sqrt: real -> real
    /** The times at which an interrupt fired. */
    ghost var firings: seq<real>

    ghost predicate Valid()
      reads this, normalizer
    {
      && normalizer.Valid()
      && normalizer.historySize == NormalizerHistory
      && WindowsValid()
      && 0.0 <= currentRiskScore <= 100.0
      && SqrtLike(sqrt)
      && 0.0 <= cryptoVolatility && 0.0 <= polymarketVolatility
      && GateValid()
    }

    /** Each window within its length bound. */
    ghost predicate WindowsValid()
      reads this`cryptoPrices, this`polymarketProbs, this`redditSentiments
    {
      && |cryptoPrices| <= CryptoWindow
      && |polymarketProbs| <= PolymarketWindow
      && |redditSentiments| <= RedditWindow
    }

    /** The interrupt counters agree with the firing history, whose firings are a cooldown apart. */
    ghost predicate GateValid()
      reads this`interruptCount, this`firings, this`lastInterruptTime
    {
      && interruptCount == |firings|
      && Spaced(firings)
      && (firings == [] ==> lastInterruptTime == 0.0)
      && (firings != [] ==> lastInterruptTime == firings[|firings| - 1])
    }

    constructor (sqrt: real -> real)
      requires SqrtLike(sqrt)
      ensures Valid()
      ensures this.sqrt == sqrt && fresh(normalizer)
      ensures cryptoPrices == [] && polymarketProbs == [] && redditSentiments == []
      ensures currentRiskScore == 0.0 && lastInterruptTime == 0.0
      ensures cryptoVolatility == 0.0 && polymarketVolatility == 0.0
      ensures totalUpdates == 0 && interruptCount == 0
    {
      cryptoPrices, polymarketProbs, redditSentiments := [], [], [];
      currentRiskScore, lastInterruptTime := 0.0, 0.0;
      normalizer := new N.RiskNormalizer(NormalizerHistory);
      cryptoVolatility, polymarketVolatility := 0.0, 0.0;
      totalUpdates, interruptCount := 0, 0;
      this.sqrt := sqrt;
      firings := [];
    }

    /** The raw risk of the current samples. */
    ghost function CurrentRawRisk(): real
      reads this
    {
      RawRisk(Components(cryptoVolatility, polymarketProbs, polymarketVolatility, redditSentiments, sqrt))
    }

    /**
     * The effect of emitting raw risk `raw` at time `now`: `raw` is normalised into the current
     * score, then the gate decides `fired` and, when it fires, records the interrupt.
     */
    twostate predicate Emitted(raw: real, now: real, fired: bool)
      reads this, normalizer
    {
      && |old(normalizer.history)| <= normalizer.historySize
      && normalizer.observed == old(normalizer.observed) + [raw]
      && normalizer.history == N.Push(old(normalizer.history), raw, normalizer.historySize)
      && currentRiskScore == N.Score(normalizer.history, raw)
      && fired == ShouldFire(currentRiskScore, old(lastInterruptTime), now)
      && (fired ==> lastInterruptTime == now && interruptCount == old(interruptCount) + 1
                    && firings == old(firings) + [now])
      && (!fired ==> lastInterruptTime == old(lastInterruptTime) && interruptCount == old(interruptCount)
                     && firings == old(firings))
    }

    /** `ingest_crypto_price`: record the price, then recompute and emit the risk. */
    method IngestCryptoPrice(price: real, now: real) returns (fired: bool)
      requires Valid()
      modifies this, normalizer
      ensures Valid()
      ensures cryptoPrices == N.Push(old(cryptoPrices), price, CryptoWindow)
      ensures polymarketProbs == old(polymarketProbs) && redditSentiments == old(redditSentiments)
      ensures totalUpdates == old(totalUpdates) + 1
      ensures cryptoVolatility == if |cryptoPrices| >= 2 then Volatility(cryptoPrices, sqrt) else old(cryptoVolatility)
      ensures polymarketVolatility == old(polymarketVolatility)
      ensures Emitted(CurrentRawRisk(), now, fired)
    {
      RecordCryptoPrice(price);
      fired := CalculateAndEmitRisk(now);
    }

    /** The recording half of `ingest_crypto_price`: append, count, and refresh the volatility. */
    method RecordCryptoPrice(price: real)
      requires Valid()
      modifies this`cryptoPrices, this`cryptoVolatility, this`totalUpdates
      ensures Valid()
      ensures cryptoPrices == N.Push(old(cryptoPrices), price, CryptoWindow)
      ensures totalUpdates == old(totalUpdates) + 1
      ensures cryptoVolatility == if |cryptoPrices| >= 2 then Volatility(cryptoPrices, sqrt) else old(cryptoVolatility)
    {
      var window := N.Push(cryptoPrices, price, CryptoWindow);
      var volatility := cryptoVolatility;
      if |window| >= 2 {
        volatility := CalculateVolatility(window, sqrt);
        VolatilityNonNegative(window, sqrt);
      }
      cryptoPrices, cryptoVolatility, totalUpdates := window, volatility, totalUpdates + 1;
    }

    /** `ingest_polymarket_probability`: record the probability, then recompute and emit the risk. */
    method IngestPolymarketProbability(probability: real, now: real) returns (fired: bool)
      requires Valid()
      modifies this, normalizer
      ensures Valid()
      ensures polymarketProbs == N.Push(old(polymarketProbs), probability, PolymarketWindow)
      ensures cryptoPrices == old(cryptoPrices) && redditSentiments == old(redditSentiments)
      ensures totalUpdates == old(totalUpdates) + 1
      ensures polymarketVolatility == if |polymarketProbs| >= 2 then Volatility(polymarketProbs, sqrt) else old(polymarketVolatility)
      ensures cryptoVolatility == old(cryptoVolatility)
      ensures Emitted(CurrentRawRisk(), now, fired)
    {
      RecordPolymarketProbability(probability);
      fired := CalculateAndEmitRisk(now);
    }

    /** The recording half of `ingest_polymarket_probability`. */
    method RecordPolymarketProbability(probability: real)
      requires Valid()
      modifies this`polymarketProbs, this`polymarketVolatility, this`totalUpdates
      ensures Valid()
      ensures polymarketProbs == N.Push(old(polymarketProbs), probability, PolymarketWindow)
      ensures totalUpdates == old(totalUpdates) + 1
      ensures polymarketVolatility == if |polymarketProbs| >= 2 then Volatility(polymarketProbs, sqrt) else old(polymarketVolatility)
    {
      var window := N.Push(polymarketProbs, probability, PolymarketWindow);
      var volatility := polymarketVolatility;
      if |window| >= 2 {
        volatility := CalculateVolatility(window, sqrt);
        VolatilityNonNegative(window, sqrt);
      }
      polymarketProbs, polymarketVolatility, totalUpdates := window, volatility, totalUpdates + 1;
    }

    /** `ingest_reddit_sentiment`: record the sentiment, then recompute and emit the risk. */
    method IngestRedditSentiment(sentiment: real, now: real) returns (fired: bool)
      requires Valid()
      modifies this, normalizer
      ensures Valid()
      ensures redditSentiments == N.Push(old(redditSentiments), sentiment, RedditWindow)
      ensures cryptoPrices == old(cryptoPrices) && polymarketProbs == old(polymarketProbs)
      ensures totalUpdates == old(totalUpdates) + 1
      ensures cryptoVolatility == old(cryptoVolatility) && polymarketVolatility == old(polymarketVolatility)
      ensures Emitted(CurrentRawRisk(), now, fired)
    {
      redditSentiments := N.Push(redditSentiments, sentiment, RedditWindow);
      totalUpdates := totalUpdates + 1;
      fired := CalculateAndEmitRisk(now);
    }

    /** `_calculate_and_emit_risk`: computes the raw risk of the current samples and emits it. */
    method CalculateAndEmitRisk(now: real) returns (fired: bool)
      requires Valid()
      modifies this, normalizer
      ensures Valid()
      ensures cryptoPrices == old(cryptoPrices) && polymarketProbs == old(polymarketProbs)
      ensures redditSentiments == old(redditSentiments) && totalUpdates == old(totalUpdates)
      ensures cryptoVolatility == old(cryptoVolatility) && polymarketVolatility == old(polymarketVolatility)
      ensures Emitted(CurrentRawRisk(), now, fired)
    {
      var raw := CalculateRawRisk();
      fired := EmitRisk(raw, now);
    }

    /** The second half of `_calculate_and_emit_risk`: normalise `raw`, then check the gate. */
    method EmitRisk(raw: real, now: real) returns (fired: bool)
      requires Valid()
      modifies this, normalizer
      ensures Valid()
      ensures cryptoPrices == old(cryptoPrices) && polymarketProbs == old(polymarketProbs)
      ensures redditSentiments == old(redditSentiments) && totalUpdates == old(totalUpdates)
      ensures cryptoVolatility == old(cryptoVolatility) && polymarketVolatility == old(polymarketVolatility)
      ensures Emitted(raw, now, fired)
    {
      var score := normalizer.Normalize(raw);
      ghost var history := normalizer.history;
      currentRiskScore := score;
      fired := CheckInterrupt(now);
      assert normalizer.history == history;
    }

    /** `_calculate_raw_risk`: collects the present components, then combines them. */
    method CalculateRawRisk() returns (raw: real)
      ensures raw == RawRisk(Components(cryptoVolatility, polymarketProbs, polymarketVolatility, redditSentiments, sqrt))
    {
      var components: seq<real> := [];
      if cryptoVolatility > 0.0 {
        components := components + [cryptoVolatility * 10.0];
      }
      if polymarketProbs != [] {
        var latest := polymarketProbs[|polymarketProbs| - 1];
        var extremity := Abs(latest - 0.5) * 2.0;
        components := components + [(extremity + polymarketVolatility) * 0.5];
      }
      if redditSentiments != [] {
        var latest := redditSentiments[|redditSentiments| - 1];
        var risk := (1.0 - latest) / 2.0;
        if |redditSentiments| >= 2 {
          var volatility := CalculateVolatility(redditSentiments, sqrt);
          risk := risk + volatility;
        }
        components := components + [risk];
      }
      assert components == Components(cryptoVolatility, polymarketProbs, polymarketVolatility, redditSentiments, sqrt);
      if |components| >= 2 {
        raw := N.Sum(components) * (1.0 + |components| as real * 0.1);
      } else {
        raw := if components != [] then N.Sum(components) else 0.0;
      }
    }

    method CheckInterrupt(now: real) returns (fired: bool)
      requires Valid()
      modifies this
      ensures Valid()
      ensures fired == ShouldFire(currentRiskScore, old(lastInterruptTime), now)
      ensures fired ==> lastInterruptTime == now && interruptCount == old(interruptCount) + 1
                        && firings == old(firings) + [now]
      ensures !fired ==> lastInterruptTime == old(lastInterruptTime) && interruptCount == old(interruptCount)
                         && firings == old(firings)
      ensures cryptoPrices == old(cryptoPrices) && polymarketProbs == old(polymarketProbs)
      ensures redditSentiments == old(redditSentiments) && totalUpdates == old(totalUpdates)
      ensures cryptoVolatility == old(cryptoVolatility) && polymarketVolatility == old(polymarketVolatility)
      ensures currentRiskScore == old(currentRiskScore)
    {
      var timeSinceLast := now - lastInterruptTime;
      fired := currentRiskScore >= RiskThreshold && timeSinceLast >= InterruptCooldownSeconds;
      if fired {
        lastInterruptTime := now;
        interruptCount := interruptCount + 1;
        firings := firings + [now];
      }
    }

    /** `_get_context`: the score plus the latest sample of each source that has one. */
    function GetContext(): (ctx: Context)
      reads this
      ensures ctx.riskScore == currentRiskScore
      ensures ctx.cryptoPrice.Some? <==> cryptoPrices != []
      ensures ctx.cryptoVolatility.Some? <==> cryptoPrices != []
      ensures ctx.polymarketProbability.Some? <==> polymarketProbs != []
      ensures ctx.polymarketVolatility.Some? <==> polymarketProbs != []
      ensures ctx.redditSentiment.Some? <==> redditSentiments != []
      ensures cryptoPrices != [] ==> ctx.cryptoPrice.value == Last(cryptoPrices)
      ensures polymarketProbs != [] ==> ctx.polymarketProbability.value == Last(polymarketProbs)
      ensures redditSentiments != [] ==> ctx.redditSentiment.value == Last(redditSentiments)
      ensures cryptoPrices != [] ==> ctx.cryptoVolatility.value == cryptoVolatility
      ensures polymarketProbs != [] ==> ctx.polymarketVolatility.value == polymarketVolatility
    {
      Context(
        currentRiskScore,
        if cryptoPrices != [] then Some(Last(cryptoPrices)) else None,
        if cryptoPrices != [] then Some(cryptoVolatility) else None,
        if polymarketProbs != [] then Some(Last(polymarketProbs)) else None,
        if polymarketProbs != [] then Some(polymarketVolatility) else None,
        if redditSentiments != [] then Some(Last(redditSentiments)) else None)
    }

    function GetStatistics(): (st: EngineStats)
      requires Valid()
      reads this, normalizer
      ensures st.cryptoDataPoints == |cryptoPrices| <= CryptoWindow
      ensures st.polymarketDataPoints == |polymarketProbs| <= PolymarketWindow
      ensures st.redditDataPoints == |redditSentiments| <= RedditWindow
      ensures st.normalizerStats.historySize <= NormalizerHistory
      ensures 0.0 <= st.currentRiskScore <= 100.0
      ensures 0.0 <= st.cryptoVolatility && 0.0 <= st.polymarketVolatility
      ensures st.interruptCount == interruptCount && st.totalUpdates == totalUpdates
    {
      EngineStats(currentRiskScore, totalUpdates, interruptCount,
                  |cryptoPrices|, |polymarketProbs|, |redditSentiments|,
                  cryptoVolatility, polymarketVolatility, N.Statistics(normalizer.history))
    }
  }
}
