/**
 * Roast generation: the prompt assembled from the market context, the seven fallback roasts
 * chosen by the integer part of the score, and the branch over the completion client.
 * Number formatting (`:.0f`, `:.1f`, `:.2f`) is the parameter `fmt`, which renders a real
 * with the given number of decimals; the completion service is the parameter `complete`.
 */
module Roast {
  import opened Wrappers
  import opened MarketContext
  import Strings

  /** `int(x)`: the integer part, truncated toward zero. */
  function Trunc(x: real): (n: int)
    ensures 0.0 <= x ==> 0 <= n && n as real <= x < n as real + 1.0
    ensures x < 0.0 ==> n <= 0 && n as real - 1.0 < x <= n as real
  {
    if 0.0 <= x then x.Floor else -((-x).Floor)
  }

  /** The number of fallback roasts. */
  const FallbackCount: nat := 7

  /** `int(risk_score) % len(fallback_roasts)`; Python's `%` takes the sign of the divisor. */
  function FallbackIndex(score: real): (i: int)
    ensures 0 <= i < FallbackCount
  {
    Trunc(score) % FallbackCount
  }

  /** What precedes the score in each fallback roast. */
  const FallbackPrefixes: seq<string> := [
    "Risk at ",
    "With risk this high (",
    "Risk score: ",
    "Your risk tolerance called\U{2014}it wants a restraining order. (",
    "At ",
    "Risk level: ",
    "The market is at "]

  /** What follows the score in each fallback roast. */
  const FallbackSuffixes: seq<string> := [
    "%? Congratulations, you've achieved peak market chaos. \U{1F389}",
    "%), even your portfolio is having an existential crisis.",
    "/100. The market isn't volatile, you're just not ready for this level of chaos.",
    "% risk)",
    "% risk, this is basically financial skydiving without a parachute.",
    "/100. Time to panic? Nah, you passed that point 20 points ago.",
    "% risk. Your stop-losses are writing their wills."]

  /**
   * `_generate_fallback_roast`: the roast at the score's index, with the score rendered without
   * decimals in it; the context is not consulted.
   */
  function Fallback(score: real, fmt: (real, nat) -> string): (roast: string)
  {
    var i := FallbackIndex(score);
    FallbackPrefixes[i] + fmt(score, 0) + FallbackSuffixes[i]
  }

  /** The rendered score sits right after the chosen prefix, and the chosen suffix ends the roast. */
  lemma FallbackShowsScore(score: real, fmt: (real, nat) -> string)
    ensures var i := FallbackIndex(score);
      var roast := Fallback(score, fmt);
      && |FallbackPrefixes[i]| + |fmt(score, 0)| <= |roast|
      && roast[|FallbackPrefixes[i]|..|FallbackPrefixes[i]| + |fmt(score, 0)|] == fmt(score, 0)
      && Strings.EndsWith(roast, FallbackSuffixes[i])
  {
    var i := FallbackIndex(score);
    var p, f, s := FallbackPrefixes[i], fmt(score, 0), FallbackSuffixes[i];
    var roast := p + f + s;
    assert roast[|p|..|p| + |f|] == f;
    assert roast[|roast| - |s|..] == s;
  }

  /** For a non-negative score the index is the whole part modulo 7. */
  lemma FallbackIndexOfNonNegative(score: real)
    requires 0.0 <= score
    ensures FallbackIndex(score) == score.Floor % FallbackCount
  {
  }

  /** Adding 7 to a non-negative score selects the same roast. */
  lemma FallbackCycles(score: real)
    requires 0.0 <= score
    ensures FallbackIndex(score + 7.0) == FallbackIndex(score)
  {
    assert Trunc(score + 7.0) == Trunc(score) + 7;
  }

  /** Scores in the same unit interval [n, n + 1), n >= 0, select the same roast. */
  lemma FallbackSameWholePart(a: real, b: real)
    requires 0.0 <= a && 0.0 <= b && a.Floor == b.Floor
    ensures FallbackIndex(a) == FallbackIndex(b)
  {
  }

  /**
   * Negative scores truncate toward zero before the modulo: -0.5 selects roast 0, as 0.5 does,
   * and -1.0 selects roast 6.
   */
  lemma FallbackNegativeScores()
    ensures FallbackIndex(-0.5) == 0 == FallbackIndex(0.5)
    ensures FallbackIndex(-1.0) == 6
  {
    assert Trunc(-0.5) == 0;
    assert Trunc(-1.0) == -1;
  }

  /** `sentiment_label`. */
  function SentimentLabel(sentiment: real): (word: string)
  {
    if sentiment < -0.5 then "extremely negative"
    else if sentiment < 0.0 then "negative"
    else "positive"
  }

  /** The three labels cover the three ranges, in both directions. */
  lemma SentimentLabels(sentiment: real)
    ensures SentimentLabel(sentiment) == "extremely negative" <==> sentiment < -0.5
    ensures SentimentLabel(sentiment) == "negative" <==> -0.5 <= sentiment < 0.0
    ensures SentimentLabel(sentiment) == "positive" <==> 0.0 <= sentiment
  {
    var e, n, p := "extremely negative", "negative", "positive";
    assert e != n by { assert |e| != |n|; }
    assert e != p by { assert |e| != |p|; }
    assert n != p by { assert n[0] != p[0]; }
  }

  function RiskSentence(score: real, fmt: (real, nat) -> string): (s: string)
    ensures |s| > 0 && s[0] == 'T'
  {
    "The market risk just hit " + fmt(score, 1) + "/100. Time to roast the situation."
  }

  function CryptoSentence(price: real, volatility: real, fmt: (real, nat) -> string): (s: string)
    ensures |s| > 0 && s[0] == 'B'
  {
    "Bitcoin is at $" + fmt(price, 2) + " with " + fmt(volatility * 100.0, 1) + "% volatility."
  }

  function PolymarketSentence(probability: real, fmt: (real, nat) -> string): (s: string)
    ensures |s| > 0 && s[0] == 'P'
  {
    "Polymarket prediction probability is " + fmt(probability * 100.0, 1) + "%."
  }

  function RedditSentence(sentiment: real, fmt: (real, nat) -> string): (s: string)
    ensures |s| > 0 && s[0] == 'R'
  {
    "Reddit sentiment is " + SentimentLabel(sentiment) + " (" + fmt(sentiment, 2) + ")."
  }

  /** The closing request (in two pieces, which lets the verifier read off its first character). */
  const Closing: string := "Deliver a witty, " + "cutting roast about this situation:"

  /** `context.get("crypto_volatility", 0)`. */
  function VolatilityOrZero(ctx: Context): (v: real)
    ensures ctx.cryptoVolatility.None? ==> v == 0.0
  {
    if ctx.cryptoVolatility.Some? then ctx.cryptoVolatility.value else 0.0
  }

  function Optional(sentence: Option<string>): (parts: seq<string>)
    ensures |parts| == if sentence.Some? then 1 else 0
  {
    if sentence.Some? then [sentence.value] else []
  }

  /** The opening sentence, the optional sentences in order, and the closing request. */
  function Assemble(first: string, crypto: Option<string>, polymarket: Option<string>,
                    reddit: Option<string>, last: string): seq<string>
  {
    [first] + Optional(crypto) + Optional(polymarket) + Optional(reddit) + [last]
  }

  function Count(b: bool): nat
  {
    if b then 1 else 0
  }

  /** The first part, the last part, the position of each optional part, and nothing else. */
  lemma AssembleShape(first: string, crypto: Option<string>, polymarket: Option<string>,
                      reddit: Option<string>, last: string)
    ensures var parts := Assemble(first, crypto, polymarket, reddit, last);
      var c := Count(crypto.Some?);
      var p := Count(polymarket.Some?);
      && |parts| == 2 + c + p + Count(reddit.Some?)
      && parts[0] == first
      && parts[|parts| - 1] == last
      && (crypto.Some? ==> parts[1] == crypto.value)
      && (polymarket.Some? ==> parts[1 + c] == polymarket.value)
      && (reddit.Some? ==> parts[1 + c + p] == reddit.value)
      && forall k :: 0 <= k < |parts| ==>
           || parts[k] == first || parts[k] == last
           || (crypto.Some? && parts[k] == crypto.value)
           || (polymarket.Some? && parts[k] == polymarket.value)
           || (reddit.Some? && parts[k] == reddit.value)
  {
  }

  /** `prompt_parts` as `_build_roast_prompt` assembles it. */
  function PromptParts(score: real, ctx: Context, fmt: (real, nat) -> string): (parts: seq<string>)
  {
    Assemble(
      RiskSentence(score, fmt),
      if ctx.cryptoPrice.Some? then Some(CryptoSentence(ctx.cryptoPrice.value, VolatilityOrZero(ctx), fmt)) else None,
      if ctx.polymarketProbability.Some? then Some(PolymarketSentence(ctx.polymarketProbability.value, fmt)) else None,
      if ctx.redditSentiment.Some? then Some(RedditSentence(ctx.redditSentiment.value, fmt)) else None,
      Closing)
  }

  /**
   * The prompt opens with the risk sentence and closes with the request for a roast; between
   * them come the crypto, Polymarket and Reddit sentences, each exactly when its key is in the
   * context and in that order. No part is about a missing key.
   */
  lemma PromptPartsContents(score: real, ctx: Context, fmt: (real, nat) -> string)
    ensures var parts := PromptParts(score, ctx, fmt);
      var c := Count(ctx.cryptoPrice.Some?);
      var p := Count(ctx.polymarketProbability.Some?);
      var r := Count(ctx.redditSentiment.Some?);
      && |parts| == 2 + c + p + r
      && parts[0] == RiskSentence(score, fmt)
      && parts[|parts| - 1] == Closing
      && (ctx.cryptoPrice.Some? ==> parts[1] == CryptoSentence(ctx.cryptoPrice.value, VolatilityOrZero(ctx), fmt))
      && (ctx.polymarketProbability.Some? ==> parts[1 + c] == PolymarketSentence(ctx.polymarketProbability.value, fmt))
      && (ctx.redditSentiment.Some? ==> parts[1 + c + p] == RedditSentence(ctx.redditSentiment.value, fmt))
      && (ctx.cryptoPrice.None? ==> forall pr, v :: CryptoSentence(pr, v, fmt) !in parts)
      && (ctx.polymarketProbability.None? ==> forall pb :: PolymarketSentence(pb, fmt) !in parts)
      && (ctx.redditSentiment.None? ==> forall st :: RedditSentence(st, fmt) !in parts)
  {
    var first := RiskSentence(score, fmt);
    var crypto := if ctx.cryptoPrice.Some? then Some(CryptoSentence(ctx.cryptoPrice.value, VolatilityOrZero(ctx), fmt)) else None;
    var polymarket := if ctx.polymarketProbability.Some? then Some(PolymarketSentence(ctx.polymarketProbability.value, fmt)) else None;
    var reddit := if ctx.redditSentiment.Some? then Some(RedditSentence(ctx.redditSentiment.value, fmt)) else None;
    AssembleShape(first, crypto, polymarket, reddit, Closing);
    ClosingStartsWithD();
  }

  lemma ClosingStartsWithD()
    ensures |Closing| > 0 && Closing[0] == 'D'
  {
  }

  /** `_build_roast_prompt`: the parts joined by single spaces. */
  function BuildPrompt(score: real, ctx: Context, fmt: (real, nat) -> string): (prompt: string)
  {
    Strings.Join(PromptParts(score, ctx, fmt), " ")
  }

  /** The prompt starts with the risk sentence and a space. */
  lemma PromptStartsWithRisk(score: real, ctx: Context, fmt: (real, nat) -> string)
    ensures RiskSentence(score, fmt) + " " <= BuildPrompt(score, ctx, fmt)
  {
    PromptPartsContents(score, ctx, fmt);
    Strings.JoinStartsWithFirst(PromptParts(score, ctx, fmt), " ");
  }

  /** The prompt ends with a space and the request for a roast. */
  lemma PromptEndsWithRequest(score: real, ctx: Context, fmt: (real, nat) -> string)
    ensures Strings.EndsWith(BuildPrompt(score, ctx, fmt), " " + Closing)
  {
    PromptPartsContents(score, ctx, fmt);
    Strings.JoinEndsWithSeparatedLast(PromptParts(score, ctx, fmt), " ");
  }

  /** What the completion service does with a prompt. */
  datatype Completion =
    | Completed(content: Option<string>)  // a response; `None` when it carries no message content
    | ApiError                            // `openai.APIError`
    | UnexpectedError                     // any other exception

  /**
   * `generate_roast`: without a client, the fallback; otherwise the completion of the prompt,
   * stripped, or the fallback when the call fails or the response has no content.
   */
  function GenerateRoast(score: real, ctx: Context, fmt: (real, nat) -> string,
                         hasClient: bool, complete: string -> Completion): (roast: string)
  {
    if !hasClient then Fallback(score, fmt)
    else
      match complete(BuildPrompt(score, ctx, fmt))
      case Completed(Some(content)) => Strings.Strip(content)
      case _ => Fallback(score, fmt)
  }

  /** Without a client the fallback is returned whatever the completion service would have done. */
  lemma NoClientNoCall(score: real, ctx: Context, fmt: (real, nat) -> string,
                       complete1: string -> Completion, complete2: string -> Completion)
    ensures GenerateRoast(score, ctx, fmt, false, complete1) == GenerateRoast(score, ctx, fmt, false, complete2)
    ensures GenerateRoast(score, ctx, fmt, false, complete1) == Fallback(score, fmt)
  {
  }

  /**
   * With a client, the roast is the stripped content of a completed call, and the fallback on
   * any error or missing content; no outcome escapes as an exception.
   */
  lemma ClientOutcomes(score: real, ctx: Context, fmt: (real, nat) -> string, complete: string -> Completion)
    ensures var outcome := complete(BuildPrompt(score, ctx, fmt));
      var roast := GenerateRoast(score, ctx, fmt, true, complete);
      && (outcome.Completed? && outcome.content.Some? ==>
            exists b: nat, e: nat :: Strings.StrippedAt(outcome.content.value, b, e) && roast == outcome.content.value[b..e])
      && (!(outcome.Completed? && outcome.content.Some?) ==> roast == Fallback(score, fmt))
  {
    var outcome := complete(BuildPrompt(score, ctx, fmt));
    if outcome.Completed? && outcome.content.Some? {
      assert GenerateRoast(score, ctx, fmt, true, complete) == Strings.Strip(outcome.content.value);
    }
  }

  /** Whether `generate_roast` serves the fallback: no client, a failed call, or no content. */
  predicate FallsBack(score: real, ctx: Context, fmt: (real, nat) -> string,
                      hasClient: bool, complete: string -> Completion)
  {
    !hasClient || !complete(BuildPrompt(score, ctx, fmt)).Completed?
    || complete(BuildPrompt(score, ctx, fmt)).content.None?
  }

  /**
   * Whenever two roasts both fall back, they are the same text whatever their contexts, clients
   * and completion services: the fallback roast depends on the score alone.
   */
  lemma FallbackIgnoresContext(score: real, ctx1: Context, ctx2: Context, fmt: (real, nat) -> string,
                               hasClient1: bool, hasClient2: bool,
                               complete1: string -> Completion, complete2: string -> Completion)
    requires FallsBack(score, ctx1, fmt, hasClient1, complete1)
    requires FallsBack(score, ctx2, fmt, hasClient2, complete2)
    ensures GenerateRoast(score, ctx1, fmt, hasClient1, complete1) == Fallback(score, fmt)
    ensures GenerateRoast(score, ctx1, fmt, hasClient1, complete1) == GenerateRoast(score, ctx2, fmt, hasClient2, complete2)
  {
  }
}
