/**
 * The event router: a running/stopped gate in front of the risk engine. Each routed sample is
 * ingested, the interrupt it may fire is handled (roast, then voice, then broadcasts), and the
 * current score and the raw sample are broadcast. Broadcasts to the front end are appended to
 * `trace` in the order they are made.
 */
module Router {
  import opened Wrappers
  import opened Config
  import opened MarketContext
  import N = Normalizer
  import E = Engine
  import Roast
  import Voice

  /** A message broadcast to the front end. */
  datatype Outbound =
    | RiskScore(score: real)
    | DataUpdate(dataType: string, tag: string, value: real)  // the sample and its symbol, market or source
    | Interrupt(roast: string, audioUrl: string, riskScore: real)
    | Alert(alertType: string, message: string)
    | Status(isRunning: bool, statistics: E.EngineStats, connections: nat)

  /**
   * The outside services an interrupt uses and what they do on this call: the number formatter,
   * the completion client, the speech client with the text digest, and the exception raised by
   * the interrupt broadcast, if any.
   */
  datatype Services = Services(
    fmt: (real, nat) -> string,
    hasRoastClient: bool,
    complete: string -> Roast.Completion,
    hasVoiceClient: bool,
    md5hex: string -> string,
    synthesis: Voice.Synthesis,
    broadcastError: Option<string>)

  /** The broadcasts of one interrupt and the audio files that exist afterwards. */
  datatype Outcome = Outcome(messages: seq<Outbound>, files: set<string>)

  const ErrorPrefix: string := "Failed to generate interrupt content: "

  /** The roast `_handle_interrupt` generates. */
  function RoastFor(score: real, ctx: Context, svc: Services): string
  {
    Roast.GenerateRoast(score, ctx, svc.fmt, svc.hasRoastClient, svc.complete)
  }

  /** `_handle_interrupt` on an audio directory holding `files`. */
  function HandleOutcome(score: real, ctx: Context, files: set<string>, svc: Services): Outcome
  {
    var roast := RoastFor(score, ctx, svc);
    var voice := Voice.Generate(files, roast, true, svc.hasVoiceClient, svc.md5hex, svc.synthesis);
    match svc.broadcastError
    case Some(error) => Outcome([Alert("error", ErrorPrefix + error)], voice.files)
    case None =>
      Outcome([Interrupt(roast, voice.url, score),
               Alert("interrupt", "Risk threshold exceeded: " + svc.fmt(score, 1) + "/100")], voice.files)
  }

  /**
   * An interrupt broadcasts INTERRUPT, carrying the roast, an audio URL under "/audio/" and the
   * score, and then the "interrupt" alert; when the broadcast raises, a single "error" alert
   * carrying the exception's text goes out instead. Without the clients, the roast and the
   * audio are the fallbacks.
   */
  lemma {:induction false} InterruptBroadcasts(score: real, ctx: Context, files: set<string>, svc: Services)
    ensures var out := HandleOutcome(score, ctx, files, svc);
      && (svc.broadcastError.None? ==>
            && |out.messages| == 2
            && out.messages[0].Interrupt?
            && out.messages[0].roast == RoastFor(score, ctx, svc)
            && out.messages[0].riskScore == score
            && Voice.UrlPrefix <= out.messages[0].audioUrl
            && out.messages[1].Alert? && out.messages[1].alertType == "interrupt")
      && (svc.broadcastError.Some? ==>
            out.messages == [Alert("error", ErrorPrefix + svc.broadcastError.value)])
      && (!svc.hasRoastClient ==> RoastFor(score, ctx, svc) == Roast.Fallback(score, svc.fmt))
      && (!svc.hasVoiceClient ==> out.files == files)
      && (!svc.hasVoiceClient && svc.broadcastError.None? ==> out.messages[0].audioUrl == Voice.FallbackUrl)
  {
    var roast := RoastFor(score, ctx, svc);
    Voice.UrlsUnderAudio(files, roast, true, svc.hasVoiceClient, svc.md5hex, svc.synthesis);
    Roast.NoClientNoCall(score, ctx, svc.fmt, svc.complete, svc.complete);
    Voice.NoClientFallback(files, roast, true, svc.md5hex, svc.synthesis);
  }

  /**
   * What a running router broadcasts after ingesting a sample: the interrupt's messages when
   * the ingest fired one, then the current score, then the raw sample.
   */
  function AfterIngest(fired: bool, score: real, ctx: Context, files: set<string>, svc: Services,
                       update: Outbound): Outcome
  {
    if fired then
      var handled := HandleOutcome(score, ctx, files, svc);
      Outcome(handled.messages + [RiskScore(score), update], handled.files)
    else Outcome([RiskScore(score), update], files)
  }

  /**
   * The score and the sample always come last, in that order; without an interrupt nothing
   * else is broadcast and no audio is made; with one, its broadcasts come first.
   */
  lemma RoutedOrder(fired: bool, score: real, ctx: Context, files: set<string>, svc: Services, update: Outbound)
    ensures var out := AfterIngest(fired, score, ctx, files, svc, update);
      var n := |out.messages|;
      && n >= 2 && out.messages[n - 2] == RiskScore(score) && out.messages[n - 1] == update
      && (!fired ==> n == 2 && out.files == files)
      && (fired ==> out.messages[..n - 2] == HandleOutcome(score, ctx, files, svc).messages)
      && (fired && svc.broadcastError.None? ==> n == 4 && out.messages[0].Interrupt? && out.messages[1].Alert?)
      && (fired && svc.broadcastError.Some? ==> n == 3 && out.messages[0].Alert? && out.messages[0].alertType == "error")
  {
    if fired {
      InterruptBroadcasts(score, ctx, files, svc);
    }
  }

  class EventRouter {
    const engine: E.RiskEngine
    const voice: Voice.AudioStore
    var isRunning: bool
    /** Every broadcast made so far, oldest first. */
    var trace: seq<Outbound>

    ghost predicate Valid()
      reads this, engine, engine.normalizer
    {
      engine.Valid()
    }

    constructor (sqrt: real -> real, files: set<string>)
      requires E.SqrtLike(sqrt)
      ensures Valid()
      ensures fresh(engine) && fresh(engine.normalizer) && fresh(voice)
      ensures !isRunning && trace == [] && voice.files == files
      ensures engine.totalUpdates == 0 && engine.interruptCount == 0 && engine.currentRiskScore == 0.0
    {
      engine := new E.RiskEngine(sqrt);
      voice := new Voice.AudioStore(files);
      isRunning := false;
      trace := [];
    }

    /** `start`. */
    method Start()
      modifies this`isRunning
      ensures isRunning
    {
      isRunning := true;
    }

    /** `stop`. */
    method Stop()
      modifies this`isRunning
      ensures !isRunning
    {
      isRunning := false;
    }

    /** `route_crypto_data`: a stopped router ignores the sample. */
    method RouteCrypto(price: real, symbol: string, now: real, svc: Services)
      requires Valid()
      modifies this`trace, engine, engine.normalizer, voice
      ensures Valid()
      ensures !isRunning ==> trace == old(trace) && unchanged(engine, engine.normalizer, voice)
      ensures isRunning ==>
        && engine.cryptoPrices == N.Push(old(engine.cryptoPrices), price, CryptoWindow)
        && engine.polymarketProbs == old(engine.polymarketProbs)
        && engine.redditSentiments == old(engine.redditSentiments)
        && engine.totalUpdates == old(engine.totalUpdates) + 1
      ensures isRunning ==>
        var fired := engine.interruptCount == old(engine.interruptCount) + 1;
        var out := AfterIngest(fired, engine.currentRiskScore, engine.GetContext(), old(voice.files), svc,
                               DataUpdate("crypto", symbol, price));
        && (fired <==> E.ShouldFire(engine.currentRiskScore, old(engine.lastInterruptTime), now))
        && trace == old(trace) + out.messages
        && voice.files == out.files
    {
      if !isRunning {
        return;
      }
      var fired := engine.IngestCryptoPrice(price, now);
      Routed(fired, DataUpdate("crypto", symbol, price), svc);
    }

    /** `route_polymarket_data`: a stopped router ignores the sample. */
    method RoutePolymarket(probability: real, marketId: string, now: real, svc: Services)
      requires Valid()
      modifies this`trace, engine, engine.normalizer, voice
      ensures Valid()
      ensures !isRunning ==> trace == old(trace) && unchanged(engine, engine.normalizer, voice)
      ensures isRunning ==>
        && engine.polymarketProbs == N.Push(old(engine.polymarketProbs), probability, PolymarketWindow)
        && engine.cryptoPrices == old(engine.cryptoPrices)
        && engine.redditSentiments == old(engine.redditSentiments)
        && engine.totalUpdates == old(engine.totalUpdates) + 1
      ensures isRunning ==>
        var fired := engine.interruptCount == old(engine.interruptCount) + 1;
        var out := AfterIngest(fired, engine.currentRiskScore, engine.GetContext(), old(voice.files), svc,
                               DataUpdate("polymarket", marketId, probability));
        && (fired <==> E.ShouldFire(engine.currentRiskScore, old(engine.lastInterruptTime), now))
        && trace == old(trace) + out.messages
        && voice.files == out.files
    {
      if !isRunning {
        return;
      }
      var fired := engine.IngestPolymarketProbability(probability, now);
      Routed(fired, DataUpdate("polymarket", marketId, probability), svc);
    }

    /** `route_reddit_data`: a stopped router ignores the sample. */
    method RouteReddit(sentiment: real, source: string, now: real, svc: Services)
      requires Valid()
      modifies this`trace, engine, engine.normalizer, voice
      ensures Valid()
      ensures !isRunning ==> trace == old(trace) && unchanged(engine, engine.normalizer, voice)
      ensures isRunning ==>
        && engine.redditSentiments == N.Push(old(engine.redditSentiments), sentiment, RedditWindow)
        && engine.cryptoPrices == old(engine.cryptoPrices)
        && engine.polymarketProbs == old(engine.polymarketProbs)
        && engine.totalUpdates == old(engine.totalUpdates) + 1
      ensures isRunning ==>
        var fired := engine.interruptCount == old(engine.interruptCount) + 1;
        var out := AfterIngest(fired, engine.currentRiskScore, engine.GetContext(), old(voice.files), svc,
                               DataUpdate("reddit", source, sentiment));
        && (fired <==> E.ShouldFire(engine.currentRiskScore, old(engine.lastInterruptTime), now))
        && trace == old(trace) + out.messages
        && voice.files == out.files
    {
      if !isRunning {
        return;
      }
      var fired := engine.IngestRedditSentiment(sentiment, now);
      Routed(fired, DataUpdate("reddit", source, sentiment), svc);
    }

    /**
     * What every `route_*` method does after the ingest: the engine's interrupt callback when
     * it fired, then `_emit_risk_score`, then the data update.
     */
    method Routed(fired: bool, update: Outbound, svc: Services)
      modifies this`trace, voice
      ensures var out := AfterIngest(fired, engine.currentRiskScore, engine.GetContext(), old(voice.files), svc, update);
        trace == old(trace) + out.messages && voice.files == out.files
    {
      if fired {
        HandleInterrupt(engine.currentRiskScore, engine.GetContext(), svc);
      }
      EmitRiskScore();
      trace := trace + [update];
    }

    /** `_emit_risk_score`. */
    method EmitRiskScore()
      modifies this`trace
      ensures trace == old(trace) + [RiskScore(engine.currentRiskScore)]
    {
      trace := trace + [RiskScore(engine.currentRiskScore)];
    }

    /** `_handle_interrupt`: generate the roast, then its audio, then broadcast. */
    method HandleInterrupt(score: real, ctx: Context, svc: Services)
      modifies this`trace, voice
      ensures var out := HandleOutcome(score, ctx, old(voice.files), svc);
        trace == old(trace) + out.messages && voice.files == out.files
    {
      var roast := Roast.GenerateRoast(score, ctx, svc.fmt, svc.hasRoastClient, svc.complete);
      var url := voice.GenerateVoice(roast, true, svc.hasVoiceClient, svc.md5hex, svc.synthesis);
      match svc.broadcastError {
        case Some(error) =>
          trace := trace + [Alert("error", ErrorPrefix + error)];
        case None =>
          trace := trace + [Interrupt(roast, url, score),
                            Alert("interrupt", "Risk threshold exceeded: " + svc.fmt(score, 1) + "/100")];
      }
    }

    /**
     * `force_interrupt`: handles an interrupt at the current score whatever its value and
     * whether or not the router runs, leaving the engine's interrupt gate as it was.
     */
    method ForceInterrupt(svc: Services)
      requires Valid()
      modifies this`trace, voice
      ensures Valid()
      ensures engine.lastInterruptTime == old(engine.lastInterruptTime)
      ensures engine.interruptCount == old(engine.interruptCount)
      ensures var out := HandleOutcome(engine.currentRiskScore, engine.GetContext(), old(voice.files), svc);
        trace == old(trace) + out.messages && voice.files == out.files
    {
      HandleInterrupt(engine.currentRiskScore, engine.GetContext(), svc);
    }

    /** `broadcast_status`, with the connection count the socket manager reports. */
    method BroadcastStatus(connections: nat)
      requires Valid()
      modifies this`trace
      ensures trace == old(trace) + [Status(isRunning, GetStatistics(), connections)]
    {
      trace := trace + [Status(isRunning, engine.GetStatistics(), connections)];
    }

    /** `get_statistics`: the engine's statistics as they are. */
    function GetStatistics(): (st: E.EngineStats)
      requires Valid()
      reads this, engine, engine.normalizer
      ensures st == engine.GetStatistics()
      ensures 0.0 <= st.currentRiskScore <= 100.0
      ensures st.interruptCount == engine.interruptCount && st.totalUpdates == engine.totalUpdates
    {
      engine.GetStatistics()
    }
  }
}
