# VibeTrade risk pipeline, modelled in Dafny

This project models the backend of VibeTrade as a risk pipeline. Three market feeds each get a listener:

- Binance spot prices;
- Polymarket probabilities;
- Reddit sentiment.

Each listener turns raw WebSocket messages into validated samples. A websocket error from `recv` ends a pass quietly and the listener reconnects at once. The Binance listener backs off exponentially when it cannot connect or its keep-alive ping fails. When the Polymarket or Reddit listener fails to connect, or fails otherwise while listening (its subscribe or ping raising), it switches to a random-walk mock stream.

The event router passes each sample to the risk engine while it is running. The engine keeps bounded windows of recent samples and derives volatilities. It combines up to three risk components with a correlation multiplier. The adaptive normaliser maps the result onto 0..100. The engine fires an interrupt when the score reaches the threshold and the cooldown has elapsed.

For an interrupt, the router generates a roast and its audio, then broadcasts the interrupt and an alert. The roast comes from a completion service or from one of seven fallback lines. The audio is cached by the text's digest. After every sample the router broadcasts the score and the raw sample.

The newer backend's `ConnectionManager` is modelled too. It keeps front-end connections per data type and the symbols each one follows. It delivers a price update to the matching subscribers and then forgets the connections whose send failed.

Modules, one per source file:

| module | models |
|---|---|
| `Normalizer` | the adaptive normaliser. |
| `Engine` | the risk engine. |
| `Router` | the event router. |
| `Subscriptions` | `ConnectionManager` and `normalize_symbol`. |
| `Polymarket`, `Reddit`, `Crypto` | each listener's message handling and how its failures reach the reconnect loop. |
| `Reconnect` | the back-off loop the three listeners share. |
| `Roast` | roast generation. |
| `Voice` | voice generation and the audio cache. |

Supporting modules:

- `Config` holds the configuration defaults: threshold 75, cooldown 60 s, windows 20/10/15, normaliser history 100.
- `MarketContext` is the context dictionary.
- `Payload` is a decoded JSON message.
- `Strings` holds the Python `str` operations used.
- `Wrappers` holds `Option`.

How the source's outside dependencies appear in the model:

- **Numbers.** Floats are `real`. Square root is a function parameter assumed non-negative and zero exactly at zero.
- **Time.** The clock reading is a parameter `now`.
- **Randomness.** The random draws of the mock streams are input sequences.
- **Text rendering and digests.** Number formatting is a parameter `fmt`, and the md5 hex digest is a parameter `md5hex`.
- **Outside services.** The OpenAI and ElevenLabs clients are a presence flag plus a parameter describing the outcome of the call.
- **Files.** The audio directory is the set of paths that exist.
- **Sending.** A send to a front-end connection either succeeds or raises, and a set `failing` says which.
- **Broadcasts.** Everything the router broadcasts is appended to a trace, in order.

## Model

| member | source | states |
|---|---|---|
| Normalizer.Clamp | backend/logic/normalizer.py:110-113 | the result lies in [lo, hi], is the value itself when already in range, and is otherwise a bound |
| Normalizer.SeqMin | backend/logic/normalizer.py:67 | `min` of a non-empty window is an element of it and no element is smaller |
| Normalizer.SeqMax | backend/logic/normalizer.py:68 | `max` of a non-empty window is an element of it and no element is larger |
| Normalizer.Push | backend/logic/normalizer.py:37-38 | a bounded deque append never exceeds the capacity and keeps exactly the newest values of history + [v], in order |
| Normalizer.SimpleNormalize | backend/logic/normalizer.py:53-59 | the simple scaling lies in [0, 100], equals raw*100 for raw in [0, 1], and saturates at 0 and 100 outside |
| Normalizer.AdaptiveNormalize | backend/logic/normalizer.py:61-80 | min-max scaling over the padded window always lies in [0, 100] |
| Normalizer.Score | backend/logic/normalizer.py:46-51 | the score `normalize` returns lies in [0, 100] in both regimes |
| Normalizer.ScoreWithShortHistory | backend/logic/normalizer.py:46-59 | with fewer than 5 samples the score is clamp(raw*100, 0, 100), so exactly raw*100 for raw in [0, 1] |
| Normalizer.DegenerateWindowScoresNeutral | backend/logic/normalizer.py:66-77 | with 5 or more samples and a padded range below 0.0001 the score is exactly 50 |
| Normalizer.ConstantWindowScoresNeutral | backend/logic/normalizer.py:66-77 | a constant feed of 5 or more samples scores exactly 50 whatever the new value |
| Normalizer.AdaptiveScoreIsPadded | backend/logic/normalizer.py:61-80 | in the adaptive case the new value is in its window, so the padding keeps the score within [100*0.1/1.2, 100*1.1/1.2] |
| Normalizer.Statistics | backend/logic/normalizer.py:121-137 | empty history reports size 0 and no min/max/mean; otherwise the size is the history length, min and max are members, and min <= mean <= max |
| Normalizer.ExtremesAfterAppend | backend/logic/normalizer.py:41-44 | the incremental min/max update equals the min/max of every value observed so far |
| Normalizer.PushKeepsNewest | backend/logic/normalizer.py:23-38 | appending to the newest-n suffix of a feed yields the newest-n suffix of the longer feed |
| Normalizer.TracksAfterAppend | backend/logic/normalizer.py:37-44 | one `normalize` step keeps the history and the all-time extremes in step with the observed feed |
| Normalizer.RiskNormalizer.constructor | backend/logic/normalizer.py:16-25 | an empty history, no extremes, and the given capacity |
| Normalizer.RiskNormalizer.Normalize | backend/logic/normalizer.py:27-51 | appends raw to the bounded history, keeps the all-time extremes, and returns the score in [0, 100] for the new history |
| Normalizer.RiskNormalizer.Reset | backend/logic/normalizer.py:115-119 | the history is empty and both extremes are None |
| Normalizer.ExtremesBoundObserved | backend/logic/normalizer.py:41-44 | every value passed since construction or reset lies between min_value and max_value |
| Engine.ChangesOfFirst | backend/logic/risk_engine.py:183-188 | absolute changes between neighbours, skipping zero predecessors: none for under two values, at most n-1, all non-negative |
| Engine.PctChanges | backend/logic/risk_engine.py:183-188 | at most n-1 percentage changes, each non-negative |
| Engine.Variance | backend/logic/risk_engine.py:193-195 | the population variance of the changes is non-negative |
| Engine.VolatilityNonNegative | backend/logic/risk_engine.py:180-196 | volatility is never negative and is 0 for fewer than two values |
| Engine.NoChangesOfFirstIffZeroPredecessors | backend/logic/risk_engine.py:184-188 | among the first n values there is no change iff every predecessor is zero |
| Engine.NoChangesIffZeroPredecessors | backend/logic/risk_engine.py:184-191 | no percentage change (hence volatility 0) iff every predecessor is zero |
| Engine.CalculateVolatility | backend/logic/risk_engine.py:170-196 | the loop computes the standard deviation of the absolute percentage changes, 0 without two values or without any change |
| Engine.ComponentsPresent | backend/logic/risk_engine.py:130-166 | crypto counts only with positive volatility and the others once sampled; no component gives raw risk 0, fewer than two give the plain sum |
| Engine.RawRiskNonNegative | backend/logic/risk_engine.py:139-166 | with probabilities in [0,1], sentiments in [-1,1] and non-negative volatility every component is >= 0 and sum <= raw <= 1.3 * sum |
| Engine.SpacedPairwise | backend/logic/risk_engine.py:207-213 | firings j-i apart are at least j-i cooldowns apart |
| Engine.SpacedWithinWindow | backend/logic/risk_engine.py:207-213 | spaced firings inside a stretch of w seconds number at most 1 + w / 60 |
| Engine.GateFiresRarely | backend/logic/risk_engine.py:198-213 | over any stretch of w seconds the gate fires at most 1 + w / 60 times, whatever the scores |
| Engine.FiringsAreSpaced | backend/logic/risk_engine.py:198-213 | over any stream of scores and clock readings, any two interrupts are at least one cooldown apart and after the last one before the stream |
| Engine.CooldownScenario | backend/logic/risk_engine.py:203-213 | scores 60, 80, 82, 76 at t, t+1, t+2, t+71 fire exactly at t+1 and t+71 |
| Engine.RiskEngine.constructor | backend/logic/risk_engine.py:24-50 | empty windows, zero score, volatilities and counters, and a fresh normaliser of history 100 |
| Engine.RiskEngine.IngestCryptoPrice | backend/logic/risk_engine.py:54-71 | the price is pushed onto the 20-sample window only, total_updates grows by one, volatility refreshes from two samples on, then the risk is emitted |
| Engine.RiskEngine.RecordCryptoPrice | backend/logic/risk_engine.py:61-66 | the price is pushed, the count incremented and the crypto volatility recomputed once two prices exist; the engine invariant, non-negative volatilities included, is kept |
| Engine.RiskEngine.IngestPolymarketProbability | backend/logic/risk_engine.py:73-90 | the probability is pushed onto the 10-sample window only, total_updates grows by one, then the risk is emitted |
| Engine.RiskEngine.RecordPolymarketProbability | backend/logic/risk_engine.py:80-85 | the probability is pushed, the count incremented and the Polymarket volatility recomputed once two exist; the engine invariant, non-negative volatilities included, is kept |
| Engine.RiskEngine.IngestRedditSentiment | backend/logic/risk_engine.py:92-105 | the sentiment is pushed onto the 15-sample window only, total_updates grows by one, volatilities stay, then the risk is emitted |
| Engine.RiskEngine.CalculateAndEmitRisk | backend/logic/risk_engine.py:107-121 | the raw risk of the current samples is normalised into the score, then the interrupt gate runs; windows and volatilities are unchanged |
| Engine.RiskEngine.EmitRisk | backend/logic/risk_engine.py:113-121 | the score is the normaliser's output for the raw value and the gate's decision is reported |
| Engine.RiskEngine.CalculateRawRisk | backend/logic/risk_engine.py:123-168 | the loop's components and multiplier give the raw risk of the present components |
| Engine.RiskEngine.CheckInterrupt | backend/logic/risk_engine.py:198-213 | fires iff score >= 75 and now - last >= 60; on firing last := now and the count grows by one, otherwise both stay; firings stay a cooldown apart |
| Engine.RiskEngine.GetContext | backend/logic/risk_engine.py:219-242 | the score, plus the latest sample of exactly the sources that have one, and the engine's current crypto and Polymarket volatility beside their samples |
| Engine.RiskEngine.GetStatistics | backend/logic/risk_engine.py:248-260 | data-point counts are the window lengths within their bounds, the score is in [0, 100], both volatilities are non-negative, counters are the engine's |
| Router.InterruptBroadcasts | backend/logic/event_router.py:127-166 | success broadcasts INTERRUPT (roast, URL under /audio/, score) then the "interrupt" alert; a raised broadcast gives one "error" alert; no client means the fallbacks |
| Router.RoutedOrder | backend/logic/event_router.py:51-66 | after an ingest the score and then the sample are the last broadcasts; an interrupt's broadcasts come before them, and without one nothing else goes out |
| Router.EventRouter.constructor | backend/logic/event_router.py:23-29 | a stopped router over a fresh engine with an empty trace |
| Router.EventRouter.Start | backend/logic/event_router.py:31-34 | the router is running |
| Router.EventRouter.Stop | backend/logic/event_router.py:36-39 | the router is stopped |
| Router.EventRouter.RouteCrypto | backend/logic/event_router.py:43-66 | stopped: nothing changes and nothing is broadcast; running: one price ingested, the interrupt fired iff the gate allows, then score, then the "crypto" data update |
| Router.EventRouter.RoutePolymarket | backend/logic/event_router.py:68-91 | the same gate and order for one probability and the "polymarket" data update |
| Router.EventRouter.RouteReddit | backend/logic/event_router.py:93-116 | the same gate and order for one sentiment and the "reddit" data update |
| Router.EventRouter.Routed | backend/logic/event_router.py:56-66 | the interrupt handler's broadcasts when it fired, then the score, then the data update, are appended to the trace |
| Router.EventRouter.EmitRiskScore | backend/logic/event_router.py:120-123 | exactly the engine's current score is broadcast |
| Router.EventRouter.HandleInterrupt | backend/logic/event_router.py:127-166 | roast, then voice, then the success or error broadcasts of one interrupt |
| Router.EventRouter.ForceInterrupt | backend/logic/event_router.py:170-175 | an interrupt is handled at the current score whatever it is, leaving last_interrupt_time and interrupt_count as they were |
| Router.EventRouter.BroadcastStatus | backend/logic/event_router.py:177-187 | one STATUS broadcast carrying the current running flag, the engine statistics and the connection count |
| Router.EventRouter.GetStatistics | backend/logic/event_router.py:189-191 | the engine's statistics, unchanged |
| Subscriptions.NormalizeSymbol | backend-new/app/api/market_websocket.py:99-105 | the normal form contains no "/" and no lower-case ASCII letter and is no longer than the input |
| Subscriptions.NormalizeQuoteForms | backend-new/app/api/market_websocket.py:99-105 | a base free of "/" not ending in "USD" normalises to its upper-case form alone, with "USD" or with "/USD" appended |
| Subscriptions.BitcoinForms | backend-new/app/api/market_websocket.py:98-105 | "BTCUSD", "BTC/USD" and "BTC" all normalise to "BTC" |
| Subscriptions.LowerCaseQuoteKept | backend-new/app/api/market_websocket.py:101-105 | upper-casing comes last, so "btcusd" keeps its quote and does not normalise like "btc" |
| Subscriptions.BitcoinSubscriberMatches | backend-new/app/api/market_websocket.py:107-124 | a connection following "BTC" is sent "BTC", "BTCUSD" and "BTC/USD" updates |
| Subscriptions.NothingFollowedNothingReceived | backend-new/app/api/market_websocket.py:112-124 | a connection following no symbol is sent nothing |
| Subscriptions.ShouldSend | backend-new/app/api/market_websocket.py:112-124 | the early-exit loop plus the direct test decide to send iff some followed symbol normalises alike or the symbol or its normal form is followed |
| Subscriptions.SymbolsOf | backend-new/app/api/market_websocket.py:112 | the followed symbols, or none for an unknown connection |
| Subscriptions.SendToSubscribers | backend-new/app/api/market_websocket.py:107-132 | the matching connections that do not fail are delivered and counted, the matching ones that fail are collected, messages_sent <= set size |
| Subscriptions.ConnectionManager.constructor | backend-new/app/api/market_websocket.py:22-33 | the four data types with no connections, and no symbols |
| Subscriptions.ConnectionManager.Connect | backend-new/app/api/market_websocket.py:35-43 | an accepted connection joins its type's set with an empty symbol set; a failed accept or unknown type raises and changes nothing |
| Subscriptions.ConnectionManager.Disconnect | backend-new/app/api/market_websocket.py:45-48 | the connection leaves its type's set and the symbol map, harmless when absent; an unknown type raises |
| Subscriptions.ConnectionManager.Subscribe | backend-new/app/api/market_websocket.py:50-83 | whatever is asked, the entry is created if missing, earlier symbols kept, "BTC" added, and ["BTC"] confirmed |
| Subscriptions.ConnectionManager.Unsubscribe | backend-new/app/api/market_websocket.py:85-88 | exactly the given symbols are removed from a known connection; an unknown one is untouched |
| Subscriptions.ConnectionManager.Broadcast | backend-new/app/api/market_websocket.py:90-139 | only matching connections of that type are sent to; exactly the failed ones leave both maps; others and other types are untouched; messages_sent <= set size |
| Subscriptions.ConnectionManager.DisconnectAll | backend-new/app/api/market_websocket.py:137-139 | the clean-up loop removes exactly the collected connections from that type's set and the symbol map |
| Payload.ToFloat | backend/ingest/polymarket_listener.py:119 | `float()` converts numbers to themselves and raises on null, lists and dictionaries |
| Payload.Get | backend/ingest/polymarket_listener.py:120 | `dict.get` gives the field when present and the default otherwise |
| Polymarket.ProcessMessage | backend/ingest/polymarket_listener.py:105-137 | a delivered probability is in [0, 1]; one out of range is reported, not delivered; nothing raises |
| Polymarket.DeliverIff | backend/ingest/polymarket_listener.py:118-124 | the callback runs iff "probability" converts to a value in [0, 1], with "market_id" or "unknown" |
| Polymarket.HeartbeatNeedsNoProbability | backend/ingest/polymarket_listener.py:118-130 | a heartbeat is recognised iff there is no "probability" field |
| Polymarket.SubscriptionTarget | backend/ingest/polymarket_listener.py:99 | the market id is "all" iff no target or an empty one (or literally "all") is set, and the target otherwise |
| Polymarket.SubscriptionMessage | backend/ingest/polymarket_listener.py:96-102 | exactly the keys type "subscribe", channel "markets" and market_id |
| Polymarket.ListenSession | backend/ingest/polymarket_listener.py:57-86 | a failure to connect, subscribe or ping runs the mock stream, and only a callback raising inside the mock escapes to the back-off loop; a websocket error while receiving raises nothing |
| Polymarket.QuietBreakReconnectsAtOnce | backend/ingest/polymarket_listener.py:60-80 | a connected pass that ends on a websocket error raises nothing and leaves the reconnect delay at 5, whatever it was |
| Polymarket.FailuresDoNotBackOff | backend/ingest/polymarket_listener.py:39-86 | with a callback that never raises, the delay is never doubled: it stays or resets to 5 |
| Polymarket.ClampMock | backend/ingest/polymarket_listener.py:151 | the clamped probability is in [0.05, 0.95] and unchanged when already there |
| Polymarket.MockStep | backend/ingest/polymarket_listener.py:148-156 | after drift and optional spike the probability is in [0.05, 0.95] |
| Polymarket.MockWalk | backend/ingest/polymarket_listener.py:146-156 | every probability after the start is in [0.05, 0.95] |
| Polymarket.MockStream | backend/ingest/polymarket_listener.py:139-161 | the loop emits the walk's values, one per draw, each in [0.05, 0.95] and tagged "mock_market" |
| Reddit.ScoreToSentiment | backend/ingest/reddit_listener.py:110-114 | a score in [0, 100] becomes (score-50)/50 in [-1, 1]; any other score is passed on as it is |
| Reddit.ScoreEndpoints | backend/ingest/reddit_listener.py:111-112 | score 0 is -1, 50 is 0 and 100 is +1 |
| Reddit.ScoreMonotone | backend/ingest/reddit_listener.py:112 | the rescaling is strictly increasing on [0, 100] |
| Reddit.ProcessMessage | backend/ingest/reddit_listener.py:82-124 | every delivered value is in [-1, 1]; rejected ones lie outside; nothing raises |
| Reddit.SentimentDeliveredIff | backend/ingest/reddit_listener.py:95-103 | a "sentiment" field is delivered iff it converts into [-1, 1], with "source" or "reddit" |
| Reddit.ScoreIgnoredWithSentiment | backend/ingest/reddit_listener.py:95-105 | "score" is not consulted when "sentiment" is present |
| Reddit.ScoreDeliveredIff | backend/ingest/reddit_listener.py:105-117 | without "sentiment", a score is delivered iff it is in [0, 100] or already in [-1, 0), with "source" or "reddit" |
| Reddit.ListenSession | backend/ingest/reddit_listener.py:54-80 | a failure to connect or ping runs the mock stream, and only a callback raising inside the mock escapes; a websocket error while receiving raises nothing |
| Reddit.QuietBreakReconnectsAtOnce | backend/ingest/reddit_listener.py:56-74 | a connected pass that ends on a websocket error raises nothing and leaves the reconnect delay at 5, whatever it was |
| Reddit.ClampSentiment | backend/ingest/reddit_listener.py:138 | the clamped sentiment is in [-1, 1] and unchanged when already there |
| Reddit.MockStep | backend/ingest/reddit_listener.py:135-148 | drift, optional shift and the negative-bias step keep the sentiment in [-1, 1] |
| Reddit.MockWalk | backend/ingest/reddit_listener.py:133-148 | every sentiment of the walk is in [-1, 1] |
| Reddit.MockStream | backend/ingest/reddit_listener.py:126-153 | the loop emits the walk's values, one per draw, each in [-1, 1] and tagged "mock_reddit" |
| Crypto.ProcessMessage | backend/ingest/crypto_listener.py:81-109 | no range check on price (nothing is out of range) and no heartbeat; nothing raises |
| Crypto.DeliverIff | backend/ingest/crypto_listener.py:94-99 | the callback runs iff "p" is present and converts, with that price and "s" or "BTCUSDT" |
| Crypto.ErrorPayloadIgnored | backend/ingest/crypto_listener.py:101-102 | an "error" payload without a price gives no callback |
| Crypto.ListenSession | backend/ingest/crypto_listener.py:55-79 | a failed connection, or the keep-alive ping after a time-out raising (websocket error or not), escapes to the back-off loop; a websocket error from `recv` ends the pass quietly; there is no mock fallback |
| Crypto.FailedConnectBacksOff | backend/ingest/crypto_listener.py:41-57 | a failed connection doubles the delay up to 60, strictly increasing it below the cap |
| Crypto.ConsecutiveFailures | backend/ingest/crypto_listener.py:33-59 | k failed connections in a row from 5 leave the delay at min(5 * 2^k, 60) |
| Crypto.ConnectedThenFailed | backend/ingest/crypto_listener.py:41-59 | a connection that then fails resets to 5 before doubling, so the next delay is 10 |
| Reconnect.Next | backend/ingest/crypto_listener.py:49-53 | the doubled delay capped at 60, never below the old delay |
| Reconnect.NextInRange | backend/ingest/crypto_listener.py:33-53 | back-off keeps the delay within [5, 60] |
| Reconnect.DelayAfterFailures | backend/ingest/crypto_listener.py:33-53 | the delay after any number of back-off steps is within [5, 60] |
| Reconnect.AfterFailures | backend/ingest/crypto_listener.py:33-53 | after k back-off steps from 5 the delay is min(5 * 2^k, 60) |
| Reconnect.CappedAfterFourFailures | backend/ingest/crypto_listener.py:49-53 | from the fifth failure on the delay is exactly 60 |
| Reconnect.AfterSession | backend/ingest/crypto_listener.py:41-59 | a connection resets to 5; an escaping failure while running doubles (after that reset); a stopped listener does not back off |
| Reconnect.RunInRange | backend/ingest/crypto_listener.py:33-59 | whatever the sessions, the delay stays within [5, 60] |
| Reconnect.RunOfFailures | backend/ingest/crypto_listener.py:36-59 | k failed sessions from 5 leave the delay at min(5 * 2^k, 60) |
| Reconnect.Listener.constructor | backend/ingest/crypto_listener.py:30-34 | not running, delay 5 |
| Reconnect.Listener.Start | backend/ingest/crypto_listener.py:36-53 | the loop runs sessions until one is stopped; the delay is the back-off rule's result and stays in [5, 60] |
| Reconnect.Listener.Stop | backend/ingest/crypto_listener.py:111-113 | the listener is stopped and the delay kept |
| Strings.RemoveAll | backend-new/app/api/market_websocket.py:101 | `str.replace(pat, "")` never lengthens the text |
| Strings.RemoveCharRemovesAll | backend-new/app/api/market_websocket.py:101 | removing "/" leaves no "/" behind |
| Strings.Strip | backend/ai/generate_roast.py:64 | `strip` keeps a slice with only white space (Python's `isspace` set) outside it and none at either end |
| Strings.JoinStartsWithFirst | backend/ai/generate_roast.py:117 | a join of two or more parts starts with the first part and the separator |
| Strings.JoinEndsWithSeparatedLast | backend/ai/generate_roast.py:117 | a join of two or more parts ends with the separator and the last part |
| Strings.Basename | backend/ai/generate_voice.py:70 | `os.path.basename` is a "/"-free suffix of the path |
| Strings.BasenameOfJoin | backend/ai/generate_voice.py:95 | the base name of a directory joined to a "/"-free file name is that file name |
| Roast.Trunc | backend/ai/generate_roast.py:142 | `int()` truncates toward zero: the integer part from below for non-negative and from above for negative values |
| Roast.FallbackIndex | backend/ai/generate_roast.py:142 | `int(score) % 7` is always a valid index into the seven roasts |
| Roast.FallbackShowsScore | backend/ai/generate_roast.py:131-143 | the chosen roast shows the score rendered without decimals right after its prefix and ends with its suffix |
| Roast.FallbackIndexOfNonNegative | backend/ai/generate_roast.py:142 | for a non-negative score the index is its whole part modulo 7 |
| Roast.FallbackCycles | backend/ai/generate_roast.py:142 | score and score + 7 select the same roast |
| Roast.FallbackSameWholePart | backend/ai/generate_roast.py:142 | non-negative scores with the same whole part select the same roast |
| Roast.FallbackNegativeScores | backend/ai/generate_roast.py:142 | -0.5 selects roast 0 like 0.5; -1.0 selects roast 6 |
| Roast.SentimentLabels | backend/ai/generate_roast.py:110 | "extremely negative" iff below -0.5, "negative" iff in [-0.5, 0), "positive" iff >= 0 |
| Roast.RiskSentence | backend/ai/generate_roast.py:89 | the risk sentence opens with its own letter 'T', so it is never mistaken for another source's sentence |
| Roast.CryptoSentence | backend/ai/generate_roast.py:96-98 | every Bitcoin sentence opens with 'B', unlike the other sentences of the prompt |
| Roast.PolymarketSentence | backend/ai/generate_roast.py:103-105 | every Polymarket sentence opens with 'P', unlike the other sentences of the prompt |
| Roast.RedditSentence | backend/ai/generate_roast.py:111-113 | every Reddit sentence opens with 'R', unlike the other sentences of the prompt |
| Roast.VolatilityOrZero | backend/ai/generate_roast.py:95 | a missing crypto volatility counts as 0 |
| Roast.AssembleShape | backend/ai/generate_roast.py:88-115 | the parts are the opening, each optional sentence at its position, and the closing, and nothing else |
| Roast.PromptPartsContents | backend/ai/generate_roast.py:88-115 | risk sentence first, closing request last, the crypto, Polymarket and Reddit sentences present iff their key is, in that order; with a key missing, no sentence about that source, for any value, is among the parts |
| Roast.PromptStartsWithRisk | backend/ai/generate_roast.py:88-117 | the prompt starts with the risk sentence and a space |
| Roast.PromptEndsWithRequest | backend/ai/generate_roast.py:115-117 | the prompt ends with a space and the request for a roast |
| Roast.NoClientNoCall | backend/ai/generate_roast.py:30-32 | without a client the fallback is returned, whatever the completion service would do |
| Roast.ClientOutcomes | backend/ai/generate_roast.py:34-74 | with a client the roast is the stripped completion, or the fallback on any error or missing content |
| Roast.FallbackIgnoresContext | backend/ai/generate_roast.py:120-146 | whenever two calls fall back (no client, an error, or no content), both give the same fallback roast, whatever their contexts and services |
| Voice.Prefix | backend/ai/generate_voice.py:93 | `[:8]` keeps the first eight characters, or all of a shorter text |
| Voice.CacheFilename | backend/ai/generate_voice.py:93-94 | "roast_" + 8 digest characters + ".mp3", with no "/" for a hex digest |
| Voice.CachedAudio | backend/ai/generate_voice.py:107-125 | a hit iff the cache path exists, and its URL is under "/audio/" |
| Voice.Generate | backend/ai/generate_voice.py:23-74 | afterwards the files are as before or gain exactly the cache path |
| Voice.UrlsUnderAudio | backend/ai/generate_voice.py:23-74 | every URL returned starts with "/audio/" |
| Voice.NoClientFallback | backend/ai/generate_voice.py:34-36 | without a client the fallback URL is returned, the cache is not consulted and no file appears |
| Voice.CacheSkipped | backend/ai/generate_voice.py:40-44 | with use_cache false the URL does not depend on the files present |
| Voice.FailureFallsBack | backend/ai/generate_voice.py:72-74 | a cache miss followed by a failed synthesis returns the fallback URL |
| Voice.SavedUrlIsCacheUrl | backend/ai/generate_voice.py:93-123 | the saved file has the name the cache lookup uses, so the lookup then returns the generated URL |
| Voice.RepeatCallHitsCache | backend/ai/generate_voice.py:40-70 | after a non-fallback result, a repeat call with the cache returns the same URL and touches nothing |
| Voice.PartialFileServedLater | backend/ai/generate_voice.py:97-104 | a stream failing after the file was opened returns the fallback, yet a later cached call serves that file |
| Voice.AudioStore.SaveAudioStream | backend/ai/generate_voice.py:77-104 | opening creates the cache path; the path is returned iff the stream completes |
| Voice.AudioStore.GenerateVoice | backend/ai/generate_voice.py:23-74 | the URL and the new file set are exactly those of `generate_voice` on the old file set |

## Left out

- Network I/O, `asyncio` tasks, timeouts, pings and sleeps are not modelled. Each listener's session outcome and each send's success are inputs. The delay a listener sleeps is modelled; the sleep itself is not.
- Floating point is modelled as exact `real` arithmetic, so rounding, `inf` and `nan` are not modelled. Square root is abstract, assumed non-negative and zero exactly at zero.
- JSON decoding is not modelled. A listener receives the decoded value, or `None` for text that is not JSON.
- Python's float-literal syntax for strings is the parameter `parse`.
- Number formatting (`:.0f`, `:.1f`, `:.2f`) is the parameter `fmt`.
- The md5 digest is the parameter `md5hex`.
- Case mapping covers ASCII letters only.
- The OpenAI and ElevenLabs requests (model, voice settings, system prompt) are not modelled. Their outcome is a parameter.
- `os.makedirs` and the bytes written to audio files are not modelled. The file system is the set of paths that exist.
- The context's "timestamp" entry (the wall-clock time as text) is not modelled.
- `time.time()` is the parameter `now`. The random draws of the mock streams are input sequences, including the mock streams' 2–7 s sleeps.
- `RiskNormalizer.normalize_zscore` is not modelled; nothing in the core calls it.
- A risk engine built without an interrupt callback is not modelled: the event router always passes one.
- Logging is not modelled.
- `subscribe`'s Finnhub calls are not modelled (that service is not part of this model).
- `subscribe` builds a filtered `bitcoin_symbols` list and then discards it. The model omits the list because it has no effect.
- The WebSocket and REST endpoints of the newer backend are not modelled. Neither are `broadcast_price_update`, `backend/main.py` and the configuration loader; the configuration defaults are the constants in `Config`.
- Router.EventRouter.HandleInterrupt: `generate_roast` and `generate_voice` catch every exception themselves, so the model takes the interrupt broadcast as the one step that may raise (`broadcastError`). A failure of the later alert broadcast is not modelled: the INTERRUPT would already have gone out before the "error" alert.
- Router.EventRouter.BroadcastStatus: the connection count is a parameter. The front-end WebSocket manager it comes from is not part of this model.
- Router.EventRouter.RouteCrypto: the same applies to `RoutePolymarket` and `RouteReddit`. Each `ws_manager` broadcast is an entry appended to the trace; delivery to front-end clients is not modelled.
- Subscriptions.ConnectionManager.Connect: a failed `accept` is the flag `accepted`. A connection of an unknown data type is accepted before the lookup raises, and that acceptance is not modelled.
