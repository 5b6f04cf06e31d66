/**
 * The market context the risk engine hands to roast generation. The source passes a
 * dictionary; each optional key is an `Option` here, absent keys being `None`.
 */
module MarketContext {
  import opened Wrappers

  datatype Context = Context(
    riskScore: real,
    cryptoPrice: Option<real>,
    cryptoVolatility: Option<real>,
    polymarketProbability: Option<real>,
    polymarketVolatility: Option<real>,
    redditSentiment: Option<real>)
}
