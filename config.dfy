/**
 * Default tunables of the risk backend (the values backend/config.py falls back to
 * when no environment variable overrides them).
 */
module Config {
  /** Score at or above which an interrupt may fire. */
  const RiskThreshold: real := 75.0
  /** Minimum number of seconds between two fired interrupts. */
  const InterruptCooldownSeconds: real := 60.0
  /** Capacities of the engine's three rolling windows. */
  const CryptoWindow: nat := 20
  const PolymarketWindow: nat := 10
  const RedditWindow: nat := 15
  /** Capacity of the normaliser's history inside the engine. */
  const NormalizerHistory: nat := 100
}
