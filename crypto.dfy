/**
 * The decision logic of the crypto spot-price listener: trade message classification and how a
 * session's failures reach the reconnect loop. Unlike the other two listeners it has no mock
 * stream, so a failure to connect escapes `_listen` and backs off.
 */
module Crypto {
  import opened Wrappers
  import opened Payload
  import Reconnect

  /** `_process_message` on a message that decoded to `data` (`None`: not JSON). */
  function ProcessMessage(data: Option<Value>, parse: string -> Option<real>): (h: Handling)
    ensures !h.OutOfRange? && !h.Heartbeat?
  {
    match data
    case None => Malformed
    case Some(Object(fields)) =>
      if "p" in fields then
        match ToFloat(fields["p"], parse)
        case None => Malformed
        case Some(price) => Deliver(price, Get(fields, "s", Str("BTCUSDT")))
      else if "error" in fields then ApiError
      else Ignored
    case Some(_) => Ignored
  }

  /**
   * The callback runs exactly when the message is an object whose "p" converts, with that price
   * whatever its value, and "s" or "BTCUSDT" without one.
   */
  lemma DeliverIff(data: Option<Value>, parse: string -> Option<real>)
    ensures ProcessMessage(data, parse).Deliver? <==>
      && data.Some? && data.value.Object?
      && "p" in data.value.fields
      && ToFloat(data.value.fields["p"], parse).Some?
    ensures ProcessMessage(data, parse).Deliver? ==>
      ProcessMessage(data, parse) ==
        Deliver(ToFloat(data.value.fields["p"], parse).value,
                if "s" in data.value.fields then data.value.fields["s"] else Str("BTCUSDT"))
  {
  }

  /** An "error" payload without a price produces no callback. */
  lemma ErrorPayloadIgnored(fields: map<string, Value>, parse: string -> Option<real>)
    requires "error" in fields && "p" !in fields
    ensures ProcessMessage(Some(Object(fields)), parse) == ApiError
  {
  }

  /**
   * How a pass of `_listen` looks to `start`: a websocket error from `recv` ends the pass
   * quietly and `start` reconnects at once. A failed connection escapes, and so does
   * `listenFailed`: the keep-alive ping after a time-out raising (a websocket error or not,
   * since it is raised inside the time-out handler) or any other exception while listening.
   */
  function ListenSession(connectOk: bool, listenFailed: bool, stopped: bool): (s: Reconnect.Session)
    ensures s.connected == connectOk
    ensures s.raised <==> !connectOk || listenFailed
  {
    Reconnect.Session(connectOk, !connectOk || listenFailed, stopped)
  }

  /** A failed connection while running doubles the delay, up to the cap. */
  lemma FailedConnectBacksOff(delay: nat)
    requires Reconnect.InRange(delay)
    ensures Reconnect.AfterSession(delay, ListenSession(false, false, false)) == Reconnect.Next(delay)
    ensures delay < Reconnect.MaxDelay ==> delay < Reconnect.AfterSession(delay, ListenSession(false, false, false))
  {
  }

  /** k failed connections in a row, from the initial delay, leave it at `min(5 * 2^k, 60)`. */
  lemma {:induction false} ConsecutiveFailures(k: nat)
    ensures Reconnect.Run(Reconnect.InitialDelay, seq(k, _ => ListenSession(false, false, false)))
         == Reconnect.Min(Reconnect.InitialDelay * Reconnect.Pow2(k), Reconnect.MaxDelay)
  {
    assert seq(k, _ => ListenSession(false, false, false)) == Reconnect.Failures(k);
    Reconnect.RunOfFailures(k);
  }

  /** A connection that then fails restarts the back-off from 5: the next delay is 10. */
  lemma ConnectedThenFailed(delay: nat)
    ensures Reconnect.AfterSession(delay, ListenSession(true, true, false)) == 2 * Reconnect.InitialDelay
  {
  }
}
