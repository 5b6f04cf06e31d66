/**
 * The decision logic of the Polymarket listener: message classification, the subscription
 * message, how a session's failures reach the reconnect loop, and the mock probability walk.
 */
module Polymarket {
  import opened Wrappers
  import opened Payload
  import Reconnect

  /** `_process_message` on a message that decoded to `data` (`None`: not JSON). */
  function ProcessMessage(data: Option<Value>, parse: string -> Option<real>): (h: Handling)
    ensures h.Deliver? ==> 0.0 <= h.value <= 1.0
    ensures h.OutOfRange? ==> h.value < 0.0 || h.value > 1.0
  {
    match data
    case None => Malformed
    case Some(Object(fields)) =>
      if "probability" in fields then
        match ToFloat(fields["probability"], parse)
        case None => Malformed
        case Some(p) =>
          if 0.0 <= p <= 1.0 then Deliver(p, Get(fields, "market_id", Str("unknown")))
          else OutOfRange(p)
      else if "type" in fields && fields["type"] == Str("heartbeat") then Heartbeat
      else Ignored
    case Some(_) => Ignored
  }

  /**
   * The callback runs exactly when the message is an object whose "probability" converts to a
   * number in [0, 1]; it receives that number and "market_id", or "unknown" without one.
   */
  lemma DeliverIff(data: Option<Value>, parse: string -> Option<real>)
    ensures ProcessMessage(data, parse).Deliver? <==>
      && data.Some? && data.value.Object?
      && "probability" in data.value.fields
      && ToFloat(data.value.fields["probability"], parse).Some?
      && 0.0 <= ToFloat(data.value.fields["probability"], parse).value <= 1.0
    ensures ProcessMessage(data, parse).Deliver? ==>
      && ProcessMessage(data, parse).value == ToFloat(data.value.fields["probability"], parse).value
      && ProcessMessage(data, parse).tag ==
           (if "market_id" in data.value.fields then data.value.fields["market_id"] else Str("unknown"))
  {
  }

  /** A heartbeat is recognised only when there is no "probability" field. */
  lemma HeartbeatNeedsNoProbability(fields: map<string, Value>, parse: string -> Option<real>)
    requires "type" in fields && fields["type"] == Str("heartbeat")
    ensures ProcessMessage(Some(Object(fields)), parse) == Heartbeat <==> "probability" !in fields
  {
  }

  /** `self.target_market_id or "all"`: an unset or empty target subscribes to every market. */
  function SubscriptionTarget(target: Option<string>): (id: string)
    ensures id == "all" <==> target.None? || target.value == "" || target.value == "all"
    ensures id != "all" ==> target == Some(id)
  {
    match target
    case None => "all"
    case Some(t) => if t == "" then "all" else t
  }

  /** The message `_subscribe` sends. */
  function SubscriptionMessage(target: Option<string>): (m: Value)
    ensures m.Object? && m.fields.Keys == {"type", "channel", "market_id"}
    ensures m.fields["type"] == Str("subscribe") && m.fields["channel"] == Str("markets")
    ensures m.fields["market_id"] == Str(SubscriptionTarget(target))
  {
    Object(map["type" := Str("subscribe"), "channel" := Str("markets"),
               "market_id" := Str(SubscriptionTarget(target))])
  }

  /**
   * How a pass of `_listen` looks to `start`. A websocket error while receiving breaks out of
   * the receive loop, so the pass ends quietly after the delay was reset on connecting. A
   * failure to connect, or any other exception while listening (`listenFailed`: the subscribe
   * call or the ping after a time-out raising), is caught inside `_listen`, which then runs the
   * mock stream until the listener stops; only an exception from the callback inside the mock
   * stream escapes.
   */
  function ListenSession(connectOk: bool, listenFailed: bool, mockCallbackRaised: bool, stopped: bool)
    : (s: Reconnect.Session)
    ensures s.connected == connectOk
    ensures s.raised <==> (!connectOk || listenFailed) && mockCallbackRaised
  {
    var usedMock := !connectOk || listenFailed;
    Reconnect.Session(connectOk, usedMock && mockCallbackRaised, stopped)
  }

  /**
   * A pass that connected and ended on a websocket error runs no mock stream and raises
   * nothing: `start` reconnects at once, with the delay back at 5 whatever it was.
   */
  lemma QuietBreakReconnectsAtOnce(delay: nat, mockCallbackRaised: bool)
    ensures !ListenSession(true, false, mockCallbackRaised, false).raised
    ensures Reconnect.AfterSession(delay, ListenSession(true, false, mockCallbackRaised, false)) == Reconnect.InitialDelay
  {
  }

  /** With a callback that never raises, failures never back off: the delay is unchanged or reset. */
  lemma {:induction false} FailuresDoNotBackOff(delay: nat, sessions: seq<Reconnect.Session>)
    requires forall k :: 0 <= k < |sessions| ==> !sessions[k].raised
    ensures Reconnect.Run(delay, sessions) == delay || Reconnect.Run(delay, sessions) == Reconnect.InitialDelay
    decreases |sessions|
  {
    if |sessions| > 0 && !sessions[0].stopped {
      var d := Reconnect.AfterSession(delay, sessions[0]);
      FailuresDoNotBackOff(d, sessions[1..]);
    }
  }

  const MockStart: real := 0.5
  const MockLow: real := 0.05
  const MockHigh: real := 0.95

  /** `max(0.05, min(0.95, x))`. */
  function ClampMock(x: real): (r: real)
    ensures MockLow <= r <= MockHigh
    ensures MockLow <= x <= MockHigh ==> r == x
  {
    if x > MockHigh then MockHigh else if x < MockLow then MockLow else x
  }

  /**
   * The random draws of one mock iteration: the drift, and the spike that follows when the
   * 10% draw succeeds.
   */
  datatype MockDraw = MockDraw(change: real, spike: Option<real>)

  /** One iteration of `_mock_data_stream`: drift, clamp, optional spike, clamp. */
  function MockStep(current: real, draw: MockDraw): (next: real)
    ensures MockLow <= next <= MockHigh
  {
    var drifted := ClampMock(current + draw.change);
    match draw.spike
    case None => drifted
    case Some(spike) => ClampMock(drifted + spike)
  }

  /** The probability after the first `n` draws. */
  function MockWalk(draws: seq<MockDraw>, n: nat): (p: real)
    requires n <= |draws|
    ensures n > 0 ==> MockLow <= p <= MockHigh
  {
    if n == 0 then MockStart else MockStep(MockWalk(draws, n - 1), draws[n - 1])
  }

  /**
   * `_mock_data_stream` driven by the given draws: every probability handed to the callback is
   * in [0.05, 0.95] and is tagged "mock_market".
   */
  method MockStream(draws: seq<MockDraw>) returns (emitted: seq<(real, string)>)
    ensures |emitted| == |draws|
    ensures forall k :: 0 <= k < |emitted| ==> emitted[k] == (MockWalk(draws, k + 1), "mock_market")
    ensures forall k :: 0 <= k < |emitted| ==> MockLow <= emitted[k].0 <= MockHigh
  {
    var current := MockStart;
    emitted := [];
    var i := 0;
    while i < |draws|
      invariant 0 <= i <= |draws|
      invariant current == MockWalk(draws, i)
      invariant |emitted| == i
      invariant forall k :: 0 <= k < i ==> emitted[k] == (MockWalk(draws, k + 1), "mock_market")
    {
      current := MockStep(current, draws[i]);
      emitted := emitted + [(current, "mock_market")];
      i := i + 1;
    }
  }
}
