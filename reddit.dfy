/**
 * The decision logic of the Reddit sentiment listener: message conversion and validation, how
 * a session's failures reach the reconnect loop, and the mock sentiment walk.
 */
module Reddit {
  import opened Wrappers
  import opened Payload
  import Reconnect

  predicate InSentimentRange(x: real)
  {
    -1.0 <= x <= 1.0
  }

  /** A "score" in [0, 100] is rescaled to [-1, 1]; any other score is taken as it is. */
  function ScoreToSentiment(score: real): (s: real)
    ensures 0.0 <= score <= 100.0 ==> InSentimentRange(s) && s == (score - 50.0) / 50.0
    ensures !(0.0 <= score <= 100.0) ==> s == score
  {
    if 0.0 <= score <= 100.0 then (score - 50.0) / 50.0 else score
  }

  /** Score 0 is -1, 50 is neutral and 100 is +1. */
  lemma ScoreEndpoints()
    ensures ScoreToSentiment(0.0) == -1.0
    ensures ScoreToSentiment(50.0) == 0.0
    ensures ScoreToSentiment(100.0) == 1.0
  {
  }

  /** The rescaling is strictly increasing on [0, 100]. */
  lemma ScoreMonotone(a: real, b: real)
    requires 0.0 <= a < b <= 100.0
    ensures ScoreToSentiment(a) < ScoreToSentiment(b)
  {
  }

  /** `_process_message` on a message that decoded to `data` (`None`: not JSON). */
  function ProcessMessage(data: Option<Value>, parse: string -> Option<real>): (h: Handling)
    ensures h.Deliver? ==> InSentimentRange(h.value)
    ensures h.OutOfRange? ==> !InSentimentRange(h.value)
    ensures !h.Heartbeat? && !h.ApiError?
  {
    match data
    case None => Malformed
    case Some(Object(fields)) =>
      if "sentiment" in fields then
        match ToFloat(fields["sentiment"], parse)
        case None => Malformed
        case Some(s) =>
          if InSentimentRange(s) then Deliver(s, Get(fields, "source", Str("reddit"))) else OutOfRange(s)
      else if "score" in fields then
        match ToFloat(fields["score"], parse)
        case None => Malformed
        case Some(score) =>
          var s := ScoreToSentiment(score);
          if InSentimentRange(s) then Deliver(s, Get(fields, "source", Str("reddit"))) else OutOfRange(s)
      else Ignored
    case Some(_) => Ignored
  }

  /** A "sentiment" field reaches the callback iff it converts to a value in [-1, 1]. */
  lemma SentimentDeliveredIff(fields: map<string, Value>, parse: string -> Option<real>)
    requires "sentiment" in fields
    ensures ProcessMessage(Some(Object(fields)), parse).Deliver? <==>
      ToFloat(fields["sentiment"], parse).Some? && InSentimentRange(ToFloat(fields["sentiment"], parse).value)
    ensures ProcessMessage(Some(Object(fields)), parse).Deliver? ==>
      ProcessMessage(Some(Object(fields)), parse) ==
        Deliver(ToFloat(fields["sentiment"], parse).value, Get(fields, "source", Str("reddit")))
  {
  }

  /** "score" is not consulted when "sentiment" is present. */
  lemma ScoreIgnoredWithSentiment(fields: map<string, Value>, score: Value, parse: string -> Option<real>)
    requires "sentiment" in fields
    ensures ProcessMessage(Some(Object(fields["score" := score])), parse) ==
            ProcessMessage(Some(Object(fields)), parse)
  {
    assert fields["score" := score]["sentiment"] == fields["sentiment"];
  }

  /**
   * Without "sentiment", a "score" reaches the callback iff its rescaled value is in [-1, 1]:
   * every score in [0, 100], and a score outside it only when it already lies in [-1, 0).
   */
  lemma ScoreDeliveredIff(fields: map<string, Value>, parse: string -> Option<real>)
    requires "sentiment" !in fields && "score" in fields
    requires ToFloat(fields["score"], parse).Some?
    ensures ProcessMessage(Some(Object(fields)), parse).Deliver? <==>
      var score := ToFloat(fields["score"], parse).value;
      (0.0 <= score <= 100.0) || (-1.0 <= score < 0.0)
    ensures ProcessMessage(Some(Object(fields)), parse).Deliver? ==>
      ProcessMessage(Some(Object(fields)), parse).tag == Get(fields, "source", Str("reddit"))
  {
  }

  /**
   * How a pass of `_listen` looks to `start`, as for the Polymarket listener: a websocket error
   * while receiving ends the pass quietly; a failure to connect, or any other exception while
   * listening (`listenFailed`: the ping after a time-out raising), runs the mock stream until the
   * listener stops, and only an exception from the callback inside the mock stream escapes.
   */
  function ListenSession(connectOk: bool, listenFailed: bool, mockCallbackRaised: bool, stopped: bool)
    : (s: Reconnect.Session)
    ensures s.connected == connectOk
    ensures s.raised <==> (!connectOk || listenFailed) && mockCallbackRaised
  {
    Reconnect.Session(connectOk, (!connectOk || listenFailed) && mockCallbackRaised, stopped)
  }

  /**
   * A pass that connected and ended on a websocket error runs no mock stream and raises
   * nothing: `start` reconnects at once, with the delay back at 5 whatever it was.
   */
  lemma QuietBreakReconnectsAtOnce(delay: nat, mockCallbackRaised: bool)
    ensures !ListenSession(true, false, mockCallbackRaised, false).raised
    ensures Reconnect.AfterSession(delay, ListenSession(true, false, mockCallbackRaised, false)) == Reconnect.InitialDelay
  {
  }

  const MockStart: real := 0.1
  const BiasStep: real := 0.05

  /** `max(-1.0, min(1.0, x))`. */
  function ClampSentiment(x: real): (r: real)
    ensures InSentimentRange(r)
    ensures InSentimentRange(x) ==> r == x
  {
    if x > 1.0 then 1.0 else if x < -1.0 then -1.0 else x
  }

  /**
   * The random draws of one mock iteration: the drift, the shift that follows when the 15% draw
   * succeeds, and whether the 30% negative-bias draw succeeds.
   */
  datatype MockDraw = MockDraw(change: real, shift: Option<real>, bias: bool)

  /** One iteration of `_mock_data_stream`; the bias step only clamps from below. */
  function MockStep(current: real, draw: MockDraw): (next: real)
    requires InSentimentRange(current)
    ensures InSentimentRange(next)
  {
    var drifted := ClampSentiment(current + draw.change);
    var shifted := match draw.shift
      case None => drifted
      case Some(shift) => ClampSentiment(drifted + shift);
    if draw.bias then
      var lowered := shifted - BiasStep;
      if lowered < -1.0 then -1.0 else lowered
    else shifted
  }

  /** The sentiment after the first `n` draws. */
  function MockWalk(draws: seq<MockDraw>, n: nat): (s: real)
    requires n <= |draws|
    ensures InSentimentRange(s)
  {
    if n == 0 then MockStart else MockStep(MockWalk(draws, n - 1), draws[n - 1])
  }

  /** `_mock_data_stream` driven by the given draws: every value is in [-1, 1] and tagged "mock_reddit". */
  method MockStream(draws: seq<MockDraw>) returns (emitted: seq<(real, string)>)
    ensures |emitted| == |draws|
    ensures forall k :: 0 <= k < |emitted| ==> emitted[k] == (MockWalk(draws, k + 1), "mock_reddit")
    ensures forall k :: 0 <= k < |emitted| ==> InSentimentRange(emitted[k].0)
  {
    var current := MockStart;
    emitted := [];
    var i := 0;
    while i < |draws|
      invariant 0 <= i <= |draws|
      invariant current == MockWalk(draws, i)
      invariant |emitted| == i
      invariant forall k :: 0 <= k < i ==> emitted[k] == (MockWalk(draws, k + 1), "mock_reddit")
    {
      current := MockStep(current, draws[i]);
      emitted := emitted + [(current, "mock_reddit")];
      i := i + 1;
    }
  }
}
