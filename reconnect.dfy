/**
 * The reconnect loop the three listeners share: `start` keeps calling `_listen` while the
 * listener runs; `_listen` resets the delay to 5 seconds once connected; an exception that
 * escapes `_listen` doubles the delay, capped at 60 seconds, unless the listener was stopped.
 * The sleep itself is not modelled.
 */
module Reconnect {

  const InitialDelay: nat := 5
  const MaxDelay: nat := 60

  predicate InRange(delay: nat)
  {
    InitialDelay <= delay <= MaxDelay
  }

  /** `min(delay * 2, max_reconnect_delay)`. */
  function Next(delay: nat): (r: nat)
    ensures r <= MaxDelay
    ensures r == 2 * delay || r == MaxDelay
    ensures delay <= MaxDelay ==> delay <= r
  {
    if delay * 2 <= MaxDelay then delay * 2 else MaxDelay
  }

  /** The back-off step keeps the delay within [5, 60]. */
  lemma NextInRange(delay: nat)
    requires InRange(delay)
    ensures InRange(Next(delay))
  {
  }

  function Pow2(k: nat): (p: nat)
    ensures p >= 1
  {
    if k == 0 then 1 else 2 * Pow2(k - 1)
  }

  function Min(a: nat, b: nat): nat
  {
    if a <= b then a else b
  }

  /** The delay after `k` back-off steps from the initial 5 seconds. */
  function DelayAfterFailures(k: nat): (d: nat)
    ensures InRange(d)
  {
    if k == 0 then InitialDelay else Next(DelayAfterFailures(k - 1))
  }

  /** After k consecutive failures the delay is `min(5 * 2^k, 60)`. */
  lemma {:induction false} AfterFailures(k: nat)
    ensures DelayAfterFailures(k) == Min(InitialDelay * Pow2(k), MaxDelay)
  {
    if k > 0 {
      AfterFailures(k - 1);
      assert InitialDelay * Pow2(k) == 2 * (InitialDelay * Pow2(k - 1));
    }
  }

  /** From the fifth failure on, the delay sits at the cap. */
  lemma {:induction false} CappedAfterFourFailures(k: nat)
    requires k >= 4
    ensures DelayAfterFailures(k) == MaxDelay
  {
    AfterFailures(k);
    if k == 4 {
    } else {
      AfterFailures(k - 1);
      CappedAfterFourFailures(k - 1);
    }
  }

  /**
   * One pass of `start`'s loop body: whether `_listen` got connected (and so reset the delay),
   * whether an exception escaped it, and whether `stop` was called while it ran.
   */
  datatype Session = Session(connected: bool, raised: bool, stopped: bool)

  /** The delay once a session is over. */
  function AfterSession(delay: nat, s: Session): (r: nat)
    ensures s.connected && !s.raised ==> r == InitialDelay
    ensures !s.connected && !s.raised ==> r == delay
    ensures s.raised && !s.stopped ==> r == Next(if s.connected then InitialDelay else delay)
  {
    var reset := if s.connected then InitialDelay else delay;
    if s.raised && !s.stopped then Next(reset) else reset
  }

  /** The delay after `start` has run through `sessions`; a stopped session ends the loop. */
  function Run(delay: nat, sessions: seq<Session>): nat
    decreases |sessions|
  {
    if |sessions| == 0 then delay
    else
      var d := AfterSession(delay, sessions[0]);
      if sessions[0].stopped then d else Run(d, sessions[1..])
  }

  /** The delay stays within [5, 60] whatever happens. */
  lemma {:induction false} RunInRange(delay: nat, sessions: seq<Session>)
    requires InRange(delay)
    ensures InRange(Run(delay, sessions))
    decreases |sessions|
  {
    if |sessions| > 0 {
      var d := AfterSession(delay, sessions[0]);
      assert InRange(d) by {
        if sessions[0].raised && !sessions[0].stopped {
          NextInRange(if sessions[0].connected then InitialDelay else delay);
        }
      }
      if !sessions[0].stopped {
        RunInRange(d, sessions[1..]);
      }
    }
  }

  /** `k` failed connection attempts in a row. */
  function Failures(k: nat): (s: seq<Session>)
    ensures |s| == k
  {
    seq(k, _ => Session(false, true, false))
  }

  /** Starting from 5 seconds, k failed attempts leave the delay at `min(5 * 2^k, 60)`. */
  lemma {:induction false} RunOfFailures(k: nat)
    ensures Run(InitialDelay, Failures(k)) == Min(InitialDelay * Pow2(k), MaxDelay)
  {
    RunFailuresFrom(0, k);
    AfterFailures(k);
  }

  lemma {:induction false} RunFailuresFrom(j: nat, k: nat)
    ensures Run(DelayAfterFailures(j), Failures(k)) == DelayAfterFailures(j + k)
    decreases k
  {
    if k > 0 {
      assert Failures(k)[1..] == Failures(k - 1);
      RunFailuresFrom(j + 1, k - 1);
    }
  }

  /** The state `start` and `_listen` share: the running flag and the reconnect delay. */
  class Listener {
    var isRunning: bool
    var reconnectDelay: nat

    ghost predicate Valid()
      reads this
    {
      InRange(reconnectDelay)
    }

    constructor ()
      ensures Valid()
      ensures !isRunning && reconnectDelay == InitialDelay
    {
      isRunning := false;
      reconnectDelay := InitialDelay;
    }

    /** `start`: sets the running flag and loops over sessions until one is stopped. */
    method Start(sessions: seq<Session>)
      requires Valid()
      modifies this
      ensures Valid()
      ensures reconnectDelay == Run(old(reconnectDelay), sessions)
      ensures isRunning <==> forall k :: 0 <= k < |sessions| ==> !sessions[k].stopped
    {
      isRunning := true;
      var i := 0;
      while isRunning && i < |sessions|
        invariant 0 <= i <= |sessions|
        invariant InRange(reconnectDelay)
        invariant isRunning ==> Run(reconnectDelay, sessions[i..]) == Run(old(reconnectDelay), sessions)
        invariant !isRunning ==> reconnectDelay == Run(old(reconnectDelay), sessions)
        invariant isRunning <==> forall k :: 0 <= k < i ==> !sessions[k].stopped
        decreases |sessions| - i, isRunning
      {
        var s := sessions[i];
        assert sessions[i..][1..] == sessions[i + 1..];
        if s.connected {
          reconnectDelay := InitialDelay;
        }
        if s.stopped {
          isRunning := false;
        }
        if s.raised && isRunning {
          NextInRange(reconnectDelay);
          reconnectDelay := Next(reconnectDelay);
        }
        i := i + 1;
      }
    }

    /** `stop`. */
    method Stop()
      modifies this
      ensures !isRunning && reconnectDelay == old(reconnectDelay)
    {
      isRunning := false;
    }
  }
}
