/**
 * The reconnect back-off of the refactored client as a function of the number of
 * reconnects scheduled since the last successful connection.
 */
module Backoff {
  import opened Numeric
  import Config

  /** The timer delay a schedule arms for the current delay `d`: `min(d, max)`. */
  function ArmedDelay(d: real): (t: real)
    ensures t <= Config.MaxReconnectDelay && t <= d
    ensures t == d || t == Config.MaxReconnectDelay
  {
    Min(d, Config.MaxReconnectDelay)
  }

  /** The delay kept for the next schedule: `min(d * 1.5, max)`. */
  function NextDelay(d: real): (r: real)
    ensures r <= Config.MaxReconnectDelay
    ensures 0.0 <= d <= Config.MaxReconnectDelay ==> d <= r
    ensures r == Config.MaxReconnectDelay || r == d * Config.ReconnectGrowth
    ensures r <= d * Config.ReconnectGrowth
  {
    Min(d * Config.ReconnectGrowth, Config.MaxReconnectDelay)
  }

  /** The current delay after `n` schedules since the last reset. */
  function DelayAfter(n: nat): (d: real)
    ensures Config.InitialReconnectDelay <= d <= Config.MaxReconnectDelay
  {
    if n == 0 then Config.InitialReconnectDelay else NextDelay(DelayAfter(n - 1))
  }

  /** The delays armed by the first `n` schedules after a reset. */
  function ArmedDelays(n: nat): (ds: seq<real>)
    ensures |ds| == n
    ensures forall i :: 0 <= i < n ==> ds[i] == DelayAfter(i)
  {
    if n == 0 then [] else ArmedDelays(n - 1) + [ArmedDelay(DelayAfter(n - 1))]
  }

  /** The delays never shrink while failures accumulate. */
  lemma {:induction false} DelayAfterMonotone(m: nat, n: nat)
    requires m <= n
    ensures DelayAfter(m) <= DelayAfter(n)
    decreases n - m
  {
    if m < n {
      DelayAfterMonotone(m, n - 1);
    }
  }

  function Pow(x: real, n: nat): real {
    if n == 0 then 1.0 else x * Pow(x, n - 1)
  }

  /** Closed form: the n-th delay is `min(5 * 1.5^n, 300)`. */
  lemma {:induction false} DelayAfterClosedForm(n: nat)
    ensures DelayAfter(n) == Min(Config.InitialReconnectDelay * Pow(Config.ReconnectGrowth, n), Config.MaxReconnectDelay)
  {
    if n > 0 {
      DelayAfterClosedForm(n - 1);
    }
  }

  lemma {:induction false} PowAtLeastOne(n: nat)
    ensures 1.0 <= Pow(1.5, n)
  {
    if n > 0 {
      PowAtLeastOne(n - 1);
    }
  }

  lemma {:induction false} PowMonotone(m: nat, n: nat)
    requires m <= n
    ensures Pow(1.5, m) <= Pow(1.5, n)
    decreases n - m
  {
    if m < n {
      PowMonotone(m, n - 1);
      PowAtLeastOne(n - 1);
    }
  }

  /** From the eleventh schedule on, the delay sits at the ceiling. */
  lemma DelaySaturates(n: nat)
    requires n >= 11
    ensures DelayAfter(n) == Config.MaxReconnectDelay
    ensures DelayAfter(10) < Config.MaxReconnectDelay
  {
    DelayAfterClosedForm(n);
    DelayAfterClosedForm(10);
    PowMonotone(11, n);
    assert Pow(1.5, 11) > 60.0;
    assert Pow(1.5, 10) < 60.0;
  }

  /** Three failures in a row arm 5, 7.5 and 11.25 seconds. */
  lemma FirstThreeDelays()
    ensures ArmedDelays(3) == [5.0, 7.5, 11.25]
  {
    assert DelayAfter(1) == 7.5;
    assert DelayAfter(2) == 11.25;
  }
}
