/**
 * `calculateCPUPercentage`: the share of the ticks elapsed between two
 * samples that were not idle, in percent, with a guard for a total that did
 * not move. Exact rationals (`real`) stand for Go's `float64`.
 */
module Calculator {
  import opened Sampler

  /** The ticks elapsed between two samples; negative when the counters went backwards. */
  function TotalDelta(prev: CPUUsage, curr: CPUUsage): (d: int)
    ensures prev.Total + d == curr.Total
    ensures d < 0 <==> curr.Total < prev.Total
  {
    curr.Total - prev.Total
  }

  /** The idle ticks elapsed between two samples; negative when the counters went backwards. */
  function IdleDelta(prev: CPUUsage, curr: CPUUsage): (d: int)
    ensures prev.Idle + d == curr.Idle
    ensures d < 0 <==> curr.Idle < prev.Idle
  {
    curr.Idle - prev.Idle
  }

  /**
   * The busy percentage of the ticks between two samples, guarded against a
   * total that did not move. There is no clamping, so odd deltas can give a
   * value outside [0, 100]; `BusyShare` states what the value means.
   */
  function CPUPercentage(prev: CPUUsage, curr: CPUUsage): (p: real)
    ensures TotalDelta(prev, curr) == 0 ==> p == 0.0
  {
    var totalDelta := TotalDelta(prev, curr) as real;
    var idleDelta := IdleDelta(prev, curr) as real;
    if totalDelta == 0.0 then 0.0
    else 100.0 * (1.0 - idleDelta / totalDelta)
  }

  /** Once the total moved, `p` percent of the new ticks were not idle. */
  lemma BusyShare(prev: CPUUsage, curr: CPUUsage)
    requires TotalDelta(prev, curr) != 0
    ensures CPUPercentage(prev, curr) * TotalDelta(prev, curr) as real ==
            100.0 * (TotalDelta(prev, curr) - IdleDelta(prev, curr)) as real
  {
  }

  /** The guard: an unmoved total gives 0 whatever the idle counters did. */
  lemma ZeroTotalDeltaIsZero(prev: CPUUsage, curr: CPUUsage)
    requires curr.Total == prev.Total
    ensures CPUPercentage(prev, curr) == 0.0
  {
  }

  /** All the new ticks idle: 0 %. */
  lemma AllIdleIsZero(prev: CPUUsage, curr: CPUUsage)
    requires TotalDelta(prev, curr) != 0
    requires IdleDelta(prev, curr) == TotalDelta(prev, curr)
    ensures CPUPercentage(prev, curr) == 0.0
  {
    BusyShare(prev, curr);
    var p, t := CPUPercentage(prev, curr), TotalDelta(prev, curr) as real;
    assert p * t == 0.0;
  }

  /** No new idle ticks: 100 %. */
  lemma NoIdleIsHundred(prev: CPUUsage, curr: CPUUsage)
    requires TotalDelta(prev, curr) != 0
    requires IdleDelta(prev, curr) == 0
    ensures CPUPercentage(prev, curr) == 100.0
  {
    BusyShare(prev, curr);
  }

  /** For a healthy host (0 <= idle delta <= total delta), the result is a percentage. */
  lemma HealthyDeltasInRange(prev: CPUUsage, curr: CPUUsage)
    requires TotalDelta(prev, curr) > 0
    requires 0 <= IdleDelta(prev, curr) <= TotalDelta(prev, curr)
    ensures 0.0 <= CPUPercentage(prev, curr) <= 100.0
  {
    BusyShare(prev, curr);
    var p := CPUPercentage(prev, curr);
    var t, i := TotalDelta(prev, curr) as real, IdleDelta(prev, curr) as real;
    assert p * t == 100.0 * (t - i);
  }

  lemma NonNegativeFactor(x: real, t: real)
    requires t > 0.0 && x * t >= 0.0
    ensures x >= 0.0
  {
  }

  /** More idle ticks over the same interval never mean a higher percentage. */
  lemma MoreIdleNotBusier(prev: CPUUsage, curr: CPUUsage, curr': CPUUsage)
    requires TotalDelta(prev, curr) > 0 && curr'.Total == curr.Total
    requires curr.Idle <= curr'.Idle
    ensures CPUPercentage(prev, curr') <= CPUPercentage(prev, curr)
  {
    BusyShare(prev, curr);
    BusyShare(prev, curr');
    var p, p' := CPUPercentage(prev, curr), CPUPercentage(prev, curr');
    var t := TotalDelta(prev, curr) as real;
    var i, i' := IdleDelta(prev, curr) as real, IdleDelta(prev, curr') as real;
    assert p * t == 100.0 * (t - i);
    assert p' * t == 100.0 * (t - i');
    assert (p - p') * t == 100.0 * (i' - i);
    NonNegativeFactor(p - p', t);
  }

  /**
   * The result is not clamped: idle running ahead of the total gives -100,
   * and a total that went backwards still goes through the formula (giving
   * 100 and 0 in the two cases stated).
   */
  lemma NotClamped()
    ensures CPUPercentage(CPUUsage(100, 0), CPUUsage(110, 20)) == -100.0
    ensures CPUPercentage(CPUUsage(100, 50), CPUUsage(90, 50)) == 100.0
    ensures CPUPercentage(CPUUsage(100, 50), CPUUsage(90, 40)) == 0.0
  {
  }

  /** `(1000, 800)` followed by `(1100, 880)`: 100 ticks, 80 idle, 20 % busy. */
  lemma TwentyPercentExample()
    ensures CPUPercentage(CPUUsage(1000, 800), CPUUsage(1100, 880)) == 20.0
  {
  }
}
