/**
 * stat/usage.go: exponential smoothing of the sampled CPU usage into the one
 * shared usage cell, and publication of that cell as a gauge.
 *
 * The package variable cpuUsage is the field `UsageStat.cpuUsage`; the two
 * ticker branches of `run` are the methods `CpuTick` and `PublishUsage`.
 */
module Usage {
  import opened MachineInts
  import opened Metrics
  import CpuLinux

  /** The moving-average weight of the previous value. */
  const Beta: real := 0.95

  function Min(a: int, b: int): int { if a <= b then a else b }
  function Max(a: int, b: int): int { if a <= b then b else a }

  /** Go's float64 to int64 conversion, which truncates toward zero. */
  function Trunc(x: real): (n: int)
    ensures 0.0 <= x ==> 0 <= n && n as real <= x < n as real + 1.0
    ensures x < 0.0 ==> n <= 0 && n as real - 1.0 < x <= n as real
  {
    if x >= 0.0 then x.Floor else -((-x).Floor)
  }

  /**
   * One smoothing step, prev*beta + cur*(1-beta) truncated: the new value
   * never leaves the interval between the previous value and the sample.
   */
  function Smooth(prev: int, cur: int): (next: int)
    ensures Min(prev, cur) <= next <= Max(prev, cur)
  {
    var exact := prev as real * Beta + cur as real * (1.0 - Beta);
    assert Min(prev, cur) as real <= exact <= Max(prev, cur) as real;
    Trunc(exact)
  }

  /** The stored usage after folding in `samples` one by one, starting from 0. */
  function Smoothed(samples: seq<int>): (cell: int)
    ensures samples == [] ==> cell == 0
    ensures samples != [] ==>
              var prev := Smoothed(samples[..|samples| - 1]);
              var cur := samples[|samples| - 1];
              Min(prev, cur) <= cell <= Max(prev, cur)
  {
    if samples == [] then 0
    else Smooth(Smoothed(samples[..|samples| - 1]), samples[|samples| - 1])
  }

  /** If every sample lies in [0, m], so does the stored usage: smoothing never overshoots. */
  lemma {:induction false} SmoothedBounded(samples: seq<int>, m: int)
    requires 0 <= m
    requires forall i :: 0 <= i < |samples| ==> 0 <= samples[i] <= m
    ensures 0 <= Smoothed(samples) <= m
  {
    if samples != [] {
      var init := samples[..|samples| - 1];
      assert forall i :: 0 <= i < |init| ==> init[i] == samples[i];
      SmoothedBounded(init, m);
    }
  }

  /** With only zero samples the stored usage stays 0 forever: the never-shed default. */
  lemma AllZeroStaysZero(samples: seq<int>)
    requires forall i :: 0 <= i < |samples| ==> samples[i] == 0
    ensures Smoothed(samples) == 0
  {
    SmoothedBounded(samples, 0);
  }

  /** The value publishUsage reports: the stored usage clamped to be at least 0. */
  function Clamp(usage: int): (published: int)
    ensures published >= 0
    ensures usage >= 0 ==> published == usage
    ensures usage < 0 ==> published == 0
  {
    if usage < 0 then 0 else usage
  }

  class UsageStat {
    /** The single shared usage cell. */
    var cpuUsage: int
    /** Whether a gauge vector was supplied (u.metrics != nil). */
    const hasGauge: bool
    /** What has been sent to the gauge, in order. */
    var published: seq<Observation>
    /** Every raw sample folded in so far. */
    ghost var samples: seq<int>

    /** The cell always holds the smoothing of the samples seen so far. */
    ghost predicate Valid()
      reads this
    {
      cpuUsage == Smoothed(samples)
    }

    constructor (hasGauge: bool)
      ensures Valid() && this.hasGauge == hasGauge
      ensures cpuUsage == 0 && samples == [] && published == []
    {
      this.hasGauge := hasGauge;
      cpuUsage := 0;
      published := [];
      samples := [];
    }

    /** Fold one raw sample into the cell (the body of the fast tick once the sample is taken). */
    method Fold(curUsage: U64)
      requires Valid()
      modifies this
      ensures Valid()
      ensures cpuUsage == Smooth(old(cpuUsage), curUsage)
      ensures samples == old(samples) + [curUsage]
      ensures published == old(published)
    {
      var prevUsage := cpuUsage;
      var usage := Smooth(prevUsage, curUsage);
      cpuUsage := usage;
      samples := samples + [curUsage];
      assert samples[..|samples| - 1] == old(samples);
    }

    /** The fast tick: take a CPU sample, then fold it in. */
    method CpuTick(sampler: CpuLinux.CpuSampler, initHost: CpuLinux.Host, host: CpuLinux.Host)
      requires Valid()
      modifies this, sampler
      ensures Valid()
      ensures var out := CpuLinux.Refresh(old(sampler.State()), initHost, host, sampler.parseUint);
              && sampler.State() == out.state
              && cpuUsage == Smooth(old(cpuUsage), out.usage)
              && samples == old(samples) + [out.usage as int]
      ensures published == old(published)
    {
      var curUsage := sampler.RefreshCpu(initHost, host);
      Fold(curUsage);
    }

    /** CpuUsage, the method and the package function alike: read the cell. */
    method CpuUsage() returns (usage: int)
      ensures usage == cpuUsage
    {
      usage := cpuUsage;
    }

    /** The slow tick: report the clamped usage to the gauge, if there is one. */
    method PublishUsage()
      modifies this`published
      ensures published == old(published) + (if hasGauge then [GaugeSet("usage", Clamp(cpuUsage))] else [])
    {
      var usage := CpuUsage();
      if usage < 0 {
        usage := 0;
      }
      if hasGauge {
        published := published + [GaugeSet("usage", usage)];
      }
    }
  }
}
