/**
 * stat/cpu_linux.go: the cgroup-aware CPU sampler.
 *
 * The package variables (preSystem, preTotal, limit, request, cores) become the
 * fields of `CpuSampler`, and `initOnce` becomes its `initialized` flag. Every
 * read of the cgroup or of /proc/stat is an input: a `Host` says what each read
 * returns at one moment, and `parseUint` (not part of this model) is a parameter.
 */
module CpuLinux {
  import opened Wrappers
  import opened MachineInts

  const CpuTicks: int := 100              // USER_HZ: clock ticks per second in /proc/stat
  const CpuFields: int := 8               // "cpu" plus the seven counters that are summed
  const DefaultCfsPeriodUs: int := 100000
  const NanosPerSecond: int := 1_000_000_000

  datatype Error =
    | ReadError(what: string)   // a failure of a cgroup or file read, passed through unchanged
    | BadCpuStatsFormat         // the aggregate "cpu" line has fewer than eight fields
    | BadStatsFormat            // /proc/stat has no aggregate "cpu" line
    | CpuLimitUnavailable       // no quota, or quota -1 (unlimited)

  /** One line of /proc/stat split on white space; the reader drops blank lines, so it is never empty. */
  type Fields = f: seq<string> | |f| > 0 witness ["cpu"]

  /** What each method of the current process's cgroup returns. */
  datatype Cgroup = Cgroup(
    cpus: Result<seq<U64>, Error>,
    shares: Result<I64, Error>,
    quotaUs: Result<I64, Error>,
    periodUs: Result<PositiveU64, Error>,
    usageAllCpus: Result<U64, Error>)

  /** The outside world at one moment: the current cgroup (or why it was not found) and the lines of /proc/stat. */
  datatype Host = Host(cgroup: Result<Cgroup, Error>, procStat: Result<seq<Fields>, Error>)

  /** Every cgroup read first looks up the current cgroup and fails with that lookup's error. */
  function ViaCurrentCgroup<T>(cg: Result<Cgroup, Error>, read: Cgroup -> Result<T, Error>): (r: Result<T, Error>)
    ensures cg.Failure? ==> r.Failure? && r.error == cg.error
    ensures cg.Success? ==> r == read(cg.value)
  {
    if cg.Failure? then Failure(cg.error) else read(cg.value)
  }

  function CpuSets(cg: Result<Cgroup, Error>): (r: Result<seq<U64>, Error>)
    ensures cg.Failure? ==> r == Failure(cg.error)
    ensures cg.Success? ==> r == cg.value.cpus
  {
    ViaCurrentCgroup(cg, (c: Cgroup) => c.cpus)
  }

  function CpuShares(cg: Result<Cgroup, Error>): (r: Result<I64, Error>)
    ensures cg.Failure? ==> r == Failure(cg.error)
    ensures cg.Success? ==> r == cg.value.shares
  {
    ViaCurrentCgroup(cg, (c: Cgroup) => c.shares)
  }

  function CpuQuota(cg: Result<Cgroup, Error>): (r: Result<I64, Error>)
    ensures cg.Failure? ==> r == Failure(cg.error)
    ensures cg.Success? ==> r == cg.value.quotaUs
  {
    ViaCurrentCgroup(cg, (c: Cgroup) => c.quotaUs)
  }

  function CpuPeriod(cg: Result<Cgroup, Error>): (r: Result<PositiveU64, Error>)
    ensures cg.Failure? ==> r == Failure(cg.error)
    ensures cg.Success? ==> r == cg.value.periodUs
  {
    ViaCurrentCgroup(cg, (c: Cgroup) => c.periodUs)
  }

  function TotalCpuUsage(cg: Result<Cgroup, Error>): (r: Result<U64, Error>)
    ensures cg.Failure? ==> r == Failure(cg.error)
    ensures cg.Success? ==> r == cg.value.usageAllCpus
  {
    ViaCurrentCgroup(cg, (c: Cgroup) => c.usageAllCpus)
  }

  /** The CPU limit in cores: a ratio and whether the computation reported an error. */
  datatype Limit = Limit(ratio: real, failed: bool)

  predicate QuotaUsable(cg: Result<Cgroup, Error>) {
    CpuQuota(cg).Success? && CpuQuota(cg).value != -1
  }

  /**
   * quota / period. No quota (or quota -1) gives -1 with an error; an unreadable
   * period falls back to the default period but still reports an error.
   */
  function CpuLimit(cg: Result<Cgroup, Error>): (l: Limit)
    ensures l.failed <==> !QuotaUsable(cg) || CpuPeriod(cg).Failure?
    ensures !QuotaUsable(cg) ==> l.ratio == -1.0
    ensures QuotaUsable(cg) && CpuPeriod(cg).Success? ==>
              l.ratio * CpuPeriod(cg).value as real == CpuQuota(cg).value as real
    ensures QuotaUsable(cg) && CpuPeriod(cg).Failure? ==>
              l.ratio * DefaultCfsPeriodUs as real == CpuQuota(cg).value as real
  {
    var cq := CpuQuota(cg);
    if cq.Success? && cq.value != -1 then
      var period := CpuPeriod(cg);
      if period.Failure? then Limit(cq.value as real / DefaultCfsPeriodUs as real, true)
      else Limit(cq.value as real / period.value as real, false)
    else
      Limit(-1.0, true)
  }

  /** The index of the first line whose first field is exactly "cpu" (per-core "cpuN" lines do not match). */
  function FirstCpuLine(lines: seq<Fields>): (r: Option<nat>)
    ensures r.Some? ==> r.value < |lines| && lines[r.value][0] == "cpu"
    ensures r.Some? ==> forall j :: 0 <= j < r.value ==> lines[j][0] != "cpu"
    ensures r.None? ==> forall j :: 0 <= j < |lines| ==> lines[j][0] != "cpu"
  {
    if lines == [] then None
    else if lines[0][0] == "cpu" then Some(0)
    else
      match FirstCpuLine(lines[1..])
      case None => None
      case Some(k) => Some(k + 1)
  }

  predicate AllParse(fields: seq<string>, parse: string -> Result<U64, Error>) {
    forall j :: 0 <= j < |fields| ==> parse(fields[j]).Success?
  }

  /** The exact sum of the parsed fields. */
  function ParsedSum(fields: seq<string>, parse: string -> Result<U64, Error>): nat
    requires AllParse(fields, parse)
  {
    if fields == [] then 0
    else ParsedSum(fields[..|fields| - 1], parse) + parse(fields[|fields| - 1]).value
  }

  /**
   * The clock-tick accumulation over the counter fields, left to right, in uint64:
   * the first unparseable field is the error, otherwise the wrapped sum.
   */
  function ClockTicks(fields: seq<string>, parse: string -> Result<U64, Error>): (r: Result<U64, Error>)
    ensures r.Success? <==> AllParse(fields, parse)
    ensures r.Success? ==> r.value == Wrap64(ParsedSum(fields, parse))
    ensures r.Failure? ==>
              exists j :: 0 <= j < |fields| && parse(fields[j]) == Failure(r.error) && AllParse(fields[..j], parse)
  {
    if fields == [] then Success(0)
    else
      var n := |fields| - 1;
      var init := fields[..n];
      match ClockTicks(init, parse)
      case Failure(e) =>
        FailureExtends(fields, init, parse, e);
        Failure(e)
      case Success(t) =>
        var v := parse(fields[n]);
        if v.Failure? then
          assert fields[..n] == init;
          Failure(v.error)
        else
          SuccessExtends(fields, parse, t);
          Success(Add64(t, v.value))
  }

  lemma FailureExtends(fields: seq<string>, init: seq<string>, parse: string -> Result<U64, Error>, e: Error)
    requires |fields| > 0 && init == fields[..|fields| - 1]
    requires exists j :: 0 <= j < |init| && parse(init[j]) == Failure(e) && AllParse(init[..j], parse)
    ensures exists j :: 0 <= j < |fields| && parse(fields[j]) == Failure(e) && AllParse(fields[..j], parse)
  {
    var j :| 0 <= j < |init| && parse(init[j]) == Failure(e) && AllParse(init[..j], parse);
    assert init[j] == fields[j];
    assert init[..j] == fields[..j];
  }

  lemma SuccessExtends(fields: seq<string>, parse: string -> Result<U64, Error>, t: U64)
    requires |fields| > 0
    requires AllParse(fields[..|fields| - 1], parse)
    requires t == Wrap64(ParsedSum(fields[..|fields| - 1], parse))
    requires parse(fields[|fields| - 1]).Success?
    ensures AllParse(fields, parse)
    ensures Add64(t, parse(fields[|fields| - 1]).value) == Wrap64(ParsedSum(fields, parse))
  {
    AllParseExtends(fields, parse);
    var v := parse(fields[|fields| - 1]).value;
    var before := ParsedSum(fields[..|fields| - 1], parse);
    var after := ParsedSum(fields, parse);
    assert after == before + v;
    WrapStep(t, before, v, after);
  }

  lemma AllParseExtends(fields: seq<string>, parse: string -> Result<U64, Error>)
    requires |fields| > 0
    requires AllParse(fields[..|fields| - 1], parse)
    requires parse(fields[|fields| - 1]).Success?
    ensures AllParse(fields, parse)
  {
    var n := |fields| - 1;
    var init := fields[..n];
    forall j | 0 <= j < |fields|
      ensures parse(fields[j]).Success?
    {
      if j < n {
        assert init[j] == fields[j];
      }
    }
  }

  /** What systemCpuUsage returns for a reading of /proc/stat. */
  function SystemCpuSpec(procStat: Result<seq<Fields>, Error>, parse: string -> Result<U64, Error>): (r: Result<U64, Error>)
    ensures procStat.Failure? ==> r == Failure(procStat.error)
    ensures procStat.Success? && FirstCpuLine(procStat.value).None? ==> r == Failure(BadStatsFormat)
    ensures (procStat.Success? && FirstCpuLine(procStat.value).Some? &&
             |procStat.value[FirstCpuLine(procStat.value).value]| < CpuFields)
            ==> r == Failure(BadCpuStatsFormat)
    ensures r.Success? ==>
              && procStat.Success? && FirstCpuLine(procStat.value).Some?
              && |procStat.value[FirstCpuLine(procStat.value).value]| >= CpuFields
              && r.value <= (TWO_TO_THE_64 - 1) / CpuTicks
  {
    if procStat.Failure? then Failure(procStat.error)
    else
      var lines := procStat.value;
      match FirstCpuLine(lines)
      case None => Failure(BadStatsFormat)
      case Some(i) =>
        if |lines[i]| < CpuFields then Failure(BadCpuStatsFormat)
        else
          match ClockTicks(lines[i][1..CpuFields], parse)
          case Failure(e) => Failure(e)
          case Success(ticks) => Success(Wrap64(ticks * NanosPerSecond) / CpuTicks)
  }

  /**
   * systemCpuUsage: the machine-wide CPU time in nanoseconds, from the first
   * aggregate "cpu" line of /proc/stat.
   */
  method SystemCpuUsage(procStat: Result<seq<Fields>, Error>, parse: string -> Result<U64, Error>)
    returns (r: Result<U64, Error>)
    ensures r == SystemCpuSpec(procStat, parse)
  {
    if procStat.Failure? {
      return Failure(procStat.error);
    }
    var lines := procStat.value;
    var k := 0;
    while k < |lines|
      invariant 0 <= k <= |lines|
      invariant forall j :: 0 <= j < k ==> lines[j][0] != "cpu"
    {
      var fields := lines[k];
      if fields[0] == "cpu" {
        assert FirstCpuLine(lines) == Some(k);
        if |fields| < CpuFields {
          return Failure(BadCpuStatsFormat);
        }
        var counters := fields[1..CpuFields];
        var totalClockTicks: U64 := 0;
        var i := 0;
        while i < |counters|
          invariant 0 <= i <= |counters|
          invariant ClockTicks(counters[..i], parse) == Success(totalClockTicks)
        {
          var v := parse(counters[i]);
          assert counters[..i + 1][..i] == counters[..i];
          if v.Failure? {
            PrefixFailureSticks(counters, i + 1, parse);
            return Failure(v.error);
          }
          totalClockTicks := Add64(totalClockTicks, v.value);
          i := i + 1;
        }
        assert counters[..i] == counters;
        return Success(Wrap64(totalClockTicks * NanosPerSecond) / CpuTicks);
      }
      k := k + 1;
    }
    return Failure(BadStatsFormat);
  }

  /** Once a prefix of the fields fails to parse, the whole accumulation fails with the same error. */
  lemma {:induction false} PrefixFailureSticks(fields: seq<string>, n: nat, parse: string -> Result<U64, Error>)
    requires n <= |fields|
    requires ClockTicks(fields[..n], parse).Failure?
    ensures ClockTicks(fields, parse) == ClockTicks(fields[..n], parse)
    decreases |fields| - n
  {
    if n < |fields| {
      var longer := fields[..n + 1];
      assert longer[..n] == fields[..n];
      PrefixFailureSticks(fields, n + 1, parse);
    } else {
      assert fields[..n] == fields;
    }
  }

  /**
   * Without uint64 wrap-around the result is the tick count of the seven summed
   * counters converted to nanoseconds: ticks * 10^9 / 100.
   */
  lemma SystemCpuExact(lines: seq<Fields>, parse: string -> Result<U64, Error>)
    requires FirstCpuLine(lines).Some?
    requires |lines[FirstCpuLine(lines).value]| >= CpuFields
    requires AllParse(lines[FirstCpuLine(lines).value][1..CpuFields], parse)
    requires ParsedSum(lines[FirstCpuLine(lines).value][1..CpuFields], parse) * NanosPerSecond < TWO_TO_THE_64
    ensures SystemCpuSpec(Success(lines), parse)
            == Success(ParsedSum(lines[FirstCpuLine(lines).value][1..CpuFields], parse) * 10_000_000)
  {
  }

  /** systemCpuUsage succeeds exactly when there is an aggregate line with eight fields whose counters all parse. */
  lemma SystemCpuSucceedsIff(lines: seq<Fields>, parse: string -> Result<U64, Error>)
    ensures SystemCpuSpec(Success(lines), parse).Success? <==>
              exists i :: 0 <= i < |lines| && lines[i][0] == "cpu" &&
                (forall j :: 0 <= j < i ==> lines[j][0] != "cpu") &&
                |lines[i]| >= CpuFields && AllParse(lines[i][1..CpuFields], parse)
  {
  }

  /** The sampler's package state: the once-flag, the entitlement and the previous readings. */
  datatype SamplerState = SamplerState(
    initialized: bool,
    cores: nat,
    request: int,
    limit: real,
    preSystem: U64,
    preTotal: U64)

  /** The zero values the package variables start with. */
  const Zero := SamplerState(false, 0, 0, 0.0, 0, 0)

  /**
   * What initialize leaves: each step runs only if every earlier read
   * succeeded, so the first failure leaves every later variable as it was.
   */
  function Initialized(s: SamplerState, host: Host, parse: string -> Result<U64, Error>): (t: SamplerState)
    ensures t.initialized == s.initialized
    ensures CpuSets(host.cgroup).Failure? ==> t == s
    ensures CpuSets(host.cgroup).Success? ==> t.cores == |CpuSets(host.cgroup).value|
  {
    var cg := host.cgroup;
    var cpus := CpuSets(cg);
    if cpus.Failure? then s
    else
      var s1 := s.(cores := |cpus.value|);
      var shares := CpuShares(cg);
      if shares.Failure? then s1
      else
        var s2 := s1.(request := GoDiv(shares.value, 1000));
        var lim := CpuLimit(cg);
        var s3 := s2.(limit := lim.ratio);
        if lim.failed then s3
        else
          var sys := SystemCpuSpec(host.procStat, parse);
          var s4 := s3.(preSystem := if sys.Success? then sys.value else 0);
          if sys.Failure? then s4
          else
            var tot := TotalCpuUsage(cg);
            s4.(preTotal := if tot.Success? then tot.value else 0)
  }

  /** The state once the sync.Once guard has run initialize (only on the first call). */
  function AfterOnce(s: SamplerState, initHost: Host, parse: string -> Result<U64, Error>): (t: SamplerState)
    ensures t.initialized
    ensures s.initialized ==> t == s
  {
    if s.initialized then s else Initialized(s, initHost, parse).(initialized := true)
  }

  /** The float64 quotient at the heart of RefreshCpu, with exact division. */
  datatype Quotient = Finite(value: real) | PosInfinity | NaN

  /**
   * The usage formula AS WRITTEN: cpuDelta*cores*100 in uint64, divided in
   * float64 by systemDelta*request. A request of 0 divides by zero.
   */
  function UsageQuotient(cpuDelta: U64, systemDelta: U64, cores: nat, request: int): (q: Quotient)
    requires cpuDelta > 0 && systemDelta > 0
    ensures q.Finite? <==> request != 0
    ensures q.Finite? ==> q.value * (systemDelta * request) as real == Wrap64(cpuDelta * cores * 100) as real
  {
    var n := Wrap64(cpuDelta * cores * 100) as real;
    var d := (systemDelta * request) as real;
    if d != 0.0 then Finite(n / d) else if n == 0.0 then NaN else PosInfinity
  }

  /**
   * A pod that requests half a core has 512 shares, so request = 512/1000 = 0,
   * and the first sample with CPU activity divides by zero.
   */
  lemma HalfCoreRequestDividesByZero()
    ensures GoDiv(512, 1000) == 0
    ensures UsageQuotient(25_000_000, 1_000_000_000, 4, GoDiv(512, 1000)) == PosInfinity
  {
  }

  /** A failed resolution (cores and request both 0) makes the quotient 0/0. */
  lemma UnresolvedEntitlementQuotientIsNaN(cpuDelta: U64, systemDelta: U64)
    requires cpuDelta > 0 && systemDelta > 0
    ensures UsageQuotient(cpuDelta, systemDelta, 0, 0) == NaN
  {
  }

  /**
   * The usage percentage, CORRECTED to fail open: a request that is not
   * positive gives 0 instead of a division by zero; otherwise the quotient
   * truncated to an integer.
   */
  function SampleUsage(cpuDelta: U64, systemDelta: U64, cores: nat, request: int): (usage: U64)
    requires cpuDelta > 0 && systemDelta > 0
    ensures request <= 0 ==> usage == 0
    ensures usage <= Wrap64(cpuDelta * cores * 100)
  {
    if request <= 0 then 0
    else
      var n := Wrap64(cpuDelta * cores * 100);
      var d := systemDelta * request;
      assert d >= 1 by { MulPositive(systemDelta, request); }
      DivBound(n, d);
      n / d
  }

  /** Isolates the nonlinear fact from the larger contexts that use it. */
  lemma MulPositive(a: int, b: int)
    requires a > 0 && b > 0
    ensures a * b >= 1
  {
  }

  /** Isolates the nonlinear fact from the larger contexts that use it. */
  lemma DivBound(n: nat, d: int)
    requires d >= 1
    ensures n / d <= n
  {
  }

  /** Where the source's quotient is finite and not negative, the corrected usage is that quotient truncated. */
  lemma SampleUsageIsTruncatedQuotient(cpuDelta: U64, systemDelta: U64, cores: nat, request: int)
    requires cpuDelta > 0 && systemDelta > 0 && request > 0
    ensures UsageQuotient(cpuDelta, systemDelta, cores, request).Finite?
    ensures SampleUsage(cpuDelta, systemDelta, cores, request)
            == UsageQuotient(cpuDelta, systemDelta, cores, request).value.Floor
  {
    var n := Wrap64(cpuDelta * cores * 100);
    var d := systemDelta * request;
    MulPositive(systemDelta, request);
    var u := n / d;
    assert u * d <= n < u * d + d;
    var q := n as real / d as real;
    assert q * d as real == n as real;
    assert u as real * d as real <= q * d as real;
    assert q * d as real < (u + 1) as real * d as real;
    assert u as real <= q < (u + 1) as real;
  }

  /** One RefreshCpu call: the new state and the returned usage percentage. */
  datatype Sample = Sample(state: SamplerState, usage: U64)

  /**
   * RefreshCpu: run the one-time initialisation, read both counters, and return
   * the usage over the interval since the previous successful reading.
   */
  function Refresh(s: SamplerState, initHost: Host, host: Host, parse: string -> Result<U64, Error>): (out: Sample)
    ensures out.state.initialized
    ensures var m := AfterOnce(s, initHost, parse);
      out.state.cores == m.cores && out.state.request == m.request && out.state.limit == m.limit
    ensures TotalCpuUsage(host.cgroup).Failure? || SystemCpuSpec(host.procStat, parse).Failure? ==>
              out.usage == 0 && out.state == AfterOnce(s, initHost, parse)
    ensures TotalCpuUsage(host.cgroup).Success? && SystemCpuSpec(host.procStat, parse).Success? ==>
              out.state.preTotal == TotalCpuUsage(host.cgroup).value &&
              out.state.preSystem == SystemCpuSpec(host.procStat, parse).value
    ensures out.usage != 0 ==>
              var m := AfterOnce(s, initHost, parse);
              && TotalCpuUsage(host.cgroup).Success?
              && SystemCpuSpec(host.procStat, parse).Success?
              && Sub64(TotalCpuUsage(host.cgroup).value, m.preTotal) > 0
              && Sub64(SystemCpuSpec(host.procStat, parse).value, m.preSystem) > 0
              && m.request > 0
  {
    var m := AfterOnce(s, initHost, parse);
    var total := TotalCpuUsage(host.cgroup);
    if total.Failure? then Sample(m, 0)
    else
      var system := SystemCpuSpec(host.procStat, parse);
      if system.Failure? then Sample(m, 0)
      else
        var cpuDelta := Sub64(total.value, m.preTotal);
        var systemDelta := Sub64(system.value, m.preSystem);
        var usage := if cpuDelta > 0 && systemDelta > 0 then SampleUsage(cpuDelta, systemDelta, m.cores, m.request) else 0;
        Sample(m.(preSystem := system.value, preTotal := total.value), usage)
  }

  /**
   * The usage formula on the uint64 deltas, on every call (the first one runs
   * initialize first): with both deltas positive and a positive request,
   * usage = floor(cpuDelta*cores*100 / (systemDelta*request)).
   */
  lemma RefreshUsageFormula(s: SamplerState, initHost: Host, host: Host, parse: string -> Result<U64, Error>)
    requires TotalCpuUsage(host.cgroup).Success? && SystemCpuSpec(host.procStat, parse).Success?
    ensures var m := AfterOnce(s, initHost, parse);
            var cpuDelta := Sub64(TotalCpuUsage(host.cgroup).value, m.preTotal);
            var systemDelta := Sub64(SystemCpuSpec(host.procStat, parse).value, m.preSystem);
            cpuDelta > 0 && systemDelta > 0 && m.request > 0 ==>
              Refresh(s, initHost, host, parse).usage
                == UsageQuotient(cpuDelta, systemDelta, m.cores, m.request).value.Floor
  {
    var m := AfterOnce(s, initHost, parse);
    var cpuDelta := Sub64(TotalCpuUsage(host.cgroup).value, m.preTotal);
    var systemDelta := Sub64(SystemCpuSpec(host.procStat, parse).value, m.preSystem);
    if cpuDelta > 0 && systemDelta > 0 && m.request > 0 {
      SampleUsageIsTruncatedQuotient(cpuDelta, systemDelta, m.cores, m.request);
    }
  }

  /**
   * A cgroup counter that went backwards (a reset) is not a zero delta: the
   * sample is taken over the wrapped delta total + 2^64 - preTotal, and the
   * smaller reading becomes the new baseline.
   */
  lemma CounterResetWraps(s: SamplerState, initHost: Host, host: Host, parse: string -> Result<U64, Error>)
    requires TotalCpuUsage(host.cgroup).Success? && SystemCpuSpec(host.procStat, parse).Success?
    requires TotalCpuUsage(host.cgroup).value < AfterOnce(s, initHost, parse).preTotal
    ensures var m := AfterOnce(s, initHost, parse);
            var total := TotalCpuUsage(host.cgroup).value;
            var wrapped := total + TWO_TO_THE_64 - m.preTotal;
            var systemDelta := Sub64(SystemCpuSpec(host.procStat, parse).value, m.preSystem);
            var out := Refresh(s, initHost, host, parse);
            && out.state.preTotal == total < m.preTotal
            && wrapped > 0
            && (systemDelta > 0 && m.request > 0 ==>
                  out.usage == UsageQuotient(wrapped, systemDelta, m.cores, m.request).value.Floor)
  {
    var m := AfterOnce(s, initHost, parse);
    var total := TotalCpuUsage(host.cgroup).value;
    assert Sub64(total, m.preTotal) == total + TWO_TO_THE_64 - m.preTotal;
    RefreshUsageFormula(s, initHost, host, parse);
  }

  /** Once resolution has left the request at 0, the sampler fails open: every sample is 0. */
  lemma ZeroRequestSamplesZero(s: SamplerState, initHost: Host, host: Host, parse: string -> Result<U64, Error>)
    requires s.initialized && s.request <= 0
    ensures Refresh(s, initHost, host, parse).usage == 0
    ensures Refresh(s, initHost, host, parse).state.request == s.request
  {
  }

  /** If the core set cannot be read, initialisation stops at once and the sampler reports 0 forever after. */
  lemma FailedResolutionNeverSheds(initHost: Host, host: Host, parse: string -> Result<U64, Error>)
    requires CpuSets(initHost.cgroup).Failure?
    ensures Refresh(Zero, initHost, host, parse).usage == 0
    ensures Refresh(Zero, initHost, host, parse).state.request == 0
  {
  }

  /**
   * request is the cgroup's shares divided by 1000 (truncating), so any share
   * count below 1000 gives a request of 0.
   */
  lemma RequestFromShares(s: SamplerState, host: Host, parse: string -> Result<U64, Error>)
    requires CpuSets(host.cgroup).Success? && CpuShares(host.cgroup).Success?
    ensures var shares := CpuShares(host.cgroup).value;
            var t := Initialized(s, host, parse);
            (0 <= shares ==> 1000 * t.request <= shares < 1000 * t.request + 1000) &&
            (0 <= shares < 1000 ==> t.request == 0)
  {
  }

  /** initialize stops at the first failed read and leaves every later variable at its zero value. */
  lemma InitializeStopsAtFirstFailure(host: Host, parse: string -> Result<U64, Error>)
    ensures var t := Initialized(Zero, host, parse);
      && (CpuSets(host.cgroup).Failure? ==> t == Zero)
      && (CpuShares(host.cgroup).Failure? ==> t.request == 0 && t.limit == 0.0 && t.preSystem == 0 && t.preTotal == 0)
      && (CpuLimit(host.cgroup).failed ==> t.preSystem == 0 && t.preTotal == 0)
      && (SystemCpuSpec(host.procStat, parse).Failure? ==> t.preTotal == 0)
  {
  }

  /** The package state of stat/cpu_linux.go. */
  class CpuSampler {
    const parseUint: string -> Result<U64, Error>
    var initialized: bool
    var cores: nat
    var request: int
    var limit: real
    var preSystem: U64
    var preTotal: U64

    function State(): SamplerState
      reads this
    {
      SamplerState(initialized, cores, request, limit, preSystem, preTotal)
    }

    constructor (parseUint: string -> Result<U64, Error>)
      ensures State() == Zero && this.parseUint == parseUint
    {
      this.parseUint := parseUint;
      initialized, cores, request, limit, preSystem, preTotal := false, 0, 0, 0.0, 0, 0;
    }

    /** initialize: resolve the entitlement and take the first readings, stopping at the first failure. */
    method Initialize(host: Host)
      modifies this
      ensures State() == Initialized(old(State()), host, parseUint)
    {
      var cpus := CpuSets(host.cgroup);
      if cpus.Failure? {
        return;
      }
      cores := |cpus.value|;

      var shares := CpuShares(host.cgroup);
      if shares.Failure? {
        return;
      }
      request := GoDiv(shares.value, 1000);

      var lim := CpuLimit(host.cgroup);
      limit := lim.ratio;
      if lim.failed {
        return;
      }

      var system := SystemCpuUsage(host.procStat, parseUint);
      preSystem := if system.Success? then system.value else 0;
      if system.Failure? {
        return;
      }

      var total := TotalCpuUsage(host.cgroup);
      preTotal := if total.Success? then total.value else 0;
    }

    /** RefreshCpu: the delta-based usage percentage since the previous successful reading. */
    method RefreshCpu(initHost: Host, host: Host) returns (usage: U64)
      modifies this
      ensures Sample(State(), usage) == Refresh(old(State()), initHost, host, parseUint)
    {
      if !initialized {
        Initialize(initHost);
        initialized := true;
      }

      var total := TotalCpuUsage(host.cgroup);
      if total.Failure? {
        return 0;
      }
      var system := SystemCpuUsage(host.procStat, parseUint);
      if system.Failure? {
        return 0;
      }

      usage := 0;
      var cpuDelta := Sub64(total.value, preTotal);
      var systemDelta := Sub64(system.value, preSystem);
      if cpuDelta > 0 && systemDelta > 0 {
        usage := SampleUsage(cpuDelta, systemDelta, cores, request);
      }
      preSystem := system.value;
      preTotal := total.value;
    }
  }
}
