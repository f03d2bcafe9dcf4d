# loadshedder in Dafny

This is a model of the decision core of `loadshedder`, an adaptive load shedder for gin HTTP servers.
A background sampler reads the process's cgroup CPU counters and `/proc/stat` every 250 ms.
It turns the two deltas into a usage percentage of the cgroup's CPU request, and smooths the percentage into one shared cell.
Once a second the cell is published as a gauge.
The gin middleware compares the cell against a threshold for every request except the health probe.
It aborts the request with 503 when the usage is strictly above the threshold.
It counts total, passed and dropped requests, and a minute ticker drains the counters into a Prometheus counter vector.

The modules follow the Go files:

- `lang.dfy` (`Lang`) models `utils/lang.go`: the generic `Contains` search.
- `cpu_linux.dfy` (`CpuLinux`) models `stat/cpu_linux.go`: the cgroup reads, `cpuLimit`, the `/proc/stat` parser `systemCpuUsage`, `initialize`, and `RefreshCpu`. The package variables are the fields of the class `CpuSampler`, and `sync.Once` is its `initialized` flag.
- `usage.dfy` (`Usage`) models `stat/usage.go`: the exponential smoothing tick, `CpuUsage`, and `publishUsage`. The shared `cpuUsage` variable is the field of the class `UsageStat`.
- `shedding_stat.dfy` (`SheddingStats`) models `sheddingstat.go`: the three counters, the increments, `reset`, one iteration of `loop`, and `loop` over a sequence of ticks with the requests served between them.
- `shedder.dfy` (`Shedder`) models `shedder.go`: `allow` and the handler built by `GinUnarySheddingInterceptor`.
- `machine_ints.dfy` (`MachineInts`) holds Go's uint64 wrap-around and truncating division.
- `metrics.dfy` (`Metrics`) holds the observations sent to a Prometheus vector.
- `wrappers.dfy` (`Wrappers`) holds `Option` and `Result`.

Every read of the outside world is an input rather than an effect.
A `CpuLinux.Host` value says what the cgroup lookup, each cgroup method and `/proc/stat` return at one moment.
The `/proc/stat` lines arrive already split into fields.
`parseUint` is a function given to the sampler when it is built.
Metric sinks are sequences of `Metrics.Observation` that the methods append to, guarded by whether a vector was supplied.
A gin context is reduced to the request URI and the outcome it is left with (`Shedder.Outcome`).

## Model

| member | source | states |
|---|---|---|
| Lang.Contains | utils/lang.go:3-10 | The result is true exactly when some element of the slice equals the value. |
| Lang.ContainsEmpty | utils/lang.go:4-9 | An empty slice never contains anything. |
| Lang.ContainsSingleton | utils/lang.go:3-10 | A one-element slice `[p]`, the only form the gate uses, contains `val` iff `p == val`. |
| Lang.ContainsAppend | utils/lang.go:5-7 | Appending elements to a slice that contains the value keeps the result true. |
| MachineInts.Sub64 | stat/cpu_linux.go:83-84 | uint64 subtraction: the exact difference when no wrap occurs, otherwise the difference plus 2^64, which is positive. |
| MachineInts.Add64 | stat/cpu_linux.go:165 | uint64 addition: the exact sum below 2^64, otherwise the sum minus 2^64. |
| MachineInts.GoDiv | stat/cpu_linux.go:45 | Go's integer division truncates toward zero: `|q * b| <= |a|` with the sign of `a`, and the remainder is smaller than the divisor. |
| CpuLinux.ViaCurrentCgroup | stat/cpu_linux.go:94-101 | Every cgroup read first looks up the current cgroup: a failed lookup is that read's error, otherwise the read's own result is returned. |
| CpuLinux.CpuSets | stat/cpu_linux.go:136-143 | A failed cgroup lookup is the error, otherwise the cgroup's CPU set read is returned as is. |
| CpuLinux.CpuShares | stat/cpu_linux.go:94-101 | A failed cgroup lookup is the error, otherwise the cgroup's shares read is returned as is. |
| CpuLinux.CpuQuota | stat/cpu_linux.go:118-125 | A failed cgroup lookup is the error, otherwise the cgroup's quota read is returned as is. |
| CpuLinux.CpuPeriod | stat/cpu_linux.go:127-134 | A failed cgroup lookup is the error, otherwise the cgroup's period read is returned as is. |
| CpuLinux.TotalCpuUsage | stat/cpu_linux.go:175-182 | A failed cgroup lookup is the error, otherwise the cgroup's cumulative CPU usage read is returned as is. |
| CpuLinux.CpuLimit | stat/cpu_linux.go:103-116 | Error iff the quota read fails, the quota is -1, or the period read fails. Without a usable quota the ratio is -1. With one, ratio * period == quota, using the default period of 100000 when the period read fails. |
| CpuLinux.FirstCpuLine | stat/cpu_linux.go:151-153 | Finds the first line whose first field is exactly "cpu". Earlier lines (including per-core "cpuN" lines) do not match, and None means no line matches. |
| CpuLinux.ClockTicks | stat/cpu_linux.go:158-166 | Succeeds iff every counter field parses. Its value is the exact sum of the fields wrapped to uint64. On failure, the error is the first unparseable field's error. |
| CpuLinux.SystemCpuSpec | stat/cpu_linux.go:145-173 | The result of systemCpuUsage: a failed read of /proc/stat is passed through, no aggregate "cpu" line gives "bad stats format", and an aggregate line with fewer than 8 fields gives "bad format of cpu stats". A success needs an aggregate line of at least 8 fields and is at most (2^64 - 1) / 100. |
| CpuLinux.SystemCpuUsage | stat/cpu_linux.go:145-173 | The two nested loops return exactly the specification `SystemCpuSpec`: the read error, then "bad stats format" without an aggregate line, then "bad format of cpu stats" below 8 fields, then a parse error, and otherwise the ticks times 10^9 / 100 in uint64. |
| CpuLinux.PrefixFailureSticks | stat/cpu_linux.go:160-163 | Once a prefix of the counters fails to parse, the whole accumulation fails with that same error, which is why the loop may return early. |
| CpuLinux.SystemCpuExact | stat/cpu_linux.go:168 | Without overflow, the result is the sum of fields 1..7 times 10^9 / 100, i.e. times 10^7. |
| CpuLinux.SystemCpuSucceedsIff | stat/cpu_linux.go:151-172 | The parser succeeds iff the first aggregate "cpu" line exists, has at least 8 fields, and all its seven counters parse. |
| CpuLinux.Initialized | stat/cpu_linux.go:30-66 | initialize never touches the once-flag. A failed core-set read changes nothing, and otherwise `cores` is the number of CPUs read. |
| CpuLinux.InitializeStopsAtFirstFailure | stat/cpu_linux.go:30-66 | Starting from the zero values, each failed step leaves every later variable at zero: no cores, request, limit, preSystem or preTotal after the failure. |
| CpuLinux.RequestFromShares | stat/cpu_linux.go:40-45 | request is shares / 1000 truncated, so any share count below 1000 gives request 0. |
| CpuLinux.AfterOnce | stat/cpu_linux.go:70 | After the once-guard the sampler is initialised, and a second call leaves the state as it was. |
| CpuLinux.UsageQuotient | stat/cpu_linux.go:86 | The float64 quotient as written: it is finite iff request != 0, and then quotient * (systemDelta * request) equals the uint64 product cpuDelta * cores * 100. |
| CpuLinux.HalfCoreRequestDividesByZero | stat/cpu_linux.go:45 | 512 shares give request 0, and a sample with CPU activity then computes +Inf. |
| CpuLinux.UnresolvedEntitlementQuotientIsNaN | stat/cpu_linux.go:86 | With cores and request both left at 0, the quotient is 0/0 (NaN). |
| CpuLinux.SampleUsage | stat/cpu_linux.go:86 | Corrected usage: 0 when request is not positive, otherwise a value bounded by the uint64 numerator. |
| CpuLinux.SampleUsageIsTruncatedQuotient | stat/cpu_linux.go:86 | With a positive request, the corrected usage equals the source's finite quotient truncated to an integer. |
| CpuLinux.Refresh | stat/cpu_linux.go:69-92 | After one RefreshCpu the sampler is initialised and the entitlement is unchanged. A failed counter read returns 0 and leaves the readings as they were. Two successful reads always advance both readings. A nonzero usage implies two positive uint64 deltas and a positive request. |
| CpuLinux.RefreshUsageFormula | stat/cpu_linux.go:70-87 | On every call, the first included (after the once-guard has run initialize): with both uint64 deltas positive, wrapped or not, and request > 0, usage = floor(cpuDelta * cores * 100 / (systemDelta * request)). |
| CpuLinux.CounterResetWraps | stat/cpu_linux.go:82-89 | After a cgroup counter reset (the new total is below preTotal), the smaller reading becomes the new preTotal. The sample is taken over the wrapped delta total + 2^64 - preTotal, which is positive, so with a positive system delta and request the usage is the floor formula applied to that wrapped delta (which can still be 0, e.g. with no cores). |
| CpuLinux.ZeroRequestSamplesZero | stat/cpu_linux.go:82-87 | Corrected behaviour (see Findings): once request is 0 every sample is 0, and request stays 0. As written, the source divides by zero here instead. |
| CpuLinux.FailedResolutionNeverSheds | stat/cpu_linux.go:30-35 | When the core set cannot be read at start-up, request stays 0. Under the correction (see Findings) the first sample is then 0; as written, the source computes 0/0 there instead. |
| CpuLinux.CpuSampler.constructor | stat/cpu_linux.go:20-27 | The package variables start at their zero values and the once-flag is clear. |
| CpuLinux.CpuSampler.Initialize | stat/cpu_linux.go:30-66 | The step-by-step assignments leave exactly the state `Initialized` describes. |
| CpuLinux.CpuSampler.RefreshCpu | stat/cpu_linux.go:69-92 | The returned usage and the new fields are exactly `Refresh` of the old fields. |
| Usage.Trunc | stat/usage.go:48 | The float-to-int64 conversion truncates toward zero: the result is within 1 of the value, on the zero side. |
| Usage.Smooth | stat/usage.go:48 | One smoothing step, trunc(prev * 0.95 + cur * 0.05), lies between min(prev, cur) and max(prev, cur). |
| Usage.Smoothed | stat/usage.go:46-49 | The cell after a sequence of ticks: 0 with no samples (the zero value of cpuUsage), otherwise between the previous cell and the last sample. |
| Usage.SmoothedBounded | stat/usage.go:46-49 | If every sample lies in [0, M], so does the stored usage after any number of ticks. |
| Usage.AllZeroStaysZero | stat/usage.go:19-49 | Starting from the zero value, all-zero samples keep the stored usage at 0 forever. |
| Usage.Clamp | stat/usage.go:63-66 | The published value is max(usage, 0). |
| Usage.UsageStat.constructor | stat/usage.go:19 | The cell starts at 0 and nothing has been published. |
| Usage.UsageStat.Fold | stat/usage.go:46-49 | The cell becomes Smooth(previous, sample) and keeps the invariant that it is the smoothing of all samples so far. |
| Usage.UsageStat.CpuTick | stat/usage.go:44-50 | One fast tick advances the sampler exactly as `Refresh` does, folds the returned sample into the cell, and records it as the latest sample. |
| Usage.UsageStat.CpuUsage | stat/usage.go:58-60 | The method and the package function `CpuUsage` at stat/usage.go:73-75 both return the stored value and change nothing. |
| Usage.UsageStat.PublishUsage | stat/usage.go:62-70 | Sets the "usage" gauge to the clamped value when a gauge was supplied, and does nothing else (the cell is untouched). |
| SheddingStats.Forwarded | sheddingstat.go:60-64 | With a sink, a drain forwards exactly two observations: first Total labelled "total", then Drop labelled "dropped". Pass is never forwarded, and nothing is forwarded without a sink. |
| SheddingStats.SheddingStat.constructor | sheddingstat.go:33-37 | A new SheddingStat has total = pass = drop = 0. |
| SheddingStats.SheddingStat.IncrementTotal | sheddingstat.go:44-46 | Adds exactly 1 to total, leaves pass and drop alone, and keeps conservation. |
| SheddingStats.SheddingStat.IncrementPass | sheddingstat.go:49-51 | Adds exactly 1 to pass, leaves total and drop alone, and keeps conservation. |
| SheddingStats.SheddingStat.IncrementDrop | sheddingstat.go:54-56 | Adds exactly 1 to drop, leaves total and pass alone, and keeps conservation. |
| SheddingStats.SheddingStat.Reset | sheddingstat.go:68-74 | Returns the prior values of all three counters and leaves them at 0. Each issued increment is then either in a drained snapshot or still pending. |
| SheddingStats.SheddingStat.Tick | sheddingstat.go:59-64 | One loop iteration drains the counters and appends exactly `Forwarded` of the drained snapshot to the sink. |
| SheddingStats.SumAllFront | sheddingstat.go:44-56 | The field-wise sum of increment counts taken from the back equals the first count plus the sum of the rest. This is what splits the first tick from the later ones. |
| SheddingStats.ForwardedAll | sheddingstat.go:59-64 | What a run of drains forwards: two "total"/"dropped" counter adds per drain with a sink, none without. |
| SheddingStats.Serve | sheddingstat.go:44-56 | Serving `a.total`, `a.pass` and `a.drop` increments adds exactly `a` to the counters and to the issued increments, keeping conservation. |
| SheddingStats.Round | sheddingstat.go:58-66 | Serving `a` then ticking forwards the pending counts plus `a`, and leaves the counters at 0. |
| SheddingStats.Rounds | sheddingstat.go:58-66 | Ticks that each start with nothing pending: the sink receives exactly `ForwardedAll` of the requests served between them, the issued increments grow by their sum, and nothing stays pending. |
| SheddingStats.Loop | sheddingstat.go:58-66 | With `arrivals[i]` served before tick i: conservation holds, and the issued increments grow by the sum of all arrivals, all of it drained. The first tick forwards the counts held on entry plus `arrivals[0]`, and each later tick forwards exactly what arrived since the previous tick. With no ticks nothing changes. |
| SheddingStats.DrainTwice | sheddingstat.go:68-74 | Two consecutive resets: the first returns the counts and the second returns {0, 0, 0}. |
| Shedder.MustDrop | shedder.go:10-16 | `allow` answers true (drop) iff the stored usage is strictly above the threshold. |
| Shedder.NewGate | shedder.go:19-23 | An enabled gate keeps the threshold and has a non-empty probe path: "/health" when none was given, otherwise the given one. A disabled setting gives the no-op handler. |
| Shedder.IsProbe | shedder.go:25 | A request is exempt iff its whole RequestURI (query string included) equals the probe path. |
| Shedder.Decide | shedder.go:23-43 | Skip iff the gate is disabled or the URI is the probe path. Drop iff the gate is enabled, the URI is not the probe and usage > threshold. Pass iff the gate is enabled, the URI is not the probe and usage <= threshold. |
| Shedder.AtThresholdPasses | shedder.go:11 | Usage exactly equal to the threshold is admitted. |
| Shedder.Account | shedder.go:28-36 | A skipped request changes no counter. Any other request increments total once and exactly one of pass and drop, with drop iff the decision was Drop, which keeps total - pass - drop unchanged. |
| Shedder.Handle | shedder.go:24-42 | The handler's counter updates are exactly `Account` of `Decide`, conservation is kept, and the request is aborted with 503 iff it was dropped. |
| Shedder.Served | shedder.go:28-36 | The counters after a sequence of requests: total - pass - drop is unchanged, total grows by at most one per request, and pass and drop never decrease. |
| Shedder.Admitted | shedder.go:25-28 | The number of requests counted: none with a disabled gate, and every request when none is the probe path. |
| Shedder.Shed | shedder.go:29-33 | The number of requests aborted is at most the number counted, and it is 0 when no request arrives with usage above the threshold. |
| Shedder.ServedKeepsBalance | shedder.go:28-36 | Starting from total == pass + drop, serving any sequence of requests keeps total == pass + drop. |
| Shedder.ServedCounts | shedder.go:28-36 | Over any sequence of requests, total grows by the number of non-probe requests served by an enabled gate, and drop by the number of those that arrived with usage above the threshold. |
| Shedder.DisabledCountsNothing | shedder.go:39-42 | A disabled gate never changes the counters. |

## Left out

- Tickers, goroutines and `select`: `Usage.run` and `SheddingStat.run` are not modelled. Their tick bodies are the methods `Usage.UsageStat.CpuTick`, `Usage.UsageStat.PublishUsage` and `SheddingStats.SheddingStat.Tick`, and the interleaving of the ticks is left to the caller.
- Atomic operations are sequential field updates. Nothing is claimed about concurrent increments racing a drain.
- `sync.Once` is the `initialized` flag, and initialisation reads its own `Host` snapshot (`initHost`).
- File and cgroup I/O, `currentCgroup`, the cgroup methods, `utils.ReadTextLines` and `parseUint` are not part of this model. Their results are inputs, and a cgroup read that fails after a successful lookup is represented by the `Result` it returns.
- `utils.ReadTextLines` with `WithoutBlank` is assumed to drop lines with no fields, so every `/proc/stat` line has a first field.
- The failing `usageAllCpus` read in `initialize` stores 0 into preTotal. The zero value Go returns with an error is not visible, so the model assumes 0.
- `utils/recover.go` (`RunSafe`) is not part of this model. The tick body is total in the model and cannot panic.
- `Cgroup.periodUs` is a positive uint64 in the model, so a zero CFS period is excluded. With period 0 the source's `cpuLimit` divides by zero at stat/cpu_linux.go:112 and returns an infinite or NaN limit. Because the limit is only logged, this changes no sample.
- `stat/cpu_other.go`, the non-Linux stub that always returns 0, is not part of this model.
- zap logging is left out: it has no effect on the state. The cgroup CPU limit is computed and stored but, as in the source, never used in the usage formula.
- The gin context is reduced to the request URI and the outcome. Prometheus vectors are sequences of observations.
- Shedder.Handle: the handler always has a counters object, because `stat` is a non-null `SheddingStat`. `GinUnarySheddingInterceptor` (shedder.go:19) also accepts a nil `*SheddingStat`. With it, the enabled handler panics with a nil dereference in `IncrementTotal` (sheddingstat.go:44-46) on the first request that is not the probe. That panic path is not modelled.
- CpuLinux.CpuLimit: the quota/period ratio is exact real division, so `ratio * period == quota` holds exactly. float64 rounding at stat/cpu_linux.go:110-112 is not modelled.
- SheddingStats.Loop: the requests between two ticks are applied as counts, all total increments first, then pass, then drop. The order in which concurrent handlers interleave their increments is not modelled. The three counters are independent, so the counts a tick drains do not depend on that order.
- Usage.Smooth: uses exact real arithmetic with truncation toward zero. float64 rounding, and the out-of-range float-to-int64 conversion, are not modelled.
- CpuLinux.SampleUsage: models the corrected formula, so `CpuLinux.CpuSampler.RefreshCpu` and `CpuLinux.Refresh` sample 0 for a request of 0 or below (see Findings). A request below 0 comes from a negative shares read of -1000 or less, which `Cgroup.shares` admits. For it the source computes a finite negative quotient at stat/cpu_linux.go:86, and Go's conversion of a negative float64 to uint64 is implementation-dependent. The model reports 0 there as well. The quotient is exact real division truncated, not float64 division.
- CpuLinux.CpuSampler.RefreshCpu: the float64 division and its rounding are exact here, and the conversion of an infinite or NaN quotient to uint64 is not modelled (the corrected formula never produces one).
- SheddingStats.SheddingStat.IncrementTotal: the counters are unbounded integers, and int64 wrap-around after 2^63 increments is not modelled. The same holds for IncrementPass and IncrementDrop.
- Usage.UsageStat.CpuUsage: the cell is an unbounded integer rather than int64.
- `shedder.go:4` imports the `stat` package under a different module path (`github.com/anaballe/...`) from the one `sheddingstat.go:4` and `stat/cpu_linux.go:6` use (`github.com/anandshukla-sharechat/...`). If these resolved to two modules, the gate would read a usage cell that no sampler writes. The model treats them as one shared cell (`Usage.UsageStat`), which is what the code evidently intends.

## Findings

| source | as written | input that shows it | evidently intended | confidence | as-written member | corrected member |
|---|---|---|---|---|---|---|
| stat/cpu_linux.go:86 | The usage percentage divides by `float64(request)`, and `request` is `shares / 1000` (stat/cpu_linux.go:45) or stays 0 when `initialize` stops before that line. Any cgroup with fewer than 1000 shares (a request below one core) makes the division by zero reachable. A shares read of -1000 or less gives a negative request, and the quotient is then finite and negative. | shares = 512, cores = 4, cpuDelta = 25000000, systemDelta = 1000000000: `512 / 1000 == 0`, and the quotient is +Inf. Its conversion to uint64 is implementation-dependent in Go. | A request that is not positive should not turn every active sample into a division by zero, nor a negative request into a negative quotient converted to uint64. The sampler should fail open and report 0, as it does when a read fails. | medium; not executed | CpuLinux.UsageQuotient (exhibited by CpuLinux.HalfCoreRequestDividesByZero) | CpuLinux.SampleUsage (related to the source's finite quotient by CpuLinux.SampleUsageIsTruncatedQuotient) |
