/**
 * shedder.go: the admission gate. `allow` compares the shared usage cell
 * against the threshold, and the handler built by GinUnarySheddingInterceptor
 * exempts the probe path, counts every other request and aborts it with 503
 * when usage is above the threshold.
 *
 * The gin context is reduced to the request URI it is asked for and the
 * outcome it is left with (continue, or abort with a status).
 */
module Shedder {
  import opened MachineInts
  import Lang
  import Usage
  import opened SheddingStats

  /** The probe path used when none is configured. */
  const DefaultProbeAPI := "/health"

  /** http.StatusServiceUnavailable. */
  const StatusServiceUnavailable := 503

  /** The handler GinUnarySheddingInterceptor returns: a no-op, or the shedding closure over its settings. */
  datatype Gate = Disabled | Enabled(cpuThreshold: I64, probeAPI: string)

  /** GinUnarySheddingInterceptor's settings step: an empty probe path becomes "/health". */
  function NewGate(shedderEnabled: bool, cpuThreshold: I64, probeAPI: string): (g: Gate)
    ensures g.Disabled? <==> !shedderEnabled
    ensures g.Enabled? ==> g.cpuThreshold == cpuThreshold && g.probeAPI != ""
    ensures g.Enabled? && probeAPI == "" ==> g.probeAPI == DefaultProbeAPI
    ensures g.Enabled? && probeAPI != "" ==> g.probeAPI == probeAPI
  {
    var probe := if probeAPI == "" then DefaultProbeAPI else probeAPI;
    if shedderEnabled then Enabled(cpuThreshold, probe) else Disabled
  }

  /** What the handler does with one request: leave it alone, count it as passed, or count it as dropped. */
  datatype Decision = Skip | Pass | Drop

  /** Whether the enabled handler exempts `requestURI`: only an exact match of the whole URI, query included. */
  function IsProbe(g: Gate, requestURI: string): (probe: bool)
    requires g.Enabled?
    ensures probe <==> requestURI == g.probeAPI
  {
    Lang.ContainsSingleton(g.probeAPI, requestURI);
    Lang.Contains([g.probeAPI], requestURI)
  }

  /** The handler's choice for a request that reads `usage` from the usage cell. */
  function Decide(g: Gate, requestURI: string, usage: int): (d: Decision)
    ensures d.Skip? <==> g.Disabled? || requestURI == g.probeAPI
    ensures d.Drop? <==> g.Enabled? && requestURI != g.probeAPI && usage > g.cpuThreshold
    ensures d.Pass? <==> g.Enabled? && requestURI != g.probeAPI && usage <= g.cpuThreshold
  {
    match g
    case Disabled => Skip
    case Enabled(threshold, _) =>
      if IsProbe(g, requestURI) then Skip
      else if usage > threshold then Drop
      else Pass
  }

  /** Usage equal to the threshold is still admitted: the comparison is strict. */
  lemma AtThresholdPasses(threshold: I64, probeAPI: string, requestURI: string)
    requires requestURI != probeAPI
    ensures Decide(Enabled(threshold, probeAPI), requestURI, threshold) == Pass
  {
  }

  /** The counters after the handler has acted on a decision. */
  function Account(c: Snapshot, d: Decision): (next: Snapshot)
    ensures d.Skip? ==> next == c
    ensures !d.Skip? ==> next.total == c.total + 1
    ensures !d.Skip? ==> (next.pass - c.pass) + (next.drop - c.drop) == 1
    ensures next.drop - c.drop == (if d.Drop? then 1 else 0)
    ensures next.total - next.pass - next.drop == c.total - c.pass - c.drop
  {
    match d
    case Skip => c
    case Pass => c.(total := c.total + 1, pass := c.pass + 1)
    case Drop => c.(total := c.total + 1, drop := c.drop + 1)
  }

  /** total == pass + drop, the balance every handled call keeps. */
  predicate Balanced(c: Snapshot) {
    c.total == c.pass + c.drop
  }

  /** What the handler leaves in the gin context. */
  datatype Outcome = Next | Aborted(status: int)

  /** allow: true when the request must be dropped, that is when the stored usage is above the threshold. */
  method MustDrop(cell: Usage.UsageStat, cpuThreshold: I64) returns (drop: bool)
    ensures drop <==> cell.cpuUsage > cpuThreshold
  {
    var usage := cell.CpuUsage();
    if usage > cpuThreshold {
      return true;
    }
    return false;
  }

  /** The handler returned by GinUnarySheddingInterceptor, applied to one request. */
  method Handle(g: Gate, requestURI: string, cell: Usage.UsageStat, stat: SheddingStat) returns (outcome: Outcome)
    requires stat.Valid()
    modifies stat`total, stat`pass, stat`drop, stat`issued
    ensures stat.Valid()
    ensures stat.Counts() == Account(old(stat.Counts()), Decide(g, requestURI, cell.cpuUsage))
    ensures stat.issued == Account(old(stat.issued), Decide(g, requestURI, cell.cpuUsage))
    ensures outcome == Aborted(StatusServiceUnavailable) <==> Decide(g, requestURI, cell.cpuUsage).Drop?
    ensures outcome != Aborted(StatusServiceUnavailable) ==> outcome == Next
  {
    match g
    case Disabled =>
      return Next;
    case Enabled(cpuThreshold, probeAPI) =>
      if IsProbe(g, requestURI) {
        return Next;
      }
      stat.IncrementTotal();
      var dropped := MustDrop(cell, cpuThreshold);
      if dropped {
        stat.IncrementDrop();
        return Aborted(StatusServiceUnavailable);
      }
      stat.IncrementPass();
      return Next;
  }

  /** A request as the handler sees it: its URI and the usage the cell holds when it arrives. */
  datatype Request = Request(uri: string, usage: int)

  /** The counters after the handler has served `requests` in order, starting from `c`. */
  function Served(g: Gate, requests: seq<Request>, c: Snapshot): (after: Snapshot)
    ensures after.total - after.pass - after.drop == c.total - c.pass - c.drop
    ensures c.total <= after.total <= c.total + |requests|
    ensures c.drop <= after.drop && c.pass <= after.pass
  {
    if requests == [] then c
    else
      var last := requests[|requests| - 1];
      Account(Served(g, requests[..|requests| - 1], c), Decide(g, last.uri, last.usage))
  }

  /** How many of `requests` the handler counts: none when disabled, every non-probe one when enabled. */
  function Admitted(g: Gate, requests: seq<Request>): (n: nat)
    ensures n <= |requests|
    ensures g.Disabled? ==> n == 0
    ensures g.Enabled? && (forall i :: 0 <= i < |requests| ==> requests[i].uri != g.probeAPI) ==> n == |requests|
  {
    if requests == [] then 0
    else
      var last := requests[|requests| - 1];
      Admitted(g, requests[..|requests| - 1]) + (if g.Enabled? && last.uri != g.probeAPI then 1 else 0)
  }

  /** How many of `requests` the handler aborts: the counted ones that arrive with usage above the threshold. */
  function Shed(g: Gate, requests: seq<Request>): (n: nat)
    ensures n <= Admitted(g, requests)
    ensures g.Enabled? && (forall i :: 0 <= i < |requests| ==> requests[i].usage <= g.cpuThreshold) ==> n == 0
  {
    if requests == [] then 0
    else
      var last := requests[|requests| - 1];
      Shed(g, requests[..|requests| - 1])
        + (if g.Enabled? && last.uri != g.probeAPI && last.usage > g.cpuThreshold then 1 else 0)
  }

  /** Serving any sequence of requests keeps total == pass + drop. */
  lemma {:induction false} ServedKeepsBalance(g: Gate, requests: seq<Request>, c: Snapshot)
    requires Balanced(c)
    ensures Balanced(Served(g, requests, c))
  {
    if requests != [] {
      ServedKeepsBalance(g, requests[..|requests| - 1], c);
    }
  }

  /** total grows by exactly the admitted requests and drop by exactly the shed ones. */
  lemma {:induction false} ServedCounts(g: Gate, requests: seq<Request>, c: Snapshot)
    ensures Served(g, requests, c).total == c.total + Admitted(g, requests)
    ensures Served(g, requests, c).drop == c.drop + Shed(g, requests)
  {
    if requests != [] {
      ServedCounts(g, requests[..|requests| - 1], c);
    }
  }

  /** A disabled gate never changes the counters, whatever it is sent. */
  lemma {:induction false} DisabledCountsNothing(requests: seq<Request>, c: Snapshot)
    ensures Served(Disabled, requests, c) == c
  {
    if requests != [] {
      DisabledCountsNothing(requests[..|requests| - 1], c);
    }
  }
}
