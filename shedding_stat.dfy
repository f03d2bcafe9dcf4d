/**
 * sheddingstat.go: the total/pass/drop request counters, drained once per
 * minute into a snapshot whose total and drop are forwarded to the metrics sink.
 *
 * The atomic adds and swaps are sequential field updates here; the ghost
 * fields record every increment issued and every snapshot drained, so that
 * conservation (nothing lost, nothing counted twice) is an object invariant.
 */
module SheddingStats {
  import opened Metrics

  const TotalLabel := "total"
  const DropLabel := "dropped"

  /** A drained copy of the three counters. */
  datatype Snapshot = Snapshot(total: int, pass: int, drop: int)

  const Empty := Snapshot(0, 0, 0)

  function Add(a: Snapshot, b: Snapshot): Snapshot {
    Snapshot(a.total + b.total, a.pass + b.pass, a.drop + b.drop)
  }

  /** What one drain forwards: total as "total" and drop as "dropped", never pass; nothing without a sink. */
  function Forwarded(hasSink: bool, snap: Snapshot): (events: seq<Observation>)
    ensures !hasSink ==> events == []
    ensures hasSink ==> |events| == 2
    ensures forall e :: e in events ==> e.CounterAdd? && (e.labelValue == TotalLabel || e.labelValue == DropLabel)
    ensures forall e :: e in events && e.labelValue == TotalLabel ==> e.amount == snap.total
    ensures forall e :: e in events && e.labelValue == DropLabel ==> e.amount == snap.drop
    ensures hasSink ==> CounterAdd(TotalLabel, snap.total) in events && CounterAdd(DropLabel, snap.drop) in events
    ensures hasSink ==> events[0].labelValue == TotalLabel && events[1].labelValue == DropLabel
  {
    if hasSink then [CounterAdd(TotalLabel, snap.total), CounterAdd(DropLabel, snap.drop)] else []
  }

  class SheddingStat {
    var total: int
    var pass: int
    var drop: int
    /** Whether a counter vector was supplied (sheddingMetrics != nil). */
    const hasSink: bool
    /** What has been sent to the counter vector, in order. */
    var emitted: seq<Observation>
    /** The increments issued so far, per counter. */
    ghost var issued: Snapshot
    /** The field-wise sum of the snapshots returned by every drain so far. */
    ghost var drained: Snapshot

    function Counts(): Snapshot
      reads this
    {
      Snapshot(total, pass, drop)
    }

    /** Conservation: every increment issued is either in a drained snapshot or still pending. */
    ghost predicate Valid()
      reads this
    {
      issued == Add(drained, Counts())
    }

    constructor (hasSink: bool)
      ensures Valid() && this.hasSink == hasSink
      ensures Counts() == Empty && issued == Empty && drained == Empty && emitted == []
    {
      this.hasSink := hasSink;
      total, pass, drop := 0, 0, 0;
      emitted := [];
      issued := Empty;
      drained := Empty;
    }

    method IncrementTotal()
      requires Valid()
      modifies this`total, this`issued
      ensures Valid()
      ensures Counts() == old(Counts()).(total := old(total) + 1)
      ensures issued == old(issued).(total := old(issued).total + 1)
    {
      total := total + 1;
      issued := issued.(total := issued.total + 1);
    }

    method IncrementPass()
      requires Valid()
      modifies this`pass, this`issued
      ensures Valid()
      ensures Counts() == old(Counts()).(pass := old(pass) + 1)
      ensures issued == old(issued).(pass := old(issued).pass + 1)
    {
      pass := pass + 1;
      issued := issued.(pass := issued.pass + 1);
    }

    method IncrementDrop()
      requires Valid()
      modifies this`drop, this`issued
      ensures Valid()
      ensures Counts() == old(Counts()).(drop := old(drop) + 1)
      ensures issued == old(issued).(drop := old(issued).drop + 1)
    {
      drop := drop + 1;
      issued := issued.(drop := issued.drop + 1);
    }

    /** reset: swap each counter with 0 and return the values it held. */
    method Reset() returns (snap: Snapshot)
      requires Valid()
      modifies this`total, this`pass, this`drop, this`drained
      ensures Valid()
      ensures snap == old(Counts()) && Counts() == Empty
      ensures drained == Add(old(drained), snap)
    {
      snap := Snapshot(total, pass, drop);
      total, pass, drop := 0, 0, 0;
      drained := Add(drained, snap);
    }

    /** One iteration of loop: drain, then forward total and drop if there is a sink. */
    method Tick()
      requires Valid()
      modifies this
      ensures Valid()
      ensures Counts() == Empty
      ensures drained == Add(old(drained), old(Counts())) && issued == old(issued)
      ensures emitted == old(emitted) + Forwarded(hasSink, old(Counts()))
    {
      var loadStat := Reset();
      emitted := emitted + Forwarded(hasSink, loadStat);
    }
  }

  /** Field-wise sum of the snapshots, in order. */
  function SumAll(snaps: seq<Snapshot>): Snapshot {
    if snaps == [] then Empty else Add(SumAll(snaps[..|snaps| - 1]), snaps[|snaps| - 1])
  }

  /** A count of increments: no counter is incremented a negative number of times. */
  predicate Arrival(a: Snapshot) {
    a.total >= 0 && a.pass >= 0 && a.drop >= 0
  }

  /** What a run of drains forwards, one drain after the other. */
  function ForwardedAll(hasSink: bool, snaps: seq<Snapshot>): (events: seq<Observation>)
    ensures |events| == (if hasSink then 2 * |snaps| else 0)
    ensures forall e :: e in events ==> e.CounterAdd? && (e.labelValue == TotalLabel || e.labelValue == DropLabel)
  {
    if snaps == [] then [] else ForwardedAll(hasSink, snaps[..|snaps| - 1]) + Forwarded(hasSink, snaps[|snaps| - 1])
  }

  /**
   * The requests served between two ticks, as increments: `a.total` calls of
   * IncrementTotal, `a.pass` of IncrementPass and `a.drop` of IncrementDrop.
   */
  method Serve(stat: SheddingStat, a: Snapshot)
    requires stat.Valid() && Arrival(a)
    modifies stat`total, stat`pass, stat`drop, stat`issued
    ensures stat.Valid()
    ensures stat.Counts() == Add(old(stat.Counts()), a)
    ensures stat.issued == Add(old(stat.issued), a)
  {
    var k := 0;
    while k < a.total
      invariant 0 <= k <= a.total && stat.Valid()
      invariant stat.Counts() == Add(old(stat.Counts()), Snapshot(k, 0, 0))
      invariant stat.issued == Add(old(stat.issued), Snapshot(k, 0, 0))
    {
      stat.IncrementTotal();
      k := k + 1;
    }
    k := 0;
    while k < a.pass
      invariant 0 <= k <= a.pass && stat.Valid()
      invariant stat.Counts() == Add(old(stat.Counts()), Snapshot(a.total, k, 0))
      invariant stat.issued == Add(old(stat.issued), Snapshot(a.total, k, 0))
    {
      stat.IncrementPass();
      k := k + 1;
    }
    k := 0;
    while k < a.drop
      invariant 0 <= k <= a.drop && stat.Valid()
      invariant stat.Counts() == Add(old(stat.Counts()), Snapshot(a.total, a.pass, k))
      invariant stat.issued == Add(old(stat.issued), Snapshot(a.total, a.pass, k))
    {
      stat.IncrementDrop();
      k := k + 1;
    }
  }

  /** One round of loop: serve the requests `a`, then tick. */
  method Round(stat: SheddingStat, a: Snapshot)
    requires stat.Valid() && Arrival(a)
    modifies stat
    ensures stat.Valid() && stat.Counts() == Empty
    ensures stat.issued == Add(old(stat.issued), a)
    ensures stat.emitted == old(stat.emitted) + Forwarded(stat.hasSink, Add(old(stat.Counts()), a))
  {
    Serve(stat, a);
    stat.Tick();
  }

  /** Extending a prefix by one snapshot adds that snapshot to the sum. */
  lemma SumAllStep(snaps: seq<Snapshot>, i: nat)
    requires i < |snaps|
    ensures SumAll(snaps[..i + 1]) == Add(SumAll(snaps[..i]), snaps[i])
  {
    assert snaps[..i + 1][..i] == snaps[..i];
  }

  /** Extending a run of drains by one appends that drain's forwarding. */
  lemma ForwardedAllStep(hasSink: bool, snaps: seq<Snapshot>, i: nat)
    requires i < |snaps|
    ensures ForwardedAll(hasSink, snaps[..i + 1]) == ForwardedAll(hasSink, snaps[..i]) + Forwarded(hasSink, snaps[i])
  {
    assert snaps[..i + 1][..i] == snaps[..i];
  }

  /** The sum can also be taken from the front: the first snapshot plus the sum of the rest. */
  lemma {:induction false} SumAllFront(snaps: seq<Snapshot>)
    requires |snaps| > 0
    ensures SumAll(snaps) == Add(snaps[0], SumAll(snaps[1..]))
  {
    var n := |snaps|;
    if n == 1 {
      assert snaps[..0] == [] && snaps[1..] == [];
    } else {
      var init := snaps[..n - 1];
      SumAllFront(init);
      assert init[1..] == snaps[1..][..n - 2];
      assert snaps[1..][n - 2] == snaps[n - 1];
    }
  }

  /**
   * Later rounds of loop, each starting with nothing pending: every tick
   * forwards exactly the requests served since the previous one.
   */
  method Rounds(stat: SheddingStat, arrivals: seq<Snapshot>)
    requires stat.Valid() && stat.Counts() == Empty
    requires forall i :: 0 <= i < |arrivals| ==> Arrival(arrivals[i])
    modifies stat
    ensures stat.Valid() && stat.Counts() == Empty
    ensures stat.issued == Add(old(stat.issued), SumAll(arrivals))
    ensures stat.emitted == old(stat.emitted) + ForwardedAll(stat.hasSink, arrivals)
  {
    var i := 0;
    while i < |arrivals|
      invariant 0 <= i <= |arrivals|
      invariant stat.Valid() && stat.Counts() == Empty
      invariant stat.issued == Add(old(stat.issued), SumAll(arrivals[..i]))
      invariant stat.emitted == old(stat.emitted) + ForwardedAll(stat.hasSink, arrivals[..i])
    {
      Round(stat, arrivals[i]);
      assert Add(Empty, arrivals[i]) == arrivals[i];
      SumAllStep(arrivals, i);
      ForwardedAllStep(stat.hasSink, arrivals, i);
      i := i + 1;
    }
    assert arrivals[..i] == arrivals;
  }

  /** Conservation before and after, with nothing pending after: everything issued since has been drained. */
  lemma DrainedAll(issued0: Snapshot, drained0: Snapshot, pending0: Snapshot, issued: Snapshot, drained: Snapshot, served: Snapshot)
    requires issued0 == Add(drained0, pending0)
    requires issued == Add(issued0, served) && issued == Add(drained, Empty)
    ensures drained == Add(drained0, Add(pending0, served))
  {
  }

  /**
   * loop: one Tick per value received from the ticker channel. Before tick i
   * the requests `arrivals[i]` are served, so the first tick forwards the
   * counts held on entry plus `arrivals[0]`, and every later tick forwards
   * exactly what arrived since the previous one.
   */
  method Loop(stat: SheddingStat, arrivals: seq<Snapshot>)
    requires stat.Valid()
    requires forall i :: 0 <= i < |arrivals| ==> Arrival(arrivals[i])
    modifies stat
    ensures stat.Valid()
    ensures stat.issued == Add(old(stat.issued), SumAll(arrivals))
    ensures arrivals == [] ==>
              && stat.Counts() == old(stat.Counts())
              && stat.drained == old(stat.drained)
              && stat.emitted == old(stat.emitted)
    ensures arrivals != [] ==> stat.Counts() == Empty
    ensures arrivals != [] ==> stat.drained == Add(old(stat.drained), Add(old(stat.Counts()), SumAll(arrivals)))
    ensures arrivals != [] ==>
              stat.emitted == old(stat.emitted)
                       + Forwarded(stat.hasSink, Add(old(stat.Counts()), arrivals[0]))
                       + ForwardedAll(stat.hasSink, arrivals[1..])
  {
    if arrivals == [] {
      return;
    }
    ghost var issued0, drained0, pending0 := stat.issued, stat.drained, stat.Counts();
    Round(stat, arrivals[0]);
    Rounds(stat, arrivals[1..]);
    SumAllFront(arrivals);
    DrainedAll(issued0, drained0, pending0, stat.issued, stat.drained, SumAll(arrivals));
  }

  /** Two drains with no increment between them: the second yields all zeros. */
  method DrainTwice(stat: SheddingStat) returns (first: Snapshot, second: Snapshot)
    requires stat.Valid()
    modifies stat
    ensures stat.Valid()
    ensures first == old(stat.Counts()) && second == Empty
  {
    first := stat.Reset();
    second := stat.Reset();
  }
}
