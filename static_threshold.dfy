/**
 * Static-threshold over-utilisation test of the power-aware migration
 * policy: a host is over-utilised when the MIPS its VMs request, as a
 * fraction of the host's total MIPS, exceeds a configurable threshold.
 *
 * The VMs' requested MIPS and RAM are inputs; the history the policy keeps
 * (`addHistoryEntry`) is a ghost log of (host id, threshold) entries.
 */
module StaticThreshold {

  /** What one VM currently requests: total MIPS and RAM. */
  datatype VmDemand = VmDemand(mips: real, ram: real)

  /** A power host: its id, total MIPS, RAM and the VMs placed on it. */
  datatype PowerHost = PowerHost(id: nat, totalMips: real, ram: real, vms: seq<VmDemand>)

  /** One entry of the policy's history: the host and the threshold in force. */
  datatype HistoryEntry = HistoryEntry(host: nat, threshold: real)

  /** The threshold a policy starts with before its constructor sets one. */
  const DefaultUtilizationThreshold: real := 9.0

  /** Sum of the requested MIPS, accumulated in list order. */
  function TotalRequestedMips(vms: seq<VmDemand>): (total: real)
    ensures (forall i :: 0 <= i < |vms| ==> vms[i].mips >= 0.0) ==> total >= 0.0
  {
    if vms == [] then 0.0 else TotalRequestedMips(vms[..|vms| - 1]) + vms[|vms| - 1].mips
  }

  /** Sum of the requested RAM, accumulated in list order. */
  function TotalRequestedRam(vms: seq<VmDemand>): (total: real)
    ensures (forall i :: 0 <= i < |vms| ==> vms[i].ram >= 0.0) ==> total >= 0.0
  {
    if vms == [] then 0.0 else TotalRequestedRam(vms[..|vms| - 1]) + vms[|vms| - 1].ram
  }

  /** Requested MIPS as a fraction of the host's total MIPS. */
  function CpuUtilization(h: PowerHost): real
    requires h.totalMips > 0.0
  {
    TotalRequestedMips(h.vms) / h.totalMips
  }

  /** The over-utilisation verdict for a threshold. */
  predicate OverUtilized(h: PowerHost, threshold: real)
    requires h.totalMips > 0.0
  {
    CpuUtilization(h) > threshold
  }

  /** A host without VMs is never over-utilised for a non-negative threshold. */
  lemma EmptyHostNotOverUtilized(h: PowerHost, threshold: real)
    requires h.totalMips > 0.0 && h.vms == [] && threshold >= 0.0
    ensures !OverUtilized(h, threshold)
  {
  }

  /** Raising the threshold never turns "not over-utilised" into "over-utilised". */
  lemma OverUtilizedAntiMonotone(h: PowerHost, lower: real, higher: real)
    requires h.totalMips > 0.0 && lower <= higher
    ensures OverUtilized(h, higher) ==> OverUtilized(h, lower)
  {
  }

  /** With non-negative demands, every host is over-utilised for a negative threshold. */
  lemma NegativeThresholdAlwaysOverUtilized(h: PowerHost, threshold: real)
    requires h.totalMips > 0.0 && threshold < 0.0
    requires forall i :: 0 <= i < |h.vms| ==> h.vms[i].mips >= 0.0
    ensures OverUtilized(h, threshold)
  {
    assert TotalRequestedMips(h.vms) >= 0.0;
  }

  lemma {:induction false} SameMipsSameTotal(a: seq<VmDemand>, b: seq<VmDemand>)
    requires |a| == |b|
    requires forall i :: 0 <= i < |a| ==> a[i].mips == b[i].mips
    ensures TotalRequestedMips(a) == TotalRequestedMips(b)
  {
    if a != [] {
      SameMipsSameTotal(a[..|a| - 1], b[..|b| - 1]);
    }
  }

  /**
   * The RAM side (host RAM, the VMs' requested RAM) has no influence on
   * the verdict: hosts that agree on total MIPS and on each VM's requested
   * MIPS get the same answer.
   */
  lemma MemoryHasNoInfluence(h1: PowerHost, h2: PowerHost, threshold: real)
    requires h1.totalMips > 0.0 && h1.totalMips == h2.totalMips
    requires |h1.vms| == |h2.vms|
    requires forall i :: 0 <= i < |h1.vms| ==> h1.vms[i].mips == h2.vms[i].mips
    ensures OverUtilized(h1, threshold) == OverUtilized(h2, threshold)
  {
    SameMipsSameTotal(h1.vms, h2.vms);
  }

  class StaticThresholdPolicy {
    var utilizationThreshold: real
    /** The (host, threshold) entries recorded so far, in order. */
    ghost var history: seq<HistoryEntry>

    /** The argument replaces the default threshold. */
    constructor (utilizationThreshold: real)
      ensures this.utilizationThreshold == utilizationThreshold && history == []
    {
      this.utilizationThreshold := DefaultUtilizationThreshold;
      history := [];
      new;
      SetUtilizationThreshold(utilizationThreshold);
    }

    method SetUtilizationThreshold(utilizationThreshold: real)
      modifies this`utilizationThreshold
      ensures this.utilizationThreshold == utilizationThreshold
    {
      this.utilizationThreshold := utilizationThreshold;
    }

    function GetUtilizationThreshold(): (t: real)
      reads this
      ensures t == utilizationThreshold
    {
      utilizationThreshold
    }

    /**
     * Records a history entry with the current threshold, sums the VMs'
     * requested MIPS and RAM, and reports whether the CPU utilisation
     * exceeds the threshold. The memory utilisation (scaled by 10) is
     * computed but plays no part in the answer.
     */
    method IsHostOverUtilized(host: PowerHost) returns (r: bool)
      requires host.totalMips > 0.0 && host.ram > 0.0
      modifies this`history
      ensures history == old(history) + [HistoryEntry(host.id, utilizationThreshold)]
      ensures r <==> TotalRequestedMips(host.vms) / host.totalMips > utilizationThreshold
      ensures r == OverUtilized(host, utilizationThreshold)
    {
      history := history + [HistoryEntry(host.id, GetUtilizationThreshold())];
      var totalRequestedMips := 0.0;
      var totalRequestedMemory := 0.0;
      var i := 0;
      while i < |host.vms|
        invariant 0 <= i <= |host.vms|
        invariant totalRequestedMips == TotalRequestedMips(host.vms[..i])
        invariant totalRequestedMemory == TotalRequestedRam(host.vms[..i])
      {
        assert host.vms[..i + 1][..i] == host.vms[..i];
        totalRequestedMips := totalRequestedMips + host.vms[i].mips;
        totalRequestedMemory := totalRequestedMemory + host.vms[i].ram;
        i := i + 1;
      }
      assert host.vms[..i] == host.vms;
      var cpuUtilization := totalRequestedMips / host.totalMips;
      var memoryUtilization := totalRequestedMemory / host.ram;
      memoryUtilization := memoryUtilization * 10.0;
      r := cpuUtilization > GetUtilizationThreshold();
    }
  }
}
