/**
 * Round-robin ("compact") VM allocation policy: a table from VM uid to the
 * host that runs it, plus a circular list of hosts whose cursor is advanced
 * after every refused placement.
 *
 * The host's own admission test (`Host.vmCreate`) is not part of this model:
 * it is an oracle `accepts(uid, host)`, assumed to give the same answer for
 * the same VM and host during one allocation.
 */
module CompactAllocation {

  datatype Option<T> = None | Some(value: T)

  /** Hosts are identified by their id. */
  type HostId = nat

  /** The table key of a VM: CloudSim builds it from the user id and the VM id. */
  datatype Uid = Uid(userId: int, vmId: int)

  datatype Vm = Vm(id: int, userId: int)
  {
    function GetUid(): Uid
    {
      Uid(userId, id)
    }
  }

  /** One entry of a migration map (VM to destination host). */
  datatype Migration = Migration(vm: Uid, host: HostId)

  /** The answer `Host.vmCreate` gives for a VM and a host. */
  type Acceptance = (Uid, HostId) -> bool

  /** The cursor position after `IncIni` on a list of `n` hosts: the next host, wrapping to 0. */
  function Next(n: nat, c: nat): (p: nat)
    ensures n > 0 ==> p < n
    ensures n == 0 ==> p == 0
  {
    if c + 1 < n then c + 1 else 0
  }

  /** Position of the cursor after `k` advances from `start` on a list of `n` hosts. */
  function Pos(n: nat, start: nat, k: nat): (p: nat)
    requires n == 0 || start < n
    ensures n > 0 ==> p < n
    ensures n == 0 && k > 0 ==> p == 0
  {
    if k == 0 then start else Next(n, Pos(n, start, k - 1))
  }

  /** The host offered at the `k`-th attempt (None when the list is empty). */
  function Candidate(hosts: seq<HostId>, start: nat, k: nat): (h: Option<HostId>)
    requires |hosts| == 0 || start < |hosts|
    ensures h.Some? <==> |hosts| > 0
    ensures h.Some? ==> h.value == hosts[Pos(|hosts|, start, k)]
  {
    if |hosts| == 0 then None else Some(hosts[Pos(|hosts|, start, k)])
  }

  /** Whether the `k`-th attempt places the VM. */
  predicate Hits(accepts: Acceptance, uid: Uid, hosts: seq<HostId>, start: nat, k: nat)
    requires |hosts| == 0 || start < |hosts|
  {
    var h := Candidate(hosts, start, k);
    h.Some? && accepts(uid, h.value)
  }

  /** The first attempt in `k..last` that places the VM, if any. */
  function Search(accepts: Acceptance, uid: Uid, hosts: seq<HostId>, start: nat, k: nat, last: nat): (r: Option<nat>)
    requires |hosts| == 0 || start < |hosts|
    ensures r.Some? ==> k <= r.value <= last && Hits(accepts, uid, hosts, start, r.value)
    ensures r.Some? ==> forall t :: k <= t < r.value ==> !Hits(accepts, uid, hosts, start, t)
    ensures r.None? ==> forall t :: k <= t <= last ==> !Hits(accepts, uid, hosts, start, t)
    decreases last + 1 - k
  {
    if k > last then None
    else if Hits(accepts, uid, hosts, start, k) then Some(k)
    else Search(accepts, uid, hosts, start, k + 1, last)
  }

  /** Index of the last attempt: the initial try plus one per `i = 0..size`. */
  function LastAttempt(hosts: seq<HostId>): nat
  {
    |hosts| + 1
  }

  /**
   * The attempt at which a round-robin allocation starting at cursor `start`
   * succeeds, or None when every attempt fails.
   */
  function Placement(accepts: Acceptance, uid: Uid, hosts: seq<HostId>, start: nat): (r: Option<nat>)
    requires |hosts| == 0 || start < |hosts|
    ensures r.Some? ==> r.value <= |hosts| + 1 && Hits(accepts, uid, hosts, start, r.value)
    ensures r.Some? ==> forall t :: 0 <= t < r.value ==> !Hits(accepts, uid, hosts, start, t)
    ensures r.None? ==> forall t :: 0 <= t <= |hosts| + 1 ==> !Hits(accepts, uid, hosts, start, t)
  {
    Search(accepts, uid, hosts, start, 0, LastAttempt(hosts))
  }

  /** Number of attempts a round-robin allocation makes. */
  function AttemptCount(p: Option<nat>, hosts: seq<HostId>): nat
  {
    match p
    case Some(k) => k + 1
    case None => LastAttempt(hosts) + 1
  }

  /** The hosts offered, in order, by the first `count` attempts. */
  function Attempts(hosts: seq<HostId>, start: nat, count: nat): (s: seq<Option<HostId>>)
    requires |hosts| == 0 || start < |hosts|
    ensures |s| == count
    ensures forall t :: 0 <= t < count ==> s[t] == Candidate(hosts, start, t)
  {
    seq(count, t requires 0 <= t => Candidate(hosts, start, t))
  }

  /** Within one lap, the cursor is `start + k` taken round the end of the list. */
  lemma {:induction false} PosWithinLap(n: nat, start: nat, k: nat)
    requires start < n && k <= n
    ensures Pos(n, start, k) == if start + k < n then start + k else start + k - n
  {
    if k > 0 {
      PosWithinLap(n, start, k - 1);
    }
  }

  lemma AttemptsSnoc(hosts: seq<HostId>, start: nat, count: nat)
    requires |hosts| == 0 || start < |hosts|
    ensures Attempts(hosts, start, count + 1) == Attempts(hosts, start, count) + [Candidate(hosts, start, count)]
  {
  }

  /**
   * On a non-empty list every host is offered within the first `size`
   * attempts, whatever the starting cursor.
   */
  lemma EveryHostOffered(n: nat, start: nat, j: nat) returns (k: nat)
    requires start < n && j < n
    ensures k < n && Pos(n, start, k) == j
  {
    k := if start <= j then j - start else j + n - start;
    PosWithinLap(n, start, k);
  }

  /**
   * If some host of a non-empty list accepts the VM, the round-robin
   * allocation succeeds on an accepting host.
   */
  lemma {:induction false} AcceptingHostIsFound(accepts: Acceptance, uid: Uid, hosts: seq<HostId>, start: nat, j: nat)
    requires start < |hosts|
    requires j < |hosts| && accepts(uid, hosts[j])
    ensures Placement(accepts, uid, hosts, start).Some?
    ensures accepts(uid, hosts[Pos(|hosts|, start, Placement(accepts, uid, hosts, start).value)])
  {
    var k := EveryHostOffered(|hosts|, start, j);
    assert Hits(accepts, uid, hosts, start, k);
  }

  /** If the host under the cursor accepts, the cursor does not move. */
  lemma FirstHostAcceptsKeepsCursor(accepts: Acceptance, uid: Uid, hosts: seq<HostId>, start: nat)
    requires start < |hosts| && accepts(uid, hosts[start])
    ensures Placement(accepts, uid, hosts, start) == Some(0)
    ensures Pos(|hosts|, start, 0) == start
  {
  }

  /** After the last attempt the cursor is one host further on than where it started. */
  lemma LastAttemptAdvancesOnce(n: nat, start: nat)
    requires start < n
    ensures Pos(n, start, n + 1) == Next(n, start)
  {
    PosWithinLap(n, start, n);
  }

  /** A failed allocation on a non-empty list means that no host accepts the VM. */
  lemma FailedAllocationMeansNoHostAccepts(accepts: Acceptance, uid: Uid, hosts: seq<HostId>, start: nat, j: nat)
    requires start < |hosts| && j < |hosts|
    requires Placement(accepts, uid, hosts, start).None?
    ensures !accepts(uid, hosts[j])
  {
    var k := EveryHostOffered(|hosts|, start, j);
    assert !Hits(accepts, uid, hosts, start, k);
  }

  /**
   * The circular host list the policy walks. Its source is not part of this
   * model; it is taken to be a cursor over a fixed host sequence that
   * `IncIni` advances to the next host, wrapping from the last to the first, and whose current host is None when
   * the list is empty.
   */
  class CircularHostList {
    const hosts: seq<HostId>
    var cursor: nat

    ghost predicate Valid()
      reads this
    {
      if |hosts| == 0 then cursor == 0 else cursor < |hosts|
    }

    constructor (list: seq<HostId>)
      ensures Valid() && hosts == list && cursor == 0
    {
      hosts := list;
      cursor := 0;
    }

    function Size(): (n: nat)
      ensures n == |hosts|
    {
      |hosts|
    }

    /** The host under the cursor. */
    function Actual(): (h: Option<HostId>)
      reads this
      requires Valid()
      ensures h == Candidate(hosts, cursor, 0)
    {
      if |hosts| == 0 then None else Some(hosts[cursor])
    }

    /** Advance the cursor to the next host, wrapping around. */
    method IncIni()
      requires Valid()
      modifies this
      ensures Valid()
      ensures cursor == Pos(|hosts|, old(cursor), 1)
    {
      cursor := if cursor + 1 < |hosts| then cursor + 1 else 0;
    }
  }

  class CompactVmAllocationPolicy {
    /** VM uid to the host it was placed on. */
    var vmTable: map<Uid, HostId>
    const hosts: CircularHostList

    ghost predicate Valid()
      reads this, hosts
    {
      hosts.Valid()
    }

    constructor (list: seq<HostId>)
      ensures Valid() && fresh(hosts)
      ensures hosts.hosts == list && hosts.cursor == 0 && vmTable == map[]
    {
      vmTable := map[];
      hosts := new CircularHostList(list);
    }

    /**
     * Place `vm` on `host` (None stands for a null host): the VM is
     * recorded only when the host exists and accepts it.
     */
    method AllocateHostForVmOn(vm: Vm, host: Option<HostId>, accepts: Acceptance) returns (ok: bool)
      modifies this`vmTable
      ensures ok <==> host.Some? && accepts(vm.GetUid(), host.value)
      ensures ok ==> vmTable == old(vmTable)[vm.GetUid() := host.value]
      ensures !ok ==> vmTable == old(vmTable)
    {
      if host.Some? && accepts(vm.GetUid(), host.value) {
        vmTable := vmTable[vm.GetUid() := host.value];
        return true;
      }
      return false;
    }

    /**
     * Round-robin first fit: a VM already in the table is left where it is;
     * otherwise the host under the cursor is tried, and after each refusal
     * the cursor advances and the next host is tried, for at most
     * `size + 2` attempts. `tried` lists the hosts offered, in order.
     */
    method AllocateHostForVm(vm: Vm, accepts: Acceptance) returns (ok: bool, ghost tried: seq<Option<HostId>>)
      requires Valid()
      modifies this, hosts
      ensures Valid()
      ensures |tried| <= |hosts.hosts| + 2
      ensures vm.GetUid() in old(vmTable) ==>
        ok && tried == [] && vmTable == old(vmTable) && hosts.cursor == old(hosts.cursor)
      ensures vm.GetUid() !in old(vmTable) ==>
        var p := Placement(accepts, vm.GetUid(), hosts.hosts, old(hosts.cursor));
        && ok == p.Some?
        && tried == Attempts(hosts.hosts, old(hosts.cursor), AttemptCount(p, hosts.hosts))
        && hosts.cursor == Pos(|hosts.hosts|, old(hosts.cursor), AttemptCount(p, hosts.hosts) - 1)
        && (ok ==> vmTable == old(vmTable)[vm.GetUid() := hosts.hosts[hosts.cursor]])
        && (!ok ==> vmTable == old(vmTable))
    {
      if vm.GetUid() in vmTable {
        return true, [];
      }
      ghost var hs := hosts.hosts;
      ghost var start := hosts.cursor;
      ghost var p := Placement(accepts, vm.GetUid(), hs, start);
      var i;
      ok, i, tried := OfferHostsInTurn(vm, accepts);
      assert !ok ==> i == |hs| + 1 && p.None?;
      assert AttemptCount(p, hs) == i + 1;
    }

    /**
     * The attempts of `AllocateHostForVm` for a VM not yet in the table:
     * on exit `i + 1` hosts have been offered and the cursor is on the
     * last of them; the loop stops at the first acceptance or after
     * `i = size + 1`.
     */
    method OfferHostsInTurn(vm: Vm, accepts: Acceptance) returns (ok: bool, i: nat, ghost tried: seq<Option<HostId>>)
      requires Valid()
      modifies this, hosts
      ensures Valid()
      ensures i <= |hosts.hosts| + 1 && (ok || i == |hosts.hosts| + 1)
      ensures hosts.cursor == Pos(|hosts.hosts|, old(hosts.cursor), i)
      ensures tried == Attempts(hosts.hosts, old(hosts.cursor), i + 1)
      ensures ok ==> Placement(accepts, vm.GetUid(), hosts.hosts, old(hosts.cursor)) == Some(i)
      ensures !ok ==> Placement(accepts, vm.GetUid(), hosts.hosts, old(hosts.cursor)).None?
      ensures ok ==> vmTable == old(vmTable)[vm.GetUid() := hosts.hosts[hosts.cursor]]
      ensures !ok ==> vmTable == old(vmTable)
    {
      var uid := vm.GetUid();
      ghost var hs := hosts.hosts;
      ghost var start := hosts.cursor;
      ghost var n := |hs|;
      ghost var p := Placement(accepts, uid, hs, start);
      i := 0;
      var h := hosts.Actual();
      tried := [h];
      ok := AllocateHostForVmOn(vm, h, accepts);
      while !ok && i <= hosts.Size()
        invariant hosts.Valid() && hosts.hosts == hs
        invariant 0 <= i <= n + 1
        invariant hosts.cursor == Pos(n, start, i)
        invariant h == Candidate(hs, start, i)
        invariant tried == Attempts(hs, start, i + 1)
        invariant p == if ok then Some(i) else Search(accepts, uid, hs, start, i + 1, LastAttempt(hs))
        invariant vmTable == if ok then old(vmTable)[uid := h.value] else old(vmTable)
        decreases n + 1 - i
      {
        hosts.IncIni();
        i := i + 1;
        h := hosts.Actual();
        assert h == Candidate(hs, start, i);
        AttemptsSnoc(hs, start, i);
        tried := tried + [h];
        ok := AllocateHostForVmOn(vm, h, accepts);
        assert ok == Hits(accepts, uid, hs, start, i);
      }
    }

    /**
     * Remove `vm` from the table. The result is the host on which
     * `vmDestroy` is invoked: the one the VM was on, or None when it was
     * not placed.
     */
    method DeallocateHostForVm(vm: Vm) returns (destroyedOn: Option<HostId>)
      modifies this`vmTable
      ensures vmTable == old(vmTable) - {vm.GetUid()}
      ensures destroyedOn.Some? <==> vm.GetUid() in old(vmTable)
      ensures destroyedOn.Some? ==> destroyedOn.value == old(vmTable)[vm.GetUid()]
      ensures GetHost(vm).None?
    {
      var uid := vm.GetUid();
      if uid in vmTable {
        destroyedOn := Some(vmTable[uid]);
      } else {
        destroyedOn := None;
      }
      vmTable := vmTable - {uid};
    }

    /** The host `vm` is placed on, or None. */
    function GetHost(vm: Vm): (h: Option<HostId>)
      reads this
      ensures h.Some? <==> vm.GetUid() in vmTable
      ensures h.Some? ==> vmTable[vm.GetUid()] == h.value
    {
      if vm.GetUid() in vmTable then Some(vmTable[vm.GetUid()]) else None
    }

    /** Lookup by ids: the same as the lookup of the VM with those ids. */
    function GetHostById(vmId: int, userId: int): (h: Option<HostId>)
      reads this
      ensures h == GetHost(Vm(vmId, userId))
      ensures h.Some? <==> Uid(userId, vmId) in vmTable
    {
      var uid := Uid(userId, vmId);
      if uid in vmTable then Some(vmTable[uid]) else None
    }

    /** This policy never proposes migrations. */
    function OptimizeAllocation(vmList: seq<Vm>): (r: Option<seq<Migration>>)
      ensures r.None?
    {
      None
    }
  }
}
