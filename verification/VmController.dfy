/** The VM controller: VM placement, host lists, suspend and resume requests. */
module VmController {
  import opened Tables
  import opened SlotMap
  import opened Migration
  import opened Controller
  import opened System

  /** An element that stays on its host keeps its slot. */
  predicate SameHostSameSlot(oldCfg: Config, newCfg: Config)
    requires |oldCfg| == |newCfg|
  {
    forall i :: 0 <= i < |oldCfg| && oldCfg[i].machine == newCfg[i].machine ==> oldCfg[i].slot == newCfg[i].slot
  }

  lemma SwapSelf<T>(t: Table<T>, n: nat, w: nat, c: Elem)
    requires Rect(t, n, w) && On(n, w, c)
    ensures Swapped(t, Swap(c, c)) == t
  {
    TableEq(Swapped(t, Swap(c, c)), t, n, w);
  }

  /** The VMs of a pool in order, two per machine. */
  function Placement(pool: seq<string>, n: nat): (r: Table<string>)
    requires |pool| >= 2 * n
    ensures Rect(r, n, 2)
    ensures forall m, s :: 0 <= m < n && 0 <= s < 2 ==> Get(r, Elem(m, s)) == pool[2 * m + s]
  {
    seq(n, m requires 0 <= m < n => [pool[2 * m], pool[2 * m + 1]])
  }

  lemma PlacementInjective(pool: seq<string>, n: nat)
    requires |pool| >= 2 * n && NoDup(pool)
    ensures Injective(Placement(pool, n), n, 2)
  {
    var t := Placement(pool, n);
    forall c, d | On(n, 2, c) && On(n, 2, d) && Get(t, c) == Get(t, d) ensures c == d {
      var i, j := 2 * c.machine + c.slot, 2 * d.machine + d.slot;
      assert Get(t, c) == pool[i] && Get(t, d) == pool[j];
      assert i == j;
    }
  }

  class VmController {
    const ctl: Controller               // the base-class part
    var vmLocations: Table<string>
    var suspended: set<string>          // effect of the suspend and resume messages
    var hostLists: seq<seq<string>>     // the -hosts list of each generated command

    ghost predicate Valid()
      reads this, ctl
    {
      && ctl.Valid() && ctl.w == 2
      && Rect(vmLocations, ctl.n, 2) && |hostLists| == |ctl.idToConfig|
    }

    // Construction followed by init(): a VM from the front of the pool is started on every slot.
    constructor (machines: nat, slotSize: nat, pool: seq<string>)
      requires |pool| >= 2 * machines
      ensures Valid() && fresh(ctl) && ctl.n == machines && ctl.slotSize == slotSize
      ensures ctl.State() == Ctl(seq(machines, _ => [None, None]), [], {})
      ensures vmLocations == Placement(pool, machines) && suspended == {} && hostLists == []
      ensures forall m, s :: 0 <= m < machines && 0 <= s < 2 ==> Get(vmLocations, Elem(m, s)) == pool[2 * m + s]
    {
      ctl := new Controller(machines, slotSize);
      vmLocations := [];
      suspended, hostLists := {}, [];
      new;
      var rest := pool;
      var m := 0;
      while m < machines
        invariant m <= machines
        invariant rest == pool[2 * m..]
        invariant vmLocations == Placement(pool, m)
        invariant suspended == {} && hostLists == []
        invariant ctl.Valid() && ctl.State() == Ctl(seq(machines, _ => [None, None]), [], {})
      {
        var slotAllocation := [];
        var slot := 0;
        while slot < 2
          invariant slot <= 2 && rest == pool[2 * m + slot..] && |slotAllocation| == slot
          invariant forall s :: 0 <= s < slot ==> slotAllocation[s] == pool[2 * m + s]
        {
          slotAllocation := slotAllocation + [rest[0]];
          rest := rest[1..];
          slot := slot + 1;
        }
        assert slotAllocation == [pool[2 * m], pool[2 * m + 1]];
        vmLocations := vmLocations + [slotAllocation];
        m := m + 1;
      }
    }

    /** Swaps the slots of job `id` with those in `newConfig`: first the VMs pair by
        pair, then usage and configs.  `ok` means that no assertion failed. */
    method UpdateConfig(id: nat, newConfig: Config) returns (ok: bool)
      requires Valid() && id in ctl.live
      requires |newConfig| == |ctl.idToConfig[id]| && AllOn(ctl.n, 2, newConfig)
      modifies this`vmLocations, ctl`machineUsage, ctl`idToConfig
      ensures Valid()
      ensures AllOn(ctl.n, 2, old(ctl.idToConfig[id]))
      ensures ok <==> SameHostSameSlot(old(ctl.idToConfig[id]), newConfig) && NoDup(newConfig)
      ensures SameHostSameSlot(old(ctl.idToConfig[id]), newConfig) ==>
                && ctl.State() == UpdateCtl(old(ctl.State()), ctl.n, 2, id, newConfig)
                && StepsOn(ctl.n, 2, Zip(old(ctl.idToConfig[id]), newConfig))
                && vmLocations == ApplySwaps(old(vmLocations), ctl.n, 2, Zip(old(ctl.idToConfig[id]), newConfig))
      ensures !SameHostSameSlot(old(ctl.idToConfig[id]), newConfig) ==>
                ctl.State() == old(ctl.State()) && vmLocations == old(vmLocations)
    {
      assert Holds(ctl.State(), ctl.n, 2, id);
      var oldConfig := ctl.idToConfig[id];
      var idx := 0;
      while idx < |newConfig|
        invariant idx <= |newConfig|
        invariant forall i :: 0 <= i < idx && oldConfig[i].machine == newConfig[i].machine ==>
                    oldConfig[i].slot == newConfig[i].slot
      {
        if oldConfig[idx].machine == newConfig[idx].machine {
          if oldConfig[idx].slot != newConfig[idx].slot { return false; }
        }
        idx := idx + 1;
      }
      SwapGuests(oldConfig, newConfig);
      ok := ctl.UpdateConfig(id, newConfig);
    }

    /** The loop over the migration results. */
    method SwapGuests(oldConfig: Config, newConfig: Config)
      requires Rect(vmLocations, ctl.n, 2)
      requires |oldConfig| == |newConfig| && AllOn(ctl.n, 2, oldConfig) && AllOn(ctl.n, 2, newConfig)
      requires SameHostSameSlot(oldConfig, newConfig)
      modifies this`vmLocations
      ensures StepsOn(ctl.n, 2, Zip(oldConfig, newConfig))
      ensures vmLocations == ApplySwaps(old(vmLocations), ctl.n, 2, Zip(oldConfig, newConfig))
    {
      ghost var z := Zip(oldConfig, newConfig);
      ZipOn(ctl.n, 2, oldConfig, newConfig);
      var idx := 0;
      while idx < |newConfig|
        invariant idx <= |newConfig| && Rect(vmLocations, ctl.n, 2)
        invariant StepsOn(ctl.n, 2, z[idx..])
        invariant ApplySwaps(vmLocations, ctl.n, 2, z[idx..]) == ApplySwaps(old(vmLocations), ctl.n, 2, z)
      {
        var src, dest := oldConfig[idx], newConfig[idx];
        assert z[idx..][0] == Swap(src, dest) && z[idx..][1..] == z[idx + 1..];
        if src.machine == dest.machine {
          SwapSelf(vmLocations, ctl.n, 2, src);
        } else {
          vmLocations := Swapped(vmLocations, Swap(src, dest));
        }
        idx := idx + 1;
      }
    }

    /** The host list of generate_command. */
    method GenerateHosts(config: Config) returns (hosts: seq<string>)
      requires Rect(vmLocations, ctl.n, 2) && AllOn(ctl.n, 2, config)
      ensures hosts == Guests(vmLocations, config)
      ensures |hosts| == |config| && forall l :: 0 <= l < |config| ==> hosts[l] == Get(vmLocations, config[l])
    {
      hosts := [];
      var i := 0;
      while i < |config|
        invariant i <= |config| && |hosts| == i
        invariant forall l :: 0 <= l < i ==> hosts[l] == Get(vmLocations, config[l])
      {
        hosts := hosts + [Get(vmLocations, config[i])];
        i := i + 1;
      }
    }

    method Execute(config: Config) returns (id: nat)
      requires Valid() && Launchable(ctl.State(), ctl.n, 2, config)
      modifies this`hostLists, ctl
      ensures Valid() && id == |old(ctl.idToConfig)|
      ensures ctl.State() == ExecuteCtl(old(ctl.State()), config)
      ensures hostLists == old(hostLists) + [Guests(vmLocations, config)]
    {
      id := ctl.Execute(config);
      var hosts := GenerateHosts(config);
      hostLists := hostLists + [hosts];
    }

    method Suspend(config: Config)
      requires Valid() && AllOn(ctl.n, 2, config)
      modifies this`suspended
      ensures suspended == old(suspended) + Domains(ctl.machineUsage, vmLocations, config)
    {
      var i := 0;
      while i < |config|
        invariant i <= |config|
        invariant suspended == old(suspended) + Domains(ctl.machineUsage, vmLocations, config[..i])
      {
        DomainsAppend(ctl.machineUsage, vmLocations, config, i);
        if Get(ctl.machineUsage, config[i]) != None {
          suspended := suspended + {Get(vmLocations, config[i])};
        }
        i := i + 1;
      }
      assert config[..i] == config;
    }

    method Resume(config: Config)
      requires Valid() && AllOn(ctl.n, 2, config)
      modifies this`suspended
      ensures suspended == old(suspended) - Domains(ctl.machineUsage, vmLocations, config)
    {
      var i := 0;
      while i < |config|
        invariant i <= |config|
        invariant suspended == old(suspended) - Domains(ctl.machineUsage, vmLocations, config[..i])
      {
        DomainsAppend(ctl.machineUsage, vmLocations, config, i);
        if Get(ctl.machineUsage, config[i]) != None {
          suspended := suspended - {Get(vmLocations, config[i])};
        }
        i := i + 1;
      }
      assert config[..i] == config;
    }
  }

  lemma DomainsAppend(usage: Table<Option<nat>>, vms: Table<string>, cfg: Config, i: nat)
    requires i < |cfg| && forall l :: 0 <= l < |cfg| ==> In(usage, cfg[l]) && In(vms, cfg[l])
    ensures Domains(usage, vms, cfg[..i + 1])
         == Domains(usage, vms, cfg[..i]) + if Get(usage, cfg[i]).Some? then {Get(vms, cfg[i])} else {}
  {
    var p, q := cfg[..i], cfg[..i + 1];
    forall v | v in Domains(usage, vms, q)
      ensures v in Domains(usage, vms, p) || (Get(usage, cfg[i]).Some? && v == Get(vms, cfg[i]))
    {
      var l :| 0 <= l < |q| && Get(usage, q[l]).Some? && Get(vms, q[l]) == v;
      if l < i { assert p[l] == q[l]; }
    }
    forall v | v in Domains(usage, vms, p) ensures v in Domains(usage, vms, q) {
      var l :| 0 <= l < |p| && Get(usage, p[l]).Some? && Get(vms, p[l]) == v;
      assert p[l] == q[l];
    }
    if Get(usage, cfg[i]).Some? {
      assert q[i] == cfg[i];
    }
  }
}
