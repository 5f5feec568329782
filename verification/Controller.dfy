/** The slot controller: the object whose methods edit machine_usage and id_to_config in place. */
module Controller {
  import opened Tables
  import opened SlotMap
  import Selection

  function Opposing(cfg: Config): (r: Config)
    ensures |r| == |cfg|
    ensures forall i :: 0 <= i < |cfg| ==> r[i] == Elem(cfg[i].machine, (cfg[i].slot + 1) % 2)
  {
    seq(|cfg|, i requires 0 <= i < |cfg| => Elem(cfg[i].machine, (cfg[i].slot + 1) % 2))
  }

  class Controller {
    const n: nat         // machines
    const w: nat         // slots per machine
    const slotSize: nat  // CPUs per slot

    var machineUsage: Table<Option<nat>>  // None: the slot is free
    var idToConfig: seq<Config>
    var cmdCounter: nat
    var live: set<nat>                    // ids whose command is running

    function State(): Ctl
      reads this
    {
      Ctl(machineUsage, idToConfig, live)
    }

    ghost predicate Valid()
      reads this
    {
      Consistent(State(), n, w) && cmdCounter == |idToConfig|
    }

    // The usage table always has two slots per machine.
    constructor (machines: nat, slotSize: nat)
      ensures Valid() && n == machines && w == 2 && this.slotSize == slotSize
      ensures State() == Ctl(seq(machines, _ => [None, None]), [], {})
    {
      n, w, this.slotSize := machines, 2, slotSize;
      machineUsage := seq(machines, _ => [None, None]);
      idToConfig, cmdCounter, live := [], 0, {};
    }

    /** The predicate of done(): every slot is free, that is, no job is live. */
    method AllSlotsFree() returns (free: bool)
      requires Valid()
      ensures free <==> live == {}
    {
      AllFreeIff(State(), n, w);
      var m := 0;
      while m < n
        invariant m <= n
        invariant forall c | On(n, w, c) && c.machine < m :: Get(machineUsage, c) == None
      {
        var s := 0;
        while s < w
          invariant s <= w
          invariant forall c | On(n, w, c) && (c.machine < m || (c.machine == m && c.slot < s)) ::
                      Get(machineUsage, c) == None
        {
          if machineUsage[m][s] != None {
            assert Get(machineUsage, Elem(m, s)).Some?;
            return false;
          }
          s := s + 1;
        }
        m := m + 1;
      }
      free := true;
    }

    /** Moves the job `id` to `newConfig` by in-place swaps.  `ok` is the closing
        assertion that the job's config became `newConfig`. */
    method UpdateConfig(id: nat, newConfig: Config) returns (ok: bool)
      requires Valid() && id in live
      requires |newConfig| == |idToConfig[id]| && AllOn(n, w, newConfig)
      modifies this`machineUsage, this`idToConfig
      ensures AllOn(n, w, old(idToConfig[id]))
      ensures State() == UpdateCtl(old(State()), n, w, id, newConfig)
      ensures Valid()
      ensures ok <==> NoDup(newConfig)
    {
      ghost var before := State();
      ghost var target := UpdateTarget(before, n, w, id, newConfig);
      var i := 0;
      while i < |newConfig|
        invariant i <= |newConfig|
        invariant Valid() && id in live
        invariant Remaining(State(), n, w, id, newConfig, i, target)
      {
        RemainingStep(State(), n, w, id, newConfig, i, target);
        MoveElement(id, newConfig[i], i);
        i := i + 1;
      }
      RemainingNone(State(), n, w, id, newConfig, target);
      UpdateReachesIff(before.configs[id], newConfig);
      ok := idToConfig[id] == newConfig;
    }

    /** One round of the swap loop: element `i` of job `id` changes places with
        whatever occupies the requested slot `nc`. */
    method MoveElement(id: nat, nc: Elem, i: nat)
      requires Valid() && id in live && i < |idToConfig[id]| && On(n, w, nc)
      modifies this`machineUsage, this`idToConfig
      ensures On(n, w, old(idToConfig[id][i]))
      ensures State() == StepCtl(old(State()), Swap(old(idToConfig[id][i]), nc))
      ensures Valid()
    {
      ghost var before := State();
      assert Holds(before, n, w, id);
      var oc := idToConfig[id][i];
      StepConsistent(before, n, w, Swap(oc, nc));
      var occupant := Get(machineUsage, nc);
      machineUsage := Swapped(machineUsage, Swap(oc, nc));
      if occupant == None {
        SwapWithFree(before, n, w, id, i, nc);
        idToConfig := idToConfig[id := idToConfig[id][i := nc]];
      } else {
        var op := occupant.value;
        var p := FindElem(idToConfig[op], nc);
        assert p < |idToConfig[op]| && idToConfig[op][p] == nc;  // the search succeeds
        SwapWithJob(before, n, w, id, i, op, p);
        idToConfig := idToConfig[op := idToConfig[op][p := oc]];
        idToConfig := idToConfig[id := idToConfig[id][i := nc]];
      }
      assert State() == StepCtl(before, Swap(oc, nc));
    }

    /** The loop of execute that claims the slots for `id`. */
    method Occupy(config: Config, id: nat)
      requires Rect(machineUsage, n, w) && AllOn(n, w, config) && NoDup(config)
      requires forall i :: 0 <= i < |config| ==> Get(machineUsage, config[i]) == None
      modifies this`machineUsage
      ensures machineUsage == Fill(old(machineUsage), config, Some(id))
    {
      var i := 0;
      while i < |config|
        invariant i <= |config|
        invariant Rect(machineUsage, n, w)
        invariant Fill(machineUsage, config[i..], Some(id)) == Fill(old(machineUsage), config, Some(id))
        invariant forall l :: i <= l < |config| ==> Get(machineUsage, config[l]) == None
      {
        assert Get(machineUsage, config[i]) == None;  // the assertion in the loop of execute
        assert config[i..][0] == config[i] && config[i..][1..] == config[i + 1..];
        machineUsage := Put(machineUsage, config[i], Some(id));
        i := i + 1;
      }
      assert config[i..] == [];
    }

    /** The cleanup loop of a completed command. */
    method Release(config: Config)
      requires Rect(machineUsage, n, w) && AllOn(n, w, config) && NoDup(config)
      requires forall i :: 0 <= i < |config| ==> Get(machineUsage, config[i]) != None
      modifies this`machineUsage
      ensures machineUsage == Fill(old(machineUsage), config, None)
    {
      var i := 0;
      while i < |config|
        invariant i <= |config|
        invariant Rect(machineUsage, n, w)
        invariant Fill(machineUsage, config[i..], None) == Fill(old(machineUsage), config, None)
        invariant forall l :: i <= l < |config| ==> Get(machineUsage, config[l]) != None
      {
        assert Get(machineUsage, config[i]) != None;  // the assertion in the cleanup loop
        assert config[i..][0] == config[i] && config[i..][1..] == config[i + 1..];
        machineUsage := Put(machineUsage, config[i], None);
        i := i + 1;
      }
      assert config[i..] == [];
    }

    /** Launches a job on `config`: all its slots must be free. */
    method Execute(config: Config) returns (id: nat)
      requires Valid() && Launchable(State(), n, w, config)
      modifies this
      ensures Valid() && id == old(cmdCounter)
      ensures State() == ExecuteCtl(old(State()), config)
    {
      ExecuteConsistent(State(), n, w, config);
      Occupy(config, cmdCounter);
      idToConfig := idToConfig + [config];
      live := live + {cmdCounter};
      id := cmdCounter;
      cmdCounter := cmdCounter + 1;
      assert State() == ExecuteCtl(old(State()), config);
    }

    /** The locked section at the end of a command: frees the slots of the job's current config. */
    method Complete(id: nat)
      requires Valid() && id in live
      modifies this`machineUsage, this`live
      ensures Holds(old(State()), n, w, id)
      ensures Valid() && State() == CompleteCtl(old(State()), id)
    {
      CompleteConsistent(State(), n, w, id);
      Release(idToConfig[id]);
      live := live - {id};
      assert State() == CompleteCtl(old(State()), id);
    }
  }

  /** The search for the occupant's entry. */
  method FindElem(cfg: Config, c: Elem) returns (p: nat)
    ensures c in cfg ==> p < |cfg| && cfg[p] == c
  {
    p := 0;
    while p < |cfg|
      invariant p <= |cfg| && c !in cfg[..p]
    {
      if cfg[p] == c { return; }
      p := p + 1;
    }
    assert cfg[..p] == cfg;
  }

  /** From `k` on, rounds `i`, `i + 1`, ... of the swap loop lead to `target`. */
  ghost predicate Remaining(k: Ctl, n: nat, w: nat, id: nat, newConfig: Config, i: nat, target: Ctl) {
    && Rect(k.usage, n, w) && id < |k.configs| && i <= |newConfig| == |k.configs[id]|
    && StepsOn(n, w, UpdateSteps(k.configs[id], newConfig, i))
    && MoveCtl(k, n, w, UpdateSteps(k.configs[id], newConfig, i)) == target
  }

  lemma UpdateTarget(k: Ctl, n: nat, w: nat, id: nat, newConfig: Config) returns (target: Ctl)
    requires Consistent(k, n, w) && id in k.live
    requires |newConfig| == |k.configs[id]| && AllOn(n, w, newConfig)
    ensures AllOn(n, w, k.configs[id]) && NoDup(k.configs[id])
    ensures target == UpdateCtl(k, n, w, id, newConfig)
    ensures target.configs[id] == Moved(k.configs[id], UpdateSteps(k.configs[id], newConfig, 0))
    ensures Remaining(k, n, w, id, newConfig, 0, target)
  {
    assert Holds(k, n, w, id);
    UpdateStepsOn(n, w, k.configs[id], newConfig, 0);
    target := UpdateCtl(k, n, w, id, newConfig);
  }

  lemma RemainingStep(k: Ctl, n: nat, w: nat, id: nat, newConfig: Config, i: nat, target: Ctl)
    requires Remaining(k, n, w, id, newConfig, i, target) && i < |newConfig| && id in k.live
    ensures On(n, w, newConfig[i]) && On(n, w, k.configs[id][i])
    ensures Remaining(StepCtl(k, Swap(k.configs[id][i], newConfig[i])), n, w, id, newConfig, i + 1, target)
  {
    var s := Swap(k.configs[id][i], newConfig[i]);
    var steps := UpdateSteps(k.configs[id], newConfig, i);
    assert steps[0] == s;
    MoveUnfold(k, n, w, s, UpdateSteps(Relabel(k.configs[id], s), newConfig, i + 1));
  }

  lemma RemainingNone(k: Ctl, n: nat, w: nat, id: nat, newConfig: Config, target: Ctl)
    requires Remaining(k, n, w, id, newConfig, |newConfig|, target)
    ensures k == target
  {
    MoveNothing(k, n, w);
  }

  lemma MoveNothing(k: Ctl, n: nat, w: nat)
    requires Rect(k.usage, n, w)
    ensures MoveCtl(k, n, w, []) == k
  {
    var r := MoveLive(k.configs, k.live, []);
    forall j | 0 <= j < |r| ensures r[j] == k.configs[j] {
      assert forall i :: 0 <= i < |r[j]| ==> r[j][i] == k.configs[j][i];
    }
    assert r == k.configs;
  }

  lemma StepConsistent(k: Ctl, n: nat, w: nat, s: Swap)
    requires Consistent(k, n, w) && On(n, w, s.a) && On(n, w, s.b)
    ensures Consistent(StepCtl(k, s), n, w)
  {
    MoveUnfold(k, n, w, s, []);
    MoveNothing(StepCtl(k, s), n, w);
    MoveConsistent(k, n, w, [s] + []);
  }

  /** Only the config of `id` mentions the slots when the requested one is free. */
  lemma SwapWithFree(k: Ctl, n: nat, w: nat, id: nat, i: nat, nc: Elem)
    requires Consistent(k, n, w) && id in k.live && i < |k.configs[id]|
    requires On(n, w, nc) && Get(k.usage, nc) == None
    ensures var s := Swap(k.configs[id][i], nc);
            k.configs[id := k.configs[id][i := nc]] == RelabelLive(k.configs, k.live, s)
  {
    var s := Swap(k.configs[id][i], nc);
    var l, r := k.configs[id := k.configs[id][i := nc]], RelabelLive(k.configs, k.live, s);
    assert Holds(k, n, w, id);
    forall j | 0 <= j < |l| ensures l[j] == r[j] {
      if j in k.live {
        assert Holds(k, n, w, j);
        forall p | 0 <= p < |k.configs[j]| ensures l[j][p] == r[j][p] {
          assert Get(k.usage, k.configs[j][p]) == Some(j);
        }
      }
    }
  }

  /** With an occupant, the two entries change places; the occupant may be `id` itself. */
  lemma SwapWithJob(k: Ctl, n: nat, w: nat, id: nat, i: nat, op: nat, p: nat)
    requires Consistent(k, n, w) && id in k.live && i < |k.configs[id]|
    requires op in k.live && p < |k.configs[op]|
    ensures var oc, nc := k.configs[id][i], k.configs[op][p];
            var first := k.configs[op := k.configs[op][p := oc]];
            first[id := first[id][i := nc]] == RelabelLive(k.configs, k.live, Swap(oc, nc))
  {
    var oc, nc := k.configs[id][i], k.configs[op][p];
    var first := k.configs[op := k.configs[op][p := oc]];
    var l, r := first[id := first[id][i := nc]], RelabelLive(k.configs, k.live, Swap(oc, nc));
    forall j | 0 <= j < |l| ensures l[j] == r[j] {
      if j in k.live {
        SwapOne(k, n, w, id, i, op, p, j);
      }
    }
  }

  lemma SwapOne(k: Ctl, n: nat, w: nat, id: nat, i: nat, op: nat, p: nat, j: nat)
    requires Consistent(k, n, w) && id in k.live && i < |k.configs[id]|
    requires op in k.live && p < |k.configs[op]| && j in k.live
    ensures var oc, nc := k.configs[id][i], k.configs[op][p];
            var mid := if j == op then k.configs[j][p := oc] else k.configs[j];
            (if j == id then mid[i := nc] else mid) == Relabel(k.configs[j], Swap(oc, nc))
  {
    assert Holds(k, n, w, id) && Holds(k, n, w, op) && Holds(k, n, w, j);
    assert Get(k.usage, k.configs[id][i]) == Some(id) && Get(k.usage, k.configs[op][p]) == Some(op);
    forall q | 0 <= q < |k.configs[j]| ensures Get(k.usage, k.configs[j][q]) == Some(j) {
    }
  }
}
