/** The multi-app scheduler as an object that edits the bandwidth table in place. */
module Scheduler {
  import opened Tables
  import opened SlotMap
  import opened Migration
  import opened Bandwidth
  import opened Rebalance
  import opened UpdateAsserts
  import opened Rejection
  import opened Sorting

  datatype PlanResult = NoCandidates | Violated | Planned(config: Config)

  lemma PlanNeedsMachines(util: Util, n: nat, oldCfg: Config, ms: seq<nat>, cands: seq<nat>, k: nat)
    requires PlanInput(util, n, oldCfg, ms, cands) && k < |ms|
    ensures ms[k] < |util| && cands[k] < |util| && Uses(oldCfg, ms[k]) && SlotOn(oldCfg, ms[k]) < 2
    ensures Target(util, n, oldCfg, ms, cands, Elem(ms[k], 0))
         == Elem(cands[k], PickSlot(util, ms[k], SlotOn(oldCfg, ms[k]), cands[k]))
  {
    var i := ElemOfMarked(util, n, oldCfg, ms, cands, k);
  }

  /** `target` is the planned slot for the k-th marked machine, and its assertions hold. */
  predicate Paired(util: Util, n: nat, oldCfg: Config, ms: seq<nat>, cands: seq<nat>, target: Elem, k: nat)
    requires PlanInput(util, n, oldCfg, ms, cands) && k < |ms|
  {
    PlanNeedsMachines(util, n, oldCfg, ms, cands, k);
    target == Target(util, n, oldCfg, ms, cands, Elem(ms[k], 0)) && GuardOk(util, oldCfg, ms[k], cands[k])
  }

  /** What is left of the full bandwidth is not available to the measuring program. */
  function LoadsFrom(results: seq<real>): (r: seq<real>)
    ensures |r| == |results| && forall i :: 0 <= i < |r| ==> r[i] == 1.0 - results[i]
  {
    seq(|results|, i requires 0 <= i < |results| => 1.0 - results[i])
  }

  /** The marked machines among the elements from `i` on. */
  function MarkedFrom(util: Util, n: nat, config: Config, i: nat): seq<nat>
    requires Rect(util, n, 2) && AllOn(n, 2, config) && i <= |config|
  {
    Marked(util, config[i..])
  }

  lemma MarkedStep(util: Util, n: nat, config: Config, i: nat, before: seq<nat>)
    requires Rect(util, n, 2) && AllOn(n, 2, config) && i < |config|
    requires before + MarkedFrom(util, n, config, i) == Marked(util, config)
    ensures (if Total(util, config[i].machine) > TH then before + [config[i].machine] else before)
            + MarkedFrom(util, n, config, i + 1) == Marked(util, config)
  {
    assert config[i..][1..] == config[i + 1..];
  }

  lemma MarkedEnds(util: Util, n: nat, config: Config)
    requires Rect(util, n, 2) && AllOn(n, 2, config)
    ensures MarkedFrom(util, n, config, 0) == Marked(util, config) && MarkedFrom(util, n, config, |config|) == []
  {
    assert config[0..] == config;
  }

  /** The table after the first `idx` swaps. */
  function After(util: Util, n: nat, z: seq<Swap>, idx: nat): (r: Util)
    requires Rect(util, n, 2) && StepsOn(n, 2, z) && idx <= |z|
    ensures Rect(r, n, 2)
  {
    ApplySwaps(util, n, 2, z[..idx])
  }

  lemma AfterStep(util: Util, n: nat, z: seq<Swap>, idx: nat)
    requires Rect(util, n, 2) && StepsOn(n, 2, z) && idx < |z|
    ensures After(util, n, z, idx + 1) == Swapped(After(util, n, z, idx), z[idx])
    ensures AssertAt(util, n, z, idx) <==>
              Total(After(util, n, z, idx + 1), z[idx].a.machine) < TH
              && Total(After(util, n, z, idx + 1), z[idx].b.machine) < TH
  {
    assert z[..idx + 1] == z[..idx] + [z[idx]];
    ApplyAppend(util, n, 2, z[..idx], [z[idx]]);
    ApplyOne(After(util, n, z, idx), n, z[idx]);
  }

  lemma AfterEnds(util: Util, n: nat, z: seq<Swap>)
    requires Rect(util, n, 2) && StepsOn(n, 2, z)
    ensures After(util, n, z, 0) == util && After(util, n, z, |z|) == ApplySwaps(util, n, 2, z)
  {
    assert z[..|z|] == z;
  }

  class MultiAppScheduler {
    const n: nat
    var membwUtil: Util

    ghost predicate Valid()
      reads this
    {
      Rect(membwUtil, n, 2)
    }

    constructor (machines: nat)
      ensures Valid() && n == machines && membwUtil == seq(machines, _ => [0.0, 0.0])
    {
      n := machines;
      membwUtil := seq(machines, _ => [0.0, 0.0]);
    }

    method MembwUtilOfNode(idx: nat) returns (total: real)
      requires Valid() && idx < n
      ensures total == Total(membwUtil, idx)
    {
      total := 0.0;
      var slot := 0;
      while slot < 2
        invariant slot <= 2
        invariant total == if slot == 0 then 0.0 else if slot == 1 then membwUtil[idx][0] else Total(membwUtil, idx)
      {
        total := total + membwUtil[idx][slot];
        slot := slot + 1;
      }
    }

    /** Marks the machines of `config` above the threshold. */
    method CheckMembw(config: Config) returns (marked: seq<nat>)
      requires Valid() && AllOn(n, 2, config)
      ensures marked == Marked(membwUtil, config)
      ensures forall m: nat :: m in marked <==> m < n && Uses(config, m) && Total(membwUtil, m) > TH
    {
      marked := [];
      MarkedEnds(membwUtil, n, config);
      var i := 0;
      while i < |config|
        invariant i <= |config|
        invariant marked + MarkedFrom(membwUtil, n, config, i) == Marked(membwUtil, config)
      {
        var membw := MembwUtilOfNode(config[i].machine);
        MarkedStep(membwUtil, n, config, i, marked);
        if membw > TH {
          marked := marked + [config[i].machine];
        }
        i := i + 1;
      }
    }

    method SortMachines(machines: seq<nat>, reverse: bool) returns (sorted: seq<nat>)
      requires Valid() && Machines(n, machines)
      ensures IsSort(membwUtil, n, machines, sorted, reverse) && Machines(n, sorted)
    {
      SortByIsSort(membwUtil, n, machines, reverse);
      sorted := SortBy(membwUtil, n, machines, reverse);
    }

    /** The N lightest machines, if their load and that of the N marked ones leave room. */
    method FindSwapCandidates(marked: seq<nat>) returns (candidates: seq<nat>, ghost cs: seq<nat>)
      requires Valid() && Machines(n, marked) && |marked| <= n
      ensures IsSort(membwUtil, n, seq(n, i => i), cs, false) && Machines(n, cs) && |cs| == n
      ensures candidates == Candidates(membwUtil, n, marked, cs)
      ensures candidates == []
         <==> SumOf(membwUtil, n, marked) + SumOf(membwUtil, n, cs[..|marked|]) >= 2.0 * TH * |marked| as real
      ensures candidates != [] ==> candidates == cs[..|marked|]
      ensures Machines(n, candidates) && NoDup(candidates) && (candidates == [] || |candidates| == |marked|)
      ensures forall m, k :: 0 <= m < n && m !in candidates && 0 <= k < |candidates| ==>
                Total(membwUtil, candidates[k]) <= Total(membwUtil, m)
    {
      var all := seq(n, i => i);
      var swapCandidates := SortMachines(all, false);
      cs := swapCandidates;
      PermFacts(all, swapCandidates);
      var total := 0.0;
      var idx := 0;
      while idx < |marked|
        invariant idx <= |marked|
        invariant Machines(n, marked[..idx]) && Machines(n, cs[..idx])
        invariant total == SumOf(membwUtil, n, marked[..idx]) + SumOf(membwUtil, n, cs[..idx])
      {
        assert marked[..idx + 1] == marked[..idx] + [marked[idx]] && cs[..idx + 1] == cs[..idx] + [cs[idx]];
        SumAppend(membwUtil, n, marked[..idx], [marked[idx]]);
        SumAppend(membwUtil, n, cs[..idx], [cs[idx]]);
        var a := MembwUtilOfNode(marked[idx]);
        var b := MembwUtilOfNode(swapCandidates[idx]);
        total := total + a;
        total := total + b;
        idx := idx + 1;
      }
      assert marked[..idx] == marked;
      if total < TH * |marked| as real * 2.0 {
        candidates := swapCandidates[..|marked|];
      } else {
        candidates := [];
      }
      CandidatesLightest(membwUtil, n, all, marked, cs);
      CandidatesIff(membwUtil, n, marked, cs);
    }

    /** The first slot of `config` on machine `m`. */
    method FindSlot(config: Config, m: nat) returns (slot: nat)
      requires Uses(config, m)
      ensures slot == SlotOn(config, m)
    {
      var i := 0;
      while config[i].machine != m
        invariant i < |config| && Uses(config[i..], m) && SlotOn(config[i..], m) == SlotOn(config, m)
        decreases |config| - i
      {
        assert config[i..][1..] == config[i + 1..];
        assert SlotOn(config[i..], m) == SlotOn(config[i + 1..], m);
        i := i + 1;
      }
      slot := config[i].slot;
    }

    /** The new slot for the element on `oldMach`; `ok` means that both assertions on the pair hold. */
    method PlanPair(oldConfig: Config, oldMach: nat, newMach: nat) returns (ok: bool, target: Elem)
      requires Valid() && oldMach < n && newMach < n && Uses(oldConfig, oldMach) && SlotOn(oldConfig, oldMach) < 2
      ensures ok <==> GuardOk(membwUtil, oldConfig, oldMach, newMach)
      ensures target == Elem(newMach, PickSlot(membwUtil, oldMach, SlotOn(oldConfig, oldMach), newMach))
      ensures target.machine == newMach && SlotRule(membwUtil, Elem(oldMach, SlotOn(oldConfig, oldMach)), target)
      ensures oldMach != newMach ==>
                (ok <==> PairFits(membwUtil, n, Elem(oldMach, SlotOn(oldConfig, oldMach)), target))
    {
      if oldMach != newMach {
        GuardIff(membwUtil, n, oldConfig, oldMach, newMach);
      }
      var oldSlot := FindSlot(oldConfig, oldMach);
      var newSlot: nat;
      if membwUtil[oldMach][oldSlot] < membwUtil[oldMach][Other(oldSlot)] {
        newSlot := MaxSlot(membwUtil[newMach]);
      } else {
        newSlot := MinSlot(membwUtil[newMach]);
      }
      ok := membwUtil[oldMach][Other(oldSlot)] + membwUtil[newMach][newSlot] < TH
            && membwUtil[newMach][Other(newSlot)] + membwUtil[oldMach][oldSlot] < TH;
      target := Elem(newMach, newSlot);
    }

    /** The loop over the pairs of marked machine and candidate. */
    method PlanPairs(oldConfig: Config, sorted: seq<nat>, candidates: seq<nat>) returns (ok: bool, newSorted: Config)
      requires Valid() && PlanInput(membwUtil, n, oldConfig, sorted, candidates)
      ensures ok <==> GuardsOk(membwUtil, n, oldConfig, sorted, candidates)
      ensures ok ==> |newSorted| == |sorted|
      ensures ok ==> forall k :: 0 <= k < |sorted| ==>
                newSorted[k] == Target(membwUtil, n, oldConfig, sorted, candidates, Elem(sorted[k], 0))
    {
      newSorted := [];
      var idx := 0;
      while idx < |sorted|
        invariant idx <= |sorted| && |newSorted| == idx
        invariant forall k :: 0 <= k < idx ==> Paired(membwUtil, n, oldConfig, sorted, candidates, newSorted[k], k)
      {
        PlanNeedsMachines(membwUtil, n, oldConfig, sorted, candidates, idx);
        var pairOk, target := PlanPair(oldConfig, sorted[idx], candidates[idx]);
        if !pairOk {
          assert !GuardOk(membwUtil, oldConfig, sorted[idx], candidates[idx]);
          return false, newSorted;
        }
        assert Paired(membwUtil, n, oldConfig, sorted, candidates, target, idx);
        newSorted := newSorted + [target];
        idx := idx + 1;
      }
      forall k | 0 <= k < |sorted| ensures GuardOk(membwUtil, oldConfig, sorted[k], candidates[k]) {
        assert Paired(membwUtil, n, oldConfig, sorted, candidates, newSorted[k], k);
      }
      ok := true;
    }

    /** The planned config, or `Violated` when an assertion on one of the pairs fails. */
    method GenerateNewConfig(oldConfig: Config, marked: seq<nat>, candidates: seq<nat>)
      returns (result: PlanResult, ghost ms: seq<nat>)
      requires Valid() && Machines(n, marked)
      requires candidates != [] ==>
                 forall ms :: IsSort(membwUtil, n, marked, ms, true) ==>
                   PlanInput(membwUtil, n, oldConfig, ms, candidates)
      ensures IsSort(membwUtil, n, marked, ms, true)
      ensures result == NoCandidates <==> candidates == []
      ensures candidates != [] ==>
                && PlanInput(membwUtil, n, oldConfig, ms, candidates)
                && (result == Violated <==> !GuardsOk(membwUtil, n, oldConfig, ms, candidates))
                && (result == Violated <==> !AllFit(membwUtil, n, oldConfig, ms, candidates))
                && (result.Planned? ==> result.config == Scatter(membwUtil, n, oldConfig, ms, candidates))
      ensures result.Planned? ==>
                && |result.config| == |oldConfig| && AllOn(n, 2, oldConfig) && AllOn(n, 2, result.config)
                && forall i :: 0 <= i < |oldConfig| && result.config[i] != oldConfig[i] ==>
                     && SlotRule(membwUtil, oldConfig[i], result.config[i])
                     && PairFits(membwUtil, n, oldConfig[i], result.config[i])
      ensures result.Planned? && Ordered(membwUtil, n, candidates, false) ==>
                && |result.config| == |oldConfig| && AllOn(n, 2, result.config)
                && HeavyToLight(membwUtil, n, oldConfig, result.config)
    {
      var sorted := SortMachines(marked, true);
      ms := sorted;
      if candidates == [] {
        return NoCandidates, ms;
      }
      GuardsIff(membwUtil, n, oldConfig, sorted, candidates);
      var ok, newSorted := PlanPairs(oldConfig, sorted, candidates);
      if !ok {
        return Violated, ms;
      }
      var newConfig := ScatterBack(oldConfig, sorted, newSorted, candidates);
      result := Planned(newConfig);
      forall i | 0 <= i < |oldConfig|
        ensures On(n, 2, newConfig[i])
        ensures newConfig[i] != oldConfig[i] ==>
                  SlotRule(membwUtil, oldConfig[i], newConfig[i]) && PairFits(membwUtil, n, oldConfig[i], newConfig[i])
      {
        PlanRule(membwUtil, n, oldConfig, sorted, candidates, i);
      }
      if Ordered(membwUtil, n, candidates, false) {
        SortIsOrdered(membwUtil, n, marked, sorted, true);
        PlanOrder(membwUtil, n, oldConfig, sorted, candidates);
      }
    }

    /** The last loop: targets back into the order of the old config. */
    method ScatterBack(oldConfig: Config, sorted: seq<nat>, newSorted: Config, ghost candidates: seq<nat>)
      returns (newConfig: Config)
      requires PlanInput(membwUtil, n, oldConfig, sorted, candidates) && |newSorted| == |sorted|
      requires forall k :: 0 <= k < |sorted| ==>
                 newSorted[k] == Target(membwUtil, n, oldConfig, sorted, candidates, Elem(sorted[k], 0))
      ensures newConfig == Scatter(membwUtil, n, oldConfig, sorted, candidates)
    {
      newConfig := [];
      var i := 0;
      while i < |oldConfig|
        invariant i <= |oldConfig| && |newConfig| == i
        invariant forall l :: 0 <= l < i ==>
                    newConfig[l] == Target(membwUtil, n, oldConfig, sorted, candidates, oldConfig[l])
      {
        if oldConfig[i].machine in sorted {
          newConfig := newConfig + [newSorted[IndexOf(sorted, oldConfig[i].machine)]];
        } else {
          newConfig := newConfig + [oldConfig[i]];
        }
        i := i + 1;
      }
    }

    /** Swaps the loads pair by pair; `ok` means that all assertions held. */
    method UpdateMembwUtil(oldConfig: Config, newConfig: Config) returns (ok: bool)
      requires Valid() && |oldConfig| == |newConfig| && AllOn(n, 2, oldConfig) && AllOn(n, 2, newConfig)
      modifies this`membwUtil
      ensures Valid() && StepsOn(n, 2, Zip(oldConfig, newConfig))
      ensures ok <==> AssertsPass(old(membwUtil), n, Zip(oldConfig, newConfig))
      ensures ok ==> membwUtil == ApplySwaps(old(membwUtil), n, 2, Zip(oldConfig, newConfig))
    {
      ghost var z := Zip(oldConfig, newConfig);
      ZipOn(n, 2, oldConfig, newConfig);
      AfterEnds(membwUtil, n, z);
      var idx := 0;
      while idx < |newConfig|
        invariant idx <= |newConfig| && Valid()
        invariant membwUtil == After(old(membwUtil), n, z, idx)
        invariant forall l :: 0 <= l < idx ==> AssertAt(old(membwUtil), n, z, l)
      {
        var s := Swap(oldConfig[idx], newConfig[idx]);
        AfterStep(old(membwUtil), n, z, idx);
        membwUtil := Swapped(membwUtil, s);
        var a := MembwUtilOfNode(oldConfig[idx].machine);
        var b := MembwUtilOfNode(newConfig[idx].machine);
        if a >= TH || b >= TH { return false; }
        idx := idx + 1;
      }
      ok := true;
    }

    /** Clears the loads of a completed command's slots. */
    method CommandDone(config: Config)
      requires Valid() && AllOn(n, 2, config)
      modifies this`membwUtil
      ensures Valid() && membwUtil == Fill(old(membwUtil), config, 0.0)
    {
      var i := 0;
      while i < |config|
        invariant i <= |config| && Valid()
        invariant Fill(membwUtil, config[i..], 0.0) == Fill(old(membwUtil), config, 0.0)
      {
        assert config[i..][0] == config[i] && config[i..][1..] == config[i + 1..];
        membwUtil := Put(membwUtil, config[i], 0.0);
        i := i + 1;
      }
      assert config[i..] == [];
    }

    /** Records the loads that the measured results imply; the slots of a new job carry none before. */
    method Record(config: Config, results: seq<real>)
      requires Valid() && AllOn(n, 2, config) && NoDup(config) && |results| == |config|
      requires forall i :: 0 <= i < |config| ==> Get(membwUtil, config[i]) == 0.0
      modifies this`membwUtil
      ensures Valid() && membwUtil == Write(old(membwUtil), config, LoadsFrom(results))
    {
      ghost var loads := LoadsFrom(results);
      var i := 0;
      assert config[0..] == config && loads[0..] == loads;
      while i < |config|
        invariant i <= |config| && Valid()
        invariant Write(membwUtil, config[i..], loads[i..]) == Write(old(membwUtil), config, loads)
        invariant forall l :: i <= l < |config| ==> Get(membwUtil, config[l]) == 0.0
      {
        assert Get(membwUtil, config[i]) == 0.0;  // the assertion before a load is recorded
        WriteNext(membwUtil, n, config, loads, i);
        membwUtil := Put(membwUtil, config[i], 1.0 - results[i]);
        i := i + 1;
      }
      assert config[i..] == [];
    }
  }

  lemma WriteNext(t: Util, n: nat, config: Config, loads: seq<real>, i: nat)
    requires Rect(t, n, 2) && AllOn(n, 2, config) && |loads| == |config| && i < |config|
    ensures Write(t, config[i..], loads[i..]) == Write(Put(t, config[i], loads[i]), config[i + 1..], loads[i + 1..])
  {
    assert config[i..][0] == config[i] && config[i..][1..] == config[i + 1..];
    assert loads[i..][0] == loads[i] && loads[i..][1..] == loads[i + 1..];
  }

  lemma ApplyOne(t: Util, n: nat, s: Swap)
    requires Rect(t, n, 2) && On(n, 2, s.a) && On(n, 2, s.b)
    ensures ApplySwaps(t, n, 2, [s]) == Swapped(t, s)
  {
    assert [s][1..] == [];
  }
}
