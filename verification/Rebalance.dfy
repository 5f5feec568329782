/** What a planned migration does to the bandwidth table. */
module Rebalance {
  import opened Tables
  import opened SlotMap
  import opened Migration
  import opened Bandwidth
  import opened Sorting

  /** A plan whose assertions all hold. */
  ghost predicate GoodPlan(util: Util, n: nat, oldCfg: Config, ms: seq<nat>, cands: seq<nat>) {
    && PlanInput(util, n, oldCfg, ms, cands)
    && GuardsOk(util, n, oldCfg, ms, cands)
    && NoDup(Scatter(util, n, oldCfg, ms, cands))
  }

  // ----- pairwise swaps whose targets lie outside the old config

  lemma ZipForward(oldCfg: Config, newCfg: Config, i: nat)
    requires |oldCfg| == |newCfg| && NoDup(oldCfg) && NoDup(newCfg) && MovesOutside(oldCfg, newCfg) && i < |oldCfg|
    ensures Carry(Zip(oldCfg, newCfg), oldCfg[i]) == newCfg[i]
  {
    ZipIsUpdate(oldCfg, newCfg, oldCfg, 0);
    assert Zip(oldCfg, newCfg)[0..] == Zip(oldCfg, newCfg);
    UpdateReaches(oldCfg, newCfg, 0);
    assert Moved(oldCfg, Zip(oldCfg, newCfg))[i] == newCfg[i];
  }

  lemma ZipBack(oldCfg: Config, newCfg: Config, i: nat)
    requires |oldCfg| == |newCfg| && NoDup(oldCfg) && NoDup(newCfg) && MovesOutside(oldCfg, newCfg) && i < |oldCfg|
    ensures Carry(Zip(oldCfg, newCfg), newCfg[i]) == oldCfg[i]
  {
    var z := Zip(oldCfg, newCfg);
    CarryAround(z, i, newCfg[i]);
    forall l | 0 <= l < |oldCfg| && l != i ensures oldCfg[l] != newCfg[i] && newCfg[l] != oldCfg[i] {
      OthersApart(oldCfg, newCfg, i, l);
    }
    CarryUntouched(z[..i], newCfg[i]);
    CarryUntouched(z[i + 1..], oldCfg[i]);
  }

  lemma OthersApart(oldCfg: Config, newCfg: Config, i: nat, l: nat)
    requires |oldCfg| == |newCfg| && NoDup(oldCfg) && NoDup(newCfg) && MovesOutside(oldCfg, newCfg)
    requires i < |oldCfg| && l < |oldCfg| && l != i
    ensures oldCfg[l] != newCfg[i] && newCfg[l] != oldCfg[i]
  {
    assert oldCfg[l] in oldCfg && oldCfg[i] in oldCfg;
    assert oldCfg[l] != oldCfg[i] && newCfg[l] != newCfg[i];
  }

  lemma ZipElsewhere(oldCfg: Config, newCfg: Config, c: Elem)
    requires |oldCfg| == |newCfg| && c !in oldCfg && c !in newCfg
    ensures Carry(Zip(oldCfg, newCfg), c) == c
  {
    CarryUntouched(Zip(oldCfg, newCfg), c);
  }

  function AfterPlan(util: Util, n: nat, oldCfg: Config, ms: seq<nat>, cands: seq<nat>): (r: Util)
    requires GoodPlan(util, n, oldCfg, ms, cands)
    ensures Rect(r, n, 2)
  {
    PlanOn(util, n, oldCfg, ms, cands);
    ApplySwaps(util, n, 2, Zip(oldCfg, Scatter(util, n, oldCfg, ms, cands)))
  }

  lemma PlanOn(util: Util, n: nat, oldCfg: Config, ms: seq<nat>, cands: seq<nat>)
    requires PlanInput(util, n, oldCfg, ms, cands) && GuardsOk(util, n, oldCfg, ms, cands)
    ensures AllOn(n, 2, Scatter(util, n, oldCfg, ms, cands))
    ensures StepsOn(n, 2, Zip(oldCfg, Scatter(util, n, oldCfg, ms, cands)))
  {
    forall i | 0 <= i < |oldCfg| ensures On(n, 2, Scatter(util, n, oldCfg, ms, cands)[i]) {
      PlanStructure(util, n, oldCfg, ms, cands, i);
    }
  }

  /** The plan exchanges the load of each old slot with the load of its target. */
  lemma PlanExchanges(util: Util, n: nat, oldCfg: Config, ms: seq<nat>, cands: seq<nat>, i: nat)
    requires GoodPlan(util, n, oldCfg, ms, cands) && i < |oldCfg|
    ensures var r := Scatter(util, n, oldCfg, ms, cands);
            && On(n, 2, r[i])
            && Get(AfterPlan(util, n, oldCfg, ms, cands), r[i]) == Get(util, oldCfg[i])
            && Get(AfterPlan(util, n, oldCfg, ms, cands), oldCfg[i]) == Get(util, r[i])
  {
    var r := Scatter(util, n, oldCfg, ms, cands);
    PlanOn(util, n, oldCfg, ms, cands);
    PlanOutside(util, n, oldCfg, ms, cands);
    ZipForward(oldCfg, r, i);
    ZipBack(oldCfg, r, i);
    ApplyCarry(util, n, 2, Zip(oldCfg, r), oldCfg[i]);
    ApplyCarry(util, n, 2, Zip(oldCfg, r), r[i]);
  }

  lemma PlanKeeps(util: Util, n: nat, oldCfg: Config, ms: seq<nat>, cands: seq<nat>, c: Elem)
    requires GoodPlan(util, n, oldCfg, ms, cands) && On(n, 2, c)
    requires c !in oldCfg && c !in Scatter(util, n, oldCfg, ms, cands)
    ensures Get(AfterPlan(util, n, oldCfg, ms, cands), c) == Get(util, c)
  {
    PlanOn(util, n, oldCfg, ms, cands);
    ZipElsewhere(oldCfg, Scatter(util, n, oldCfg, ms, cands), c);
    ApplyCarry(util, n, 2, Zip(oldCfg, Scatter(util, n, oldCfg, ms, cands)), c);
  }

  /** A slot that no moved element leaves or enters keeps its load. */
  lemma PlanKeepsUnmoved(util: Util, n: nat, oldCfg: Config, ms: seq<nat>, cands: seq<nat>, c: Elem)
    requires GoodPlan(util, n, oldCfg, ms, cands) && On(n, 2, c)
    requires forall i :: 0 <= i < |oldCfg| && oldCfg[i] == c ==> Scatter(util, n, oldCfg, ms, cands)[i] == c
    requires forall i :: 0 <= i < |oldCfg| && Scatter(util, n, oldCfg, ms, cands)[i] == c ==> oldCfg[i] == c
    ensures Get(AfterPlan(util, n, oldCfg, ms, cands), c) == Get(util, c)
  {
    if c in oldCfg {
      PlanExchanges(util, n, oldCfg, ms, cands, IndexOf(oldCfg, c));
    } else {
      PlanKeeps(util, n, oldCfg, ms, cands, c);
    }
  }

  lemma TotalOf(util: Util, n: nat, m: nat, s: nat)
    requires Rect(util, n, 2) && m < n && s < 2
    ensures Total(util, m) == Get(util, Elem(m, s)) + Get(util, Elem(m, Other(s)))
  {
    assert s == 0 || s == 1;
  }

  /** The k-th pair's machines end up with exactly the loads that the assertions tested. */
  lemma PlanTotals(util: Util, n: nat, oldCfg: Config, ms: seq<nat>, cands: seq<nat>, k: nat)
    requires GoodPlan(util, n, oldCfg, ms, cands) && k < |ms|
    ensures var os := SlotOn(oldCfg, ms[k]);
            var ns := PickSlot(util, ms[k], os, cands[k]);
            var u := AfterPlan(util, n, oldCfg, ms, cands);
            && Total(u, ms[k]) == OldAfter(util, ms[k], os, cands[k], ns) < TH
            && Total(u, cands[k]) == NewAfter(util, ms[k], os, cands[k], ns) < TH
  {
    var os := SlotOn(oldCfg, ms[k]);
    var ns := PickSlot(util, ms[k], os, cands[k]);
    var u := AfterPlan(util, n, oldCfg, ms, cands);
    var r := Scatter(util, n, oldCfg, ms, cands);
    var i := ElemOfMarked(util, n, oldCfg, ms, cands, k);
    assert GuardOk(util, oldCfg, ms[k], cands[k]);
    CandidatesUnmarked(util, n, oldCfg, ms, cands);
    assert r[i] == Elem(cands[k], ns);
    PlanExchanges(util, n, oldCfg, ms, cands, i);
    OtherSlotOfMarked(util, n, oldCfg, ms, cands, k);
    OtherSlotOfCandidate(util, n, oldCfg, ms, cands, k);
    TotalOf(u, n, ms[k], os);
    TotalOf(u, n, cands[k], ns);
  }

  lemma OtherSlotOfMarked(util: Util, n: nat, oldCfg: Config, ms: seq<nat>, cands: seq<nat>, k: nat)
    requires GoodPlan(util, n, oldCfg, ms, cands) && k < |ms|
    ensures var c := Elem(ms[k], Other(SlotOn(oldCfg, ms[k])));
            On(n, 2, c) && Get(AfterPlan(util, n, oldCfg, ms, cands), c) == Get(util, c)
  {
    var c := Elem(ms[k], Other(SlotOn(oldCfg, ms[k])));
    var i := ElemOfMarked(util, n, oldCfg, ms, cands, k);
    CandidatesUnmarked(util, n, oldCfg, ms, cands);
    PlanKeepsUnmoved(util, n, oldCfg, ms, cands, c);
  }

  lemma OtherSlotOfCandidate(util: Util, n: nat, oldCfg: Config, ms: seq<nat>, cands: seq<nat>, k: nat)
    requires GoodPlan(util, n, oldCfg, ms, cands) && k < |ms|
    ensures var ns := PickSlot(util, ms[k], SlotOn(oldCfg, ms[k]), cands[k]);
            var c := Elem(cands[k], Other(ns));
            On(n, 2, c) && Get(AfterPlan(util, n, oldCfg, ms, cands), c) == Get(util, c)
  {
    var ns := PickSlot(util, ms[k], SlotOn(oldCfg, ms[k]), cands[k]);
    var c := Elem(cands[k], Other(ns));
    var i := ElemOfMarked(util, n, oldCfg, ms, cands, k);
    CandidatesUnmarked(util, n, oldCfg, ms, cands);
    var r := Scatter(util, n, oldCfg, ms, cands);
    forall j | 0 <= j < |oldCfg| && r[j] == c ensures oldCfg[j] == c {
    }
    PlanKeepsUnmoved(util, n, oldCfg, ms, cands, c);
  }

  /** Machines that are neither marked nor candidates keep their load. */
  lemma PlanElsewhere(util: Util, n: nat, oldCfg: Config, ms: seq<nat>, cands: seq<nat>, m: nat)
    requires GoodPlan(util, n, oldCfg, ms, cands) && m < n && m !in ms && m !in cands
    ensures forall s :: 0 <= s < 2 ==>
              Get(AfterPlan(util, n, oldCfg, ms, cands), Elem(m, s)) == Get(util, Elem(m, s))
    ensures Total(AfterPlan(util, n, oldCfg, ms, cands), m) == Total(util, m)
  {
    forall s | 0 <= s < 2
      ensures Get(AfterPlan(util, n, oldCfg, ms, cands), Elem(m, s)) == Get(util, Elem(m, s))
    {
      PlanKeepsUnmoved(util, n, oldCfg, ms, cands, Elem(m, s));
    }
    TotalOf(util, n, m, 0);
    TotalOf(AfterPlan(util, n, oldCfg, ms, cands), n, m, 0);
  }

  /** A marked machine, and any that was within the threshold, is within it afterwards. */
  lemma CalmAfter(util: Util, n: nat, oldCfg: Config, ms: seq<nat>, cands: seq<nat>, m: nat)
    requires GoodPlan(util, n, oldCfg, ms, cands) && m < n && (m in ms || Total(util, m) <= TH)
    ensures Total(AfterPlan(util, n, oldCfg, ms, cands), m) <= TH
  {
    if m in ms {
      PlanTotals(util, n, oldCfg, ms, cands, IndexOf(ms, m));
    } else if m in cands {
      PlanTotals(util, n, oldCfg, ms, cands, IndexOf(cands, m));
    } else {
      PlanElsewhere(util, n, oldCfg, ms, cands, m);
    }
  }

  /** A good plan resolves the overload: check_membw finds nothing to mark on the
      old config, nothing on the new one, and no machine is overloaded that was
      not overloaded and outside the job before. */
  lemma PlanResolves(util: Util, n: nat, oldCfg: Config, ms: seq<nat>, cands: seq<nat>)
    requires GoodPlan(util, n, oldCfg, ms, cands)
    ensures var u := AfterPlan(util, n, oldCfg, ms, cands);
            && AllOn(n, 2, Scatter(util, n, oldCfg, ms, cands))
            && Marked(u, oldCfg) == [] && Marked(u, Scatter(util, n, oldCfg, ms, cands)) == []
            && forall m :: 0 <= m < n && Total(u, m) > TH ==> m !in ms && Total(util, m) > TH
  {
    var u, r := AfterPlan(util, n, oldCfg, ms, cands), Scatter(util, n, oldCfg, ms, cands);
    PlanOn(util, n, oldCfg, ms, cands);
    forall m | 0 <= m < n && (m in ms || Total(util, m) <= TH) ensures Total(u, m) <= TH {
      CalmAfter(util, n, oldCfg, ms, cands, m);
    }
    forall i | 0 <= i < |r| ensures Total(u, r[i].machine) <= TH {
      PlanStructure(util, n, oldCfg, ms, cands, i);
      CandidatesUnmarked(util, n, oldCfg, ms, cands);
    }
    NothingMarked(u, n, oldCfg);
    NothingMarked(u, n, r);
  }

  lemma {:induction false} NothingMarked(u: Util, n: nat, cfg: Config)
    requires Rect(u, n, 2) && AllOn(n, 2, cfg)
    requires forall i :: 0 <= i < |cfg| ==> Total(u, cfg[i].machine) <= TH
    ensures Marked(u, cfg) == []
    decreases |cfg|
  {
    if cfg != [] {
      NothingMarked(u, n, cfg[1..]);
    }
  }

  // ----- the order of the plan

  /** Of two moved elements, the one from the heavier machine goes to a machine that is no heavier. */
  predicate HeavyToLight(util: Util, n: nat, oldCfg: Config, newCfg: Config)
    requires Rect(util, n, 2) && |oldCfg| == |newCfg| && AllOn(n, 2, oldCfg) && AllOn(n, 2, newCfg)
  {
    forall i, j | 0 <= i < |oldCfg| && 0 <= j < |oldCfg| && newCfg[i] != oldCfg[i] && newCfg[j] != oldCfg[j] ::
      Total(util, oldCfg[i].machine) > Total(util, oldCfg[j].machine) ==>
        Total(util, newCfg[i].machine) <= Total(util, newCfg[j].machine)
  }

  /** With the marked machines by descending and the candidates by ascending load,
      heavy machines are paired with light ones. */
  lemma PlanOrder(util: Util, n: nat, oldCfg: Config, ms: seq<nat>, cands: seq<nat>)
    requires PlanInput(util, n, oldCfg, ms, cands) && GuardsOk(util, n, oldCfg, ms, cands)
    requires Ordered(util, n, ms, true) && Ordered(util, n, cands, false)
    ensures AllOn(n, 2, Scatter(util, n, oldCfg, ms, cands))
    ensures HeavyToLight(util, n, oldCfg, Scatter(util, n, oldCfg, ms, cands))
  {
    var r := Scatter(util, n, oldCfg, ms, cands);
    PlanOn(util, n, oldCfg, ms, cands);
    forall i, j | 0 <= i < |oldCfg| && 0 <= j < |oldCfg| && r[i] != oldCfg[i] && r[j] != oldCfg[j]
                  && Total(util, oldCfg[i].machine) > Total(util, oldCfg[j].machine)
      ensures Total(util, r[i].machine) <= Total(util, r[j].machine)
    {
      var k := MovesTo(util, n, oldCfg, ms, cands, i);
      var l := MovesTo(util, n, oldCfg, ms, cands, j);
      if k < l {
        assert Before(util, cands[k], cands[l], false);
      }
    }
  }

  /** The total load is conserved: the table holds the same loads as before. */
  lemma PlanConserves(util: Util, n: nat, oldCfg: Config, ms: seq<nat>, cands: seq<nat>)
    requires GoodPlan(util, n, oldCfg, ms, cands)
    ensures multiset(Flat(AfterPlan(util, n, oldCfg, ms, cands))) == multiset(Flat(util))
  {
    PlanOn(util, n, oldCfg, ms, cands);
    ApplyConserves(util, n, 2, Zip(oldCfg, Scatter(util, n, oldCfg, ms, cands)));
  }
}
