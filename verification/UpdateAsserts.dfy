/** When the assertions inside update_membw_util hold: after every single swap
    both machines involved must be strictly below the threshold. */
module UpdateAsserts {
  import opened Tables
  import opened SlotMap
  import opened Migration
  import opened Bandwidth
  import opened Rebalance

  /** The two assertions after swap `idx`. */
  predicate AssertAt(util: Util, n: nat, z: seq<Swap>, idx: nat)
    requires Rect(util, n, 2) && StepsOn(n, 2, z) && idx < |z|
  {
    var t := ApplySwaps(util, n, 2, z[..idx + 1]);
    Total(t, z[idx].a.machine) < TH && Total(t, z[idx].b.machine) < TH
  }

  predicate AssertsPass(util: Util, n: nat, z: seq<Swap>)
    requires Rect(util, n, 2) && StepsOn(n, 2, z)
  {
    forall idx :: 0 <= idx < |z| ==> AssertAt(util, n, z, idx)
  }

  lemma {:induction false} ApplyAppend<T>(t: Table<T>, n: nat, w: nat, p: seq<Swap>, q: seq<Swap>)
    requires Rect(t, n, w) && StepsOn(n, w, p) && StepsOn(n, w, q)
    ensures StepsOn(n, w, p + q)
    ensures ApplySwaps(t, n, w, p + q) == ApplySwaps(ApplySwaps(t, n, w, p), n, w, q)
    decreases |p|
  {
    if p == [] {
      assert p + q == q;
    } else {
      assert (p + q)[1..] == p[1..] + q;
      ApplyAppend(Swapped(t, p[0]), n, w, p[1..], q);
    }
  }

  /** One more swap adds the demand that its two machines then fit. */
  lemma AssertsAppend(util: Util, n: nat, z: seq<Swap>, s: Swap)
    requires Rect(util, n, 2) && StepsOn(n, 2, z) && On(n, 2, s.a) && On(n, 2, s.b)
    ensures StepsOn(n, 2, z + [s])
    ensures AssertsPass(util, n, z + [s])
       <==> AssertsPass(util, n, z) && PairFits(ApplySwaps(util, n, 2, z), n, s.a, s.b)
  {
    var all := z + [s];
    assert all[..|all|] == all;
    ApplyAppend(util, n, 2, z, [s]);
    assert [s][1..] == [];
    assert ApplySwaps(util, n, 2, all) == Swapped(ApplySwaps(util, n, 2, z), s);
    forall idx | 0 <= idx < |z| ensures AssertAt(util, n, all, idx) == AssertAt(util, n, z, idx) {
      assert all[..idx + 1] == z[..idx + 1];
    }
    assert AssertAt(util, n, all, |z|) <==> PairFits(ApplySwaps(util, n, 2, z), n, s.a, s.b);
  }

  /** No swap that moves anything involves machine `m`. */
  predicate Quiet(steps: seq<Swap>, m: nat) {
    forall i :: 0 <= i < |steps| && steps[i].a != steps[i].b ==> steps[i].a.machine != m && steps[i].b.machine != m
  }

  lemma {:induction false} QuietTotal(t: Util, n: nat, steps: seq<Swap>, m: nat)
    requires Rect(t, n, 2) && StepsOn(n, 2, steps) && Quiet(steps, m) && m < n
    ensures Total(ApplySwaps(t, n, 2, steps), m) == Total(t, m)
    decreases |steps|
  {
    if steps != [] {
      var u := Swapped(t, steps[0]);
      TotalOf(t, n, m, 0);
      TotalOf(u, n, m, 0);
      assert Tr(steps[0], Elem(m, 0)) == Elem(m, 0) && Tr(steps[0], Elem(m, 1)) == Elem(m, 1);
      QuietTotal(u, n, steps[1..], m);
    }
  }

  /** A machine takes part in at most one of the plan's moves. */
  lemma MovesOnce(util: Util, n: nat, oldCfg: Config, ms: seq<nat>, cands: seq<nat>, i: nat, m: nat)
    requires GoodPlan(util, n, oldCfg, ms, cands) && i < |oldCfg| && oldCfg[i].machine in ms
    requires m == oldCfg[i].machine || m == Scatter(util, n, oldCfg, ms, cands)[i].machine
    ensures var z := Zip(oldCfg, Scatter(util, n, oldCfg, ms, cands));
            Quiet(z[..i], m) && Quiet(z[i + 1..], m)
  {
    var r := Scatter(util, n, oldCfg, ms, cands);
    forall j | 0 <= j < |oldCfg| && j != i && oldCfg[j] != r[j] ensures oldCfg[j].machine != m && r[j].machine != m {
      MovesApart(util, n, oldCfg, ms, cands, i, j);
    }
    QuietAround(Zip(oldCfg, r), i, m);
  }

  lemma QuietAround(z: seq<Swap>, i: nat, m: nat)
    requires i < |z|
    requires forall j :: 0 <= j < |z| && j != i && z[j].a != z[j].b ==> z[j].a.machine != m && z[j].b.machine != m
    ensures Quiet(z[..i], m) && Quiet(z[i + 1..], m)
  {
  }

  /** Two moves have no machine in common. */
  lemma MovesApart(util: Util, n: nat, oldCfg: Config, ms: seq<nat>, cands: seq<nat>, i: nat, j: nat)
    requires GoodPlan(util, n, oldCfg, ms, cands) && i < |oldCfg| && j < |oldCfg| && i != j
    requires oldCfg[i].machine in ms && Scatter(util, n, oldCfg, ms, cands)[j] != oldCfg[j]
    ensures var r := Scatter(util, n, oldCfg, ms, cands);
            && oldCfg[j].machine !in {oldCfg[i].machine, r[i].machine}
            && r[j].machine !in {oldCfg[i].machine, r[i].machine}
  {
    PlanStructure(util, n, oldCfg, ms, cands, i);
    PlanStructure(util, n, oldCfg, ms, cands, j);
    PlanApart(util, n, oldCfg, ms, cands, i, j);
  }

  lemma StillQuiet(util: Util, n: nat, oldCfg: Config, ms: seq<nat>, cands: seq<nat>, m: nat)
    requires GoodPlan(util, n, oldCfg, ms, cands) && m !in ms && m !in cands
    ensures Quiet(Zip(oldCfg, Scatter(util, n, oldCfg, ms, cands)), m)
  {
  }

  /** Once element `i` has been swapped, its two machines have their final load. */
  lemma PairDone(util: Util, n: nat, oldCfg: Config, ms: seq<nat>, cands: seq<nat>, idx: nat, i: nat, m: nat)
    requires GoodPlan(util, n, oldCfg, ms, cands) && i <= idx < |oldCfg| && oldCfg[i].machine in ms && m < n
    requires m == oldCfg[i].machine || m == Scatter(util, n, oldCfg, ms, cands)[i].machine
    ensures var z := Zip(oldCfg, Scatter(util, n, oldCfg, ms, cands));
            && StepsOn(n, 2, z)
            && Total(ApplySwaps(util, n, 2, z[..idx + 1]), m) == Total(AfterPlan(util, n, oldCfg, ms, cands), m)
  {
    var z := Zip(oldCfg, Scatter(util, n, oldCfg, ms, cands));
    PlanOn(util, n, oldCfg, ms, cands);
    MovesOnce(util, n, oldCfg, ms, cands, i, m);
    SuffixDone(util, n, z, idx + 1, i + 1, m);
  }

  /** Until then both have their original load. */
  lemma PairPending(util: Util, n: nat, oldCfg: Config, ms: seq<nat>, cands: seq<nat>, idx: nat, i: nat, m: nat)
    requires GoodPlan(util, n, oldCfg, ms, cands) && idx < i < |oldCfg| && oldCfg[i].machine in ms && m < n
    requires m == oldCfg[i].machine || m == Scatter(util, n, oldCfg, ms, cands)[i].machine
    ensures var z := Zip(oldCfg, Scatter(util, n, oldCfg, ms, cands));
            && StepsOn(n, 2, z)
            && Total(ApplySwaps(util, n, 2, z[..idx + 1]), m) == Total(util, m)
  {
    var z := Zip(oldCfg, Scatter(util, n, oldCfg, ms, cands));
    PlanOn(util, n, oldCfg, ms, cands);
    MovesOnce(util, n, oldCfg, ms, cands, i, m);
    PrefixPending(util, n, z, idx + 1, i, m);
  }

  lemma PrefixPending(util: Util, n: nat, z: seq<Swap>, k: nat, i: nat, m: nat)
    requires Rect(util, n, 2) && StepsOn(n, 2, z) && k <= i <= |z| && m < n && Quiet(z[..i], m)
    ensures Total(ApplySwaps(util, n, 2, z[..k]), m) == Total(util, m)
  {
    QuietPrefix(z, k, i, m);
    PrefixTotal(util, n, z, k, m);
  }

  lemma SuffixDone(util: Util, n: nat, z: seq<Swap>, k: nat, i: nat, m: nat)
    requires Rect(util, n, 2) && StepsOn(n, 2, z) && i <= k <= |z| && m < n && Quiet(z[i..], m)
    ensures Total(ApplySwaps(util, n, 2, z[..k]), m) == Total(ApplySwaps(util, n, 2, z), m)
  {
    QuietSuffix(z, i, k, m);
    SplitTotal(util, n, z, k, m);
  }

  lemma QuietSuffix(z: seq<Swap>, i: nat, j: nat, m: nat)
    requires i <= j <= |z| && Quiet(z[i..], m)
    ensures Quiet(z[j..], m)
  {
    assert z[j..] == z[i..][j - i..];
  }

  lemma QuietPrefix(z: seq<Swap>, i: nat, j: nat, m: nat)
    requires i <= j <= |z| && Quiet(z[..j], m)
    ensures Quiet(z[..i], m)
  {
    assert z[..i] == z[..j][..i];
  }

  lemma PrefixTotal(util: Util, n: nat, z: seq<Swap>, k: nat, m: nat)
    requires Rect(util, n, 2) && StepsOn(n, 2, z) && k <= |z| && m < n
    ensures Quiet(z[..k], m) ==> Total(ApplySwaps(util, n, 2, z[..k]), m) == Total(util, m)
  {
    if Quiet(z[..k], m) {
      QuietTotal(util, n, z[..k], m);
    }
  }

  lemma SplitTotal(util: Util, n: nat, z: seq<Swap>, k: nat, m: nat)
    requires Rect(util, n, 2) && StepsOn(n, 2, z) && k <= |z| && m < n
    ensures Quiet(z[k..], m) ==>
              Total(ApplySwaps(util, n, 2, z[..k]), m) == Total(ApplySwaps(util, n, 2, z), m)
  {
    if Quiet(z[k..], m) {
      assert z[..k] + z[k..] == z;
      ApplyAppend(util, n, 2, z[..k], z[k..]);
      QuietTotal(ApplySwaps(util, n, 2, z[..k]), n, z[k..], m);
    }
  }

  /** No machine that the job keeps sits exactly at the threshold. */
  predicate NoneAtThreshold(util: Util, n: nat, oldCfg: Config, ms: seq<nat>)
    requires Rect(util, n, 2) && AllOn(n, 2, oldCfg)
  {
    forall i :: 0 <= i < |oldCfg| && oldCfg[i].machine !in ms ==> Total(util, oldCfg[i].machine) != TH
  }

  /** A moved element never violates an assertion. */
  lemma AssertAtMoved(util: Util, n: nat, oldCfg: Config, ms: seq<nat>, cands: seq<nat>, idx: nat)
    requires GoodPlan(util, n, oldCfg, ms, cands) && idx < |oldCfg| && oldCfg[idx].machine in ms
    ensures var z := Zip(oldCfg, Scatter(util, n, oldCfg, ms, cands)); StepsOn(n, 2, z) && AssertAt(util, n, z, idx)
  {
    var r := Scatter(util, n, oldCfg, ms, cands);
    PlanOn(util, n, oldCfg, ms, cands);
    PlanStructure(util, n, oldCfg, ms, cands, idx);
    PlanTotals(util, n, oldCfg, ms, cands, IndexOf(ms, oldCfg[idx].machine));
    PairDone(util, n, oldCfg, ms, cands, idx, idx, oldCfg[idx].machine);
    PairDone(util, n, oldCfg, ms, cands, idx, idx, r[idx].machine);
  }

  /** An element that stays on a candidate machine does not violate one either. */
  lemma AssertAtCandidate(util: Util, n: nat, oldCfg: Config, ms: seq<nat>, cands: seq<nat>, idx: nat)
    requires GoodPlan(util, n, oldCfg, ms, cands) && idx < |oldCfg|
    requires oldCfg[idx].machine !in ms && oldCfg[idx].machine in cands
    ensures var z := Zip(oldCfg, Scatter(util, n, oldCfg, ms, cands)); StepsOn(n, 2, z) && AssertAt(util, n, z, idx)
    ensures Total(util, oldCfg[idx].machine) < TH
  {
    var m := oldCfg[idx].machine;
    PlanOn(util, n, oldCfg, ms, cands);
    var k := IndexOf(cands, m);
    var i := ElemOfMarked(util, n, oldCfg, ms, cands, k);
    PlanStructure(util, n, oldCfg, ms, cands, i);
    CandidatesUnmarked(util, n, oldCfg, ms, cands);
    PlanTotals(util, n, oldCfg, ms, cands, k);
    if i <= idx {
      PairDone(util, n, oldCfg, ms, cands, idx, i, m);
    } else {
      PairPending(util, n, oldCfg, ms, cands, idx, i, m);
    }
  }

  /** After the swap of element `idx`: only an element that stays can violate an
      assertion, and does so iff its machine sits exactly at the threshold. */
  lemma AssertAtIff(util: Util, n: nat, oldCfg: Config, ms: seq<nat>, cands: seq<nat>, idx: nat)
    requires GoodPlan(util, n, oldCfg, ms, cands) && idx < |oldCfg|
    ensures var z := Zip(oldCfg, Scatter(util, n, oldCfg, ms, cands));
            && StepsOn(n, 2, z)
            && (AssertAt(util, n, z, idx) <==> (oldCfg[idx].machine !in ms ==> Total(util, oldCfg[idx].machine) != TH))
  {
    var m := oldCfg[idx].machine;
    if m in ms {
      AssertAtMoved(util, n, oldCfg, ms, cands, idx);
    } else if m in cands {
      AssertAtCandidate(util, n, oldCfg, ms, cands, idx);
    } else {
      var z := Zip(oldCfg, Scatter(util, n, oldCfg, ms, cands));
      PlanOn(util, n, oldCfg, ms, cands);
      StillQuiet(util, n, oldCfg, ms, cands, m);
      QuietPrefix(z, idx + 1, |oldCfg|, m);
      PrefixTotal(util, n, z, idx + 1, m);
    }
  }

  /** For a good plan all these assertions hold exactly when no unmarked machine
      of the job sits exactly at the threshold. */
  lemma AssertsPassIff(util: Util, n: nat, oldCfg: Config, ms: seq<nat>, cands: seq<nat>)
    requires GoodPlan(util, n, oldCfg, ms, cands)
    ensures var z := Zip(oldCfg, Scatter(util, n, oldCfg, ms, cands));
            StepsOn(n, 2, z) && (AssertsPass(util, n, z) <==> NoneAtThreshold(util, n, oldCfg, ms))
  {
    PlanOn(util, n, oldCfg, ms, cands);
    forall idx | 0 <= idx < |oldCfg|
      ensures AssertAt(util, n, Zip(oldCfg, Scatter(util, n, oldCfg, ms, cands)), idx) <==>
              (oldCfg[idx].machine !in ms ==> Total(util, oldCfg[idx].machine) != TH)
    {
      AssertAtIff(util, n, oldCfg, ms, cands, idx);
    }
  }
}
