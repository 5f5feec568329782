/** The bandwidth rebalancer: which machines are overloaded, where to move the
    job's slots, and what a planned migration does to the load of each machine.
    Loads are exact reals; a machine has two slots. */
module Bandwidth {
  import opened Tables
  import opened SlotMap
  import opened Migration

  const TH: real := 0.9

  type Util = Table<real>

  function Total(util: Util, m: nat): real
    requires m < |util| && |util[m]| == 2
  {
    util[m][0] + util[m][1]
  }

  function Other(s: nat): nat {
    (s + 1) % 2
  }

  /** The machines of `cfg` above the threshold, in the order of `cfg`. */
  function Marked(util: Util, cfg: Config): (r: seq<nat>)
    requires forall i :: 0 <= i < |cfg| ==> cfg[i].machine < |util| && |util[cfg[i].machine]| == 2
    ensures |r| <= |cfg|
    ensures forall k :: 0 <= k < |r| ==>
              r[k] < |util| && |util[r[k]]| == 2 && Total(util, r[k]) > TH
              && Uses(cfg, r[k])
    ensures forall i :: 0 <= i < |cfg| && Total(util, cfg[i].machine) > TH ==> cfg[i].machine in r
    decreases |cfg|
  {
    if cfg == [] then []
    else
      var rest := Marked(util, cfg[1..]);
      if Total(util, cfg[0].machine) > TH then [cfg[0].machine] + rest else rest
  }

  /** One slot per machine. */
  predicate OneEach(cfg: Config) {
    forall i, j :: 0 <= i < j < |cfg| ==> cfg[i].machine != cfg[j].machine
  }

  lemma {:induction false} MarkedNoDup(util: Util, cfg: Config)
    requires forall i :: 0 <= i < |cfg| ==> cfg[i].machine < |util| && |util[cfg[i].machine]| == 2
    requires OneEach(cfg)
    ensures NoDup(Marked(util, cfg))
    decreases |cfg|
  {
    if cfg != [] {
      MarkedNoDup(util, cfg[1..]);
    }
  }

  // ----- sorting by load

  predicate Machines(n: nat, ms: seq<nat>) {
    forall k :: 0 <= k < |ms| ==> ms[k] < n
  }

  /** `ys` is one of the orders that sorting `xs` by load may produce. */
  ghost predicate IsSort(util: Util, n: nat, xs: seq<nat>, ys: seq<nat>, descending: bool)
    requires Rect(util, n, 2)
  {
    && multiset(ys) == multiset(xs)
    && (forall k :: 0 <= k < |ys| ==> ys[k] < n)
    && forall k, l :: 0 <= k < l < |ys| ==>
         if descending then Total(util, ys[k]) >= Total(util, ys[l]) else Total(util, ys[k]) <= Total(util, ys[l])
  }

  lemma PermFacts(xs: seq<nat>, ys: seq<nat>)
    requires multiset(xs) == multiset(ys)
    ensures |xs| == |ys| && (forall x :: x in xs <==> x in ys)
    ensures NoDup(xs) ==> NoDup(ys)
  {
    assert |multiset(xs)| == |xs| && |multiset(ys)| == |ys|;
    forall x ensures x in xs <==> x in ys {
      assert x in xs <==> x in multiset(xs);
      assert x in ys <==> x in multiset(ys);
    }
    if NoDup(xs) {
      forall i, j | 0 <= i < j < |ys| ensures ys[i] != ys[j] {
        if ys[i] == ys[j] {
          TwiceInMultiset(ys, i, j);
          AtMostOnce(xs, ys[i]);
        }
      }
    }
  }

  lemma TwiceInMultiset(ys: seq<nat>, i: nat, j: nat)
    requires i < j < |ys| && ys[i] == ys[j]
    ensures multiset(ys)[ys[i]] >= 2
  {
    assert ys == ys[..i] + [ys[i]] + ys[i + 1..j] + [ys[j]] + ys[j + 1..];
  }

  lemma {:induction false} AtMostOnce(xs: seq<nat>, x: nat)
    requires NoDup(xs)
    ensures multiset(xs)[x] <= 1
    decreases |xs|
  {
    if xs != [] {
      AtMostOnce(xs[1..], x);
      assert xs == [xs[0]] + xs[1..];
      if xs[0] == x {
        assert x !in xs[1..];
        assert x !in multiset(xs[1..]);
      }
    }
  }

  // ----- choosing a slot on the new machine

  function MaxSlot(row: seq<real>): (s: nat)
    requires |row| == 2
    ensures s < 2 && row[s] >= row[Other(s)]
  {
    if row[0] >= row[1] then 0 else 1
  }

  function MinSlot(row: seq<real>): (s: nat)
    requires |row| == 2
    ensures s < 2 && row[s] <= row[Other(s)]
  {
    if row[0] <= row[1] then 0 else 1
  }

  /** The slot rule: an element on the strictly lighter slot of its machine goes to
      the heavier slot of the new one, any other to the lighter; to slot 0 if both
      carry the same. */
  predicate SlotRule(util: Util, from: Elem, to: Elem)
    requires from.machine < |util| && to.machine < |util| && |util[from.machine]| == |util[to.machine]| == 2
  {
    var a, b := util[from.machine], util[to.machine];
    && from.slot < 2 && to.slot < 2
    && (a[from.slot] < a[1 - from.slot] ==> b[to.slot] >= b[1 - to.slot])
    && (a[from.slot] >= a[1 - from.slot] ==> b[to.slot] <= b[1 - to.slot])
    && (b[0] == b[1] ==> to.slot == 0)
  }

  function PickSlot(util: Util, om: nat, os: nat, nm: nat): (s: nat)
    requires om < |util| && nm < |util| && |util[om]| == |util[nm]| == 2 && os < 2
    ensures SlotRule(util, Elem(om, os), Elem(nm, s))
  {
    if util[om][os] < util[om][Other(os)] then MaxSlot(util[nm]) else MinSlot(util[nm])
  }

  /** The loads of the two machines after exchanging slot `os` of `om` with slot `ns` of `nm`. */
  function OldAfter(util: Util, om: nat, os: nat, nm: nat, ns: nat): real
    requires om < |util| && nm < |util| && |util[om]| == |util[nm]| == 2 && os < 2 && ns < 2
  {
    util[om][Other(os)] + util[nm][ns]
  }

  function NewAfter(util: Util, om: nat, os: nat, nm: nat, ns: nat): real
    requires om < |util| && nm < |util| && |util[om]| == |util[nm]| == 2 && os < 2 && ns < 2
  {
    util[nm][Other(ns)] + util[om][os]
  }

  function Abs(x: real): real {
    if x < 0.0 then -x else x
  }

  /** The chosen slot leaves the larger of the two possible differences between
      the machines, exactly |a - b| + |c - d|; whatever bound both machines meet
      with it, they also meet with the other slot. */
  lemma SlotChoiceConservative(util: Util, om: nat, os: nat, nm: nat, bound: real)
    requires om < |util| && nm < |util| && |util[om]| == |util[nm]| == 2 && os < 2
    ensures var ns := PickSlot(util, om, os, nm);
            var spread := Abs(util[om][0] - util[om][1]) + Abs(util[nm][0] - util[nm][1]);
            && Abs(OldAfter(util, om, os, nm, ns) - NewAfter(util, om, os, nm, ns)) == spread
            && Abs(OldAfter(util, om, os, nm, Other(ns)) - NewAfter(util, om, os, nm, Other(ns))) <= spread
            && (OldAfter(util, om, os, nm, ns) < bound && NewAfter(util, om, os, nm, ns) < bound ==>
                  OldAfter(util, om, os, nm, Other(ns)) < bound && NewAfter(util, om, os, nm, Other(ns)) < bound)
  {
    var ns := PickSlot(util, om, os, nm);
    assert Other(ns) == 1 - ns && Other(os) == 1 - os;
    assert os == 0 || os == 1;
    assert ns == 0 || ns == 1;
  }

  /** The source's comment promises that the chosen slot minimises the difference
      between the two machines.  It does so exactly when one of the machines has
      equally loaded slots, that is, when the choice makes no difference. */
  lemma SlotChoiceMinimalIff(util: Util, om: nat, os: nat, nm: nat)
    requires om < |util| && nm < |util| && |util[om]| == |util[nm]| == 2 && os < 2
    ensures var ns := PickSlot(util, om, os, nm);
            Abs(OldAfter(util, om, os, nm, ns) - NewAfter(util, om, os, nm, ns))
            <= Abs(OldAfter(util, om, os, nm, Other(ns)) - NewAfter(util, om, os, nm, Other(ns)))
            <==> util[om][0] == util[om][1] || util[nm][0] == util[nm][1]
  {
    var ns := PickSlot(util, om, os, nm);
    assert Other(ns) == 1 - ns && Other(os) == 1 - os;
    assert os == 0 || os == 1;
    assert ns == 0 || ns == 1;
  }

  // ----- planning a migration

  predicate Uses(cfg: Config, m: nat) {
    exists i :: 0 <= i < |cfg| && cfg[i].machine == m
  }

  /** The slot that `cfg` uses on machine `m`: the first entry for it. */
  function SlotOn(cfg: Config, m: nat): (s: nat)
    requires Uses(cfg, m)
    ensures Elem(m, s) in cfg
    decreases |cfg|
  {
    if cfg[0].machine == m then cfg[0].slot else SlotOn(cfg[1..], m)
  }

  /** What the planner is given: a job with one slot per machine, its marked
      machines by descending load, and as many candidates. */
  ghost predicate PlanInput(util: Util, n: nat, oldCfg: Config, ms: seq<nat>, cands: seq<nat>) {
    && Rect(util, n, 2) && AllOn(n, 2, oldCfg) && OneEach(oldCfg)
    && |ms| == |cands| && NoDup(ms) && NoDup(cands)
    && (forall k :: 0 <= k < |ms| ==> cands[k] < n)
    && (forall k :: 0 <= k < |ms| ==> ms[k] < n && Total(util, ms[k]) > TH)
    && (forall k :: 0 <= k < |ms| ==> Uses(oldCfg, ms[k]))
    && (forall i :: 0 <= i < |oldCfg| && Total(util, oldCfg[i].machine) > TH ==> oldCfg[i].machine in ms)
  }

  /** The assertions on pair `k` of marked machine and candidate. */
  predicate GuardOk(util: Util, oldCfg: Config, om: nat, nm: nat)
    requires om < |util| && nm < |util| && |util[om]| == |util[nm]| == 2
    requires Uses(oldCfg, om)
    requires SlotOn(oldCfg, om) < 2
  {
    var os := SlotOn(oldCfg, om);
    var ns := PickSlot(util, om, os, nm);
    OldAfter(util, om, os, nm, ns) < TH && NewAfter(util, om, os, nm, ns) < TH
  }

  predicate GuardsOk(util: Util, n: nat, oldCfg: Config, ms: seq<nat>, cands: seq<nat>)
    requires PlanInput(util, n, oldCfg, ms, cands)
  {
    forall k :: 0 <= k < |ms| ==> GuardOk(util, oldCfg, ms[k], cands[k])
  }

  /** Where the element `c` of the job goes. */
  function Target(util: Util, n: nat, oldCfg: Config, ms: seq<nat>, cands: seq<nat>, c: Elem): Elem
    requires PlanInput(util, n, oldCfg, ms, cands)
  {
    if c.machine in ms then
      var k := IndexOf(ms, c.machine);
      Elem(cands[k], PickSlot(util, ms[k], SlotOn(oldCfg, ms[k]), cands[k]))
    else c
  }

  function Scatter(util: Util, n: nat, oldCfg: Config, ms: seq<nat>, cands: seq<nat>): (r: Config)
    requires PlanInput(util, n, oldCfg, ms, cands)
    ensures |r| == |oldCfg|
    ensures forall i :: 0 <= i < |oldCfg| ==> r[i] == Target(util, n, oldCfg, ms, cands, oldCfg[i])
  {
    seq(|oldCfg|, i requires 0 <= i < |oldCfg| => Target(util, n, oldCfg, ms, cands, oldCfg[i]))
  }

  lemma OneEachNoDup(cfg: Config)
    requires OneEach(cfg)
    ensures NoDup(cfg)
  {
  }

  lemma ElemOfMarked(util: Util, n: nat, oldCfg: Config, ms: seq<nat>, cands: seq<nat>, k: nat) returns (i: nat)
    requires PlanInput(util, n, oldCfg, ms, cands) && k < |ms|
    ensures i < |oldCfg| && oldCfg[i] == Elem(ms[k], SlotOn(oldCfg, ms[k])) && IndexOf(ms, ms[k]) == k
    ensures forall j :: 0 <= j < |oldCfg| && oldCfg[j].machine == ms[k] ==> j == i
  {
    i := IndexOf(oldCfg, Elem(ms[k], SlotOn(oldCfg, ms[k])));
  }

  /** The element of the k-th marked machine goes to the k-th candidate. */
  lemma MovesTo(util: Util, n: nat, oldCfg: Config, ms: seq<nat>, cands: seq<nat>, i: nat) returns (k: nat)
    requires PlanInput(util, n, oldCfg, ms, cands) && GuardsOk(util, n, oldCfg, ms, cands)
    requires i < |oldCfg| && oldCfg[i].machine in ms
    ensures var r := Scatter(util, n, oldCfg, ms, cands);
            && k < |ms| && ms[k] == oldCfg[i].machine && oldCfg[i].slot == SlotOn(oldCfg, ms[k])
            && r[i] == Elem(cands[k], PickSlot(util, ms[k], SlotOn(oldCfg, ms[k]), cands[k]))
            && r[i].machine != oldCfg[i].machine
  {
    CandidatesUnmarked(util, n, oldCfg, ms, cands);
    k := IndexOf(ms, oldCfg[i].machine);
    var j := ElemOfMarked(util, n, oldCfg, ms, cands, k);
    assert i == j;
  }

  /** The plan keeps length and order and leaves exactly the unmarked elements in place. */
  lemma PlanStructure(util: Util, n: nat, oldCfg: Config, ms: seq<nat>, cands: seq<nat>, i: nat)
    requires PlanInput(util, n, oldCfg, ms, cands) && GuardsOk(util, n, oldCfg, ms, cands) && i < |oldCfg|
    ensures var r := Scatter(util, n, oldCfg, ms, cands);
            && |r| == |oldCfg| && On(n, 2, r[i])
            && (r[i] == oldCfg[i] <==> oldCfg[i].machine !in ms)
            && (r[i] != oldCfg[i] ==> r[i].machine in cands && r[i].machine !in ms)
  {
    if oldCfg[i].machine in ms {
      var k := MovesTo(util, n, oldCfg, ms, cands, i);
      CandidatesUnmarked(util, n, oldCfg, ms, cands);
    }
  }

  /** Moved elements arrive on pairwise distinct machines. */
  lemma PlanApart(util: Util, n: nat, oldCfg: Config, ms: seq<nat>, cands: seq<nat>, i: nat, j: nat)
    requires PlanInput(util, n, oldCfg, ms, cands) && GuardsOk(util, n, oldCfg, ms, cands)
    requires i < |oldCfg| && j < |oldCfg| && i != j && oldCfg[i].machine in ms && oldCfg[j].machine in ms
    ensures var r := Scatter(util, n, oldCfg, ms, cands); r[i].machine != r[j].machine
  {
    var k := MovesTo(util, n, oldCfg, ms, cands, i);
    var l := MovesTo(util, n, oldCfg, ms, cands, j);
    assert k != l;
  }

  /** If the assertions on all pairs pass, no candidate is a marked machine, and
      all candidates are strictly below the threshold. */
  lemma CandidatesUnmarked(util: Util, n: nat, oldCfg: Config, ms: seq<nat>, cands: seq<nat>)
    requires PlanInput(util, n, oldCfg, ms, cands) && GuardsOk(util, n, oldCfg, ms, cands)
    ensures forall k, l :: 0 <= k < |ms| && 0 <= l < |ms| ==> cands[k] != ms[l]
    ensures forall k :: 0 <= k < |ms| ==> Total(util, cands[k]) < TH
  {
    forall k | 0 <= k < |ms| ensures Total(util, cands[k]) < TH {
      PairSum(util, oldCfg, ms[k], cands[k]);
    }
  }

  lemma PairSum(util: Util, oldCfg: Config, om: nat, nm: nat)
    requires om < |util| && nm < |util| && |util[om]| == |util[nm]| == 2
    requires Uses(oldCfg, om)
    requires SlotOn(oldCfg, om) < 2 && GuardOk(util, oldCfg, om, nm)
    ensures Total(util, om) + Total(util, nm) < 2.0 * TH
  {
    var os := SlotOn(oldCfg, om);
    var ns := PickSlot(util, om, os, nm);
    assert (os == 0 || os == 1) && (ns == 0 || ns == 1);
    assert util[om][os] + util[om][Other(os)] == Total(util, om);
    assert util[nm][ns] + util[nm][Other(ns)] == Total(util, nm);
  }

  /** A plan that names no slot twice moves elements only to slots the job does not hold. */
  lemma PlanOutside(util: Util, n: nat, oldCfg: Config, ms: seq<nat>, cands: seq<nat>)
    requires PlanInput(util, n, oldCfg, ms, cands) && GuardsOk(util, n, oldCfg, ms, cands)
    requires NoDup(Scatter(util, n, oldCfg, ms, cands))
    ensures MovesOutside(oldCfg, Scatter(util, n, oldCfg, ms, cands))
  {
    var r := Scatter(util, n, oldCfg, ms, cands);
    forall i | 0 <= i < |oldCfg| && r[i] != oldCfg[i] ensures r[i] !in oldCfg {
      if r[i] in oldCfg {
        var j := IndexOf(oldCfg, r[i]);
        var k := MovesTo(util, n, oldCfg, ms, cands, i);
        CandidatesUnmarked(util, n, oldCfg, ms, cands);
      }
    }
  }

  /** After the exchange of the two slots both machines would be below the threshold. */
  predicate PairFits(util: Util, n: nat, from: Elem, to: Elem)
    requires Rect(util, n, 2) && On(n, 2, from) && On(n, 2, to)
  {
    var after := Swapped(util, Swap(from, to));
    Total(after, from.machine) < TH && Total(after, to.machine) < TH
  }

  /** What the two assertions on a pair of different machines test. */
  lemma GuardIff(util: Util, n: nat, oldCfg: Config, om: nat, nm: nat)
    requires Rect(util, n, 2) && om < n && nm < n && om != nm && Uses(oldCfg, om) && SlotOn(oldCfg, om) < 2
    ensures var os := SlotOn(oldCfg, om);
            GuardOk(util, oldCfg, om, nm)
            <==> PairFits(util, n, Elem(om, os), Elem(nm, PickSlot(util, om, os, nm)))
  {
    var os := SlotOn(oldCfg, om);
    var from, to := Elem(om, os), Elem(nm, PickSlot(util, om, os, nm));
    var after := Swapped(util, Swap(from, to));
    assert Get(after, from) == Get(util, to) && Get(after, to) == Get(util, from);
    assert Get(after, Elem(om, 1 - os)) == Get(util, Elem(om, 1 - os));
    assert Get(after, Elem(nm, 1 - to.slot)) == Get(util, Elem(nm, 1 - to.slot));
    assert os == 0 || os == 1;
    assert to.slot == 0 || to.slot == 1;
  }

  /** Every candidate is another machine than its marked one, and exchanging the
      job's slot with the one that the rule picks leaves both below the threshold. */
  ghost predicate AllFit(util: Util, n: nat, oldCfg: Config, ms: seq<nat>, cands: seq<nat>)
    requires PlanInput(util, n, oldCfg, ms, cands)
  {
    forall i, k, to | 0 <= i < |oldCfg| && 0 <= k < |ms| && oldCfg[i].machine == ms[k]
                      && On(n, 2, to) && to.machine == cands[k] && SlotRule(util, oldCfg[i], to) ::
      cands[k] != ms[k] && PairFits(util, n, oldCfg[i], to)
  }

  lemma RulePicks(util: Util, from: Elem, to: Elem)
    requires from.machine < |util| && to.machine < |util| && |util[from.machine]| == |util[to.machine]| == 2
    requires SlotRule(util, from, to)
    ensures to.slot == PickSlot(util, from.machine, from.slot, to.machine)
  {
    var s := PickSlot(util, from.machine, from.slot, to.machine);
    assert s == 0 || s == 1;
    assert to.slot == 0 || to.slot == 1;
  }

  lemma GuardFits(util: Util, n: nat, oldCfg: Config, ms: seq<nat>, cands: seq<nat>, i: nat, k: nat, to: Elem)
    requires PlanInput(util, n, oldCfg, ms, cands) && GuardsOk(util, n, oldCfg, ms, cands)
    requires i < |oldCfg| && k < |ms| && oldCfg[i].machine == ms[k]
    requires On(n, 2, to) && to.machine == cands[k] && SlotRule(util, oldCfg[i], to)
    ensures cands[k] != ms[k] && PairFits(util, n, oldCfg[i], to)
  {
    CandidatesUnmarked(util, n, oldCfg, ms, cands);
    SlotOnIs(oldCfg, oldCfg[i]);
    RulePicks(util, oldCfg[i], to);
    GuardIff(util, n, oldCfg, ms[k], cands[k]);
    assert GuardOk(util, oldCfg, ms[k], cands[k]);
  }

  lemma FitGuards(util: Util, n: nat, oldCfg: Config, ms: seq<nat>, cands: seq<nat>, k: nat)
    requires PlanInput(util, n, oldCfg, ms, cands) && AllFit(util, n, oldCfg, ms, cands) && k < |ms|
    ensures Uses(oldCfg, ms[k]) && SlotOn(oldCfg, ms[k]) < 2 && GuardOk(util, oldCfg, ms[k], cands[k])
  {
    var i := ElemOfMarked(util, n, oldCfg, ms, cands, k);
    var to := Elem(cands[k], PickSlot(util, ms[k], oldCfg[i].slot, cands[k]));
    assert PairFits(util, n, oldCfg[i], to);
    GuardIff(util, n, oldCfg, ms[k], cands[k]);
  }

  /** The planner's assertions hold for all pairs iff all exchanges fit. */
  lemma GuardsIff(util: Util, n: nat, oldCfg: Config, ms: seq<nat>, cands: seq<nat>)
    requires PlanInput(util, n, oldCfg, ms, cands)
    ensures GuardsOk(util, n, oldCfg, ms, cands) <==> AllFit(util, n, oldCfg, ms, cands)
  {
    if GuardsOk(util, n, oldCfg, ms, cands) {
      forall i, k, to | 0 <= i < |oldCfg| && 0 <= k < |ms| && oldCfg[i].machine == ms[k]
                        && On(n, 2, to) && to.machine == cands[k] && SlotRule(util, oldCfg[i], to)
        ensures cands[k] != ms[k] && PairFits(util, n, oldCfg[i], to)
      {
        GuardFits(util, n, oldCfg, ms, cands, i, k, to);
      }
    }
    if AllFit(util, n, oldCfg, ms, cands) {
      forall k | 0 <= k < |ms| ensures GuardOk(util, oldCfg, ms[k], cands[k]) {
        FitGuards(util, n, oldCfg, ms, cands, k);
      }
    }
  }

  /** Every moved element obeys the slot rule and fits where it goes. */
  lemma PlanRule(util: Util, n: nat, oldCfg: Config, ms: seq<nat>, cands: seq<nat>, i: nat)
    requires PlanInput(util, n, oldCfg, ms, cands) && GuardsOk(util, n, oldCfg, ms, cands) && i < |oldCfg|
    ensures var r := Scatter(util, n, oldCfg, ms, cands);
            && On(n, 2, r[i])
            && (r[i] != oldCfg[i] <==> Total(util, oldCfg[i].machine) > TH)
            && (r[i] != oldCfg[i] ==> SlotRule(util, oldCfg[i], r[i]) && PairFits(util, n, oldCfg[i], r[i]))
  {
    PlanStructure(util, n, oldCfg, ms, cands, i);
    if oldCfg[i].machine in ms {
      var k := MovesTo(util, n, oldCfg, ms, cands, i);
      GuardsIff(util, n, oldCfg, ms, cands);
    }
  }

  /** No marked element is planned for a slot that the job holds on the candidate machine. */
  predicate NoneMet(util: Util, n: nat, oldCfg: Config, ms: seq<nat>, cands: seq<nat>)
    requires PlanInput(util, n, oldCfg, ms, cands)
  {
    forall k :: 0 <= k < |ms| && Uses(oldCfg, cands[k]) ==>
      SlotOn(oldCfg, cands[k]) != PickSlot(util, ms[k], SlotOn(oldCfg, ms[k]), cands[k])
  }

  lemma OutsideIff(util: Util, n: nat, oldCfg: Config, ms: seq<nat>, cands: seq<nat>)
    requires PlanInput(util, n, oldCfg, ms, cands) && GuardsOk(util, n, oldCfg, ms, cands)
    ensures MovesOutside(oldCfg, Scatter(util, n, oldCfg, ms, cands)) <==> NoneMet(util, n, oldCfg, ms, cands)
  {
    var r := Scatter(util, n, oldCfg, ms, cands);
    if MovesOutside(oldCfg, r) {
      forall k | 0 <= k < |ms| && Uses(oldCfg, cands[k])
        ensures SlotOn(oldCfg, cands[k]) != PickSlot(util, ms[k], SlotOn(oldCfg, ms[k]), cands[k])
      {
        var i := ElemOfMarked(util, n, oldCfg, ms, cands, k);
        var l := MovesTo(util, n, oldCfg, ms, cands, i);
        assert l == k && r[i] !in oldCfg;
      }
    }
    if NoneMet(util, n, oldCfg, ms, cands) {
      forall i | 0 <= i < |oldCfg| && r[i] != oldCfg[i] ensures r[i] !in oldCfg {
        var k := MovesTo(util, n, oldCfg, ms, cands, i);
        if r[i] in oldCfg {
          SlotOnIs(oldCfg, r[i]);
        }
      }
    }
  }

  lemma SlotOnIs(cfg: Config, c: Elem)
    requires OneEach(cfg) && c in cfg
    ensures Uses(cfg, c.machine) && SlotOn(cfg, c.machine) == c.slot
  {
    var i := IndexOf(cfg, c);
    assert cfg[i].machine == c.machine;
    var j := IndexOf(cfg, Elem(c.machine, SlotOn(cfg, c.machine)));
    assert i == j;
  }

  /** The plan names no slot twice, so the closing assertion of update_config
      holds, exactly when no marked element is planned for a slot that the job
      holds on the candidate machine already. */
  lemma PlanNoDupIff(util: Util, n: nat, oldCfg: Config, ms: seq<nat>, cands: seq<nat>)
    requires PlanInput(util, n, oldCfg, ms, cands) && GuardsOk(util, n, oldCfg, ms, cands)
    ensures NoDup(Scatter(util, n, oldCfg, ms, cands)) <==> NoneMet(util, n, oldCfg, ms, cands)
  {
    var r := Scatter(util, n, oldCfg, ms, cands);
    OutsideIff(util, n, oldCfg, ms, cands);
    if NoDup(r) {
      PlanOutside(util, n, oldCfg, ms, cands);
    }
    if MovesOutside(oldCfg, r) {
      forall i, j | 0 <= i < j < |r| ensures r[i] != r[j] {
        PlanStructure(util, n, oldCfg, ms, cands, i);
        PlanStructure(util, n, oldCfg, ms, cands, j);
        if r[i] != oldCfg[i] && r[j] != oldCfg[j] {
          PlanApart(util, n, oldCfg, ms, cands, i, j);
        }
        assert oldCfg[i] in oldCfg && oldCfg[j] in oldCfg;
      }
    }
  }
}
