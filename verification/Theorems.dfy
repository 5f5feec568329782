/** Whole-run theorems about the multi-app scheduler in VM mode. */
module Theorems {
  import opened Tables
  import opened SlotMap
  import opened Migration
  import opened Bandwidth
  import opened Sorting
  import opened Rebalance
  import opened Rejection
  import opened UpdateAsserts
  import opened Controller
  import opened System
  import opened Safety
  import opened Suspension

  /** Overload safety: whenever the scheduler waits for resources or has finished,
      no machine exceeds the threshold; while it retries job `id`, every machine
      that does carries a slot of `id`. */
  lemma OverloadSafety(env: Env, states: seq<Sys>, labels: seq<Label>, i: nat)
    requires Run(env, states, labels) && i < |states| && states[i].phase != Aborted
    ensures Shape(env, states[i])
    ensures states[i].phase == NextJob || states[i].phase == Finished ==>
              forall m :: 0 <= m < env.n ==> Total(states[i].util, m) <= TH
    ensures states[i].phase.Waiting? ==>
              forall m :: 0 <= m < env.n && Total(states[i].util, m) > TH ==>
                states[i].ctl.usage[m][0] == Some(states[i].phase.id) || states[i].ctl.usage[m][1] == Some(states[i].phase.id)
  {
    RunInv(env, states, labels, i);
    var s := states[i];
    if s.phase.Waiting? {
      assert Blamed(env, s, s.phase.id);
      forall m | 0 <= m < env.n && Total(s.util, m) > TH
        ensures s.ctl.usage[m][0] == Some(s.phase.id) || s.ctl.usage[m][1] == Some(s.phase.id)
      {
        assert Carries(env, s, s.phase.id, m);
      }
    }
  }

  /** In every reachable state a slot holds a job's id exactly when the job is live
      and the slot occurs in its config; ids are below the counter, free slots
      carry no load, and all slots are free exactly when no job is live. */
  lemma UsageInverse(env: Env, states: seq<Sys>, labels: seq<Label>, i: nat)
    requires Run(env, states, labels) && i < |states| && states[i].phase != Aborted
    ensures Shape(env, states[i])
    ensures var s := states[i];
            && (forall j :: j in s.ctl.live ==> j < |s.ctl.configs| && s.ctl.configs[j] != [] && NoDup(s.ctl.configs[j]))
            && (forall c, j: nat | On(env.n, 2, c) :: Get(s.ctl.usage, c) == Some(j) <==>
                  j in s.ctl.live && j < |s.ctl.configs| && c in s.ctl.configs[j])
            && (forall c | On(env.n, 2, c) && Get(s.ctl.usage, c) == None :: Get(s.util, c) == 0.0)
            && ((forall c | On(env.n, 2, c) :: Get(s.ctl.usage, c) == None) <==> s.ctl.live == {})
  {
    RunInv(env, states, labels, i);
    var s := states[i];
    AllFreeIff(s.ctl, env.n, 2);
    forall j | j in s.ctl.live ensures j < |s.ctl.configs| && s.ctl.configs[j] != [] && NoDup(s.ctl.configs[j]) {
      assert Holds(s.ctl, env.n, 2, j);
    }
    forall c, j: nat | On(env.n, 2, c)
      ensures Get(s.ctl.usage, c) == Some(j) <==> j in s.ctl.live && j < |s.ctl.configs| && c in s.ctl.configs[j]
    {
      SlotOwner(s.ctl, env.n, c, j);
    }
  }

  lemma SlotOwner(k: Ctl, n: nat, c: Elem, j: nat)
    requires Consistent(k, n, 2) && On(n, 2, c)
    ensures Get(k.usage, c) == Some(j) <==> j in k.live && j < |k.configs| && c in k.configs[j]
  {
    if j in k.live && c in k.configs[j] {
      assert Holds(k, n, 2, j);
      assert Get(k.usage, k.configs[j][IndexOf(k.configs[j], c)]) == Some(j);
    }
  }

  /** No slot is shared: in every reachable state the occupied slots number
      exactly the summed lengths of the live configs. */
  lemma OccupiedSlots(env: Env, states: seq<Sys>, labels: seq<Label>, i: nat)
    requires Run(env, states, labels) && i < |states| && states[i].phase != Aborted
    ensures Shape(env, states[i])
    ensures var k := states[i].ctl;
            |set c | c in Slots(env.n, 2) && Get(k.usage, c).Some?| == SumLive(k.configs, k.live, |k.configs|)
  {
    RunInv(env, states, labels, i);
    var k := states[i].ctl;
    OccupiedCount(k, env.n, 2, |k.configs|);
    forall c | On(env.n, 2, c) && Get(k.usage, c).Some? ensures Get(k.usage, c).value < |k.configs| {
      assert Get(k.usage, c).value in k.live;
    }
    assert (set c | c in Slots(env.n, 2) && Get(k.usage, c).Some?) == Occupied(k.usage, env.n, 2, |k.configs|);
  }

  // ----- planned rounds

  /** An adopted plan pairs heavy machines with light ones, and sends no element to
      a machine that is heavier than one left alone. */
  lemma PlannedOrder(env: Env, s: Sys, id: nat, ms: seq<nat>, cs: seq<nat>, i: nat, m: nat)
    requires Orders(env, s, id, ms, cs) && PlanHolds(env, s, id, ms, cs)
    requires i < |s.ctl.configs[id]| && m < env.n
    ensures var oldCfg, r := s.ctl.configs[id], Planned(env, s, id, ms, cs);
            && HeavyToLight(s.util, env.n, oldCfg, r)
            && (r[i] != oldCfg[i] ==> On(env.n, 2, r[i]) && r[i].machine in FirstOf(cs, ms))
            && (r[i] != oldCfg[i] && m !in FirstOf(cs, ms) ==> Total(s.util, r[i].machine) <= Total(s.util, m))
  {
    OrdersPlanInput(env, s, id, ms, cs);
    OrdersOrdered(env, s, id, ms, cs);
    PlanOrder(s.util, env.n, s.ctl.configs[id], ms, FirstOf(cs, ms));
    MovesLight(s.util, env.n, s.ctl.configs[id], ms, cs, i, m);
  }

  lemma MovesLight(util: Util, n: nat, oldCfg: Config, ms: seq<nat>, cs: seq<nat>, i: nat, m: nat)
    requires |ms| <= |cs| && PlanInput(util, n, oldCfg, ms, cs[..|ms|]) && GuardsOk(util, n, oldCfg, ms, cs[..|ms|])
    requires Machines(n, cs) && Ordered(util, n, cs, false) && i < |oldCfg| && m < n && m in cs
    ensures var r := Scatter(util, n, oldCfg, ms, cs[..|ms|]);
            r[i] != oldCfg[i] ==>
              && On(n, 2, r[i]) && r[i].machine in cs[..|ms|]
              && (m !in cs[..|ms|] ==> Total(util, r[i].machine) <= Total(util, m))
  {
    var r := Scatter(util, n, oldCfg, ms, cs[..|ms|]);
    if r[i] != oldCfg[i] {
      var k := MovesTo(util, n, oldCfg, ms, cs[..|ms|], i);
      if m !in cs[..|ms|] {
        PrefixLightest(util, n, cs, |ms|, k, m);
      }
    }
  }

  lemma OrdersOrdered(env: Env, s: Sys, id: nat, ms: seq<nat>, cs: seq<nat>)
    requires Orders(env, s, id, ms, cs)
    ensures Machines(env.n, ms) && Ordered(s.util, env.n, ms, true)
    ensures Machines(env.n, FirstOf(cs, ms)) && Ordered(s.util, env.n, FirstOf(cs, ms), false)
    ensures |ms| <= |cs| && Machines(env.n, cs) && Ordered(s.util, env.n, cs, false)
    ensures forall m :: 0 <= m < env.n ==> m in cs
  {
    OrdersPlanInput(env, s, id, ms, cs);
    PermFacts(AllMachines(env.n), cs);
    forall m | 0 <= m < env.n ensures m in cs {
      assert AllMachines(env.n)[m] == m;
    }
  }

  lemma PrefixLightest(util: Util, n: nat, cs: seq<nat>, k: nat, i: nat, m: nat)
    requires Rect(util, n, 2) && Machines(n, cs) && Ordered(util, n, cs, false)
    requires i < k <= |cs| && m in cs && m !in cs[..k]
    ensures Total(util, cs[i]) <= Total(util, m)
  {
    assert cs == cs[..k] + cs[k..];
    var j :| 0 <= j < |cs| - k && cs[k..][j] == m;
    assert Before(util, cs[i], cs[k + j], false);
  }

  // ----- aborted rounds

  /** Exactly when a round ends in a violated assertion: candidates were found for
      the marked machines, but some pair would not stay below the threshold, or an
      element would be sent to a slot the job holds on the candidate machine, or a machine
      that the job keeps sits exactly at the threshold. */
  lemma ResolveAbortsIff(env: Env, s: Sys, id: nat, frozen: bool, ms: seq<nat>, cs: seq<nat>)
    requires Orders(env, s, id, ms, cs) && s.phase != Aborted
    ensures PlanInput(s.util, env.n, s.ctl.configs[id], ms, FirstOf(cs, ms))
    ensures Machines(env.n, ms) && Machines(env.n, FirstOf(cs, ms))
    ensures var oldCfg, cands := s.ctl.configs[id], FirstOf(cs, ms);
            Resolve(env, s, id, frozen, ms, cs).phase == Aborted
            <==> && SumOf(s.util, env.n, ms) + SumOf(s.util, env.n, cands) < 2.0 * TH * |ms| as real
                 && (|| !AllFit(s.util, env.n, oldCfg, ms, cands)
                     || !NoneMet(s.util, env.n, oldCfg, ms, cands)
                     || !NoneAtThreshold(s.util, env.n, oldCfg, ms))
  {
    OrdersPlanInput(env, s, id, ms, cs);
    PlanHoldsWhen(env, s, id, ms, cs);
    GuardsIff(s.util, env.n, s.ctl.configs[id], ms, FirstOf(cs, ms));
    RejectedIff(env, s, id, ms, cs);
  }

  /** Candidates are refused iff the loads of the marked machines and of as many
      lightest ones leave no room. */
  lemma RejectedIff(env: Env, s: Sys, id: nat, ms: seq<nat>, cs: seq<nat>)
    requires Orders(env, s, id, ms, cs)
    ensures Machines(env.n, ms) && Machines(env.n, FirstOf(cs, ms))
    ensures Rejected(env, s, id, ms, cs)
       <==> SumOf(s.util, env.n, ms) + SumOf(s.util, env.n, FirstOf(cs, ms)) >= 2.0 * TH * |ms| as real
  {
    OrdersPlanInput(env, s, id, ms, cs);
    var marked := Marked(s.util, s.ctl.configs[id]);
    SumOfPerm(s.util, env.n, marked, ms);
    CandidatesIff(s.util, env.n, marked, cs);
  }

  lemma PlanHoldsWhen(env: Env, s: Sys, id: nat, ms: seq<nat>, cs: seq<nat>)
    requires Orders(env, s, id, ms, cs)
    requires PlanInput(s.util, env.n, s.ctl.configs[id], ms, FirstOf(cs, ms))
    ensures var oldCfg, cands := s.ctl.configs[id], FirstOf(cs, ms);
            PlanHolds(env, s, id, ms, cs)
            <==> && GuardsOk(s.util, env.n, oldCfg, ms, cands)
                 && NoneMet(s.util, env.n, oldCfg, ms, cands)
                 && NoneAtThreshold(s.util, env.n, oldCfg, ms)
  {
    var oldCfg, cands := s.ctl.configs[id], FirstOf(cs, ms);
    if GuardsOk(s.util, env.n, oldCfg, ms, cands) {
      PlanNoDupIff(s.util, env.n, oldCfg, ms, cands);
      if NoDup(Scatter(s.util, env.n, oldCfg, ms, cands)) {
        AssertsPassIff(s.util, env.n, oldCfg, ms, cands);
      }
    }
  }

  // ----- guests

  lemma ResolveTables(env: Env, s: Sys, id: nat, frozen: bool, ms: seq<nat>, cs: seq<nat>)
    requires Orders(env, s, id, ms, cs)
    ensures var t := Resolve(env, s, id, frozen, ms, cs);
            t.hosts == s.hosts && multiset(Flat(t.vms)) == multiset(Flat(s.vms))
  {
    if Marked(s.util, s.ctl.configs[id]) != [] && !Rejected(env, s, id, ms, cs) && PlanHolds(env, s, id, ms, cs) {
      ResumedMigrated(s, env.n, id, frozen, Planned(env, s, id, ms, cs));
      MigratedVms(s, env.n, id, Planned(env, s, id, ms, cs));
    }
  }

  lemma MigratedVms(s: Sys, n: nat, id: nat, newCfg: Config)
    requires Rect(s.ctl.usage, n, 2) && Rect(s.vms, n, 2) && Rect(s.util, n, 2) && id < |s.ctl.configs|
    requires AllOn(n, 2, s.ctl.configs[id]) && AllOn(n, 2, newCfg) && |newCfg| == |s.ctl.configs[id]|
    ensures multiset(Flat(Migrated(s, n, id, newCfg).vms)) == multiset(Flat(s.vms))
  {
    ZipOn(n, 2, s.ctl.configs[id], newCfg);
    ApplyConserves(s.vms, n, 2, Zip(s.ctl.configs[id], newCfg));
  }

  /** No step loses a VM or rewrites a recorded host list. */
  lemma StepTables(env: Env, s: Sys, l: Label, t: Sys)
    requires Step(env, s, l, t)
    ensures multiset(Flat(t.vms)) == multiset(Flat(s.vms)) && s.hosts <= t.hosts
  {
    match l {
      case Launch(_, _, _) =>
        if t != s.(phase := Aborted) {
          LaunchTables(env, s, l, t);
        }
      case Complete(_) =>
      case Wake(ms, cs) => ResolveTables(env, s, s.phase.id, true, ms, cs);
      case Finish =>
    }
  }

  lemma LaunchTables(env: Env, s: Sys, l: Label, t: Sys)
    requires l.Launch? && LaunchStep(env, s, l, t) && t != s.(phase := Aborted)
    ensures AllOn(env.n, 2, Selected(s.ctl.usage, env.slotSize, env.queue[s.next]))
    ensures t.hosts == s.hosts + [Guests(s.vms, Selected(s.ctl.usage, env.slotSize, env.queue[s.next]))]
    ensures multiset(Flat(t.vms)) == multiset(Flat(s.vms))
  {
    var cfg := Selected(s.ctl.usage, env.slotSize, env.queue[s.next]);
    SelectedOn(s.ctl.usage, env.n, env.slotSize, env.queue[s.next]);
    ResolveTables(env, Launched(s, env.n, cfg, l.loads), |s.ctl.configs|, false, l.ms, l.cs);
  }

  lemma RunTables(env: Env, states: seq<Sys>, labels: seq<Label>, i: nat, k: nat)
    requires Run(env, states, labels) && i <= k < |states|
    ensures multiset(Flat(states[k].vms)) == multiset(Flat(states[i].vms)) && states[i].hosts <= states[k].hosts
  {
    var kept := (j: nat) => j < |states|
                            && multiset(Flat(states[j].vms)) == multiset(Flat(states[i].vms))
                            && states[i].hosts <= states[j].hosts;
    forall j: nat | i <= j < k ensures Keeps(kept, j) {
      if kept(j) {
        StepAt(env, states, labels, j);
        StepTables(env, states[j], labels[j], states[j + 1]);
      }
    }
    Throughout(kept, i, k);
  }

  /** Guest-list stability: at any later time the VMs at a live job's current
      slots are, in order, those of the -hosts list generated when it was
      launched, and the VM table is a permutation of the VMs started at first. */
  lemma GuestListStability(env: Env, states: seq<Sys>, labels: seq<Label>, i: nat, k: nat)
    requires Run(env, states, labels) && i < k < |states| && states[k].phase != Aborted
    requires labels[i].Launch? && states[i + 1] != states[i].(phase := Aborted)
    requires |states[i].ctl.configs| in states[k].ctl.live
    ensures var id := |states[i].ctl.configs|;
            var cfg := Selected(states[i].ctl.usage, env.slotSize, env.queue[states[i].next]);
            && Shape(env, states[i]) && Shape(env, states[k]) && AllOn(env.n, 2, cfg)
            && id < |states[k].ctl.configs| && AllOn(env.n, 2, states[k].ctl.configs[id])
            && Guests(states[k].vms, states[k].ctl.configs[id]) == Guests(states[i].vms, cfg)
            && |states[k].ctl.configs[id]| == |cfg| == |states[k].hosts[id]|
            && (forall l :: 0 <= l < |cfg| ==>
                  Get(states[k].vms, states[k].ctl.configs[id][l]) == Get(states[i].vms, cfg[l]) == states[k].hosts[id][l])
            && multiset(Flat(states[k].vms)) == multiset(Flat(states[0].vms))
  {
    var id := |states[i].ctl.configs|;
    ListedAtLaunch(env, states, labels, i, k);
    ListedNow(env, states, labels, k, id);
    RunTables(env, states, labels, 0, k);
    SameGuests(states[k].vms, states[k].ctl.configs[id], states[i].vms,
               Selected(states[i].ctl.usage, env.slotSize, env.queue[states[i].next]));
  }

  /** The list recorded at the launch is still there later. */
  lemma ListedAtLaunch(env: Env, states: seq<Sys>, labels: seq<Label>, i: nat, k: nat)
    requires Run(env, states, labels) && i < k < |states|
    requires labels[i].Launch? && states[i + 1] != states[i].(phase := Aborted)
    ensures Shape(env, states[i]) && env.slotSize > 0 && states[i].next < |env.queue|
    ensures var cfg := Selected(states[i].ctl.usage, env.slotSize, env.queue[states[i].next]);
            && AllOn(env.n, 2, cfg) && |states[i].ctl.configs| < |states[k].hosts|
            && states[k].hosts[|states[i].ctl.configs|] == Guests(states[i].vms, cfg)
  {
    StepAt(env, states, labels, i);
    LaunchTables(env, states[i], labels[i], states[i + 1]);
    RunTables(env, states, labels, i + 1, k);
    assert states[k].hosts[|states[i].ctl.configs|] == states[i + 1].hosts[|states[i].ctl.configs|];
  }

  lemma ListedNow(env: Env, states: seq<Sys>, labels: seq<Label>, k: nat, id: nat)
    requires Run(env, states, labels) && k < |states| && states[k].phase != Aborted && id in states[k].ctl.live
    ensures Shape(env, states[k]) && id < |states[k].ctl.configs| && AllOn(env.n, 2, states[k].ctl.configs[id])
    ensures Guests(states[k].vms, states[k].ctl.configs[id]) == states[k].hosts[id]
  {
    RunInv(env, states, labels, k);
  }

  lemma SameGuests(a: Table<string>, c: Config, b: Table<string>, d: Config)
    requires (forall l :: 0 <= l < |c| ==> In(a, c[l])) && (forall l :: 0 <= l < |d| ==> In(b, d[l]))
    requires Guests(a, c) == Guests(b, d)
    ensures |c| == |d| && forall l :: 0 <= l < |c| ==> Get(a, c[l]) == Get(b, d[l]) == Guests(a, c)[l]
  {
    forall l | 0 <= l < |c| ensures Get(a, c[l]) == Get(b, d[l]) == Guests(a, c)[l] {
      assert Guests(a, c)[l] == Guests(b, d)[l];
    }
  }

  // ----- suspension

  /** Suspension safety in its strict form: at every point nothing is suspended
      between jobs and exactly the new job's VMs in the retry loop, if and only if
      no suspended job completes on the way. */
  lemma SuspendedIff(env: Env, states: seq<Sys>, labels: seq<Label>, i: nat)
    requires Run(env, states, labels) && i < |states| && states[i].phase != Aborted
    ensures forall k :: 0 <= k <= i ==> Shape(env, states[k])
    ensures (forall k :: 0 <= k <= i ==> SuspendedFits(env, states[k]))
       <==> (forall k :: 0 <= k < i ==> Gentle(env, states[k], labels[k]))
  {
    UnabortedSoFar(env, states, labels, i);
    if forall k :: 0 <= k <= i ==> SuspendedFits(env, states[k]) {
      forall k | 0 <= k < i ensures Gentle(env, states[k], labels[k]) {
        SuspendedAt(env, states, labels, i, k);
      }
    }
    if forall k :: 0 <= k < i ==> Gentle(env, states[k], labels[k]) {
      forall k | 0 <= k <= i ensures SuspendedFits(env, states[k]) {
        StaysFitting(env, states, labels, i, k);
      }
    }
  }

  lemma SuspendedAt(env: Env, states: seq<Sys>, labels: seq<Label>, i: nat, k: nat)
    requires Run(env, states, labels) && k < i < |states| && states[i].phase != Aborted
    requires Shape(env, states[k]) && SuspendedFits(env, states[k])
    ensures Shape(env, states[k + 1])
    ensures SuspendedFits(env, states[k + 1]) <==> Gentle(env, states[k], labels[k])
  {
    UnabortedSoFar(env, states, labels, i);
    StepAt(env, states, labels, k);
    StepSuspendedIff(env, states[k], labels[k], states[k + 1]);
  }

  lemma StaysFitting(env: Env, states: seq<Sys>, labels: seq<Label>, i: nat, k: nat)
    requires Run(env, states, labels) && k <= i < |states| && states[i].phase != Aborted
    requires forall j :: 0 <= j < i ==> Shape(env, states[j]) && Gentle(env, states[j], labels[j])
    ensures Shape(env, states[k]) && SuspendedFits(env, states[k])
  {
    var fits := (j: nat) => j < |states| && Shape(env, states[j]) && SuspendedFits(env, states[j]);
    UnabortedSoFar(env, states, labels, i);
    forall j: nat | j < k ensures Keeps(fits, j) {
      if fits(j) {
        SuspendedAt(env, states, labels, i, j);
      }
    }
    Throughout(fits, 0, k);
  }

  /** Suspension safety of live jobs, for runs with any completions: between jobs no
      live job is suspended, and in the retry loop only the newest may be, if and
      only if no launch that went straight on used a VM left suspended. */
  lemma LiveAwakeIff(env: Env, states: seq<Sys>, labels: seq<Label>, i: nat)
    requires Run(env, states, labels) && i < |states| && states[i].phase != Aborted
    ensures forall k :: 0 <= k <= i ==> Shape(env, states[k])
    ensures (forall k :: 0 <= k <= i ==> LiveAwake(env, states[k]))
       <==> (forall k :: 0 <= k < i ==> PlacedAwake(env, states[k], labels[k], states[k + 1]))
  {
    UnabortedSoFar(env, states, labels, i);
    if forall k :: 0 <= k <= i ==> LiveAwake(env, states[k]) {
      forall k | 0 <= k < i ensures PlacedAwake(env, states[k], labels[k], states[k + 1]) {
        AwakeAt(env, states, labels, i, k);
      }
    }
    if forall k :: 0 <= k < i ==> PlacedAwake(env, states[k], labels[k], states[k + 1]) {
      forall k | 0 <= k <= i ensures LiveAwake(env, states[k]) {
        StaysAwake(env, states, labels, i, k);
      }
    }
  }

  lemma AwakeAt(env: Env, states: seq<Sys>, labels: seq<Label>, i: nat, k: nat)
    requires Run(env, states, labels) && k < i < |states| && states[i].phase != Aborted
    requires Shape(env, states[k]) && LiveAwake(env, states[k])
    ensures Shape(env, states[k + 1])
    ensures LiveAwake(env, states[k + 1]) <==> PlacedAwake(env, states[k], labels[k], states[k + 1])
  {
    UnabortedSoFar(env, states, labels, i);
    StepAt(env, states, labels, k);
    StepAwakeIff(env, states[k], labels[k], states[k + 1]);
  }

  lemma StaysAwake(env: Env, states: seq<Sys>, labels: seq<Label>, i: nat, k: nat)
    requires Run(env, states, labels) && k <= i < |states| && states[i].phase != Aborted
    requires forall j :: 0 <= j < i ==> Shape(env, states[j]) && PlacedAwake(env, states[j], labels[j], states[j + 1])
    ensures Shape(env, states[k]) && LiveAwake(env, states[k])
  {
    var awake := (j: nat) => j < |states| && Shape(env, states[j]) && LiveAwake(env, states[j]);
    UnabortedSoFar(env, states, labels, i);
    forall j: nat | j < k ensures Keeps(awake, j) {
      if awake(j) {
        AwakeAt(env, states, labels, i, j);
      }
    }
    Throughout(awake, 0, k);
  }

  /** Nothing happens after an abort, so the invariants hold up to any state before. */
  lemma UnabortedSoFar(env: Env, states: seq<Sys>, labels: seq<Label>, i: nat)
    requires Run(env, states, labels) && i < |states| && states[i].phase != Aborted
    ensures forall k :: 0 <= k <= i ==> states[k].phase != Aborted && Base(env, states[k]) && PhaseFits(env, states[k])
  {
    forall k | 0 <= k <= i ensures states[k].phase != Aborted && Base(env, states[k]) && PhaseFits(env, states[k]) {
      RunInv(env, states, labels, k);
      if k < i {
        StepAt(env, states, labels, k);
        NotStuck(env, states[k], labels[k], states[k + 1]);
      }
    }
  }

  lemma NotStuck(env: Env, s: Sys, l: Label, t: Sys)
    requires Step(env, s, l, t)
    ensures s.phase != Aborted
  {
  }
}
