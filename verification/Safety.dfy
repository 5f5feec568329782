/** Invariants of the multi-app scheduler in VM mode, kept by every step. */
module Safety {
  import opened Tables
  import opened SlotMap
  import opened Migration
  import opened Bandwidth
  import opened Rebalance
  import opened UpdateAsserts
  import opened Rejection
  import opened Selection
  import opened Controller
  import opened System

  /** Free slots carry no load, and no load is negative. */
  ghost predicate LoadsFit(env: Env, s: Sys)
    requires Shape(env, s)
  {
    forall c | On(env.n, 2, c) ::
      Get(s.util, c) >= 0.0 && (Get(s.ctl.usage, c) == None ==> Get(s.util, c) == 0.0)
  }

  /** The VMs at a live job's slots are those in the host list it was started with. */
  ghost predicate GuestsFit(env: Env, s: Sys)
    requires Shape(env, s)
  {
    forall j | j in s.ctl.live :: j < |s.ctl.configs| && AllOn(env.n, 2, s.ctl.configs[j])
                                  && Guests(s.vms, s.ctl.configs[j]) == s.hosts[j]
  }

  ghost predicate Base(env: Env, s: Sys) {
    && Shape(env, s) && Consistent(s.ctl, env.n, 2) && LoadsFit(env, s) && GuestsFit(env, s)
    && Injective(s.vms, env.n, 2)
  }

  ghost predicate NoOverload(env: Env, s: Sys)
    requires Shape(env, s)
  {
    forall m :: 0 <= m < env.n ==> Total(s.util, m) <= TH
  }

  ghost predicate Carries(env: Env, s: Sys, id: nat, m: nat)
    requires Shape(env, s) && m < env.n
  {
    s.ctl.usage[m][0] == Some(id) || s.ctl.usage[m][1] == Some(id)
  }

  /** Any overload is due to job `id`: it sits on every overloaded machine, and
      no slot of another job exceeds the threshold alone. */
  ghost predicate Blamed(env: Env, s: Sys, id: nat)
    requires Shape(env, s)
  {
    && id < |s.ctl.configs| && AllOn(env.n, 2, s.ctl.configs[id]) && OneEach(s.ctl.configs[id])
    && (forall m :: 0 <= m < env.n && Total(s.util, m) > TH ==> Carries(env, s, id, m))
    && (forall c | On(env.n, 2, c) && Get(s.ctl.usage, c) != Some(id) :: Get(s.util, c) <= TH)
  }

  ghost predicate PhaseFits(env: Env, s: Sys)
    requires Shape(env, s)
  {
    match s.phase
    case NextJob => NoOverload(env, s)
    case Waiting(id, completed) =>
      Blamed(env, s, id) && (completed || exists m :: 0 <= m < env.n && Total(s.util, m) > TH)
    case Finished => NoOverload(env, s) && s.ctl.live == {}
    case Aborted => true
  }

  ghost predicate Inv(env: Env, s: Sys) {
    s.phase == Aborted || (Base(env, s) && PhaseFits(env, s))
  }

  // ----- initial states

  lemma InitInv(env: Env, s: Sys)
    requires Init(env, s)
    ensures Inv(env, s)
  {
    assert Shape(env, s);
    forall c | On(env.n, 2, c) ensures Get(s.util, c) == 0.0 && Get(s.ctl.usage, c) == None {
    }
  }

  // ----- completion

  lemma CompletedBase(env: Env, s: Sys, j: nat)
    requires Base(env, s) && j in s.ctl.live
    ensures j < |s.ctl.configs| && AllOn(env.n, 2, s.ctl.configs[j])
    ensures Base(env, Completed(s, env.n, j))
  {
    CompleteConsistent(s.ctl, env.n, 2, j);
    var t := Completed(s, env.n, j);
    forall c | On(env.n, 2, c)
      ensures Get(t.util, c) >= 0.0 && (Get(t.ctl.usage, c) == None ==> Get(t.util, c) == 0.0)
    {
      assert Get(s.util, c) >= 0.0;
    }
  }

  lemma CompletedLoads(env: Env, s: Sys, j: nat, c: Elem)
    requires Base(env, s) && j in s.ctl.live && On(env.n, 2, c)
    ensures j < |s.ctl.configs| && AllOn(env.n, 2, s.ctl.configs[j])
    ensures var t := Completed(s, env.n, j);
            && 0.0 <= Get(t.util, c) <= Get(s.util, c)
            && (if Get(s.ctl.usage, c) == Some(j) then Get(t.util, c) == 0.0 && Get(t.ctl.usage, c) == None
                else Get(t.ctl.usage, c) == Get(s.ctl.usage, c))
  {
    assert Holds(s.ctl, env.n, 2, j);
    assert Get(s.util, c) >= 0.0;
    if c in s.ctl.configs[j] {
      var i := IndexOf(s.ctl.configs[j], c);
      assert Get(s.ctl.usage, s.ctl.configs[j][i]) == Some(j);
    }
  }

  lemma CompletedTotal(env: Env, s: Sys, j: nat, m: nat)
    requires Base(env, s) && j in s.ctl.live && m < env.n
    ensures j < |s.ctl.configs| && AllOn(env.n, 2, s.ctl.configs[j])
    ensures Total(Completed(s, env.n, j).util, m) <= Total(s.util, m)
  {
    CompletedLoads(env, s, j, Elem(m, 0));
    CompletedLoads(env, s, j, Elem(m, 1));
    TotalOf(s.util, env.n, m, 0);
    TotalOf(Completed(s, env.n, j).util, env.n, m, 0);
  }

  lemma CompletedBlamed(env: Env, s: Sys, j: nat, id: nat)
    requires Base(env, s) && j in s.ctl.live && Blamed(env, s, id)
    ensures j < |s.ctl.configs| && AllOn(env.n, 2, s.ctl.configs[j])
    ensures Blamed(env, Completed(s, env.n, j), id)
  {
    CompletedBase(env, s, j);
    var t := Completed(s, env.n, j);
    forall c | On(env.n, 2, c) && Get(t.ctl.usage, c) != Some(id) ensures Get(t.util, c) <= TH {
      CompletedLoads(env, s, j, c);
    }
    forall m | 0 <= m < env.n && Total(t.util, m) > TH ensures Carries(env, t, id, m) {
      CompletedTotal(env, s, j, m);
      var c, d := Elem(m, 0), Elem(m, 1);
      CompletedLoads(env, s, j, c);
      CompletedLoads(env, s, j, d);
      TotalOf(t.util, env.n, m, 0);
    }
  }

  lemma CompleteInv(env: Env, s: Sys, j: nat)
    requires Base(env, s) && PhaseFits(env, s) && (s.phase == NextJob || s.phase.Waiting?) && j in s.ctl.live
    ensures j < |s.ctl.configs| && AllOn(env.n, 2, s.ctl.configs[j])
    ensures Inv(env, Completed(s, env.n, j))
  {
    CompletedBase(env, s, j);
    var t := Completed(s, env.n, j);
    match s.phase {
      case NextJob =>
        forall m | 0 <= m < env.n ensures Total(t.util, m) <= TH {
          CompletedTotal(env, s, j, m);
        }
      case Waiting(id, _) =>
        CompletedBlamed(env, s, j, id);
    }
  }

  // ----- launching

  /** The selected slots are free and on distinct machines, so all assertions of execute hold. */
  lemma SelectedLaunchable(env: Env, s: Sys, cfg: Config)
    requires Shape(env, s) && env.slotSize > 0 && cfg != []
    requires exists req :: cfg == Selected(s.ctl.usage, env.slotSize, req)
    ensures Launchable(s.ctl, env.n, 2, cfg) && OneEach(cfg) && AllOn(env.n, 2, Opposing(cfg))
  {
    var req :| cfg == Selected(s.ctl.usage, env.slotSize, req);
    SelectedOn(s.ctl.usage, env.n, env.slotSize, req);
    OneEachNoDup(cfg);
  }

  lemma PlacedHolds(env: Env, s: Sys, cfg: Config, loads: seq<real>, c: Elem)
    requires Shape(env, s) && Consistent(s.ctl, env.n, 2) && Launchable(s.ctl, env.n, 2, cfg)
    requires AllOn(env.n, 2, Opposing(cfg)) && |loads| == |cfg| && LoadsOk(loads) && On(env.n, 2, c)
    ensures var t := Launched(s, env.n, cfg, loads);
            if c in cfg then Get(t.ctl.usage, c) == Some(|s.ctl.configs|) && Get(t.util, c) == loads[IndexOf(cfg, c)]
            else Get(t.ctl.usage, c) == Get(s.ctl.usage, c) && Get(t.util, c) == Get(s.util, c)
  {
    if c in cfg {
      WriteAt(s.util, cfg, loads, IndexOf(cfg, c));
    }
  }

  /** Before the measurement is recorded the new job's slots carry no load: the
      assertion that membw_util is zero there never fires. */
  lemma MeasuredSlotsIdle(env: Env, s: Sys, cfg: Config)
    requires Base(env, s) && Launchable(s.ctl, env.n, 2, cfg)
    ensures forall i :: 0 <= i < |cfg| ==> Get(s.util, cfg[i]) == 0.0
  {
  }

  lemma LaunchedBase(env: Env, s: Sys, cfg: Config, loads: seq<real>)
    requires Base(env, s) && Launchable(s.ctl, env.n, 2, cfg)
    requires AllOn(env.n, 2, Opposing(cfg)) && |loads| == |cfg| && LoadsOk(loads)
    ensures Base(env, Launched(s, env.n, cfg, loads))
  {
    var t := Launched(s, env.n, cfg, loads);
    ExecuteConsistent(s.ctl, env.n, 2, cfg);
    forall c | On(env.n, 2, c)
      ensures Get(t.util, c) >= 0.0 && (Get(t.ctl.usage, c) == None ==> Get(t.util, c) == 0.0)
    {
      PlacedHolds(env, s, cfg, loads, c);
      assert Get(s.util, c) >= 0.0;
    }
  }

  lemma LaunchedBlamed(env: Env, s: Sys, cfg: Config, loads: seq<real>)
    requires Base(env, s) && NoOverload(env, s) && Launchable(s.ctl, env.n, 2, cfg) && OneEach(cfg)
    requires AllOn(env.n, 2, Opposing(cfg)) && |loads| == |cfg| && LoadsOk(loads)
    ensures Blamed(env, Launched(s, env.n, cfg, loads), |s.ctl.configs|)
  {
    var t := Launched(s, env.n, cfg, loads);
    var id := |s.ctl.configs|;
    assert t.ctl.configs[id] == cfg;
    forall c | On(env.n, 2, c) && Get(t.ctl.usage, c) != Some(id) ensures Get(t.util, c) <= TH {
      PlacedHolds(env, s, cfg, loads, c);
      SlotBelowTotal(env, s, c);
    }
    forall m | 0 <= m < env.n && Total(t.util, m) > TH ensures Carries(env, t, id, m) {
      PlacedHolds(env, s, cfg, loads, Elem(m, 0));
      PlacedHolds(env, s, cfg, loads, Elem(m, 1));
      TotalOf(s.util, env.n, m, 0);
      TotalOf(t.util, env.n, m, 0);
      assert Total(s.util, m) <= TH;
    }
  }

  lemma SlotBelowTotal(env: Env, s: Sys, c: Elem)
    requires Base(env, s) && NoOverload(env, s) && On(env.n, 2, c)
    ensures Get(s.util, c) <= TH
  {
    TotalOf(s.util, env.n, c.machine, c.slot);
    assert Get(s.util, Elem(c.machine, Other(c.slot))) >= 0.0;
    assert Total(s.util, c.machine) <= TH;
  }

  // ----- one round of the retry loop

  /** A marked machine means that the job is live, hence its slots are occupied. */
  lemma MarkedLive(env: Env, s: Sys, id: nat)
    requires Base(env, s) && Blamed(env, s, id) && Marked(s.util, s.ctl.configs[id]) != []
    ensures id in s.ctl.live
    ensures exists m :: 0 <= m < env.n && Total(s.util, m) > TH
  {
    var m := Marked(s.util, s.ctl.configs[id])[0];
    assert Carries(env, s, id, m);
    assert Get(s.ctl.usage, Elem(m, 0)) == Some(id) || Get(s.ctl.usage, Elem(m, 1)) == Some(id);
  }

  lemma OverloadedMarked(env: Env, s: Sys, id: nat, m: nat)
    requires Base(env, s) && Blamed(env, s, id) && m < env.n && Total(s.util, m) > TH
    ensures m in Marked(s.util, s.ctl.configs[id])
  {
    assert Carries(env, s, id, m);
    var c := if s.ctl.usage[m][0] == Some(id) then Elem(m, 0) else Elem(m, 1);
    assert Get(s.ctl.usage, c) == Some(id);
    var i := IndexOf(s.ctl.configs[id], c);
  }

  /** The base invariants do not mention suspended VMs, the queue position or the phase. */
  lemma BaseSame(env: Env, s: Sys, t: Sys)
    requires Base(env, s) && t.ctl == s.ctl && t.vms == s.vms && t.util == s.util && t.hosts == s.hosts
    ensures Base(env, t)
  {
  }

  lemma ResumedMigrated(s: Sys, n: nat, id: nat, frozen: bool, newCfg: Config)
    requires Rect(s.ctl.usage, n, 2) && Rect(s.vms, n, 2) && Rect(s.util, n, 2) && id < |s.ctl.configs|
    requires AllOn(n, 2, s.ctl.configs[id]) && AllOn(n, 2, newCfg) && |newCfg| == |s.ctl.configs[id]|
    ensures Migrated(Resumed(s, n, id, frozen), n, id, newCfg)
         == Migrated(s, n, id, newCfg).(suspended := Resumed(s, n, id, frozen).suspended)
  {
  }

  lemma MigratedLoads(env: Env, s: Sys, id: nat, newCfg: Config)
    requires Base(env, s) && id in s.ctl.live && id < |s.ctl.configs| && AllOn(env.n, 2, s.ctl.configs[id])
    requires AllOn(env.n, 2, newCfg) && |newCfg| == |s.ctl.configs[id]| && NoChainAhead(s.ctl.configs[id], newCfg)
    requires NoDup(s.ctl.configs[id])
    ensures Shape(env, Migrated(s, env.n, id, newCfg)) && LoadsFit(env, Migrated(s, env.n, id, newCfg))
  {
    var oldCfg := s.ctl.configs[id];
    var t := Migrated(s, env.n, id, newCfg);
    var z := Zip(oldCfg, newCfg);
    ZipOn(env.n, 2, oldCfg, newCfg);
    ZipIsUpdate(oldCfg, newCfg, oldCfg, 0);
    assert z[0..] == z;
    forall c | On(env.n, 2, c)
      ensures Get(t.util, c) >= 0.0 && (Get(t.ctl.usage, c) == None ==> Get(t.util, c) == 0.0)
    {
      ApplyOrigin(s.util, env.n, 2, z, c);
      ApplyOrigin(s.ctl.usage, env.n, 2, z, c);
      assert Get(s.util, Origin(z, c)) >= 0.0;
    }
  }

  /** A migration keeps all invariants, since VMs, usage, configs and loads follow one permutation. */
  lemma MigratedBase(env: Env, s: Sys, id: nat, newCfg: Config)
    requires Base(env, s) && id in s.ctl.live && id < |s.ctl.configs| && AllOn(env.n, 2, s.ctl.configs[id])
    requires AllOn(env.n, 2, newCfg) && |newCfg| == |s.ctl.configs[id]| && NoDup(newCfg)
    requires NoChainAhead(s.ctl.configs[id], newCfg)
    ensures Base(env, Migrated(s, env.n, id, newCfg))
  {
    assert Holds(s.ctl, env.n, 2, id);
    var t := Migrated(s, env.n, id, newCfg);
    MigratedLoads(env, s, id, newCfg);
    UpdateCorrect(s.ctl, env.n, 2, id, newCfg);
    ZipOn(env.n, 2, s.ctl.configs[id], newCfg);
    InjectiveKept(s.vms, env.n, 2, Zip(s.ctl.configs[id], newCfg));
    forall j | j in t.ctl.live
      ensures j < |t.ctl.configs| && AllOn(env.n, 2, t.ctl.configs[j])
              && Guests(t.vms, t.ctl.configs[j]) == t.hosts[j]
    {
      GuestsStable(s.ctl, s.vms, env.n, 2, id, newCfg, j);
    }
  }

  lemma PlannedNoChain(env: Env, s: Sys, id: nat, ms: seq<nat>, cs: seq<nat>)
    requires Orders(env, s, id, ms, cs) && PlanHolds(env, s, id, ms, cs)
    ensures NoDup(Planned(env, s, id, ms, cs))
    ensures NoChainAhead(s.ctl.configs[id], Planned(env, s, id, ms, cs))
  {
    OrdersPlanInput(env, s, id, ms, cs);
    PlanOutside(s.util, env.n, s.ctl.configs[id], ms, FirstOf(cs, ms));
    OneEachNoDup(s.ctl.configs[id]);
    OutsideNoChain(s.ctl.configs[id], Planned(env, s, id, ms, cs));
  }

  lemma MigratedUtil(env: Env, s: Sys, id: nat, ms: seq<nat>, cs: seq<nat>)
    requires Orders(env, s, id, ms, cs) && PlanHolds(env, s, id, ms, cs)
    ensures var oldCfg, cands := s.ctl.configs[id], FirstOf(cs, ms);
            && GoodPlan(s.util, env.n, oldCfg, ms, cands)
            && Planned(env, s, id, ms, cs) == Scatter(s.util, env.n, oldCfg, ms, cands)
            && Migrated(s, env.n, id, Planned(env, s, id, ms, cs)).util == AfterPlan(s.util, env.n, oldCfg, ms, cands)
  {
  }

  lemma MigratedCalm(env: Env, s: Sys, id: nat, ms: seq<nat>, cs: seq<nat>)
    requires Base(env, s) && Blamed(env, s, id) && Orders(env, s, id, ms, cs) && PlanHolds(env, s, id, ms, cs)
    ensures forall m :: 0 <= m < env.n ==> Total(Migrated(s, env.n, id, Planned(env, s, id, ms, cs)).util, m) <= TH
  {
    MigratedUtil(env, s, id, ms, cs);
    OrdersPlanInput(env, s, id, ms, cs);
    forall m | 0 <= m < env.n && Total(s.util, m) > TH ensures m in ms {
      OverloadedMarked(env, s, id, m);
    }
    PlanResolves(s.util, env.n, s.ctl.configs[id], ms, FirstOf(cs, ms));
  }

  lemma ResolveMigrates(env: Env, s: Sys, id: nat, ms: seq<nat>, cs: seq<nat>)
    requires Base(env, s) && Blamed(env, s, id) && Orders(env, s, id, ms, cs) && PlanHolds(env, s, id, ms, cs)
    requires Marked(s.util, s.ctl.configs[id]) != []
    ensures Base(env, Migrated(s, env.n, id, Planned(env, s, id, ms, cs)))
  {
    MarkedLive(env, s, id);
    PlannedNoChain(env, s, id, ms, cs);
    MigratedBase(env, s, id, Planned(env, s, id, ms, cs));
  }

  lemma ResolvePlanInv(env: Env, s: Sys, id: nat, frozen: bool, ms: seq<nat>, cs: seq<nat>)
    requires Base(env, s) && Blamed(env, s, id) && Orders(env, s, id, ms, cs) && PlanHolds(env, s, id, ms, cs)
    requires Marked(s.util, s.ctl.configs[id]) != []
    ensures Inv(env, Proceed(Migrated(Resumed(s, env.n, id, frozen), env.n, id, Planned(env, s, id, ms, cs))))
  {
    var newCfg := Planned(env, s, id, ms, cs);
    var q := Migrated(s, env.n, id, newCfg);
    ResolveMigrates(env, s, id, ms, cs);
    MigratedCalm(env, s, id, ms, cs);
    ResumedMigrated(s, env.n, id, frozen, newCfg);
    NextInv(env, q, Proceed(q.(suspended := Resumed(s, env.n, id, frozen).suspended)));
  }

  lemma WaitInv(env: Env, s: Sys, id: nat, t: Sys)
    requires Base(env, s) && Blamed(env, s, id) && exists m :: 0 <= m < env.n && Total(s.util, m) > TH
    requires t.ctl == s.ctl && t.vms == s.vms && t.util == s.util && t.hosts == s.hosts && t.phase == Waiting(id, false)
    ensures Inv(env, t)
  {
    BaseSame(env, s, t);
    forall m | 0 <= m < env.n && Total(t.util, m) > TH ensures Carries(env, t, id, m) {
      assert Carries(env, s, id, m);
    }
  }

  lemma NextInv(env: Env, q: Sys, t: Sys)
    requires Base(env, q) && forall m :: 0 <= m < env.n ==> Total(q.util, m) <= TH
    requires t.ctl == q.ctl && t.vms == q.vms && t.util == q.util && t.hosts == q.hosts && t.phase == NextJob
    ensures Inv(env, t)
  {
    BaseSame(env, q, t);
  }

  lemma ResolveInv(env: Env, s: Sys, id: nat, frozen: bool, ms: seq<nat>, cs: seq<nat>)
    requires Base(env, s) && Blamed(env, s, id) && Orders(env, s, id, ms, cs)
    ensures Inv(env, Resolve(env, s, id, frozen, ms, cs))
  {
    if Marked(s.util, s.ctl.configs[id]) == [] {
      forall m | 0 <= m < env.n ensures Total(s.util, m) <= TH {
        if Total(s.util, m) > TH { OverloadedMarked(env, s, id, m); }
      }
      NextInv(env, s, Proceed(Resumed(s, env.n, id, frozen)));
    } else if Rejected(env, s, id, ms, cs) {
      MarkedLive(env, s, id);
      WaitInv(env, s, id, Frozen(s, env.n, id, frozen).(phase := Waiting(id, false)));
    } else if PlanHolds(env, s, id, ms, cs) {
      ResolvePlanInv(env, s, id, frozen, ms, cs);
    }
  }

  // ----- runs

  lemma LaunchInv(env: Env, s: Sys, l: Label, t: Sys)
    requires Inv(env, s) && l.Launch? && LaunchStep(env, s, l, t)
    ensures Inv(env, t)
  {
    var req := env.queue[s.next];
    var cfg := Selected(s.ctl.usage, env.slotSize, req);
    SelectedOn(s.ctl.usage, env.n, env.slotSize, req);
    if t.phase != Aborted {
      SelectedLaunchable(env, s, cfg);
      LaunchedBase(env, s, cfg, l.loads);
      LaunchedBlamed(env, s, cfg, l.loads);
      ResolveInv(env, Launched(s, env.n, cfg, l.loads), |s.ctl.configs|, false, l.ms, l.cs);
    }
  }

  /** Every step keeps the invariant. */
  lemma StepInv(env: Env, s: Sys, l: Label, t: Sys)
    requires Inv(env, s) && Step(env, s, l, t)
    ensures Inv(env, t)
  {
    match l {
      case Launch(_, _, _) => LaunchInv(env, s, l, t);
      case Complete(j) => CompleteInv(env, s, j);
      case Wake(ms, cs) => ResolveInv(env, s, s.phase.id, true, ms, cs);
      case Finish => AllFreeIff(s.ctl, env.n, 2);
    }
  }

  lemma RunInv(env: Env, states: seq<Sys>, labels: seq<Label>, i: nat)
    requires Run(env, states, labels) && i < |states|
    ensures Inv(env, states[i])
  {
    var inv := (j: nat) => j < |states| && Inv(env, states[j]);
    InitInv(env, states[0]);
    forall j: nat | j < i ensures Keeps(inv, j) {
      if inv(j) {
        StepAt(env, states, labels, j);
        StepInv(env, states[j], labels[j], states[j + 1]);
      }
    }
    Throughout(inv, 0, i);
  }
}
