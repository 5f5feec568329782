/** The schedule method in VM mode, on the objects, proved to produce a run of
    the transition system.  Measured loads are inputs, and any live job's command
    may complete during a wait, also that of a suspended job: it may have ended
    before the job was frozen.  A wait comes to an end if some live job is awake;
    otherwise it may also last forever.  wait_for_change returns only after at
    least one completion. */
module Schedule {
  import opened Tables
  import opened SlotMap
  import opened Migration
  import opened Bandwidth
  import opened Rebalance
  import opened UpdateAsserts
  import opened Rejection
  import opened Selection
  import opened Controller
  import opened VmController
  import opened Scheduler
  import opened System
  import opened Safety
  import opened Suspension
  import opened Theorems
  import opened Progress

  function SysOf(sched: MultiAppScheduler, vc: VmController, next: nat, phase: Phase): Sys
    reads sched, vc, vc.ctl
  {
    Sys(vc.ctl.State(), vc.vmLocations, sched.membwUtil, vc.suspended, vc.hostLists, next, phase)
  }

  ghost predicate Wired(env: Env, sched: MultiAppScheduler, vc: VmController)
    reads sched, vc, vc.ctl
  {
    && sched.Valid() && vc.Valid() && sched.n == vc.ctl.n == env.n && vc.ctl.slotSize == env.slotSize
  }

  datatype Outcome = Done | Wait | Abort

  /** The state the objects are in when a round of the retry loop ends. */
  ghost predicate RoundResult(sys: Sys, outcome: Outcome, id: nat, t: Sys) {
    match outcome
    case Done => t == sys.(next := sys.next + 1, phase := NextJob)
    case Wait => t == sys.(phase := Waiting(id, false))
    case Abort => t.phase == Aborted
  }

  lemma PlanKeepsHosts(util: Util, n: nat, oldCfg: Config, ms: seq<nat>, cands: seq<nat>)
    requires PlanInput(util, n, oldCfg, ms, cands) && GuardsOk(util, n, oldCfg, ms, cands)
    ensures SameHostSameSlot(oldCfg, Scatter(util, n, oldCfg, ms, cands))
  {
    CandidatesUnmarked(util, n, oldCfg, ms, cands);
    forall i | 0 <= i < |oldCfg| && oldCfg[i].machine == Scatter(util, n, oldCfg, ms, cands)[i].machine
      ensures oldCfg[i].slot == Scatter(util, n, oldCfg, ms, cands)[i].slot
    {
      PlanStructure(util, n, oldCfg, ms, cands, i);
    }
  }

  lemma PlanHoldsIff(env: Env, s: Sys, id: nat, ms: seq<nat>, cs: seq<nat>, newConfig: Config)
    requires Orders(env, s, id, ms, cs)
    requires PlanInput(s.util, env.n, s.ctl.configs[id], ms, FirstOf(cs, ms))
    requires GuardsOk(s.util, env.n, s.ctl.configs[id], ms, FirstOf(cs, ms))
    requires newConfig == Scatter(s.util, env.n, s.ctl.configs[id], ms, FirstOf(cs, ms))
    ensures AllOn(env.n, 2, newConfig) && SameHostSameSlot(s.ctl.configs[id], newConfig)
    ensures StepsOn(env.n, 2, Zip(s.ctl.configs[id], newConfig))
    ensures PlanHolds(env, s, id, ms, cs) <==>
              NoDup(newConfig) && AssertsPass(s.util, env.n, Zip(s.ctl.configs[id], newConfig))
  {
    PlanOn(s.util, env.n, s.ctl.configs[id], ms, FirstOf(cs, ms));
    PlanKeepsHosts(s.util, env.n, s.ctl.configs[id], ms, FirstOf(cs, ms));
  }

  /** Moves job `id` to `newConfig` in all the tables. */
  method Relocate(ghost env: Env, sched: MultiAppScheduler, vc: VmController, id: nat, newConfig: Config, ghost thawed: bool)
    returns (ok: bool)
    requires Wired(env, sched, vc) && id in vc.ctl.live
    requires thawed ==> Awake(env, SysOf(sched, vc, 0, NextJob), id)  // the job takes part in its own migration
    requires |newConfig| == |vc.ctl.idToConfig[id]|
    requires AllOn(env.n, 2, vc.ctl.idToConfig[id]) && AllOn(env.n, 2, newConfig)
    requires SameHostSameSlot(vc.ctl.idToConfig[id], newConfig)
    modifies sched`membwUtil, vc`vmLocations, vc.ctl`machineUsage, vc.ctl`idToConfig
    ensures Wired(env, sched, vc) && vc.ctl.live == old(vc.ctl.live)
    ensures StepsOn(env.n, 2, Zip(old(vc.ctl.idToConfig[id]), newConfig))
    ensures ok <==> NoDup(newConfig) && AssertsPass(old(sched.membwUtil), env.n, Zip(old(vc.ctl.idToConfig[id]), newConfig))
    ensures ok ==>
              && vc.ctl.State() == UpdateCtl(old(vc.ctl.State()), env.n, 2, id, newConfig)
              && vc.vmLocations == ApplySwaps(old(vc.vmLocations), env.n, 2, Zip(old(vc.ctl.idToConfig[id]), newConfig))
              && sched.membwUtil == ApplySwaps(old(sched.membwUtil), env.n, 2, Zip(old(vc.ctl.idToConfig[id]), newConfig))
  {
    var oldConfig := vc.ctl.idToConfig[id];
    ok := vc.UpdateConfig(id, newConfig);
    if ok {
      ok := sched.UpdateMembwUtil(oldConfig, newConfig);
    }
  }

  /** The system after relocating a job that was thawed before. */
  lemma MigratedOf(s: Sys, n: nat, id: nat, frozen: bool, newConfig: Config, t: Sys)
    requires Rect(s.ctl.usage, n, 2) && Rect(s.vms, n, 2) && Rect(s.util, n, 2) && id < |s.ctl.configs|
    requires AllOn(n, 2, s.ctl.configs[id]) && AllOn(n, 2, newConfig) && |newConfig| == |s.ctl.configs[id]|
    requires StepsOn(n, 2, Zip(s.ctl.configs[id], newConfig))
    requires t == s.(ctl := UpdateCtl(s.ctl, n, 2, id, newConfig),
                     vms := ApplySwaps(s.vms, n, 2, Zip(s.ctl.configs[id], newConfig)),
                     util := ApplySwaps(s.util, n, 2, Zip(s.ctl.configs[id], newConfig)),
                     suspended := Resumed(s, n, id, frozen).suspended)
    ensures t == Migrated(Resumed(s, n, id, frozen), n, id, newConfig)
  {
  }

  /** Thaws the job if necessary and moves it to the planned config. */
  method Migrate(ghost env: Env, sched: MultiAppScheduler, vc: VmController, id: nat, frozen: bool,
                 newConfig: Config, ghost before: Sys)
    returns (ok: bool)
    requires Wired(env, sched, vc) && id in vc.ctl.live
    requires before == SysOf(sched, vc, before.next, before.phase) && Base(env, before)
    requires |newConfig| == |vc.ctl.idToConfig[id]|
    requires AllOn(env.n, 2, vc.ctl.idToConfig[id]) && AllOn(env.n, 2, newConfig)
    requires SameHostSameSlot(vc.ctl.idToConfig[id], newConfig)
    modifies sched`membwUtil, vc`vmLocations, vc`suspended, vc.ctl`machineUsage, vc.ctl`idToConfig
    ensures Wired(env, sched, vc)
    ensures StepsOn(env.n, 2, Zip(before.ctl.configs[id], newConfig))
    ensures ok <==> NoDup(newConfig) && AssertsPass(before.util, env.n, Zip(before.ctl.configs[id], newConfig))
    ensures ok ==>
              SysOf(sched, vc, before.next, before.phase)
              == Migrated(Resumed(before, env.n, id, frozen), env.n, id, newConfig)
  {
    if frozen {
      vc.Resume(vc.ctl.idToConfig[id]);
      ThawedAwake(env, before, id);
    }
    ok := Relocate(env, sched, vc, id, newConfig, frozen);
    if ok {
      MigratedOf(before, env.n, id, frozen, newConfig, SysOf(sched, vc, before.next, before.phase));
    }
  }

  /** Any order of the marked machines, with the candidates found, is a proper planner input. */
  lemma CandidatesFit(env: Env, s: Sys, id: nat, marked: seq<nat>, candidates: seq<nat>, ms: seq<nat>, cs: seq<nat>)
    requires Orders(env, s, id, ms, cs) && marked == Marked(s.util, s.ctl.configs[id])
    requires Machines(env.n, marked) && Machines(env.n, cs) && |marked| <= |cs|
    requires candidates == Candidates(s.util, env.n, marked, cs)
    ensures candidates != [] ==> candidates == FirstOf(cs, ms)
    ensures candidates != [] ==> PlanInput(s.util, env.n, s.ctl.configs[id], ms, candidates)
    ensures Rejected(env, s, id, ms, cs) <==> candidates == []
  {
    OrdersPlanInput(env, s, id, ms, cs);
  }

  /** What the planner's result means for the round. */
  ghost predicate ResultFits(env: Env, s: Sys, id: nat, result: PlanResult, ms: seq<nat>, cs: seq<nat>)
    requires Orders(env, s, id, ms, cs)
  {
    var cands := FirstOf(cs, ms);
    match result
    case NoCandidates => Rejected(env, s, id, ms, cs)
    case Violated =>
      !Rejected(env, s, id, ms, cs)
      && PlanInput(s.util, env.n, s.ctl.configs[id], ms, cands)
      && !GuardsOk(s.util, env.n, s.ctl.configs[id], ms, cands)
    case Planned(newConfig) =>
      !Rejected(env, s, id, ms, cs)
      && PlanInput(s.util, env.n, s.ctl.configs[id], ms, cands)
      && GuardsOk(s.util, env.n, s.ctl.configs[id], ms, cands)
      && newConfig == Scatter(s.util, env.n, s.ctl.configs[id], ms, cands)
  }

  /** The outcome of a round with the given planner result.  A planned config
      is adopted if and only if `ok`. */
  lemma ResolveOf(env: Env, s: Sys, id: nat, frozen: bool, result: PlanResult, ms: seq<nat>, cs: seq<nat>)
    returns (t: Sys, ok: bool)
    requires Orders(env, s, id, ms, cs) && Marked(s.util, s.ctl.configs[id]) != []
    requires ResultFits(env, s, id, result, ms, cs)
    ensures t == Resolve(env, s, id, frozen, ms, cs)
    ensures result.NoCandidates? ==> t == Frozen(s, env.n, id, frozen).(phase := Waiting(id, false))
    ensures result.Violated? ==> t.phase == Aborted
    ensures result.Planned? ==>
              && AllOn(env.n, 2, result.config) && |result.config| == |s.ctl.configs[id]|
              && SameHostSameSlot(s.ctl.configs[id], result.config)
              && StepsOn(env.n, 2, Zip(s.ctl.configs[id], result.config))
              && (ok <==> NoDup(result.config) && AssertsPass(s.util, env.n, Zip(s.ctl.configs[id], result.config)))
              && if ok then t == Proceed(Migrated(Resumed(s, env.n, id, frozen), env.n, id, result.config))
                 else t.phase == Aborted
  {
    t := Resolve(env, s, id, frozen, ms, cs);
    ok := PlanHolds(env, s, id, ms, cs);
    OrdersPlanInput(env, s, id, ms, cs);
    if result.Planned? {
      PlanHoldsIff(env, s, id, ms, cs, result.config);
    }
  }

  /** Freezes the job unless that has happened before. */
  method Freeze(ghost env: Env, sched: MultiAppScheduler, vc: VmController, id: nat, frozen: bool, ghost before: Sys)
    requires Wired(env, sched, vc) && id < |vc.ctl.idToConfig| && AllOn(env.n, 2, vc.ctl.idToConfig[id])
    requires before == SysOf(sched, vc, before.next, before.phase)
    modifies vc`suspended
    ensures Wired(env, sched, vc) && SysOf(sched, vc, before.next, before.phase) == Frozen(before, env.n, id, frozen)
  {
    if !frozen {
      vc.Suspend(vc.ctl.idToConfig[id]);
    }
  }

  /** The end of a round: freeze and wait, give up, or migrate. */
  method Act(ghost env: Env, sched: MultiAppScheduler, vc: VmController, id: nat, result: PlanResult, frozen: bool,
             ghost ms: seq<nat>, ghost cs: seq<nat>, ghost next: nat, ghost phase: Phase)
    returns (outcome: Outcome)
    requires Wired(env, sched, vc) && id in vc.ctl.live
    requires Orders(env, SysOf(sched, vc, next, phase), id, ms, cs)
    requires Marked(sched.membwUtil, vc.ctl.idToConfig[id]) != []
    requires ResultFits(env, SysOf(sched, vc, next, phase), id, result, ms, cs)
    requires Base(env, SysOf(sched, vc, next, phase))
    modifies sched`membwUtil, vc`vmLocations, vc`suspended, vc.ctl`machineUsage, vc.ctl`idToConfig
    ensures Wired(env, sched, vc)
    ensures RoundResult(SysOf(sched, vc, next, phase), outcome, id,
                        Resolve(env, old(SysOf(sched, vc, next, phase)), id, frozen, ms, cs))
    ensures outcome == Wait ==> vc.ctl.State() == old(vc.ctl.State())
  {
    ghost var before := SysOf(sched, vc, next, phase);
    ghost var t, adopted := ResolveOf(env, before, id, frozen, result, ms, cs);
    match result {
      case Violated =>
        outcome := Abort;
      case Planned(newConfig) =>
        var ok := Migrate(env, sched, vc, id, frozen, newConfig, before);
        outcome := if ok then Done else Abort;
      case NoCandidates =>
        Freeze(env, sched, vc, id, frozen, before);
        outcome := Wait;
    }
  }

  /** The part of a round that looks for a new config for an overloaded job. */
  method Replan(ghost env: Env, sched: MultiAppScheduler, vc: VmController, id: nat, marked: seq<nat>, frozen: bool,
                candidates: seq<nat>, ghost cs: seq<nat>, ghost next: nat, ghost phase: Phase)
    returns (outcome: Outcome, ghost ms: seq<nat>)
    requires Wired(env, sched, vc) && id in vc.ctl.live && id < |vc.ctl.idToConfig|
    requires AllOn(env.n, 2, vc.ctl.idToConfig[id]) && OneEach(vc.ctl.idToConfig[id])
    requires marked == Marked(sched.membwUtil, vc.ctl.idToConfig[id]) && marked != []
    requires Machines(env.n, marked) && Machines(env.n, cs) && |marked| <= |cs|
    requires IsSort(sched.membwUtil, env.n, AllMachines(env.n), cs, false)
    requires candidates == Candidates(sched.membwUtil, env.n, marked, cs)
    requires Base(env, SysOf(sched, vc, next, phase))
    modifies sched`membwUtil, vc`vmLocations, vc`suspended, vc.ctl`machineUsage, vc.ctl`idToConfig
    ensures Wired(env, sched, vc)
    ensures Orders(env, old(SysOf(sched, vc, next, phase)), id, ms, cs)
    ensures RoundResult(SysOf(sched, vc, next, phase), outcome, id,
                        Resolve(env, old(SysOf(sched, vc, next, phase)), id, frozen, ms, cs))
    ensures outcome == Wait ==> vc.ctl.State() == old(vc.ctl.State())
  {
    ghost var before := SysOf(sched, vc, next, phase);
    var oldConfig := vc.ctl.idToConfig[id];
    forall ms | IsSort(sched.membwUtil, env.n, marked, ms, true) && candidates != []
      ensures PlanInput(sched.membwUtil, env.n, oldConfig, ms, candidates)
    {
      CandidatesFit(env, before, id, marked, candidates, ms, cs);
    }
    var result;
    result, ms := sched.GenerateNewConfig(oldConfig, marked, candidates);
    CandidatesFit(env, before, id, marked, candidates, ms, cs);
    outcome := Act(env, sched, vc, id, result, frozen, ms, cs, next, phase);
  }

  /** One round of the retry loop, up to the wait. */
  method Round(ghost env: Env, sched: MultiAppScheduler, vc: VmController, id: nat, config: Config, frozen: bool,
               ghost next: nat, ghost phase: Phase)
    returns (outcome: Outcome, ghost ms: seq<nat>, ghost cs: seq<nat>)
    requires Wired(env, sched, vc) && id < |vc.ctl.idToConfig| && config == vc.ctl.idToConfig[id]
    requires Base(env, SysOf(sched, vc, next, phase)) && Blamed(env, SysOf(sched, vc, next, phase), id)
    modifies sched`membwUtil, vc`vmLocations, vc`suspended, vc.ctl`machineUsage, vc.ctl`idToConfig
    ensures Wired(env, sched, vc)
    ensures Orders(env, old(SysOf(sched, vc, next, phase)), id, ms, cs)
    ensures RoundResult(SysOf(sched, vc, next, phase), outcome, id,
                        Resolve(env, old(SysOf(sched, vc, next, phase)), id, frozen, ms, cs))
    ensures outcome == Wait ==> vc.ctl.State() == old(vc.ctl.State())
  {
    var marked := sched.CheckMembw(config);
    MarkedNoDup(sched.membwUtil, config);
    AtMost(marked, env.n);
    var candidates;
    candidates, cs := sched.FindSwapCandidates(marked);
    assert AllMachines(env.n) == seq(env.n, i => i);
    if marked == [] {
      ms := [];
      outcome := Done;
      if frozen {
        vc.Resume(vc.ctl.idToConfig[id]);
      }
    } else {
      MarkedLive(env, SysOf(sched, vc, next, phase), id);
      outcome, ms := Replan(env, sched, vc, id, marked, frozen, candidates, cs, next, phase);
    }
  }

  // ----- recording the run

  /** Every launch that gets as far as the measurement records what was measured for its job. */
  ghost predicate RecordsResults(results: seq<seq<real>>, states: seq<Sys>, labels: seq<Label>)
    requires |states| == |labels| + 1
  {
    forall k :: 0 <= k < |labels| ==> RecordsAt(results, states[k], labels[k], states[k + 1])
  }

  predicate RecordsAt(results: seq<seq<real>>, s: Sys, l: Label, t: Sys) {
    l.Launch? && t != s.(phase := Aborted) ==>
      && s.next < |results| && |l.loads| == |results[s.next]|
      && forall i :: 0 <= i < |l.loads| ==> l.loads[i] == 1.0 - results[s.next][i]
  }

  ghost predicate TrueRun(env: Env, results: seq<seq<real>>, states: seq<Sys>, labels: seq<Label>) {
    GenuineRun(env, states, labels) && RecordsResults(results, states, labels)
  }

  ghost predicate Traced(env: Env, results: seq<seq<real>>, states: seq<Sys>, labels: seq<Label>, cur: Sys) {
    TrueRun(env, results, states, labels) && states[|labels|] == cur
  }

  lemma Extend(env: Env, results: seq<seq<real>>, states: seq<Sys>, labels: seq<Label>, cur: Sys, l: Label, t: Sys)
    requires Traced(env, results, states, labels, cur) && Step(env, cur, l, t) && Genuine(cur, l)
    requires RecordsAt(results, cur, l, t)
    ensures Traced(env, results, states + [t], labels + [l], t)
  {
    var step := StepIn(env);
    assert step(states[|labels|], l, t);
    TraceExtended(step, states, labels, l, t);
    GenuineExtended(results, states, labels, l, t);
  }

  lemma GenuineExtended(results: seq<seq<real>>, states: seq<Sys>, labels: seq<Label>, l: Label, t: Sys)
    requires |states| == |labels| + 1 && Genuine(states[|labels|], l) && RecordsAt(results, states[|labels|], l, t)
    requires forall k :: 0 <= k < |labels| ==> Genuine(states[k], labels[k])
    requires RecordsResults(results, states, labels)
    ensures var ss, ll := states + [t], labels + [l];
            (forall k :: 0 <= k < |ll| ==> Genuine(ss[k], ll[k])) && RecordsResults(results, ss, ll)
  {
  }

  lemma TracedFacts(env: Env, results: seq<seq<real>>, states: seq<Sys>, labels: seq<Label>, cur: Sys)
    requires Traced(env, results, states, labels, cur)
    ensures Tracked(env, cur)
  {
    RunTracked(env, states, labels, |labels|);
  }

  // ----- completions during a wait

  /** The end of the command of job `j`. */
  method CompleteCommand(ghost env: Env, sched: MultiAppScheduler, vc: VmController, j: nat, ghost next: nat, ghost phase: Phase)
    requires Wired(env, sched, vc) && j in vc.ctl.live
    modifies sched`membwUtil, vc.ctl`machineUsage, vc.ctl`live
    ensures Wired(env, sched, vc)
    ensures j < |vc.ctl.idToConfig| && AllOn(env.n, 2, vc.ctl.idToConfig[j])
    ensures var t := Completed(old(SysOf(sched, vc, next, phase)), env.n, j);
            t == SysOf(sched, vc, next, t.phase)
  {
    assert Holds(vc.ctl.State(), env.n, 2, j);
    vc.ctl.Complete(j);
    sched.CommandDone(vc.ctl.idToConfig[j]);
  }

  /** The live jobs that are not suspended. */
  function AwakeJobs(env: Env, sched: MultiAppScheduler, vc: VmController): set<nat>
    requires Wired(env, sched, vc)
    reads sched, vc, vc.ctl
  {
    set j | j in vc.ctl.live && Awake(env, SysOf(sched, vc, 0, NextJob), j)
  }

  /** A wait can last forever only if every live job is suspended. */
  method MayHang(env: Env, sched: MultiAppScheduler, vc: VmController, ghost next: nat, ghost phase: Phase)
    returns (hangs: bool)
    requires Wired(env, sched, vc) && Base(env, SysOf(sched, vc, next, phase))
    ensures hangs ==> forall j :: j in vc.ctl.live ==> !Awake(env, SysOf(sched, vc, next, phase), j)
  {
    hangs := *;
    if AwakeJobs(env, sched, vc) != {} {
      hangs := false;
    }
    forall j | hangs && j in vc.ctl.live ensures !Awake(env, SysOf(sched, vc, next, phase), j) {
      assert j !in AwakeJobs(env, sched, vc);
    }
  }

  /** While it waits for a change, the job itself is live. */
  lemma WaiterLive(env: Env, s: Sys)
    requires Tracked(env, s) && s.phase.Waiting? && !s.phase.completed
    ensures s.phase.id in s.ctl.live
  {
    var m :| 0 <= m < env.n && Total(s.util, m) > TH;
    OverloadedMarked(env, s, s.phase.id, m);
    MarkedLive(env, s, s.phase.id);
  }

  /** wait_for_change in the retry loop of job `id`: at least one command completes,
      perhaps more, and `hangs` is false; if all live jobs are suspended, there may
      be no completion at all. */
  method WaitForChange(env: Env, ghost results: seq<seq<real>>, sched: MultiAppScheduler, vc: VmController, id: nat, ghost next: nat,
                       ghost states: seq<Sys>, ghost labels: seq<Label>)
    returns (hangs: bool, ghost states': seq<Sys>, ghost labels': seq<Label>)
    requires Wired(env, sched, vc)
    requires Traced(env, results, states, labels, SysOf(sched, vc, next, Waiting(id, false)))
    modifies sched`membwUtil, vc.ctl`machineUsage, vc.ctl`live
    ensures Wired(env, sched, vc) && states <= states' && labels <= labels'
    ensures Traced(env, results, states', labels', SysOf(sched, vc, next, Waiting(id, !hangs)))
    ensures hangs ==> Stuck(env, SysOf(sched, vc, next, Waiting(id, false)))
    ensures hangs ==> vc.ctl.State() == old(vc.ctl.State()) && sched.membwUtil == old(sched.membwUtil)
    ensures !hangs ==> vc.ctl.live < old(vc.ctl.live)
  {
    states', labels' := states, labels;
    TracedFacts(env, results, states, labels, SysOf(sched, vc, next, Waiting(id, false)));
    WaiterLive(env, SysOf(sched, vc, next, Waiting(id, false)));
    hangs := MayHang(env, sched, vc, next, Waiting(id, false));
    if hangs { return; }
    ghost var completed := false;
    while true
      invariant Wired(env, sched, vc) && vc.ctl.live != {}
      invariant Traced(env, results, states', labels', SysOf(sched, vc, next, Waiting(id, completed)))
      invariant states <= states' && labels <= labels' && vc.ctl.live <= old(vc.ctl.live)
      decreases vc.ctl.live
    {
      states', labels' := CompleteOne(env, results, sched, vc, next, Waiting(id, completed), states', labels');
      completed := true;
      if vc.ctl.live == {} { break; }
      if * { break; }
    }
  }

  /** The completion of some live job during a wait, added to the run. */
  method CompleteOne(ghost env: Env, ghost results: seq<seq<real>>, sched: MultiAppScheduler, vc: VmController, ghost next: nat, ghost phase: Phase,
                     ghost states: seq<Sys>, ghost labels: seq<Label>)
    returns (ghost states': seq<Sys>, ghost labels': seq<Label>)
    requires Wired(env, sched, vc) && vc.ctl.live != {} && (phase == NextJob || phase.Waiting?)
    requires Traced(env, results, states, labels, SysOf(sched, vc, next, phase))
    modifies sched`membwUtil, vc.ctl`machineUsage, vc.ctl`live
    ensures Wired(env, sched, vc) && states <= states' && labels <= labels'
    ensures Traced(env, results, states', labels',
                   SysOf(sched, vc, next, if phase.Waiting? then Waiting(phase.id, true) else phase))
    ensures vc.ctl.live < old(vc.ctl.live)
  {
    var j :| j in vc.ctl.live;
    ghost var cur := SysOf(sched, vc, next, phase);
    TracedFacts(env, results, states, labels, cur);
    CompleteCommand(env, sched, vc, j, next, phase);
    ghost var t := Completed(cur, env.n, j);
    Extend(env, results, states, labels, cur, Complete(j), t);
    states', labels' := states + [t], labels + [Complete(j)];
  }

  method WaitForRessource(env: Env, ghost results: seq<seq<real>>, sched: MultiAppScheduler, vc: VmController, requested: nat, ghost next: nat,
                          ghost states: seq<Sys>, ghost labels: seq<Label>)
    returns (hangs: bool, ghost states': seq<Sys>, ghost labels': seq<Label>)
    requires Wired(env, sched, vc) && requested <= env.n * env.slotSize
    requires next < |env.queue| && env.queue[next] == requested
    requires Traced(env, results, states, labels, SysOf(sched, vc, next, NextJob))
    modifies sched`membwUtil, vc.ctl`machineUsage, vc.ctl`live
    ensures Wired(env, sched, vc) && states <= states' && labels <= labels'
    ensures Traced(env, results, states', labels', SysOf(sched, vc, next, NextJob))
    ensures hangs ==> Stuck(env, SysOf(sched, vc, next, NextJob))
    ensures !hangs ==> Enough(env, SysOf(sched, vc, next, NextJob), requested)
  {
    states', labels' := states, labels;
    while true
      invariant Wired(env, sched, vc)
      invariant Traced(env, results, states', labels', SysOf(sched, vc, next, NextJob))
      invariant states <= states' && labels <= labels'
      decreases vc.ctl.live
    {
      var enough := EnoughFree(vc.ctl.machineUsage, vc.ctl.slotSize, requested, 1);
      if enough {
        if vc.ctl.live == {} { break; }
        if * { break; }
      } else {
        TracedFacts(env, results, states', labels', SysOf(sched, vc, next, NextJob));
        hangs := MayHang(env, sched, vc, next, NextJob);
        if hangs { return; }
        if vc.ctl.live == {} {
          IdleEnough(env, SysOf(sched, vc, next, NextJob), requested);
        }
      }
      states', labels' := CompleteOne(env, results, sched, vc, next, NextJob, states', labels');
    }
    hangs := false;
  }

  /** done(): waits until no job is live. */
  method WaitUntilDone(env: Env, ghost results: seq<seq<real>>, sched: MultiAppScheduler, vc: VmController, ghost next: nat,
                       ghost states: seq<Sys>, ghost labels: seq<Label>)
    returns (hangs: bool, ghost states': seq<Sys>, ghost labels': seq<Label>)
    requires Wired(env, sched, vc) && next == |env.queue|
    requires Traced(env, results, states, labels, SysOf(sched, vc, next, NextJob))
    modifies sched`membwUtil, vc.ctl`machineUsage, vc.ctl`live
    ensures Wired(env, sched, vc) && states <= states' && labels <= labels'
    ensures hangs ==>
              && Traced(env, results, states', labels', SysOf(sched, vc, next, NextJob))
              && Stuck(env, SysOf(sched, vc, next, NextJob))
    ensures !hangs ==> Traced(env, results, states', labels', SysOf(sched, vc, next, Finished)) && vc.ctl.live == {}
  {
    states', labels' := states, labels;
    var free := vc.ctl.AllSlotsFree();
    while !free
      invariant Wired(env, sched, vc) && (free <==> vc.ctl.live == {})
      invariant Traced(env, results, states', labels', SysOf(sched, vc, next, NextJob))
      invariant states <= states' && labels <= labels'
      decreases vc.ctl.live
    {
      TracedFacts(env, results, states', labels', SysOf(sched, vc, next, NextJob));
      hangs := MayHang(env, sched, vc, next, NextJob);
      if hangs { return; }
      states', labels' := CompleteOne(env, results, sched, vc, next, NextJob, states', labels');
      free := vc.ctl.AllSlotsFree();
    }
    ghost var cur := SysOf(sched, vc, next, NextJob);
    AllFreeIff(vc.ctl.State(), env.n, 2);
    Extend(env, results, states', labels', cur, Finish, SysOf(sched, vc, next, Finished));
    states', labels' := states' + [SysOf(sched, vc, next, Finished)], labels' + [Finish];
    hangs := false;
  }

  // ----- launching

  /** Runs the measuring program next to a new job on `config` and records its
      results.  The VMs on the occupied opposite slots must be suspended meanwhile,
      and no others than before. */
  method Measure(ghost env: Env, sched: MultiAppScheduler, vc: VmController, config: Config, results: seq<real>,
                 ghost before: Sys)
    requires Wired(env, sched, vc) && Shape(env, before)
    requires AllOn(env.n, 2, config) && AllOn(env.n, 2, Opposing(config)) && NoDup(config) && |results| == |config|
    requires SysOf(sched, vc, before.next, before.phase) == Bracketed(before, env.n, config)
    requires OppositeAsleep(env, before, config, vc.suspended)
    requires forall i :: 0 <= i < |config| ==> Get(sched.membwUtil, config[i]) == 0.0
    modifies sched`membwUtil
    ensures Wired(env, sched, vc) && sched.membwUtil == Write(old(sched.membwUtil), config, LoadsFrom(results))
  {
    sched.Record(config, results);
  }

  /** Selects slots, starts the job and measures it with the opposite VMs suspended.
      `ok` means that the assertions on the selected config hold. */
  method LaunchJob(ghost env: Env, sched: MultiAppScheduler, vc: VmController, requested: nat, results: seq<real>, ghost next: nat)
    returns (ok: bool, id: nat, config: Config)
    requires Wired(env, sched, vc) && env.slotSize > 0
    requires Base(env, SysOf(sched, vc, next, NextJob)) && Enough(env, SysOf(sched, vc, next, NextJob), requested)
    requires |results| == requested / env.slotSize
    modifies sched`membwUtil, vc`suspended, vc`hostLists, vc.ctl
    ensures Wired(env, sched, vc)
    ensures ok <==> requested > 0 && requested % env.slotSize == 0
    ensures var selected := Selected(old(vc.ctl.machineUsage), env.slotSize, requested);
            ok <==> selected != [] && |selected| * env.slotSize == requested
    ensures !ok ==> SysOf(sched, vc, next, NextJob) == old(SysOf(sched, vc, next, NextJob))
    ensures ok ==>
              && id == |old(vc.ctl.idToConfig)| && id in vc.ctl.live
              && config == Selected(old(vc.ctl.machineUsage), env.slotSize, requested) && |results| == |config|
              && AllOn(env.n, 2, config) && AllOn(env.n, 2, Opposing(config))
              && vc.ctl.idToConfig[id] == config
              && SysOf(sched, vc, next, NextJob)
                 == Launched(old(SysOf(sched, vc, next, NextJob)), env.n, config, LoadsFrom(results))
  {
    ghost var before := SysOf(sched, vc, next, NextJob);
    config := SelectSlots(vc.ctl.machineUsage, vc.ctl.slotSize, requested);
    SelectedExactIff(env, before, requested);
    if |config| * vc.ctl.slotSize != requested || config == [] {
      return false, 0, config;
    }
    SelectedOn(vc.ctl.machineUsage, env.n, env.slotSize, requested);
    SelectedLaunchable(env, before, config);
    MeasuredSlotsIdle(env, before, config);
    MeasurementBracket(env, before, config);
    ok := true;
    id := vc.Execute(config);
    vc.Suspend(Opposing(vc.ctl.idToConfig[id]));
    Measure(env, sched, vc, config, results, before);
    vc.Resume(Opposing(vc.ctl.idToConfig[id]));
  }

  // ----- schedule

  /** The objects are at the head of the retry loop for job `id`: right after the
      launch, or woken up from a wait. */
  ghost predicate AtRound(env: Env, results: seq<seq<real>>, states: seq<Sys>, labels: seq<Label>, cur: Sys, id: nat, frozen: bool, loads: seq<real>) {
    && TrueRun(env, results, states, labels)
    && if frozen then
         states[|labels|] == cur && cur.phase == Waiting(id, true)
       else
         var s := states[|labels|];
         && AtLaunch(env, s, cur, id, loads)
         && s.next < |results| && loads == LoadsFrom(results[s.next])
  }

  lemma AtRoundFacts(env: Env, results: seq<seq<real>>, states: seq<Sys>, labels: seq<Label>, cur: Sys, id: nat, frozen: bool, loads: seq<real>)
    requires AtRound(env, results, states, labels, cur, id, frozen, loads)
    ensures Base(env, cur) && Blamed(env, cur, id)
  {
    TracedFacts(env, results, states, labels, states[|labels|]);
    if !frozen {
      var s := states[|labels|];
      var cfg := Selected(s.ctl.usage, env.slotSize, env.queue[s.next]);
      SelectedLaunchable(env, s, cfg);
      LaunchedBase(env, s, cfg, loads);
      LaunchedBlamed(env, s, cfg, loads);
    }
  }

  /** A round continues the run: it completes the launch step or is a wake-up. */
  lemma ExtendRound(env: Env, results: seq<seq<real>>, states: seq<Sys>, labels: seq<Label>, cur: Sys, id: nat, frozen: bool, loads: seq<real>,
                    ms: seq<nat>, cs: seq<nat>) returns (states': seq<Sys>, labels': seq<Label>)
    requires AtRound(env, results, states, labels, cur, id, frozen, loads) && Orders(env, cur, id, ms, cs)
    ensures Traced(env, results, states', labels', Resolve(env, cur, id, frozen, ms, cs)) && states <= states' && labels <= labels'
  {
    var s, t := states[|labels|], Resolve(env, cur, id, frozen, ms, cs);
    var l := if frozen then Wake(ms, cs) else Launch(loads, ms, cs);
    if !frozen {
      LaunchRound(env, s, cur, id, loads, ms, cs);
    }
    Extend(env, results, states, labels, s, l, t);
    states', labels' := states + [t], labels + [l];
  }

  /** One round, added to the run. */
  method Attempt(ghost env: Env, ghost results: seq<seq<real>>, sched: MultiAppScheduler, vc: VmController, id: nat, config: Config, frozen: bool,
                 ghost loads: seq<real>, ghost next: nat, ghost phase: Phase, ghost states: seq<Sys>, ghost labels: seq<Label>)
    returns (outcome: Outcome, ghost states': seq<Sys>, ghost labels': seq<Label>)
    requires Wired(env, sched, vc) && id < |vc.ctl.idToConfig| && vc.ctl.idToConfig[id] == config
    requires AtRound(env, results, states, labels, SysOf(sched, vc, next, phase), id, frozen, loads)
    modifies sched`membwUtil, vc`vmLocations, vc`suspended, vc.ctl`machineUsage, vc.ctl`idToConfig
    ensures Wired(env, sched, vc) && TrueRun(env, results, states', labels') && states <= states' && labels <= labels'
    ensures RoundResult(SysOf(sched, vc, next, phase), outcome, id, states'[|labels'|])
    ensures outcome == Wait ==> vc.ctl.State() == old(vc.ctl.State())
  {
    ghost var cur := SysOf(sched, vc, next, phase);
    AtRoundFacts(env, results, states, labels, cur, id, frozen, loads);
    ghost var ms, cs;
    outcome, ms, cs := Round(env, sched, vc, id, config, frozen, next, phase);
    states', labels' := ExtendRound(env, results, states, labels, cur, id, frozen, loads, ms, cs);
  }

  /** How the retry loop and the whole schedule end: by going on, with a violated
      assertion, or with a wait that need not end since all live jobs are suspended. */
  datatype Ending = Passed | Failed | Hung

  ghost predicate EndsIn(env: Env, ending: Ending, last: Sys, passed: Sys) {
    match ending
    case Passed => last == passed
    case Failed => last.phase == Aborted
    case Hung => Shape(env, last) && Stuck(env, last)
  }

  /** One round and, if it finds nothing, the wait after it; `again` after a wait that ended. */
  method Retry(env: Env, ghost results: seq<seq<real>>, sched: MultiAppScheduler, vc: VmController, id: nat, config: Config, frozen: bool,
               ghost loads: seq<real>, ghost next: nat, ghost phase: Phase, ghost states: seq<Sys>, ghost labels: seq<Label>)
    returns (again: bool, ending: Ending, ghost states': seq<Sys>, ghost labels': seq<Label>)
    requires Wired(env, sched, vc) && id < |vc.ctl.idToConfig| && vc.ctl.idToConfig[id] == config
    requires AtRound(env, results, states, labels, SysOf(sched, vc, next, phase), id, frozen, loads)
    modifies sched`membwUtil, vc`vmLocations, vc`suspended, vc.ctl`machineUsage, vc.ctl`idToConfig, vc.ctl`live
    ensures Wired(env, sched, vc) && states <= states' && labels <= labels'
    ensures again ==>
              && id < |vc.ctl.idToConfig| && vc.ctl.idToConfig[id] == config && vc.ctl.live < old(vc.ctl.live)
              && AtRound(env, results, states', labels', SysOf(sched, vc, next, Waiting(id, true)), id, true, loads)
    ensures !again ==>
              TrueRun(env, results, states', labels') && EndsIn(env, ending, states'[|labels'|], SysOf(sched, vc, next + 1, NextJob))
  {
    var outcome, hangs;
    outcome, states', labels' := Attempt(env, results, sched, vc, id, config, frozen, loads, next, phase, states, labels);
    match outcome {
      case Done => return false, Passed, states', labels';
      case Abort => return false, Failed, states', labels';
      case Wait =>
    }
    hangs, states', labels' := WaitForChange(env, results, sched, vc, id, next, states', labels');
    again, ending := !hangs, Hung;
  }

  /** The retry loop for one job. */
  method Settle(env: Env, ghost results: seq<seq<real>>, sched: MultiAppScheduler, vc: VmController, id: nat, config: Config, ghost loads: seq<real>,
                ghost next: nat, ghost states: seq<Sys>, ghost labels: seq<Label>)
    returns (ending: Ending, ghost states': seq<Sys>, ghost labels': seq<Label>)
    requires Wired(env, sched, vc) && id < |vc.ctl.idToConfig| && vc.ctl.idToConfig[id] == config
    requires AtRound(env, results, states, labels, SysOf(sched, vc, next, NextJob), id, false, loads)
    modifies sched`membwUtil, vc`vmLocations, vc`suspended, vc.ctl`machineUsage, vc.ctl`idToConfig, vc.ctl`live
    ensures Wired(env, sched, vc) && TrueRun(env, results, states', labels') && states <= states' && labels <= labels'
    ensures EndsIn(env, ending, states'[|labels'|], SysOf(sched, vc, next + 1, NextJob))
  {
    states', labels' := states, labels;
    var again, frozen := true, false;
    ghost var phase := NextJob;
    ending := Passed;
    while again
      invariant Wired(env, sched, vc) && states <= states' && labels <= labels'
      invariant again ==>
                  && id < |vc.ctl.idToConfig| && vc.ctl.idToConfig[id] == config
                  && AtRound(env, results, states', labels', SysOf(sched, vc, next, phase), id, frozen, loads)
      invariant !again ==>
                  && TrueRun(env, results, states', labels')
                  && EndsIn(env, ending, states'[|labels'|], SysOf(sched, vc, next + 1, NextJob))
      decreases again, vc.ctl.live
    {
      again, ending, states', labels' :=
        Retry(env, results, sched, vc, id, config, frozen, loads, next, phase, states', labels');
      frozen, phase := true, Waiting(id, true);
    }
  }

  /** One result in [0,1] for every slot of every job. */
  predicate ResultsFit(env: Env, results: seq<seq<real>>) {
    && env.slotSize > 0 && |results| == |env.queue|
    && forall q :: 0 <= q < |results| ==> |results[q]| == env.queue[q] / env.slotSize && LoadsOk(results[q])
  }

  /** One job of the queue. */
  method ScheduleJob(env: Env, results: seq<seq<real>>, sched: MultiAppScheduler, vc: VmController, next: nat,
                     ghost states: seq<Sys>, ghost labels: seq<Label>)
    returns (ending: Ending, ghost states': seq<Sys>, ghost labels': seq<Label>)
    requires env.slotSize > 0 && next < |env.queue| && Wired(env, sched, vc)
    requires ResultsFit(env, results)
    requires Traced(env, results, states, labels, SysOf(sched, vc, next, NextJob))
    modifies sched`membwUtil, vc`vmLocations, vc`suspended, vc`hostLists, vc.ctl
    ensures Wired(env, sched, vc) && TrueRun(env, results, states', labels') && states <= states' && labels <= labels'
    ensures EndsIn(env, ending, states'[|labels'|], SysOf(sched, vc, next + 1, NextJob))
  {
    var requested := env.queue[next];
    if requested > env.n * env.slotSize {
      ghost var cur := SysOf(sched, vc, next, NextJob);
      states', labels' := RecordRefusal(env, results, states, labels, cur);
      return Failed, states', labels';
    }
    var hangs;
    hangs, states', labels' := WaitForRessource(env, results, sched, vc, requested, next, states, labels);
    if hangs { return Hung, states', labels'; }
    ghost var before := SysOf(sched, vc, next, NextJob);
    TracedFacts(env, results, states', labels', before);
    var ok, id, config := LaunchJob(env, sched, vc, requested, results[next], next);
    if !ok {
      states', labels' := RecordRefusal(env, results, states', labels', before);
      return Failed, states', labels';
    }
    ghost var loads := LoadsFrom(results[next]);
    assert AtLaunch(env, before, SysOf(sched, vc, next, NextJob), id, loads);
    ending, states', labels' := Settle(env, results, sched, vc, id, config, loads, next, states', labels');
  }

  lemma RecordRefusal(env: Env, results: seq<seq<real>>, states: seq<Sys>, labels: seq<Label>, cur: Sys)
    returns (states': seq<Sys>, labels': seq<Label>)
    requires Traced(env, results, states, labels, cur) && Step(env, cur, Launch([], [], []), cur.(phase := Aborted))
    ensures Traced(env, results, states', labels', cur.(phase := Aborted)) && states <= states' && labels <= labels'
  {
    Extend(env, results, states, labels, cur, Launch([], [], []), cur.(phase := Aborted));
    states', labels' := states + [cur.(phase := Aborted)], labels + [Launch([], [], [])];
  }

  /** schedule: runs the whole queue, for any requests, any measured loads and any
      completions during the waits.  Its execution is a run of the transition
      system in which every launch records the results measured for its job, in
      the order of the queue.  It passes with every job launched and completed and all slots free,
      or it fails with an assertion, or it hangs in a stuck state; the last not
      for feasible requests and light loads, if no job was launched straight on to
      a VM left suspended. */
  method Schedule(env: Env, sched: MultiAppScheduler, vc: VmController, results: seq<seq<real>>)
    returns (ending: Ending, ghost states: seq<Sys>, ghost labels: seq<Label>)
    requires env.slotSize > 0 && Wired(env, sched, vc) && Init(env, SysOf(sched, vc, 0, NextJob))
    requires ResultsFit(env, results)
    modifies sched`membwUtil, vc`vmLocations, vc`suspended, vc`hostLists, vc.ctl
    ensures Wired(env, sched, vc)
    ensures TrueRun(env, results, states, labels) && states[0] == old(SysOf(sched, vc, 0, NextJob))
    ensures |labels| <= 3 * |env.queue| + 1
    ensures EndsIn(env, ending, states[|labels|], SysOf(sched, vc, |env.queue|, Finished))
    ensures ending == Passed ==> vc.ctl.live == {}
    ensures Feasible(env) && (forall k :: 0 <= k < |labels| ==>
              Light(labels[k]) && Shape(env, states[k]) && PlacedAwake(env, states[k], labels[k], states[k + 1])) ==>
              ending != Hung
  {
    ending, states, labels := RunQueue(env, sched, vc, results);
    RunBound(env, states, labels);
    AllGenuine(states, labels, |labels|);
    if ending == Hung && Feasible(env)
       && forall k :: 0 <= k < |labels| ==>
            Light(labels[k]) && Shape(env, states[k]) && PlacedAwake(env, states[k], labels[k], states[k + 1])
    {
      NeverStuck(env, states, labels, |labels|);
    }
  }

  /** The loop over the queue, and done(). */
  method RunQueue(env: Env, sched: MultiAppScheduler, vc: VmController, results: seq<seq<real>>)
    returns (ending: Ending, ghost states: seq<Sys>, ghost labels: seq<Label>)
    requires env.slotSize > 0 && Wired(env, sched, vc) && Init(env, SysOf(sched, vc, 0, NextJob))
    requires ResultsFit(env, results)
    modifies sched`membwUtil, vc`vmLocations, vc`suspended, vc`hostLists, vc.ctl
    ensures Wired(env, sched, vc)
    ensures TrueRun(env, results, states, labels) && states[0] == old(SysOf(sched, vc, 0, NextJob))
    ensures EndsIn(env, ending, states[|labels|], SysOf(sched, vc, |env.queue|, Finished))
    ensures ending == Passed ==> vc.ctl.live == {}
  {
    states, labels := [SysOf(sched, vc, 0, NextJob)], [];
    var next := 0;
    while next < |env.queue|
      invariant next <= |env.queue| && Wired(env, sched, vc)
      invariant Traced(env, results, states, labels, SysOf(sched, vc, next, NextJob))
      invariant states[0] == old(SysOf(sched, vc, 0, NextJob))
    {
      ending, states, labels := ScheduleJob(env, results, sched, vc, next, states, labels);
      if ending != Passed { return; }
      next := next + 1;
    }
    var hangs;
    hangs, states, labels := WaitUntilDone(env, results, sched, vc, next, states, labels);
    ending := if hangs then Hung else Passed;
  }

  /** The program: builds the controllers and the scheduler, starts a VM of the pool
      on every slot, and runs the queue. */
  method Start(env: Env, pool: seq<string>, results: seq<seq<real>>)
    returns (ending: Ending, ghost states: seq<Sys>, ghost labels: seq<Label>)
    requires env.slotSize > 0 && |pool| >= 2 * env.n && NoDup(pool)
    requires ResultsFit(env, results)
    ensures TrueRun(env, results, states, labels) && Init(env, states[0])
    ensures forall m, s :: 0 <= m < env.n && 0 <= s < 2 ==> Get(states[0].vms, Elem(m, s)) == pool[2 * m + s]
    ensures match ending
            case Passed =>
              && states[|labels|].phase == Finished && states[|labels|].next == |env.queue|
              && states[|labels|].ctl.live == {}
            case Failed => states[|labels|].phase == Aborted
            case Hung => Shape(env, states[|labels|]) && Stuck(env, states[|labels|])
  {
    var vc := new VmController(env.n, env.slotSize, pool);
    var sched := new MultiAppScheduler(env.n);
    PlacementInjective(pool, env.n);
    ending, states, labels := Schedule(env, sched, vc, results);
  }
}
