/** The multi-app scheduler in VM mode as a transition system.

    The scheduler holds the controller's mutex and gives it up only inside its
    waits, so completions of commands interleave only there.  One step is
    therefore: launching the next job up to the next wait, one completion, one
    wake-up from wait_for_change, or the end of done().  Assertions that the
    code can really violate lead to the phase `Aborted`. */
module System {
  import opened Tables
  import opened SlotMap
  import opened Migration
  import opened Bandwidth
  import opened Rebalance
  import opened UpdateAsserts
  import opened Rejection
  import opened Selection
  import opened Controller

  /** `queue` lists the required CPUs of the jobs, `slotSize` is the number of CPUs per slot. */
  datatype Env = Env(n: nat, slotSize: nat, queue: seq<nat>)

  datatype Phase =
    | NextJob                             // before wait_for_ressource, or inside done()
    | Waiting(id: nat, completed: bool)   // in wait_for_change for job `id`; has a command completed since?
    | Finished
    | Aborted

  /** `hosts[id]` is the host list with which job `id` was started; `suspended`
      are the names of the suspended VMs; `next` counts the jobs dealt with. */
  datatype Sys = Sys(ctl: Ctl, vms: Table<string>, util: Util, suspended: set<string>,
                     hosts: seq<seq<string>>, next: nat, phase: Phase)

  ghost predicate Shape(env: Env, s: Sys) {
    && Rect(s.ctl.usage, env.n, 2) && Rect(s.vms, env.n, 2) && Rect(s.util, env.n, 2)
    && |s.hosts| == |s.ctl.configs|
  }

  ghost predicate Init(env: Env, s: Sys) {
    && s.ctl == Ctl(seq(env.n, _ => [None, None]), [], {})
    && Rect(s.vms, env.n, 2) && Injective(s.vms, env.n, 2)
    && s.util == seq(env.n, _ => [0.0, 0.0])
    && s.suspended == {} && s.hosts == [] && s.next == 0 && s.phase == NextJob
  }

  /** The VMs that a suspend or resume request for `cfg` reaches: those on occupied slots. */
  function Domains(usage: Table<Option<nat>>, vms: Table<string>, cfg: Config): set<string>
    requires forall i :: 0 <= i < |cfg| ==> In(usage, cfg[i]) && In(vms, cfg[i])
  {
    set i | 0 <= i < |cfg| && Get(usage, cfg[i]).Some? :: Get(vms, cfg[i])
  }

  // ----- launching

  /** The slots that the selection loop picks for a request that fits. */
  function Selected(usage: Table<Option<nat>>, slotSize: nat, requested: nat): (r: Config)
    requires slotSize > 0
    ensures forall j :: 0 <= j < |r| ==> In(usage, r[j]) && Get(usage, r[j]) == None
    ensures OneEach(r)
  {
    var all := Available(usage, |usage|);
    if requested / slotSize <= |all| then all[..requested / slotSize] else all
  }

  ghost predicate Enough(env: Env, s: Sys, requested: nat) {
    |Hosts(s.ctl.usage, 1, |s.ctl.usage|)| * env.slotSize >= requested
  }

  lemma SelectedOn(usage: Table<Option<nat>>, n: nat, slotSize: nat, requested: nat)
    requires slotSize > 0 && Rect(usage, n, 2)
    ensures AllOn(n, 2, Selected(usage, slotSize, requested))
    ensures AllOn(n, 2, Opposing(Selected(usage, slotSize, requested)))
  {
    var r := Selected(usage, slotSize, requested);
    forall i | 0 <= i < |r| ensures On(n, 2, r[i]) && On(n, 2, Opposing(r)[i]) {
      assert In(usage, r[i]);
    }
  }

  /** execute: the slots are claimed and the command is started with the VMs found there. */
  function Placed(s: Sys, n: nat, cfg: Config): (t: Sys)
    requires Rect(s.ctl.usage, n, 2) && Rect(s.vms, n, 2) && AllOn(n, 2, cfg)
  {
    s.(ctl := ExecuteCtl(s.ctl, cfg), hosts := s.hosts + [Guests(s.vms, cfg)])
  }

  /** The state while the new job is measured: the VMs opposite to it are suspended. */
  function Bracketed(s: Sys, n: nat, cfg: Config): (t: Sys)
    requires Rect(s.ctl.usage, n, 2) && Rect(s.vms, n, 2) && AllOn(n, 2, cfg) && AllOn(n, 2, Opposing(cfg))
  {
    var p := Placed(s, n, cfg);
    p.(suspended := p.suspended + Domains(p.ctl.usage, p.vms, Opposing(cfg)))
  }

  /** After the measurement: the loads are recorded and the opposing VMs resumed. */
  function Launched(s: Sys, n: nat, cfg: Config, loads: seq<real>): (t: Sys)
    requires Rect(s.ctl.usage, n, 2) && Rect(s.vms, n, 2) && Rect(s.util, n, 2)
    requires AllOn(n, 2, cfg) && AllOn(n, 2, Opposing(cfg)) && |loads| == |cfg|
  {
    var b := Bracketed(s, n, cfg);
    b.(util := Write(b.util, cfg, loads),
       suspended := b.suspended - Domains(b.ctl.usage, b.vms, Opposing(cfg)))
  }

  // ----- one round of the retry loop

  function AllMachines(n: nat): (r: seq<nat>)
    ensures |r| == n && forall i :: 0 <= i < n ==> r[i] == i
  {
    seq(n, i => i)
  }

  /** The orders that the two sorts of one round may produce. */
  ghost predicate Orders(env: Env, s: Sys, id: nat, ms: seq<nat>, cs: seq<nat>) {
    && Shape(env, s) && id < |s.ctl.configs|
    && AllOn(env.n, 2, s.ctl.configs[id]) && OneEach(s.ctl.configs[id])
    && IsSort(s.util, env.n, Marked(s.util, s.ctl.configs[id]), ms, true)
    && IsSort(s.util, env.n, AllMachines(env.n), cs, false)
  }

  lemma OrdersPlanInput(env: Env, s: Sys, id: nat, ms: seq<nat>, cs: seq<nat>)
    requires Orders(env, s, id, ms, cs)
    ensures var marked := Marked(s.util, s.ctl.configs[id]);
            && |marked| == |ms| <= |cs| == env.n && Machines(env.n, marked) && Machines(env.n, cs)
            && NoDup(cs) && (forall m :: m in ms <==> m in marked)
            && PlanInput(s.util, env.n, s.ctl.configs[id], ms, FirstOf(cs, ms))
  {
    var cfg := s.ctl.configs[id];
    var marked := Marked(s.util, cfg);
    MarkedNoDup(s.util, cfg);
    PermFacts(marked, ms);
    PermFacts(AllMachines(env.n), cs);
    AtMost(ms, env.n);
    forall k | 0 <= k < |ms| ensures Total(s.util, ms[k]) > TH && Uses(cfg, ms[k]) {
      assert ms[k] in marked;
    }
  }

  /** Distinct numbers below `n` are at most `n` many. */
  lemma AtMost(ms: seq<nat>, n: nat)
    requires NoDup(ms) && forall k :: 0 <= k < |ms| ==> ms[k] < n
    ensures |ms| <= n
  {
    var s := set m | m in ms;
    SetOfCard(ms, s);
    assert s <= UpTo(n);
    SubsetCard(s, UpTo(n));
  }

  lemma {:induction false} SetOfCard(ms: seq<nat>, s: set<nat>)
    requires NoDup(ms) && forall m :: m in s <==> m in ms
    ensures |s| == |ms|
    decreases |ms|
  {
    if ms == [] {
      assert s == {};
    } else {
      var r := s - {ms[0]};
      assert forall m :: m in ms <==> m == ms[0] || m in ms[1..];
      SetOfCard(ms[1..], r);
    }
  }

  function UpTo(n: nat): (r: set<nat>)
    ensures |r| == n && forall m: nat :: m in r <==> m < n
  {
    if n == 0 then {} else UpTo(n - 1) + {n - 1}
  }

  lemma SubsetCard(a: set<nat>, b: set<nat>)
    requires a <= b
    ensures |a| <= |b|
  {
    assert b == a + (b - a);
  }

  /** A migration: usage and configs by update_config, VMs and loads by pairwise swaps. */
  function Migrated(s: Sys, n: nat, id: nat, newCfg: Config): (t: Sys)
    requires Rect(s.ctl.usage, n, 2) && Rect(s.vms, n, 2) && Rect(s.util, n, 2) && id < |s.ctl.configs|
    requires AllOn(n, 2, s.ctl.configs[id]) && AllOn(n, 2, newCfg) && |newCfg| == |s.ctl.configs[id]|
  {
    var z := Zip(s.ctl.configs[id], newCfg);
    ZipOn(n, 2, s.ctl.configs[id], newCfg);
    s.(ctl := UpdateCtl(s.ctl, n, 2, id, newCfg),
       vms := ApplySwaps(s.vms, n, 2, z),
       util := ApplySwaps(s.util, n, 2, z))
  }

  /** The VMs that freezing or thawing job `id` reaches. */
  function OwnDomains(s: Sys, n: nat, id: nat): set<string>
    requires Rect(s.ctl.usage, n, 2) && Rect(s.vms, n, 2) && id < |s.ctl.configs| && AllOn(n, 2, s.ctl.configs[id])
  {
    Domains(s.ctl.usage, s.vms, s.ctl.configs[id])
  }

  function Resumed(s: Sys, n: nat, id: nat, frozen: bool): Sys
    requires Rect(s.ctl.usage, n, 2) && Rect(s.vms, n, 2) && id < |s.ctl.configs| && AllOn(n, 2, s.ctl.configs[id])
  {
    if frozen then s.(suspended := s.suspended - OwnDomains(s, n, id)) else s
  }

  function Frozen(s: Sys, n: nat, id: nat, frozen: bool): Sys
    requires Rect(s.ctl.usage, n, 2) && Rect(s.vms, n, 2) && id < |s.ctl.configs| && AllOn(n, 2, s.ctl.configs[id])
  {
    if frozen then s else s.(suspended := s.suspended + OwnDomains(s, n, id))
  }

  function Proceed(s: Sys): Sys {
    s.(next := s.next + 1, phase := NextJob)
  }

  /** The plan for job `id`, if the assertions on it hold. */
  ghost predicate PlanHolds(env: Env, s: Sys, id: nat, ms: seq<nat>, cs: seq<nat>)
    requires Orders(env, s, id, ms, cs)
  {
    OrdersPlanInput(env, s, id, ms, cs);
    var cands := FirstOf(cs, ms);
    && GoodPlan(s.util, env.n, s.ctl.configs[id], ms, cands)
    && (AssertsPassIff(s.util, env.n, s.ctl.configs[id], ms, cands);
        AssertsPass(s.util, env.n, Zip(s.ctl.configs[id], Scatter(s.util, env.n, s.ctl.configs[id], ms, cands))))
  }

  function FirstOf(cs: seq<nat>, ms: seq<nat>): seq<nat> {
    if |ms| <= |cs| then cs[..|ms|] else cs
  }

  /** The config that generate_new_config returns when its assertions hold. */
  ghost function Planned(env: Env, s: Sys, id: nat, ms: seq<nat>, cs: seq<nat>): (r: Config)
    requires Orders(env, s, id, ms, cs) && PlanHolds(env, s, id, ms, cs)
    ensures |r| == |s.ctl.configs[id]| && AllOn(env.n, 2, r)
  {
    OrdersPlanInput(env, s, id, ms, cs);
    PlanOn(s.util, env.n, s.ctl.configs[id], ms, FirstOf(cs, ms));
    Scatter(s.util, env.n, s.ctl.configs[id], ms, FirstOf(cs, ms))
  }

  ghost predicate Rejected(env: Env, s: Sys, id: nat, ms: seq<nat>, cs: seq<nat>)
    requires Orders(env, s, id, ms, cs)
  {
    OrdersPlanInput(env, s, id, ms, cs);
    Candidates(s.util, env.n, Marked(s.util, s.ctl.configs[id]), cs) == []
  }

  /** One round of the retry loop for job `id`. */
  ghost function Resolve(env: Env, s: Sys, id: nat, frozen: bool, ms: seq<nat>, cs: seq<nat>): (t: Sys)
    requires Orders(env, s, id, ms, cs)
  {
    if Marked(s.util, s.ctl.configs[id]) == [] then
      Proceed(Resumed(s, env.n, id, frozen))
    else if Rejected(env, s, id, ms, cs) then
      Frozen(s, env.n, id, frozen).(phase := Waiting(id, false))
    else if !PlanHolds(env, s, id, ms, cs) then
      s.(phase := Aborted)
    else
      Proceed(Migrated(Resumed(s, env.n, id, frozen), env.n, id, Planned(env, s, id, ms, cs)))
  }

  // ----- completion

  function Completed(s: Sys, n: nat, j: nat): Sys
    requires Rect(s.ctl.usage, n, 2) && Rect(s.util, n, 2)
    requires j < |s.ctl.configs| && AllOn(n, 2, s.ctl.configs[j])
  {
    s.(ctl := CompleteCtl(s.ctl, j),
       util := Fill(s.util, s.ctl.configs[j], 0.0),
       phase := if s.phase.Waiting? then Waiting(s.phase.id, true) else s.phase)
  }

  // ----- steps and runs

  datatype Label =
    | Launch(loads: seq<real>, ms: seq<nat>, cs: seq<nat>)
    | Complete(id: nat)
    | Wake(ms: seq<nat>, cs: seq<nat>)
    | Finish

  predicate LoadsOk(loads: seq<real>) {
    forall i :: 0 <= i < |loads| ==> 0.0 <= loads[i] <= 1.0
  }

  ghost predicate LaunchStep(env: Env, s: Sys, l: Label, t: Sys)
    requires l.Launch?
  {
    && Shape(env, s) && env.slotSize > 0
    && s.phase == NextJob && s.next < |env.queue|
    && var req := env.queue[s.next];
       if req > env.n * env.slotSize then
         t == s.(phase := Aborted)
       else
         && Enough(env, s, req)
         && var cfg := Selected(s.ctl.usage, env.slotSize, req);
            SelectedOn(s.ctl.usage, env.n, env.slotSize, req);
            if |cfg| * env.slotSize != req || cfg == [] then
              t == s.(phase := Aborted)
            else
              && |l.loads| == |cfg| && LoadsOk(l.loads)
              && var u := Launched(s, env.n, cfg, l.loads);
                 && Orders(env, u, |s.ctl.configs|, l.ms, l.cs)
                 && t == Resolve(env, u, |s.ctl.configs|, false, l.ms, l.cs)
  }

  ghost predicate CompleteStep(env: Env, s: Sys, l: Label, t: Sys)
    requires l.Complete?
  {
    && Shape(env, s) && (s.phase == NextJob || s.phase.Waiting?)
    && l.id in s.ctl.live && l.id < |s.ctl.configs| && AllOn(env.n, 2, s.ctl.configs[l.id])
    && t == Completed(s, env.n, l.id)
  }

  ghost predicate WakeStep(env: Env, s: Sys, l: Label, t: Sys)
    requires l.Wake?
  {
    && s.phase.Waiting? && Orders(env, s, s.phase.id, l.ms, l.cs)
    && t == Resolve(env, s, s.phase.id, true, l.ms, l.cs)
  }

  ghost predicate FinishStep(env: Env, s: Sys, t: Sys) {
    && Shape(env, s) && s.phase == NextJob && s.next == |env.queue|
    && (forall c | On(env.n, 2, c) :: Get(s.ctl.usage, c) == None)
    && t == s.(phase := Finished)
  }

  ghost predicate Step(env: Env, s: Sys, l: Label, t: Sys) {
    match l
    case Launch(_, _, _) => LaunchStep(env, s, l, t)
    case Complete(_) => CompleteStep(env, s, l, t)
    case Wake(_, _) => WakeStep(env, s, l, t)
    case Finish => FinishStep(env, s, t)
  }

  /** Consecutive states are related by `step`. */
  ghost predicate Trace(step: (Sys, Label, Sys) -> bool, states: seq<Sys>, labels: seq<Label>) {
    && |states| == |labels| + 1
    && forall i :: 0 <= i < |labels| ==> step(states[i], labels[i], states[i + 1])
  }

  lemma TraceExtended(step: (Sys, Label, Sys) -> bool, states: seq<Sys>, labels: seq<Label>, l: Label, t: Sys)
    requires Trace(step, states, labels) && step(states[|labels|], l, t)
    ensures Trace(step, states + [t], labels + [l])
  {
  }

  ghost predicate Keeps(inv: nat -> bool, j: nat) {
    inv(j) ==> inv(j + 1)
  }

  /** Induction over the positions of a run. */
  lemma {:induction false} Throughout(inv: nat -> bool, i: nat, k: nat)
    requires i <= k && inv(i)
    requires forall j: nat | i <= j < k :: Keeps(inv, j)
    ensures inv(k)
    decreases k - i
  {
    if i < k {
      assert Keeps(inv, i);
      Throughout(inv, i + 1, k);
    }
  }

  ghost function StepIn(env: Env): (Sys, Label, Sys) -> bool {
    (s, l, t) => Step(env, s, l, t)
  }

  ghost predicate Run(env: Env, states: seq<Sys>, labels: seq<Label>) {
    Trace(StepIn(env), states, labels) && Init(env, states[0])
  }

  lemma TraceStepAt(env: Env, states: seq<Sys>, labels: seq<Label>, i: nat)
    requires Trace(StepIn(env), states, labels) && i < |labels|
    ensures Step(env, states[i], labels[i], states[i + 1])
  {
    var step := StepIn(env);
    assert step(states[i], labels[i], states[i + 1]);
  }

  lemma StepAt(env: Env, states: seq<Sys>, labels: seq<Label>, i: nat)
    requires Run(env, states, labels) && i < |labels|
    ensures Step(env, states[i], labels[i], states[i + 1])
  {
    TraceStepAt(env, states, labels, i);
  }
}
