/** Progress of the multi-app scheduler in VM mode.  In every run the steps other
    than spurious wake-ups are bounded, and a run that cannot be continued has
    launched and completed every queued job, has hit an assertion, or is stuck:
    the scheduler waits and every live job is suspended.  The last case needs a
    job that was launched on a VM left suspended. */
module Progress {
  import opened Tables
  import opened SlotMap
  import opened Migration
  import opened Bandwidth
  import opened Rebalance
  import opened UpdateAsserts
  import opened Rejection
  import opened Selection
  import opened Sorting
  import opened Controller
  import opened System
  import opened Safety
  import opened Suspension
  import opened Theorems

  /** Requests are positive multiples of the slot size that the machines can hold. */
  predicate Feasible(env: Env) {
    && env.slotSize > 0
    && forall i :: 0 <= i < |env.queue| ==>
         0 < env.queue[i] <= env.n * env.slotSize && env.queue[i] % env.slotSize == 0
  }

  /** No measured load exceeds the threshold on its own. */
  predicate Light(l: Label) {
    l.Launch? ==> forall i :: 0 <= i < |l.loads| ==> l.loads[i] <= TH
  }

  /** A wake-up is spurious when no command has completed since the wait began. */
  predicate Genuine(s: Sys, l: Label) {
    l.Wake? && s.phase.Waiting? ==> s.phase.completed
  }

  /** What holds in every reachable state. */
  ghost predicate Tracked(env: Env, s: Sys) {
    || s.phase == Aborted
    || (&& Base(env, s) && PhaseFits(env, s)
        && s.next <= |env.queue| && (s.phase.Waiting? ==> s.next < |env.queue|)
        && (s.phase == Finished ==> s.next == |env.queue|))
  }

  // ----- the measure

  function Measure(env: Env, s: Sys): int {
    if s.phase == Finished || s.phase == Aborted then 0
    else
      3 * (|env.queue| - s.next - if s.phase.Waiting? then 1 else 0)
      + 2 * |s.ctl.live|
      + (if s.phase.Waiting? && s.phase.completed then 1 else 0)
      + 1
  }

  lemma LaunchMeasure(env: Env, s: Sys, l: Label, t: Sys)
    requires Base(env, s) && l.Launch? && LaunchStep(env, s, l, t)
    ensures s.next < |env.queue|
    ensures t.phase == Aborted
         || (&& |t.ctl.live| == |s.ctl.live| + 1
             && ((t.phase == NextJob && t.next == s.next + 1)
                 || (t.phase == Waiting(|s.ctl.configs|, false) && t.next == s.next)))
  {
    if t.phase != Aborted {
      var cfg := Selected(s.ctl.usage, env.slotSize, env.queue[s.next]);
      SelectedOn(s.ctl.usage, env.n, env.slotSize, env.queue[s.next]);
      LaunchedRest(s, env.n, cfg, l.loads);
      ResolveRest(env, Launched(s, env.n, cfg, l.loads), |s.ctl.configs|, false, l.ms, l.cs);
      AddCard(s.ctl.live, |s.ctl.configs|);
    }
  }

  lemma AddCard(s: set<nat>, x: nat)
    requires x !in s
    ensures |s + {x}| == |s| + 1
  {
  }

  lemma LaunchedRest(s: Sys, n: nat, cfg: Config, loads: seq<real>)
    requires Rect(s.ctl.usage, n, 2) && Rect(s.vms, n, 2) && Rect(s.util, n, 2)
    requires AllOn(n, 2, cfg) && AllOn(n, 2, Opposing(cfg)) && |loads| == |cfg|
    ensures var t := Launched(s, n, cfg, loads);
            t.ctl.live == s.ctl.live + {|s.ctl.configs|} && t.next == s.next
  {
  }

  lemma LaunchTracked(env: Env, s: Sys, l: Label, t: Sys)
    requires Tracked(env, s) && l.Launch? && LaunchStep(env, s, l, t)
    ensures Tracked(env, t) && Measure(env, t) < Measure(env, s)
  {
    LaunchInv(env, s, l, t);
    LaunchMeasure(env, s, l, t);
  }

  lemma CompleteTracked(env: Env, s: Sys, j: nat)
    requires Tracked(env, s) && (s.phase == NextJob || s.phase.Waiting?) && j in s.ctl.live
    ensures j < |s.ctl.configs| && AllOn(env.n, 2, s.ctl.configs[j])
    ensures Tracked(env, Completed(s, env.n, j)) && Measure(env, Completed(s, env.n, j)) < Measure(env, s)
  {
    CompleteInv(env, s, j);
    assert Completed(s, env.n, j).ctl.live == s.ctl.live - {j};
  }

  lemma WakeTracked(env: Env, s: Sys, l: Label, t: Sys)
    requires Tracked(env, s) && l.Wake? && WakeStep(env, s, l, t)
    ensures Tracked(env, t) && Measure(env, t) <= Measure(env, s)
    ensures Genuine(s, l) ==> Measure(env, t) < Measure(env, s)
  {
    ResolveInv(env, s, s.phase.id, true, l.ms, l.cs);
    ResolveRest(env, s, s.phase.id, true, l.ms, l.cs);
  }

  /** Every step other than a spurious wake-up lowers the measure, and none raises it. */
  lemma StepMeasure(env: Env, s: Sys, l: Label, t: Sys)
    requires Tracked(env, s) && Step(env, s, l, t)
    ensures Tracked(env, t) && Measure(env, t) <= Measure(env, s)
    ensures Genuine(s, l) ==> Measure(env, t) < Measure(env, s)
  {
    NothingAfterAbort(env, s, l, t);
    match l {
      case Launch(_, _, _) => LaunchTracked(env, s, l, t);
      case Complete(j) => CompleteTracked(env, s, j);
      case Wake(_, _) => WakeTracked(env, s, l, t);
      case Finish => AllFreeIff(s.ctl, env.n, 2);
    }
  }

  lemma NothingAfterAbort(env: Env, s: Sys, l: Label, t: Sys)
    requires Step(env, s, l, t)
    ensures s.phase != Aborted && s.phase != Finished
  {
  }

  /** The steps among the first `k` that are not spurious wake-ups. */
  function GenuineSteps(states: seq<Sys>, labels: seq<Label>, k: nat): nat
    requires |states| == |labels| + 1 && k <= |labels|
  {
    if k == 0 then 0
    else GenuineSteps(states, labels, k - 1) + if Genuine(states[k - 1], labels[k - 1]) then 1 else 0
  }

  lemma RunTracked(env: Env, states: seq<Sys>, labels: seq<Label>, i: nat)
    requires Run(env, states, labels) && i < |states|
    ensures Tracked(env, states[i])
  {
    var tracked := (j: nat) => j < |states| && Tracked(env, states[j]);
    InitInv(env, states[0]);
    forall j: nat | j < i ensures Keeps(tracked, j) {
      if tracked(j) {
        StepAt(env, states, labels, j);
        StepMeasure(env, states[j], labels[j], states[j + 1]);
      }
    }
    Throughout(tracked, 0, i);
  }

  predicate Paid(env: Env, states: seq<Sys>, labels: seq<Label>, k: nat)
    requires |states| == |labels| + 1 && k < |labels|
  {
    Measure(env, states[k + 1]) + GenuineSteps(states, labels, k + 1)
    <= Measure(env, states[k]) + GenuineSteps(states, labels, k)
  }

  lemma StepPaid(env: Env, states: seq<Sys>, labels: seq<Label>, k: nat)
    requires Run(env, states, labels) && k < |labels|
    ensures Paid(env, states, labels, k)
  {
    RunTracked(env, states, labels, k);
    StepAt(env, states, labels, k);
    StepMeasure(env, states[k], labels[k], states[k + 1]);
  }

  lemma {:induction false} AllPaid(env: Env, states: seq<Sys>, labels: seq<Label>, k: nat)
    requires |states| == |labels| + 1 && k <= |labels|
    requires forall j :: 0 <= j < |labels| ==> Paid(env, states, labels, j)
    ensures Measure(env, states[k]) + GenuineSteps(states, labels, k) <= Measure(env, states[0])
    decreases k
  {
    if k > 0 {
      AllPaid(env, states, labels, k - 1);
      assert Paid(env, states, labels, k - 1);
    }
  }

  lemma RunBound(env: Env, states: seq<Sys>, labels: seq<Label>)
    requires Run(env, states, labels)
    ensures GenuineSteps(states, labels, |labels|) <= 3 * |env.queue| + 1
  {
    forall k | 0 <= k < |labels| ensures Paid(env, states, labels, k) {
      StepPaid(env, states, labels, k);
    }
    AllPaid(env, states, labels, |labels|);
    RunTracked(env, states, labels, |labels|);
  }

  /** A run without spurious wake-ups. */
  ghost predicate GenuineRun(env: Env, states: seq<Sys>, labels: seq<Label>) {
    Run(env, states, labels) && forall k :: 0 <= k < |labels| ==> Genuine(states[k], labels[k])
  }

  lemma {:induction false} AllGenuine(states: seq<Sys>, labels: seq<Label>, k: nat)
    requires |states| == |labels| + 1 && k <= |labels|
    requires forall j :: 0 <= j < |labels| ==> Genuine(states[j], labels[j])
    ensures GenuineSteps(states, labels, k) == k
  {
    if k > 0 {
      AllGenuine(states, labels, k - 1);
    }
  }

  // ----- stuck states

  /** The scheduler waits for a completion: nothing else can happen. */
  ghost predicate Blocked(env: Env, s: Sys)
    requires Shape(env, s)
  {
    match s.phase
    case NextJob =>
      if s.next < |env.queue| then
        env.queue[s.next] <= env.n * env.slotSize && !Enough(env, s, env.queue[s.next])
      else
        s.ctl.live != {}
    case Waiting(_, completed) => !completed
    case Finished => false
    case Aborted => false
  }

  /** The scheduler waits for a completion, and every live job is suspended. */
  ghost predicate Stuck(env: Env, s: Sys)
    requires Shape(env, s)
  {
    Blocked(env, s) && forall j :: j in s.ctl.live ==> !Awake(env, s, j)
  }

  /** A step is possible other than a spurious wake-up or the completion of a suspended job. */
  ghost predicate CanMove(env: Env, s: Sys)
    requires Shape(env, s)
  {
    exists l, t :: Step(env, s, l, t) && Genuine(s, l) && Gentle(env, s, l)
  }

  lemma OrdersExist(env: Env, s: Sys, id: nat) returns (ms: seq<nat>, cs: seq<nat>)
    requires Shape(env, s) && id < |s.ctl.configs|
    requires AllOn(env.n, 2, s.ctl.configs[id]) && OneEach(s.ctl.configs[id])
    ensures Orders(env, s, id, ms, cs)
  {
    var marked := Marked(s.util, s.ctl.configs[id]);
    ms := SortBy(s.util, env.n, marked, true);
    cs := SortBy(s.util, env.n, AllMachines(env.n), false);
    SortByIsSort(s.util, env.n, marked, true);
    SortByIsSort(s.util, env.n, AllMachines(env.n), false);
  }

  /** With all slots free, every feasible request can be met. */
  lemma IdleEnough(env: Env, s: Sys, req: nat)
    requires Shape(env, s) && Consistent(s.ctl, env.n, 2) && s.ctl.live == {} && req <= env.n * env.slotSize
    ensures Enough(env, s, req)
  {
    AllFreeIff(s.ctl, env.n, 2);
    forall m | 0 <= m < env.n ensures FreeIn(s.ctl.usage[m]) >= 1 {
      assert Get(s.ctl.usage, Elem(m, 0)) == None;
      FirstFreeCounts(s.ctl.usage[m]);
    }
    assert Hosts(s.ctl.usage, 1, env.n) == UpTo(env.n);
  }

  /** The selection meets its assertions iff the request is a positive multiple of the slot size. */
  lemma SelectedExactIff(env: Env, s: Sys, req: nat)
    requires Shape(env, s) && env.slotSize > 0 && Enough(env, s, req)
    ensures var cfg := Selected(s.ctl.usage, env.slotSize, req);
            cfg != [] && |cfg| * env.slotSize == req <==> req > 0 && req % env.slotSize == 0
  {
    var usage, cfg := s.ctl.usage, Selected(s.ctl.usage, env.slotSize, req);
    AvailableCount(usage, |usage|);
    SizeMatches(|cfg|, req / env.slotSize, env.slotSize, req);
    if req % env.slotSize == 0 {
      SizeBound(|Available(usage, |usage|)|, req / env.slotSize, env.slotSize, req);
    }
  }

  /** The next job has been launched and measured, with the result `cur`. */
  ghost predicate AtLaunch(env: Env, s: Sys, cur: Sys, id: nat, loads: seq<real>) {
    && Shape(env, s) && env.slotSize > 0 && s.phase == NextJob && s.next < |env.queue|
    && env.queue[s.next] <= env.n * env.slotSize && Enough(env, s, env.queue[s.next])
    && var cfg := Selected(s.ctl.usage, env.slotSize, env.queue[s.next]);
       && cfg != [] && |cfg| * env.slotSize == env.queue[s.next]
       && AllOn(env.n, 2, cfg) && AllOn(env.n, 2, Opposing(cfg))
       && |loads| == |cfg| && LoadsOk(loads) && id == |s.ctl.configs|
       && cur == Launched(s, env.n, cfg, loads)
  }

  lemma LaunchRound(env: Env, s: Sys, cur: Sys, id: nat, loads: seq<real>, ms: seq<nat>, cs: seq<nat>)
    requires AtLaunch(env, s, cur, id, loads) && Orders(env, cur, id, ms, cs)
    ensures Step(env, s, Launch(loads, ms, cs), Resolve(env, cur, id, false, ms, cs))
  {
  }

  /** A launch that an assertion refuses: the request is too large, or not a
      positive multiple of the slot size. */
  lemma LaunchRefused(env: Env, s: Sys)
    requires Shape(env, s) && env.slotSize > 0 && s.phase == NextJob && s.next < |env.queue|
    requires var req := env.queue[s.next];
             || req > env.n * env.slotSize
             || (Enough(env, s, req)
                 && (Selected(s.ctl.usage, env.slotSize, req) == []
                     || |Selected(s.ctl.usage, env.slotSize, req)| * env.slotSize != req))
    ensures Step(env, s, Launch([], [], []), s.(phase := Aborted))
  {
  }

  /** Exactly when a launch ends in a violated assertion: the request is larger than
      the machines can hold, or not a positive multiple of the slot size, or the
      first round for the job aborts. */
  lemma LaunchAbortsIff(env: Env, s: Sys, l: Label, t: Sys)
    requires l.Launch? && LaunchStep(env, s, l, t)
    ensures s.next < |env.queue| && env.slotSize > 0
    ensures var req, cfg := env.queue[s.next], Selected(s.ctl.usage, env.slotSize, env.queue[s.next]);
            t.phase == Aborted
            <==> || req > env.n * env.slotSize || req == 0 || req % env.slotSize != 0
                 || (&& |l.loads| == |cfg| && AllOn(env.n, 2, cfg) && AllOn(env.n, 2, Opposing(cfg))
                     && var u, id := Launched(s, env.n, cfg, l.loads), |s.ctl.configs|;
                        && Orders(env, u, id, l.ms, l.cs) && PlanInput(u.util, env.n, cfg, l.ms, FirstOf(l.cs, l.ms))
                        && u.ctl.configs[id] == cfg && Machines(env.n, l.ms) && Machines(env.n, FirstOf(l.cs, l.ms))
                        && SumOf(u.util, env.n, l.ms) + SumOf(u.util, env.n, FirstOf(l.cs, l.ms)) < 2.0 * TH * |l.ms| as real
                        && (|| !AllFit(u.util, env.n, cfg, l.ms, FirstOf(l.cs, l.ms))
                            || !NoneMet(u.util, env.n, cfg, l.ms, FirstOf(l.cs, l.ms))
                            || !NoneAtThreshold(u.util, env.n, cfg, l.ms)))
  {
    var req, cfg := env.queue[s.next], Selected(s.ctl.usage, env.slotSize, env.queue[s.next]);
    if req <= env.n * env.slotSize {
      SelectedExactIff(env, s, req);
      SelectedOn(s.ctl.usage, env.n, env.slotSize, req);
      if req > 0 && req % env.slotSize == 0 {
        ResolveAbortsIff(env, Launched(s, env.n, cfg, l.loads), |s.ctl.configs|, false, l.ms, l.cs);
      }
    }
  }

  lemma LaunchEnabled(env: Env, s: Sys) returns (l: Label, t: Sys)
    requires Tracked(env, s) && env.slotSize > 0 && s.phase == NextJob && s.next < |env.queue|
    requires env.queue[s.next] <= env.n * env.slotSize && Enough(env, s, env.queue[s.next])
    ensures Step(env, s, l, t) && l.Launch?
  {
    var req := env.queue[s.next];
    var cfg := Selected(s.ctl.usage, env.slotSize, req);
    if cfg == [] || |cfg| * env.slotSize != req {
      LaunchRefused(env, s);
      l, t := Launch([], [], []), s.(phase := Aborted);
    } else {
      SelectedOn(s.ctl.usage, env.n, env.slotSize, req);
      SelectedLaunchable(env, s, cfg);
      var loads := seq(|cfg|, _ => 0.0);
      var u := Launched(s, env.n, cfg, loads);
      LaunchedBase(env, s, cfg, loads);
      var ms, cs := OrdersExist(env, u, |s.ctl.configs|);
      l := Launch(loads, ms, cs);
      t := Resolve(env, u, |s.ctl.configs|, false, ms, cs);
      LaunchRound(env, s, u, |s.ctl.configs|, loads, ms, cs);
    }
  }

  lemma MoveExists(env: Env, s: Sys) returns (l: Label, t: Sys)
    requires Tracked(env, s) && env.slotSize > 0 && s.phase != Finished && s.phase != Aborted && !Stuck(env, s)
    ensures Step(env, s, l, t) && Genuine(s, l) && Gentle(env, s, l)
  {
    if j :| j in s.ctl.live && Awake(env, s, j) {
      l, t := Complete(j), Completed(s, env.n, j);
    } else if s.phase.Waiting? {
      var ms, cs := OrdersExist(env, s, s.phase.id);
      l, t := Wake(ms, cs), Resolve(env, s, s.phase.id, true, ms, cs);
    } else if s.next < |env.queue| {
      if env.queue[s.next] > env.n * env.slotSize {
        LaunchRefused(env, s);
        l, t := Launch([], [], []), s.(phase := Aborted);
      } else {
        l, t := LaunchEnabled(env, s);
      }
    } else {
      AllFreeIff(s.ctl, env.n, 2);
      l, t := Finish, s.(phase := Finished);
    }
  }

  /** Exactly when nothing can happen any more although the scheduler has not
      finished, if completions of suspended jobs are not counted on. */
  lemma StuckIff(env: Env, s: Sys)
    requires Tracked(env, s) && env.slotSize > 0 && s.phase != Finished && s.phase != Aborted
    ensures Shape(env, s) && (Stuck(env, s) <==> !CanMove(env, s))
  {
    if !Stuck(env, s) {
      var l, t := MoveExists(env, s);
    } else if CanMove(env, s) {
      var l, t :| Step(env, s, l, t) && Genuine(s, l) && Gentle(env, s, l);
      StuckStays(env, s, l, t);
    }
  }

  /** From a stuck state only a suspended job's completion or a spurious wake-up leads on. */
  lemma StuckStays(env: Env, s: Sys, l: Label, t: Sys)
    requires Tracked(env, s) && s.phase != Aborted && Stuck(env, s) && Step(env, s, l, t)
    ensures !Genuine(s, l) || !Gentle(env, s, l)
  {
    match l {
      case Launch(_, _, _) =>
      case Complete(j) =>
      case Wake(_, _) =>
      case Finish => AllFreeIff(s.ctl, env.n, 2);
    }
  }

  /** Main result on progress, for runs with any completions, loads and requests: at
      most 3 * jobs + 1 steps are not spurious wake-ups, and a run that has neither
      been aborted nor launched and completed every job can be continued unless it
      is stuck. */
  lemma ScheduleFinishes(env: Env, states: seq<Sys>, labels: seq<Label>)
    requires Run(env, states, labels) && env.slotSize > 0
    ensures GenuineSteps(states, labels, |labels|) <= 3 * |env.queue| + 1
    ensures var last := states[|labels|];
            || last.phase == Aborted
            || (last.phase == Finished && last.next == |env.queue| && last.ctl.live == {})
            || (Shape(env, last) && (Stuck(env, last) <==> !CanMove(env, last)))
  {
    RunBound(env, states, labels);
    RunTracked(env, states, labels, |labels|);
    var last := states[|labels|];
    if last.phase != Aborted && last.phase != Finished {
      StuckIff(env, last);
    }
  }

  // ----- when a run cannot get stuck

  ghost predicate LightLoads(env: Env, s: Sys)
    requires Shape(env, s)
  {
    forall c | On(env.n, 2, c) :: Get(s.util, c) <= TH
  }

  lemma ResolveLight(env: Env, s: Sys, id: nat, frozen: bool, ms: seq<nat>, cs: seq<nat>)
    requires Base(env, s) && Blamed(env, s, id) && Orders(env, s, id, ms, cs) && LightLoads(env, s)
    ensures var t := Resolve(env, s, id, frozen, ms, cs);
            t.phase == Aborted || (Shape(env, t) && LightLoads(env, t))
  {
    var t := Resolve(env, s, id, frozen, ms, cs);
    ResolveInv(env, s, id, frozen, ms, cs);
    if t.phase == NextJob {
      forall c | On(env.n, 2, c) ensures Get(t.util, c) <= TH {
        SlotBelowTotal(env, t, c);
      }
    }
  }

  lemma LaunchLight(env: Env, s: Sys, l: Label, t: Sys)
    requires Base(env, s) && PhaseFits(env, s) && LightLoads(env, s)
    requires l.Launch? && LaunchStep(env, s, l, t) && Light(l)
    ensures t.phase == Aborted || (Shape(env, t) && LightLoads(env, t))
  {
    if t.phase != Aborted {
      var cfg := Selected(s.ctl.usage, env.slotSize, env.queue[s.next]);
      SelectedOn(s.ctl.usage, env.n, env.slotSize, env.queue[s.next]);
      SelectedLaunchable(env, s, cfg);
      LaunchedBase(env, s, cfg, l.loads);
      LaunchedBlamed(env, s, cfg, l.loads);
      var u := Launched(s, env.n, cfg, l.loads);
      forall c | On(env.n, 2, c) ensures Get(u.util, c) <= TH {
        PlacedHolds(env, s, cfg, l.loads, c);
      }
      ResolveLight(env, u, |s.ctl.configs|, false, l.ms, l.cs);
    }
  }

  lemma CompleteLight(env: Env, s: Sys, j: nat)
    requires Base(env, s) && LightLoads(env, s) && j in s.ctl.live
    ensures j < |s.ctl.configs| && AllOn(env.n, 2, s.ctl.configs[j])
    ensures Shape(env, Completed(s, env.n, j)) && LightLoads(env, Completed(s, env.n, j))
  {
    CompletedBase(env, s, j);
    forall c | On(env.n, 2, c) ensures Get(Completed(s, env.n, j).util, c) <= TH {
      CompletedLoads(env, s, j, c);
    }
  }

  lemma StepLight(env: Env, s: Sys, l: Label, t: Sys)
    requires Base(env, s) && PhaseFits(env, s) && LightLoads(env, s) && Light(l) && Step(env, s, l, t)
    ensures t.phase == Aborted || (Shape(env, t) && LightLoads(env, t))
  {
    match l {
      case Launch(_, _, _) => LaunchLight(env, s, l, t);
      case Complete(j) => CompleteLight(env, s, j);
      case Wake(ms, cs) => ResolveLight(env, s, s.phase.id, true, ms, cs);
      case Finish =>
    }
  }

  lemma RunLight(env: Env, states: seq<Sys>, labels: seq<Label>, i: nat)
    requires Run(env, states, labels) && i < |states| && states[i].phase != Aborted
    requires forall k :: 0 <= k < i ==> Light(labels[k])
    ensures Shape(env, states[i]) && LightLoads(env, states[i])
  {
    var light := (j: nat) => j < |states| && Shape(env, states[j]) && LightLoads(env, states[j]);
    UnabortedSoFar(env, states, labels, i);
    forall j: nat | j < i ensures Keeps(light, j) {
      if light(j) {
        StepAt(env, states, labels, j);
        StepLight(env, states[j], labels[j], states[j + 1]);
      }
    }
    Throughout(light, 0, i);
  }

  /** Whenever the retry loop waits and nothing has completed yet, another live job
      sits on an overloaded machine, and it is awake if live jobs are kept awake. */
  lemma OtherJobOnMarked(env: Env, s: Sys) returns (j: nat, m: nat)
    requires Base(env, s) && PhaseFits(env, s) && LightLoads(env, s) && s.phase.Waiting? && !s.phase.completed
    ensures s.phase.id in s.ctl.live && j in s.ctl.live && j != s.phase.id
    ensures LiveAwake(env, s) ==> Awake(env, s, j)
    ensures m < env.n && Total(s.util, m) > TH && Carries(env, s, j, m) && Carries(env, s, s.phase.id, m)
  {
    var id := s.phase.id;
    m :| 0 <= m < env.n && Total(s.util, m) > TH;
    assert Carries(env, s, id, m);
    var c := if s.ctl.usage[m][0] == Some(id) then Elem(m, 0) else Elem(m, 1);
    var d := Elem(m, Other(c.slot));
    assert Get(s.ctl.usage, c) == Some(id);
    TotalOf(s.util, env.n, m, c.slot);
    assert Get(s.util, c) <= TH && Get(s.util, d) > 0.0;
    assert Get(s.ctl.usage, d).Some?;
    j := Get(s.ctl.usage, d).value;
    assert d in s.ctl.configs[j] && c in s.ctl.configs[id];
    var p := IndexOf(s.ctl.configs[id], c);
    assert forall q :: 0 <= q < |s.ctl.configs[id]| && s.ctl.configs[id][q].machine == m ==> q == p;
  }

  lemma AwakeNotStuck(env: Env, s: Sys)
    requires Feasible(env) && Tracked(env, s) && s.phase != Aborted && LightLoads(env, s) && LiveAwake(env, s)
    ensures !Stuck(env, s)
  {
    if s.phase.Waiting? && !s.phase.completed {
      var j, m := OtherJobOnMarked(env, s);
    } else if s.phase == NextJob && s.ctl.live == {} && s.next < |env.queue| {
      IdleEnough(env, s, env.queue[s.next]);
    }
  }

  /** For feasible requests and loads that do not exceed the threshold alone, a run
      in which no job is launched straight on to a VM left suspended is never stuck. */
  lemma NeverStuck(env: Env, states: seq<Sys>, labels: seq<Label>, i: nat)
    requires Feasible(env) && Run(env, states, labels) && i < |states| && states[i].phase != Aborted
    requires forall k :: 0 <= k < i ==>
               Light(labels[k]) && Shape(env, states[k]) && PlacedAwake(env, states[k], labels[k], states[k + 1])
    ensures Shape(env, states[i]) && !Stuck(env, states[i])
  {
    RunTracked(env, states, labels, i);
    RunLight(env, states, labels, i);
    StaysAwake(env, states, labels, i, i);
    AwakeNotStuck(env, states[i]);
  }

  /** In particular, it is never stuck if no suspended job completes. */
  lemma GentleNeverStuck(env: Env, states: seq<Sys>, labels: seq<Label>, i: nat)
    requires Feasible(env) && Run(env, states, labels) && i < |states| && states[i].phase != Aborted
    requires forall k :: 0 <= k < i ==> Light(labels[k]) && Shape(env, states[k]) && Gentle(env, states[k], labels[k])
    ensures Shape(env, states[i]) && !Stuck(env, states[i])
  {
    UnabortedSoFar(env, states, labels, i);
    forall k | 0 <= k < i ensures PlacedAwake(env, states[k], labels[k], states[k + 1]) {
      StaysFitting(env, states, labels, i, k);
      StepAt(env, states, labels, k);
    }
    NeverStuck(env, states, labels, i);
  }

  // ----- retries

  /** The genuine wake-ups among the first `k` steps. */
  function Wakes(states: seq<Sys>, labels: seq<Label>, k: nat): nat
    requires |states| == |labels| + 1 && k <= |labels|
  {
    if k == 0 then 0
    else Wakes(states, labels, k - 1) + if labels[k - 1].Wake? && Genuine(states[k - 1], labels[k - 1]) then 1 else 0
  }

  predicate StillWaiting(s: Sys, id: nat) {
    s.phase.Waiting? && s.phase.id == id
  }

  /** A part of a run that begins with the first wait for job `id` and lasts while it is retried. */
  ghost predicate Retrying(env: Env, states: seq<Sys>, labels: seq<Label>, id: nat) {
    && Trace(StepIn(env), states, labels) && Tracked(env, states[0]) && states[0].phase == Waiting(id, false)
    && (forall i :: 0 <= i < |labels| ==> StillWaiting(states[i], id))
  }

  /** The wake-ups still to come: one for every other live job and one that is due
      already; only the latter once `id` itself has completed. */
  function Budget(s: Sys, id: nat): nat {
    if !s.phase.Waiting? then 0
    else (if id in s.ctl.live then |s.ctl.live - {id}| else 0) + if s.phase.completed then 1 else 0
  }

  /** Holds while job `id` is retried, if single loads do not exceed the threshold. */
  ghost predicate InRetry(env: Env, s: Sys, id: nat) {
    && Tracked(env, s) && (s.phase != Aborted ==> LightLoads(env, s))
    && (StillWaiting(s, id) && !s.phase.completed ==> id in s.ctl.live && |s.ctl.live - {id}| >= 1)
  }

  lemma WaitingInRetry(env: Env, s: Sys, id: nat)
    requires Tracked(env, s) && s.phase != Aborted && LightLoads(env, s)
    ensures InRetry(env, s, id)
  {
    if StillWaiting(s, id) && !s.phase.completed {
      var j, m := OtherJobOnMarked(env, s);
      assert j in s.ctl.live - {id};
    }
  }

  lemma RetryStep(env: Env, s: Sys, l: Label, t: Sys, id: nat)
    requires InRetry(env, s, id) && StillWaiting(s, id) && Step(env, s, l, t)
    ensures InRetry(env, t, id)
    ensures Budget(t, id) + (if l.Wake? && Genuine(s, l) then 1 else 0) <= Budget(s, id)
  {
    StepMeasure(env, s, l, t);
    StepLight(env, s, l, t);
    if t.phase != Aborted {
      WaitingInRetry(env, t, id);
    }
    match l {
      case Complete(j) => RemovedCard(s.ctl.live, id, j);
      case Wake(ms, cs) => ResolveRest(env, s, id, true, ms, cs);
      case Launch(_, _, _) =>
      case Finish =>
    }
  }

  lemma RemovedCard(live: set<nat>, id: nat, j: nat)
    requires j in live
    ensures j != id ==> |live - {j} - {id}| == |live - {id}| - 1
  {
    if j != id {
      assert live - {id} == (live - {j} - {id}) + {j};
    }
  }

  predicate WithinKept(states: seq<Sys>, labels: seq<Label>, id: nat, k: nat)
    requires |states| == |labels| + 1 && k < |labels|
  {
    Wakes(states, labels, k + 1) + Budget(states[k + 1], id) <= Wakes(states, labels, k) + Budget(states[k], id)
  }

  lemma {:induction false} RetryBudget(states: seq<Sys>, labels: seq<Label>, id: nat, k: nat)
    requires |states| == |labels| + 1 && k <= |labels|
    requires forall j :: 0 <= j < |labels| ==> WithinKept(states, labels, id, j)
    ensures Wakes(states, labels, k) + Budget(states[k], id) <= Budget(states[0], id)
    decreases k
  {
    if k > 0 {
      RetryBudget(states, labels, id, k - 1);
      assert WithinKept(states, labels, id, k - 1);
    }
  }

  lemma RetryInvariant(env: Env, states: seq<Sys>, labels: seq<Label>, id: nat, k: nat)
    requires Retrying(env, states, labels, id) && LightLoads(env, states[0]) && k <= |labels|
    ensures InRetry(env, states[k], id)
  {
    var held := (j: nat) => j <= |labels| && InRetry(env, states[j], id);
    WaitingInRetry(env, states[0], id);
    forall j: nat | j < k ensures Keeps(held, j) {
      if held(j) {
        RetryStepAt(env, states, labels, id, j);
      }
    }
    Throughout(held, 0, k);
  }

  lemma RetryStepAt(env: Env, states: seq<Sys>, labels: seq<Label>, id: nat, j: nat)
    requires Retrying(env, states, labels, id) && j < |labels| && InRetry(env, states[j], id)
    ensures InRetry(env, states[j + 1], id) && WithinKept(states, labels, id, j)
  {
    assert StillWaiting(states[j], id);
    TraceStepAt(env, states, labels, j);
    RetryStep(env, states[j], labels[j], states[j + 1], id);
  }

  /** The retry rounds for one job, whichever jobs complete: from the start of its
      first wait, the scheduler wakes up at most once for every other job that was
      live then, if no slot's load exceeds the threshold alone. */
  lemma RetryBound(env: Env, states: seq<Sys>, labels: seq<Label>, id: nat)
    requires Retrying(env, states, labels, id) && LightLoads(env, states[0])
    ensures Wakes(states, labels, |labels|) <= |states[0].ctl.live - {id}|
  {
    WaitingInRetry(env, states[0], id);
    forall j | 0 <= j < |labels| ensures WithinKept(states, labels, id, j) {
      RetryInvariant(env, states, labels, id, j);
      RetryStepAt(env, states, labels, id, j);
    }
    RetryBudget(states, labels, id, |labels|);
  }
}
