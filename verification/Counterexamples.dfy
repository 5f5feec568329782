/** Inputs on which the code does not do what its comments and assertions say. */
module Counterexamples {
  import opened Tables
  import opened SlotMap
  import opened Migration
  import opened Bandwidth
  import opened Rebalance
  import opened UpdateAsserts
  import opened Rejection
  import opened Selection
  import opened Controller
  import opened System
  import Ranks
  import opened Safety
  import opened Suspension
  import opened Theorems
  import opened Progress

  // ----- building launches

  lemma Filled<T>(t: Table<T>, n: nat, cfg: Config, v: T, u: Table<T>)
    requires Rect(t, n, 2) && Rect(u, n, 2) && AllOn(n, 2, cfg)
    requires forall c | On(n, 2, c) :: Get(u, c) == if c in cfg then v else Get(t, c)
    ensures Fill(t, cfg, v) == u
  {
    TableEq(Fill(t, cfg, v), u, n, 2);
  }

  lemma Written(t: Util, n: nat, cfg: Config, vals: seq<real>, u: Util)
    requires Rect(t, n, 2) && Rect(u, n, 2) && AllOn(n, 2, cfg) && NoDup(cfg) && |vals| == |cfg|
    requires forall i :: 0 <= i < |cfg| ==> Get(u, cfg[i]) == vals[i]
    requires forall c | On(n, 2, c) && c !in cfg :: Get(u, c) == Get(t, c)
    ensures Write(t, cfg, vals) == u
  {
    forall c | On(n, 2, c) ensures Get(Write(t, cfg, vals), c) == Get(u, c) {
      if c in cfg {
        WriteAt(t, cfg, vals, IndexOf(cfg, c));
      }
    }
    TableEq(Write(t, cfg, vals), u, n, 2);
  }

  /** `u` has one more job, on `cfg`. */
  ghost predicate Places(env: Env, s: Sys, cfg: Config, u: Sys) {
    && Shape(env, s) && Shape(env, u) && AllOn(env.n, 2, cfg) && OneEach(cfg)
    && (forall c | On(env.n, 2, c) ::
          Get(u.ctl.usage, c) == if c in cfg then Some(|s.ctl.configs|) else Get(s.ctl.usage, c))
    && u.ctl.configs == s.ctl.configs + [cfg] && u.ctl.live == s.ctl.live + {|s.ctl.configs|}
    && u.vms == s.vms && u.hosts == s.hosts + [Guests(s.vms, cfg)]
    && u.suspended == s.suspended && u.next == s.next && u.phase == s.phase
  }

  /** Its loads have been measured without waking a suspended VM. */
  ghost predicate Measures(env: Env, s: Sys, cfg: Config, loads: seq<real>, u: Sys) {
    && Shape(env, s) && Shape(env, u) && AllOn(env.n, 2, cfg) && |loads| == |cfg| && LoadsOk(loads)
    && (forall i :: 0 <= i < |cfg| ==> Get(u.util, cfg[i]) == loads[i])
    && (forall c | On(env.n, 2, c) && c !in cfg :: Get(u.util, c) == Get(s.util, c))
    && AllOn(env.n, 2, Opposing(cfg))
    && (forall i :: 0 <= i < |cfg| ==> Get(s.vms, Opposing(cfg)[i]) !in s.suspended)
  }

  ghost predicate Adds(env: Env, s: Sys, cfg: Config, loads: seq<real>, u: Sys) {
    Places(env, s, cfg, u) && Measures(env, s, cfg, loads, u)
  }

  lemma AddsLaunched(env: Env, s: Sys, cfg: Config, loads: seq<real>, u: Sys)
    requires Adds(env, s, cfg, loads, u)
    ensures u == Launched(s, env.n, cfg, loads)
  {
    OneEachNoDup(cfg);
    Filled(s.ctl.usage, env.n, cfg, Some(|s.ctl.configs|), u.ctl.usage);
    Written(s.util, env.n, cfg, loads, u.util);
    BracketRestoresIff(env, s, cfg, loads);
  }

  /** The next job is launched on `cfg`; the round that follows leads to `t`. */
  lemma LaunchLeads(env: Env, s: Sys, cfg: Config, loads: seq<real>, u: Sys, ms: seq<nat>, cs: seq<nat>)
    requires Adds(env, s, cfg, loads, u) && env.slotSize > 0 && s.phase == NextJob && s.next < |env.queue|
    requires cfg == Selected(s.ctl.usage, env.slotSize, env.queue[s.next]) && cfg != []
    requires |cfg| * env.slotSize == env.queue[s.next] <= env.n * env.slotSize
    requires Orders(env, u, |s.ctl.configs|, ms, cs)
    ensures Step(env, s, Launch(loads, ms, cs), Resolve(env, u, |s.ctl.configs|, false, ms, cs))
  {
    AddsLaunched(env, s, cfg, loads, u);
    AvailableCount(s.ctl.usage, env.n);
    EnoughForSelection(env, s, |cfg|, env.queue[s.next]);
    LaunchRound(env, s, u, |s.ctl.configs|, loads, ms, cs);
  }

  lemma EnoughForSelection(env: Env, s: Sys, k: nat, req: nat)
    requires Shape(env, s) && env.slotSize > 0 && k * env.slotSize == req
    requires |Selected(s.ctl.usage, env.slotSize, req)| == k
    ensures Enough(env, s, req)
  {
    AvailableCount(s.ctl.usage, env.n);
    var have := |Hosts(s.ctl.usage, 1, env.n)|;
    assert k <= have;
    MoreIsEnough(have, k, env.slotSize);
  }

  lemma MoreIsEnough(have: nat, k: nat, slotSize: nat)
    requires k <= have
    ensures have * slotSize >= k * slotSize
  {
  }

  /** Slot `slot` of the first `k` machines. */
  function Column(k: nat, slot: nat): (r: Config)
    ensures |r| == k && forall m :: 0 <= m < k ==> r[m] == Elem(m, slot)
  {
    seq(k, m requires 0 <= m < k => Elem(m, slot))
  }

  /** If `slot` is the first free slot of every machine, the selection takes it on the first machines. */
  lemma SelectedColumn(env: Env, s: Sys, slot: nat, k: nat)
    requires Shape(env, s) && env.slotSize == 1 && slot < 2 && k <= env.n
    requires forall m :: 0 <= m < env.n ==> s.ctl.usage[m][slot] == None && (slot == 1 ==> s.ctl.usage[m][0].Some?)
    ensures Selected(s.ctl.usage, 1, k) == Column(k, slot)
  {
    AvailableColumn(s.ctl.usage, env.n, slot);
  }

  lemma {:induction false} AvailableColumn(usage: Table<Option<nat>>, i: nat, slot: nat)
    requires i <= |usage| && slot < 2
    requires forall m :: 0 <= m < i ==> |usage[m]| == 2 && usage[m][slot] == None && (slot == 1 ==> usage[m][0].Some?)
    ensures Available(usage, i) == Column(i, slot)
  {
    if i > 0 {
      AvailableColumn(usage, i - 1, slot);
      assert FirstFree(usage[i - 1], 0) == Some(slot);
      assert Column(i, slot) == Column(i - 1, slot) + [Elem(i - 1, slot)];
    }
  }

  /** A round in which no machine is marked. */
  lemma CalmRound(env: Env, u: Sys, id: nat, cs: seq<nat>)
    requires Shape(env, u) && id < |u.ctl.configs| && AllOn(env.n, 2, u.ctl.configs[id]) && OneEach(u.ctl.configs[id])
    requires Marked(u.util, u.ctl.configs[id]) == [] && IsSort(u.util, env.n, AllMachines(env.n), cs, false)
    ensures Orders(env, u, id, [], cs) && Resolve(env, u, id, false, [], cs) == Proceed(u)
  {
  }

  // ----- a stuck run

  const One: Env := Env(1, 1, [1, 1, 1])

  function OneMachine(a: Option<nat>, b: Option<nat>, configs: seq<Config>, live: set<nat>, x: real, y: real,
                      suspended: set<string>, hosts: seq<seq<string>>, next: nat, phase: Phase): Sys {
    Sys(Ctl([[a, b]], configs, live), [["a", "b"]], [[x, y]], suspended, hosts, next, phase)
  }

  /** Job 0 runs alone on the first slot, with load 0.5. */
  function OneJob(): Sys {
    OneMachine(Some(0), None, [[Elem(0, 0)]], {0}, 0.5, 0.0, {}, [["a"]], 1, NextJob)
  }

  /** Job 1, with load 0.6, is frozen on the second slot. */
  function OneFrozen(): Sys {
    OneMachine(Some(0), Some(1), [[Elem(0, 0)], [Elem(0, 1)]], {0, 1}, 0.5, 0.6, {"b"}, [["a"], ["b"]], 1, Waiting(1, false))
  }

  /** Its command had ended before the freeze; the completion leaves its VM suspended. */
  function OneStranded(phase: Phase, next: nat): Sys {
    OneMachine(Some(0), None, [[Elem(0, 0)], [Elem(0, 1)]], {0}, 0.5, 0.0, {"b"}, [["a"], ["b"]], next, phase)
  }

  /** Job 2 has been launched on the suspended VM. */
  function OneAsleep(): Sys {
    OneMachine(Some(0), Some(2), [[Elem(0, 0)], [Elem(0, 1)], [Elem(0, 1)]], {0, 2}, 0.5, 0.1, {"b"},
               [["a"], ["b"], ["b"]], 3, NextJob)
  }

  /** Job 0 has completed; only the suspended job 2 is left. */
  function OneStuck(): Sys {
    OneMachine(None, Some(2), [[Elem(0, 0)], [Elem(0, 1)], [Elem(0, 1)]], {2}, 0.0, 0.1, {"b"},
               [["a"], ["b"], ["b"]], 3, NextJob)
  }

  function OneStart(): Sys {
    OneMachine(None, None, [], {}, 0.0, 0.0, {}, [], 0, NextJob)
  }

  lemma OneSorted(util: Util)
    requires Rect(util, 1, 2)
    ensures IsSort(util, 1, AllMachines(1), [0], false)
  {
    assert AllMachines(1) == [0];
  }

  lemma FirstLaunch()
    ensures Step(One, OneStart(), Launch([0.5], [], [0]), OneJob())
  {
    var u := OneJob().(next := 0);
    FirstAdds(u);
    SelectedColumn(One, OneStart(), 0, 1);
    OneSorted(u.util);
    CalmRound(One, u, 0, [0]);
    LaunchLeads(One, OneStart(), [Elem(0, 0)], [0.5], u, [], [0]);
  }

  lemma FirstAdds(u: Sys)
    requires u == OneJob().(next := 0)
    ensures Adds(One, OneStart(), [Elem(0, 0)], [0.5], u) && Marked(u.util, [Elem(0, 0)]) == []
  {
    assert Guests(OneStart().vms, [Elem(0, 0)]) == ["a"];
  }

  /** The state in which job 1 is measured. */
  function OneOverload(): Sys {
    OneMachine(Some(0), Some(1), [[Elem(0, 0)], [Elem(0, 1)]], {0, 1}, 0.5, 0.6, {}, [["a"], ["b"]], 1, NextJob)
  }

  lemma OverloadFreezes()
    ensures Orders(One, OneOverload(), 1, [0], [0])
    ensures Resolve(One, OneOverload(), 1, false, [0], [0]) == OneFrozen()
  {
    var u := OneOverload();
    assert Marked(u.util, [Elem(0, 1)]) == [0];
    OneSorted(u.util);
    assert Candidates(u.util, 1, [0], [0]) == [];
    OwnB();
  }

  lemma OwnB()
    ensures OwnDomains(OneOverload(), 1, 1) == {"b"}
  {
    var u := OneOverload();
    assert Get(u.ctl.usage, u.ctl.configs[1][0]).Some? && Get(u.vms, u.ctl.configs[1][0]) == "b";
  }

  lemma SecondAdds()
    ensures Adds(One, OneJob(), [Elem(0, 1)], [0.6], OneOverload())
  {
    assert Guests(OneJob().vms, [Elem(0, 1)]) == ["b"];
  }

  lemma SecondLaunch()
    ensures Step(One, OneJob(), Launch([0.6], [0], [0]), OneFrozen())
  {
    SecondAdds();
    SelectedColumn(One, OneJob(), 1, 1);
    OverloadFreezes();
    LaunchLeads(One, OneJob(), [Elem(0, 1)], [0.6], OneOverload(), [0], [0]);
  }

  lemma FrozenCompletes()
    ensures Step(One, OneFrozen(), Complete(1), OneStranded(Waiting(1, true), 1))
  {
    var s, t := OneFrozen(), OneStranded(Waiting(1, true), 1);
    Filled(s.ctl.usage, 1, [Elem(0, 1)], None, t.ctl.usage);
    Filled(s.util, 1, [Elem(0, 1)], 0.0, t.util);
    assert {0, 1} - {1} == {0};
  }

  lemma GoesOn()
    ensures Step(One, OneStranded(Waiting(1, true), 1), Wake([], [0]), OneStranded(NextJob, 2))
  {
    var s := OneStranded(Waiting(1, true), 1);
    assert Marked(s.util, [Elem(0, 1)]) == [];
    OneSorted(s.util);
    assert OwnDomains(s, 1, 1) == {};
  }

  lemma ThirdAdds(u: Sys)
    requires u == OneAsleep().(next := 2)
    ensures Adds(One, OneStranded(NextJob, 2), [Elem(0, 1)], [0.1], u) && Marked(u.util, [Elem(0, 1)]) == []
  {
    assert Guests(u.vms, [Elem(0, 1)]) == ["b"];
  }

  lemma ThirdLaunch()
    ensures Step(One, OneStranded(NextJob, 2), Launch([0.1], [], [0]), OneAsleep())
  {
    var u := OneAsleep().(next := 2);
    ThirdAdds(u);
    SelectedColumn(One, OneStranded(NextJob, 2), 1, 1);
    OneSorted(u.util);
    CalmRound(One, u, 2, [0]);
    LaunchLeads(One, OneStranded(NextJob, 2), [Elem(0, 1)], [0.1], u, [], [0]);
  }

  lemma FirstCompletes()
    ensures Step(One, OneAsleep(), Complete(0), OneStuck())
  {
    var s, t := OneAsleep(), OneStuck();
    Filled(s.ctl.usage, 1, [Elem(0, 0)], None, t.ctl.usage);
    Filled(s.util, 1, [Elem(0, 0)], 0.0, t.util);
    assert {0, 2} - {0} == {2};
  }

  function StuckStates(): seq<Sys> {
    [OneStart(), OneJob(), OneFrozen(), OneStranded(Waiting(1, true), 1), OneStranded(NextJob, 2), OneAsleep(), OneStuck()]
  }

  function StuckLabels(): seq<Label> {
    [Launch([0.5], [], [0]), Launch([0.6], [0], [0]), Complete(1), Wake([], [0]), Launch([0.1], [], [0]), Complete(0)]
  }

  lemma StuckStep(k: nat)
    requires k < |StuckLabels()|
    ensures StepIn(One)(StuckStates()[k], StuckLabels()[k], StuckStates()[k + 1])
  {
    if k == 1 {
      StuckSecond();
    } else if k < 3 {
      StuckBegins(k);
    } else {
      StuckEnds(k);
    }
  }

  lemma StuckBegins(k: nat)
    requires k == 0 || k == 2
    ensures StepIn(One)(StuckStates()[k], StuckLabels()[k], StuckStates()[k + 1])
  {
    if k == 0 {
      FirstLaunch();
    } else {
      FrozenCompletes();
    }
  }

  lemma StuckSecond()
    ensures StepIn(One)(StuckStates()[1], StuckLabels()[1], StuckStates()[2])
  {
    SecondLaunch();
  }

  lemma StuckEnds(k: nat)
    requires 3 <= k < 6
    ensures StepIn(One)(StuckStates()[k], StuckLabels()[k], StuckStates()[k + 1])
  {
    match k {
      case 3 => GoesOn();
      case 4 => ThirdLaunch();
      case _ => FirstCompletes();
    }
  }

  lemma StuckTrace()
    ensures Run(One, StuckStates(), StuckLabels())
  {
    var step := StepIn(One);
    forall k | 0 <= k < |StuckLabels()| ensures step(StuckStates()[k], StuckLabels()[k], StuckStates()[k + 1]) {
      StuckStep(k);
    }
    StuckInit();
  }

  lemma StuckInit()
    ensures Init(One, StuckStates()[0])
  {
  }

  lemma StuckGenuine(k: nat)
    requires k < |StuckLabels()|
    ensures Genuine(StuckStates()[k], StuckLabels()[k]) && Light(StuckLabels()[k])
    ensures StuckLabels()[k].Complete? ==>
              Shape(One, StuckStates()[k])
              && (Awake(One, StuckStates()[k], StuckLabels()[k].id) || StuckLabels()[k] == Complete(1))
  {
  }

  lemma StuckEnd()
    ensures Shape(One, OneStuck()) && Stuck(One, OneStuck()) && !Awake(One, OneStuck(), 2)
  {
    var s := OneStuck();
    assert Get(s.vms, s.ctl.configs[2][0]) == "b";
  }

  lemma StuckForGood()
    ensures !CanMove(One, OneStuck())
  {
    StuckEnd();
    StuckTrace();
    RunTracked(One, StuckStates(), StuckLabels(), |StuckLabels()|);
    StuckIff(One, OneStuck());
  }

  /** A feasible queue with light loads gets stuck when the command of job 1 ends
      before the job is frozen: the VM that stays suspended is given to the next
      job, which then never completes. */
  lemma StuckRun()
    ensures Feasible(One) && Run(One, StuckStates(), StuckLabels())
    ensures forall k :: 0 <= k < |StuckLabels()| ==>
              && Genuine(StuckStates()[k], StuckLabels()[k]) && Light(StuckLabels()[k])
              && (StuckLabels()[k].Complete? && StuckLabels()[k] != Complete(1) ==>
                    Shape(One, StuckStates()[k]) && Awake(One, StuckStates()[k], StuckLabels()[k].id))
    ensures StuckStates()[|StuckLabels()|] == OneStuck() && OneStuck().next == |One.queue| && OneStuck().ctl.live == {2}
    ensures Stuck(One, OneStuck()) && !CanMove(One, OneStuck()) && !Awake(One, OneStuck(), 2)
  {
    StuckTrace();
    StuckEnd();
    StuckForGood();
    forall k | 0 <= k < |StuckLabels()|
      ensures Genuine(StuckStates()[k], StuckLabels()[k]) && Light(StuckLabels()[k])
      ensures StuckLabels()[k].Complete? && StuckLabels()[k] != Complete(1) ==>
                Shape(One, StuckStates()[k]) && Awake(One, StuckStates()[k], StuckLabels()[k].id)
    {
      StuckGenuine(k);
    }
  }

  // ----- aborted runs

  lemma TwoSteps(step: (Sys, Label, Sys) -> bool, a: Sys, l: Label, b: Sys, m: Label, c: Sys)
    requires step(a, l, b) && step(b, m, c)
    ensures Trace(step, [a, b, c], [l, m])
  {
  }

  lemma OneStep(step: (Sys, Label, Sys) -> bool, a: Sys, l: Label, b: Sys)
    requires step(a, l, b)
    ensures Trace(step, [a, b], [l])
  {
  }

  /** A run of one launch that a violated assertion ends. */
  lemma AbortingLaunch(env: Env, s: Sys, cfg: Config, loads: seq<real>, u: Sys, ms: seq<nat>, cs: seq<nat>)
    requires Adds(env, s, cfg, loads, u) && env.slotSize == 1 && s.phase == NextJob && s.next < |env.queue|
    requires cfg == Selected(s.ctl.usage, 1, env.queue[s.next]) && 0 < |cfg| == env.queue[s.next] <= env.n
    requires Orders(env, u, |s.ctl.configs|, ms, cs) && Resolve(env, u, |s.ctl.configs|, false, ms, cs).phase == Aborted
    ensures Step(env, s, Launch(loads, ms, cs), u.(phase := Aborted))
  {
    LaunchLeads(env, s, cfg, loads, u, ms, cs);
  }

  /** A round with one marked machine, for which a candidate is found. */
  lemma SingleOrders(env: Env, u: Sys, id: nat, m: nat, cs: seq<nat>)
    requires Shape(env, u) && id < |u.ctl.configs| && AllOn(env.n, 2, u.ctl.configs[id]) && OneEach(u.ctl.configs[id])
    requires Marked(u.util, u.ctl.configs[id]) == [m] && m < env.n
    requires IsSort(u.util, env.n, AllMachines(env.n), cs, false) && |cs| > 0
    requires Total(u.util, m) + Total(u.util, cs[0]) < 2.0 * TH
    ensures Orders(env, u, id, [m], cs) && !Rejected(env, u, id, [m], cs) && FirstOf(cs, [m]) == [cs[0]]
    ensures PlanInput(u.util, env.n, u.ctl.configs[id], [m], [cs[0]])
  {
    OrdersPlanInput(env, u, id, [m], cs);
    FirstCandidate(u.util, env.n, [m], cs);
  }

  lemma FirstCandidate(util: Util, n: nat, marked: seq<nat>, cs: seq<nat>)
    requires Rect(util, n, 2) && |marked| == 1 && |cs| > 0 && marked[0] < n && Machines(n, cs)
    requires Total(util, marked[0]) + Total(util, cs[0]) < 2.0 * TH
    ensures Candidates(util, n, marked, cs) == [cs[0]]
  {
    assert cs[..1] == [cs[0]];
    assert SumOf(util, n, marked) == Total(util, marked[0]);
    assert SumOf(util, n, [cs[0]]) == Total(util, cs[0]);
  }

  // A pair of machines that would not stay below the threshold.

  const Lone: Env := Env(2, 1, [1])

  function LoneStart(): Sys {
    Sys(Ctl([[None, None], [None, None]], [], {}), [["a", "b"], ["c", "d"]], [[0.0, 0.0], [0.0, 0.0]], {}, [], 0, NextJob)
  }

  function LoneMeasured(): Sys {
    Sys(Ctl([[Some(0), None], [None, None]], [[Elem(0, 0)]], {0}), [["a", "b"], ["c", "d"]],
        [[0.95, 0.0], [0.0, 0.0]], {}, [["a"]], 0, NextJob)
  }

  lemma LoneAdds()
    ensures Adds(Lone, LoneStart(), [Elem(0, 0)], [0.95], LoneMeasured())
  {
    assert Guests(LoneStart().vms, [Elem(0, 0)]) == ["a"];
  }

  lemma TwoSorted(util: Util)
    requires Rect(util, 2, 2) && Total(util, 1) <= Total(util, 0)
    ensures IsSort(util, 2, AllMachines(2), [1, 0], false)
  {
    assert AllMachines(2) == [0, 1];
  }

  lemma LoneOrders()
    ensures Orders(Lone, LoneMeasured(), 0, [0], [1, 0])
    ensures !Rejected(Lone, LoneMeasured(), 0, [0], [1, 0]) && FirstOf([1, 0], [0]) == [1]
    ensures PlanInput(LoneMeasured().util, 2, [Elem(0, 0)], [0], [1])
  {
    var u := LoneMeasured();
    assert Marked(u.util, [Elem(0, 0)]) == [0];
    TwoSorted(u.util);
    SingleOrders(Lone, u, 0, 0, [1, 0]);
  }

  lemma LoneGuards()
    ensures PlanInput(LoneMeasured().util, 2, [Elem(0, 0)], [0], [1])
    ensures !GuardsOk(LoneMeasured().util, 2, [Elem(0, 0)], [0], [1])
  {
    LoneOrders();
    assert !GuardOk(LoneMeasured().util, [Elem(0, 0)], 0, 1);
  }

  lemma LoneRound()
    ensures Orders(Lone, LoneMeasured(), 0, [0], [1, 0])
    ensures Resolve(Lone, LoneMeasured(), 0, false, [0], [1, 0]).phase == Aborted
  {
    LoneOrders();
    LoneGuards();
    ResolveAbortsIff(Lone, LoneMeasured(), 0, false, [0], [1, 0]);
  }

  lemma LoneLaunch()
    ensures StepIn(Lone)(LoneStart(), Launch([0.95], [0], [1, 0]), LoneMeasured().(phase := Aborted))
  {
    LoneAdds();
    LoneRound();
    SelectedColumn(Lone, LoneStart(), 0, 1);
    assert Column(1, 0) == [Elem(0, 0)];
    AbortingLaunch(Lone, LoneStart(), [Elem(0, 0)], [0.95], LoneMeasured(), [0], [1, 0]);
  }

  lemma LoneInit()
    ensures Init(Lone, LoneStart())
  {
  }

  /** The sum test accepts machine 1, but the job would overload it: an assertion in
      generate_new_config fails. */
  lemma PairAbort()
    ensures Run(Lone, [LoneStart(), LoneMeasured().(phase := Aborted)], [Launch([0.95], [0], [1, 0])])
    ensures PlanInput(LoneMeasured().util, 2, [Elem(0, 0)], [0], [1])
    ensures !GuardsOk(LoneMeasured().util, 2, [Elem(0, 0)], [0], [1])
  {
    LoneInit();
    LoneGuards();
    LoneLaunch();
    OneStep(StepIn(Lone), LoneStart(), Launch([0.95], [0], [1, 0]), LoneMeasured().(phase := Aborted));
  }

  // A marked machine whose only candidate is a machine, and a slot, of the job itself.

  const Pair: Env := Env(2, 1, [2, 2])

  function PairStart(): Sys {
    LoneStart()
  }

  function PairFirst(next: nat): Sys {
    Sys(Ctl([[Some(0), None], [Some(0), None]], [[Elem(0, 0), Elem(1, 0)]], {0}), [["a", "b"], ["c", "d"]],
        [[0.2, 0.0], [0.06, 0.0]], {}, [["a", "c"]], next, NextJob)
  }

  function PairMeasured(): Sys {
    Sys(Ctl([[Some(0), Some(1)], [Some(0), Some(1)]], [[Elem(0, 0), Elem(1, 0)], [Elem(0, 1), Elem(1, 1)]], {0, 1}),
        [["a", "b"], ["c", "d"]], [[0.2, 0.8], [0.06, 0.05]], {}, [["a", "c"], ["b", "d"]], 1, NextJob)
  }

  lemma PairFirstPlaces()
    ensures Places(Pair, PairStart(), [Elem(0, 0), Elem(1, 0)], PairFirst(0))
  {
    assert Guests(PairStart().vms, [Elem(0, 0), Elem(1, 0)]) == ["a", "c"];
  }

  lemma PairFirstMeasures()
    ensures Measures(Pair, PairStart(), [Elem(0, 0), Elem(1, 0)], [0.2, 0.06], PairFirst(0))
    ensures Marked(PairFirst(0).util, [Elem(0, 0), Elem(1, 0)]) == []
  {
    assert Marked(PairFirst(0).util, [Elem(1, 0)]) == [];
  }

  lemma PairFirstLaunch()
    ensures StepIn(Pair)(PairStart(), Launch([0.2, 0.06], [], [1, 0]), PairFirst(1))
  {
    PairFirstPlaces();
    PairFirstMeasures();
    SelectedColumn(Pair, PairStart(), 0, 2);
    assert Column(2, 0) == [Elem(0, 0), Elem(1, 0)];
    TwoSorted(PairFirst(0).util);
    CalmRound(Pair, PairFirst(0), 0, [1, 0]);
    LaunchLeads(Pair, PairStart(), [Elem(0, 0), Elem(1, 0)], [0.2, 0.06], PairFirst(0), [], [1, 0]);
  }

  lemma PairSecondAdds()
    ensures Adds(Pair, PairFirst(1), [Elem(0, 1), Elem(1, 1)], [0.8, 0.05], PairMeasured())
  {
    assert Guests(PairFirst(1).vms, [Elem(0, 1), Elem(1, 1)]) == ["b", "d"];
  }

  lemma PairMarked()
    ensures Marked(PairMeasured().util, [Elem(0, 1), Elem(1, 1)]) == [0]
  {
    assert Marked(PairMeasured().util, [Elem(1, 1)]) == [];
  }

  lemma PairOrders()
    ensures Orders(Pair, PairMeasured(), 1, [0], [1, 0])
    ensures !Rejected(Pair, PairMeasured(), 1, [0], [1, 0]) && FirstOf([1, 0], [0]) == [1]
    ensures PlanInput(PairMeasured().util, 2, [Elem(0, 1), Elem(1, 1)], [0], [1])
  {
    var u := PairMeasured();
    PairMarked();
    TwoSorted(u.util);
    SingleOrders(Pair, u, 1, 0, [1, 0]);
  }

  lemma PairPlan()
    ensures var util, cfg := PairMeasured().util, [Elem(0, 1), Elem(1, 1)];
            && PlanInput(util, 2, cfg, [0], [1]) && GuardsOk(util, 2, cfg, [0], [1])
            && Scatter(util, 2, cfg, [0], [1]) == [Elem(1, 1), Elem(1, 1)] && !NoneMet(util, 2, cfg, [0], [1])
  {
    var util, cfg := PairMeasured().util, [Elem(0, 1), Elem(1, 1)];
    PairOrders();
    assert cfg[1].machine == 1 && Uses(cfg, 1) && SlotOn(cfg, 1) == 1 && SlotOn(cfg, 0) == 1;
    assert PickSlot(util, 0, 1, 1) == 1;
    assert GuardOk(util, cfg, 0, 1);
  }

  lemma PairRound()
    ensures Orders(Pair, PairMeasured(), 1, [0], [1, 0])
    ensures Resolve(Pair, PairMeasured(), 1, false, [0], [1, 0]).phase == Aborted
  {
    PairOrders();
    PairPlan();
    ResolveAbortsIff(Pair, PairMeasured(), 1, false, [0], [1, 0]);
  }

  lemma PairSecondLaunch()
    ensures StepIn(Pair)(PairFirst(1), Launch([0.8, 0.05], [0], [1, 0]), PairMeasured().(phase := Aborted))
  {
    PairSecondAdds();
    PairRound();
    SelectedColumn(Pair, PairFirst(1), 1, 2);
    assert Column(2, 1) == [Elem(0, 1), Elem(1, 1)];
    AbortingLaunch(Pair, PairFirst(1), [Elem(0, 1), Elem(1, 1)], [0.8, 0.05], PairMeasured(), [0], [1, 0]);
  }

  lemma PairInit()
    ensures Init(Pair, PairStart())
  {
  }

  /** The candidate is a machine of the job itself and the chosen slot its own: the
      plan names the slot twice, and the assertion closing update_config fails. */
  lemma DuplicateAbort()
    ensures Run(Pair, [PairStart(), PairFirst(1), PairMeasured().(phase := Aborted)],
                [Launch([0.2, 0.06], [], [1, 0]), Launch([0.8, 0.05], [0], [1, 0])])
    ensures var util, cfg := PairMeasured().util, [Elem(0, 1), Elem(1, 1)];
            && PlanInput(util, 2, cfg, [0], [1]) && GuardsOk(util, 2, cfg, [0], [1])
            && !NoDup(Scatter(util, 2, cfg, [0], [1]))
  {
    PairInit();
    PairFirstLaunch();
    PairSecondLaunch();
    PairPlan();
    TwoSteps(StepIn(Pair), PairStart(), Launch([0.2, 0.06], [], [1, 0]), PairFirst(1), Launch([0.8, 0.05], [0], [1, 0]),
             PairMeasured().(phase := Aborted));
  }

  // A machine the job keeps whose load is exactly the threshold.

  const Triple: Env := Env(3, 1, [3, 2])

  function TripleStart(): Sys {
    Sys(Ctl([[None, None], [None, None], [None, None]], [], {}), [["a", "b"], ["c", "d"], ["e", "f"]],
        [[0.0, 0.0], [0.0, 0.0], [0.0, 0.0]], {}, [], 0, NextJob)
  }

  function TripleFirst(next: nat): Sys {
    Sys(Ctl([[Some(0), None], [Some(0), None], [Some(0), None]], [[Elem(0, 0), Elem(1, 0), Elem(2, 0)]], {0}),
        [["a", "b"], ["c", "d"], ["e", "f"]], [[0.5, 0.0], [0.4, 0.0], [0.0, 0.0]], {}, [["a", "c", "e"]], next, NextJob)
  }

  function TripleMeasured(): Sys {
    Sys(Ctl([[Some(0), Some(1)], [Some(0), Some(1)], [Some(0), None]],
            [[Elem(0, 0), Elem(1, 0), Elem(2, 0)], [Elem(0, 1), Elem(1, 1)]], {0, 1}),
        [["a", "b"], ["c", "d"], ["e", "f"]], [[0.5, 0.6], [0.4, 0.5], [0.0, 0.0]], {},
        [["a", "c", "e"], ["b", "d"]], 1, NextJob)
  }

  lemma TripleFirstPlaces()
    ensures Places(Triple, TripleStart(), [Elem(0, 0), Elem(1, 0), Elem(2, 0)], TripleFirst(0))
  {
    assert Guests(TripleStart().vms, [Elem(0, 0), Elem(1, 0), Elem(2, 0)]) == ["a", "c", "e"];
  }

  lemma TripleFirstMeasures()
    ensures Measures(Triple, TripleStart(), [Elem(0, 0), Elem(1, 0), Elem(2, 0)], [0.5, 0.4, 0.0], TripleFirst(0))
  {
  }

  lemma TripleFirstCalm()
    ensures Marked(TripleFirst(0).util, [Elem(0, 0), Elem(1, 0), Elem(2, 0)]) == []
  {
    assert Marked(TripleFirst(0).util, [Elem(2, 0)]) == [];
    assert Marked(TripleFirst(0).util, [Elem(1, 0), Elem(2, 0)]) == [];
  }

  lemma ThreeSorted(util: Util)
    requires Rect(util, 3, 2) && Total(util, 2) <= Total(util, 1) <= Total(util, 0)
    ensures IsSort(util, 3, AllMachines(3), [2, 1, 0], false)
  {
    assert AllMachines(3) == [0, 1, 2];
  }

  lemma TripleFirstLaunch()
    ensures StepIn(Triple)(TripleStart(), Launch([0.5, 0.4, 0.0], [], [2, 1, 0]), TripleFirst(1))
  {
    TripleFirstPlaces();
    TripleFirstMeasures();
    TripleFirstCalm();
    SelectedColumn(Triple, TripleStart(), 0, 3);
    assert Column(3, 0) == [Elem(0, 0), Elem(1, 0), Elem(2, 0)];
    ThreeSorted(TripleFirst(0).util);
    CalmRound(Triple, TripleFirst(0), 0, [2, 1, 0]);
    LaunchLeads(Triple, TripleStart(), [Elem(0, 0), Elem(1, 0), Elem(2, 0)], [0.5, 0.4, 0.0], TripleFirst(0), [], [2, 1, 0]);
  }

  lemma TripleSecondPlaces()
    ensures Places(Triple, TripleFirst(1), [Elem(0, 1), Elem(1, 1)], TripleMeasured())
  {
    assert Guests(TripleFirst(1).vms, [Elem(0, 1), Elem(1, 1)]) == ["b", "d"];
  }

  lemma TripleSecondMeasures()
    ensures Measures(Triple, TripleFirst(1), [Elem(0, 1), Elem(1, 1)], [0.6, 0.5], TripleMeasured())
  {
  }

  lemma TripleMarked()
    ensures Marked(TripleMeasured().util, [Elem(0, 1), Elem(1, 1)]) == [0]
  {
    assert Marked(TripleMeasured().util, [Elem(1, 1)]) == [];
  }

  lemma TripleOrders()
    ensures Orders(Triple, TripleMeasured(), 1, [0], [2, 1, 0])
    ensures !Rejected(Triple, TripleMeasured(), 1, [0], [2, 1, 0]) && FirstOf([2, 1, 0], [0]) == [2]
    ensures PlanInput(TripleMeasured().util, 3, [Elem(0, 1), Elem(1, 1)], [0], [2])
  {
    TripleMarked();
    ThreeSorted(TripleMeasured().util);
    SingleOrders(Triple, TripleMeasured(), 1, 0, [2, 1, 0]);
  }

  lemma TriplePlan()
    ensures var util, cfg := TripleMeasured().util, [Elem(0, 1), Elem(1, 1)];
            && PlanInput(util, 3, cfg, [0], [2]) && GuardsOk(util, 3, cfg, [0], [2]) && NoneMet(util, 3, cfg, [0], [2])
            && !NoneAtThreshold(util, 3, cfg, [0])
  {
    var util, cfg := TripleMeasured().util, [Elem(0, 1), Elem(1, 1)];
    TripleOrders();
    assert SlotOn(cfg, 0) == 1 && PickSlot(util, 0, 1, 2) == 0;
    assert GuardOk(util, cfg, 0, 2);
    assert cfg[1].machine == 1 && Total(util, 1) == TH;
  }

  lemma TripleRound()
    ensures Orders(Triple, TripleMeasured(), 1, [0], [2, 1, 0])
    ensures Resolve(Triple, TripleMeasured(), 1, false, [0], [2, 1, 0]).phase == Aborted
  {
    TripleOrders();
    TriplePlan();
    ResolveAbortsIff(Triple, TripleMeasured(), 1, false, [0], [2, 1, 0]);
  }

  lemma TripleSelected()
    ensures Selected(TripleFirst(1).ctl.usage, 1, 2) == [Elem(0, 1), Elem(1, 1)]
  {
    SelectedColumn(Triple, TripleFirst(1), 1, 2);
    assert Column(2, 1) == [Elem(0, 1), Elem(1, 1)];
  }

  lemma TripleSecondLaunch()
    ensures StepIn(Triple)(TripleFirst(1), Launch([0.6, 0.5], [0], [2, 1, 0]), TripleMeasured().(phase := Aborted))
  {
    TripleSecondPlaces();
    TripleSecondMeasures();
    TripleRound();
    TripleSelected();
    AbortingLaunch(Triple, TripleFirst(1), [Elem(0, 1), Elem(1, 1)], [0.6, 0.5], TripleMeasured(), [0], [2, 1, 0]);
  }

  lemma TripleInit()
    ensures Init(Triple, TripleStart())
  {
  }

  /** The plan is sound and would resolve the overload, but a machine the job keeps
      carries exactly the threshold: an assertion in update_membw_util fails. */
  lemma ThresholdAbort()
    ensures Run(Triple, [TripleStart(), TripleFirst(1), TripleMeasured().(phase := Aborted)],
                [Launch([0.5, 0.4, 0.0], [], [2, 1, 0]), Launch([0.6, 0.5], [0], [2, 1, 0])])
    ensures var util, cfg := TripleMeasured().util, [Elem(0, 1), Elem(1, 1)];
            && PlanInput(util, 3, cfg, [0], [2]) && GuardsOk(util, 3, cfg, [0], [2]) && NoneMet(util, 3, cfg, [0], [2])
            && !NoneAtThreshold(util, 3, cfg, [0])
  {
    TripleInit();
    TripleFirstLaunch();
    TripleSecondLaunch();
    TriplePlan();
    TwoSteps(StepIn(Triple), TripleStart(), Launch([0.5, 0.4, 0.0], [], [2, 1, 0]), TripleFirst(1),
             Launch([0.6, 0.5], [0], [2, 1, 0]), TripleMeasured().(phase := Aborted));
  }

  // ----- single calls

  /** The chosen slot leaves the machines 0.4 apart, the other one would leave 0.2. */
  lemma SlotChoiceWorse()
    ensures var util := [[0.5, 0.2], [0.1, 0.0]];
            && PickSlot(util, 0, 0, 1) == 1
            && Abs(OldAfter(util, 0, 0, 1, 1) - NewAfter(util, 0, 0, 1, 1)) == 0.4
            && Abs(OldAfter(util, 0, 0, 1, 0) - NewAfter(util, 0, 0, 1, 0)) == 0.2
  {
  }

  /** A job exchanges its own two slots: the controller's tables follow, but the VM
      table is exchanged twice and stays, so the job's VMs appear in the wrong order. */
  lemma GuestsLost()
    ensures var vms, oldCfg, newCfg := [["a", "b"], ["c", "d"]], [Elem(0, 0), Elem(1, 0)], [Elem(1, 0), Elem(0, 0)];
            && Moved(oldCfg, UpdateSteps(oldCfg, newCfg, 0)) == newCfg
            && StepsOn(2, 2, Zip(oldCfg, newCfg)) && ApplySwaps(vms, 2, 2, Zip(oldCfg, newCfg)) == vms
            && Guests(vms, oldCfg) == ["a", "c"] && Guests(vms, newCfg) == ["c", "a"]
  {
    var vms, oldCfg, newCfg := [["a", "b"], ["c", "d"]], [Elem(0, 0), Elem(1, 0)], [Elem(1, 0), Elem(0, 0)];
    UpdateReaches(oldCfg, newCfg, 0);
    ZipOn(2, 2, oldCfg, newCfg);
    SwapTwice(vms, Elem(0, 0), Elem(1, 0));
    assert Zip(oldCfg, newCfg) == [Swap(Elem(0, 0), Elem(1, 0)), Swap(Elem(1, 0), Elem(0, 0))];
    assert Guests(vms, oldCfg) == ["a", "c"] && Guests(vms, newCfg) == ["c", "a"];
  }

  lemma SwapTwice(t: Table<string>, a: Elem, b: Elem)
    requires Rect(t, 2, 2) && On(2, 2, a) && On(2, 2, b)
    ensures StepsOn(2, 2, [Swap(a, b), Swap(b, a)]) && ApplySwaps(t, 2, 2, [Swap(a, b), Swap(b, a)]) == t
  {
    var steps := [Swap(a, b), Swap(b, a)];
    var u := Swapped(t, steps[0]);
    TableEq(Swapped(u, Swap(b, a)), t, 2, 2);
    assert steps[1..] == [Swap(b, a)] && [Swap(b, a)][1..] == [];
    assert ApplySwaps(u, 2, 2, [Swap(b, a)]) == Swapped(u, Swap(b, a));
  }

  /** Both slots of machine 0 are used, but not by neighbours in the config: neither
      element is listed in the group of shared machines. */
  lemma Ungrouped()
    ensures var config := [Elem(0, 0), Elem(1, 0), Elem(0, 1)];
            Ranks.AtMostTwice(config) && Ranks.Shares(config, 0) && Ranks.Shares(config, 2) && Ranks.Groups(config, 2) == [0, 0, 1]
  {
    var config := [Elem(0, 0), Elem(1, 0), Elem(0, 1)];
    assert config[0].machine == config[2].machine;
    assert Ranks.Groups([Elem(0, 1)], 2) == [1];
    assert config[1..] == [Elem(1, 0), Elem(0, 1)] && config[1..][1..] == [Elem(0, 1)];
    assert Ranks.Groups(config[1..], 2) == [0, 1];
  }
}
