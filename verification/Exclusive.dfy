/** The consecutive scheduler: every job gets whole nodes. */
module Exclusive {
  import opened Tables
  import opened SlotMap
  import opened Migration
  import opened Selection
  import opened Controller

  /** A machine is wholly free or wholly held by one job. */
  predicate WholeNodes(usage: Table<Option<nat>>, n: nat)
    requires Rect(usage, n, 2)
  {
    forall m :: 0 <= m < n ==> usage[m][0] == usage[m][1]
  }

  /** Both slots of machine `m` after those of earlier machines. */
  function WithBoth(r: Config, m: nat): (q: Config)
    requires NoDup(r) && forall c :: c in r ==> c.machine < m
    ensures NoDup(q) && forall c :: c in q <==> c in r || c == Elem(m, 0) || c == Elem(m, 1)
  {
    r + [Elem(m, 0), Elem(m, 1)]
  }

  /** The nodes picked after looking at machines below `i`: all free ones, until the request is reached. */
  function Nodes(usage: Table<Option<nat>>, slotSize: nat, requested: nat, i: nat): (r: Config)
    requires i <= |usage| && forall m :: 0 <= m < i ==> |usage[m]| == 2
    ensures forall c :: c in r ==> c.machine < i && c.slot < 2 && Get(usage, Elem(c.machine, 0)) == None
                                   && Elem(c.machine, 0) in r && Elem(c.machine, 1) in r
    ensures NoDup(r) && |r| % 2 == 0
  {
    if i == 0 then []
    else
      var r := Nodes(usage, slotSize, requested, i - 1);
      if i > 1 && Reached(|r|, slotSize, requested) then r
      else if usage[i - 1][0] == None then WithBoth(r, i - 1)
      else r
  }

  predicate Reached(size: nat, slotSize: nat, requested: nat) {
    size * slotSize >= requested
  }

  lemma FreeInPair(row: seq<Option<nat>>)
    requires |row| == 2 && row[0] == row[1]
    ensures FreeIn(row) >= 2 <==> row[0] == None
  {
    FreeInStep(row, 0);
    FreeInStep(row, 1);
    assert row[..0] == [] && row[..2] == row;
  }

  /** Until the request is reached, the selection takes both slots of every free machine. */
  lemma {:induction false} NodesCount(usage: Table<Option<nat>>, n: nat, slotSize: nat, requested: nat, i: nat)
    requires Rect(usage, n, 2) && WholeNodes(usage, n) && i <= n
    ensures var r := Nodes(usage, slotSize, requested, i);
            && (Reached(|r|, slotSize, requested) || |r| == 2 * |Hosts(usage, 2, i)|)
            && (|r| > 2 ==> !Reached(|r| - 2, slotSize, requested))
  {
    if i == 0 {
      assert Hosts(usage, 2, 0) == {};
    } else {
      NodesCount(usage, n, slotSize, requested, i - 1);
      HostsStep(usage, 2, i - 1);
      FreeInPair(usage[i - 1]);
      NodesSize(usage, slotSize, requested, i);
    }
  }

  lemma NodesSize(usage: Table<Option<nat>>, slotSize: nat, requested: nat, i: nat)
    requires 0 < i <= |usage| && forall m :: 0 <= m < i ==> |usage[m]| == 2
    ensures var before := |Nodes(usage, slotSize, requested, i - 1)|;
            |Nodes(usage, slotSize, requested, i)|
            == if (i > 1 && Reached(before, slotSize, requested)) || usage[i - 1][0] != None then before else before + 2
    ensures i == 1 ==> |Nodes(usage, slotSize, requested, i - 1)| == 0
  {
  }

  method TakeAllSlots(config: Config, m: nat) returns (r: Config)
    ensures r == config + [Elem(m, 0), Elem(m, 1)]
  {
    r := config;
    var s := 0;
    while s < 2
      invariant s <= 2
      invariant r == config + if s == 0 then [] else if s == 1 then [Elem(m, 0)] else [Elem(m, 0), Elem(m, 1)]
    {
      r := r + [Elem(m, s)];
      s := s + 1;
    }
  }

  lemma TwicePerHost(size: nat, hosts: nat, slotSize: nat)
    requires size == 2 * hosts
    ensures size * slotSize == hosts * (slotSize * 2)
  {
  }

  /** When the wait predicate holds for two slots per host, the selected nodes
      reach the request, overshooting by less than one machine. */
  lemma NodesReach(usage: Table<Option<nat>>, n: nat, slotSize: nat, requested: nat)
    requires Rect(usage, n, 2) && WholeNodes(usage, n)
    requires |Hosts(usage, 2, n)| * (slotSize * 2) >= requested
    ensures var size := |Nodes(usage, slotSize, requested, n)|;
            && Reached(size, slotSize, requested)
            && (requested > 0 ==> size >= 2 && (size - 2) * slotSize < requested)
  {
    NodesCount(usage, n, slotSize, requested, n);
    var size := |Nodes(usage, slotSize, requested, n)|;
    TwicePerHost(2 * |Hosts(usage, 2, n)|, |Hosts(usage, 2, n)|, slotSize);
    if size == 0 {
      assert size * slotSize == 0;
    }
  }

  predicate HasBoth(config: Config, m: nat) {
    Elem(m, 0) in config && Elem(m, 1) in config
  }

  /** `config` takes both slots, one after the other, of each of the first free machines. */
  ghost predicate FirstNodes(usage: Table<Option<nat>>, n: nat, config: Config)
    requires Rect(usage, n, 2)
  {
    && (forall k :: 0 <= k < |config| ==> On(n, 2, config[k]) && usage[config[k].machine][0] == None)
    && (forall k :: 0 <= k < |config| ==> config[k].slot == k % 2)
    && (forall k, l :: 0 <= k < l < |config| ==> config[k].machine <= config[l].machine)
    && (forall c, m: nat :: c in config && m < c.machine && usage[m][0] == None ==> HasBoth(config, m))
  }

  /** The elements come in pairs of slots 0 and 1, by ascending machine below `i`. */
  ghost predicate InPairs(config: Config, i: nat) {
    && (forall k :: 0 <= k < |config| ==> config[k].slot == k % 2 && config[k].machine < i)
    && (forall k, l :: 0 <= k < l < |config| ==> config[k].machine <= config[l].machine)
  }

  lemma PairAppended(config: Config, m: nat)
    requires InPairs(config, m) && |config| % 2 == 0
    ensures InPairs(config + [Elem(m, 0), Elem(m, 1)], m + 1)
  {
    var r := config + [Elem(m, 0), Elem(m, 1)];
    forall k | 0 <= k < |r| ensures r[k].slot == k % 2 && r[k].machine < m + 1 {
      if k == |config| + 1 {
        assert k % 2 == 1;
      }
    }
  }

  lemma PairsKept(before: Config, after: Config, i: nat)
    requires i > 0 && InPairs(before, i - 1) && |before| % 2 == 0
    requires after == before || after == before + [Elem(i - 1, 0), Elem(i - 1, 1)]
    ensures InPairs(after, i)
  {
    PairAppended(before, i - 1);
  }

  lemma NodesUnfold(usage: Table<Option<nat>>, slotSize: nat, requested: nat, i: nat)
    requires 0 < i <= |usage| && forall m :: 0 <= m < i ==> |usage[m]| == 2
    ensures var before, after := Nodes(usage, slotSize, requested, i - 1), Nodes(usage, slotSize, requested, i);
            |before| % 2 == 0 && (after == before || after == before + [Elem(i - 1, 0), Elem(i - 1, 1)])
  {
  }

  lemma {:induction false} NodesOrder(usage: Table<Option<nat>>, n: nat, slotSize: nat, requested: nat, i: nat)
    requires Rect(usage, n, 2) && i <= n
    ensures InPairs(Nodes(usage, slotSize, requested, i), i)
  {
    if i > 0 {
      NodesOrder(usage, n, slotSize, requested, i - 1);
      NodesUnfold(usage, slotSize, requested, i);
      PairsKept(Nodes(usage, slotSize, requested, i - 1), Nodes(usage, slotSize, requested, i), i);
    }
  }

  /** Unless the request is reached all free machines seen are taken; once it is, no later one. */
  lemma {:induction false} NodesTake(usage: Table<Option<nat>>, n: nat, slotSize: nat, requested: nat, i: nat, m: nat)
    requires Rect(usage, n, 2) && m < i <= n && usage[m][0] == None
    ensures var r := Nodes(usage, slotSize, requested, i);
            || HasBoth(r, m)
            || (Reached(|r|, slotSize, requested) && forall c :: c in r ==> c.machine < m)
  {
    var before, after := Nodes(usage, slotSize, requested, i - 1), Nodes(usage, slotSize, requested, i);
    NodesSize(usage, slotSize, requested, i);
    if m < i - 1 {
      NodesTake(usage, n, slotSize, requested, i - 1, m);
    } else if i > 1 && Reached(|before|, slotSize, requested) {
      assert after == before;
    } else {
      assert after == WithBoth(before, i - 1);
    }
  }

  lemma NodesFirst(usage: Table<Option<nat>>, n: nat, slotSize: nat, requested: nat)
    requires Rect(usage, n, 2)
    ensures FirstNodes(usage, n, Nodes(usage, slotSize, requested, n))
  {
    var r := Nodes(usage, slotSize, requested, n);
    NodesOrder(usage, n, slotSize, requested, n);
    forall k | 0 <= k < |r| ensures On(n, 2, r[k]) && usage[r[k].machine][0] == None {
      assert r[k] in r;
    }
    forall c, m: nat | c in r && m < c.machine && usage[m][0] == None ensures HasBoth(r, m) {
      NodesTake(usage, n, slotSize, requested, n, m);
    }
  }

  /** The selection loop. */
  method SelectNodes(usage: Table<Option<nat>>, n: nat, slotSize: nat, requested: nat) returns (config: Config)
    requires Rect(usage, n, 2) && WholeNodes(usage, n)
    requires |Hosts(usage, 2, n)| * (slotSize * 2) >= requested
    ensures config == Nodes(usage, slotSize, requested, n)
    ensures |config| * slotSize >= requested
    ensures requested > 0 ==> config != [] && |config| >= 2 && (|config| - 2) * slotSize < requested
  {
    config := [];
    var m := 0;
    while m < n
      invariant m <= n && config == Nodes(usage, slotSize, requested, m)
      invariant m > 0 ==> !Reached(|config|, slotSize, requested)
    {
      assert usage[m][0] == usage[m][1];  // the assertion on each machine
      NodesNext(usage, n, slotSize, requested, m);
      if usage[m][0] == None {
        config := TakeAllSlots(config, m);
      }
      m := m + 1;
      if Reached(|config|, slotSize, requested) {
        NodesStay(usage, n, slotSize, requested, m);
        break;
      }
    }
    NodesReach(usage, n, slotSize, requested);
  }

  lemma NodesNext(usage: Table<Option<nat>>, n: nat, slotSize: nat, requested: nat, m: nat)
    requires Rect(usage, n, 2) && m < n
    requires m > 0 ==> !Reached(|Nodes(usage, slotSize, requested, m)|, slotSize, requested)
    ensures Nodes(usage, slotSize, requested, m + 1)
         == Nodes(usage, slotSize, requested, m) + if usage[m][0] == None then [Elem(m, 0), Elem(m, 1)] else []
  {
  }

  lemma {:induction false} NodesStay(usage: Table<Option<nat>>, n: nat, slotSize: nat, requested: nat, i: nat)
    requires Rect(usage, n, 2) && 0 < i <= n && Reached(|Nodes(usage, slotSize, requested, i)|, slotSize, requested)
    ensures Nodes(usage, slotSize, requested, n) == Nodes(usage, slotSize, requested, i)
    decreases n - i
  {
    if i < n {
      NodesStay(usage, n, slotSize, requested, i + 1);
    }
  }

  // ----- runs

  datatype Node = Node(n: nat, slotSize: nat, queue: seq<nat>)

  datatype ExState = ExState(ctl: Ctl, next: nat)

  ghost predicate ExInv(env: Node, s: ExState) {
    Consistent(s.ctl, env.n, 2) && WholeNodes(s.ctl.usage, env.n)
  }

  /** Launch of the next job, or completion of a live one. */
  ghost predicate ExStep(env: Node, s: ExState, t: ExState) {
    && Rect(s.ctl.usage, env.n, 2)
    && (|| (&& s.next < |env.queue|
            && |Hosts(s.ctl.usage, 2, env.n)| * (env.slotSize * 2) >= env.queue[s.next]
            && var cfg := Nodes(s.ctl.usage, env.slotSize, env.queue[s.next], env.n);
               cfg != [] && t == ExState(ExecuteCtl(s.ctl, cfg), s.next + 1))
        || exists j | j in s.ctl.live ::
             j < |s.ctl.configs| && AllOn(env.n, 2, s.ctl.configs[j]) && t == ExState(CompleteCtl(s.ctl, j), s.next))
  }

  lemma NodesLaunchable(env: Node, k: Ctl, requested: nat)
    requires Consistent(k, env.n, 2) && WholeNodes(k.usage, env.n)
    ensures AllOn(env.n, 2, Nodes(k.usage, env.slotSize, requested, env.n))
    ensures Nodes(k.usage, env.slotSize, requested, env.n) != [] ==>
              Launchable(k, env.n, 2, Nodes(k.usage, env.slotSize, requested, env.n))
  {
    var cfg := Nodes(k.usage, env.slotSize, requested, env.n);
    forall i | 0 <= i < |cfg| ensures On(env.n, 2, cfg[i]) && Get(k.usage, cfg[i]) == None {
      assert cfg[i] in cfg;
      assert k.usage[cfg[i].machine][0] == k.usage[cfg[i].machine][1];
    }
  }

  lemma LaunchWhole(env: Node, k: Ctl, requested: nat)
    requires Consistent(k, env.n, 2) && WholeNodes(k.usage, env.n)
    requires Nodes(k.usage, env.slotSize, requested, env.n) != []
    ensures AllOn(env.n, 2, Nodes(k.usage, env.slotSize, requested, env.n))
    ensures var q := ExecuteCtl(k, Nodes(k.usage, env.slotSize, requested, env.n));
            Consistent(q, env.n, 2) && WholeNodes(q.usage, env.n)
  {
    var cfg := Nodes(k.usage, env.slotSize, requested, env.n);
    NodesLaunchable(env, k, requested);
    ExecuteConsistent(k, env.n, 2, cfg);
    var q := ExecuteCtl(k, cfg);
    forall m | 0 <= m < env.n ensures q.usage[m][0] == q.usage[m][1] {
      var c, d := Elem(m, 0), Elem(m, 1);
      assert c in cfg <==> d in cfg;
      assert Get(q.usage, c) == q.usage[m][0] && Get(q.usage, d) == q.usage[m][1];
      assert Get(k.usage, c) == Get(k.usage, d);
    }
  }

  lemma CompleteWhole(env: Node, k: Ctl, j: nat)
    requires Consistent(k, env.n, 2) && WholeNodes(k.usage, env.n) && j in k.live
    ensures j < |k.configs| && AllOn(env.n, 2, k.configs[j])
    ensures var q := CompleteCtl(k, j); Consistent(q, env.n, 2) && WholeNodes(q.usage, env.n)
  {
    CompleteConsistent(k, env.n, 2, j);
    var q := CompleteCtl(k, j);
    forall m | 0 <= m < env.n ensures q.usage[m][0] == q.usage[m][1] {
      var c, d := Elem(m, 0), Elem(m, 1);
      OwnsBoth(k, env.n, j, m);
      assert Get(q.usage, c) == q.usage[m][0] && Get(q.usage, d) == q.usage[m][1];
      assert Get(k.usage, c) == Get(k.usage, d);
    }
  }

  lemma OwnsBoth(k: Ctl, n: nat, j: nat, m: nat)
    requires Consistent(k, n, 2) && WholeNodes(k.usage, n) && j in k.live && m < n
    ensures j < |k.configs| && (Elem(m, 0) in k.configs[j] <==> Elem(m, 1) in k.configs[j])
  {
    assert Holds(k, n, 2, j);
    var c, d := Elem(m, 0), Elem(m, 1);
    assert Get(k.usage, c) == Get(k.usage, d);
    if c in k.configs[j] {
      assert Get(k.usage, k.configs[j][IndexOf(k.configs[j], c)]) == Some(j);
    }
    if d in k.configs[j] {
      assert Get(k.usage, k.configs[j][IndexOf(k.configs[j], d)]) == Some(j);
    }
  }

  /** Over every run each machine is wholly free or wholly held by one job, so
      the assertion in the selection loop never fires. */
  lemma {:induction false} ExclusiveRun(env: Node, states: seq<ExState>, i: nat)
    requires i < |states| && ExInv(env, states[0])
    requires forall j :: 0 <= j < |states| - 1 ==> ExStep(env, states[j], states[j + 1])
    ensures ExInv(env, states[i])
    decreases i
  {
    if i > 0 {
      ExclusiveRun(env, states, i - 1);
      var s, t := states[i - 1], states[i];
      assert ExStep(env, s, t);
      if j :| j in s.ctl.live && j < |s.ctl.configs| && AllOn(env.n, 2, s.ctl.configs[j])
              && t == ExState(CompleteCtl(s.ctl, j), s.next) {
        CompleteWhole(env, s.ctl, j);
      } else {
        LaunchWhole(env, s.ctl, env.queue[s.next]);
      }
    }
  }

  // ----- the schedule method

  /** With all slots free, every machine counts for the wait predicate. */
  lemma IdleNodes(k: Ctl, n: nat)
    requires Consistent(k, n, 2) && k.live == {}
    ensures |Hosts(k.usage, 2, n)| == n
  {
    AllFreeIff(k, n, 2);
    CountAll(k.usage, n, n);
  }

  lemma {:induction false} CountAll(usage: Table<Option<nat>>, n: nat, i: nat)
    requires Rect(usage, n, 2) && i <= n && forall c | On(n, 2, c) :: Get(usage, c) == None
    ensures |Hosts(usage, 2, i)| == i
  {
    if i == 0 {
      assert Hosts(usage, 2, 0) == {};
    } else {
      CountAll(usage, n, i - 1);
      HostsStep(usage, 2, i - 1);
      assert Get(usage, Elem(i - 1, 0)) == None && Get(usage, Elem(i - 1, 1)) == None;
      FreeInPair(usage[i - 1]);
    }
  }

  /** The objects have gone through the states of a run so far. */
  ghost predicate Recorded(env: Node, states: seq<ExState>, cur: ExState) {
    && |states| > 0 && states[0] == ExState(Ctl(seq(env.n, _ => [None, None]), [], {}), 0)
    && states[|states| - 1] == cur && ExInv(env, cur)
    && forall j :: 0 <= j < |states| - 1 ==> ExStep(env, states[j], states[j + 1])
  }

  lemma RecordStep(env: Node, states: seq<ExState>, s: ExState, t: ExState)
    requires Recorded(env, states, s) && ExStep(env, s, t) && ExInv(env, t)
    ensures Recorded(env, states + [t], t)
  {
    var all := states + [t];
    forall j | 0 <= j < |all| - 1 ensures ExStep(env, all[j], all[j + 1]) {
      if j < |states| - 1 {
        assert ExStep(env, states[j], states[j + 1]);
      }
    }
  }

  ghost predicate Wired(env: Node, ctl: Controller)
    reads ctl
  {
    ctl.Valid() && ctl.n == env.n && ctl.w == 2 && ctl.slotSize == env.slotSize
  }

  /** Some live job's command completes. */
  method CompleteSome(ghost env: Node, ctl: Controller, ghost next: nat, ghost states: seq<ExState>)
    returns (ghost states': seq<ExState>)
    requires Wired(env, ctl) && ctl.live != {} && Recorded(env, states, ExState(ctl.State(), next))
    modifies ctl`machineUsage, ctl`live
    ensures Wired(env, ctl) && ctl.live < old(ctl.live) && Recorded(env, states', ExState(ctl.State(), next))
  {
    ghost var before := ctl.State();
    var j :| j in ctl.live;
    CompleteWhole(env, before, j);
    ctl.Complete(j);
    RecordStep(env, states, ExState(before, next), ExState(ctl.State(), next));
    states' := states + [ExState(ctl.State(), next)];
  }

  /** wait_for_ressource with all slots of a host requested. */
  method WaitForNodes(ghost env: Node, ctl: Controller, requested: nat, ghost next: nat, ghost states: seq<ExState>)
    returns (ghost states': seq<ExState>)
    requires Wired(env, ctl) && requested <= env.n * (env.slotSize * 2)
    requires Recorded(env, states, ExState(ctl.State(), next))
    modifies ctl`machineUsage, ctl`live
    ensures Wired(env, ctl) && Recorded(env, states', ExState(ctl.State(), next))
    ensures |Hosts(ctl.machineUsage, 2, env.n)| * (env.slotSize * 2) >= requested
  {
    states' := states;
    while true
      invariant Wired(env, ctl) && Recorded(env, states', ExState(ctl.State(), next))
      decreases ctl.live
    {
      var enough := EnoughFree(ctl.machineUsage, ctl.slotSize, requested, 2);
      if enough {
        if ctl.live == {} { break; }
        if * { break; }
      } else if ctl.live == {} {
        IdleNodes(ctl.State(), env.n);
      }
      states' := CompleteSome(env, ctl, next, states');
    }
  }

  method WaitUntilDone(ghost env: Node, ctl: Controller, ghost next: nat, ghost states: seq<ExState>)
    returns (ghost states': seq<ExState>)
    requires Wired(env, ctl) && Recorded(env, states, ExState(ctl.State(), next))
    modifies ctl`machineUsage, ctl`live
    ensures Wired(env, ctl) && ctl.live == {} && Recorded(env, states', ExState(ctl.State(), next))
  {
    states' := states;
    var free := ctl.AllSlotsFree();
    while !free
      invariant Wired(env, ctl) && (free <==> ctl.live == {}) && Recorded(env, states', ExState(ctl.State(), next))
      decreases ctl.live
    {
      states' := CompleteSome(env, ctl, next, states');
      free := ctl.AllSlotsFree();
    }
  }

  /** Both slots of every machine used, at least the requested CPUs, but less than
      one machine too many. */
  predicate JobFits(cfg: Config, slotSize: nat, requested: nat) {
    && NoDup(cfg) && (forall c :: c in cfg ==> c.slot < 2 && Elem(c.machine, 0) in cfg && Elem(c.machine, 1) in cfg)
    && |cfg| >= 2 && |cfg| * slotSize >= requested && (|cfg| - 2) * slotSize < requested
  }

  lemma LaunchIsStep(env: Node, k: Ctl, next: nat)
    requires Consistent(k, env.n, 2) && WholeNodes(k.usage, env.n) && next < |env.queue| && env.queue[next] > 0
    requires |Hosts(k.usage, 2, env.n)| * (env.slotSize * 2) >= env.queue[next]
    ensures var cfg := Nodes(k.usage, env.slotSize, env.queue[next], env.n);
            && Launchable(k, env.n, 2, cfg) && JobFits(cfg, env.slotSize, env.queue[next])
            && ExInv(env, ExState(ExecuteCtl(k, cfg), next + 1))
            && ExStep(env, ExState(k, next), ExState(ExecuteCtl(k, cfg), next + 1))
  {
    NodesReach(k.usage, env.n, env.slotSize, env.queue[next]);
    NodesLaunchable(env, k, env.queue[next]);
    LaunchWhole(env, k, env.queue[next]);
  }

  /** One round of the schedule loop. */
  method LaunchNext(ghost env: Node, ctl: Controller, requested: nat, ghost next: nat, ghost states: seq<ExState>)
    returns (ghost states': seq<ExState>)
    requires Wired(env, ctl) && Recorded(env, states, ExState(ctl.State(), next))
    requires next < |env.queue| && requested == env.queue[next] && 0 < requested <= env.n * (env.slotSize * 2)
    modifies ctl
    ensures Wired(env, ctl) && Recorded(env, states', ExState(ctl.State(), next + 1))
    ensures |ctl.idToConfig| == |old(ctl.idToConfig)| + 1
    ensures ctl.idToConfig[..|old(ctl.idToConfig)|] == old(ctl.idToConfig)
    ensures JobFits(ctl.idToConfig[|old(ctl.idToConfig)|], env.slotSize, requested)
  {
    states' := WaitForNodes(env, ctl, requested, next, states);
    var config := SelectNodes(ctl.machineUsage, ctl.n, ctl.slotSize, requested);
    ghost var before := ctl.State();
    LaunchIsStep(env, before, next);
    var id := ctl.Execute(config);
    RecordStep(env, states', ExState(before, next), ExState(ctl.State(), next + 1));
    states' := states' + [ExState(ctl.State(), next + 1)];
  }

  /** schedule of the consecutive scheduler: for positive requests that the machines
      can hold it terminates with every job launched on whole nodes and completed,
      and its execution is a run. */
  method Schedule(env: Node, ctl: Controller) returns (ghost states: seq<ExState>)
    requires Wired(env, ctl) && ctl.State() == Ctl(seq(env.n, _ => [None, None]), [], {})
    requires forall i :: 0 <= i < |env.queue| ==> 0 < env.queue[i] <= env.n * (env.slotSize * 2)
    modifies ctl
    ensures Wired(env, ctl) && ctl.live == {} && |ctl.idToConfig| == |env.queue|
    ensures Recorded(env, states, ExState(ctl.State(), |env.queue|))
    ensures forall i :: 0 <= i < |env.queue| ==> JobFits(ctl.idToConfig[i], env.slotSize, env.queue[i])
  {
    states := [ExState(ctl.State(), 0)];
    var next := 0;
    while next < |env.queue|
      invariant next == |ctl.idToConfig| <= |env.queue|
      invariant Wired(env, ctl) && Recorded(env, states, ExState(ctl.State(), next))
      invariant forall i :: 0 <= i < next ==> JobFits(ctl.idToConfig[i], env.slotSize, env.queue[i])
    {
      ghost var before := ctl.idToConfig;
      states := LaunchNext(env, ctl, env.queue[next], next, states);
      assert forall i :: 0 <= i < next ==> ctl.idToConfig[i] == ctl.idToConfig[..next][i] == before[i];
      next := next + 1;
    }
    states := WaitUntilDone(env, ctl, next, states);
  }
}
