/** Which VMs are suspended, during the measurement of a new job and over whole runs. */
module Suspension {
  import opened Tables
  import opened SlotMap
  import opened Migration
  import opened Bandwidth
  import opened Selection
  import opened Controller
  import opened System
  import opened Safety

  // ----- the measurement bracket

  lemma OpposingInvolution(cfg: Config)
    requires forall i :: 0 <= i < |cfg| ==> cfg[i].slot < 2
    ensures Opposing(Opposing(cfg)) == cfg
  {
  }

  lemma OpposingDisjoint(cfg: Config)
    requires OneEach(cfg) && forall i :: 0 <= i < |cfg| ==> cfg[i].slot < 2
    ensures forall c :: c in Opposing(cfg) ==> c !in cfg
  {
    forall c | c in Opposing(cfg) ensures c !in cfg {
      var i := IndexOf(Opposing(cfg), c);
      assert forall j :: 0 <= j < |cfg| ==> cfg[j].machine == c.machine ==> j == i;
    }
  }

  lemma DomainsMember(usage: Table<Option<nat>>, vms: Table<string>, cfg: Config, v: string) returns (i: nat)
    requires forall j :: 0 <= j < |cfg| ==> In(usage, cfg[j]) && In(vms, cfg[j])
    requires v in Domains(usage, vms, cfg)
    ensures i < |cfg| && Get(usage, cfg[i]).Some? && Get(vms, cfg[i]) == v
  {
    i :| 0 <= i < |cfg| && Get(usage, cfg[i]).Some? && Get(vms, cfg[i]) == v;
  }

  /** `v` is the VM on an occupied slot opposite to one of `cfg`. */
  ghost predicate Opposite(env: Env, s: Sys, cfg: Config, v: string)
    requires Shape(env, s) && AllOn(env.n, 2, cfg)
  {
    exists i :: 0 <= i < |cfg| && Get(s.vms, Elem(cfg[i].machine, 1 - cfg[i].slot)) == v
                && Get(s.ctl.usage, Elem(cfg[i].machine, 1 - cfg[i].slot)).Some?
  }

  /** `asleep` are the VMs suspended in `s` and those on the occupied slots opposite to `cfg`. */
  ghost predicate OppositeAsleep(env: Env, s: Sys, cfg: Config, asleep: set<string>)
    requires Shape(env, s) && AllOn(env.n, 2, cfg)
  {
    forall v :: v in asleep <==> v in s.suspended || Opposite(env, s, cfg, v)
  }

  /** While a new job on `cfg` is measured, exactly the VMs of other live jobs on the
      opposite slots are suspended in addition; the job's own VMs are untouched. */
  lemma MeasurementBracket(env: Env, s: Sys, cfg: Config)
    requires Base(env, s) && Launchable(s.ctl, env.n, 2, cfg) && OneEach(cfg) && AllOn(env.n, 2, Opposing(cfg))
    ensures var b := Bracketed(s, env.n, cfg);
            && OppositeAsleep(env, s, cfg, b.suspended)
            && (forall i | 0 <= i < |cfg| :: Get(s.vms, cfg[i]) in b.suspended <==> Get(s.vms, cfg[i]) in s.suspended)
            && (forall i | 0 <= i < |cfg| && Get(s.ctl.usage, Opposing(cfg)[i]).Some? ::
                  Get(s.ctl.usage, Opposing(cfg)[i]).value in s.ctl.live)
  {
    var b := Bracketed(s, env.n, cfg);
    forall v ensures v in b.suspended <==> v in s.suspended || Opposite(env, s, cfg, v) {
      OppositeDomains(env, s, cfg, v);
    }
    forall i | 0 <= i < |cfg| ensures Get(s.vms, cfg[i]) in b.suspended <==> Get(s.vms, cfg[i]) in s.suspended {
      OwnNotOpposite(env, s, cfg, i);
      OppositeDomains(env, s, cfg, Get(s.vms, cfg[i]));
    }
  }

  lemma OppositeUsage(env: Env, s: Sys, cfg: Config, i: nat)
    requires Shape(env, s) && AllOn(env.n, 2, cfg) && AllOn(env.n, 2, Opposing(cfg)) && OneEach(cfg) && i < |cfg|
    ensures Opposing(cfg)[i] == Elem(cfg[i].machine, 1 - cfg[i].slot)
    ensures Get(Placed(s, env.n, cfg).ctl.usage, Opposing(cfg)[i]) == Get(s.ctl.usage, Opposing(cfg)[i])
  {
    OpposingDisjoint(cfg);
    assert Opposing(cfg)[i] in Opposing(cfg);
  }

  lemma OppositeDomains(env: Env, s: Sys, cfg: Config, v: string)
    requires Shape(env, s) && AllOn(env.n, 2, cfg) && AllOn(env.n, 2, Opposing(cfg)) && OneEach(cfg)
    ensures var p := Placed(s, env.n, cfg); v in Domains(p.ctl.usage, p.vms, Opposing(cfg)) <==> Opposite(env, s, cfg, v)
  {
    var p, opp := Placed(s, env.n, cfg), Opposing(cfg);
    if v in Domains(p.ctl.usage, p.vms, opp) {
      var i := DomainsMember(p.ctl.usage, p.vms, opp, v);
      OppositeUsage(env, s, cfg, i);
    }
    if Opposite(env, s, cfg, v) {
      var i :| 0 <= i < |cfg| && Get(s.vms, Elem(cfg[i].machine, 1 - cfg[i].slot)) == v
               && Get(s.ctl.usage, Elem(cfg[i].machine, 1 - cfg[i].slot)).Some?;
      OppositeUsage(env, s, cfg, i);
      assert Get(p.ctl.usage, opp[i]).Some? && Get(p.vms, opp[i]) == v;
    }
  }

  lemma OwnNotOpposite(env: Env, s: Sys, cfg: Config, i: nat)
    requires Base(env, s) && AllOn(env.n, 2, cfg) && AllOn(env.n, 2, Opposing(cfg)) && OneEach(cfg) && i < |cfg|
    ensures !Opposite(env, s, cfg, Get(s.vms, cfg[i]))
  {
    OpposingDisjoint(cfg);
    forall j | 0 <= j < |cfg| ensures Get(s.vms, Elem(cfg[j].machine, 1 - cfg[j].slot)) != Get(s.vms, cfg[i]) {
      OppositeUsage(env, s, cfg, j);
      assert Opposing(cfg)[j] in Opposing(cfg) && cfg[i] in cfg;
    }
  }

  /** Freezing and thawing the opposite slots restores the suspended set exactly
      when none of their VMs was suspended before. */
  lemma BracketRestoresIff(env: Env, s: Sys, cfg: Config, loads: seq<real>)
    requires Shape(env, s) && AllOn(env.n, 2, cfg) && AllOn(env.n, 2, Opposing(cfg)) && |loads| == |cfg|
    ensures var p := Placed(s, env.n, cfg);
            Launched(s, env.n, cfg, loads).suspended == s.suspended
            <==> s.suspended !! Domains(p.ctl.usage, p.vms, Opposing(cfg))
  {
    var p := Placed(s, env.n, cfg);
    var d := Domains(p.ctl.usage, p.vms, Opposing(cfg));
    assert Launched(s, env.n, cfg, loads).suspended == (s.suspended + d) - d;
    if s.suspended !! d {
      assert (s.suspended + d) - d == s.suspended;
    }
  }

  // ----- whole runs

  /** Between jobs nothing is suspended; in the retry loop exactly the new job is. */
  ghost predicate SuspendedFits(env: Env, s: Sys)
    requires Shape(env, s)
  {
    match s.phase
    case NextJob => s.suspended == {}
    case Waiting(id, _) =>
      id in s.ctl.live && id < |s.ctl.configs| && AllOn(env.n, 2, s.ctl.configs[id])
      && s.suspended == OwnDomains(s, env.n, id)
    case Finished => s.suspended == {}
    case Aborted => true
  }

  /** No VM of job `j` is suspended. */
  predicate Awake(env: Env, s: Sys, j: nat)
    requires Shape(env, s)
  {
    j < |s.ctl.configs| && AllOn(env.n, 2, s.ctl.configs[j])
    && forall i :: 0 <= i < |s.ctl.configs[j]| ==> Get(s.vms, s.ctl.configs[j][i]) !in s.suspended
  }

  /** The only commands that complete belong to jobs that are not suspended. */
  ghost predicate Gentle(env: Env, s: Sys, l: Label)
    requires Shape(env, s)
  {
    l.Complete? ==> Awake(env, s, l.id)
  }

  lemma OtherAwake(env: Env, s: Sys, id: nat, j: nat)
    requires Base(env, s) && id in s.ctl.live && j in s.ctl.live && id < |s.ctl.configs|
    requires AllOn(env.n, 2, s.ctl.configs[id]) && s.suspended == OwnDomains(s, env.n, id)
    ensures Awake(env, s, j) <==> j != id
  {
    assert Holds(s.ctl, env.n, 2, id) && Holds(s.ctl, env.n, 2, j);
    if j == id {
      assert Get(s.ctl.usage, s.ctl.configs[id][0]).Some?;
      assert Get(s.vms, s.ctl.configs[id][0]) in s.suspended;
    } else {
      forall i | 0 <= i < |s.ctl.configs[j]| ensures Get(s.vms, s.ctl.configs[j][i]) !in s.suspended {
        assert Get(s.ctl.usage, s.ctl.configs[j][i]) == Some(j);
      }
    }
  }

  /** The completion of another job does not change what belongs to job `id`. */
  lemma DomainsKept(env: Env, s: Sys, id: nat, j: nat)
    requires Base(env, s) && id in s.ctl.live && j in s.ctl.live && j != id
    ensures j < |s.ctl.configs| && AllOn(env.n, 2, s.ctl.configs[j])
    ensures id < |s.ctl.configs| && AllOn(env.n, 2, s.ctl.configs[id])
    ensures OwnDomains(Completed(s, env.n, j), env.n, id) == OwnDomains(s, env.n, id)
  {
    assert Holds(s.ctl, env.n, 2, id) && Holds(s.ctl, env.n, 2, j);
    var t := Completed(s, env.n, j);
    forall i | 0 <= i < |s.ctl.configs[id]|
      ensures Get(t.ctl.usage, s.ctl.configs[id][i]).Some? && Get(s.ctl.usage, s.ctl.configs[id][i]).Some?
    {
      assert Get(s.ctl.usage, s.ctl.configs[id][i]) == Some(id);
      CompletedLoads(env, s, j, s.ctl.configs[id][i]);
    }
  }

  /** Starting from well-suspended states, a completion keeps the suspended VMs
      accounted for iff the completed job was not suspended. */
  lemma CompleteSuspendedIff(env: Env, s: Sys, j: nat)
    requires Base(env, s) && SuspendedFits(env, s) && j in s.ctl.live && (s.phase == NextJob || s.phase.Waiting?)
    ensures j < |s.ctl.configs| && AllOn(env.n, 2, s.ctl.configs[j])
    ensures Shape(env, Completed(s, env.n, j))
    ensures SuspendedFits(env, Completed(s, env.n, j)) <==> Awake(env, s, j)
  {
    CompletedBase(env, s, j);
    if s.phase.Waiting? {
      OtherAwake(env, s, s.phase.id, j);
      if j != s.phase.id {
        DomainsKept(env, s, s.phase.id, j);
      }
    }
  }

  lemma ResolveSuspended(env: Env, s: Sys, id: nat, frozen: bool, ms: seq<nat>, cs: seq<nat>)
    requires Base(env, s) && Blamed(env, s, id) && Orders(env, s, id, ms, cs)
    requires s.suspended == if frozen then OwnDomains(s, env.n, id) else {}
    ensures var t := Resolve(env, s, id, frozen, ms, cs);
            t.phase == Aborted || (Shape(env, t) && SuspendedFits(env, t))
  {
    ResolveInv(env, s, id, frozen, ms, cs);
    if Marked(s.util, s.ctl.configs[id]) != [] {
      MarkedLive(env, s, id);
    }
  }

  lemma LaunchSuspended(env: Env, s: Sys, l: Label, t: Sys)
    requires Base(env, s) && PhaseFits(env, s) && SuspendedFits(env, s) && l.Launch? && LaunchStep(env, s, l, t)
    ensures t.phase == Aborted || (Shape(env, t) && SuspendedFits(env, t))
  {
    if t.phase != Aborted {
      var cfg := Selected(s.ctl.usage, env.slotSize, env.queue[s.next]);
      SelectedOn(s.ctl.usage, env.n, env.slotSize, env.queue[s.next]);
      SelectedLaunchable(env, s, cfg);
      LaunchedBase(env, s, cfg, l.loads);
      LaunchedBlamed(env, s, cfg, l.loads);
      BracketRestoresIff(env, s, cfg, l.loads);
      ResolveSuspended(env, Launched(s, env.n, cfg, l.loads), |s.ctl.configs|, false, l.ms, l.cs);
    }
  }

  /** One step keeps the suspended VMs accounted for iff it completes no suspended job. */
  lemma StepSuspendedIff(env: Env, s: Sys, l: Label, t: Sys)
    requires Base(env, s) && PhaseFits(env, s) && SuspendedFits(env, s) && Step(env, s, l, t) && t.phase != Aborted
    ensures Shape(env, t) && (SuspendedFits(env, t) <==> Gentle(env, s, l))
  {
    match l {
      case Launch(_, _, _) => LaunchSuspended(env, s, l, t);
      case Complete(j) => CompleteSuspendedIff(env, s, j);
      case Wake(ms, cs) => ResolveSuspended(env, s, s.phase.id, true, ms, cs);
      case Finish =>
    }
  }

  /** What the completion of a frozen job leaves behind: its VMs are not resumed,
      because thaw passes over free slots, so when the scheduler goes on to the next
      job the slots are free again and their VMs still suspended. */
  lemma FrozenCompletionStrands(env: Env, s: Sys, ms: seq<nat>, cs: seq<nat>, i: nat)
    requires Base(env, s) && PhaseFits(env, s) && SuspendedFits(env, s) && s.phase.Waiting?
    requires i < |s.ctl.configs[s.phase.id]|
    ensures var id, t := s.phase.id, Completed(s, env.n, s.phase.id);
            Orders(env, t, id, ms, cs) ==>
              var u, c := Resolve(env, t, id, true, ms, cs), s.ctl.configs[id][i];
              && Shape(env, u) && u.phase == NextJob && u.suspended == s.suspended
              && On(env.n, 2, c) && Get(u.ctl.usage, c) == None && Get(u.vms, c) in u.suspended
  {
    var id := s.phase.id;
    var t := Completed(s, env.n, id);
    assert Holds(s.ctl, env.n, 2, id);
    assert Get(s.ctl.usage, s.ctl.configs[id][i]).Some?;
    assert Get(s.vms, s.ctl.configs[id][i]) in s.suspended;
    CompletedBase(env, s, id);
    CompletedBlamed(env, s, id, id);
    if Marked(t.util, t.ctl.configs[id]) != [] {
      MarkedLive(env, t, id);
    }
    assert OwnDomains(t, env.n, id) == {};
  }

  // ----- which live jobs are suspended

  /** A live job is awake iff none of the VMs it was started with is suspended. */
  lemma AwakeHosts(env: Env, s: Sys, j: nat)
    requires Base(env, s) && j in s.ctl.live
    ensures j < |s.hosts|
    ensures Awake(env, s, j) <==> forall v :: v in s.hosts[j] ==> v !in s.suspended
  {
    var g := Guests(s.vms, s.ctl.configs[j]);
    assert g == s.hosts[j];
    if Awake(env, s, j) {
      forall v | v in s.hosts[j] ensures v !in s.suspended {
        var i :| 0 <= i < |g| && g[i] == v;
      }
    } else {
      var i :| 0 <= i < |g| && Get(s.vms, s.ctl.configs[j][i]) in s.suspended;
      assert g[i] in s.hosts[j];
    }
  }

  /** Freezing or thawing a live job reaches exactly the VMs it was started with. */
  lemma OwnHosts(env: Env, s: Sys, id: nat, v: string)
    requires Base(env, s) && id in s.ctl.live
    ensures id < |s.ctl.configs| == |s.hosts| && AllOn(env.n, 2, s.ctl.configs[id])
    ensures v in OwnDomains(s, env.n, id) <==> v in s.hosts[id]
  {
    assert Holds(s.ctl, env.n, 2, id);
    var cfg := s.ctl.configs[id];
    var g := Guests(s.vms, cfg);
    assert g == s.hosts[id];
    if v in s.hosts[id] {
      var i :| 0 <= i < |g| && g[i] == v;
      assert Get(s.ctl.usage, cfg[i]) == Some(id);
    }
    if v in OwnDomains(s, env.n, id) {
      var i := DomainsMember(s.ctl.usage, s.vms, cfg, v);
      assert g[i] == v;
    }
  }

  /** No two live jobs share a VM. */
  lemma HostsDisjoint(env: Env, s: Sys, i: nat, j: nat, v: string)
    requires Base(env, s) && i in s.ctl.live && j in s.ctl.live && i != j
    ensures i < |s.hosts| && j < |s.hosts| && (v in s.hosts[i] ==> v !in s.hosts[j])
  {
    assert Holds(s.ctl, env.n, 2, i) && Holds(s.ctl, env.n, 2, j);
    var g, h := Guests(s.vms, s.ctl.configs[i]), Guests(s.vms, s.ctl.configs[j]);
    assert g == s.hosts[i] && h == s.hosts[j];
    forall p, q | 0 <= p < |g| && 0 <= q < |h| ensures g[p] != h[q] {
      assert Get(s.ctl.usage, s.ctl.configs[i][p]) == Some(i);
      assert Get(s.ctl.usage, s.ctl.configs[j][q]) == Some(j);
    }
  }

  /** No live job is suspended, except that in the retry loop the new job may be. */
  ghost predicate LiveAwake(env: Env, s: Sys)
    requires Shape(env, s)
  {
    s.phase == Aborted
    || forall j :: j in s.ctl.live ==> Awake(env, s, j) || (s.phase.Waiting? && j == s.phase.id)
  }

  /** A launched job is suspended iff it was placed on a VM that had been left suspended. */
  lemma LaunchedAwakeIff(env: Env, s: Sys, cfg: Config, loads: seq<real>)
    requires Base(env, s) && Launchable(s.ctl, env.n, 2, cfg) && OneEach(cfg)
    requires AllOn(env.n, 2, Opposing(cfg)) && |loads| == |cfg| && LoadsOk(loads)
    ensures var t := Launched(s, env.n, cfg, loads);
            && Shape(env, t) && |s.ctl.configs| in t.ctl.live
            && (Awake(env, t, |s.ctl.configs|) <==> forall i :: 0 <= i < |cfg| ==> Get(s.vms, cfg[i]) !in s.suspended)
  {
    var t, id := Launched(s, env.n, cfg, loads), |s.ctl.configs|;
    assert t.ctl.configs[id] == cfg;
    OpposingDisjoint(cfg);
    forall i | 0 <= i < |cfg| ensures Get(s.vms, cfg[i]) in t.suspended <==> Get(s.vms, cfg[i]) in s.suspended {
      LaunchedSuspended(env, s, cfg, loads, i);
    }
  }

  lemma LaunchedSuspended(env: Env, s: Sys, cfg: Config, loads: seq<real>, i: nat)
    requires Base(env, s) && AllOn(env.n, 2, cfg) && OneEach(cfg)
    requires AllOn(env.n, 2, Opposing(cfg)) && |loads| == |cfg| && i < |cfg|
    ensures Get(s.vms, cfg[i]) in Launched(s, env.n, cfg, loads).suspended <==> Get(s.vms, cfg[i]) in s.suspended
  {
    var b, opp := Bracketed(s, env.n, cfg), Opposing(cfg);
    OpposingDisjoint(cfg);
    forall j | 0 <= j < |opp| ensures Get(b.vms, opp[j]) != Get(s.vms, cfg[i]) {
      assert opp[j] in opp && cfg[i] in cfg;
    }
  }

  /** What a round does to the suspended VMs, and what it leaves alone. */
  lemma ResolveRest(env: Env, s: Sys, id: nat, frozen: bool, ms: seq<nat>, cs: seq<nat>)
    requires Orders(env, s, id, ms, cs)
    ensures var t := Resolve(env, s, id, frozen, ms, cs);
            && t.hosts == s.hosts && t.ctl.live == s.ctl.live
            && (t.phase == Aborted
                || (t.phase == NextJob && t.next == s.next + 1 && t.suspended == Resumed(s, env.n, id, frozen).suspended)
                || (t.phase == Waiting(id, false) && t.next == s.next
                    && t.suspended == Frozen(s, env.n, id, frozen).suspended))
  {
    if Marked(s.util, s.ctl.configs[id]) == [] {
    } else if Rejected(env, s, id, ms, cs) {
    } else if PlanHolds(env, s, id, ms, cs) {
      MigratedRest(Resumed(s, env.n, id, frozen), env.n, id, Planned(env, s, id, ms, cs));
    }
  }

  lemma MigratedRest(s: Sys, n: nat, id: nat, newCfg: Config)
    requires Rect(s.ctl.usage, n, 2) && Rect(s.vms, n, 2) && Rect(s.util, n, 2) && id < |s.ctl.configs|
    requires AllOn(n, 2, s.ctl.configs[id]) && AllOn(n, 2, newCfg) && |newCfg| == |s.ctl.configs[id]|
    ensures var t := Migrated(s, n, id, newCfg);
            && t.ctl.live == s.ctl.live && t.hosts == s.hosts && t.next == s.next && t.phase == s.phase
            && t.suspended == s.suspended
  {
  }

  /** A round leaves no live job but the waiting one suspended, unless the job was
      suspended without having been frozen. */
  lemma ResolveAwake(env: Env, s: Sys, id: nat, frozen: bool, ms: seq<nat>, cs: seq<nat>)
    requires Base(env, s) && Blamed(env, s, id) && Orders(env, s, id, ms, cs)
    requires forall j :: j in s.ctl.live && j != id ==> Awake(env, s, j)
    ensures var t := Resolve(env, s, id, frozen, ms, cs);
            t.phase == Aborted
            || (Shape(env, t)
                && (LiveAwake(env, t) <==> t.phase == NextJob && !frozen && id in s.ctl.live ==> Awake(env, s, id)))
  {
    var t := Resolve(env, s, id, frozen, ms, cs);
    ResolveInv(env, s, id, frozen, ms, cs);
    ResolveRest(env, s, id, frozen, ms, cs);
    if t.phase != Aborted {
      forall j | j in s.ctl.live && j != id ensures Awake(env, t, j) {
        AwakeHosts(env, s, j);
        AwakeHosts(env, t, j);
        if id in s.ctl.live {
          forall v | v in s.hosts[j] ensures v !in OwnDomains(s, env.n, id) {
            HostsDisjoint(env, s, id, j, v);
            OwnHosts(env, s, id, v);
          }
        } else if t.phase.Waiting? {
          MarkedLive(env, s, id);
        }
      }
      if id in s.ctl.live && t.phase == NextJob {
        AwakeHosts(env, s, id);
        AwakeHosts(env, t, id);
        forall v | v in s.hosts[id] ensures v in OwnDomains(s, env.n, id) {
          OwnHosts(env, s, id, v);
        }
      }
    }
  }

  /** A launch that goes straight on to the next job uses no VM that was left suspended. */
  ghost predicate PlacedAwake(env: Env, s: Sys, l: Label, t: Sys)
    requires Shape(env, s)
  {
    l.Launch? && t.phase == NextJob && env.slotSize > 0 && s.next < |env.queue| ==>
      forall c :: c in Selected(s.ctl.usage, env.slotSize, env.queue[s.next]) ==>
        On(env.n, 2, c) && Get(s.vms, c) !in s.suspended
  }

  lemma CompleteAwake(env: Env, s: Sys, j: nat)
    requires Base(env, s) && j in s.ctl.live && (s.phase == NextJob || s.phase.Waiting?) && LiveAwake(env, s)
    ensures j < |s.ctl.configs| && AllOn(env.n, 2, s.ctl.configs[j])
    ensures Shape(env, Completed(s, env.n, j)) && LiveAwake(env, Completed(s, env.n, j))
  {
    CompletedBase(env, s, j);
    var t := Completed(s, env.n, j);
    forall i | i in t.ctl.live && Awake(env, s, i) ensures Awake(env, t, i) {
      AwakeHosts(env, s, i);
      AwakeHosts(env, t, i);
    }
  }

  lemma LaunchAwake(env: Env, s: Sys, l: Label, t: Sys)
    requires Base(env, s) && PhaseFits(env, s) && LiveAwake(env, s)
    requires l.Launch? && LaunchStep(env, s, l, t) && t.phase != Aborted
    ensures Shape(env, t) && (LiveAwake(env, t) <==> PlacedAwake(env, s, l, t))
  {
    var cfg := Selected(s.ctl.usage, env.slotSize, env.queue[s.next]);
    SelectedOn(s.ctl.usage, env.n, env.slotSize, env.queue[s.next]);
    SelectedLaunchable(env, s, cfg);
    MeasuredAwake(env, s, cfg, l.loads, l.ms, l.cs);
    InConfig(env, s, cfg);
  }

  /** The round that follows the measurement of a new job on `cfg`. */
  lemma MeasuredAwake(env: Env, s: Sys, cfg: Config, loads: seq<real>, ms: seq<nat>, cs: seq<nat>)
    requires Base(env, s) && NoOverload(env, s) && forall j :: j in s.ctl.live ==> Awake(env, s, j)
    requires Launchable(s.ctl, env.n, 2, cfg) && OneEach(cfg) && AllOn(env.n, 2, Opposing(cfg))
    requires |loads| == |cfg| && LoadsOk(loads)
    requires Orders(env, Launched(s, env.n, cfg, loads), |s.ctl.configs|, ms, cs)
    ensures var t := Resolve(env, Launched(s, env.n, cfg, loads), |s.ctl.configs|, false, ms, cs);
            t.phase == Aborted
            || (Shape(env, t)
                && (LiveAwake(env, t) <==>
                      (t.phase == NextJob ==> forall i :: 0 <= i < |cfg| ==> Get(s.vms, cfg[i]) !in s.suspended)))
  {
    LaunchedBase(env, s, cfg, loads);
    LaunchedBlamed(env, s, cfg, loads);
    LaunchedAwakeIff(env, s, cfg, loads);
    OthersStayAwake(env, s, cfg, loads);
    ResolveAwake(env, Launched(s, env.n, cfg, loads), |s.ctl.configs|, false, ms, cs);
  }

  lemma OthersStayAwake(env: Env, s: Sys, cfg: Config, loads: seq<real>)
    requires Base(env, s) && AllOn(env.n, 2, cfg) && AllOn(env.n, 2, Opposing(cfg)) && |loads| == |cfg|
    requires Base(env, Launched(s, env.n, cfg, loads))
    requires forall j :: j in s.ctl.live ==> Awake(env, s, j)
    ensures forall j :: j in s.ctl.live ==> Awake(env, Launched(s, env.n, cfg, loads), j)
  {
    var u := Launched(s, env.n, cfg, loads);
    forall j | j in s.ctl.live ensures Awake(env, u, j) {
      AwakeHosts(env, s, j);
      AwakeHosts(env, u, j);
    }
  }

  lemma InConfig(env: Env, s: Sys, cfg: Config)
    requires Shape(env, s) && AllOn(env.n, 2, cfg)
    ensures (forall i :: 0 <= i < |cfg| ==> Get(s.vms, cfg[i]) !in s.suspended)
       <==> forall c :: c in cfg ==> On(env.n, 2, c) && Get(s.vms, c) !in s.suspended
  {
    if forall c :: c in cfg ==> On(env.n, 2, c) && Get(s.vms, c) !in s.suspended {
      assert forall i :: 0 <= i < |cfg| ==> cfg[i] in cfg;
    }
  }

  /** One step keeps the live jobs awake iff it places none on a VM left suspended. */
  lemma StepAwakeIff(env: Env, s: Sys, l: Label, t: Sys)
    requires Base(env, s) && PhaseFits(env, s) && LiveAwake(env, s) && Step(env, s, l, t) && t.phase != Aborted
    ensures Shape(env, t) && (LiveAwake(env, t) <==> PlacedAwake(env, s, l, t))
  {
    match l {
      case Launch(_, _, _) => LaunchAwake(env, s, l, t);
      case Complete(j) => CompleteAwake(env, s, j);
      case Wake(ms, cs) => ResolveAwake(env, s, s.phase.id, true, ms, cs);
      case Finish =>
    }
  }

  /** A job that has been thawed is awake: none of its VMs is suspended when it is moved. */
  lemma ThawedAwake(env: Env, s: Sys, id: nat)
    requires Base(env, s) && id in s.ctl.live
    ensures id < |s.ctl.configs| && AllOn(env.n, 2, s.ctl.configs[id])
    ensures Shape(env, Resumed(s, env.n, id, true)) && Awake(env, Resumed(s, env.n, id, true), id)
  {
    var t := Resumed(s, env.n, id, true);
    forall v | v in s.hosts[id] ensures v in OwnDomains(s, env.n, id) {
      OwnHosts(env, s, id, v);
    }
    AwakeHosts(env, t, id);
  }
}
