/** The controller's bookkeeping as a value: which job holds each slot, and the
    ordered execute_config of every job.  `live` are the jobs whose command is
    still running; configs of completed jobs stay behind in `configs`, as in
    the source, but nothing refers to them any more. */
module SlotMap {
  import opened Tables

  datatype Ctl = Ctl(usage: Table<Option<nat>>, configs: seq<Config>, live: set<nat>)

  /** Job `j` occupies exactly the slots of its own config. */
  predicate Holds(k: Ctl, n: nat, w: nat, j: nat)
    requires Rect(k.usage, n, w) && j < |k.configs|
  {
    var cfg := k.configs[j];
    && cfg != [] && AllOn(n, w, cfg) && NoDup(cfg)
    && forall i :: 0 <= i < |cfg| ==> Get(k.usage, cfg[i]) == Some(j)
  }

  /** The usage table and the configs of the live jobs are inverse to each other. */
  ghost predicate Consistent(k: Ctl, n: nat, w: nat) {
    && Rect(k.usage, n, w)
    && (forall j :: j in k.live ==> j < |k.configs| && Holds(k, n, w, j))
    && (forall c | On(n, w, c) && Get(k.usage, c).Some? ::
          Get(k.usage, c).value in k.live && c in k.configs[Get(k.usage, c).value])
  }

  // ----- applying swaps to the usage table and to all live configs alike

  function Relabel(cfg: Config, s: Swap): (r: Config)
    ensures |r| == |cfg| && forall k :: 0 <= k < |cfg| ==> r[k] == Tr(s, cfg[k])
  {
    seq(|cfg|, k requires 0 <= k < |cfg| => Tr(s, cfg[k]))
  }

  function RelabelLive(configs: seq<Config>, live: set<nat>, s: Swap): (r: seq<Config>)
    ensures |r| == |configs|
    ensures forall j :: 0 <= j < |r| ==> r[j] == if j in live then Relabel(configs[j], s) else configs[j]
  {
    seq(|configs|, j requires 0 <= j < |configs| => if j in live then Relabel(configs[j], s) else configs[j])
  }

  function MoveLive(configs: seq<Config>, live: set<nat>, steps: seq<Swap>): (r: seq<Config>)
    ensures |r| == |configs|
    ensures forall j :: 0 <= j < |r| ==> r[j] == if j in live then Moved(configs[j], steps) else configs[j]
  {
    seq(|configs|, j requires 0 <= j < |configs| => if j in live then Moved(configs[j], steps) else configs[j])
  }

  function StepCtl(k: Ctl, s: Swap): Ctl
    requires In(k.usage, s.a) && In(k.usage, s.b)
  {
    Ctl(Swapped(k.usage, s), RelabelLive(k.configs, k.live, s), k.live)
  }

  function MoveCtl(k: Ctl, n: nat, w: nat, steps: seq<Swap>): Ctl
    requires Rect(k.usage, n, w) && StepsOn(n, w, steps)
  {
    Ctl(ApplySwaps(k.usage, n, w, steps), MoveLive(k.configs, k.live, steps), k.live)
  }

  lemma MoveUnfold(k: Ctl, n: nat, w: nat, s: Swap, rest: seq<Swap>)
    requires Rect(k.usage, n, w) && StepsOn(n, w, [s] + rest)
    ensures On(n, w, s.a) && On(n, w, s.b) && StepsOn(n, w, rest)
    ensures MoveCtl(k, n, w, [s] + rest) == MoveCtl(StepCtl(k, s), n, w, rest)
  {
    var steps := [s] + rest;
    assert steps[0] == s && steps[1..] == rest;
    assert forall i :: 0 <= i < |rest| ==> rest[i] == steps[i + 1];
    var l, r := MoveLive(k.configs, k.live, steps), MoveLive(RelabelLive(k.configs, k.live, s), k.live, rest);
    forall j | 0 <= j < |l| ensures l[j] == r[j] {
      if j in k.live {
        assert forall i :: 0 <= i < |l[j]| ==> l[j][i] == r[j][i];
      }
    }
    assert l == r;
  }

  /** Whatever slots are swapped, usage and configs stay inverse to each other. */
  lemma MoveConsistent(k: Ctl, n: nat, w: nat, steps: seq<Swap>)
    requires Consistent(k, n, w) && StepsOn(n, w, steps)
    ensures Consistent(MoveCtl(k, n, w, steps), n, w)
  {
    var q := MoveCtl(k, n, w, steps);
    forall j | j in q.live ensures j < |q.configs| && Holds(q, n, w, j) {
      assert Holds(k, n, w, j);
      MovedHolds(k, n, w, steps, j);
    }
    forall c | On(n, w, c) && Get(q.usage, c).Some?
      ensures Get(q.usage, c).value in q.live && c in q.configs[Get(q.usage, c).value]
    {
      ApplyOrigin(k.usage, n, w, steps, c);
      var o := Origin(steps, c);
      var v := Get(k.usage, o).value;
      assert v in k.live && o in k.configs[v];
      var i :| 0 <= i < |k.configs[v]| && k.configs[v][i] == o;
      CarryOrigin(steps, c);
      assert q.configs[v][i] == c;
    }
  }

  lemma MovedHolds(k: Ctl, n: nat, w: nat, steps: seq<Swap>, j: nat)
    requires Rect(k.usage, n, w) && j < |k.configs| && j in k.live
    requires Holds(k, n, w, j) && StepsOn(n, w, steps)
    ensures Holds(MoveCtl(k, n, w, steps), n, w, j)
  {
    var cfg := k.configs[j];
    var q := MoveCtl(k, n, w, steps);
    forall i | 0 <= i < |cfg|
      ensures On(n, w, q.configs[j][i]) && Get(q.usage, q.configs[j][i]) == Some(j)
    {
      ApplyCarry(k.usage, n, w, steps, cfg[i]);
    }
    MovedNoDup(cfg, steps);
  }

  lemma MovedNoDup(cfg: Config, steps: seq<Swap>)
    requires NoDup(cfg)
    ensures NoDup(Moved(cfg, steps))
  {
    var r := Moved(cfg, steps);
    forall i, j | 0 <= i < j < |r| ensures r[i] != r[j] {
      if r[i] == r[j] { CarryInjective(steps, cfg[i], cfg[j]); }
    }
  }

  // ----- update_config

  /** The swaps that update_config performs: step `i` exchanges the slot that the
      job's element `i` has by then with the requested one. */
  function UpdateSteps(cur: Config, newCfg: Config, i: nat): (r: seq<Swap>)
    requires |cur| == |newCfg| && i <= |newCfg|
    ensures |r| == |newCfg| - i
    decreases |newCfg| - i
  {
    if i == |newCfg| then []
    else
      var s := Swap(cur[i], newCfg[i]);
      [s] + UpdateSteps(Relabel(cur, s), newCfg, i + 1)
  }

  lemma {:induction false} UpdateStepsOn(n: nat, w: nat, cur: Config, newCfg: Config, i: nat)
    requires |cur| == |newCfg| && i <= |newCfg| && AllOn(n, w, cur) && AllOn(n, w, newCfg)
    ensures StepsOn(n, w, UpdateSteps(cur, newCfg, i))
    decreases |newCfg| - i
  {
    if i < |newCfg| {
      var s := Swap(cur[i], newCfg[i]);
      UpdateStepsOn(n, w, Relabel(cur, s), newCfg, i + 1);
    }
  }

  function UpdateCtl(k: Ctl, n: nat, w: nat, id: nat, newCfg: Config): Ctl
    requires Rect(k.usage, n, w) && id < |k.configs|
    requires AllOn(n, w, k.configs[id]) && AllOn(n, w, newCfg) && |newCfg| == |k.configs[id]|
  {
    UpdateStepsOn(n, w, k.configs[id], newCfg, 0);
    MoveCtl(k, n, w, UpdateSteps(k.configs[id], newCfg, 0))
  }

  /** The swap loop takes a duplicate-free config to any duplicate-free target,
      even when the target overlaps slots the job holds already. */
  lemma {:induction false} UpdateReaches(cur: Config, newCfg: Config, i: nat)
    requires |cur| == |newCfg| && i <= |newCfg|
    requires NoDup(cur) && NoDup(newCfg)
    requires forall l :: 0 <= l < i ==> cur[l] == newCfg[l]
    ensures Moved(cur, UpdateSteps(cur, newCfg, i)) == newCfg
    decreases |newCfg| - i
  {
    var steps := UpdateSteps(cur, newCfg, i);
    if i == |newCfg| {
      assert cur == newCfg;
    } else {
      var s := Swap(cur[i], newCfg[i]);
      var next := Relabel(cur, s);
      assert NoDup(next);
      forall l | 0 <= l < i + 1 ensures next[l] == newCfg[l] {
      }
      UpdateReaches(next, newCfg, i + 1);
      assert steps[0] == s && steps[1..] == UpdateSteps(next, newCfg, i + 1);
      assert forall l :: 0 <= l < |cur| ==> Moved(cur, steps)[l] == Moved(next, steps[1..])[l];
    }
  }

  /** The closing assertion of update_config holds exactly for targets that name
      no slot twice. */
  lemma UpdateReachesIff(cur: Config, newCfg: Config)
    requires |cur| == |newCfg| && NoDup(cur)
    ensures Moved(cur, UpdateSteps(cur, newCfg, 0)) == newCfg <==> NoDup(newCfg)
  {
    if NoDup(newCfg) {
      UpdateReaches(cur, newCfg, 0);
    }
    MovedNoDup(cur, UpdateSteps(cur, newCfg, 0));
  }

  /** Main result on one migration: for every duplicate-free target the relation
      between usage and configs survives and the migrated job arrives at `newCfg`. */
  lemma UpdateCorrect(k: Ctl, n: nat, w: nat, id: nat, newCfg: Config)
    requires Consistent(k, n, w) && id in k.live
    requires AllOn(n, w, newCfg) && |newCfg| == |k.configs[id]| && NoDup(newCfg)
    ensures AllOn(n, w, k.configs[id])
    ensures var q := UpdateCtl(k, n, w, id, newCfg);
            Consistent(q, n, w) && q.live == k.live && q.configs[id] == newCfg
  {
    assert Holds(k, n, w, id);
    UpdateStepsOn(n, w, k.configs[id], newCfg, 0);
    MoveConsistent(k, n, w, UpdateSteps(k.configs[id], newCfg, 0));
    UpdateReaches(k.configs[id], newCfg, 0);
  }

  /** Everyone else: all live configs and the usage table follow one permutation
      of the slots, so each job keeps its length and the position of each of its
      elements; slots outside the old and the new config stay as they are. */
  lemma UpdateOthers(k: Ctl, n: nat, w: nat, id: nat, newCfg: Config, j: nat, c: Elem)
    requires Consistent(k, n, w) && id in k.live && j in k.live && On(n, w, c)
    requires AllOn(n, w, newCfg) && |newCfg| == |k.configs[id]| && AllOn(n, w, k.configs[id])
    ensures var q := UpdateCtl(k, n, w, id, newCfg);
            var steps := UpdateSteps(k.configs[id], newCfg, 0);
            && |q.configs[j]| == |k.configs[j]|
            && (forall i | 0 <= i < |k.configs[j]| :: q.configs[j][i] == Carry(steps, k.configs[j][i]))
            && On(n, w, Carry(steps, c)) && Get(q.usage, Carry(steps, c)) == Get(k.usage, c)
            && (c !in k.configs[id] && c !in newCfg ==> Carry(steps, c) == c)
  {
    var steps := UpdateSteps(k.configs[id], newCfg, 0);
    UpdateStepsOn(n, w, k.configs[id], newCfg, 0);
    ApplyCarry(k.usage, n, w, steps, c);
    if c !in k.configs[id] && c !in newCfg {
      UntouchedStays(k.configs[id], newCfg, 0, c);
    }
  }

  lemma {:induction false} UntouchedStays(cur: Config, newCfg: Config, i: nat, c: Elem)
    requires |cur| == |newCfg| && i <= |newCfg| && c !in cur && c !in newCfg
    ensures Carry(UpdateSteps(cur, newCfg, i), c) == c
    decreases |newCfg| - i
  {
    if i < |newCfg| {
      var s := Swap(cur[i], newCfg[i]);
      assert newCfg[i] in newCfg && cur[i] in cur;
      assert forall l :: 0 <= l < |cur| ==> cur[l] in cur && Relabel(cur, s)[l] != c;
      UntouchedStays(Relabel(cur, s), newCfg, i + 1, c);
    }
  }

  // ----- launching and completing jobs

  function ExecuteCtl(k: Ctl, cfg: Config): Ctl
    requires forall i :: 0 <= i < |cfg| ==> In(k.usage, cfg[i])
  {
    Ctl(Fill(k.usage, cfg, Some(|k.configs|)), k.configs + [cfg], k.live + {|k.configs|})
  }

  function CompleteCtl(k: Ctl, j: nat): Ctl
    requires j < |k.configs| && forall i :: 0 <= i < |k.configs[j]| ==> In(k.usage, k.configs[j][i])
  {
    Ctl(Fill(k.usage, k.configs[j], None), k.configs, k.live - {j})
  }

  predicate Launchable(k: Ctl, n: nat, w: nat, cfg: Config)
    requires Rect(k.usage, n, w)
  {
    && cfg != [] && AllOn(n, w, cfg) && NoDup(cfg)
    && forall i :: 0 <= i < |cfg| ==> Get(k.usage, cfg[i]) == None
  }

  lemma ExecuteConsistent(k: Ctl, n: nat, w: nat, cfg: Config)
    requires Consistent(k, n, w) && Launchable(k, n, w, cfg)
    ensures Consistent(ExecuteCtl(k, cfg), n, w)
  {
    var q := ExecuteCtl(k, cfg);
    var id := |k.configs|;
    forall j | j in q.live ensures j < |q.configs| && Holds(q, n, w, j) {
      if j != id {
        assert Holds(k, n, w, j);
        assert q.configs[j] == k.configs[j];
        forall i | 0 <= i < |q.configs[j]| ensures Get(q.usage, q.configs[j][i]) == Some(j) {
          assert Get(k.usage, k.configs[j][i]) == Some(j);
        }
      }
    }
  }

  lemma CompleteConsistent(k: Ctl, n: nat, w: nat, j: nat)
    requires Consistent(k, n, w) && j in k.live
    ensures Holds(k, n, w, j)
    ensures Consistent(CompleteCtl(k, j), n, w)
  {
    assert Holds(k, n, w, j);
    var q := CompleteCtl(k, j);
    forall l | l in q.live ensures l < |q.configs| && Holds(q, n, w, l) {
      assert Holds(k, n, w, l);
      forall i | 0 <= i < |q.configs[l]| ensures Get(q.usage, q.configs[l][i]) == Some(l) {
        assert Get(k.usage, k.configs[l][i]) == Some(l);
      }
    }
    forall c | On(n, w, c) && Get(q.usage, c).Some?
      ensures Get(q.usage, c).value in q.live && c in q.configs[Get(q.usage, c).value]
    {
      assert c !in k.configs[j];
    }
  }

  /** What done() waits for: all slots free means that no job is live. */
  lemma AllFreeIff(k: Ctl, n: nat, w: nat)
    requires Consistent(k, n, w)
    ensures (forall c | On(n, w, c) :: Get(k.usage, c) == None) <==> k.live == {}
  {
    if j :| j in k.live {
      assert Holds(k, n, w, j);
      assert Get(k.usage, k.configs[j][0]) == Some(j);
    }
  }
}
