/** Facts about whole migrations: undoing one, when the separately computed
    slot swaps of the VM table and of the controller agree, and how many slots
    are occupied. */
module Migration {
  import opened Tables
  import opened SlotMap

  // ----- undo

  /** Following the chain old[i] -> new[i] from `x` for at most `m` hops. */
  function Follow(oldCfg: Config, newCfg: Config, x: Elem, m: nat): Elem
    requires |oldCfg| == |newCfg|
    decreases m
  {
    if m == 0 || x !in oldCfg then x else Follow(oldCfg, newCfg, newCfg[IndexOf(oldCfg, x)], m - 1)
  }

  /** The chain through `x` ends at `y`. */
  ghost predicate Reaches(oldCfg: Config, newCfg: Config, x: Elem, y: Elem)
    requires |oldCfg| == |newCfg|
  {
    exists m: nat :: Follow(oldCfg, newCfg, x, m) == y
  }

  lemma ReachesStep(oldCfg: Config, newCfg: Config, i: nat, y: Elem)
    requires |oldCfg| == |newCfg| && NoDup(oldCfg) && i < |oldCfg| && y !in oldCfg
    ensures Reaches(oldCfg, newCfg, oldCfg[i], y) <==> Reaches(oldCfg, newCfg, newCfg[i], y)
  {
    assert IndexOf(oldCfg, oldCfg[i]) == i;
    if Reaches(oldCfg, newCfg, oldCfg[i], y) {
      var m: nat :| Follow(oldCfg, newCfg, oldCfg[i], m) == y;
      assert Follow(oldCfg, newCfg, newCfg[i], m - 1) == y;
    }
    if Reaches(oldCfg, newCfg, newCfg[i], y) {
      var m: nat :| Follow(oldCfg, newCfg, newCfg[i], m) == y;
      assert Follow(oldCfg, newCfg, oldCfg[i], m + 1) == y;
    }
  }

  /** A property of slots that agrees on cur[l] and new[l] for every l is kept by the update's permutation. */
  lemma {:induction false} UpdateKeepsLabel(cur: Config, newCfg: Config, i: nat, mark: Elem -> bool, x: Elem)
    requires |cur| == |newCfg| && i <= |newCfg|
    requires forall l :: 0 <= l < |cur| ==> mark(cur[l]) == mark(newCfg[l])
    ensures mark(Carry(UpdateSteps(cur, newCfg, i), x)) == mark(x)
    decreases |newCfg| - i
  {
    if i < |newCfg| {
      var s := Swap(cur[i], newCfg[i]);
      UpdateKeepsLabel(Relabel(cur, s), newCfg, i + 1, mark, Tr(s, x));
    }
  }

  /** What sits at the end of a chain old[i] -> new[i] comes to the chain's start. */
  lemma ChainEndToStart(oldCfg: Config, newCfg: Config, y: Elem)
    requires |oldCfg| == |newCfg| && NoDup(oldCfg) && NoDup(newCfg) && y !in oldCfg
    ensures var z := Carry(UpdateSteps(oldCfg, newCfg, 0), y);
            z !in newCfg && Reaches(oldCfg, newCfg, z, y)
  {
    var steps := UpdateSteps(oldCfg, newCfg, 0);
    var z := Carry(steps, y);
    forall l | 0 <= l < |oldCfg| ensures Reaches(oldCfg, newCfg, oldCfg[l], y) == Reaches(oldCfg, newCfg, newCfg[l], y) {
      ReachesStep(oldCfg, newCfg, l, y);
    }
    assert Follow(oldCfg, newCfg, y, 0) == y;
    UpdateKeepsLabel(oldCfg, newCfg, 0, x => Reaches(oldCfg, newCfg, x, y), y);
    if z in newCfg {
      UpdateReaches(oldCfg, newCfg, 0);
      CarryInjective(steps, y, oldCfg[IndexOf(newCfg, z)]);
    }
  }

  lemma RoundTrip(oldCfg: Config, newCfg: Config, y: Elem)
    requires |oldCfg| == |newCfg| && NoDup(oldCfg) && NoDup(newCfg)
    ensures Carry(UpdateSteps(newCfg, oldCfg, 0), Carry(UpdateSteps(oldCfg, newCfg, 0), y)) == y
  {
    var there, back := UpdateSteps(oldCfg, newCfg, 0), UpdateSteps(newCfg, oldCfg, 0);
    UpdateReaches(oldCfg, newCfg, 0);
    UpdateReaches(newCfg, oldCfg, 0);
    if y in oldCfg {
      var i := IndexOf(oldCfg, y);
      assert Moved(oldCfg, there)[i] == newCfg[i] && Moved(newCfg, back)[i] == oldCfg[i];
    } else {
      var q := Carry(back, Carry(there, y));
      ChainEndToStart(oldCfg, newCfg, y);
      forall l | 0 <= l < |oldCfg| ensures Reaches(oldCfg, newCfg, newCfg[l], y) == Reaches(oldCfg, newCfg, oldCfg[l], y) {
        ReachesStep(oldCfg, newCfg, l, y);
      }
      UpdateKeepsLabel(newCfg, oldCfg, 0, x => Reaches(oldCfg, newCfg, x, y), Carry(there, y));
      if q in oldCfg {
        var i := IndexOf(oldCfg, q);
        assert Moved(oldCfg, there)[i] == newCfg[i] && Moved(newCfg, back)[i] == oldCfg[i];
        CarryInjective(back, Carry(there, y), newCfg[i]);
      }
    }
  }

  /** Migrating a job and migrating it back restores the usage table and every
      job's ordered config, whatever the migration overlapped. */
  lemma UpdateUndo(k: Ctl, n: nat, w: nat, id: nat, newCfg: Config)
    requires Consistent(k, n, w) && id in k.live
    requires AllOn(n, w, newCfg) && |newCfg| == |k.configs[id]| && NoDup(newCfg)
    requires AllOn(n, w, k.configs[id])
    ensures var q := UpdateCtl(k, n, w, id, newCfg);
            q.configs[id] == newCfg && UpdateCtl(q, n, w, id, k.configs[id]) == k
  {
    assert Holds(k, n, w, id);
    var oldCfg := k.configs[id];
    UpdateCorrect(k, n, w, id, newCfg);
    var q := UpdateCtl(k, n, w, id, newCfg);
    var there, back := UpdateSteps(oldCfg, newCfg, 0), UpdateSteps(newCfg, oldCfg, 0);
    UpdateStepsOn(n, w, oldCfg, newCfg, 0);
    UpdateStepsOn(n, w, newCfg, oldCfg, 0);
    var r := UpdateCtl(q, n, w, id, oldCfg);
    forall c | On(n, w, c) ensures Get(r.usage, c) == Get(k.usage, c) {
      RoundTrip(oldCfg, newCfg, c);
      ApplyCarry(k.usage, n, w, there, c);
      ApplyCarry(q.usage, n, w, back, Carry(there, c));
    }
    TableEq(r.usage, k.usage, n, w);
    forall j | 0 <= j < |k.configs| ensures r.configs[j] == k.configs[j] {
      if j in k.live {
        forall i | 0 <= i < |k.configs[j]| ensures r.configs[j][i] == k.configs[j][i] {
          RoundTrip(oldCfg, newCfg, k.configs[j][i]);
          assert q.configs[j][i] == Carry(there, k.configs[j][i]);
        }
      }
    }
    assert r.configs == k.configs;
  }

  // ----- the pairwise swaps of the VM table and of the bandwidth table

  /** The swaps that the VM table and the bandwidth table perform: old[i] with new[i]. */
  function Zip(oldCfg: Config, newCfg: Config): (r: seq<Swap>)
    requires |oldCfg| == |newCfg|
    ensures |r| == |oldCfg| && forall i :: 0 <= i < |r| ==> r[i] == Swap(oldCfg[i], newCfg[i])
  {
    seq(|oldCfg|, i requires 0 <= i < |oldCfg| => Swap(oldCfg[i], newCfg[i]))
  }

  /** No element is sent to a slot that a later element still has to leave. */
  predicate NoChainAhead(oldCfg: Config, newCfg: Config)
    requires |oldCfg| == |newCfg|
  {
    forall l, i :: 0 <= l < i < |oldCfg| ==> newCfg[l] != oldCfg[i]
  }

  /** Moved elements go to slots outside the old config. */
  predicate MovesOutside(oldCfg: Config, newCfg: Config)
    requires |oldCfg| == |newCfg|
  {
    forall l :: 0 <= l < |oldCfg| && newCfg[l] != oldCfg[l] ==> newCfg[l] !in oldCfg
  }

  lemma OutsideNoChain(oldCfg: Config, newCfg: Config)
    requires |oldCfg| == |newCfg| && NoDup(oldCfg) && MovesOutside(oldCfg, newCfg)
    ensures NoChainAhead(oldCfg, newCfg)
  {
  }

  lemma {:induction false} ZipIsUpdate(oldCfg: Config, newCfg: Config, cur: Config, i: nat)
    requires |oldCfg| == |newCfg| == |cur| && i <= |oldCfg| && NoDup(oldCfg) && NoChainAhead(oldCfg, newCfg)
    requires forall l :: i <= l < |oldCfg| ==> cur[l] == oldCfg[l]
    ensures UpdateSteps(cur, newCfg, i) == Zip(oldCfg, newCfg)[i..]
    decreases |oldCfg| - i
  {
    if i < |oldCfg| {
      var s := Swap(cur[i], newCfg[i]);
      ZipIsUpdate(oldCfg, newCfg, Relabel(cur, s), i + 1);
      assert Zip(oldCfg, newCfg)[i..] == [s] + Zip(oldCfg, newCfg)[i + 1..];
    }
  }

  lemma {:induction false} CarryUntouched(steps: seq<Swap>, c: Elem)
    requires forall i :: 0 <= i < |steps| ==> steps[i].a != c && steps[i].b != c
    ensures Carry(steps, c) == c
    decreases |steps|
  {
    if steps != [] {
      CarryUntouched(steps[1..], c);
    }
  }

  lemma {:induction false} LastChain(oldCfg: Config, newCfg: Config, i: nat, k: nat) returns (p: nat, q: nat)
    requires |oldCfg| == |newCfg| && i < k < |oldCfg| && newCfg[i] == oldCfg[k]
    ensures p < q < |oldCfg| && newCfg[p] == oldCfg[q]
    ensures forall l, m :: 0 <= l < m < |oldCfg| && q < m ==> newCfg[l] != oldCfg[m]
    decreases |oldCfg| - k
  {
    if l, m :| 0 <= l < m < |oldCfg| && k < m && newCfg[l] == oldCfg[m] {
      p, q := LastChain(oldCfg, newCfg, l, m);
    } else {
      p, q := i, k;
    }
  }

  /** With a chain ahead the pairwise swaps carry some element past its target. */
  lemma ChainAheadMisses(oldCfg: Config, newCfg: Config) returns (q: nat)
    requires |oldCfg| == |newCfg| && NoDup(oldCfg) && NoDup(newCfg) && !NoChainAhead(oldCfg, newCfg)
    ensures q < |oldCfg| && Carry(Zip(oldCfg, newCfg), oldCfg[q]) != newCfg[q]
  {
    var i, k :| 0 <= i < k < |oldCfg| && newCfg[i] == oldCfg[k];
    var p;
    p, q := LastChain(oldCfg, newCfg, i, k);
    var x := DisplacedBefore(oldCfg, newCfg, p, q);
    var z := Zip(oldCfg, newCfg);
    CarryAround(z, q, oldCfg[q]);
    CarryUntouched(z[q + 1..], newCfg[q]);
    if Carry(z, oldCfg[q]) == newCfg[q] {
      CarryInjective(z[q + 1..], Tr(z[q], x), newCfg[q]);
    }
  }

  /** A sequence of swaps, seen around its element `q`. */
  lemma CarryAround(z: seq<Swap>, q: nat, c: Elem)
    requires q < |z|
    ensures Carry(z, c) == Carry(z[q + 1..], Tr(z[q], Carry(z[..q], c)))
  {
    assert z == z[..q] + z[q..];
    CarryAppend(z[..q], z[q..], c);
    assert z[q..][0] == z[q] && z[q..][1..] == z[q + 1..];
  }

  /** The element that waits at old[q] has been displaced by step `p` when step `q` begins. */
  lemma DisplacedBefore(oldCfg: Config, newCfg: Config, p: nat, q: nat) returns (x: Elem)
    requires |oldCfg| == |newCfg| && NoDup(oldCfg) && NoDup(newCfg) && p < q < |oldCfg| && newCfg[p] == oldCfg[q]
    ensures x == Carry(Zip(oldCfg, newCfg)[..q], oldCfg[q]) && x != oldCfg[q]
  {
    var z := Zip(oldCfg, newCfg);
    var before, between := z[..p], z[p + 1..q];
    assert z[..q] == before + ([z[p]] + between);
    CarryAppend(before, [z[p]] + between, oldCfg[q]);
    CarryUntouched(before, oldCfg[q]);
    CarryAppend([z[p]], between, oldCfg[q]);
    CarryUntouched(between, oldCfg[q]);
    x := Carry(between, oldCfg[p]);
    if x == oldCfg[q] {
      CarryInjective(between, oldCfg[p], oldCfg[q]);
    }
  }

  // ----- guests

  ghost predicate Injective(t: Table<string>, n: nat, w: nat)
    requires Rect(t, n, w)
  {
    forall c, d | On(n, w, c) && On(n, w, d) && Get(t, c) == Get(t, d) :: c == d
  }

  /** The names of the VMs at the slots of a config, in order. */
  function Guests(vms: Table<string>, cfg: Config): (r: seq<string>)
    requires forall i :: 0 <= i < |cfg| ==> In(vms, cfg[i])
    ensures |r| == |cfg| && forall i :: 0 <= i < |cfg| ==> r[i] == Get(vms, cfg[i])
  {
    seq(|cfg|, i requires 0 <= i < |cfg| => Get(vms, cfg[i]))
  }

  lemma InjectiveKept(t: Table<string>, n: nat, w: nat, steps: seq<Swap>)
    requires Rect(t, n, w) && StepsOn(n, w, steps) && Injective(t, n, w)
    ensures Injective(ApplySwaps(t, n, w, steps), n, w)
  {
    var u := ApplySwaps(t, n, w, steps);
    forall c, d | On(n, w, c) && On(n, w, d) && Get(u, c) == Get(u, d) ensures c == d {
      ApplyOrigin(t, n, w, steps, c);
      ApplyOrigin(t, n, w, steps, d);
      CarryOrigin(steps, c);
      CarryOrigin(steps, d);
    }
  }

  lemma GuestsFollow(vms: Table<string>, n: nat, w: nat, steps: seq<Swap>, cfg: Config)
    requires Rect(vms, n, w) && StepsOn(n, w, steps) && AllOn(n, w, cfg)
    ensures AllOn(n, w, Moved(cfg, steps))
    ensures Guests(ApplySwaps(vms, n, w, steps), Moved(cfg, steps)) == Guests(vms, cfg)
  {
    forall i | 0 <= i < |cfg|
      ensures On(n, w, Moved(cfg, steps)[i])
      ensures Get(ApplySwaps(vms, n, w, steps), Moved(cfg, steps)[i]) == Get(vms, cfg[i])
    {
      ApplyCarry(vms, n, w, steps, cfg[i]);
    }
  }

  lemma ZipOn(n: nat, w: nat, oldCfg: Config, newCfg: Config)
    requires |oldCfg| == |newCfg| && AllOn(n, w, oldCfg) && AllOn(n, w, newCfg)
    ensures StepsOn(n, w, Zip(oldCfg, newCfg))
  {
  }

  /** Although the VM table, the usage table and the configs are permuted by
      separate loops, every live job keeps its ordered list of VMs. */
  lemma GuestsStable(k: Ctl, vms: Table<string>, n: nat, w: nat, id: nat, newCfg: Config, j: nat)
    requires Consistent(k, n, w) && Rect(vms, n, w) && id in k.live && j in k.live
    requires AllOn(n, w, newCfg) && |newCfg| == |k.configs[id]| && AllOn(n, w, k.configs[id])
    requires NoChainAhead(k.configs[id], newCfg)
    ensures StepsOn(n, w, Zip(k.configs[id], newCfg))
    ensures AllOn(n, w, k.configs[j]) && AllOn(n, w, UpdateCtl(k, n, w, id, newCfg).configs[j])
    ensures Guests(ApplySwaps(vms, n, w, Zip(k.configs[id], newCfg)), UpdateCtl(k, n, w, id, newCfg).configs[j])
         == Guests(vms, k.configs[j])
  {
    assert Holds(k, n, w, id) && Holds(k, n, w, j);
    var oldCfg := k.configs[id];
    ZipOn(n, w, oldCfg, newCfg);
    ZipIsUpdate(oldCfg, newCfg, oldCfg, 0);
    assert Zip(oldCfg, newCfg)[0..] == Zip(oldCfg, newCfg);
    GuestsFollow(vms, n, w, Zip(oldCfg, newCfg), k.configs[j]);
  }

  /** Exactly when a migration of distinctly named VMs keeps the migrated job's
      VM list: iff no element is sent to a slot that a later element still has to leave. */
  lemma GuestsKeptIff(vms: Table<string>, n: nat, w: nat, oldCfg: Config, newCfg: Config)
    requires Rect(vms, n, w) && Injective(vms, n, w)
    requires |oldCfg| == |newCfg| && AllOn(n, w, oldCfg) && AllOn(n, w, newCfg) && NoDup(oldCfg) && NoDup(newCfg)
    ensures StepsOn(n, w, Zip(oldCfg, newCfg))
    ensures Guests(ApplySwaps(vms, n, w, Zip(oldCfg, newCfg)), newCfg) == Guests(vms, oldCfg)
       <==> NoChainAhead(oldCfg, newCfg)
  {
    var z := Zip(oldCfg, newCfg);
    ZipOn(n, w, oldCfg, newCfg);
    var after := ApplySwaps(vms, n, w, z);
    if NoChainAhead(oldCfg, newCfg) {
      ZipIsUpdate(oldCfg, newCfg, oldCfg, 0);
      assert z[0..] == z;
      UpdateReaches(oldCfg, newCfg, 0);
      GuestsFollow(vms, n, w, z, oldCfg);
    } else {
      var q := ChainAheadMisses(oldCfg, newCfg);
      ApplyCarry(vms, n, w, z, oldCfg[q]);
      InjectiveKept(vms, n, w, z);
      assert Get(after, newCfg[q]) != Get(vms, oldCfg[q]);
      assert Guests(after, newCfg)[q] != Guests(vms, oldCfg)[q];
    }
  }

  // ----- occupied slots

  function SumLive(configs: seq<Config>, live: set<nat>, i: nat): nat
    requires i <= |configs|
  {
    if i == 0 then 0
    else SumLive(configs, live, i - 1) + if i - 1 in live then |configs[i - 1]| else 0
  }

  function Slots(n: nat, w: nat): (r: set<Elem>)
    ensures forall c :: c in r <==> On(n, w, c)
  {
    set m, s | 0 <= m < n && 0 <= s < w :: Elem(m, s)
  }

  /** The occupied slots whose job id is below `i`. */
  function Occupied(usage: Table<Option<nat>>, n: nat, w: nat, i: nat): set<Elem>
    requires Rect(usage, n, w)
  {
    set c | c in Slots(n, w) && Get(usage, c).Some? && Get(usage, c).value < i
  }

  lemma {:induction false} ElemsCard(cfg: Config, s: set<Elem>)
    requires NoDup(cfg) && forall c :: c in s <==> c in cfg
    ensures |s| == |cfg|
    decreases |cfg|
  {
    if cfg == [] {
      assert s == {};
    } else {
      var r := s - {cfg[0]};
      assert forall c :: c in cfg <==> c == cfg[0] || c in cfg[1..];
      ElemsCard(cfg[1..], r);
    }
  }

  /** The slots that job `j` occupies. */
  lemma OwnSlots(k: Ctl, n: nat, w: nat, j: nat, mine: set<Elem>)
    requires Consistent(k, n, w) && j < |k.configs|
    requires forall c :: c in mine <==> On(n, w, c) && Get(k.usage, c) == Some(j)
    ensures |mine| == if j in k.live then |k.configs[j]| else 0
  {
    if j in k.live {
      assert Holds(k, n, w, j);
      ElemsCard(k.configs[j], mine);
    } else {
      assert mine == {};
    }
  }

  lemma OccupiedSplit(usage: Table<Option<nat>>, n: nat, w: nat, j: nat) returns (mine: set<Elem>)
    requires Rect(usage, n, w)
    ensures forall c :: c in mine <==> On(n, w, c) && Get(usage, c) == Some(j)
    ensures |Occupied(usage, n, w, j + 1)| == |Occupied(usage, n, w, j)| + |mine|
  {
    mine := set c | c in Slots(n, w) && Get(usage, c) == Some(j);
    assert Occupied(usage, n, w, j + 1) == Occupied(usage, n, w, j) + mine;
    assert Occupied(usage, n, w, j) !! mine;
  }

  /** No slot is shared: the occupied slots number exactly the live configs' lengths. */
  lemma {:induction false} OccupiedCount(k: Ctl, n: nat, w: nat, i: nat)
    requires Consistent(k, n, w) && i <= |k.configs|
    ensures |Occupied(k.usage, n, w, i)| == SumLive(k.configs, k.live, i)
    decreases i
  {
    if i == 0 {
      assert Occupied(k.usage, n, w, i) == {};
    } else {
      OccupiedCount(k, n, w, i - 1);
      var mine := OccupiedSplit(k.usage, n, w, i - 1);
      OwnSlots(k, n, w, i - 1, mine);
    }
  }
}
