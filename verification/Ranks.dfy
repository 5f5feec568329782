/** The mpiexec command of the cgroup controller: host file, -np segments and rank placement. */
module Ranks {
  import opened Tables
  import opened Selection

  /** The group of each element: its slot, or `slots` when it and a neighbour use the same machine. */
  function Groups(config: Config, slots: nat): (r: seq<nat>)
    requires forall i :: 0 <= i < |config| ==> config[i].slot < slots
    ensures |r| == |config| && forall i :: 0 <= i < |r| ==> r[i] <= slots
    decreases |config|
  {
    if config == [] then []
    else if |config| > 1 && config[0].machine == config[1].machine then [slots, slots] + Groups(config[2..], slots)
    else [config[0].slot] + Groups(config[1..], slots)
  }

  /** The host names of the elements in group `g`, in order. */
  function HostsIn(machines: seq<string>, config: Config, groups: seq<nat>, g: nat): (r: seq<string>)
    requires |groups| == |config| && forall i :: 0 <= i < |config| ==> config[i].machine < |machines|
  {
    if config == [] then []
    else (if groups[0] == g then [machines[config[0].machine]] else []) + HostsIn(machines, config[1..], groups[1..], g)
  }

  function Sum(s: seq<nat>): nat {
    if s == [] then 0 else Sum(s[..|s| - 1]) + s[|s| - 1]
  }

  lemma {:induction false} SumUpdate(s: seq<nat>, i: nat, v: nat)
    requires i < |s|
    ensures Sum(s[i := v]) + s[i] == Sum(s) + v
    decreases |s|
  {
    if i < |s| - 1 {
      SumUpdate(s[..|s| - 1], i, v);
      assert s[i := v][..|s| - 1] == s[..|s| - 1][i := v];
    } else {
      assert s[i := v][..|s| - 1] == s[..|s| - 1];
    }
  }

  lemma {:induction false} SumZero(n: nat)
    ensures Sum(seq(n, _ => 0)) == 0
  {
    if n > 0 {
      SumZero(n - 1);
      assert seq(n, _ => 0)[..n - 1] == seq(n - 1, _ => 0);
    }
  }

  lemma HostsInCons(machines: seq<string>, config: Config, groups: seq<nat>, g: nat)
    requires |groups| == |config| > 0 && forall i :: 0 <= i < |config| ==> config[i].machine < |machines|
    ensures HostsIn(machines, config, groups, g)
         == (if groups[0] == g then [machines[config[0].machine]] else []) + HostsIn(machines, config[1..], groups[1..], g)
  {
  }

  predicate Fits(machines: seq<string>, config: Config, slots: nat) {
    forall i :: 0 <= i < |config| ==> config[i].slot < slots && config[i].machine < |machines|
  }

  /** What is listed so far, together with the hosts of the elements still to come, is complete. */
  ghost predicate Pending(machines: seq<string>, config: Config, slots: nat, rest: Config, hostLists: seq<seq<string>>)
    requires Fits(machines, config, slots) && Fits(machines, rest, slots)
  {
    && |hostLists| == slots + 1
    && forall g :: 0 <= g <= slots ==>
         hostLists[g] + HostsIn(machines, rest, Groups(rest, slots), g)
         == HostsIn(machines, config, Groups(config, slots), g)
  }

  lemma PendingPair(machines: seq<string>, config: Config, slots: nat, rest: Config, hostLists: seq<seq<string>>)
    requires Fits(machines, config, slots) && Fits(machines, rest, slots)
    requires Pending(machines, config, slots, rest, hostLists)
    requires |rest| > 1 && rest[0].machine == rest[1].machine
    ensures var host := machines[rest[0].machine];
            Pending(machines, config, slots, rest[2..], hostLists[slots := hostLists[slots] + [host] + [host]])
  {
    PairStep(machines, rest, slots);
  }

  lemma PendingSingle(machines: seq<string>, config: Config, slots: nat, rest: Config, hostLists: seq<seq<string>>)
    requires Fits(machines, config, slots) && Fits(machines, rest, slots)
    requires Pending(machines, config, slots, rest, hostLists)
    requires |rest| > 0 && !(|rest| > 1 && rest[0].machine == rest[1].machine)
    ensures var slot := rest[0].slot;
            Pending(machines, config, slots, rest[1..],
                    hostLists[slot := hostLists[slot] + [machines[rest[0].machine]]])
  {
    SingleStep(machines, rest, slots);
  }

  predicate Counted(hostLists: seq<seq<string>>, counts: seq<nat>, slots: nat) {
    && |hostLists| == |counts| == slots + 1
    && forall g :: 0 <= g <= slots ==> counts[g] == |hostLists[g]|
  }

  lemma CountedAdd(hostLists: seq<seq<string>>, counts: seq<nat>, slots: nat, g: nat, added: seq<string>)
    requires Counted(hostLists, counts, slots) && g <= slots
    ensures Counted(hostLists[g := hostLists[g] + added], counts[g := counts[g] + |added|], slots)
    ensures Sum(counts[g := counts[g] + |added|]) == Sum(counts) + |added|
  {
    SumUpdate(counts, g, counts[g] + |added|);
  }

  lemma PairAdvance(machines: seq<string>, config: Config, slots: nat, i: nat, hostLists: seq<seq<string>>, counts: seq<nat>)
    requires Fits(machines, config, slots) && i + 1 < |config| && config[i].machine == config[i + 1].machine
    requires Counted(hostLists, counts, slots) && Pending(machines, config, slots, config[i..], hostLists)
    ensures var host := machines[config[i].machine];
            var lists, added := hostLists[slots := hostLists[slots] + [host] + [host]], counts[slots := counts[slots] + 2];
            && Counted(lists, added, slots) && Pending(machines, config, slots, config[i + 2..], lists)
            && Sum(added) == Sum(counts) + 2
  {
    var host := machines[config[i].machine];
    PendingPair(machines, config, slots, config[i..], hostLists);
    assert config[i..][2..] == config[i + 2..];
    CountedAdd(hostLists, counts, slots, slots, [host, host]);
    assert hostLists[slots] + [host] + [host] == hostLists[slots] + [host, host];
  }

  lemma SingleAdvance(machines: seq<string>, config: Config, slots: nat, i: nat, hostLists: seq<seq<string>>, counts: seq<nat>)
    requires Fits(machines, config, slots) && i < |config|
    requires !(i + 1 < |config| && config[i].machine == config[i + 1].machine)
    requires Counted(hostLists, counts, slots) && Pending(machines, config, slots, config[i..], hostLists)
    ensures var slot, host := config[i].slot, machines[config[i].machine];
            var lists, added := hostLists[slot := hostLists[slot] + [host]], counts[slot := counts[slot] + 1];
            && Counted(lists, added, slots) && Pending(machines, config, slots, config[i + 1..], lists)
            && Sum(added) == Sum(counts) + 1
  {
    PendingSingle(machines, config, slots, config[i..], hostLists);
    assert config[i..][1..] == config[i + 1..];
    CountedAdd(hostLists, counts, slots, config[i].slot, [machines[config[i].machine]]);
  }

  lemma PendingNothing(machines: seq<string>, config: Config, slots: nat, hostLists: seq<seq<string>>)
    requires Fits(machines, config, slots) && Pending(machines, config, slots, [], hostLists)
    ensures forall g :: 0 <= g <= slots ==> hostLists[g] == HostsIn(machines, config, Groups(config, slots), g)
  {
    assert forall g :: 0 <= g <= slots ==> HostsIn(machines, [], Groups([], slots), g) == [];
  }

  /** The grouping loop, which consumes two elements at once when they share a machine. */
  method Group(machines: seq<string>, config: Config, slots: nat)
    returns (hostLists: seq<seq<string>>, hostsPerSlot: seq<nat>)
    requires Fits(machines, config, slots)
    ensures |hostLists| == |hostsPerSlot| == slots + 1
    ensures forall g :: 0 <= g <= slots ==> hostLists[g] == HostsIn(machines, config, Groups(config, slots), g)
    ensures forall g :: 0 <= g <= slots ==> hostsPerSlot[g] == |hostLists[g]|
    ensures Sum(hostsPerSlot) == |config|
  {
    hostLists := seq(slots + 1, _ => []);
    hostsPerSlot := seq(slots + 1, _ => 0);
    SumZero(slots + 1);
    var i := 0;
    assert config[0..] == config;
    while i < |config|
      invariant i <= |config| && Counted(hostLists, hostsPerSlot, slots)
      invariant Pending(machines, config, slots, config[i..], hostLists)
      invariant Sum(hostsPerSlot) == i
    {
      if i + 1 < |config| && config[i].machine == config[i + 1].machine {
        PairAdvance(machines, config, slots, i, hostLists, hostsPerSlot);
        var host := machines[config[i].machine];
        hostLists := hostLists[slots := hostLists[slots] + [host] + [host]];
        hostsPerSlot := hostsPerSlot[slots := hostsPerSlot[slots] + 2];
        i := i + 2;
      } else {
        SingleAdvance(machines, config, slots, i, hostLists, hostsPerSlot);
        var slot := config[i].slot;
        hostLists := hostLists[slot := hostLists[slot] + [machines[config[i].machine]]];
        hostsPerSlot := hostsPerSlot[slot := hostsPerSlot[slot] + 1];
        i := i + 1;
      }
    }
    assert config[i..] == [];
    PendingNothing(machines, config, slots, hostLists);
  }

  lemma PairStep(machines: seq<string>, config: Config, slots: nat)
    requires |config| > 1 && config[0].machine == config[1].machine
    requires Fits(machines, config, slots)
    ensures forall g :: 0 <= g <= slots ==>
              HostsIn(machines, config, Groups(config, slots), g)
              == (if g == slots then [machines[config[0].machine]] + [machines[config[0].machine]] else [])
                 + HostsIn(machines, config[2..], Groups(config[2..], slots), g)
  {
    var gs := Groups(config, slots);
    assert gs[1..][1..] == Groups(config[2..], slots);
    assert config[1..][1..] == config[2..];
    forall g | 0 <= g <= slots
      ensures HostsIn(machines, config, gs, g)
           == (if g == slots then [machines[config[0].machine]] + [machines[config[0].machine]] else [])
              + HostsIn(machines, config[2..], Groups(config[2..], slots), g)
    {
      HostsInCons(machines, config, gs, g);
      HostsInCons(machines, config[1..], gs[1..], g);
    }
  }

  lemma SingleStep(machines: seq<string>, config: Config, slots: nat)
    requires |config| > 0 && !(|config| > 1 && config[0].machine == config[1].machine)
    requires Fits(machines, config, slots)
    ensures forall g :: 0 <= g <= slots ==>
              HostsIn(machines, config, Groups(config, slots), g)
              == (if g == config[0].slot then [machines[config[0].machine]] else [])
                 + HostsIn(machines, config[1..], Groups(config[1..], slots), g)
  {
    assert Groups(config, slots)[1..] == Groups(config[1..], slots);
  }

  /** How many of the first `i` elements are in group `g`. */
  function Earlier(groups: seq<nat>, g: nat, i: nat): nat
    requires i <= |groups|
  {
    if i == 0 then 0 else (if groups[0] == g then 1 else 0) + Earlier(groups[1..], g, i - 1)
  }

  /** The host of every element is listed in its group, after those of the earlier elements there. */
  lemma {:induction false} HostAt(machines: seq<string>, config: Config, groups: seq<nat>, i: nat)
    requires |groups| == |config| && i < |config| && forall j :: 0 <= j < |config| ==> config[j].machine < |machines|
    ensures var list, place := HostsIn(machines, config, groups, groups[i]), Earlier(groups, groups[i], i);
            place < |list| && list[place] == machines[config[i].machine]
    decreases i
  {
    if i > 0 {
      HostAt(machines, config[1..], groups[1..], i - 1);
    }
  }

  lemma {:induction false} HostsCount(machines: seq<string>, config: Config, groups: seq<nat>, g: nat)
    requires |groups| == |config| && forall j :: 0 <= j < |config| ==> config[j].machine < |machines|
    ensures |HostsIn(machines, config, groups, g)| == Earlier(groups, g, |groups|)
    decreases |config|
  {
    if config != [] {
      HostsCount(machines, config[1..], groups[1..], g);
    }
  }

  // ----- what the groups mean

  predicate HasNeighbour(config: Config, i: nat)
    requires i < |config|
  {
    || (i + 1 < |config| && config[i + 1].machine == config[i].machine)
    || (i > 0 && config[i - 1].machine == config[i].machine)
  }

  /** An element is in the group of shared machines iff a neighbour uses the same
      machine, and otherwise in the group of its slot. */
  lemma {:induction false} GroupAt(config: Config, slots: nat, i: nat)
    requires AtMostTwice(config) && (forall l :: 0 <= l < |config| ==> config[l].slot < slots) && i < |config|
    ensures Groups(config, slots)[i] == if HasNeighbour(config, i) then slots else config[i].slot
    decreases |config|
  {
    var k := if |config| > 1 && config[0].machine == config[1].machine then 2 else 1;
    if i >= k {
      GroupAt(config[k..], slots, i - k);
      NeighbourShift(config, k, i);
    }
  }

  lemma NeighbourShift(config: Config, k: nat, i: nat)
    requires 0 < k <= i < |config| && config[k - 1].machine != config[k].machine
    ensures HasNeighbour(config, i) <==> HasNeighbour(config[k..], i - k)
  {
  }

  predicate Shares(config: Config, i: nat)
    requires i < |config|
  {
    exists j :: 0 <= j < |config| && j != i && config[j].machine == config[i].machine
  }

  /** Elements on the same machine are neighbours. */
  predicate Adjacent(config: Config) {
    forall i, j :: 0 <= i < j < |config| && config[i].machine == config[j].machine ==> j == i + 1
  }

  predicate AtMostTwice(config: Config) {
    forall i, j, l :: 0 <= i < j < l < |config| && config[i].machine == config[j].machine ==>
                        config[l].machine != config[j].machine
  }

  /** The group `slots` holds exactly the elements that share their machine. */
  predicate SharedRecognised(config: Config, slots: nat)
    requires forall i :: 0 <= i < |config| ==> config[i].slot < slots
  {
    forall i :: 0 <= i < |config| ==>
      if Shares(config, i) then Groups(config, slots)[i] == slots else Groups(config, slots)[i] == config[i].slot
  }

  /** generate_command sorts the config by machine but then groups the unsorted
      one; on configs with at most two elements per machine the grouping is right
      exactly when elements of one machine are neighbours already. */
  lemma GroupingIff(config: Config, slots: nat)
    requires AtMostTwice(config) && forall i :: 0 <= i < |config| ==> config[i].slot < slots
    ensures SharedRecognised(config, slots) <==> Adjacent(config)
  {
    forall i | 0 <= i < |config|
      ensures Groups(config, slots)[i] == if HasNeighbour(config, i) then slots else config[i].slot
    {
      GroupAt(config, slots, i);
    }
    assert SharedRecognised(config, slots) <==> forall i :: 0 <= i < |config| ==> (Shares(config, i) <==> HasNeighbour(config, i));
    AdjacentIff(config);
  }

  lemma AdjacentIff(config: Config)
    requires AtMostTwice(config)
    ensures Adjacent(config) <==> forall i :: 0 <= i < |config| ==> (Shares(config, i) <==> HasNeighbour(config, i))
  {
    forall i | 0 <= i < |config| && HasNeighbour(config, i) ensures Shares(config, i) {
      if i + 1 < |config| && config[i + 1].machine == config[i].machine {
      } else {
        assert config[i - 1].machine == config[i].machine;
      }
    }
    if Adjacent(config) {
      forall i | 0 <= i < |config| && Shares(config, i) ensures HasNeighbour(config, i) {
        var j :| 0 <= j < |config| && j != i && config[j].machine == config[i].machine;
      }
    }
    if forall i :: 0 <= i < |config| ==> (Shares(config, i) <==> HasNeighbour(config, i)) {
      forall i, j | 0 <= i < j < |config| && config[i].machine == config[j].machine ensures j == i + 1 {
        assert Shares(config, i);
        assert HasNeighbour(config, i);
      }
    }
  }

  // ----- host file and segments

  /** A line of the host file, with the group it was written for. */
  datatype Line = Line(host: string, procs: nat, group: nat)

  /** A segment of the command: `-np np` for the processes of one group. */
  datatype Segment = Segment(np: nat, group: nat)

  /** The group of the segment that contains rank `r`. */
  function RankGroup(segments: seq<Segment>, r: nat): (g: Option<nat>)
  {
    if segments == [] then None
    else if r < segments[0].np then Some(segments[0].group)
    else RankGroup(segments[1..], r - segments[0].np)
  }

  function TotalNp(segments: seq<Segment>): nat {
    if segments == [] then 0 else segments[0].np + TotalNp(segments[1..])
  }

  function LinesOf(hosts: seq<string>, procs: nat, g: nat): (r: seq<Line>)
    ensures |r| == |hosts| && forall l :: 0 <= l < |r| ==> r[l] == Line(hosts[l], procs, g)
  {
    seq(|hosts|, l requires 0 <= l < |hosts| => Line(hosts[l], procs, g))
  }

  /** The host file: the hosts of each group from `g` on. */
  function HostFile(hostLists: seq<seq<string>>, procs: nat, g: nat): seq<Line>
    requires g <= |hostLists|
    decreases |hostLists| - g
  {
    if g == |hostLists| then [] else LinesOf(hostLists[g], procs, g) + HostFile(hostLists, procs, g + 1)
  }

  /** The segments of the groups from `g` on; empty groups are skipped. */
  function Segments(hostLists: seq<seq<string>>, procs: nat, g: nat): seq<Segment>
    requires g <= |hostLists|
    decreases |hostLists| - g
  {
    if g == |hostLists| then []
    else if hostLists[g] == [] then Segments(hostLists, procs, g + 1)
    else [Segment(procs * |hostLists[g]|, g)] + Segments(hostLists, procs, g + 1)
  }

  lemma DivideRank(r: nat, procs: nat, count: nat)
    requires procs > 0
    ensures r < procs * count <==> r / procs < count
    ensures r >= procs * count ==> (r - procs * count) / procs == r / procs - count
  {
    var q, m := r / procs, r % procs;
    assert r == procs * q + m;
    if q < count {
      TimesAtLeast(count - q, procs);
    } else {
      var k := q - count;
      assert r - procs * count == procs * k + m;
      DivUnique(r - procs * count, procs, k, m);
    }
  }

  lemma DivUnique(a: nat, d: nat, q: nat, m: nat)
    requires d > 0 && a == d * q + m && m < d
    ensures a / d == q
  {
    var e, r := a / d, a % d;
    assert a == d * e + r;
    if e < q {
      TimesAtLeast(q - e, d);
    } else if e > q {
      TimesAtLeast(e - q, d);
    }
  }

  /** Main result on rank placement: rank `r` runs on the host of line r / procs,
      and the segment containing `r` belongs to the same group as that line. */
  lemma {:induction false} RankPlacement(hostLists: seq<seq<string>>, procs: nat, g: nat, r: nat)
    requires g <= |hostLists| && procs > 0 && r < procs * |HostFile(hostLists, procs, g)|
    ensures r / procs < |HostFile(hostLists, procs, g)|
    ensures RankGroup(Segments(hostLists, procs, g), r)
         == Some(HostFile(hostLists, procs, g)[r / procs].group)
    decreases |hostLists| - g
  {
    DivideRank(r, procs, |HostFile(hostLists, procs, g)|);
    if g < |hostLists| {
      var count := |hostLists[g]|;
      var rest := HostFile(hostLists, procs, g + 1);
      DivideRank(r, procs, count);
      if r >= procs * count {
        assert r - procs * count < procs * |rest| by {
          assert |HostFile(hostLists, procs, g)| == count + |rest|;
          Distribute(procs, count, |rest|);
        }
        RankPlacement(hostLists, procs, g + 1, r - procs * count);
      }
    }
  }

  /** The segments start as many processes as the host file has room for. */
  lemma {:induction false} SegmentsTotal(hostLists: seq<seq<string>>, procs: nat, g: nat)
    requires g <= |hostLists|
    ensures TotalNp(Segments(hostLists, procs, g)) == procs * |HostFile(hostLists, procs, g)|
    decreases |hostLists| - g
  {
    if g < |hostLists| {
      SegmentsTotal(hostLists, procs, g + 1);
      var count, rest := |hostLists[g]|, |HostFile(hostLists, procs, g + 1)|;
      Distribute(procs, count, rest);
    }
  }

  lemma Distribute(p: nat, a: nat, b: nat)
    ensures p * (a + b) == p * a + p * b
  {
  }

  lemma {:induction false} HostFileSize(hostLists: seq<seq<string>>, counts: seq<nat>, procs: nat, g: nat)
    requires |counts| == |hostLists| && g <= |hostLists|
    requires forall i :: 0 <= i < |counts| ==> counts[i] == |hostLists[i]|
    ensures |HostFile(hostLists, procs, g)| == Sum(counts) - Sum(counts[..g])
    decreases |hostLists| - g
  {
    if g < |hostLists| {
      HostFileSize(hostLists, counts, procs, g + 1);
      assert counts[..g + 1][..g] == counts[..g];
    } else {
      assert counts[..g] == counts;
    }
  }

  /** The processes started equal nprocs exactly when the slots of the config
      offer exactly the required CPUs. */
  lemma TotalIsNprocs(size: nat, slotSize: nat, nprocs: nat, threads: nat)
    requires threads > 0 && slotSize % threads == 0
    ensures (slotSize / threads) * size == nprocs <==> size * slotSize == nprocs * threads
  {
    var p := slotSize / threads;
    assert slotSize == p * threads;
    assert size * slotSize == (p * size) * threads by {
      assert size * (p * threads) == (p * size) * threads;
    }
    SameFactor(p * size, nprocs, threads);
  }

  lemma SameFactor(a: nat, b: nat, d: nat)
    requires d > 0
    ensures a * d == b * d <==> a == b
  {
    if a < b { TimesAtLeast(b - a, d); }
    if b < a { TimesAtLeast(a - b, d); }
  }

  lemma {:induction false} LineProcs(hostLists: seq<seq<string>>, procs: nat, g: nat)
    requires g <= |hostLists|
    ensures forall l :: 0 <= l < |HostFile(hostLists, procs, g)| ==> HostFile(hostLists, procs, g)[l].procs == procs
    decreases |hostLists| - g
  {
    if g < |hostLists| {
      LineProcs(hostLists, procs, g + 1);
    }
  }

  /** Every rank's host file line and -np segment belong to the same group. */
  ghost predicate RanksFit(hostFile: seq<Line>, segments: seq<Segment>, procs: nat) {
    && procs > 0 && (forall l :: 0 <= l < |hostFile| ==> hostFile[l].procs == procs)
    && forall r: nat :: r < TotalNp(segments) ==>
         r / procs < |hostFile| && RankGroup(segments, r) == Some(hostFile[r / procs].group)
  }

  lemma AllRanksFit(hostLists: seq<seq<string>>, procs: nat)
    requires procs > 0
    ensures RanksFit(HostFile(hostLists, procs, 0), Segments(hostLists, procs, 0), procs)
  {
    SegmentsTotal(hostLists, procs, 0);
    LineProcs(hostLists, procs, 0);
    forall r: nat | r < TotalNp(Segments(hostLists, procs, 0))
      ensures r / procs < |HostFile(hostLists, procs, 0)|
      ensures RankGroup(Segments(hostLists, procs, 0), r) == Some(HostFile(hostLists, procs, 0)[r / procs].group)
    {
      RankPlacement(hostLists, procs, 0, r);
    }
  }

  method WriteHostFile(hostLists: seq<seq<string>>, hostsPerSlot: seq<nat>, procs: nat) returns (hostFile: seq<Line>)
    requires |hostsPerSlot| == |hostLists| && forall g :: 0 <= g < |hostLists| ==> hostsPerSlot[g] == |hostLists[g]|
    ensures hostFile == HostFile(hostLists, procs, 0)
  {
    hostFile := [];
    var i := 0;
    while i < |hostLists|
      invariant i <= |hostLists|
      invariant hostFile + HostFile(hostLists, procs, i) == HostFile(hostLists, procs, 0)
    {
      if hostsPerSlot[i] != 0 {
        hostFile := hostFile + LinesOf(hostLists[i], procs, i);
      } else {
        assert LinesOf(hostLists[i], procs, i) == [];
      }
      i := i + 1;
    }
  }

  method WriteSegments(hostLists: seq<seq<string>>, hostsPerSlot: seq<nat>, procs: nat) returns (segments: seq<Segment>)
    requires |hostsPerSlot| == |hostLists| && forall g :: 0 <= g < |hostLists| ==> hostsPerSlot[g] == |hostLists[g]|
    ensures segments == Segments(hostLists, procs, 0)
  {
    segments := [];
    var slot := 0;
    while slot < |hostLists|
      invariant slot <= |hostLists|
      invariant segments + Segments(hostLists, procs, slot) == Segments(hostLists, procs, 0)
    {
      if hostsPerSlot[slot] != 0 {
        segments := segments + [Segment(procs * hostsPerSlot[slot], slot)];
      }
      slot := slot + 1;
    }
  }

  datatype Command = Rejected | Command(hostFile: seq<Line>, segments: seq<Segment>)

  /** generate_command.  `Rejected` stands for its two assertions: enough CPUs, and
      slots that hold a whole number of processes. */
  method GenerateCommand(machines: seq<string>, slots: nat, slotSize: nat, nprocs: nat, threads: nat, config: Config)
    returns (command: Command, ghost hostLists: seq<seq<string>>)
    requires threads > 0 && slotSize > 0 && Fits(machines, config, slots)
    ensures command.Rejected? <==> nprocs * threads > |config| * slotSize || slotSize % threads != 0
    ensures |hostLists| == slots + 1
    ensures forall g :: 0 <= g <= slots ==> hostLists[g] == HostsIn(machines, config, Groups(config, slots), g)
    ensures command.Command? ==>
              && command.hostFile == HostFile(hostLists, slotSize / threads, 0) && |command.hostFile| == |config|
              && RanksFit(command.hostFile, command.segments, slotSize / threads)
              && (TotalNp(command.segments) == nprocs <==> |config| * slotSize == nprocs * threads)
  {
    var lists, hostsPerSlot := Group(machines, config, slots);
    hostLists := lists;
    if nprocs * threads > |config| * slotSize {
      return Rejected, hostLists;
    }
    var procs := slotSize / threads;
    if slotSize % threads != 0 {
      return Rejected, hostLists;
    }
    assert procs > 0;
    var hostFile := WriteHostFile(lists, hostsPerSlot, procs);
    var segments := WriteSegments(lists, hostsPerSlot, procs);
    HostFileSize(lists, hostsPerSlot, procs, 0);
    SegmentsTotal(lists, procs, 0);
    TotalIsNprocs(|config|, slotSize, nprocs, threads);
    AllRanksFit(lists, procs);
    command := Command(hostFile, segments);
  }
}
