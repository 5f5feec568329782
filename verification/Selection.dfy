/** The predicate that wait_for_ressource waits for, and the loops that pick slots afterwards. */
module Selection {
  import opened Tables

  function FreeIn(row: seq<Option<nat>>): (r: nat)
    ensures r <= |row|
  {
    if row == [] then 0
    else FreeIn(row[..|row| - 1]) + if row[|row| - 1] == None then 1 else 0
  }

  lemma {:induction false} FreeInStep(row: seq<Option<nat>>, s: nat)
    requires s < |row|
    ensures FreeIn(row[..s + 1]) == FreeIn(row[..s]) + if row[s] == None then 1 else 0
  {
    assert row[..s + 1][..s] == row[..s];
  }

  lemma {:induction false} FreeInMonotone(row: seq<Option<nat>>, s: nat)
    requires s <= |row|
    ensures FreeIn(row[..s]) <= FreeIn(row)
    decreases |row| - s
  {
    if s < |row| {
      FreeInStep(row, s);
      FreeInMonotone(row, s + 1);
    } else {
      assert row[..s] == row;
    }
  }

  /** The machines below `i` with at least `k` free slots. */
  function Hosts(usage: Table<Option<nat>>, k: nat, i: nat): set<nat>
    requires i <= |usage|
  {
    set m | 0 <= m < i && FreeIn(usage[m]) >= k
  }

  lemma HostsStep(usage: Table<Option<nat>>, k: nat, i: nat)
    requires i < |usage|
    ensures |Hosts(usage, k, i + 1)| == |Hosts(usage, k, i)| + if FreeIn(usage[i]) >= k then 1 else 0
  {
    if FreeIn(usage[i]) >= k {
      assert Hosts(usage, k, i + 1) == Hosts(usage, k, i) + {i};
    } else {
      assert Hosts(usage, k, i + 1) == Hosts(usage, k, i);
    }
  }

  /** The first free slot of a machine. */
  function FirstFree(row: seq<Option<nat>>, s: nat): (r: Option<nat>)
    requires s <= |row|
    ensures r.Some? ==> s <= r.value < |row| && row[r.value] == None
    ensures r.Some? ==> forall j :: s <= j < r.value ==> row[j].Some?
    ensures r == None ==> forall j :: s <= j < |row| ==> row[j].Some?
    decreases |row| - s
  {
    if s == |row| then None else if row[s] == None then Some(s) else FirstFree(row, s + 1)
  }

  lemma {:induction false} FirstFreeCounts(row: seq<Option<nat>>)
    ensures FirstFree(row, 0).Some? <==> FreeIn(row) >= 1
  {
    match FirstFree(row, 0) {
      case Some(s) =>
        FreeInStep(row, s);
        FreeInMonotone(row, s + 1);
      case None =>
        NoneFree(row);
    }
  }

  lemma {:induction false} NoneFree(row: seq<Option<nat>>)
    requires forall j :: 0 <= j < |row| ==> row[j].Some?
    ensures FreeIn(row) == 0
    decreases |row|
  {
    if row != [] {
      NoneFree(row[..|row| - 1]);
    }
  }

  /** The first free slot of every machine below `i` that has one. */
  function Available(usage: Table<Option<nat>>, i: nat): (r: Config)
    requires i <= |usage|
    ensures forall j :: 0 <= j < |r| ==> r[j].machine < i && In(usage, r[j]) && Get(usage, r[j]) == None
    ensures forall j, l :: 0 <= j < l < |r| ==> r[j].machine < r[l].machine
  {
    if i == 0 then []
    else
      var r := Available(usage, i - 1);
      match FirstFree(usage[i - 1], 0)
      case Some(s) => r + [Elem(i - 1, s)]
      case None => r
  }

  /** One slot is available on exactly the machines that the wait predicate counts. */
  lemma {:induction false} AvailableCount(usage: Table<Option<nat>>, i: nat)
    requires i <= |usage|
    ensures |Available(usage, i)| == |Hosts(usage, 1, i)|
  {
    if i == 0 {
      assert Hosts(usage, 1, 0) == {};
    } else {
      AvailableCount(usage, i - 1);
      HostsStep(usage, 1, i - 1);
      FirstFreeCounts(usage[i - 1]);
    }
  }

  lemma {:induction false} AvailablePrefix(usage: Table<Option<nat>>, i: nat, j: nat)
    requires i <= j <= |usage|
    ensures Available(usage, i) <= Available(usage, j)
    decreases j
  {
    if i < j {
      AvailablePrefix(usage, i, j - 1);
    }
  }

  predicate HasFree(row: seq<Option<nat>>) {
    exists s :: 0 <= s < |row| && row[s] == None
  }

  /** `c` is the first free slot of its machine. */
  predicate IsFirstFree(usage: Table<Option<nat>>, c: Elem) {
    In(usage, c) && Get(usage, c) == None && forall s :: 0 <= s < c.slot ==> usage[c.machine][s].Some?
  }

  predicate Takes(config: Config, m: nat) {
    exists j :: 0 <= j < |config| && config[j].machine == m
  }

  /** `config` takes the first free slot of each of the first machines that have one. */
  ghost predicate FirstSlots(usage: Table<Option<nat>>, config: Config) {
    && (forall j :: 0 <= j < |config| ==> IsFirstFree(usage, config[j]))
    && (forall j, l :: 0 <= j < l < |config| ==> config[j].machine < config[l].machine)
    && (forall m, l :: 0 <= l < |config| && 0 <= m < config[l].machine && m < |usage| && HasFree(usage[m]) ==> Takes(config, m))
  }

  lemma {:induction false} AvailableTakes(usage: Table<Option<nat>>, i: nat, m: nat)
    requires m < i <= |usage| && HasFree(usage[m])
    ensures Takes(Available(usage, i), m)
  {
    var before, after := Available(usage, i - 1), Available(usage, i);
    if m < i - 1 {
      AvailableTakes(usage, i - 1, m);
      var j :| 0 <= j < |before| && before[j].machine == m;
      assert after[j].machine == m;
    } else {
      assert after[|before|].machine == m;
    }
  }

  lemma {:induction false} AvailableIsFirst(usage: Table<Option<nat>>, i: nat)
    requires i <= |usage|
    ensures forall j :: 0 <= j < |Available(usage, i)| ==> IsFirstFree(usage, Available(usage, i)[j])
  {
    if i > 0 {
      AvailableIsFirst(usage, i - 1);
    }
  }

  /** What the selection takes: the first free slots of the first `k` machines that have one. */
  lemma SelectedFirst(usage: Table<Option<nat>>, k: nat)
    requires k <= |Available(usage, |usage|)|
    ensures FirstSlots(usage, Available(usage, |usage|)[..k])
  {
    var all := Available(usage, |usage|);
    var r := all[..k];
    AvailableIsFirst(usage, |usage|);
    forall m, l | 0 <= l < |r| && 0 <= m < r[l].machine && m < |usage| && HasFree(usage[m]) ensures Takes(r, m) {
      AvailableTakes(usage, |usage|, m);
      var j :| 0 <= j < |all| && all[j].machine == m;
      assert j < l;
      assert r[j].machine == m;
    }
  }

  /** The inner loop of the predicate: counts free slots, but not beyond `limit`. */
  method CountFree(row: seq<Option<nat>>, limit: nat) returns (taken: nat)
    ensures limit > 0 ==> (taken == limit <==> FreeIn(row) >= limit)
  {
    taken := 0;
    var s := 0;
    while s < |row|
      invariant s <= |row|
      invariant taken == FreeIn(row[..s])
      invariant limit > 0 ==> taken < limit
    {
      FreeInStep(row, s);
      FreeInMonotone(row, s + 1);
      if row[s] == None {
        taken := taken + 1;
        if taken == limit { return; }
      }
      s := s + 1;
    }
    assert row[..|row|] == row;
  }

  /** Evaluates the predicate inside wait_for_ressource.  It holds iff the machines
      with at least `slotsPerHost` free slots offer the requested CPUs. */
  method EnoughFree(usage: Table<Option<nat>>, slotSize: nat, requested: nat, slotsPerHost: nat) returns (enough: bool)
    ensures enough <==> |Hosts(usage, slotsPerHost, |usage|)| * (slotSize * slotsPerHost) >= requested
  {
    var counter := 0;
    var m := 0;
    var perHost := slotSize * slotsPerHost;
    assert slotsPerHost == 0 ==> perHost == 0;
    assert Hosts(usage, slotsPerHost, 0) == {};
    while m < |usage|
      invariant m <= |usage|
      invariant counter == |Hosts(usage, slotsPerHost, m)| * perHost
    {
      var taken := CountFree(usage[m], slotsPerHost);
      HostsStep(usage, slotsPerHost, m);
      if taken == slotsPerHost {
        counter := counter + perHost;
      }
      m := m + 1;
    }
    enough := counter >= requested;
  }

  /** The selection loop of the multi-app scheduler: one slot per machine.
      When the wait predicate holds, the two assertions that follow (the size
      is exact, the config is not empty) hold iff the request is a positive
      multiple of the slot size; the selection is then the first free slot of
      each of the first machines that have one. */
  method SelectSlots(usage: Table<Option<nat>>, slotSize: nat, requested: nat) returns (config: Config)
    requires slotSize > 0
    requires |Hosts(usage, 1, |usage|)| * slotSize >= requested
    ensures |config| * slotSize == requested && config != [] <==> requested > 0 && requested % slotSize == 0
    ensures requested > 0 && requested % slotSize == 0 ==>
              requested / slotSize <= |Available(usage, |usage|)|
              && config == Available(usage, |usage|)[..requested / slotSize]
  {
    config := [];
    var m := 0;
    ghost var k := requested / slotSize;
    AvailableCount(usage, |usage|);
    while m < |usage|
      invariant m <= |usage|
      invariant config == Available(usage, m)
      invariant requested > 0 ==> !Exact(|config|, slotSize, requested)
      invariant requested > 0 && requested % slotSize == 0 ==> |config| < k
      decreases |usage| - m
    {
      config := TakeFirstFree(config, m, usage[m]);
      m := m + 1;
      SizeMatches(|config|, k, slotSize, requested);
      if Exact(|config|, slotSize, requested) { break; }
    }
    AvailablePrefix(usage, m, |usage|);
    SizeMatches(|config|, k, slotSize, requested);
    EnoughMatches(|Available(usage, |usage|)|, k, slotSize, requested);
  }

  /** The size test of the selection loop. */
  predicate Exact(size: nat, slotSize: nat, requested: nat) {
    size * slotSize == requested
  }

  /** Picks one slot of a machine, if any is free. */
  method TakeFirstFree(config: Config, m: nat, row: seq<Option<nat>>) returns (r: Config)
    ensures r == config + match FirstFree(row, 0) { case Some(s) => [Elem(m, s)] case None => [] }
  {
    var s := 0;
    while s < |row|
      invariant s <= |row| && FirstFree(row, 0) == FirstFree(row, s)
    {
      if row[s] == None {
        return config + [Elem(m, s)];
      }
      s := s + 1;
    }
    r := config;
  }

  lemma EnoughMatches(size: nat, k: nat, slotSize: nat, requested: nat)
    requires slotSize > 0 && k == requested / slotSize && size * slotSize >= requested
    ensures requested % slotSize == 0 ==> k <= size
  {
    if requested % slotSize == 0 {
      SizeBound(size, k, slotSize, requested);
    }
  }

  lemma SizeMatches(size: nat, k: nat, slotSize: nat, requested: nat)
    requires slotSize > 0 && k == requested / slotSize
    ensures Exact(size, slotSize, requested) <==> requested % slotSize == 0 && size == k
  {
    if size * slotSize == requested {
      MulMod(size, slotSize);
    }
  }

  lemma MulMod(q: nat, d: nat)
    requires d > 0
    ensures (q * d) % d == 0 && (q * d) / d == q
  {
    var e, r := (q * d) / d, (q * d) % d;
    assert (q - e) * d == r;
    if q > e {
      TimesAtLeast(q - e, d);
    }
  }

  lemma TimesAtLeast(x: nat, d: nat)
    requires x > 0
    ensures x * d >= d
  {
  }

  lemma SizeBound(size: nat, k: nat, slotSize: nat, requested: nat)
    requires slotSize > 0 && requested == k * slotSize && size * slotSize >= requested
    ensures k <= size
  {
    if k > size {
      TimesAtLeast(k - size, slotSize);
    }
  }
}
