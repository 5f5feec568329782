/** Slots, tables indexed by (machine, slot), and sequences of slot swaps acting on them.

    The machine usage, the VM placement and the bandwidth table are all
    vectors of per-machine vectors.  A migration changes each of them by
    swapping pairs of entries.  This module treats such a sequence of swaps as
    a permutation of the slots: `Carry(steps, x)` is the slot at which the
    content of slot `x` arrives. */
module Tables {

  datatype Option<+T> = None | Some(value: T)

  /** An element of an execute_config: (machine index, slot). */
  datatype Elem = Elem(machine: nat, slot: nat)

  type Config = seq<Elem>

  type Table<T> = seq<seq<T>>

  predicate On(n: nat, w: nat, c: Elem) {
    c.machine < n && c.slot < w
  }

  predicate AllOn(n: nat, w: nat, cfg: Config) {
    forall i :: 0 <= i < |cfg| ==> On(n, w, cfg[i])
  }

  predicate NoDup<T(==)>(s: seq<T>) {
    forall i, j :: 0 <= i < j < |s| ==> s[i] != s[j]
  }

  predicate Rect<T>(t: Table<T>, n: nat, w: nat) {
    && |t| == n
    && forall m :: 0 <= m < n ==> |t[m]| == w
  }

  /** The first position of `x` in a list. */
  function IndexOf<T(==)>(xs: seq<T>, x: T): (i: nat)
    requires x in xs
    ensures i < |xs| && xs[i] == x
  {
    if xs[0] == x then 0 else IndexOf(xs[1..], x) + 1
  }

  predicate In<T>(t: Table<T>, c: Elem) {
    c.machine < |t| && c.slot < |t[c.machine]|
  }

  function Get<T>(t: Table<T>, c: Elem): T
    requires In(t, c)
  {
    t[c.machine][c.slot]
  }

  function Put<T>(t: Table<T>, c: Elem, v: T): (r: Table<T>)
    requires In(t, c)
    ensures |r| == |t| && forall m :: 0 <= m < |t| ==> |r[m]| == |t[m]|
    ensures forall d | In(t, d) :: Get(r, d) == if d == c then v else Get(t, d)
  {
    t[c.machine := t[c.machine][c.slot := v]]
  }

  lemma TableEq<T>(t: Table<T>, u: Table<T>, n: nat, w: nat)
    requires Rect(t, n, w) && Rect(u, n, w)
    requires forall c | On(n, w, c) :: Get(t, c) == Get(u, c)
    ensures t == u
  {
    forall m | 0 <= m < n ensures t[m] == u[m] {
      forall s | 0 <= s < w ensures t[m][s] == u[m][s] {
        assert Get(t, Elem(m, s)) == Get(u, Elem(m, s));
      }
    }
  }

  // ----- writing one value, or a list of values, to all slots of a config

  /** Writes `v` to every slot of `cfg`, in order. */
  function Fill<T>(t: Table<T>, cfg: Config, v: T): (r: Table<T>)
    requires forall i :: 0 <= i < |cfg| ==> In(t, cfg[i])
    ensures |r| == |t| && forall m :: 0 <= m < |t| ==> |r[m]| == |t[m]|
    ensures forall d | In(t, d) :: Get(r, d) == if d in cfg then v else Get(t, d)
    decreases |cfg|
  {
    if cfg == [] then t
    else
      assert forall d :: d in cfg <==> d == cfg[0] || d in cfg[1..];
      Fill(Put(t, cfg[0], v), cfg[1..], v)
  }

  /** Writes `vals[i]` to slot `cfg[i]`, in order. */
  function Write<T>(t: Table<T>, cfg: Config, vals: seq<T>): (r: Table<T>)
    requires |vals| == |cfg|
    requires forall i :: 0 <= i < |cfg| ==> In(t, cfg[i])
    ensures |r| == |t| && forall m :: 0 <= m < |t| ==> |r[m]| == |t[m]|
    ensures forall d | In(t, d) && d !in cfg :: Get(r, d) == Get(t, d)
    decreases |cfg|
  {
    if cfg == [] then t
    else Write(Put(t, cfg[0], vals[0]), cfg[1..], vals[1..])
  }

  lemma {:induction false} WriteAt<T>(t: Table<T>, cfg: Config, vals: seq<T>, k: nat)
    requires |vals| == |cfg| && k < |cfg| && NoDup(cfg)
    requires forall i :: 0 <= i < |cfg| ==> In(t, cfg[i])
    ensures Get(Write(t, cfg, vals), cfg[k]) == vals[k]
    decreases |cfg|
  {
    var u := Put(t, cfg[0], vals[0]);
    if k == 0 {
      assert cfg[0] !in cfg[1..];
      assert Get(Write(u, cfg[1..], vals[1..]), cfg[0]) == Get(u, cfg[0]);
    } else {
      WriteAt(u, cfg[1..], vals[1..], k - 1);
    }
  }

  // ----- swaps

  datatype Swap = Swap(a: Elem, b: Elem)

  predicate StepsOn(n: nat, w: nat, steps: seq<Swap>) {
    forall i :: 0 <= i < |steps| ==> On(n, w, steps[i].a) && On(n, w, steps[i].b)
  }

  /** The transposition that one swap performs on slots. */
  function Tr(s: Swap, x: Elem): Elem {
    if x == s.a then s.b else if x == s.b then s.a else x
  }

  function Swapped<T>(t: Table<T>, s: Swap): (r: Table<T>)
    requires In(t, s.a) && In(t, s.b)
    ensures |r| == |t| && forall m :: 0 <= m < |t| ==> |r[m]| == |t[m]|
    ensures forall d | In(t, d) :: Get(r, d) == Get(t, Tr(s, d))
  {
    Put(Put(t, s.a, Get(t, s.b)), s.b, Get(t, s.a))
  }

  function ApplySwaps<T>(t: Table<T>, n: nat, w: nat, steps: seq<Swap>): (r: Table<T>)
    requires Rect(t, n, w) && StepsOn(n, w, steps)
    ensures Rect(r, n, w)
    decreases |steps|
  {
    if steps == [] then t
    else ApplySwaps(Swapped(t, steps[0]), n, w, steps[1..])
  }

  /** Where the content of slot `x` is after all swaps. */
  function Carry(steps: seq<Swap>, x: Elem): Elem
    decreases |steps|
  {
    if steps == [] then x else Carry(steps[1..], Tr(steps[0], x))
  }

  /** The inverse of `Carry`: which slot's content ends up in `y`. */
  function Origin(steps: seq<Swap>, y: Elem): Elem
    decreases |steps|
  {
    if steps == [] then y else Tr(steps[0], Origin(steps[1..], y))
  }

  /** A config whose elements follow the swaps. */
  function Moved(cfg: Config, steps: seq<Swap>): (r: Config)
    ensures |r| == |cfg|
    ensures forall k :: 0 <= k < |cfg| ==> r[k] == Carry(steps, cfg[k])
  {
    seq(|cfg|, k requires 0 <= k < |cfg| => Carry(steps, cfg[k]))
  }

  lemma {:induction false} CarryOrigin(steps: seq<Swap>, x: Elem)
    ensures Origin(steps, Carry(steps, x)) == x
    ensures Carry(steps, Origin(steps, x)) == x
    decreases |steps|
  {
    if steps != [] {
      CarryOrigin(steps[1..], Tr(steps[0], x));
      CarryOrigin(steps[1..], x);
    }
  }

  lemma CarryInjective(steps: seq<Swap>, x: Elem, y: Elem)
    requires Carry(steps, x) == Carry(steps, y)
    ensures x == y
  {
    CarryOrigin(steps, x);
    CarryOrigin(steps, y);
  }

  lemma {:induction false} CarryOn(n: nat, w: nat, steps: seq<Swap>, x: Elem)
    requires StepsOn(n, w, steps) && On(n, w, x)
    ensures On(n, w, Carry(steps, x)) && On(n, w, Origin(steps, x))
    decreases |steps|
  {
    if steps != [] {
      CarryOn(n, w, steps[1..], Tr(steps[0], x));
      CarryOn(n, w, steps[1..], x);
    }
  }

  /** Swapping entries moves the content of every slot along `Carry`, whatever the table holds. */
  lemma {:induction false} ApplyCarry<T>(t: Table<T>, n: nat, w: nat, steps: seq<Swap>, x: Elem)
    requires Rect(t, n, w) && StepsOn(n, w, steps) && On(n, w, x)
    ensures On(n, w, Carry(steps, x))
    ensures Get(ApplySwaps(t, n, w, steps), Carry(steps, x)) == Get(t, x)
    decreases |steps|
  {
    if steps != [] {
      ApplyCarry(Swapped(t, steps[0]), n, w, steps[1..], Tr(steps[0], x));
    }
  }

  lemma ApplyOrigin<T>(t: Table<T>, n: nat, w: nat, steps: seq<Swap>, y: Elem)
    requires Rect(t, n, w) && StepsOn(n, w, steps) && On(n, w, y)
    ensures On(n, w, Origin(steps, y))
    ensures Get(ApplySwaps(t, n, w, steps), y) == Get(t, Origin(steps, y))
  {
    CarryOn(n, w, steps, y);
    CarryOrigin(steps, y);
    ApplyCarry(t, n, w, steps, Origin(steps, y));
  }

  lemma CarryAppend(p: seq<Swap>, q: seq<Swap>, x: Elem)
    ensures Carry(p + q, x) == Carry(q, Carry(p, x))
    decreases |p|
  {
    if p == [] {
      assert p + q == q;
    } else {
      assert (p + q)[1..] == p[1..] + q;
      CarryAppend(p[1..], q, Tr(p[0], x));
    }
  }

  // ----- the entries of a table as one list

  function Flat<T>(t: Table<T>): seq<T> {
    if t == [] then [] else t[0] + Flat(t[1..])
  }

  lemma RowPut<T>(r: seq<T>, i: nat, v: T)
    requires i < |r|
    ensures r[i] in multiset(r) && multiset(r[i := v]) == multiset(r) - multiset{r[i]} + multiset{v}
  {
    assert r == r[..i] + [r[i]] + r[i + 1..];
    assert r[i := v] == r[..i] + [v] + r[i + 1..];
  }

  lemma {:induction false} FlatPut<T>(t: Table<T>, c: Elem, v: T)
    requires In(t, c)
    ensures Get(t, c) in multiset(Flat(t))
    ensures multiset(Flat(Put(t, c, v))) == multiset(Flat(t)) - multiset{Get(t, c)} + multiset{v}
    decreases |t|
  {
    var u, x := Put(t, c, v), Get(t, c);
    var h, r := multiset(t[0]), multiset(Flat(t[1..]));
    assert multiset(Flat(t)) == h + r && multiset(Flat(u)) == multiset(u[0]) + multiset(Flat(u[1..]));
    if c.machine == 0 {
      RowPut(t[0], c.slot, v);
      assert u[1..] == t[1..];
      ReplaceIn(h, r, x, v);
    } else {
      var d := Elem(c.machine - 1, c.slot);
      assert u[1..] == Put(t[1..], d, v);
      FlatPut(t[1..], d, v);
      ReplaceIn(r, h, x, v);
    }
  }

  lemma ReplaceIn<T>(part: multiset<T>, rest: multiset<T>, x: T, v: T)
    requires x in part
    ensures x in part + rest
    ensures (part - multiset{x} + multiset{v}) + rest == part + rest - multiset{x} + multiset{v}
  {
  }

  lemma FlatSwapped<T>(t: Table<T>, s: Swap)
    requires In(t, s.a) && In(t, s.b)
    ensures multiset(Flat(Swapped(t, s))) == multiset(Flat(t))
  {
    var x, y := Get(t, s.a), Get(t, s.b);
    var u := Put(t, s.a, y);
    FlatPut(t, s.a, y);
    FlatPut(u, s.b, x);
    PutBack(multiset(Flat(t)), x, y);
  }

  lemma PutBack<T>(m: multiset<T>, x: T, y: T)
    requires x in m
    ensures m - multiset{x} + multiset{y} - multiset{y} + multiset{x} == m
  {
  }

  /** No entry is lost or duplicated by a sequence of swaps. */
  lemma {:induction false} ApplyConserves<T>(t: Table<T>, n: nat, w: nat, steps: seq<Swap>)
    requires Rect(t, n, w) && StepsOn(n, w, steps)
    ensures multiset(Flat(ApplySwaps(t, n, w, steps))) == multiset(Flat(t))
    decreases |steps|
  {
    if steps != [] {
      FlatSwapped(t, steps[0]);
      ApplyConserves(Swapped(t, steps[0]), n, w, steps[1..]);
    }
  }
}
