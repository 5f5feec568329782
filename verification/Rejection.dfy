/** The global test of find_swap_candidates, and why a rejection is final. */
module Rejection {
  import opened Tables
  import opened Bandwidth

  /** The summed load of a list of machines. */
  function SumOf(util: Util, n: nat, ms: seq<nat>): real
    requires Rect(util, n, 2) && Machines(n, ms)
  {
    if ms == [] then 0.0 else Total(util, ms[0]) + SumOf(util, n, ms[1..])
  }

  /** The candidates: the first machines of the ascending order `cs`, one per
      marked machine, if the joint load leaves room; otherwise none. */
  function Candidates(util: Util, n: nat, marked: seq<nat>, cs: seq<nat>): (r: seq<nat>)
    requires Rect(util, n, 2) && Machines(n, marked) && Machines(n, cs) && |marked| <= |cs|
  {
    if SumOf(util, n, marked) + SumOf(util, n, cs[..|marked|]) < TH * |marked| as real * 2.0
    then cs[..|marked|] else []
  }

  lemma {:induction false} SumAppend(util: Util, n: nat, p: seq<nat>, q: seq<nat>)
    requires Rect(util, n, 2) && Machines(n, p) && Machines(n, q)
    ensures SumOf(util, n, p + q) == SumOf(util, n, p) + SumOf(util, n, q)
    decreases |p|
  {
    if p == [] {
      assert p + q == q;
    } else {
      assert (p + q)[1..] == p[1..] + q;
      SumAppend(util, n, p[1..], q);
    }
  }

  /** Nothing is found iff the joint load of the N marked machines and of the first
      N in the order reaches 2N times the threshold. */
  lemma CandidatesIff(util: Util, n: nat, marked: seq<nat>, cs: seq<nat>)
    requires Rect(util, n, 2) && Machines(n, marked) && Machines(n, cs) && |marked| <= |cs|
    ensures Candidates(util, n, marked, cs) == []
       <==> SumOf(util, n, marked) + SumOf(util, n, cs[..|marked|]) >= 2.0 * TH * |marked| as real
  {
    assert TH * |marked| as real * 2.0 == 2.0 * TH * |marked| as real;
  }

  // ----- sums over a set of machines

  function SumIn(util: Util, n: nat, s: set<nat>, i: nat): real
    requires Rect(util, n, 2) && i <= n
  {
    if i == 0 then 0.0
    else SumIn(util, n, s, i - 1) + if i - 1 in s then Total(util, i - 1) else 0.0
  }

  function CountIn(s: set<nat>, i: nat): nat {
    if i == 0 then 0 else CountIn(s, i - 1) + if i - 1 in s then 1 else 0
  }

  lemma {:induction false} SumInAdd(util: Util, n: nat, s: set<nat>, x: nat, i: nat)
    requires Rect(util, n, 2) && i <= n && x < n && x !in s
    ensures SumIn(util, n, s + {x}, i) == SumIn(util, n, s, i) + if x < i then Total(util, x) else 0.0
    ensures CountIn(s + {x}, i) == CountIn(s, i) + if x < i then 1 else 0
  {
    if i > 0 {
      SumInAdd(util, n, s, x, i - 1);
    }
  }

  lemma {:induction false} EmptySums(util: Util, n: nat, i: nat)
    requires Rect(util, n, 2) && i <= n
    ensures SumIn(util, n, {}, i) == 0.0 && CountIn({}, i) == 0
  {
    if i > 0 { EmptySums(util, n, i - 1); }
  }

  lemma {:induction false} SumOfIsSumIn(util: Util, n: nat, ms: seq<nat>, s: set<nat>)
    requires Rect(util, n, 2) && Machines(n, ms) && NoDup(ms)
    requires forall x :: x in s <==> x in ms
    ensures SumOf(util, n, ms) == SumIn(util, n, s, n) && CountIn(s, n) == |ms|
    decreases |ms|
  {
    if ms == [] {
      assert s == {};
      EmptySums(util, n, n);
    } else {
      var rest := s - {ms[0]};
      assert s == rest + {ms[0]};
      SumOfIsSumIn(util, n, ms[1..], rest);
      SumInAdd(util, n, rest, ms[0], n);
    }
  }

  /** The load above (or below) `v` carried by the machines of a set. */
  function ExcessIn(util: Util, n: nat, s: set<nat>, v: real, i: nat): real
    requires Rect(util, n, 2) && i <= n
  {
    if i == 0 then 0.0
    else ExcessIn(util, n, s, v, i - 1) + if i - 1 in s then Total(util, i - 1) - v else 0.0
  }

  function Times(v: real, count: nat): real {
    if count == 0 then 0.0 else v + Times(v, count - 1)
  }

  lemma {:induction false} ExcessIsRest(util: Util, n: nat, s: set<nat>, v: real, i: nat)
    requires Rect(util, n, 2) && i <= n
    ensures SumIn(util, n, s, i) == ExcessIn(util, n, s, v, i) + Times(v, CountIn(s, i))
  {
    if i > 0 { ExcessIsRest(util, n, s, v, i - 1); }
  }

  /** If every machine of `a` carries at most `v` and every other machine at
      least `v`, no set has less excess than `a`. */
  lemma {:induction false} Exchange(util: Util, n: nat, a: set<nat>, b: set<nat>, v: real, i: nat)
    requires Rect(util, n, 2) && i <= n
    requires forall m | 0 <= m < n :: if m in a then Total(util, m) <= v else Total(util, m) >= v
    ensures ExcessIn(util, n, a, v, i) <= ExcessIn(util, n, b, v, i)
  {
    if i > 0 { Exchange(util, n, a, b, v, i - 1); }
  }

  /** No N machines carry less than the first N of an ascending order of all machines. */
  lemma PrefixMinimal(util: Util, n: nat, all: seq<nat>, cs: seq<nat>, others: seq<nat>)
    requires Rect(util, n, 2) && NoDup(all) && IsSort(util, n, all, cs, false)
    requires forall m :: 0 <= m < n ==> m in all
    requires Machines(n, others) && NoDup(others) && 0 < |others| <= |cs|
    ensures Machines(n, cs[..|others|])
    ensures SumOf(util, n, cs[..|others|]) <= SumOf(util, n, others)
  {
    PermFacts(all, cs);
    var first := cs[..|others|];
    var a, b := set m | m in first, set m | m in others;
    var v := Total(util, cs[|others| - 1]);
    forall m | 0 <= m < n ensures if m in a then Total(util, m) <= v else Total(util, m) >= v {
      AroundPivot(util, n, cs, |others|, m);
    }
    SumOfIsSumIn(util, n, first, a);
    SumOfIsSumIn(util, n, others, b);
    ExchangeEqual(util, n, a, b, v);
  }

  lemma ExchangeEqual(util: Util, n: nat, a: set<nat>, b: set<nat>, v: real)
    requires Rect(util, n, 2) && CountIn(a, n) == CountIn(b, n)
    requires forall m | 0 <= m < n :: if m in a then Total(util, m) <= v else Total(util, m) >= v
    ensures SumIn(util, n, a, n) <= SumIn(util, n, b, n)
  {
    ExcessIsRest(util, n, a, v, n);
    ExcessIsRest(util, n, b, v, n);
    Exchange(util, n, a, b, v, n);
  }

  lemma Ascending(util: Util, n: nat, cs: seq<nat>, i: nat, j: nat)
    requires Rect(util, n, 2) && Machines(n, cs) && i <= j < |cs|
    requires forall i, j :: 0 <= i < j < |cs| ==> Total(util, cs[i]) <= Total(util, cs[j])
    ensures Total(util, cs[i]) <= Total(util, cs[j])
  {
  }

  lemma AroundPivot(util: Util, n: nat, cs: seq<nat>, k: nat, m: nat)
    requires Rect(util, n, 2) && Machines(n, cs) && 0 < k <= |cs| && m < n && m in cs
    requires forall i, j :: 0 <= i < j < |cs| ==> Total(util, cs[i]) <= Total(util, cs[j])
    ensures m in cs[..k] ==> Total(util, m) <= Total(util, cs[k - 1])
    ensures m !in cs[..k] ==> Total(util, m) >= Total(util, cs[k - 1])
  {
    var j :| 0 <= j < |cs| && cs[j] == m && (m in cs[..k] ==> j < k);
    if j < k {
      assert cs[..k][j] == m;
      Ascending(util, n, cs, j, k - 1);
    } else {
      Ascending(util, n, cs, k - 1, j);
    }
  }

  /** The candidates are distinct and carry no more than any machine left out. */
  lemma CandidatesLightest(util: Util, n: nat, all: seq<nat>, marked: seq<nat>, cs: seq<nat>)
    requires Rect(util, n, 2) && IsSort(util, n, all, cs, false)
    requires |all| == n && forall x :: 0 <= x < n ==> all[x] == x
    requires Machines(n, marked) && Machines(n, cs) && |marked| <= |cs|
    ensures var r := Candidates(util, n, marked, cs);
            && Machines(n, r) && NoDup(r) && (r == [] || |r| == |marked|)
            && forall m, k :: 0 <= m < n && m !in r && 0 <= k < |r| ==> Total(util, r[k]) <= Total(util, m)
  {
    PermFacts(all, cs);
    var r := Candidates(util, n, marked, cs);
    forall m, k | 0 <= m < n && m !in r && 0 <= k < |r| ensures Total(util, r[k]) <= Total(util, m) {
      assert all[m] == m && m in all;
      AroundPivot(util, n, cs, |r|, m);
      Ascending(util, n, cs, k, |r| - 1);
    }
  }

  // ----- redistribution

  /** The slot loads of a list of machines. */
  function LoadsOf(util: Util, n: nat, ms: seq<nat>): seq<real>
    requires Rect(util, n, 2) && Machines(n, ms)
  {
    if ms == [] then [] else util[ms[0]] + LoadsOf(util, n, ms[1..])
  }

  function SumSeq(s: seq<real>): real {
    if s == [] then 0.0 else s[0] + SumSeq(s[1..])
  }

  lemma {:induction false} SumSeqSplit(s: seq<real>, i: nat)
    requires i < |s|
    ensures SumSeq(s) == s[i] + SumSeq(s[..i] + s[i + 1..])
    decreases i
  {
    var t := s[..i] + s[i + 1..];
    if i == 0 {
      assert t == s[1..];
    } else {
      SumSeqSplit(s[1..], i - 1);
      assert t[1..] == s[1..][..i - 1] + s[1..][i..];
    }
  }

  lemma RemoveSame<T>(s: seq<T>, t: seq<T>, i: nat)
    requires s != [] && i < |t| && t[i] == s[0] && multiset(s) == multiset(t)
    ensures multiset(s[1..]) == multiset(t[..i] + t[i + 1..])
  {
    assert s == [s[0]] + s[1..];
    assert t == t[..i] + [t[i]] + t[i + 1..];
    assert multiset(s) == multiset(s[1..]) + multiset{s[0]};
    assert multiset(t) == multiset(t[..i] + t[i + 1..]) + multiset{t[i]};
    Cancel(multiset(s[1..]), multiset(t[..i] + t[i + 1..]), s[0]);
  }

  lemma Cancel<T>(a: multiset<T>, b: multiset<T>, x: T)
    requires a + multiset{x} == b + multiset{x}
    ensures a == b
  {
    assert a == a + multiset{x} - multiset{x};
    assert b == b + multiset{x} - multiset{x};
  }

  /** The sum does not depend on the order. */
  lemma {:induction false} SumSeqPerm(s: seq<real>, t: seq<real>)
    requires multiset(s) == multiset(t)
    ensures SumSeq(s) == SumSeq(t)
    decreases |s|
  {
    if s == [] {
      assert |multiset(t)| == |t|;
    } else {
      assert s[0] in multiset(t);
      var i :| 0 <= i < |t| && t[i] == s[0];
      SumSeqSplit(t, i);
      RemoveSame(s, t, i);
      SumSeqPerm(s[1..], t[..i] + t[i + 1..]);
    }
  }

  lemma {:induction false} SumOfLoads(util: Util, n: nat, ms: seq<nat>)
    requires Rect(util, n, 2) && Machines(n, ms)
    ensures SumOf(util, n, ms) == SumSeq(LoadsOf(util, n, ms))
    decreases |ms|
  {
    if ms != [] {
      var row, rest := util[ms[0]], LoadsOf(util, n, ms[1..]);
      SumOfLoads(util, n, ms[1..]);
      assert (row + rest)[1..] == row[1..] + rest;
      assert (row[1..] + rest)[1..] == rest;
    }
  }

  /** The summed load does not depend on the order of the machines. */
  lemma {:induction false} SumOfPerm(util: Util, n: nat, p: seq<nat>, q: seq<nat>)
    requires Rect(util, n, 2) && Machines(n, p) && Machines(n, q) && multiset(p) == multiset(q)
    ensures SumOf(util, n, p) == SumOf(util, n, q)
    decreases |p|
  {
    if p == [] {
      assert |multiset(q)| == |q|;
    } else {
      assert p[0] in multiset(q);
      var i :| 0 <= i < |q| && q[i] == p[0];
      var rest := q[..i] + q[i + 1..];
      SumOfSplit(util, n, q, i);
      RemoveSame(p, q, i);
      SumOfPerm(util, n, p[1..], rest);
    }
  }

  lemma SumOfSplit(util: Util, n: nat, q: seq<nat>, i: nat)
    requires Rect(util, n, 2) && Machines(n, q) && i < |q|
    ensures SumOf(util, n, q) == Total(util, q[i]) + SumOf(util, n, q[..i] + q[i + 1..])
  {
    SumAppend(util, n, q[..i], q[i + 1..]);
    SumAppend(util, n, q[..i], q[i..]);
    assert q == q[..i] + q[i..];
    assert q[i..][0] == q[i] && q[i..][1..] == q[i + 1..];
  }

  lemma {:induction false} AllBelow(util: Util, n: nat, ms: seq<nat>)
    requires Rect(util, n, 2) && Machines(n, ms)
    requires forall k :: 0 <= k < |ms| ==> Total(util, ms[k]) < TH
    ensures SumOf(util, n, ms) <= TH * |ms| as real
    ensures ms != [] ==> SumOf(util, n, ms) < TH * |ms| as real
    decreases |ms|
  {
    if ms != [] {
      AllBelow(util, n, ms[1..]);
      assert TH * |ms| as real == TH * (|ms| - 1) as real + TH;
    }
  }

  /** N distinct machines that carry, together with the N marked ones, less than
      2N times the threshold. */
  predicate LeavesRoom(util: Util, n: nat, marked: seq<nat>, others: seq<nat>)
    requires Rect(util, n, 2) && Machines(n, marked)
  {
    && Machines(n, others) && NoDup(others) && |others| == |marked|
    && SumOf(util, n, marked) + SumOf(util, n, others) < 2.0 * TH * |marked| as real
  }

  /** Candidates are found iff some N machines leave room. */
  lemma AcceptanceIff(util: Util, n: nat, all: seq<nat>, cs: seq<nat>, marked: seq<nat>)
    requires Rect(util, n, 2) && Machines(n, marked) && Machines(n, cs) && 0 < |marked| <= |cs|
    requires NoDup(all) && (forall m :: 0 <= m < n ==> m in all) && IsSort(util, n, all, cs, false)
    ensures Candidates(util, n, marked, cs) != [] <==> exists others: seq<nat> :: LeavesRoom(util, n, marked, others)
  {
    CandidatesIff(util, n, marked, cs);
    if Candidates(util, n, marked, cs) != [] {
      PermFacts(all, cs);
      assert LeavesRoom(util, n, marked, cs[..|marked|]);
    }
    if others: seq<nat> :| LeavesRoom(util, n, marked, others) {
      PrefixMinimal(util, n, all, cs, others);
    }
  }

  /** A rejection is final: if no candidates are found for N >= 1 marked machines,
      then for every N other machines and every redistribution `other` of the
      slot loads among those 2N machines, some machine is at or above the threshold. */
  lemma RejectionComplete(util: Util, n: nat, all: seq<nat>, cs: seq<nat>, marked: seq<nat>,
                          others: seq<nat>, other: Util)
    requires Rect(util, n, 2) && Rect(other, n, 2)
    requires NoDup(all) && (forall m :: 0 <= m < n ==> m in all) && IsSort(util, n, all, cs, false)
    requires Machines(n, marked) && NoDup(marked) && 0 < |marked| <= |cs|
    requires Candidates(util, n, marked, cs) == []
    requires Machines(n, others) && NoDup(others) && |others| == |marked|
    requires forall m :: m in others ==> m !in marked
    requires multiset(LoadsOf(other, n, marked + others)) == multiset(LoadsOf(util, n, marked + others))
    ensures exists m :: m in marked + others && m < n && Total(other, m) >= TH
  {
    var both := marked + others;
    PrefixMinimal(util, n, all, cs, others);
    SumAppend(util, n, marked, others);
    SumOfLoads(util, n, both);
    SumOfLoads(other, n, both);
    SumSeqPerm(LoadsOf(other, n, both), LoadsOf(util, n, both));
    assert |both| as real == 2.0 * |marked| as real;
    assert TH * |both| as real == TH * |marked| as real * 2.0;
    if forall k :: 0 <= k < |both| ==> Total(other, both[k]) < TH {
      AllBelow(other, n, both);
    } else {
      var k :| 0 <= k < |both| && Total(other, both[k]) >= TH;
      assert both[k] in both;
    }
  }
}
