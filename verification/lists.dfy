/** Lists as collections: flattening, sums over them, and what a rearrangement keeps. */
module Lists {

  datatype Option<+T> = None | Some(value: T) {
    function GetOr(default: T): T {
      match this
      case Some(v) => v
      case None => default
    }
  }

  function Flatten<T>(ss: seq<seq<T>>): seq<T> {
    if ss == [] then [] else ss[0] + Flatten(ss[1..])
  }

  function Map<T, U>(f: T -> U, s: seq<T>): (r: seq<U>)
    ensures |r| == |s|
    ensures forall i :: 0 <= i < |s| ==> r[i] == f(s[i])
  {
    if s == [] then [] else [f(s[0])] + Map(f, s[1..])
  }

  function Filter<T>(p: T -> bool, s: seq<T>): seq<T> {
    if s == [] then []
    else if p(s[0]) then [s[0]] + Filter(p, s[1..])
    else Filter(p, s[1..])
  }

  function SumBy<T>(f: T -> real, s: seq<T>): real {
    if s == [] then 0.0 else f(s[0]) + SumBy(f, s[1..])
  }

  ghost predicate Distinct<T>(s: seq<T>) {
    forall i, j :: 0 <= i < j < |s| ==> s[i] != s[j]
  }

  function Without<T>(s: seq<T>, i: nat): (r: seq<T>)
    requires i < |s|
    ensures |r| == |s| - 1
    ensures multiset(r) == multiset(s) - multiset{s[i]}
  {
    assert s == s[..i] + [s[i]] + s[i + 1..];
    s[..i] + s[i + 1..]
  }

  lemma {:induction false} SumByWithout<T>(f: T -> real, s: seq<T>, i: nat)
    requires i < |s|
    ensures SumBy(f, s) == f(s[i]) + SumBy(f, Without(s, i))
  {
    if i > 0 {
      SumByWithout(f, s[1..], i - 1);
      assert Without(s, i) == [s[0]] + Without(s[1..], i - 1);
    } else {
      assert Without(s, 0) == s[1..];
    }
  }

  /** A sum does not depend on the order of what it adds. */
  lemma {:induction false} SumByPermutes<T>(f: T -> real, a: seq<T>, b: seq<T>)
    requires multiset(a) == multiset(b)
    ensures SumBy(f, a) == SumBy(f, b)
    decreases |a|
  {
    assert |a| == |multiset(a)| && |b| == |multiset(b)|;
    if a != [] {
      assert a[0] in multiset(b);
      var i :| 0 <= i < |b| && b[i] == a[0];
      assert a == [a[0]] + a[1..];
      SumByWithout(f, b, i);
      SumByPermutes(f, a[1..], Without(b, i));
    }
  }

  lemma {:induction false} MapWithout<T, U>(f: T -> U, s: seq<T>, i: nat)
    requires i < |s|
    ensures multiset(Map(f, s)) == multiset(Map(f, Without(s, i))) + multiset{f(s[i])}
  {
    assert Without(Map(f, s), i) == Map(f, Without(s, i));
  }

  lemma {:induction false} MapPermutes<T, U>(f: T -> U, a: seq<T>, b: seq<T>)
    requires multiset(a) == multiset(b)
    ensures multiset(Map(f, a)) == multiset(Map(f, b))
    decreases |a|
  {
    assert |a| == |multiset(a)| && |b| == |multiset(b)|;
    if a != [] {
      assert a[0] in multiset(b);
      var i :| 0 <= i < |b| && b[i] == a[0];
      assert a == [a[0]] + a[1..];
      MapPermutes(f, a[1..], Without(b, i));
      MapWithout(f, b, i);
      MapWithout(f, a, 0);
      assert Without(a, 0) == a[1..];
    }
  }

  lemma {:induction false} MapAppend<T, U>(f: T -> U, a: seq<T>, b: seq<T>)
    ensures Map(f, a + b) == Map(f, a) + Map(f, b)
  {
  }

  lemma {:induction false} SumByAppend<T>(f: T -> real, a: seq<T>, b: seq<T>)
    ensures SumBy(f, a + b) == SumBy(f, a) + SumBy(f, b)
  {
    if a == [] {
      assert a + b == b;
    } else {
      SumByAppend(f, a[1..], b);
      assert (a + b)[1..] == a[1..] + b;
    }
  }

  lemma {:induction false} TakenOneMore<T>(s: seq<T>, n: nat)
    requires 0 < n <= |s|
    ensures multiset(s[..n]) == multiset(s[..n - 1]) + multiset{s[n - 1]}
  {
    assert s[..n] == s[..n - 1] + [s[n - 1]];
  }

  lemma {:induction false} AddToBoth<T>(a: multiset<T>, x: multiset<T>, p: multiset<T>, y: multiset<T>, q: multiset<T>)
    requires x + p == y + q
    ensures (a + x) + p == (a + y) + q
  {
    assert (a + x) + p == a + (x + p);
    assert (a + y) + q == a + (y + q);
  }

  /** Replacing one list of many replaces its entries in the flattened whole. */
  lemma {:induction false} FlattenUpdate<T>(ss: seq<seq<T>>, k: nat, t: seq<T>)
    requires k < |ss|
    ensures multiset(Flatten(ss[k := t])) + multiset(ss[k]) == multiset(Flatten(ss)) + multiset(t)
  {
    if k > 0 {
      FlattenUpdate(ss[1..], k - 1, t);
      assert ss[k := t][1..] == ss[1..][k - 1 := t];
      assert Flatten(ss[k := t]) == ss[0] + Flatten(ss[1..][k - 1 := t]);
      AddToBoth(multiset(ss[0]), multiset(Flatten(ss[1..][k - 1 := t])), multiset(ss[k]),
                multiset(Flatten(ss[1..])), multiset(t));
    } else {
      assert ss[0 := t][1..] == ss[1..];
    }
  }

  lemma {:induction false} FlattenPush<T>(ss: seq<seq<T>>, k: nat, x: T)
    requires k < |ss|
    ensures multiset(Flatten(ss[k := ss[k] + [x]])) == multiset(Flatten(ss)) + multiset{x}
  {
    FlattenUpdate(ss, k, ss[k] + [x]);
    var after, before, one := multiset(Flatten(ss[k := ss[k] + [x]])), multiset(Flatten(ss)), multiset(ss[k]);
    assert after + one == before + (one + multiset{x});
    assert (after + one) - one == after;
    assert (before + (one + multiset{x})) - one == before + multiset{x};
  }

  /** Whatever is in the flattened whole is in one of the lists. */
  lemma {:induction false} InFlatten<T>(ss: seq<seq<T>>, x: T) returns (k: nat, i: nat)
    requires x in Flatten(ss)
    ensures k < |ss| && i < |ss[k]| && ss[k][i] == x
  {
    if x in ss[0] {
      k := 0;
      i :| 0 <= i < |ss[0]| && ss[0][i] == x;
    } else {
      k, i := InFlatten(ss[1..], x);
      k := k + 1;
    }
  }

  lemma {:induction false} FilterMembers<T>(p: T -> bool, s: seq<T>, x: T)
    ensures x in Filter(p, s) <==> x in s && p(x)
  {
    if s != [] {
      FilterMembers(p, s[1..], x);
    }
  }

  lemma {:induction false} DistinctCount<T>(s: seq<T>, x: T)
    requires Distinct(s)
    ensures multiset(s)[x] == if x in s then 1 else 0
  {
    if s != [] {
      DistinctCount(s[1..], x);
      assert s == [s[0]] + s[1..];
      if x == s[0] {
        assert x !in s[1..];
      }
    }
  }

  lemma {:induction false} TwiceCounts<T>(s: seq<T>, i: nat, j: nat)
    requires i < j < |s| && s[i] == s[j]
    ensures multiset(s)[s[i]] >= 2
  {
    assert s == s[..i] + [s[i]] + s[i + 1..j] + [s[j]] + s[j + 1..];
  }

  lemma {:induction false} FilterDistinct<T>(p: T -> bool, s: seq<T>)
    requires Distinct(s)
    ensures Distinct(Filter(p, s))
  {
    if s != [] {
      FilterDistinct(p, s[1..]);
      FilterMembers(p, s[1..], s[0]);
    }
  }

  /** `new Set(s)`: each entry once, where it first stands. */
  function Unique(s: seq<string>): (unique: seq<string>)
    ensures forall x :: x in unique <==> x in s
    ensures Distinct(unique)
  {
    if s == [] then []
    else
      var before := Unique(s[..|s| - 1]);
      assert s == s[..|s| - 1] + [s[|s| - 1]];
      if s[|s| - 1] in before then before else before + [s[|s| - 1]]
  }
}
