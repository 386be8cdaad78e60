/** Facts about sequences, finite sets and maps that the model needs and that have nothing to do with RIPC. */
module Seqs {

  ghost predicate Distinct<T>(s: seq<T>) {
    forall i, j :: 0 <= i < j < |s| ==> s[i] != s[j]
  }

  /** s lists exactly the elements of xs, each of them once. */
  ghost predicate Lists<T(!new)>(s: seq<T>, xs: set<T>) {
    Distinct(s) && forall x :: x in s <==> x in xs
  }

  /** The effect of list_del on an intrusive list. */
  function Remove<T(==)>(s: seq<T>, x: T): seq<T> {
    if s == [] then [] else if s[0] == x then Remove(s[1..], x) else [s[0]] + Remove(s[1..], x)
  }

  lemma {:induction false} RemoveKeeps<T>(s: seq<T>, x: T)
    ensures forall y :: y in Remove(s, x) <==> y in s && y != x
    ensures Distinct(s) ==> Distinct(Remove(s, x))
    ensures |Remove(s, x)| <= |s|
  {
    if s != [] {
      RemoveKeeps(s[1..], x);
      assert s == [s[0]] + s[1..];
      if Distinct(s) {
        assert Distinct(s[1..]);
        assert s[0] !in s[1..];
      }
    }
  }

  lemma RemoveLists<T(!new)>(s: seq<T>, xs: set<T>, x: T)
    requires Lists(s, xs)
    ensures Lists(Remove(s, x), xs - {x})
  {
    RemoveKeeps(s, x);
  }

  lemma {:induction false} RemoveAbsent<T>(s: seq<T>, x: T)
    requires x !in s
    ensures Remove(s, x) == s
  {
    if s != [] {
      assert s == [s[0]] + s[1..];
      RemoveAbsent(s[1..], x);
    }
  }

  lemma {:induction false} RemoveAt<T>(s: seq<T>, i: nat)
    requires Distinct(s) && i < |s|
    ensures Remove(s, s[i]) == s[..i] + s[i + 1..]
  {
    if i == 0 {
      assert s == [s[0]] + s[1..];
      assert s[0] !in s[1..];
      RemoveAbsent(s[1..], s[0]);
    } else {
      RemoveAt(s[1..], i - 1);
      assert s[..i] + s[i + 1..] == [s[0]] + (s[1..][..i - 1] + s[1..][i..]);
    }
  }

  /** A set whose elements are tagged injectively by elements of ys is no larger than ys. */
  lemma {:induction false} InjectionBound<X(!new), Y(!new)>(xs: set<X>, ys: set<Y>, f: map<X, Y>)
    requires forall x <- xs :: x in f && f[x] in ys
    requires forall x, x' | x in xs && x' in xs && f[x] == f[x'] :: x == x'
    ensures |xs| <= |ys|
    decreases xs
  {
    if xs != {} {
      var x :| x in xs;
      InjectionBound(xs - {x}, ys - {f[x]}, f);
    }
  }

  lemma {:induction false} SubsetSize<T>(xs: set<T>, ys: set<T>)
    requires xs <= ys
    ensures |xs| <= |ys|
    decreases xs
  {
    if xs != {} {
      var x :| x in xs;
      SubsetSize(xs - {x}, ys - {x});
    }
  }

  function Fibre<X, Y(==)>(f: map<X, Y>, y: Y): set<X> {
    set x | x in f && f[x] == y
  }

  /** If f sends its keys into ys and no fibre has more than n elements, then f has at most n * |ys| keys. */
  lemma {:induction false} FibreBound<X, Y>(f: map<X, Y>, ys: set<Y>, n: nat)
    requires forall x <- f :: f[x] in ys
    requires forall y <- ys :: |Fibre(f, y)| <= n
    ensures |f| <= n * |ys|
    decreases ys
  {
    if ys == {} {
      assert f.Keys == {};
    } else {
      var y :| y in ys;
      FibreStep(f, ys, n, y);
    }
  }

  /** One fibre smaller than n makes the bound strict. */
  lemma FibreBoundStrict<X, Y>(f: map<X, Y>, ys: set<Y>, n: nat, y: Y)
    requires (forall x <- f :: f[x] in ys) && y in ys
    requires forall z <- ys :: |Fibre(f, z)| <= n
    requires |Fibre(f, y)| < n
    ensures |f| < n * |ys|
  {
    FibreStep(f, ys, n, y);
  }

  lemma FibreStep<X, Y>(f: map<X, Y>, ys: set<Y>, n: nat, y: Y)
    requires (forall x <- f :: f[x] in ys) && y in ys
    requires forall z <- ys :: |Fibre(f, z)| <= n
    ensures |f| <= n * |ys| - n + |Fibre(f, y)|
    decreases ys, 0
  {
    var rest := map x | x in f && f[x] != y :: f[x];
    forall z <- ys - {y}
      ensures |Fibre(rest, z)| <= n
    {
      assert Fibre(rest, z) == Fibre(f, z);
    }
    FibreBound(rest, ys - {y}, n);
    assert f.Keys == rest.Keys + Fibre(f, y);
    assert |f.Keys| == |rest.Keys| + |Fibre(f, y)|;
    assert |ys| == |ys - {y}| + 1;
    Distribute(n, |ys - {y}|);
  }

  lemma Distribute(n: int, m: int)
    ensures n * (m + 1) == n * m + n
  {
  }

  /** A list without repetition is as long as the set it lists. */
  lemma {:induction false} ListsSize<T(!new)>(s: seq<T>, xs: set<T>)
    requires Lists(s, xs)
    ensures |s| == |xs|
  {
    if s == [] {
      assert xs == {};
    } else {
      assert s[0] in s && s == [s[0]] + s[1..];
      assert Lists(s[1..], xs - {s[0]});
      ListsSize(s[1..], xs - {s[0]});
    }
  }

  lemma DistinctTail<T>(s: seq<T>)
    requires Distinct(s) && s != []
    ensures Distinct(s[1..]) && s[0] !in s[1..] && s == [s[0]] + s[1..]
  {
  }
}
