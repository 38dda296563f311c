/** Small vocabulary shared by the modules: options, list primitives with the meaning Redis
    gives them, sums over a list, powers of two and the millisecond clock. */
module Basics {

  datatype Option<+T> = None | Some(value: T)

  type Vector = seq<real>

  /** The elements of a list, as a set. */
  function Elems<T(!new)>(xs: seq<T>): set<T> {
    set x | x in xs
  }

  lemma SomeElem<T(!new)>(xs: seq<T>)
    ensures xs != [] ==> exists x :: x in xs
  {
    if xs != [] {
      assert xs[0] in xs;
    }
  }

  ghost predicate Distinct<T(!new)>(xs: seq<T>) {
    forall i, j :: 0 <= i < j < |xs| ==> xs[i] != xs[j]
  }

  function Reverse<T>(xs: seq<T>): seq<T> {
    if xs == [] then [] else Reverse(xs[1..]) + [xs[0]]
  }

  lemma {:induction false} ReverseElems<T>(xs: seq<T>)
    ensures |Reverse(xs)| == |xs|
    ensures multiset(Reverse(xs)) == multiset(xs)
  {
    if xs != [] {
      ReverseElems(xs[1..]);
      assert xs == [xs[0]] + xs[1..];
    }
  }

  lemma {:induction false} ReverseConcat<T>(xs: seq<T>, ys: seq<T>)
    ensures Reverse(xs + ys) == Reverse(ys) + Reverse(xs)
  {
    if xs == [] {
      assert xs + ys == ys;
    } else {
      assert (xs + ys)[1..] == xs[1..] + ys;
      ReverseConcat(xs[1..], ys);
    }
  }

  lemma {:induction false} ReverseTwice<T>(xs: seq<T>)
    ensures Reverse(Reverse(xs)) == xs
  {
    if xs != [] {
      ReverseConcat(Reverse(xs[1..]), [xs[0]]);
      ReverseTwice(xs[1..]);
    }
  }

  /** A list without duplicates holds each of its elements exactly once. */
  lemma {:induction false} DistinctCounts<T(!new)>(xs: seq<T>, x: T)
    requires Distinct(xs)
    ensures multiset(xs)[x] == if x in xs then 1 else 0
  {
    if xs != [] {
      assert xs == [xs[0]] + xs[1..];
      DistinctCounts(xs[1..], x);
    }
  }

  lemma {:induction false} ElemsCard<T(!new)>(xs: seq<T>)
    ensures |Elems(xs)| <= |xs|
    ensures Distinct(xs) ==> |Elems(xs)| == |xs|
  {
    if xs != [] {
      ElemsCard(xs[1..]);
      assert Elems(xs) == {xs[0]} + Elems(xs[1..]);
    }
  }

  /** LREM key 1 x: drop the occurrence nearest the head. */
  function RemoveFirst<T(==)>(xs: seq<T>, x: T): (r: seq<T>)
    ensures multiset(r) == multiset(xs)[x := if x in xs then multiset(xs)[x] - 1 else 0]
  {
    if xs == [] then []
    else
      assert xs == [xs[0]] + xs[1..];
      if xs[0] == x then xs[1..] else [xs[0]] + RemoveFirst(xs[1..], x)
  }

  /** LREM key 0 x: drop every occurrence. */
  function RemoveAll<T(==)>(xs: seq<T>, x: T): (r: seq<T>)
    ensures multiset(r) == multiset(xs)[x := 0]
  {
    if xs == [] then []
    else
      assert xs == [xs[0]] + xs[1..];
      if xs[0] == x then RemoveAll(xs[1..], x) else [xs[0]] + RemoveAll(xs[1..], x)
  }

  function Flatten<T>(xss: seq<seq<T>>): seq<T> {
    if xss == [] then [] else xss[0] + Flatten(xss[1..])
  }

  lemma {:induction false} FlattenSnoc<T>(xss: seq<seq<T>>, xs: seq<T>)
    ensures Flatten(xss + [xs]) == Flatten(xss) + xs
  {
    if xss == [] {
      assert xss + [xs] == [xs];
    } else {
      assert (xss + [xs])[1..] == xss[1..] + [xs];
      FlattenSnoc(xss[1..], xs);
    }
  }

  ghost function Sum<T(!new)>(xs: seq<T>, f: T -> int): int {
    if xs == [] then 0 else f(xs[0]) + Sum(xs[1..], f)
  }

  lemma {:induction false} SumBounded<T(!new)>(xs: seq<T>, f: T -> int, g: T -> int)
    requires forall x :: x in xs ==> f(x) <= g(x)
    ensures Sum(xs, f) <= Sum(xs, g)
    ensures (exists x :: x in xs && f(x) < g(x)) ==> Sum(xs, f) < Sum(xs, g)
  {
    if xs != [] {
      assert forall x :: x in xs ==> x == xs[0] || x in xs[1..];
      SumBounded(xs[1..], f, g);
    }
  }

  /** Two functions that differ at one element of a duplicate-free list. */
  lemma {:induction false} SumDiffersAt<T(!new)>(xs: seq<T>, f: T -> int, g: T -> int, y: T)
    requires Distinct(xs) && y in xs
    requires forall x :: x in xs && x != y ==> f(x) == g(x)
    ensures Sum(xs, g) - Sum(xs, f) == g(y) - f(y)
  {
    if xs[0] == y {
      forall x | x in xs[1..] ensures f(x) == g(x) {}
      SumBounded(xs[1..], f, g);
      SumBounded(xs[1..], g, f);
    } else {
      SumDiffersAt(xs[1..], f, g, y);
    }
  }

  lemma {:induction false} SumConstant<T(!new)>(xs: seq<T>, f: T -> int, c: int)
    requires forall x :: x in xs ==> f(x) == c
    ensures Sum(xs, f) == |xs| * c
  {
    if xs != [] {
      SumConstant(xs[1..], f, c);
      calc {
        Sum(xs, f);
        c + (|xs| - 1) * c;
        |xs| * c;
      }
    }
  }

  function Pow2(n: nat): (r: nat)
    ensures r >= 1
  {
    if n == 0 then 1 else 2 * Pow2(n - 1)
  }

  /** time.Time.UnixMilli of a clock reading in nanoseconds: whole milliseconds, rounded down. */
  function Milli(ns: int): int {
    ns / 1_000_000
  }
}
