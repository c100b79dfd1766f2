/** Finite sums: over a set of keys and over a multiset, the two shapes in which the model adds up
    balances, edge weights, reservations and values in flight. */
module Sums {

  /** The sum of `f` over the finite set `s`; the element taken first does not matter (`SumRemove`). */
  ghost function Sum<T(!new)>(s: set<T>, f: T -> int): int
  {
    if s == {} then 0 else var x :| x in s; f(x) + Sum(s - {x}, f)
  }

  lemma {:induction false} SumRemove<T(!new)>(s: set<T>, f: T -> int, x: T)
    requires x in s
    ensures Sum(s, f) == f(x) + Sum(s - {x}, f)
    decreases |s|
  {
    var y :| y in s && Sum(s, f) == f(y) + Sum(s - {y}, f);
    if y != x {
      SumRemove(s - {y}, f, x);
      SumRemove(s - {x}, f, y);
      assert s - {y} - {x} == s - {x} - {y};
    }
  }

  lemma {:induction false} SumCongruent<T(!new)>(s: set<T>, f: T -> int, g: T -> int)
    requires forall x :: x in s ==> f(x) == g(x)
    ensures Sum(s, f) == Sum(s, g)
    decreases |s|
  {
    if s != {} {
      var x :| x in s;
      SumRemove(s, f, x);
      SumRemove(s, g, x);
      SumCongruent(s - {x}, f, g);
    }
  }

  /** Changing the summand at one element moves the sum by the difference there. */
  lemma SumUpdate<T(!new)>(s: set<T>, f: T -> int, g: T -> int, x: T)
    requires x in s
    requires forall y :: y in s && y != x ==> f(y) == g(y)
    ensures Sum(s, g) == Sum(s, f) + g(x) - f(x)
  {
    SumRemove(s, f, x);
    SumRemove(s, g, x);
    SumCongruent(s - {x}, f, g);
  }

  lemma {:induction false} SumSplit<T(!new)>(s: set<T>, t: set<T>, f: T -> int)
    requires t <= s
    ensures Sum(s, f) == Sum(t, f) + Sum(s - t, f)
    decreases |t|
  {
    if t == {} {
      assert s - t == s;
    } else {
      var x :| x in t;
      SumRemove(s, f, x);
      SumRemove(t, f, x);
      SumSplit(s - {x}, t - {x}, f);
      assert s - {x} - (t - {x}) == s - t;
    }
  }

  lemma {:induction false} SumPlus<T(!new)>(s: set<T>, f: T -> int, g: T -> int, h: T -> int)
    requires forall x :: x in s ==> h(x) == f(x) + g(x)
    ensures Sum(s, h) == Sum(s, f) + Sum(s, g)
    decreases |s|
  {
    if s != {} {
      var x :| x in s;
      SumRemove(s, f, x);
      SumRemove(s, g, x);
      SumRemove(s, h, x);
      SumPlus(s - {x}, f, g, h);
    }
  }

  lemma {:induction false} SumScaled<T(!new)>(s: set<T>, f: T -> int, c: int)
    requires forall x :: x in s ==> f(x) == c
    ensures Sum(s, f) == c * |s|
    decreases |s|
  {
    if s != {} {
      var x :| x in s;
      SumRemove(s, f, x);
      SumScaled(s - {x}, f, c);
    }
  }

  lemma {:induction false} SumNonNegative<T(!new)>(s: set<T>, f: T -> int)
    requires forall x :: x in s ==> f(x) >= 0
    ensures Sum(s, f) >= 0
    ensures forall x :: x in s ==> f(x) <= Sum(s, f)
    decreases |s|
  {
    forall x | x in s
      ensures f(x) <= Sum(s, f)
    {
      SumRemove(s, f, x);
      SumNonNegative(s - {x}, f);
    }
    if s != {} {
      var x :| x in s;
      SumRemove(s, f, x);
    }
  }

  /** The sum of `f` over a multiset, each occurrence counted. */
  ghost function Total<T(!new)>(m: multiset<T>, f: T -> int): int
  {
    if m == multiset{} then 0 else var x :| x in m; f(x) + Total(m - multiset{x}, f)
  }

  lemma {:induction false} TotalRemove<T(!new)>(m: multiset<T>, f: T -> int, x: T)
    requires x in m
    ensures Total(m, f) == f(x) + Total(m - multiset{x}, f)
    decreases |m|
  {
    var y :| y in m && Total(m, f) == f(y) + Total(m - multiset{y}, f);
    if y != x {
      TotalRemove(m - multiset{y}, f, x);
      TotalRemove(m - multiset{x}, f, y);
      assert m - multiset{y} - multiset{x} == m - multiset{x} - multiset{y};
    }
  }

  lemma TotalAdd<T(!new)>(m: multiset<T>, f: T -> int, x: T)
    ensures Total(m + multiset{x}, f) == Total(m, f) + f(x)
  {
    TotalRemove(m + multiset{x}, f, x);
    assert m + multiset{x} - multiset{x} == m;
  }

  lemma {:induction false} TotalUnion<T(!new)>(m: multiset<T>, n: multiset<T>, f: T -> int)
    ensures Total(m + n, f) == Total(m, f) + Total(n, f)
    decreases |n|
  {
    if n == multiset{} {
      assert m + n == m;
    } else {
      var x :| x in n;
      TotalRemove(n, f, x);
      TotalUnion(m, n - multiset{x}, f);
      TotalAdd(m + (n - multiset{x}), f, x);
      assert m + (n - multiset{x}) + multiset{x} == m + n;
    }
  }

  lemma {:induction false} TotalNonNegative<T(!new)>(m: multiset<T>, f: T -> int)
    requires forall x :: x in m ==> f(x) >= 0
    ensures Total(m, f) >= 0
    decreases |m|
  {
    if m != multiset{} {
      var x :| x in m;
      TotalRemove(m, f, x);
      TotalNonNegative(m - multiset{x}, f);
    }
  }

  // ---------------------------------------------------------------------------------------------
  // Counting
  // ---------------------------------------------------------------------------------------------

  lemma {:induction false} SubsetCount<T>(s: set<T>, t: set<T>)
    requires s <= t
    ensures |s| <= |t|
    ensures |s| == |t| ==> s == t
    decreases |s|
  {
    if s != {} {
      var x :| x in s;
      SubsetCount(s - {x}, t - {x});
      assert s == s - {x} + {x} && t == t - {x} + {x};
    }
  }
}
