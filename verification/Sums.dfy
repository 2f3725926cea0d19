/** Sums over sequences, and how they change with one element or with the summand. */
module Sums {

  function Sum<T>(f: T -> nat, s: seq<T>): nat {
    if s == [] then 0 else Sum(f, s[..|s| - 1]) + f(s[|s| - 1])
  }

  lemma {:induction false} SumAt<T>(f: T -> nat, s: seq<T>, i: nat, x: T)
    requires i < |s|
    ensures Sum(f, s[i := x]) == Sum(f, s) - f(s[i]) + f(x)
    decreases |s|
  {
    var n := |s| - 1;
    if i == n {
      assert s[i := x][..n] == s[..n];
    } else {
      SumAt(f, s[..n], i, x);
      assert s[i := x][..n] == s[..n][i := x];
    }
  }

  lemma {:induction false} SumZero<T>(f: T -> nat, s: seq<T>)
    ensures Sum(f, s) == 0 <==> forall k :: 0 <= k < |s| ==> f(s[k]) == 0
    decreases |s|
  {
    if s != [] {
      SumZero(f, s[..|s| - 1]);
    }
  }

  lemma {:induction false} SumUniform<T>(f: T -> nat, s: seq<T>, c: nat)
    requires forall k :: 0 <= k < |s| ==> f(s[k]) == c
    ensures Sum(f, s) == |s| * c
    decreases |s|
  {
    if s != [] {
      SumUniform(f, s[..|s| - 1], c);
    }
  }

  lemma {:induction false} SumAtMost<T>(f: T -> nat, s: seq<T>, c: nat, g: T -> nat)
    requires forall k :: 0 <= k < |s| ==> f(s[k]) <= c * g(s[k])
    ensures Sum(f, s) <= c * Sum(g, s)
    decreases |s|
  {
    if s != [] {
      SumAtMost(f, s[..|s| - 1], c, g);
    }
  }

  lemma {:induction false} SumAdds<T>(f: T -> nat, g: T -> nat, h: T -> nat, s: seq<T>)
    requires forall k :: 0 <= k < |s| ==> f(s[k]) == g(s[k]) + h(s[k])
    ensures Sum(f, s) == Sum(g, s) + Sum(h, s)
    decreases |s|
  {
    if s != [] {
      SumAdds(f, g, h, s[..|s| - 1]);
    }
  }

  lemma {:induction false} SumSame<T>(f: T -> nat, g: T -> nat, s: seq<T>)
    requires forall x :: x in s ==> f(x) == g(x)
    ensures Sum(f, s) == Sum(g, s)
    decreases |s|
  {
    if s != [] {
      SumSame(f, g, s[..|s| - 1]);
      assert s[|s| - 1] in s;
    }
  }

  predicate Distinct<T(==)>(s: seq<T>) {
    forall i, j :: 0 <= i < j < |s| ==> s[i] != s[j]
  }

  /** The summands differ at one element, which occurs once. */
  lemma {:induction false} SumDiffers<T>(f: T -> nat, g: T -> nat, s: seq<T>, o: T)
    requires Distinct(s) && o in s
    requires forall x :: x in s && x != o ==> f(x) == g(x)
    ensures Sum(g, s) == Sum(f, s) - f(o) + g(o)
    decreases |s|
  {
    var n := |s| - 1;
    assert s[n] in s;
    if s[n] == o {
      assert o !in s[..n];
      SumSame(f, g, s[..n]);
    } else {
      assert o in s[..n];
      SumDiffers(f, g, s[..n], o);
    }
  }
}
