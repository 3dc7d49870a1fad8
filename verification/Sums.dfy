// Totals over sequences, and how they change with one element.
module Sums {
  function Sum<T>(f: T -> nat, s: seq<T>): nat {
    if s == [] then 0 else f(s[0]) + Sum(f, s[1..])
  }

  lemma {:induction false} SumWithout<T>(f: T -> nat, s: seq<T>, i: nat)
    requires i < |s|
    ensures Sum(f, s) == f(s[i]) + Sum(f, s[..i] + s[i + 1..])
  {
    var rest := s[..i] + s[i + 1..];
    if i == 0 {
      assert rest == s[1..];
    } else {
      SumWithout(f, s[1..], i - 1);
      assert rest[0] == s[0] && rest[1..] == s[1..][..i - 1] + s[1..][i..];
    }
  }

  lemma SumUpdate<T>(f: T -> nat, s: seq<T>, i: nat, x: T)
    requires i < |s|
    ensures Sum(f, s[i := x]) + f(s[i]) == Sum(f, s) + f(x)
    ensures f(s[i]) <= Sum(f, s)
  {
    SumWithout(f, s, i);
    SumWithout(f, s[i := x], i);
    assert s[i := x][..i] + s[i := x][i + 1..] == s[..i] + s[i + 1..];
  }

  lemma SumAppend<T>(f: T -> nat, s: seq<T>, x: T)
    ensures Sum(f, s + [x]) == Sum(f, s) + f(x)
  {
    SumWithout(f, s + [x], |s|);
    assert (s + [x])[..|s|] + (s + [x])[|s| + 1..] == s;
  }

  lemma {:induction false} SumIsZero<T>(f: T -> nat, s: seq<T>)
    ensures Sum(f, s) == 0 <==> forall x <- s :: f(x) == 0
  {
    if s == [] {
    } else {
      SumIsZero(f, s[1..]);
      assert s == [s[0]] + s[1..];
    }
  }
}
