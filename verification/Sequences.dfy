/** Facts about sequences that several protocols share. */
module Sequences {

  function Last<T>(s: seq<T>): T
    requires s != []
  {
    s[|s| - 1]
  }

  /** All but the last element. */
  function Init<T>(s: seq<T>): seq<T>
    requires s != []
  {
    s[..|s| - 1]
  }

  ghost predicate Distinct<T(!new)>(s: seq<T>) {
    forall i, j :: 0 <= i < j < |s| ==> s[i] != s[j]
  }

  /** `b` comes right after `a` in `s`. */
  ghost predicate Adjacent<T(!new)>(s: seq<T>, a: T, b: T) {
    exists k :: 0 < k < |s| && s[k - 1] == a && s[k] == b
  }

  /** `s` without any occurrence of `x`, in the same order. */
  function Without<T(==, !new)>(s: seq<T>, x: T): (r: seq<T>)
    ensures x !in r
    ensures forall y :: y != x ==> (y in r <==> y in s)
  {
    if s == [] then []
    else if s[0] == x then Without(s[1..], x)
    else [s[0]] + Without(s[1..], x)
  }

  lemma {:induction false} WithoutAppend<T(!new)>(s: seq<T>, y: T, x: T)
    ensures Without(s + [y], x) == Without(s, x) + if y == x then [] else [y]
  {
    if s != [] {
      WithoutAppend(s[1..], y, x);
      assert (s + [y])[1..] == s[1..] + [y];
    }
  }

  lemma AdjacentAppend<T(!new)>(s: seq<T>, a: T, b: T, y: T)
    requires Adjacent(s, a, b)
    ensures Adjacent(s + [y], a, b)
  {
    var k :| 0 < k < |s| && s[k - 1] == a && s[k] == b;
    assert (s + [y])[k - 1] == a && (s + [y])[k] == b;
  }

  lemma AdjacentDropFirst<T(!new)>(s: seq<T>, a: T, b: T)
    requires Adjacent(s, a, b) && s[0] != a
    ensures Adjacent(s[1..], a, b)
  {
    var k :| 0 < k < |s| && s[k - 1] == a && s[k] == b;
    assert s[1..][k - 2] == a && s[1..][k - 1] == b;
  }

  lemma AdjacentLast<T(!new)>(s: seq<T>, y: T)
    requires s != []
    ensures Adjacent(s + [y], s[|s| - 1], y)
  {
    assert (s + [y])[|s| - 1] == s[|s| - 1] && (s + [y])[|s|] == y;
  }

  /** In a sequence without repetition an element has one successor and one predecessor. */
  lemma AdjacentUnique<T(!new)>(s: seq<T>, a: T, b: T, c: T, d: T)
    requires Distinct(s) && Adjacent(s, a, b) && Adjacent(s, c, d)
    ensures a == c <==> b == d
    ensures a != b
  {
    var k :| 0 < k < |s| && s[k - 1] == a && s[k] == b;
    var m :| 0 < m < |s| && s[m - 1] == c && s[m] == d;
    if k < m {
      assert s[k - 1] != s[m - 1] && s[k] != s[m];
    } else if m < k {
      assert s[m - 1] != s[k - 1] && s[m] != s[k];
    }
  }

  /** What the elements of `s` cost together. */
  function Sum<T>(s: seq<T>, cost: T -> nat): nat {
    if s == [] then 0 else Sum(Init(s), cost) + cost(Last(s))
  }

  lemma {:induction false} SumUpdate<T>(s: seq<T>, cost: T -> nat, i: nat, x: T)
    requires i < |s|
    ensures Sum(s[i := x], cost) + cost(s[i]) == Sum(s, cost) + cost(x)
    ensures cost(s[i]) <= Sum(s, cost)
  {
    if i == |s| - 1 {
      assert Init(s[i := x]) == Init(s);
    } else {
      SumUpdate(Init(s), cost, i, x);
      assert Init(s[i := x]) == Init(s)[i := x];
    }
  }
}
