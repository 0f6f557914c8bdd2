/** Sequences of equal or different elements, sizes of sets, and counting. */
module Sequences {
  function Filled<T>(n: nat, x: T): (s: seq<T>)
    ensures |s| == n && forall i :: 0 <= i < n ==> s[i] == x
  {
    if n == 0 then [] else Filled(n - 1, x) + [x]
  }

  ghost predicate NoDuplicates<T>(s: seq<T>) {
    forall i, j :: 0 <= i < j < |s| ==> s[i] != s[j]
  }

  function One(b: bool): int {
    if b then 1 else 0
  }

  function Below(n: nat): (s: set<int>)
    ensures |s| == n && forall i :: i in s <==> 0 <= i < n
  {
    if n == 0 then {} else Below(n - 1) + {n - 1}
  }

  lemma SubsetIsSmaller<T>(a: set<T>, b: set<T>)
    requires a <= b
    ensures |a| <= |b|
  {
    assert b == a + (b - a);
  }

  /** A set fits into another one if different elements have different places there. */
  lemma {:induction false} PlacesSuffice<T, U>(s: set<T>, place: T -> U, u: set<U>)
    requires (forall x :: x in s ==> place(x) in u) && forall x, y :: x in s && y in s && place(x) == place(y) ==> x == y
    ensures |s| <= |u|
    decreases |s|
  {
    if x :| x in s {
      PlacesSuffice(s - {x}, place, u - {place(x)});
    }
  }
}
