/** Small facts about collections that several modules need. */
module Prelude {

  datatype Option<+T> = None | Some(value: T)

  function ToSet<T(==)>(s: seq<T>): set<T> {
    set x | x in s
  }

  ghost predicate Distinct<T>(s: seq<T>) {
    forall i, j | 0 <= i < j < |s| :: s[i] != s[j]
  }

  lemma ToSetTake<T>(s: seq<T>, i: nat)
    requires i < |s|
    ensures ToSet(s[..i + 1]) == ToSet(s[..i]) + {s[i]}
  {
    assert s[..i + 1] == s[..i] + [s[i]];
  }

  lemma ToSetAll<T>(s: seq<T>)
    ensures ToSet(s[..|s|]) == ToSet(s)
  {
    assert s[..|s|] == s;
  }

  lemma {:induction false} SubsetSize<T>(a: set<T>, b: set<T>)
    requires a <= b
    ensures |a| <= |b|
    decreases a
  {
    if x :| x in a {
      SubsetSize(a - {x}, b - {x});
    }
  }

  lemma SmallerSet<T>(a: set<T>, b: set<T>, x: T)
    requires a <= b && x in b && x !in a
    ensures |a| < |b|
  {
    SubsetSize(a, b - {x});
  }

  /** A reflexive and transitive relation between neighbours holds between all. */
  lemma {:induction false} Chain<T>(r: (T, T) -> bool, xs: seq<T>, i: nat, j: nat)
    requires i <= j < |xs|
    requires forall x :: r(x, x)
    requires forall x, y, z | r(x, y) && r(y, z) :: r(x, z)
    requires forall k | i <= k < j :: r(xs[k], xs[k + 1])
    ensures r(xs[i], xs[j])
    decreases j
  {
    if i < j {
      Chain(r, xs, i, j - 1);
    }
  }
}
