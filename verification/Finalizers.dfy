/** The list of finalizers both kinds of objects carry. */
module Finalizers {
  import opened Prelude

  /** The order of strings. */
  predicate Before(a: string, b: string) {
    b != [] && (a == [] || a[0] < b[0] || (a[0] == b[0] && Before(a[1..], b[1..])))
  }

  lemma {:induction false} OneIsBefore(a: string, b: string)
    ensures a == b || Before(a, b) || Before(b, a)
    ensures !(Before(a, b) && Before(b, a))
    ensures !Before(a, a)
  {
    if a != [] && b != [] {
      OneIsBefore(a[1..], b[1..]);
      OneIsBefore(a[1..], a[1..]);
      assert a == [a[0]] + a[1..] && b == [b[0]] + b[1..];
    } else if a != [] {
      OneIsBefore(a[1..], a[1..]);
    }
  }

  lemma {:induction false} BeforeGoesOn(a: string, b: string, c: string)
    requires Before(a, b) && Before(b, c)
    ensures Before(a, c)
  {
    if a != [] {
      if a[0] == b[0] == c[0] {
        BeforeGoesOn(a[1..], b[1..], c[1..]);
      }
    }
  }

  /** The first place where two strings differ decides, and a string comes before
      those it begins. */
  lemma {:induction false} FirstDifferenceDecides(p: string, x: char, y: char, s: string, t: string)
    requires x < y
    ensures Before(p + [x] + s, p + [y] + t) && Before(p, p + [x] + s)
  {
    if p == [] {
      assert p + [x] + s == [x] + s && p + [y] + t == [y] + t;
    } else {
      FirstDifferenceDecides(p[1..], x, y, s, t);
      assert (p + [x] + s)[1..] == p[1..] + [x] + s && (p + [y] + t)[1..] == p[1..] + [y] + t;
    }
  }

  ghost predicate Ascending(list: seq<string>) {
    forall i, j | 0 <= i < j < |list| :: Before(list[i], list[j])
  }

  /** `x` at its place in an ascending list. */
  function Placed(list: seq<string>, x: string): seq<string> {
    if list == [] then [x]
    else if Before(x, list[0]) then [x] + list
    else [list[0]] + Placed(list[1..], x)
  }

  lemma {:induction false} PlacedIsThere(list: seq<string>, x: string)
    ensures ToSet(Placed(list, x)) == ToSet(list) + {x}
  {
    if list != [] && !Before(x, list[0]) {
      PlacedIsThere(list[1..], x);
      assert list == [list[0]] + list[1..];
      assert ToSet(list) == {list[0]} + ToSet(list[1..]);
      assert ToSet(Placed(list, x)) == {list[0]} + ToSet(Placed(list[1..], x));
    }
  }

  lemma {:induction false} PlacedAscends(list: seq<string>, x: string)
    requires Ascending(list) && x !in list
    ensures Ascending(Placed(list, x))
  {
    if list == [] {
    } else if Before(x, list[0]) {
      forall j | 1 <= j < |list| ensures Before(x, list[j]) {
        BeforeGoesOn(x, list[0], list[j]);
      }
    } else {
      OneIsBefore(x, list[0]);
      var rest := Placed(list[1..], x);
      PlacedAscends(list[1..], x);
      PlacedIsThere(list[1..], x);
      forall j | 0 <= j < |rest| ensures Before(list[0], rest[j]) {
        assert rest[j] in ToSet(rest);
      }
    }
  }

  /** A set of strings has one ascending list, so whatever order a map yields its
      keys in, the stored finalizers do not depend on it. */
  lemma {:induction false} OneAscendingList(a: seq<string>, b: seq<string>)
    requires Ascending(a) && Ascending(b) && ToSet(a) == ToSet(b)
    ensures a == b
  {
    OnlyEmptyIsEmpty(a);
    OnlyEmptyIsEmpty(b);
    if a != [] {
      SameLeast(a, b);
      RestOf(a);
      RestOf(b);
      OneAscendingList(a[1..], b[1..]);
    }
  }

  lemma OnlyEmptyIsEmpty(a: seq<string>)
    ensures a == [] <==> ToSet(a) == {}
  {
    if a != [] {
      assert a[0] in ToSet(a);
    }
  }

  lemma SameLeast(a: seq<string>, b: seq<string>)
    requires Ascending(a) && Ascending(b) && ToSet(a) == ToSet(b) && a != [] && b != []
    ensures a[0] == b[0]
  {
    assert a[0] in ToSet(b) && b[0] in ToSet(a);
    var i :| 0 <= i < |b| && b[i] == a[0];
    var j :| 0 <= j < |a| && a[j] == b[0];
    OneIsBefore(a[0], b[0]);
  }

  lemma RestOf(a: seq<string>)
    requires Ascending(a) && a != []
    ensures ToSet(a[1..]) == ToSet(a) - {a[0]}
  {
    assert a == [a[0]] + a[1..];
    OneIsBefore(a[0], a[0]);
    forall i | 1 <= i < |a| ensures a[i] != a[0] {
      OneIsBefore(a[0], a[i]);
    }
  }

  /** The elements of a set in ascending order. */
  method List(s: set<string>) returns (list: seq<string>)
    ensures ToSet(list) == s && Ascending(list)
  {
    list := [];
    var rest := s;
    while rest != {}
      invariant rest <= s && ToSet(list) == s - rest && Ascending(list)
    {
      var x :| x in rest;
      PlacedIsThere(list, x);
      assert x !in ToSet(list);
      PlacedAscends(list, x);
      list := Placed(list, x);
      rest := rest - {x};
    }
  }

  /** Inserts the finalizer: none is lost, none is there twice, and they are stored in order. */
  method AddFinalizer(list: seq<string>, value: string) returns (extended: seq<string>)
    ensures ToSet(extended) == ToSet(list) + {value} && Ascending(extended)
    ensures Distinct(extended)
    ensures Ascending(list) && value in list ==> extended == list
  {
    var finalizers: set<string> := {};
    for i := 0 to |list|
      invariant finalizers == ToSet(list[..i])
    {
      finalizers := finalizers + {list[i]};
      ToSetTake(list, i);
    }
    ToSetAll(list);
    finalizers := finalizers + {value};
    extended := List(finalizers);
    AscendingIsDistinct(extended);
    if Ascending(list) && value in list {
      OneAscendingList(extended, list);
    }
  }

  lemma AscendingIsDistinct(list: seq<string>)
    requires Ascending(list)
    ensures Distinct(list)
  {
    forall i, j | 0 <= i < j < |list| ensures list[i] != list[j] {
      OneIsBefore(list[i], list[i]);
    }
  }
}
