/** Name order. The core sorts copies of its name-keyed lists; with distinct
    names there is only one sorted arrangement, whatever algorithm finds it. */
module Sorting {

  /** Lexicographic order on strings. */
  predicate LessOrEqual(a: string, b: string) {
    a == [] || (b != [] && (a[0] < b[0] || (a[0] == b[0] && LessOrEqual(a[1..], b[1..]))))
  }

  lemma Antisymmetric(a: string, b: string)
    requires LessOrEqual(a, b) && LessOrEqual(b, a)
    ensures a == b
  {
    if a != [] {
      Antisymmetric(a[1..], b[1..]);
      assert a == [a[0]] + a[1..] && b == [b[0]] + b[1..];
    }
  }

  lemma {:induction a, b} Total(a: string, b: string)
    ensures LessOrEqual(a, b) || LessOrEqual(b, a)
  {
  }

  lemma Transitive(a: string, b: string, c: string)
    requires LessOrEqual(a, b) && LessOrEqual(b, c)
    ensures LessOrEqual(a, c)
  {
    if a != [] && a[0] == b[0] && b[0] == c[0] {
      Transitive(a[1..], b[1..], c[1..]);
    }
  }

  predicate Sorted<T(!new)>(items: seq<T>, nameOf: T -> string) {
    forall i, j :: 0 <= i < j < |items| ==> LessOrEqual(nameOf(items[i]), nameOf(items[j]))
  }

  predicate Distinct<T(!new)>(items: seq<T>, nameOf: T -> string) {
    forall i, j :: 0 <= i < j < |items| ==> nameOf(items[i]) != nameOf(items[j])
  }

  function Insert<T(!new)>(x: T, items: seq<T>, nameOf: T -> string): (r: seq<T>)
    requires Sorted(items, nameOf)
    ensures Sorted(r, nameOf) && multiset(r) == multiset(items) + multiset{x}
  {
    if items == [] then [x]
    else if LessOrEqual(nameOf(x), nameOf(items[0])) then
      InsertInFront(x, items, nameOf);
      [x] + items
    else
      Total(nameOf(x), nameOf(items[0]));
      var rest := Insert(x, items[1..], nameOf);
      assert items == [items[0]] + items[1..];
      StaysInFront(items[0], x, items[1..], rest, nameOf);
      [items[0]] + rest
  }

  lemma InsertInFront<T(!new)>(x: T, items: seq<T>, nameOf: T -> string)
    requires Sorted(items, nameOf) && items != [] && LessOrEqual(nameOf(x), nameOf(items[0]))
    ensures Sorted([x] + items, nameOf)
  {
    forall j | 0 < j < |items|
      ensures LessOrEqual(nameOf(x), nameOf(items[j]))
    {
      Transitive(nameOf(x), nameOf(items[0]), nameOf(items[j]));
    }
  }

  lemma StaysInFront<T(!new)>(h: T, x: T, tail: seq<T>, rest: seq<T>, nameOf: T -> string)
    requires Sorted([h] + tail, nameOf) && Sorted(rest, nameOf)
    requires multiset(rest) == multiset(tail) + multiset{x} && LessOrEqual(nameOf(h), nameOf(x))
    ensures Sorted([h] + rest, nameOf)
  {
    forall j | 0 <= j < |rest|
      ensures LessOrEqual(nameOf(h), nameOf(rest[j]))
    {
      assert rest[j] in multiset(rest);
      if rest[j] != x {
        assert rest[j] in multiset(tail);
        var i :| 0 <= i < |tail| && tail[i] == rest[j];
        var all := [h] + tail;
        assert LessOrEqual(nameOf(all[0]), nameOf(all[i + 1]));
      }
    }
  }

  /** A copy in name order. */
  function SortByName<T(!new)>(items: seq<T>, nameOf: T -> string): (r: seq<T>)
    ensures Sorted(r, nameOf) && multiset(r) == multiset(items)
  {
    if items == [] then []
    else
      assert items == [items[0]] + items[1..];
      Insert(items[0], SortByName(items[1..], nameOf), nameOf)
  }

  lemma FirstsAgree<T(!new)>(a: seq<T>, b: seq<T>, nameOf: T -> string)
    requires Sorted(a, nameOf) && Sorted(b, nameOf) && multiset(a) == multiset(b)
    requires Distinct(a, nameOf) && a != [] && b != []
    ensures a[0] == b[0]
  {
    hide LessOrEqual;
    assert a[0] in multiset(b) && b[0] in multiset(a);
    var i :| 0 <= i < |b| && b[i] == a[0];
    var j :| 0 <= j < |a| && a[j] == b[0];
    if i != 0 && j != 0 {
      Antisymmetric(nameOf(a[0]), nameOf(b[0]));
    }
  }

  /** A name-distinct list has exactly one sorted arrangement. */
  lemma {:induction false} SortedArrangementIsUnique<T(!new)>(a: seq<T>, b: seq<T>, nameOf: T -> string)
    requires Sorted(a, nameOf) && Sorted(b, nameOf) && multiset(a) == multiset(b)
    requires Distinct(a, nameOf)
    ensures a == b
  {
    hide LessOrEqual;
    assert |a| == |multiset(a)| == |multiset(b)| == |b|;
    if a != [] {
      FirstsAgree(a, b, nameOf);
      assert a == [a[0]] + a[1..] && b == [b[0]] + b[1..];
      assert multiset(a[1..]) == multiset(a) - multiset{a[0]};
      assert multiset(b[1..]) == multiset(b) - multiset{b[0]};
      SortedArrangementIsUnique(a[1..], b[1..], nameOf);
    }
  }

  lemma DistinctIsAboutTheItems<T(!new)>(a: seq<T>, b: seq<T>, nameOf: T -> string)
    requires multiset(a) == multiset(b) && Distinct(a, nameOf)
    ensures Distinct(b, nameOf)
  {
    forall i, j | 0 <= i < j < |b|
      ensures nameOf(b[i]) != nameOf(b[j])
    {
      if nameOf(b[i]) == nameOf(b[j]) {
        assert b[i] in multiset(a) && b[j] in multiset(a);
        var k :| 0 <= k < |a| && a[k] == b[i];
        var l :| 0 <= l < |a| && a[l] == b[j];
        assert k == l;
        assert b[i] == b[j];
        TwiceInList(b, i, j);
        AtMostOnce(a, k, nameOf);
      }
    }
  }

  lemma TwiceInList<T>(b: seq<T>, i: nat, j: nat)
    requires i < j < |b| && b[i] == b[j]
    ensures multiset(b)[b[i]] >= 2
  {
    assert b == b[..j] + [b[j]] + b[j + 1..];
    assert b[i] in b[..j];
    assert multiset(b) == multiset(b[..j]) + multiset{b[j]} + multiset(b[j + 1..]);
  }

  lemma AtMostOnce<T(!new)>(a: seq<T>, k: nat, nameOf: T -> string)
    requires k < |a| && Distinct(a, nameOf)
    ensures multiset(a)[a[k]] == 1
  {
    assert a == a[..k] + [a[k]] + a[k + 1..];
    assert a[k] !in a[..k] && a[k] !in a[k + 1..];
    assert multiset(a) == multiset(a[..k]) + multiset{a[k]} + multiset(a[k + 1..]);
  }

  /** Reordering a name-distinct list does not change its sorted copy. */
  lemma SortingForgetsOrder<T(!new)>(a: seq<T>, b: seq<T>, nameOf: T -> string)
    requires multiset(a) == multiset(b) && Distinct(a, nameOf)
    ensures SortByName(a, nameOf) == SortByName(b, nameOf)
  {
    DistinctIsAboutTheItems(a, SortByName(a, nameOf), nameOf);
    SortedArrangementIsUnique(SortByName(a, nameOf), SortByName(b, nameOf), nameOf);
  }

  function Itself(s: string): string {
    s
  }
}
