/** Name-keyed lists: the edits as values, and the slices they are carried out
    on in place. */
module Lists {
  import opened Quantities
  import opened Definition
  import opened Sorting

  // ----- The edits as values ------------------------------------------------

  /** The position of the first entry with the name, or the length. */
  function IndexOf<T>(items: seq<T>, nameOf: T -> string, name: string): (i: nat)
    ensures i <= |items|
    ensures forall j :: 0 <= j < i ==> nameOf(items[j]) != name
    ensures i < |items| ==> nameOf(items[i]) == name
  {
    if items == [] || nameOf(items[0]) == name then 0 else 1 + IndexOf(items[1..], nameOf, name)
  }

  predicate Has<T>(items: seq<T>, nameOf: T -> string, name: string) {
    IndexOf(items, nameOf, name) < |items|
  }

  /** Replaces the entry with the same name in place, or adds it at the end. */
  function Put<T>(items: seq<T>, nameOf: T -> string, item: T): seq<T> {
    var i := IndexOf(items, nameOf, nameOf(item));
    if i < |items| then items[i := item] else items + [item]
  }

  function Without<T>(items: seq<T>, i: nat): seq<T>
    requires i < |items|
  {
    items[..i] + items[i + 1..]
  }

  function Drop<T>(items: seq<T>, nameOf: T -> string, name: string): Outcome<seq<T>> {
    var i := IndexOf(items, nameOf, name);
    if i < |items| then Ok(Without(items, i)) else Refused([IssueMissing])
  }

  /** Edits the named entry. */
  function Amend<T>(items: seq<T>, nameOf: T -> string, name: string, edit: T -> T): Outcome<seq<T>> {
    var i := IndexOf(items, nameOf, name);
    if i < |items| then Ok(items[i := edit(items[i])]) else Refused([IssueMissing])
  }

  function InsertAt<T>(items: seq<T>, i: nat, item: T): seq<T>
    requires i <= |items|
  {
    items[..i] + [item] + items[i..]
  }

  /** Takes the entry out, then puts it back at the position. */
  function MoveTo<T>(items: seq<T>, from: nat, to: nat): seq<T>
    requires from < |items| && to < |items|
  {
    InsertAt(Without(items, from), to, items[from])
  }

  function Move<T>(items: seq<T>, nameOf: T -> string, name: string, to: int): Outcome<seq<T>> {
    var i := IndexOf(items, nameOf, name);
    if i == |items| then Refused([IssueMissing])
    else if !(0 <= to < |items|) then Refused([IssueInvalid])
    else Ok(MoveTo(items, i, to))
  }

  // ----- What the edits keep ------------------------------------------------

  lemma LookupFindsTheIndex<T>(items: seq<T>, nameOf: T -> string, name: string)
    ensures Lookup(items, nameOf, name)
         == if Has(items, nameOf, name) then Some(items[IndexOf(items, nameOf, name)]) else None
  {
  }

  lemma HasMeansNamed<T>(items: seq<T>, nameOf: T -> string, name: string)
    ensures Has(items, nameOf, name) <==> exists i :: 0 <= i < |items| && nameOf(items[i]) == name
  {
  }

  /** What is put is what its name finds. */
  lemma PutIsFound<T>(items: seq<T>, nameOf: T -> string, item: T)
    ensures Lookup(Put(items, nameOf, item), nameOf, nameOf(item)) == Some(item)
  {
    var i, r := IndexOf(items, nameOf, nameOf(item)), Put(items, nameOf, item);
    var k := IndexOf(r, nameOf, nameOf(item));
    assert nameOf(r[i]) == nameOf(item);
    assert k <= i;
    LookupFindsTheIndex(r, nameOf, nameOf(item));
  }

  /** Every other name finds what it found before. */
  lemma PutLeavesOtherNames<T>(items: seq<T>, nameOf: T -> string, item: T, name: string)
    requires name != nameOf(item)
    ensures Lookup(Put(items, nameOf, item), nameOf, name) == Lookup(items, nameOf, name)
  {
    var i, r := IndexOf(items, nameOf, nameOf(item)), Put(items, nameOf, item);
    LookupFindsTheIndex(items, nameOf, name);
    LookupFindsTheIndex(r, nameOf, name);
    var k, k' := IndexOf(items, nameOf, name), IndexOf(r, nameOf, name);
    assert forall j :: 0 <= j < |items| && j != i ==> r[j] == items[j];
    if k < |items| {
      assert nameOf(r[k]) == name;
    }
    if k' < |r| {
      assert k' < |items| && nameOf(items[k']) == name;
    }
  }

  lemma PutKeepsNamesDistinct<T(!new)>(items: seq<T>, nameOf: T -> string, item: T)
    requires Distinct(items, nameOf)
    ensures Distinct(Put(items, nameOf, item), nameOf)
  {
  }

  lemma WithoutIsOneLess<T>(items: seq<T>, i: nat)
    requires i < |items|
    ensures |Without(items, i)| == |items| - 1
    ensures forall k :: 0 <= k < |items| - 1 ==> Without(items, i)[k] == if k < i then items[k] else items[k + 1]
    ensures multiset(Without(items, i)) == multiset(items) - multiset{items[i]}
  {
    assert items == items[..i] + [items[i]] + items[i + 1..];
  }

  lemma WithoutKeepsNamesDistinct<T(!new)>(items: seq<T>, nameOf: T -> string, i: nat)
    requires i < |items| && Distinct(items, nameOf)
    ensures Distinct(Without(items, i), nameOf)
    ensures forall k :: 0 <= k < |items| - 1 ==> nameOf(Without(items, i)[k]) != nameOf(items[i])
  {
    WithoutIsOneLess(items, i);
    var r := Without(items, i);
    forall j, k | 0 <= j < k < |r|
      ensures nameOf(r[j]) != nameOf(r[k])
    {
      var j', k' := if j < i then j else j + 1, if k < i then k else k + 1;
      assert r[j] == items[j'] && r[k] == items[k'];
    }
    forall k | 0 <= k < |r|
      ensures nameOf(r[k]) != nameOf(items[i])
    {
      var k' := if k < i then k else k + 1;
      assert r[k] == items[k'];
    }
  }

  /** A drop takes out exactly one entry, the named one, and keeps the rest in
      order; with distinct names nothing of that name is left. */
  lemma DropTakesExactlyOne<T(!new)>(items: seq<T>, nameOf: T -> string, name: string)
    requires Drop(items, nameOf, name).Ok?
    ensures var i, r := IndexOf(items, nameOf, name), Drop(items, nameOf, name).value;
            && i < |items| && nameOf(items[i]) == name && |r| == |items| - 1
            && (forall k :: 0 <= k < |r| ==> r[k] == if k < i then items[k] else items[k + 1])
            && multiset(r) == multiset(items) - multiset{items[i]}
            && (Distinct(items, nameOf) ==> Distinct(r, nameOf) && !Has(r, nameOf, name))
  {
    var i := IndexOf(items, nameOf, name);
    WithoutIsOneLess(items, i);
    var r := Without(items, i);
    assert Drop(items, nameOf, name).value == r;
    assert forall k :: 0 <= k < |r| ==> r[k] == if k < i then items[k] else items[k + 1];
    if Distinct(items, nameOf) {
      WithoutKeepsNamesDistinct(items, nameOf, i);
    }
  }

  lemma AmendKeepsNamesDistinct<T(!new)>(items: seq<T>, nameOf: T -> string, name: string, edit: T -> T)
    requires Distinct(items, nameOf) && Amend(items, nameOf, name, edit).Ok?
    requires forall x :: nameOf(edit(x)) == nameOf(x)
    ensures Distinct(Amend(items, nameOf, name, edit).value, nameOf)
  {
  }

  lemma InsertIsOneMore<T>(items: seq<T>, i: nat, x: T)
    requires i <= |items|
    ensures |InsertAt(items, i, x)| == |items| + 1 && InsertAt(items, i, x)[i] == x
    ensures multiset(InsertAt(items, i, x)) == multiset(items) + multiset{x}
    ensures Without(InsertAt(items, i, x), i) == items
  {
    assert items == items[..i] + items[i..];
  }

  lemma PuttingBackRestores<T>(items: seq<T>, i: nat)
    requires i < |items|
    ensures InsertAt(Without(items, i), i, items[i]) == items
  {
  }

  /** A move is a permutation, puts the entry where it was sent, and is undone by
      moving back. */
  lemma MoveIsAPermutationUndoneByMovingBack<T(!new)>(items: seq<T>, from: nat, to: nat)
    requires from < |items| && to < |items|
    ensures var r := MoveTo(items, from, to);
            && |r| == |items| && r[to] == items[from]
            && multiset(r) == multiset(items)
            && MoveTo(r, to, from) == items
  {
    hide Without, InsertAt;
    WithoutIsOneLess(items, from);
    InsertIsOneMore(Without(items, from), to, items[from]);
    PuttingBackRestores(items, from);
  }

  lemma MoveKeepsNamesDistinct<T(!new)>(items: seq<T>, nameOf: T -> string, from: nat, to: nat)
    requires from < |items| && to < |items| && Distinct(items, nameOf)
    ensures Distinct(MoveTo(items, from, to), nameOf)
  {
    MoveIsAPermutationUndoneByMovingBack(items, from, to);
    DistinctIsAboutTheItems(items, MoveTo(items, from, to), nameOf);
  }

  // ----- The slices they run on ---------------------------------------------

  /** A Go slice from the start of its backing array. */
  datatype Slice<T> = Slice(backing: array<T>, len: nat) {
    predicate Valid() {
      len <= backing.Length
    }

    function View(): seq<T>
      requires Valid()
      reads backing
    {
      backing[..len]
    }
  }

  /** A copy sharing nothing with the original. */
  method Clone<T>(s: Slice<T>) returns (r: Slice<T>)
    requires s.Valid()
    ensures r.Valid() && fresh(r.backing) && r.View() == s.View()
  {
    var items := s.View();
    var copied := new T[|items|](i requires 0 <= i < |items| => items[i]);
    r := Slice(copied, |items|);
    assert r.View() == items;
  }

  /** Appends in the spare capacity, or in a larger array when there is none. */
  method Append<T>(s: Slice<T>, x: T) returns (r: Slice<T>)
    requires s.Valid()
    modifies s.backing
    ensures r.Valid() && (r.backing == s.backing || fresh(r.backing))
    ensures r.View() == old(s.View()) + [x]
  {
    if s.len < s.backing.Length {
      s.backing[s.len] := x;
      r := Slice(s.backing, s.len + 1);
    } else {
      var items := s.View();
      var grown := new T[2 * s.len + 1](i requires 0 <= i < 2 * s.len + 1 => if i < |items| then items[i] else x);
      r := Slice(grown, s.len + 1);
      assert r.View() == items + [x];
    }
  }

  /** Shifts the tail down over one entry, in place. */
  method Remove<T>(s: Slice<T>, n: nat) returns (r: Slice<T>)
    requires s.Valid() && n < s.len
    modifies s.backing
    ensures r.Valid() && r.backing == s.backing
    ensures r.View() == Without(old(s.View()), n)
  {
    ghost var before := s.View();
    for i := n to s.len - 1
      invariant forall k :: 0 <= k < n || i <= k < s.len ==> s.backing[k] == before[k]
      invariant forall k :: n <= k < i ==> s.backing[k] == before[k + 1]
    {
      s.backing[i] := s.backing[i + 1];
    }
    r := Slice(s.backing, s.len - 1);
    WithoutIsOneLess(before, n);
    assert forall k :: 0 <= k < r.len ==> r.View()[k] == s.backing[k];
  }

  /** Splices one entry in: the tail is copied out first, because the append
      writes over it. */
  method Insert<T>(s: Slice<T>, n: nat, x: T) returns (r: Slice<T>)
    requires s.Valid() && n <= s.len
    modifies s.backing
    ensures r.Valid() && (r.backing == s.backing || fresh(r.backing))
    ensures r.View() == InsertAt(old(s.View()), n, x)
  {
    ghost var before := s.View();
    var rest := s.backing[n..s.len];
    assert rest == before[n..];
    r := Append(Slice(s.backing, n), x);
    assert r.View() == before[..n] + [x];
    for i := 0 to |rest|
      invariant r.Valid() && (r.backing == s.backing || fresh(r.backing))
      invariant r.View() == before[..n] + [x] + rest[..i]
    {
      assert rest[..i + 1] == rest[..i] + [rest[i]];
      r := Append(r, rest[i]);
    }
    assert rest[..|rest|] == rest;
  }

  method Find<T>(s: Slice<T>, nameOf: T -> string, name: string) returns (n: nat)
    requires s.Valid()
    ensures n == IndexOf(s.View(), nameOf, name)
  {
    n := 0;
    while n < s.len && nameOf(s.backing[n]) != name
      invariant n <= s.len
      invariant forall j :: 0 <= j < n ==> nameOf(s.View()[j]) != name
    {
      n := n + 1;
    }
  }

  method PutInPlace<T>(s: Slice<T>, nameOf: T -> string, item: T) returns (r: Slice<T>)
    requires s.Valid()
    modifies s.backing
    ensures r.Valid() && (r.backing == s.backing || fresh(r.backing))
    ensures r.View() == Put(old(s.View()), nameOf, item)
  {
    var n := Find(s, nameOf, nameOf(item));
    if n < s.len {
      s.backing[n] := item;
      r := s;
    } else {
      r := Append(s, item);
    }
  }

  method DropInPlace<T>(s: Slice<T>, nameOf: T -> string, name: string) returns (r: Outcome<Slice<T>>)
    requires s.Valid()
    modifies s.backing
    ensures r.Ok? <==> old(Drop(s.View(), nameOf, name)).Ok?
    ensures r.Ok? ==> r.value.Valid() && r.value.backing == s.backing
                      && r.value.View() == old(Drop(s.View(), nameOf, name)).value
    ensures r.Refused? ==> r.issues == old(Drop(s.View(), nameOf, name)).issues
  {
    var n := Find(s, nameOf, name);
    if n == s.len {
      return Refused([IssueMissing]);
    }
    var shorter := Remove(s, n);
    r := Ok(shorter);
  }

  method AmendInPlace<T>(s: Slice<T>, nameOf: T -> string, name: string, edit: T -> T) returns (r: Outcome<Slice<T>>)
    requires s.Valid()
    modifies s.backing
    ensures r.Ok? <==> old(Amend(s.View(), nameOf, name, edit)).Ok?
    ensures r.Ok? ==> r.value.Valid() && r.value.backing == s.backing
                      && r.value.View() == old(Amend(s.View(), nameOf, name, edit)).value
    ensures r.Refused? ==> r.issues == old(Amend(s.View(), nameOf, name, edit)).issues
  {
    var n := Find(s, nameOf, name);
    if n == s.len {
      return Refused([IssueMissing]);
    }
    s.backing[n] := edit(s.backing[n]);
    r := Ok(s);
  }

  /** The move of a mission segment: take it out of the slice, then splice it
      back in. */
  method MoveInPlace<T>(s: Slice<T>, from: nat, to: nat) returns (r: Slice<T>)
    requires s.Valid() && from < s.len && to < s.len
    modifies s.backing
    ensures r.Valid() && (r.backing == s.backing || fresh(r.backing))
    ensures r.View() == MoveTo(old(s.View()), from, to)
  {
    var segment := s.backing[from];
    var shorter := Remove(s, from);
    r := Insert(shorter, to, segment);
  }
}
