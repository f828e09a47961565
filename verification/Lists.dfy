/** Sequences: filters, and lookup, insertion and removal where names are unique. */
module Lists {
  import opened Wrappers

  lemma Reassociate<T>(a: seq<T>, b: seq<T>, c: seq<T>, d: seq<T>, e: seq<T>)
    ensures a + b + c + d + e == a + (b + (c + (d + e)))
    ensures a + b + c + d + e == (a + b) + c + (d + e)
    ensures a + b + c + d + e == a + b + (c + d + e)
  {
  }

  lemma AppendNext<T>(before: seq<T>, s: seq<T>, i: nat)
    requires i < |s|
    ensures before + s[..i] + [s[i]] == before + s[..i + 1]
  {
  }

  // ----- filters -----

  /** The elements that are kept, in order. */
  function Filter<T>(keep: T -> bool, s: seq<T>): seq<T>
    decreases |s|
  {
    if s == [] then []
    else
      var init, x := s[..|s| - 1], s[|s| - 1];
      if keep(x) then Filter(keep, init) + [x] else Filter(keep, init)
  }

  lemma FilterNext<T>(keep: T -> bool, s: seq<T>, x: T)
    ensures Filter(keep, s + [x]) == if keep(x) then Filter(keep, s) + [x] else Filter(keep, s)
  {
    assert (s + [x])[..|s|] == s;
  }

  lemma FilterAppend<T>(keep: T -> bool, a: seq<T>, b: seq<T>)
    ensures Filter(keep, a + b) == Filter(keep, a) + Filter(keep, b)
    decreases |b|
  {
    if b == [] {
      assert a + b == a;
    } else {
      var init, x := b[..|b| - 1], b[|b| - 1];
      assert (a + b)[..|a + b| - 1] == a + init;
      FilterAppend(keep, a, init);
    }
  }

  /** A stricter filter acts like a further filter on what a laxer one lets through. */
  lemma FilterTwice<T>(strict: T -> bool, lax: T -> bool, s: seq<T>)
    requires forall x :: x in s && strict(x) ==> lax(x)
    ensures Filter(strict, Filter(lax, s)) == Filter(strict, s)
    decreases |s|
  {
    if s != [] {
      var init, x := s[..|s| - 1], s[|s| - 1];
      FilterTwice(strict, lax, init);
      if lax(x) { FilterNext(strict, Filter(lax, init), x); }
    }
  }

  lemma FilterIsPart<T>(keep: T -> bool, s: seq<T>, x: T)
    ensures x in Filter(keep, s) <==> x in s && keep(x)
    decreases |s|
  {
    if s != [] {
      FilterIsPart(keep, s[..|s| - 1], x);
    }
  }

  // ----- unique names -----

  function IndexOf(names: seq<string>, name: string): (r: Option<nat>)
    ensures r.None? <==> name !in names
    ensures r.Some? ==> r.value < |names| && names[r.value] == name
  {
    if names == [] then None
    else if names[0] == name then Some(0)
    else match IndexOf(names[1..], name) case None => None case Some(i) => Some(i + 1)
  }

  function InsertAt<T>(s: seq<T>, position: nat, x: T): seq<T>
  {
    var i := if position <= |s| then position else |s|;
    s[..i] + [x] + s[i..]
  }

  function RemoveAt<T>(s: seq<T>, i: nat): seq<T>
    requires i < |s|
  {
    s[..i] + s[i + 1..]
  }

  ghost predicate Distinct<T>(s: seq<T>)
  {
    forall i, j :: 0 <= i < j < |s| ==> s[i] != s[j]
  }

  lemma InsertDistinct<T>(s: seq<T>, position: nat, x: T)
    requires Distinct(s) && x !in s
    ensures Distinct(InsertAt(s, position, x))
    ensures forall y :: y in InsertAt(s, position, x) <==> y == x || y in s
  {
    var i := if position <= |s| then position else |s|;
    var t := InsertAt(s, position, x);
    assert s == s[..i] + s[i..];
    forall j, k | 0 <= j < k < |t| ensures t[j] != t[k] {
      var a, b := if j < i then j else j - 1, if k < i then k else k - 1;
      assert j != i ==> t[j] == s[a];
      assert k != i ==> t[k] == s[b];
    }
  }

  lemma RemoveDistinct<T>(s: seq<T>, i: nat)
    requires Distinct(s) && i < |s|
    ensures Distinct(RemoveAt(s, i))
    ensures forall y :: y in RemoveAt(s, i) <==> y in s && y != s[i]
  {
    var t := RemoveAt(s, i);
    assert forall j :: 0 <= j < |t| ==> t[j] == s[if j < i then j else j + 1];
    forall y | y in s && y != s[i] ensures y in t {
      var j :| 0 <= j < |s| && s[j] == y;
      assert t[if j < i then j else j - 1] == y;
    }
  }

  /** In a list of distinct names every name is found where it stands. */
  lemma {:induction false} IndexOfDistinct(names: seq<string>, i: nat)
    requires Distinct(names) && i < |names|
    ensures IndexOf(names, names[i]) == Some(i)
  {
    if i > 0 {
      assert names[1..][i - 1] == names[i];
      IndexOfDistinct(names[1..], i - 1);
    }
  }

  /** Where a position moves when something is inserted or removed. */
  function Shifted(k: nat, i: nat): nat { if k < i then k else k + 1 }

  lemma ElementsInserted<T>(s: seq<T>, position: nat, x: T)
    ensures
      var i := if position <= |s| then position else |s|;
      && |InsertAt(s, position, x)| == |s| + 1 && InsertAt(s, position, x)[i] == x
      && forall k :: 0 <= k < |s| ==> InsertAt(s, position, x)[Shifted(k, i)] == s[k]
  {
  }

  lemma ElementsRemoved<T>(s: seq<T>, i: nat)
    requires i < |s|
    ensures |RemoveAt(s, i)| == |s| - 1
    ensures forall k :: 0 <= k < |s| && k != i ==> RemoveAt(s, i)[if k < i then k else k - 1] == s[k]
  {
  }

  lemma ElementInserted<T>(s: seq<T>, position: nat, x: T, k: nat)
    requires k < |s|
    ensures
      var i := if position <= |s| then position else |s|;
      Shifted(k, i) < |InsertAt(s, position, x)| && InsertAt(s, position, x)[Shifted(k, i)] == s[k]
  {
  }

  lemma ElementRemoved<T>(s: seq<T>, i: nat, k: nat)
    requires i < |s| && k < |s| && k != i
    ensures
      var k' := if k < i then k else k - 1;
      k' < |RemoveAt(s, i)| && RemoveAt(s, i)[k'] == s[k]
  {
  }

  /** Where an element of the longer list comes from. */
  lemma OriginInserted<T>(s: seq<T>, position: nat, x: T, j: nat)
    requires j <= |s|
    ensures
      var i, k := if position <= |s| then position else |s|, if j < position then j else j - 1;
      && |InsertAt(s, position, x)| == |s| + 1
      && if j == i then InsertAt(s, position, x)[j] == x else 0 <= k < |s| && InsertAt(s, position, x)[j] == s[k]
  {
  }

  lemma OriginRemoved<T>(s: seq<T>, i: nat, j: nat)
    requires i < |s| && j < |s| - 1
    ensures |RemoveAt(s, i)| == |s| - 1 && RemoveAt(s, i)[j] == s[if j < i then j else j + 1]
  {
  }

  lemma IndexOfInserted(names: seq<string>, position: nat, x: string, name: string)
    requires Distinct(names) && x !in names
    ensures
      var i := if position <= |names| then position else |names|;
      IndexOf(InsertAt(names, position, x), name) ==
        if name == x then Some(i)
        else match IndexOf(names, name) case None => None case Some(k) => Some(Shifted(k, i))
  {
    var all := InsertAt(names, position, x);
    var i := if position <= |names| then position else |names|;
    InsertDistinct(names, position, x);
    if name == x {
      assert all[i] == x;
      IndexOfDistinct(all, i);
    } else if name in names {
      var k := IndexOf(names, name).value;
      assert all[Shifted(k, i)] == names[k];
      IndexOfDistinct(all, Shifted(k, i));
    }
  }

  lemma IndexOfRemoved(names: seq<string>, i: nat, name: string)
    requires Distinct(names) && i < |names|
    ensures IndexOf(RemoveAt(names, i), name) ==
      if name == names[i] then None
      else match IndexOf(names, name) case None => None case Some(k) => Some(if k < i then k else k - 1)
  {
    var rest := RemoveAt(names, i);
    RemoveDistinct(names, i);
    if name in names && name != names[i] {
      var k := IndexOf(names, name).value;
      var k' := if k < i then k else k - 1;
      assert rest[k'] == names[k];
      IndexOfDistinct(rest, k');
    }
  }

  // ----- lookup by name -----

  /** The item that stands where the name stands. */
  function ItemFor<T>(names: seq<string>, items: seq<T>, name: string): Option<T>
    requires |names| == |items|
  {
    match IndexOf(names, name) case None => None case Some(i) => Some(items[i])
  }

  lemma ItemForReplaced<T>(names: seq<string>, items: seq<T>, i: nat, x: T, name: string)
    requires Distinct(names) && |names| == |items| && i < |items|
    ensures ItemFor(names, items[i := x], name) == if name == names[i] then Some(x) else ItemFor(names, items, name)
    ensures ItemFor(names, items, names[i]) == Some(items[i])
  {
    IndexOfDistinct(names, i);
  }

  lemma ItemForRemoved<T>(names: seq<string>, items: seq<T>, i: nat, name: string)
    requires Distinct(names) && |names| == |items| && i < |items|
    ensures |RemoveAt(names, i)| == |RemoveAt(items, i)|
    ensures ItemFor(RemoveAt(names, i), RemoveAt(items, i), name)
         == if name == names[i] then None else ItemFor(names, items, name)
  {
    IndexOfRemoved(names, i, name);
    if name in names && name != names[i] {
      var k := IndexOf(names, name).value;
      ElementRemoved(items, i, k);
      assert ItemFor(names, items, name) == Some(items[k]);
    }
  }

  lemma ItemForInserted<T>(names: seq<string>, items: seq<T>, position: nat, key: string, x: T, name: string)
    requires Distinct(names) && |names| == |items| && key !in names
    ensures |InsertAt(names, position, key)| == |InsertAt(items, position, x)|
    ensures ItemFor(InsertAt(names, position, key), InsertAt(items, position, x), name)
         == if name == key then Some(x) else ItemFor(names, items, name)
  {
    IndexOfInserted(names, position, key, name);
    ElementsInserted(items, position, x);
    if name in names {
      ElementInserted(items, position, x, IndexOf(names, name).value);
    }
  }
}
