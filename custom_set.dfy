/** `CustomSet`: an insertion-ordered set whose membership is decided by a
    caller-supplied comparator rather than identity, and `ICaseSet`, its
    case-insensitive string instance. */
module CustomSets {
  import opened Wrappers
  import opened Text

  // ---- the specification on sequences ------------------------------------

  /** The index of the first stored item the comparator matches with `item`
      (`findIndex`), or -1. */
  function FindIndex<T>(cmp: (T, T) -> bool, items: seq<T>, item: T): (i: int)
    ensures -1 <= i < |items|
    ensures i >= 0 ==> cmp(item, items[i])
    ensures forall j :: 0 <= j < |items| && (i < 0 || j < i) ==> !cmp(item, items[j])
  {
    if items == [] then -1
    else if cmp(item, items[0]) then 0
    else
      var i := FindIndex(cmp, items[1..], item);
      if i < 0 then -1 else i + 1
  }

  /** No stored item matches an item stored before it. */
  ghost predicate Distinct<T>(cmp: (T, T) -> bool, items: seq<T>) {
    forall i, j :: 0 <= i < j < |items| ==> !cmp(items[j], items[i])
  }

  /** The items after `add(item)`. */
  function Inserted<T>(cmp: (T, T) -> bool, items: seq<T>, item: T): (r: seq<T>)
    ensures FindIndex(cmp, items, item) >= 0 ==> r == items
    ensures FindIndex(cmp, items, item) < 0 ==> r == items + [item]
    ensures Distinct(cmp, items) ==> Distinct(cmp, r)
    ensures |items| <= |r| <= |items| + 1
  {
    if FindIndex(cmp, items, item) >= 0 then items else items + [item]
  }

  /** The items of a set built by adding each of `xs` in order. */
  function FromSeq<T>(cmp: (T, T) -> bool, xs: seq<T>): (r: seq<T>)
    ensures Distinct(cmp, r) && |r| <= |xs|
  {
    if xs == [] then [] else Inserted(cmp, FromSeq(cmp, xs[..|xs| - 1]), xs[|xs| - 1])
  }

  /** The items after `delete(item)`: the first match is spliced out. */
  function Removed<T>(cmp: (T, T) -> bool, items: seq<T>, item: T): (r: seq<T>)
    ensures FindIndex(cmp, items, item) < 0 ==> r == items
    ensures FindIndex(cmp, items, item) >= 0 ==>
      var i := FindIndex(cmp, items, item); |r| == |items| - 1 && r == items[..i] + items[i + 1..]
    ensures Distinct(cmp, items) ==> Distinct(cmp, r)
  {
    var i := FindIndex(cmp, items, item);
    if i < 0 then items
    else
      var r := items[..i] + items[i + 1..];
      assert forall k :: 0 <= k < |r| ==> r[k] == items[if k < i then k else k + 1];
      r
  }

  /** The comparator behaves like an equality: symmetric and transitive. */
  ghost predicate Equivalence<T(!new)>(cmp: (T, T) -> bool) {
    (forall a, b :: cmp(a, b) ==> cmp(b, a)) &&
    (forall a, b, c :: cmp(a, b) && cmp(b, c) ==> cmp(a, c))
  }

  /** Under an equivalence, a distinct set holds at most one match for any
      item, so deleting an item and adding it again moves it to the end. */
  lemma {:induction false} DeleteThenAdd<T(!new)>(cmp: (T, T) -> bool, items: seq<T>, item: T)
    requires Equivalence(cmp) && Distinct(cmp, items) && FindIndex(cmp, items, item) >= 0
    ensures Inserted(cmp, Removed(cmp, items, item), item) == Removed(cmp, items, item) + [item]
  {
    var i := FindIndex(cmp, items, item);
    var r := Removed(cmp, items, item);
    if FindIndex(cmp, r, item) >= 0 {
      assert false;
    }
  }

  /** Under an equivalence, a stored item of a distinct set is found at its
      own position. */
  lemma {:induction false} StoredItemFound<T(!new)>(cmp: (T, T) -> bool, items: seq<T>, k: nat)
    requires Equivalence(cmp) && Distinct(cmp, items) && k < |items| && cmp(items[k], items[k])
    ensures FindIndex(cmp, items, items[k]) == k
  {
    var i := FindIndex(cmp, items, items[k]);
    if i != k {
      assert false;
    }
  }

  // ---- the case-insensitive instance -------------------------------------

  /** `ICaseSet`'s comparator: equal after lower-casing. */
  predicate ICaseEqual(a: string, b: string) {
    Lower(a) == Lower(b)
  }

  /** `ICaseSet.get` returns the item as it was first stored, which differs
      from the query at most in letter case. */
  lemma {:induction false} ICaseGetStored(items: seq<string>, query: string)
    requires FindIndex(ICaseEqual, items, query) >= 0
    ensures Lower(items[FindIndex(ICaseEqual, items, query)]) == Lower(query)
  {
  }

  lemma {:induction false} ICaseIsEquivalence()
    ensures Equivalence(ICaseEqual)
  {
  }

  /** Adding the same text in another case to an `ICaseSet` changes nothing. */
  lemma {:induction false} ICaseAddOtherCase(items: seq<string>, a: string, b: string)
    requires FindIndex(ICaseEqual, items, a) >= 0 && Lower(a) == Lower(b)
    ensures Inserted(ICaseEqual, items, b) == items
  {
    var i := FindIndex(ICaseEqual, items, a);
    assert ICaseEqual(b, items[i]);
  }

  // ---- the class ---------------------------------------------------------

  class CustomSet<T(==)> {
    var items: seq<T>
    const comparator: (T, T) -> bool

    ghost predicate Valid()
      reads this
    {
      Distinct(comparator, items)
    }

    /** A missing comparator means identity. The iterable's items are added
        one at a time. */
    constructor (comparator: Option<(T, T) -> bool>, iterable: seq<T>)
      ensures comparator.Some? ==> this.comparator == comparator.value
      ensures comparator.None? ==> forall a, b :: this.comparator(a, b) <==> a == b
      ensures items == FromSeq(this.comparator, iterable)
      ensures Valid()
    {
      var identity: (T, T) -> bool := (a, b) => a == b;
      this.comparator := comparator.GetOr(identity);
      items := [];
      new;
      for n := 0 to |iterable|
        invariant items == FromSeq(this.comparator, iterable[..n])
      {
        assert iterable[..n + 1][..n] == iterable[..n];
        items := Inserted(this.comparator, items, iterable[n]);
      }
      assert iterable[..|iterable|] == iterable;
    }

    predicate Has(item: T)
      reads this
    {
      FindIndex(comparator, items, item) >= 0
    }

    function Get(item: T): (r: Option<T>)
      reads this
      ensures r.Some? <==> Has(item)
      ensures r.Some? ==> comparator(item, r.value) && r.value in items
      ensures r.Some? ==> r.value == items[FindIndex(comparator, items, item)]
    {
      var i := FindIndex(comparator, items, item);
      if i >= 0 then Some(items[i]) else None
    }

    function Size(): (n: nat)
      reads this
      ensures n == |items|
    {
      |items|
    }

    method Add(item: T)
      modifies this
      ensures items == Inserted(comparator, old(items), item)
      ensures old(Valid()) ==> Valid()
    {
      if !Has(item) {
        items := items + [item];
      }
    }

    method Delete(item: T) returns (existed: bool)
      modifies this
      ensures existed == old(Has(item))
      ensures items == Removed(comparator, old(items), item)
      ensures old(Valid()) ==> Valid()
    {
      var index := FindIndex(comparator, items, item);
      if index > -1 {
        items := items[..index] + items[index + 1..];
        return true;
      }
      return false;
    }

    method Clear()
      modifies this
      ensures items == [] && Valid()
    {
      items := [];
    }
  }
}
