/** The list operations every store and row table of the application is built from:
    `Array.prototype.find`, `findIndex`, `filter` and an id-keyed `map`, over
    sequences whose elements carry a string id given by `key`. */
module KeyedLists {
  import opened Wrappers

  /** `xs.find(x => key(x) === id)`: the first element with that id, if any. */
  function Find<T>(xs: seq<T>, key: T -> string, id: string): (r: Option<T>)
    ensures r.None? <==> forall j :: 0 <= j < |xs| ==> key(xs[j]) != id
    ensures r.Some? ==> key(r.value) == id && FindIndex(xs, key, id) != -1
    ensures r.Some? ==> r.value == xs[FindIndex(xs, key, id)]
  {
    if xs == [] then None
    else if key(xs[0]) == id then Some(xs[0])
    else Find(xs[1..], key, id)
  }

  /** Position `i` holds the first element of `xs` whose key is `id`. */
  predicate FirstWithKey<T>(xs: seq<T>, key: T -> string, id: string, i: int)
  {
    0 <= i < |xs| && key(xs[i]) == id && forall j :: 0 <= j < i ==> key(xs[j]) != id
  }

  /** `xs.findIndex(x => key(x) === id)`: the first matching position, or -1. */
  function FindIndex<T>(xs: seq<T>, key: T -> string, id: string): (i: int)
    ensures -1 <= i < |xs|
    ensures i == -1 <==> forall j :: 0 <= j < |xs| ==> key(xs[j]) != id
    ensures i != -1 ==> FirstWithKey(xs, key, id, i)
  {
    if xs == [] then -1
    else if key(xs[0]) == id then 0
    else
      var k := FindIndex(xs[1..], key, id);
      if k == -1 then -1 else k + 1
  }

  /** `xs.filter(p)`: the elements satisfying `p`, in their original order. */
  function Filter<T(==)>(xs: seq<T>, p: T -> bool): (r: seq<T>)
    ensures |r| <= |xs|
    ensures forall j :: 0 <= j < |r| ==> r[j] in xs && p(r[j])
    ensures forall j :: 0 <= j < |xs| && p(xs[j]) ==> xs[j] in r
  {
    if xs == [] then []
    else (if p(xs[0]) then [xs[0]] else []) + Filter(xs[1..], p)
  }

  /** Filtering a concatenation filters each part and keeps them in order. */
  lemma {:induction false} FilterAppend<T>(a: seq<T>, b: seq<T>, p: T -> bool)
    ensures Filter(a + b, p) == Filter(a, p) + Filter(b, p)
  {
    if a == [] {
      assert a + b == b;
    } else {
      assert (a + b)[1..] == a[1..] + b;
      FilterAppend(a[1..], b, p);
    }
  }

  /** Filtering keeps a list whose every element passes unchanged. */
  lemma {:induction false} FilterAll<T>(xs: seq<T>, p: T -> bool)
    requires forall j :: 0 <= j < |xs| ==> p(xs[j])
    ensures Filter(xs, p) == xs
  {
    if xs != [] {
      FilterAll(xs[1..], p);
    }
  }

  /** Filtering a list no element of which passes gives the empty list. */
  lemma {:induction false} FilterNone<T>(xs: seq<T>, p: T -> bool)
    requires forall j :: 0 <= j < |xs| ==> !p(xs[j])
    ensures Filter(xs, p) == []
  {
    if xs != [] {
      FilterNone(xs[1..], p);
    }
  }

  /** When exactly one element passes, filtering gives that element alone. */
  lemma {:induction false} FilterUnique<T>(xs: seq<T>, p: T -> bool, k: nat)
    requires k < |xs| && p(xs[k])
    requires forall j :: 0 <= j < |xs| && j != k ==> !p(xs[j])
    ensures Filter(xs, p) == [xs[k]]
  {
    if k == 0 {
      FilterNone(xs[1..], p);
    } else {
      FilterUnique(xs[1..], p, k - 1);
    }
  }

  /** Filtering out an element that fails shortens the list. */
  lemma {:induction false} FilterShorter<T>(xs: seq<T>, p: T -> bool, k: nat)
    requires k < |xs| && !p(xs[k])
    ensures |Filter(xs, p)| < |xs|
  {
    if k > 0 {
      FilterShorter(xs[1..], p, k - 1);
    }
  }

  /** `xs.filter(x => key(x) !== id)`: delete by id. */
  function RemoveById<T(==)>(xs: seq<T>, key: T -> string, id: string): (r: seq<T>)
    ensures forall j :: 0 <= j < |r| ==> r[j] in xs && key(r[j]) != id
    ensures forall j :: 0 <= j < |xs| && key(xs[j]) != id ==> xs[j] in r
  {
    Filter(xs, x => key(x) != id)
  }

  /** Deleting an id some element carries shortens the list. */
  lemma RemovePresentId<T>(xs: seq<T>, key: T -> string, id: string, k: nat)
    requires k < |xs| && key(xs[k]) == id
    ensures |RemoveById(xs, key, id)| < |xs|
  {
    FilterShorter(xs, x => key(x) != id, k);
  }

  /** Deleting an id no element carries changes nothing. */
  lemma RemoveAbsentId<T>(xs: seq<T>, key: T -> string, id: string)
    requires forall j :: 0 <= j < |xs| ==> key(xs[j]) != id
    ensures RemoveById(xs, key, id) == xs
  {
    FilterAll(xs, x => key(x) != id);
  }

  /** Deleting by id keeps the survivors in their order: it distributes over concatenation. */
  lemma RemoveByIdAppend<T>(a: seq<T>, b: seq<T>, key: T -> string, id: string)
    ensures RemoveById(a + b, key, id) == RemoveById(a, key, id) + RemoveById(b, key, id)
  {
    FilterAppend(a, b, x => key(x) != id);
  }

  /** `xs.map(x => key(x) === id ? f(x) : x)`: rewrite the elements with that id in place. */
  function MapWhere<T>(xs: seq<T>, key: T -> string, id: string, f: T -> T): (r: seq<T>)
    ensures |r| == |xs|
    ensures forall i :: 0 <= i < |xs| ==> r[i] == if key(xs[i]) == id then f(xs[i]) else xs[i]
  {
    if xs == [] then []
    else [if key(xs[0]) == id then f(xs[0]) else xs[0]] + MapWhere(xs[1..], key, id, f)
  }
}
