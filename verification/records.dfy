/** Generic operations over a collection of records kept in store order, each
    record identified by a string key. They are the array idioms the store and
    the pages use: `filter`, `find`, `some`, `reduce` and the patch-by-id `map`
    of every `update*` operation (src/context/DataContext.tsx). */
module Records {
  import opened Wrappers
  import Ids

  /** The records satisfying `p`, in store order. */
  function Filter<T>(xs: seq<T>, p: T -> bool): (r: seq<T>)
    ensures |r| <= |xs|
    ensures forall i :: 0 <= i < |r| ==> r[i] in xs && p(r[i])
    ensures forall i :: 0 <= i < |xs| && p(xs[i]) ==> xs[i] in r
  {
    if |xs| == 0 then []
    else Filter(xs[..|xs| - 1], p) + (if p(xs[|xs| - 1]) then [xs[|xs| - 1]] else [])
  }

  /** How many records satisfy `p`. */
  function Count<T>(xs: seq<T>, p: T -> bool): nat {
    |Filter(xs, p)|
  }

  /** Some record satisfies `p`. */
  predicate Any<T>(xs: seq<T>, p: T -> bool) {
    exists i :: 0 <= i < |xs| && p(xs[i])
  }

  /** The sum of `f` over the records. */
  function Sum<T>(xs: seq<T>, f: T -> real): real {
    if |xs| == 0 then 0.0 else Sum(xs[..|xs| - 1], f) + f(xs[|xs| - 1])
  }

  /** `f` applied to every record, in order. */
  function Map<T, U>(xs: seq<T>, f: T -> U): (r: seq<U>)
    ensures |r| == |xs|
    ensures forall i :: 0 <= i < |xs| ==> r[i] == f(xs[i])
  {
    if |xs| == 0 then [] else Map(xs[..|xs| - 1], f) + [f(xs[|xs| - 1])]
  }

  /** The position of the first record satisfying `p`. */
  function FirstIndex<T>(xs: seq<T>, p: T -> bool): (r: Option<nat>)
    ensures r.Some? ==> r.value < |xs| && p(xs[r.value])
    ensures r.Some? ==> forall j :: 0 <= j < r.value ==> !p(xs[j])
    ensures r.None? <==> !Any(xs, p)
  {
    if |xs| == 0 then None
    else if p(xs[0]) then Some(0)
    else
      var rest := FirstIndex(xs[1..], p);
      assert forall j :: 1 <= j < |xs| ==> xs[j] == xs[1..][j - 1];
      if rest.None? then None else Some(rest.value + 1)
  }

  /** The first record satisfying `p`, if any. */
  function Find<T>(xs: seq<T>, p: T -> bool): (r: Option<T>)
    ensures r.Some? <==> Any(xs, p)
    ensures r.Some? ==> exists i :: 0 <= i < |xs| && xs[i] == r.value && p(xs[i])
                          && forall j :: 0 <= j < i ==> !p(xs[j])
  {
    match FirstIndex(xs, p)
    case None => None
    case Some(i) => Some(xs[i])
  }

  /** The store's update operations: every record whose key is `id` is patched, the others are kept. */
  function PatchById<T>(xs: seq<T>, key: T -> string, id: string, patch: T -> T): (r: seq<T>)
    ensures |r| == |xs|
    ensures forall i :: 0 <= i < |xs| && key(xs[i]) == id ==> r[i] == patch(xs[i])
    ensures forall i :: 0 <= i < |xs| && key(xs[i]) != id ==> r[i] == xs[i]
  {
    if |xs| == 0 then []
    else
      var x := xs[|xs| - 1];
      PatchById(xs[..|xs| - 1], key, id, patch) + [if key(x) == id then patch(x) else x]
  }

  /** Patching a key no record carries changes nothing. */
  lemma PatchAbsent<T>(xs: seq<T>, key: T -> string, id: string, patch: T -> T)
    requires forall i :: 0 <= i < |xs| ==> key(xs[i]) != id
    ensures PatchById(xs, key, id, patch) == xs
  {
  }

  // ---------------------------------------------------------------------------
  // Keys: distinctness and the "issued by the counter" bound.

  /** No two records share a key. */
  predicate KeysDistinct<T>(xs: seq<T>, key: T -> string) {
    forall i, j :: 0 <= i < j < |xs| ==> key(xs[i]) != key(xs[j])
  }

  /** Every key carries a counter value no larger than `counter`. */
  predicate KeysIssued<T>(xs: seq<T>, key: T -> string, counter: nat) {
    forall i :: 0 <= i < |xs| ==> Ids.NumOf(key(xs[i])) <= counter
  }

  predicate KeysOk<T>(xs: seq<T>, key: T -> string, counter: nat) {
    KeysDistinct(xs, key) && KeysIssued(xs, key, counter)
  }

  lemma KeysOkMono<T>(xs: seq<T>, key: T -> string, c: nat, c': nat)
    requires KeysOk(xs, key, c) && c <= c'
    ensures KeysOk(xs, key, c')
  {
  }

  /** Appending a record whose key carries the freshly incremented counter keeps
      the keys distinct and issued; the new key differs from every existing one. */
  lemma AppendFresh<T>(xs: seq<T>, key: T -> string, c: nat, x: T)
    requires KeysOk(xs, key, c) && Ids.NumOf(key(x)) == c + 1
    ensures forall i :: 0 <= i < |xs| ==> key(xs[i]) != key(x)
    ensures KeysOk(xs + [x], key, c + 1)
  {
    var ys := xs + [x];
    forall i, j | 0 <= i < j < |ys|
      ensures key(ys[i]) != key(ys[j])
    {
      if j == |xs| {
        assert Ids.NumOf(key(ys[i])) <= c;
      }
    }
  }

  /** The patch leaves every record's key as it was. */
  ghost predicate KeepsKey<T(!new)>(key: T -> string, patch: T -> T) {
    forall x :: key(patch(x)) == key(x)
  }

  /** A patch that keeps keys keeps them distinct and issued. */
  lemma PatchKeepsKeys<T(!new)>(xs: seq<T>, key: T -> string, c: nat, id: string, patch: T -> T)
    ensures KeysOk(xs, key, c) && KeepsKey(key, patch) ==> KeysOk(PatchById(xs, key, id, patch), key, c)
  {
    var r := PatchById(xs, key, id, patch);
    if KeepsKey(key, patch) {
      assert forall i :: 0 <= i < |xs| ==> key(r[i]) == key(xs[i]);
    }
  }

  /** Records rewritten without changing their keys keep the keys' properties. */
  lemma SameKeys<T>(xs: seq<T>, ys: seq<T>, key: T -> string, c: nat)
    requires |xs| == |ys| && forall i :: 0 <= i < |xs| ==> key(ys[i]) == key(xs[i])
    ensures KeysOk(xs, key, c) ==> KeysOk(ys, key, c)
  {
  }

  /** With distinct keys, a patch touches exactly one record when the key is present. */
  lemma PatchUnique<T>(xs: seq<T>, key: T -> string, id: string, patch: T -> T, i: nat)
    requires KeysDistinct(xs, key) && i < |xs| && key(xs[i]) == id
    ensures PatchById(xs, key, id, patch) == xs[i := patch(xs[i])]
  {
  }

  // ---------------------------------------------------------------------------
  // Facts about the array idioms.

  lemma FilterAppend<T>(xs: seq<T>, x: T, p: T -> bool)
    ensures Filter(xs + [x], p) == Filter(xs, p) + (if p(x) then [x] else [])
  {
    assert (xs + [x])[..|xs|] == xs;
  }

  lemma SumAppend<T>(xs: seq<T>, x: T, f: T -> real)
    ensures Sum(xs + [x], f) == Sum(xs, f) + f(x)
  {
    assert (xs + [x])[..|xs|] == xs;
  }

  lemma CountAppend<T>(xs: seq<T>, x: T, p: T -> bool)
    ensures Count(xs + [x], p) == Count(xs, p) + (if p(x) then 1 else 0)
  {
    FilterAppend(xs, x, p);
  }

  /** Nothing is counted exactly when no record satisfies `p`. */
  lemma CountNone<T>(xs: seq<T>, p: T -> bool)
    ensures Count(xs, p) == 0 <==> forall i :: 0 <= i < |xs| ==> !p(xs[i])
  {
    var r := Filter(xs, p);
    if |r| > 0 {
      assert r[0] in xs && p(r[0]);
    }
  }

  /** A sum of non-negative terms is non-negative. */
  lemma {:induction false} SumNonNegative<T>(xs: seq<T>, f: T -> real)
    ensures (forall i :: 0 <= i < |xs| ==> f(xs[i]) >= 0.0) ==> Sum(xs, f) >= 0.0
  {
    if |xs| > 0 {
      SumNonNegative(xs[..|xs| - 1], f);
    }
  }

  lemma MapAppend<T, U>(xs: seq<T>, x: T, f: T -> U)
    ensures Map(xs + [x], f) == Map(xs, f) + [f(x)]
  {
    assert (xs + [x])[..|xs|] == xs;
  }

  /** `f` where `p` holds and zero elsewhere. */
  function Masked<T>(p: T -> bool, f: T -> real): T -> real {
    x => if p(x) then f(x) else 0.0
  }

  /** Summing over the filtered records is summing over all of them with the
      others counted as zero. */
  lemma {:induction false} SumFilter<T>(xs: seq<T>, p: T -> bool, f: T -> real)
    ensures Sum(Filter(xs, p), f) == Sum(xs, Masked(p, f))
  {
    if |xs| > 0 {
      var ys := xs[..|xs| - 1];
      var x := xs[|xs| - 1];
      SumFilter(ys, p, f);
      assert Filter(xs, p) == Filter(ys, p) + (if p(x) then [x] else []);
      assert Sum(xs, Masked(p, f)) == Sum(ys, Masked(p, f)) + Masked(p, f)(x);
      if p(x) {
        SumAppend(Filter(ys, p), x, f);
      } else {
        assert Filter(ys, p) + [] == Filter(ys, p);
      }
    }
  }

  /** Changing one record changes a count only by what the old and the new
      record contribute. */
  lemma {:induction false} CountUpdate<T>(xs: seq<T>, i: nat, y: T, p: T -> bool)
    requires i < |xs|
    ensures Count(xs[i := y], p) + (if p(xs[i]) then 1 else 0) == Count(xs, p) + (if p(y) then 1 else 0)
  {
    var ys := xs[..|xs| - 1];
    var x := xs[|xs| - 1];
    assert xs == ys + [x];
    CountAppend(ys, x, p);
    if i == |xs| - 1 {
      assert xs[i := y] == ys + [y];
      CountAppend(ys, y, p);
    } else {
      assert xs[i := y] == ys[i := y] + [x];
      CountAppend(ys[i := y], x, p);
      CountUpdate(ys, i, y, p);
    }
  }

  /** Changing one record changes a sum only by what the old and the new
      record contribute. */
  lemma {:induction false} SumUpdate<T>(xs: seq<T>, i: nat, y: T, f: T -> real)
    requires i < |xs|
    ensures Sum(xs[i := y], f) + f(xs[i]) == Sum(xs, f) + f(y)
  {
    var ys := xs[..|xs| - 1];
    var x := xs[|xs| - 1];
    assert xs == ys + [x];
    SumAppend(ys, x, f);
    if i == |xs| - 1 {
      assert xs[i := y] == ys + [y];
      SumAppend(ys, y, f);
    } else {
      assert xs[i := y] == ys[i := y] + [x];
      SumAppend(ys[i := y], x, f);
      SumUpdate(ys, i, y, f);
    }
  }

  /** Two predicates of which exactly one holds of every record split the
      records between their counts. */
  lemma {:induction false} CountSplit<T>(xs: seq<T>, p: T -> bool, q: T -> bool)
    requires forall x :: p(x) != q(x)
    ensures Count(xs, p) + Count(xs, q) == |xs|
  {
    if |xs| > 0 {
      var ys := xs[..|xs| - 1];
      CountSplit(ys, p, q);
      assert xs == ys + [xs[|xs| - 1]];
      CountAppend(ys, xs[|xs| - 1], p);
      CountAppend(ys, xs[|xs| - 1], q);
    }
  }

  predicate NoDup<T(==)>(xs: seq<T>) {
    forall i, j :: 0 <= i < j < |xs| ==> xs[i] != xs[j]
  }

  /** Filtering a list without duplicates gives a list without duplicates. */
  lemma {:induction false} FilterNoDup<T>(xs: seq<T>, p: T -> bool)
    ensures NoDup(xs) ==> NoDup(Filter(xs, p))
  {
    if |xs| > 0 && NoDup(xs) {
      var ys := xs[..|xs| - 1];
      var x := xs[|xs| - 1];
      assert NoDup(ys);
      FilterNoDup(ys, p);
      assert x !in ys;
      assert x !in Filter(ys, p);
    }
  }

  /** Filtering records with distinct keys gives records with distinct keys. */
  lemma {:induction false} FilterKeysDistinct<T>(xs: seq<T>, key: T -> string, p: T -> bool)
    ensures KeysDistinct(xs, key) ==> KeysDistinct(Filter(xs, p), key)
  {
    if |xs| > 0 && KeysDistinct(xs, key) {
      var ys := xs[..|xs| - 1];
      var x := xs[|xs| - 1];
      assert KeysDistinct(ys, key);
      FilterKeysDistinct(ys, key, p);
      var fs := Filter(ys, p);
      forall i | 0 <= i < |fs|
        ensures key(fs[i]) != key(x)
      {
        var j :| 0 <= j < |ys| && ys[j] == fs[i];
        assert xs[j] == ys[j];
      }
    }
  }

  /** Filtering by a predicate every element satisfies changes nothing. */
  lemma {:induction false} FilterAll<T>(xs: seq<T>, p: T -> bool)
    requires forall i :: 0 <= i < |xs| ==> p(xs[i])
    ensures Filter(xs, p) == xs
  {
    if |xs| > 0 {
      FilterAll(xs[..|xs| - 1], p);
      assert xs == xs[..|xs| - 1] + [xs[|xs| - 1]];
    }
  }

  /** Counts of two predicates that never hold together add up to at most the length. */
  lemma {:induction false} CountDisjoint<T>(xs: seq<T>, p: T -> bool, q: T -> bool)
    requires forall x :: !(p(x) && q(x))
    ensures Count(xs, p) + Count(xs, q) <= |xs|
  {
    if |xs| > 0 {
      var ys := xs[..|xs| - 1];
      CountDisjoint(ys, p, q);
      assert xs == ys + [xs[|xs| - 1]];
      CountAppend(ys, xs[|xs| - 1], p);
      CountAppend(ys, xs[|xs| - 1], q);
    }
  }

  /** A sum over records whose values agree with another function on the records
      present is the same sum. */
  lemma {:induction false} SumCongruent<T>(xs: seq<T>, f: T -> real, g: T -> real)
    requires forall i :: 0 <= i < |xs| ==> f(xs[i]) == g(xs[i])
    ensures Sum(xs, f) == Sum(xs, g)
  {
    if |xs| > 0 {
      SumCongruent(xs[..|xs| - 1], f, g);
    }
  }
}
