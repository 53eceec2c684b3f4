/** Sequence helpers standing in for the JavaScript collection idioms the
    sources use: `null`-able values, `[...new Set(xs)]` and `Array.filter`. */
module Lists {

  /** A value that may be absent (`null` / `undefined` in the sources). */
  datatype Option<+T> = None | Some(value: T)

  predicate NoDuplicates<T(==)>(xs: seq<T>) {
    forall i, j :: 0 <= i < j < |xs| ==> xs[i] != xs[j]
  }

  /** Index of the first occurrence of `x` in `xs`. */
  function FirstIndexOf<T(==)>(xs: seq<T>, x: T): (k: nat)
    requires x in xs
    ensures k < |xs| && xs[k] == x && x !in xs[..k]
  {
    if x in xs[..|xs| - 1] then
      var k := FirstIndexOf(xs[..|xs| - 1], x);
      assert xs[..|xs| - 1][..k] == xs[..k];
      k
    else
      |xs| - 1
  }

  /** The elements of `xs` with repeats dropped, in the order of their first
      occurrence: what `[...new Set(xs)]` yields. */
  function Dedup<T(==,!new)>(xs: seq<T>): (r: seq<T>)
    ensures forall x :: x in r <==> x in xs
    ensures NoDuplicates(r)
    ensures |r| <= |xs|
  {
    if xs == [] then []
    else
      var d := Dedup(xs[..|xs| - 1]);
      if xs[|xs| - 1] in d then d else d + [xs[|xs| - 1]]
  }

  /** `Dedup` lists the distinct elements in order of first occurrence. */
  lemma {:induction false} DedupKeepsFirstOccurrenceOrder<T(!new)>(xs: seq<T>)
    ensures forall i, j :: 0 <= i < j < |Dedup(xs)| ==>
      FirstIndexOf(xs, Dedup(xs)[i]) < FirstIndexOf(xs, Dedup(xs)[j])
  {
    if xs != [] {
      var init, last := xs[..|xs| - 1], xs[|xs| - 1];
      var d := Dedup(init);
      DedupKeepsFirstOccurrenceOrder(init);
      assert forall x :: x in init ==> FirstIndexOf(xs, x) == FirstIndexOf(init, x) by {
        forall x | x in init ensures FirstIndexOf(xs, x) == FirstIndexOf(init, x) {
        }
      }
      forall i, j | 0 <= i < j < |Dedup(xs)|
        ensures FirstIndexOf(xs, Dedup(xs)[i]) < FirstIndexOf(xs, Dedup(xs)[j])
      {
        if j < |d| {
          assert Dedup(xs)[i] == d[i] && Dedup(xs)[j] == d[j];
        } else {
          assert Dedup(xs)[j] == last && last !in init;
          assert Dedup(xs)[i] == d[i] && d[i] in init;
        }
      }
    }
  }

  /** The elements of `xs` that satisfy `keep`, in order (`Array.filter`). */
  function Filter<T(!new)>(xs: seq<T>, keep: T -> bool): (r: seq<T>)
    ensures forall x :: x in r <==> x in xs && keep(x)
    ensures |r| <= |xs|
  {
    if xs == [] then []
    else
      var f := Filter(xs[..|xs| - 1], keep);
      assert xs == xs[..|xs| - 1] + [xs[|xs| - 1]];
      if keep(xs[|xs| - 1]) then f + [xs[|xs| - 1]] else f
  }

  /** When every element is kept, `Filter` returns the sequence itself. */
  lemma {:induction false} FilterKeepingAll<T(!new)>(xs: seq<T>, keep: T -> bool)
    requires forall x :: x in xs ==> keep(x)
    ensures Filter(xs, keep) == xs
  {
    if xs != [] {
      FilterKeepingAll(xs[..|xs| - 1], keep);
      assert xs == xs[..|xs| - 1] + [xs[|xs| - 1]];
    }
  }

  /** `Filter` keeps order across a concatenation: the kept elements of the
      first part come before those of the second. */
  lemma {:induction false} FilterAppend<T(!new)>(a: seq<T>, b: seq<T>, keep: T -> bool)
    ensures Filter(a + b, keep) == Filter(a, keep) + Filter(b, keep)
  {
    if b == [] {
      assert a + b == a;
    } else {
      var init, last := b[..|b| - 1], b[|b| - 1];
      FilterAppend(a, init, keep);
      assert (a + b)[..|a + b| - 1] == a + init;
      assert (a + b)[|a + b| - 1] == last;
    }
  }

  /** A single element is kept exactly when `keep` holds of it. */
  lemma FilterSingleton<T(!new)>(x: T, keep: T -> bool)
    ensures Filter([x], keep) == if keep(x) then [x] else []
  {
    assert [x][..0] == [];
  }

  /** The set of the elements of a sequence (`new Set(xs)`). */
  function Elements<T(!new)>(xs: seq<T>): (s: set<T>)
    ensures forall x :: x in s <==> x in xs
  {
    set x | x in xs
  }
}
