/** Generic sequence helpers: distinctness, first occurrences, order-preserving de-duplication, filtering. */
module Seqs {

  predicate Distinct<T(==)>(xs: seq<T>) {
    forall i, j :: 0 <= i < j < |xs| ==> xs[i] != xs[j]
  }

  /** The position of the first occurrence of `x` in `xs`. */
  function FirstIndex<T(==)>(xs: seq<T>, x: T): (i: nat)
    requires x in xs
    ensures i < |xs| && xs[i] == x
    ensures forall j :: 0 <= j < i ==> xs[j] != x
  {
    if xs[0] == x then 0 else 1 + FirstIndex(xs[1..], x)
  }

  /** The distinct elements of `xs` in the order they are first met, the way
      `dict.fromkeys(xs)` or a loop over `xs` with a `seen` set keeps them. */
  function Dedup<T(==)>(xs: seq<T>): (r: seq<T>)
    ensures forall i :: 0 <= i < |r| ==> r[i] in xs
    ensures forall i :: 0 <= i < |xs| ==> xs[i] in r
    ensures Distinct(r)
    ensures |r| <= |xs|
  {
    if xs == [] then []
    else
      var d := Dedup(xs[..|xs| - 1]);
      assert xs == xs[..|xs| - 1] + [xs[|xs| - 1]];
      if xs[|xs| - 1] in d then d else d + [xs[|xs| - 1]]
  }

  /** The elements of `xs` that satisfy `keep`, in order. */
  function Filter<T>(xs: seq<T>, keep: T -> bool): (r: seq<T>)
    ensures |r| <= |xs|
    ensures forall i :: 0 <= i < |r| ==> keep(r[i])
  {
    if xs == [] then [] else (if keep(xs[0]) then [xs[0]] else []) + Filter(xs[1..], keep)
  }

  /** Filtering keeps exactly the elements that pass: every result comes from the input, and
      every input element that passes is in the result. */
  lemma {:induction false} FilterMembers<T>(xs: seq<T>, keep: T -> bool)
    ensures forall i :: 0 <= i < |Filter(xs, keep)| ==> Filter(xs, keep)[i] in xs
    ensures forall i :: 0 <= i < |xs| && keep(xs[i]) ==> xs[i] in Filter(xs, keep)
  {
    if xs != [] {
      FilterMembers(xs[1..], keep);
      var head := if keep(xs[0]) then [xs[0]] else [];
      var r := Filter(xs, keep);
      assert r == head + Filter(xs[1..], keep);
      forall i | 0 <= i < |r| ensures r[i] in xs {
        if i >= |head| {
          assert r[i] == Filter(xs[1..], keep)[i - |head|];
        }
      }
      forall i | 1 <= i < |xs| && keep(xs[i]) ensures xs[i] in r {
        assert xs[i] == xs[1..][i - 1];
      }
    }
  }

  lemma FilterSingle<T>(x: T, keep: T -> bool)
    ensures Filter([x], keep) == if keep(x) then [x] else []
  {
    assert [x][1..] == [];
  }

  lemma {:induction false} FilterConcat<T>(a: seq<T>, b: seq<T>, keep: T -> bool)
    ensures Filter(a + b, keep) == Filter(a, keep) + Filter(b, keep)
  {
    if a == [] {
      assert a + b == b;
    } else {
      assert (a + b)[1..] == a[1..] + b;
      FilterConcat(a[1..], b, keep);
    }
  }

  lemma {:induction false} FilterEmpty<T>(xs: seq<T>, keep: T -> bool)
    ensures Filter(xs, keep) == [] <==> forall i :: 0 <= i < |xs| ==> !keep(xs[i])
  {
    if xs != [] {
      FilterEmpty(xs[1..], keep);
      assert forall i :: 1 <= i < |xs| ==> xs[i] == xs[1..][i - 1];
    }
  }

  /** Adding one more element to the input adds it to the output exactly when it is new. */
  lemma DedupSnoc<T>(xs: seq<T>, x: T)
    ensures Dedup(xs + [x]) == if x in xs then Dedup(xs) else Dedup(xs) + [x]
  {
    assert (xs + [x])[..|xs + [x]| - 1] == xs;
  }

  /** A sequence without repetitions is its own de-duplication. */
  lemma {:induction false} DedupOfDistinct<T>(xs: seq<T>)
    requires Distinct(xs)
    ensures Dedup(xs) == xs
  {
    if xs != [] {
      var p := xs[..|xs| - 1];
      assert Distinct(p);
      DedupOfDistinct(p);
      assert xs[|xs| - 1] !in p;
      assert xs == p + [xs[|xs| - 1]];
    }
  }

  /** De-duplication is idempotent. */
  lemma DedupIdempotent<T>(xs: seq<T>)
    ensures Dedup(Dedup(xs)) == Dedup(xs)
  {
    DedupOfDistinct(Dedup(xs));
  }

  /** A sequence is any prefix of it followed by the rest. */
  lemma PrefixThenRest<T>(p: seq<T>, xs: seq<T>)
    requires p <= xs
    ensures xs == p + xs[|p|..]
  {
  }

  /** De-duplicating a prefix gives a prefix of the de-duplication. */
  lemma {:induction false} DedupPrefix<T>(xs: seq<T>, i: nat)
    requires i <= |xs|
    ensures Dedup(xs[..i]) <= Dedup(xs)
  {
    if i == |xs| {
      assert xs[..i] == xs;
    } else {
      var p := xs[..|xs| - 1];
      assert xs[..i] == p[..i];
      DedupPrefix(p, i);
      assert Dedup(p) <= Dedup(xs);
    }
  }

  lemma {:induction false} FirstIndexOfPrefix<T>(p: seq<T>, x: T, y: T)
    requires y in p
    ensures FirstIndex(p + [x], y) == FirstIndex(p, y)
  {
    if p[0] != y {
      assert (p + [x])[1..] == p[1..] + [x];
      FirstIndexOfPrefix(p[1..], x, y);
    }
  }

  lemma {:induction false} FirstIndexOfNew<T>(p: seq<T>, x: T)
    requires x !in p
    ensures FirstIndex(p + [x], x) == |p|
  {
    if p != [] {
      assert (p + [x])[1..] == p[1..] + [x];
      FirstIndexOfNew(p[1..], x);
    }
  }

  /** The de-duplicated elements come in the order of their first occurrences. */
  lemma {:induction false} DedupFirstOccurrenceOrder<T>(xs: seq<T>, i: nat, j: nat)
    requires i < j < |Dedup(xs)|
    ensures FirstIndex(xs, Dedup(xs)[i]) < FirstIndex(xs, Dedup(xs)[j])
  {
    var p, x := xs[..|xs| - 1], xs[|xs| - 1];
    assert xs == p + [x];
    var d := Dedup(p);
    DedupSnoc(p, x);
    if x in p {
      DedupFirstOccurrenceOrder(p, i, j);
      FirstIndexOfPrefix(p, x, d[i]);
      FirstIndexOfPrefix(p, x, d[j]);
    } else if j < |d| {
      DedupFirstOccurrenceOrder(p, i, j);
      FirstIndexOfPrefix(p, x, d[i]);
      FirstIndexOfPrefix(p, x, d[j]);
    } else {
      FirstIndexOfPrefix(p, x, d[i]);
      FirstIndexOfNew(p, x);
    }
  }
}
