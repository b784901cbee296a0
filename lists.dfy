// List operations on the string arrays of the documents (member ids,
// household ids): Firestore's `arrayUnion` and `arrayRemove`, and Kotlin's
// `distinct` and `chunked`.

module Lists {

  predicate NoDuplicates(xs: seq<string>) {
    forall i, j :: 0 <= i < j < |xs| ==> xs[i] != xs[j]
  }

  /** `FieldValue.arrayUnion(x)`: append x unless the array already holds it. */
  function ArrayUnion(xs: seq<string>, x: string): (r: seq<string>)
    ensures x in r
    ensures forall y :: y in r <==> y in xs || y == x
  {
    if x in xs then xs else xs + [x]
  }

  /** `FieldValue.arrayRemove(x)`: drop every occurrence of x, keeping the rest in order. */
  function ArrayRemove(xs: seq<string>, x: string): (r: seq<string>)
    ensures x !in r
    ensures forall y :: y in r <==> y in xs && y != x
    ensures |r| <= |xs|
  {
    if xs == [] then []
    else if xs[0] == x then ArrayRemove(xs[1..], x)
    else [xs[0]] + ArrayRemove(xs[1..], x)
  }

  lemma ArrayUnionIdempotent(xs: seq<string>, x: string)
    ensures ArrayUnion(ArrayUnion(xs, x), x) == ArrayUnion(xs, x)
  {
  }

  lemma ArrayUnionKeepsNoDuplicates(xs: seq<string>, x: string)
    requires NoDuplicates(xs)
    ensures NoDuplicates(ArrayUnion(xs, x))
  {
  }

  /** Removing an element not present changes nothing. */
  lemma {:induction false} ArrayRemoveAbsent(xs: seq<string>, x: string)
    requires x !in xs
    ensures ArrayRemove(xs, x) == xs
  {
    if xs != [] {
      ArrayRemoveAbsent(xs[1..], x);
    }
  }

  lemma ArrayRemoveIdempotent(xs: seq<string>, x: string)
    ensures ArrayRemove(ArrayRemove(xs, x), x) == ArrayRemove(xs, x)
  {
    ArrayRemoveAbsent(ArrayRemove(xs, x), x);
  }

  /** `arrayRemove` distributes over concatenation: the kept elements stay in order. */
  lemma {:induction false} ArrayRemoveConcat(xs: seq<string>, ys: seq<string>, x: string)
    ensures ArrayRemove(xs + ys, x) == ArrayRemove(xs, x) + ArrayRemove(ys, x)
  {
    if xs == [] {
      assert xs + ys == ys;
    } else {
      assert (xs + ys)[0] == xs[0];
      assert (xs + ys)[1..] == xs[1..] + ys;
      ArrayRemoveConcat(xs[1..], ys, x);
    }
  }

  /** Adding a new member and removing it again restores the array. */
  lemma UnionThenRemove(xs: seq<string>, x: string)
    requires x !in xs
    ensures ArrayRemove(ArrayUnion(xs, x), x) == xs
  {
    ArrayRemoveConcat(xs, [x], x);
    ArrayRemoveAbsent(xs, x);
  }

  lemma {:induction false} ArrayRemoveKeepsNoDuplicates(xs: seq<string>, x: string)
    requires NoDuplicates(xs)
    ensures NoDuplicates(ArrayRemove(xs, x))
  {
    if xs != [] {
      ArrayRemoveKeepsNoDuplicates(xs[1..], x);
      assert xs[0] !in xs[1..] by {
        forall k | 0 <= k < |xs[1..]| ensures xs[1..][k] != xs[0] {
          assert xs[1..][k] == xs[k + 1];
        }
      }
    }
  }

  /** The position of the first occurrence of x in xs. */
  function FirstIndex(xs: seq<string>, x: string): (k: nat)
    requires x in xs
    ensures k < |xs| && xs[k] == x && x !in xs[..k]
  {
    if xs[0] == x then 0
    else
      var k := FirstIndex(xs[1..], x);
      assert xs[..k + 1] == [xs[0]] + xs[1..][..k];
      k + 1
  }

  /** An element occurring in a prefix first occurs at the same place in the whole sequence. */
  lemma FirstIndexOfPrefix(xs: seq<string>, n: nat, y: string)
    requires n <= |xs| && y in xs[..n]
    ensures FirstIndex(xs[..n], y) == FirstIndex(xs, y)
  {
    var a := FirstIndex(xs[..n], y);
    var b := FirstIndex(xs, y);
    assert xs[..n][..a] == xs[..a];
  }

  /** Kotlin `distinct()`: the first occurrence of each element, in order. */
  function Distinct(xs: seq<string>): (r: seq<string>)
    ensures forall y :: y in r <==> y in xs
    ensures NoDuplicates(r)
    ensures forall i, j :: 0 <= i < j < |r| ==> FirstIndex(xs, r[i]) < FirstIndex(xs, r[j])
  {
    if xs == [] then []
    else
      var init := xs[..|xs| - 1];
      var d := Distinct(init);
      assert xs[..|xs| - 1] == init;
      var last := xs[|xs| - 1];
      forall y | y in d ensures FirstIndex(init, y) == FirstIndex(xs, y) < |init| {
        FirstIndexOfPrefix(xs, |xs| - 1, y);
      }
      if last in d then d
      else
        assert last !in init;
        d + [last]
  }

  /** A list without duplicates is its own `distinct()`. */
  lemma {:induction false} DistinctOfNoDuplicates(xs: seq<string>)
    requires NoDuplicates(xs)
    ensures Distinct(xs) == xs
  {
    if xs != [] {
      var init, last := xs[..|xs| - 1], xs[|xs| - 1];
      assert NoDuplicates(init);
      DistinctOfNoDuplicates(init);
      assert last !in init;
      assert Distinct(xs) == ArrayUnion(init, last) == init + [last];
      assert init + [last] == xs;
    }
  }

  /**
   * Appending one element and then de-duplicating is `arrayUnion` applied
   * to the de-duplicated list.
   */
  lemma DistinctAppend(xs: seq<string>, x: string)
    ensures Distinct(xs + [x]) == ArrayUnion(Distinct(xs), x)
  {
    assert (xs + [x])[..|xs + [x]| - 1] == xs;
  }

  /** On a duplicate-free list, `plus(x).distinct()` is exactly `arrayUnion(x)`. */
  lemma PlusDistinctIsArrayUnion(xs: seq<string>, x: string)
    requires NoDuplicates(xs)
    ensures Distinct(xs + [x]) == ArrayUnion(xs, x)
  {
    DistinctAppend(xs, x);
    DistinctOfNoDuplicates(xs);
  }

  // ---- chunked ----

  function Flatten(xss: seq<seq<string>>): (r: seq<string>)
  {
    if xss == [] then [] else xss[0] + Flatten(xss[1..])
  }

  lemma {:induction false} FlattenConcat(xss: seq<seq<string>>, yss: seq<seq<string>>)
    ensures Flatten(xss + yss) == Flatten(xss) + Flatten(yss)
  {
    if xss == [] {
      assert xss + yss == yss;
    } else {
      assert (xss + yss)[0] == xss[0];
      assert (xss + yss)[1..] == xss[1..] + yss;
      FlattenConcat(xss[1..], yss);
    }
  }

  /** Kotlin `chunked(n)`: consecutive windows of n elements, the last one possibly shorter. */
  function Chunked(xs: seq<string>, n: nat): (r: seq<seq<string>>)
    requires n > 0
    ensures forall i :: 0 <= i < |r| ==> 1 <= |r[i]| <= n
    ensures forall i :: 0 <= i < |r| - 1 ==> |r[i]| == n
    ensures xs == [] <==> r == []
    decreases |xs|
  {
    if xs == [] then []
    else if |xs| <= n then [xs]
    else [xs[..n]] + Chunked(xs[n..], n)
  }

  /** The chunks, read in order, are the original list: every element once, in place. */
  lemma {:induction false} FlattenChunked(xs: seq<string>, n: nat)
    requires n > 0
    ensures Flatten(Chunked(xs, n)) == xs
    decreases |xs|
  {
    if |xs| > n {
      var r := Chunked(xs, n);
      assert r[1..] == Chunked(xs[n..], n);
      FlattenChunked(xs[n..], n);
      assert xs[..n] + xs[n..] == xs;
    } else if xs != [] {
      assert Flatten(Chunked(xs, n)) == xs + Flatten([]);
    }
  }

  /** An element is in some chunk exactly when it is in the list. */
  lemma {:induction false} InFlatten(xss: seq<seq<string>>, x: string)
    ensures x in Flatten(xss) <==> exists i :: 0 <= i < |xss| && x in xss[i]
  {
    if xss != [] {
      InFlatten(xss[1..], x);
      if x in Flatten(xss[1..]) {
        var i :| 0 <= i < |xss[1..]| && x in xss[1..][i];
        assert x in xss[i + 1];
      }
      forall i | 0 <= i < |xss| && x in xss[i] && i > 0
        ensures x in Flatten(xss[1..])
      {
        assert xss[1..][i - 1] == xss[i];
      }
    }
  }
}
