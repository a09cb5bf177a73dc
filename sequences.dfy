/** Sequences of identities: the packed buffer's contents viewed as a list. */
module Sequences {

  /**
   * No element occurs twice. The pairs are reached through `Apart`, so that the solver
   * considers a pair only where a proof names it (by `DistinctAt`).
   */
  predicate Distinct<T(==)>(xs: seq<T>) {
    forall i, j {:trigger Apart(xs, i, j)} :: 0 <= i < j < |xs| ==> Apart(xs, i, j)
  }

  /** Positions `i` and `j` both exist and hold different elements. */
  predicate Apart<T(==)>(xs: seq<T>, i: int, j: int) {
    0 <= i < |xs| && 0 <= j < |xs| && xs[i] != xs[j]
  }

  /** Two different positions of a distinct sequence hold different elements. */
  lemma DistinctAt<T>(xs: seq<T>, i: nat, j: nat)
    requires Distinct(xs) && i < |xs| && j < |xs| && i != j
    ensures xs[i] != xs[j]
  {
    if i < j {
      assert Apart(xs, i, j);
    } else {
      assert Apart(xs, j, i);
    }
  }

  /** A distinct sequence holds the element at position `i` nowhere else. */
  lemma DistinctOnly<T>(xs: seq<T>, i: nat)
    requires Distinct(xs) && i < |xs|
    ensures forall k :: 0 <= k < |xs| && k != i ==> xs[k] != xs[i]
  {
    forall k | 0 <= k < |xs| && k != i ensures xs[k] != xs[i] {
      DistinctAt(xs, k, i);
    }
  }

  /** `xs` with every occurrence of `x` removed, the rest kept in order. */
  function Without<T(==)>(xs: seq<T>, x: T): (r: seq<T>)
    ensures forall y :: y in r ==> y in xs && y != x
    ensures forall y :: y in xs && y != x ==> y in r
    ensures |r| <= |xs|
  {
    if xs == [] then []
    else if xs[0] == x then Without(xs[1..], x)
    else [xs[0]] + Without(xs[1..], x)
  }

  /** In a distinct sequence, removing the element at index `i` closes the gap at `i`. */
  lemma {:induction false} WithoutAt<T>(xs: seq<T>, i: nat)
    requires Distinct(xs) && i < |xs|
    ensures Without(xs, xs[i]) == xs[..i] + xs[i + 1..]
  {
    DistinctTail(xs);
    if i == 0 {
      WithoutAbsent(xs[1..], xs[0]);
    } else {
      WithoutAt(xs[1..], i - 1);
      assert xs[1..][..i - 1] == xs[1..i];
      assert xs[..i] + xs[i + 1..] == [xs[0]] + (xs[1..i] + xs[i + 1..]);
    }
  }

  /** Removing the element at index `i` of a distinct sequence keeps everything before `i`. */
  lemma WithoutPrefix<T>(xs: seq<T>, i: nat)
    requires Distinct(xs) && i < |xs|
    ensures |Without(xs, xs[i])| == |xs| - 1
    ensures forall k :: 0 <= k < i ==> Without(xs, xs[i])[k] == xs[k]
  {
    WithoutAt(xs, i);
  }

  /** Removing an absent element changes nothing. */
  lemma {:induction false} WithoutAbsent<T>(xs: seq<T>, x: T)
    requires x !in xs
    ensures Without(xs, x) == xs
  {
    if xs != [] {
      WithoutAbsent(xs[1..], x);
    }
  }

  /** Removal from a distinct sequence keeps it distinct and drops exactly the occurrences of `x`. */
  lemma WithoutDistinct<T>(xs: seq<T>, x: T)
    requires Distinct(xs)
    ensures Distinct(Without(xs, x))
    ensures |Without(xs, x)| == if x in xs then |xs| - 1 else |xs|
  {
    if x in xs {
      var i :| 0 <= i < |xs| && xs[i] == x;
      WithoutAt(xs, i);
      GapDistinct(xs, i);
    } else {
      WithoutAbsent(xs, x);
    }
  }

  /** Closing the gap at `i` in a distinct sequence leaves a distinct sequence one shorter. */
  lemma GapDistinct<T>(xs: seq<T>, i: nat)
    requires Distinct(xs) && i < |xs|
    ensures Distinct(xs[..i] + xs[i + 1..]) && |xs[..i] + xs[i + 1..]| == |xs| - 1
  {
    var r := xs[..i] + xs[i + 1..];
    forall a, b | 0 <= a < b < |r| ensures Apart(r, a, b) {
      var a' := if a < i then a else a + 1;
      var b' := if b < i then b else b + 1;
      assert r[a] == xs[a'] && r[b] == xs[b'];
      DistinctAt(xs, a', b');
    }
  }

  /** The tail of a distinct sequence is distinct and does not hold the head. */
  lemma DistinctTail<T>(xs: seq<T>)
    requires Distinct(xs) && xs != []
    ensures Distinct(xs[1..]) && xs[0] !in xs[1..]
  {
    var t := xs[1..];
    forall a, b | 0 <= a < b < |t| ensures Apart(t, a, b) {
      DistinctAt(xs, a + 1, b + 1);
    }
    forall k | 0 <= k < |t| ensures t[k] != xs[0] {
      DistinctAt(xs, k + 1, 0);
    }
  }

  /** Appending an element absent from a distinct sequence keeps it distinct. */
  lemma AppendDistinct<T>(xs: seq<T>, x: T)
    requires Distinct(xs) && x !in xs
    ensures Distinct(xs + [x])
  {
    var r := xs + [x];
    forall a, b | 0 <= a < b < |r| ensures Apart(r, a, b) {
      if b < |xs| {
        DistinctAt(xs, a, b);
      }
    }
  }
}
