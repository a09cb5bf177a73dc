/** Three-component vectors over the reals, standing for the engine's single-precision vector. */
module Vectors {

  datatype Vec3 = Vec3(x: real, y: real, z: real)

  const Zero := Vec3(0.0, 0.0, 0.0)
  const One := Vec3(1.0, 1.0, 1.0)

  function Abs(a: real): real { if a < 0.0 then -a else a }

  function Max(a: real, b: real): real { if a < b then b else a }

  function Add(u: Vec3, v: Vec3): Vec3 { Vec3(u.x + v.x, u.y + v.y, u.z + v.z) }

  function Sub(u: Vec3, v: Vec3): Vec3 { Vec3(u.x - v.x, u.y - v.y, u.z - v.z) }

  /** Component-wise division by a scalar. */
  function Div(v: Vec3, d: real): Vec3
    requires d != 0.0
  {
    Vec3(v.x / d, v.y / d, v.z / d)
  }

  function SqrMagnitude(v: Vec3): real { v.x * v.x + v.y * v.y + v.z * v.z }

  /** The sum of a sequence of vectors, first element first. */
  function VecSum(vs: seq<Vec3>): Vec3 {
    if vs == [] then Zero else Add(vs[0], VecSum(vs[1..]))
  }

  /** The sum over a concatenation is the sum of the two sums. */
  lemma {:induction false} VecSumAppend(a: seq<Vec3>, b: seq<Vec3>)
    ensures VecSum(a + b) == Add(VecSum(a), VecSum(b))
  {
    if a == [] {
      assert a + b == b;
    } else {
      assert (a + b)[1..] == a[1..] + b;
      VecSumAppend(a[1..], b);
    }
  }

  lemma {:induction false} VecSumRemoveAt(vs: seq<Vec3>, k: nat)
    requires k < |vs|
    ensures VecSum(vs) == Add(vs[k], VecSum(vs[..k] + vs[k + 1..]))
  {
    var rest := vs[..k] + vs[k + 1..];
    if k > 0 {
      var tail := vs[1..][..k - 1] + vs[1..][k..];
      VecSumRemoveAt(vs[1..], k - 1);
      assert tail == rest[1..];
      assert rest == [vs[0]] + tail;
      AddSwap(vs[0], vs[k], VecSum(tail));
    } else {
      assert rest == vs[1..];
    }
  }

  lemma AddSwap(a: Vec3, b: Vec3, c: Vec3)
    ensures Add(a, Add(b, c)) == Add(b, Add(a, c))
  {}

  /** Summation does not depend on the order of the summands. */
  lemma {:induction false} VecSumPermutation(a: seq<Vec3>, b: seq<Vec3>)
    requires multiset(a) == multiset(b)
    ensures VecSum(a) == VecSum(b)
  {
    if a != [] {
      assert a[0] in multiset(b);
      var k :| 0 <= k < |b| && b[k] == a[0];
      var rest := b[..k] + b[k + 1..];
      assert b == b[..k] + [b[k]] + b[k + 1..];
      assert a == [a[0]] + a[1..];
      calc {
        multiset(a[1..]);
        multiset(a) - multiset{a[0]};
        multiset(b) - multiset{b[k]};
        multiset(b[..k]) + multiset(b[k + 1..]);
        multiset(rest);
      }
      VecSumPermutation(a[1..], rest);
      VecSumRemoveAt(b, k);
    } else {
      assert |b| == |multiset(b)| == 0;
    }
  }
}
