/**
 * Cosine similarity of two embedding vectors (matching.py `cosine_similarity`).
 * The square root (Python's `** 0.5`) is a parameter: the model does not
 * interpret it beyond what a lemma states as its premise.
 */
module Similarity {

  type Vector = seq<real>

  /** `sum(a * b for a, b in zip(u, v))`: `zip` stops at the shorter vector. */
  function Dot(u: Vector, v: Vector): real {
    if u == [] || v == [] then 0.0 else u[0] * v[0] + Dot(u[1..], v[1..])
  }

  /** `sum(a * a for a in u)` */
  function SumSquares(u: Vector): real {
    if u == [] then 0.0 else u[0] * u[0] + SumSquares(u[1..])
  }

  /** `cosine_similarity(u, v)`, zero when either magnitude is zero. */
  function Cosine(u: Vector, v: Vector, sqrt: real -> real): real {
    var m1 := sqrt(SumSquares(u));
    var m2 := sqrt(SumSquares(v));
    if m1 == 0.0 || m2 == 0.0 then 0.0 else Dot(u, v) / (m1 * m2)
  }

  predicate IsZero(u: Vector) {
    forall i :: 0 <= i < |u| ==> u[i] == 0.0
  }

  lemma {:induction false} DotSymmetric(u: Vector, v: Vector)
    ensures Dot(u, v) == Dot(v, u)
  {
    if u != [] && v != [] {
      DotSymmetric(u[1..], v[1..]);
    }
  }

  lemma {:induction false} DotSelf(u: Vector)
    ensures Dot(u, u) == SumSquares(u)
  {
    if u != [] {
      DotSelf(u[1..]);
    }
  }

  lemma {:induction false} SumSquaresOfZero(u: Vector)
    requires IsZero(u)
    ensures SumSquares(u) == 0.0
  {
    if u != [] {
      assert IsZero(u[1..]) by {
        forall i | 0 <= i < |u[1..]| ensures u[1..][i] == 0.0 {
          assert u[1..][i] == u[i + 1];
        }
      }
      SumSquaresOfZero(u[1..]);
    }
  }

  /** The similarity does not depend on the order of its arguments. */
  lemma CosineSymmetric(u: Vector, v: Vector, sqrt: real -> real)
    ensures Cosine(u, v, sqrt) == Cosine(v, u, sqrt)
  {
    DotSymmetric(u, v);
    assert sqrt(SumSquares(u)) * sqrt(SumSquares(v)) == sqrt(SumSquares(v)) * sqrt(SumSquares(u));
  }

  /** A zero vector (on either side) has similarity 0 with anything, given `sqrt(0) == 0`. */
  lemma CosineWithZeroVector(u: Vector, v: Vector, sqrt: real -> real)
    requires sqrt(0.0) == 0.0
    requires IsZero(u) || IsZero(v)
    ensures Cosine(u, v, sqrt) == 0.0
  {
    if IsZero(u) { SumSquaresOfZero(u); } else { SumSquaresOfZero(v); }
  }

  /** A vector of non-zero magnitude is fully similar to itself, given that `sqrt` squares back. */
  lemma CosineSelf(u: Vector, sqrt: real -> real)
    requires SumSquares(u) != 0.0
    requires sqrt(SumSquares(u)) * sqrt(SumSquares(u)) == SumSquares(u)
    ensures Cosine(u, u, sqrt) == 1.0
  {
    DotSelf(u);
    var m := sqrt(SumSquares(u));
    var s := SumSquares(u);
    assert m != 0.0;
    assert m * m == s;
    assert Dot(u, u) / (m * m) == s / s == 1.0;
  }
}
