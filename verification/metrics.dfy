/** The two vector metrics of genseq_sim.py over integer vectors, stated without square
    roots: the Euclidean distance by its square, and cosine similarity for vectors of
    equal norm, where the product of the two norms is the common squared norm. */
module Metrics {

  /** Sum of (v1[i] - v2[i])^2: the square of np.linalg.norm(v1 - v2). */
  function SquaredDistance(v1: seq<int>, v2: seq<int>): (d: nat)
    requires |v1| == |v2|
  {
    if |v1| == 0 then 0
    else
      var x := v1[0] - v2[0];
      x * x + SquaredDistance(v1[1..], v2[1..])
  }

  /** np.dot of two vectors of equal length. */
  function Dot(v1: seq<int>, v2: seq<int>): int
    requires |v1| == |v2|
  {
    if |v1| == 0 then 0 else v1[0] * v2[0] + Dot(v1[1..], v2[1..])
  }

  /** Sum of v[i]^2: the square of np.linalg.norm(v). */
  function SquaredNorm(v: seq<int>): (n: nat)
    ensures n == 0 <==> forall i :: 0 <= i < |v| ==> v[i] == 0
  {
    if |v| == 0 then 0 else v[0] * v[0] + SquaredNorm(v[1..])
  }

  /** cosine_similarity for two vectors of the same non-zero norm: the product of the
      two norms is then sqrt(N) * sqrt(N) = N, the common squared norm. */
  function Cosine(v1: seq<int>, v2: seq<int>): real
    requires |v1| == |v2|
    requires SquaredNorm(v1) == SquaredNorm(v2) > 0
  {
    Dot(v1, v2) as real / SquaredNorm(v1) as real
  }

  lemma {:induction false} SquaredDistanceSymmetric(v1: seq<int>, v2: seq<int>)
    requires |v1| == |v2|
    ensures SquaredDistance(v1, v2) == SquaredDistance(v2, v1)
  {
    if |v1| > 0 {
      SquaredDistanceSymmetric(v1[1..], v2[1..]);
      assert (v1[0] - v2[0]) * (v1[0] - v2[0]) == (v2[0] - v1[0]) * (v2[0] - v1[0]);
    }
  }

  /** The squared distance is zero exactly when the vectors are equal. */
  lemma {:induction false} SquaredDistanceZeroIff(v1: seq<int>, v2: seq<int>)
    requires |v1| == |v2|
    ensures SquaredDistance(v1, v2) == 0 <==> v1 == v2
  {
    if |v1| > 0 {
      SquaredDistanceZeroIff(v1[1..], v2[1..]);
      var x := v1[0] - v2[0];
      if x != 0 {
        assert x * x > 0;
        assert v1[0] != v2[0];
      } else {
        assert v1 == [v1[0]] + v1[1..] && v2 == [v2[0]] + v2[1..];
      }
    }
  }

  lemma {:induction false} DotSymmetric(v1: seq<int>, v2: seq<int>)
    requires |v1| == |v2|
    ensures Dot(v1, v2) == Dot(v2, v1)
  {
    if |v1| > 0 {
      DotSymmetric(v1[1..], v2[1..]);
    }
  }

  /** The squared norm is the dot product of a vector with itself. */
  lemma {:induction false} SquaredNormIsSelfDot(v: seq<int>)
    ensures SquaredNorm(v) == Dot(v, v)
  {
    if |v| > 0 {
      SquaredNormIsSelfDot(v[1..]);
    }
  }

  /** |v1 - v2|^2 == |v1|^2 + |v2|^2 - 2 (v1 . v2). */
  lemma {:induction false} SquaredDistanceExpansion(v1: seq<int>, v2: seq<int>)
    requires |v1| == |v2|
    ensures SquaredDistance(v1, v2) == SquaredNorm(v1) + SquaredNorm(v2) - 2 * Dot(v1, v2)
  {
    if |v1| > 0 {
      SquaredDistanceExpansion(v1[1..], v2[1..]);
      var a, b := v1[0], v2[0];
      assert (a - b) * (a - b) == a * a + b * b - 2 * (a * b);
    }
  }

  /** The dot product of two concatenations of matching lengths is the sum of the
      dot products of the parts. */
  lemma {:induction false} DotAppend(a: seq<int>, b: seq<int>, c: seq<int>, d: seq<int>)
    requires |a| == |c| && |b| == |d|
    ensures Dot(a + b, c + d) == Dot(a, c) + Dot(b, d)
  {
    if |a| > 0 {
      DotAppend(a[1..], b, c[1..], d);
      assert (a + b)[1..] == a[1..] + b;
      assert (c + d)[1..] == c[1..] + d;
    } else {
      assert a + b == b && c + d == d;
    }
  }
}
