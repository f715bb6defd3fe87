/** The metrics of two encoded sequences in terms of the sequences themselves:
    the dot product counts the positions whose bases share a vector, and the
    squared distance is twice the number of positions where they differ. */
module Similarity {
  import opened Encoder
  import opened Metrics

  /** Bases b and c (both in the table) map to the same vector. */
  predicate SameVector(b: char, c: char)
    requires b in BaseToVector && c in BaseToVector
  {
    BaseToVector[b] == BaseToVector[c]
  }

  /** The number of positions whose two bases map to the same vector. */
  function Matches(s: string, t: string): (m: nat)
    requires |s| == |t| && AllKnown(s) && AllKnown(t)
    ensures m <= |s|
    ensures m == |s| <==> forall i :: 0 <= i < |s| ==> SameVector(s[i], t[i])
    ensures m == 0 <==> forall i :: 0 <= i < |s| ==> !SameVector(s[i], t[i])
  {
    if |s| == 0 then 0
    else (if SameVector(s[0], t[0]) then 1 else 0) + Matches(s[1..], t[1..])
  }

  /** The number of positions whose two bases map to different vectors. */
  function Mismatches(s: string, t: string): (m: nat)
    requires |s| == |t| && AllKnown(s) && AllKnown(t)
    ensures m <= |s|
    ensures m == 0 <==> forall i :: 0 <= i < |s| ==> SameVector(s[i], t[i])
    ensures m == |s| <==> forall i :: 0 <= i < |s| ==> !SameVector(s[i], t[i])
  {
    if |s| == 0 then 0
    else (if SameVector(s[0], t[0]) then 0 else 1) + Mismatches(s[1..], t[1..])
  }

  /** Every position either matches or mismatches. */
  lemma {:induction false} MatchesPlusMismatches(s: string, t: string)
    requires |s| == |t| && AllKnown(s) && AllKnown(t)
    ensures Matches(s, t) + Mismatches(s, t) == |s|
  {
    if |s| > 0 {
      MatchesPlusMismatches(s[1..], t[1..]);
    }
  }

  /** Row k of the 4 x n matrix: channel k of each base of s, in order. */
  function Row(s: string, k: nat): (r: seq<int>)
    requires AllKnown(s) && k < Channels
    ensures |r| == |s|
    ensures forall i :: 0 <= i < |s| ==> r[i] == BaseToVector[s[i]][k]
  {
    if |s| == 0 then [] else [BaseToVector[s[0]][k]] + Row(s[1..], k)
  }

  /** The encoding of s is its four rows laid end to end. */
  lemma EncodingIsRows(s: string)
    requires 0 < |s| && AllKnown(s)
    ensures OneHotEncode(s).value == Row(s, 0) + Row(s, 1) + Row(s, 2) + Row(s, 3)
  {
    var v, n := OneHotEncode(s).value, |s|;
    var r0, r1, r2, r3 := Row(s, 0), Row(s, 1), Row(s, 2), Row(s, 3);
    var w := r0 + r1 + r2 + r3;
    assert |w| == |v|;
    forall j | 0 <= j < |v|
      ensures v[j] == w[j]
    {
      if j < n {
        assert w[j] == r0[j];
      } else if j < 2 * n {
        assert w[j] == r1[j - n] && v[n + (j - n)] == r1[j - n];
      } else if j < 3 * n {
        assert w[j] == r2[j - 2 * n] && v[2 * n + (j - 2 * n)] == r2[j - 2 * n];
      } else {
        assert w[j] == r3[j - 3 * n] && v[3 * n + (j - 3 * n)] == r3[j - 3 * n];
      }
    }
  }

  /** The four channel products of two bases sum to 1 when they share a vector and to 0 otherwise. */
  lemma BaseDot(b: char, c: char)
    requires b in BaseToVector && c in BaseToVector
    ensures BaseToVector[b][0] * BaseToVector[c][0] + BaseToVector[b][1] * BaseToVector[c][1]
          + BaseToVector[b][2] * BaseToVector[c][2] + BaseToVector[b][3] * BaseToVector[c][3]
         == if SameVector(b, c) then 1 else 0
  {
  }

  /** Summed over the four rows, the dot products count the matching positions. */
  lemma {:induction false} RowsDot(s: string, t: string)
    requires |s| == |t| && AllKnown(s) && AllKnown(t)
    ensures Dot(Row(s, 0), Row(t, 0)) + Dot(Row(s, 1), Row(t, 1))
          + Dot(Row(s, 2), Row(t, 2)) + Dot(Row(s, 3), Row(t, 3)) == Matches(s, t)
  {
    if |s| > 0 {
      RowsDot(s[1..], t[1..]);
      BaseDot(s[0], t[0]);
      assert Row(s, 0)[1..] == Row(s[1..], 0) && Row(t, 0)[1..] == Row(t[1..], 0);
      assert Row(s, 1)[1..] == Row(s[1..], 1) && Row(t, 1)[1..] == Row(t[1..], 1);
      assert Row(s, 2)[1..] == Row(s[1..], 2) && Row(t, 2)[1..] == Row(t[1..], 2);
      assert Row(s, 3)[1..] == Row(s[1..], 3) && Row(t, 3)[1..] == Row(t[1..], 3);
    }
  }

  /** The dot product of two encodings is the number of matching positions. */
  lemma EncodedDot(s: string, t: string)
    requires 0 < |s| == |t| && AllKnown(s) && AllKnown(t)
    ensures Dot(OneHotEncode(s).value, OneHotEncode(t).value) == Matches(s, t)
  {
    EncodingIsRows(s);
    EncodingIsRows(t);
    DotAppend(Row(s, 0), Row(s, 1), Row(t, 0), Row(t, 1));
    DotAppend(Row(s, 0) + Row(s, 1), Row(s, 2), Row(t, 0) + Row(t, 1), Row(t, 2));
    DotAppend(Row(s, 0) + Row(s, 1) + Row(s, 2), Row(s, 3), Row(t, 0) + Row(t, 1) + Row(t, 2), Row(t, 3));
    RowsDot(s, t);
  }

  /** Every base contributes exactly one 1: the squared norm of an encoding is n. */
  lemma EncodedSquaredNorm(s: string)
    requires 0 < |s| && AllKnown(s)
    ensures SquaredNorm(OneHotEncode(s).value) == |s|
  {
    SquaredNormIsSelfDot(OneHotEncode(s).value);
    EncodedDot(s, s);
  }

  /** The squared distance of two encodings is twice the number of mismatched positions. */
  lemma EncodedSquaredDistance(s: string, t: string)
    requires 0 < |s| == |t| && AllKnown(s) && AllKnown(t)
    ensures SquaredDistance(OneHotEncode(s).value, OneHotEncode(t).value) == 2 * Mismatches(s, t)
  {
    SquaredDistanceExpansion(OneHotEncode(s).value, OneHotEncode(t).value);
    EncodedSquaredNorm(s);
    EncodedSquaredNorm(t);
    EncodedDot(s, t);
    MatchesPlusMismatches(s, t);
  }

  /** The cosine similarity of two encodings is the fraction of matching positions. */
  lemma EncodedCosine(s: string, t: string)
    requires 0 < |s| == |t| && AllKnown(s) && AllKnown(t)
    ensures SquaredNorm(OneHotEncode(s).value) == SquaredNorm(OneHotEncode(t).value) == |s|
    ensures Cosine(OneHotEncode(s).value, OneHotEncode(t).value) == Matches(s, t) as real / |s| as real
    ensures 0.0 <= Cosine(OneHotEncode(s).value, OneHotEncode(t).value) <= 1.0
  {
    EncodedSquaredNorm(s);
    EncodedSquaredNorm(t);
    EncodedDot(s, t);
    FractionInUnitInterval(Matches(s, t), |s|);
  }

  /** m / n lies in [0, 1] when m <= n. */
  lemma FractionInUnitInterval(m: nat, n: nat)
    requires 0 < n && m <= n
    ensures 0.0 <= m as real / n as real <= 1.0
  {
    var q := m as real / n as real;
    assert q * n as real == m as real;
  }

  /** m / n is 1 exactly when m == n. */
  lemma FractionIsOne(m: nat, n: nat)
    requires 0 < n
    ensures m as real / n as real == 1.0 <==> m == n
  {
    var q := m as real / n as real;
    assert q * n as real == m as real;
  }

  /** Two encodings are equal exactly when every position's bases share a vector. */
  lemma {:induction false} EncodingsEqualIff(s: string, t: string)
    requires 0 < |s| == |t| && AllKnown(s) && AllKnown(t)
    ensures OneHotEncode(s) == OneHotEncode(t) <==> Mismatches(s, t) == 0
  {
    var v1, v2 := OneHotEncode(s).value, OneHotEncode(t).value;
    EncodedSquaredDistance(s, t);
    SquaredDistanceZeroIff(v1, v2);
  }
}
