/** compare_sequences: the gates in their fixed order, then the encoding of both
    sequences and the two metrics. */
module Comparator {
  import opened Outcomes
  import opened Validation
  import opened Encoder
  import opened Metrics
  import opened Similarity

  /** The pair compare_sequences returns, exactly: the Euclidean distance is reported
      by its square, the cosine similarity as an exact ratio. */
  datatype Comparison = Comparison(squaredDistance: nat, cosineSimilarity: real)

  /** Both markers T and U occur in `s`. */
  predicate MixedMarkers(s: string) {
    'T' in s && 'U' in s
  }

  /** The type detect_sequence_type infers for a sequence without mixed markers. */
  function InferredType(s: string): SeqType {
    if 'U' in s then RNA else DNA
  }

  /** The six gates of compare_sequences all pass. */
  predicate PassesGates(seq1: string, seq2: string) {
    && LengthInBounds(seq1) && LengthInBounds(seq2)
    && |seq1| == |seq2|
    && !MixedMarkers(seq1) && !MixedMarkers(seq2)
    && InferredType(seq1) == InferredType(seq2)
  }

  /** compare_sequences: the first failing gate decides the failure, in the order
      length of seq1, length of seq2, equal lengths, type of seq1, type of seq2, equal
      types, then the lookup of the symbols of seq1 and of seq2; when every gate and
      lookup passes, the squared distance is twice the number of positions whose bases
      map to different vectors and the cosine similarity is the fraction of positions
      whose bases map to the same vector. */
  function CompareSequences(seq1: string, seq2: string): (r: Result<Comparison>)
    ensures !LengthInBounds(seq1) ==> r == Err(LengthOutOfRange)
    ensures LengthInBounds(seq1) && !LengthInBounds(seq2) ==> r == Err(LengthOutOfRange)
    ensures LengthInBounds(seq1) && LengthInBounds(seq2) && |seq1| != |seq2| ==> r == Err(LengthMismatch)
    ensures LengthInBounds(seq1) && |seq1| == |seq2| && MixedMarkers(seq1) ==> r == Err(MixedTypeMarkers)
    ensures (LengthInBounds(seq1) && |seq1| == |seq2| && !MixedMarkers(seq1) && MixedMarkers(seq2))
              ==> r == Err(MixedTypeMarkers)
    ensures (LengthInBounds(seq1) && |seq1| == |seq2| && !MixedMarkers(seq1) && !MixedMarkers(seq2)
             && InferredType(seq1) != InferredType(seq2))
              ==> r == Err(TypeMismatch(InferredType(seq1), InferredType(seq2)))
    ensures PassesGates(seq1, seq2) && !AllKnown(seq1) ==> r == Err(UnknownSymbol(seq1[FirstUnknown(seq1)]))
    ensures (PassesGates(seq1, seq2) && AllKnown(seq1) && !AllKnown(seq2))
              ==> r == Err(UnknownSymbol(seq2[FirstUnknown(seq2)]))
    ensures r.Ok? <==> PassesGates(seq1, seq2) && AllKnown(seq1) && AllKnown(seq2)
    ensures r.Ok? ==> r.value.squaredDistance == 2 * Mismatches(seq1, seq2)
    ensures r.Ok? ==> r.value.cosineSimilarity == Matches(seq1, seq2) as real / |seq1| as real
  {
    match (ValidateLength(seq1), ValidateLength(seq2))
    case (Fail(e), _) => Err(e)
    case (Pass, Fail(e)) => Err(e)
    case (Pass, Pass) =>
      if |seq1| != |seq2| then Err(LengthMismatch)
      else
        var type1 :- DetectSequenceType(seq1);
        var type2 :- DetectSequenceType(seq2);
        if type1 != type2 then Err(TypeMismatch(type1, type2))
        else
          var v1 :- OneHotEncode(seq1);
          var v2 :- OneHotEncode(seq2);
          EncodedSquaredDistance(seq1, seq2);
          EncodedCosine(seq1, seq2);
          Ok(Comparison(SquaredDistance(v1, v2), Cosine(v1, v2)))
  }
}

/** What compare_sequences promises over all inputs, and the scenarios it is known by. */
module ComparatorProperties {
  import opened Outcomes
  import opened Validation
  import opened Encoder
  import opened Metrics
  import opened Similarity
  import opened Comparator
  import opened Substitution

  /** A sequence of n copies of the symbol c. */
  function Repeat(c: char, n: nat): (s: string)
    ensures |s| == n && forall i :: 0 <= i < n ==> s[i] == c
  {
    seq(n, _ => c)
  }

  /** Comparing a sequence that passes every gate with itself gives distance 0 and similarity 1. */
  lemma CompareIdentity(s: string)
    requires LengthInBounds(s) && !MixedMarkers(s) && AllKnown(s)
    ensures CompareSequences(s, s) == Ok(Comparison(0, 1.0))
  {
    assert PassesGates(s, s);
    var r := CompareSequences(s, s);
    assert r.Ok?;
    assert Matches(s, s) == |s|;
    assert Mismatches(s, s) == 0;
    FractionIsOne(|s|, |s|);
  }

  /** Swapping the arguments changes neither whether the comparison succeeds nor the two metrics. */
  lemma CompareSymmetric(seq1: string, seq2: string)
    ensures CompareSequences(seq1, seq2).Ok? <==> CompareSequences(seq2, seq1).Ok?
    ensures CompareSequences(seq1, seq2).Ok? ==> CompareSequences(seq1, seq2) == CompareSequences(seq2, seq1)
  {
    if CompareSequences(seq1, seq2).Ok? {
      var v1, v2 := OneHotEncode(seq1).value, OneHotEncode(seq2).value;
      EncodedSquaredDistance(seq1, seq2);
      EncodedSquaredDistance(seq2, seq1);
      SquaredDistanceSymmetric(v1, v2);
      EncodedDot(seq1, seq2);
      EncodedDot(seq2, seq1);
      DotSymmetric(v1, v2);
    }
  }

  /** When the comparison succeeds, the squared distance is 0 exactly when the two encodings are equal,
      and the cosine similarity lies in [0, 1] and is 1 exactly when they are equal. */
  lemma CompareMetricsMeaning(seq1: string, seq2: string)
    requires PassesGates(seq1, seq2) && AllKnown(seq1) && AllKnown(seq2)
    ensures var c := CompareSequences(seq1, seq2).value;
      && (c.squaredDistance == 0 <==> OneHotEncode(seq1) == OneHotEncode(seq2))
      && 0.0 <= c.cosineSimilarity <= 1.0
      && (c.cosineSimilarity == 1.0 <==> OneHotEncode(seq1) == OneHotEncode(seq2))
  {
    EncodingsEqualIff(seq1, seq2);
    EncodedCosine(seq1, seq2);
    MatchesPlusMismatches(seq1, seq2);
    FractionIsOne(Matches(seq1, seq2), |seq1|);
  }

  /** A run of n A's against a run of n C's: every position contributes a squared
      difference of 2 and a product of 0, so the squared distance is 2n (60, distance
      about 7.746, for n = 30) and the similarity is 0. */
  lemma CompareKnownDistance(n: nat)
    requires MinLength <= n <= MaxLength
    ensures CompareSequences(Repeat('A', n), Repeat('C', n)) == Ok(Comparison(2 * n, 0.0))
  {
    var s, t := Repeat('A', n), Repeat('C', n);
    assert s[0] == 'A' && t[0] == 'C';
    assert 'T' !in s && 'U' !in s && 'T' !in t && 'U' !in t;
    assert !SameVector(s[0], t[0]);
    assert Mismatches(s, t) == n;
    assert Matches(s, t) == 0;
    assert 0 as real / n as real == 0.0;
  }

  /** An all-T sequence against the all-U sequence of the same length is a type mismatch,
      although the two encode to the same vector. */
  lemma CompareThymineAgainstUracil(n: nat)
    requires MinLength <= n <= MaxLength
    ensures CompareSequences(Repeat('T', n), Repeat('U', n)) == Err(TypeMismatch(DNA, RNA))
    ensures OneHotEncode(Repeat('T', n)) == OneHotEncode(Repeat('U', n))
  {
    var s, t := Repeat('T', n), Repeat('U', n);
    assert s[0] == 'T' && t[0] == 'U';
    assert 'U' !in s && 'T' !in t;
    UracilEncodesAsThymine(t);
    assert Replace(t, 'U', 'T') == s;
  }

  /** compare_sequences does not change letter case: a lower-case sequence of valid
      length passes every validator and fails at the lookup of its first symbol,
      against any DNA-typed partner of the same length. */
  lemma CompareLowerCaseFailsAtLookup(s: string, t: string)
    requires LengthInBounds(s) && |t| == |s| && !MixedMarkers(t) && 'U' !in t
    requires forall i :: 0 <= i < |s| ==> 'a' <= s[i] <= 'z'
    ensures CompareSequences(s, t) == Err(UnknownSymbol(s[0]))
  {
    assert 'T' !in s && 'U' !in s;
    assert !AllKnown(s) by { assert s[0] !in BaseToVector; }
    assert FirstUnknown(s) == 0;
  }

  /** numpy's stacking error cannot occur, since both sequences have at least 30 bases;
      the comparison raises the lookup KeyError, the one failure that is not a
      ValueError, exactly when every gate passes and some symbol is not in the table. */
  lemma CompareFailureKinds(seq1: string, seq2: string)
    ensures CompareSequences(seq1, seq2) != Err(NothingToStack)
    ensures (CompareSequences(seq1, seq2).Err? && !IsValueError(CompareSequences(seq1, seq2).error))
            <==> PassesGates(seq1, seq2) && !(AllKnown(seq1) && AllKnown(seq2))
  {
  }
}
