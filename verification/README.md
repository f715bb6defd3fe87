# GenSeq similarity pipeline, modelled in Dafny

This project models the encode-validate-compare pipeline of `genseq_sim.py`.
Two nucleic-acid sequences of 30 to 50 bases are checked in a fixed order:

- the length of each sequence;
- equal lengths;
- the DNA/RNA type of each sequence (T marks DNA, U marks RNA, both together are refused);
- equal types.

Each sequence is then one-hot encoded into a vector of length 4n. The pipeline
reports the Euclidean distance and the cosine similarity of the two vectors.

Modules:

- `Outcomes` (outcomes.dfy): the classified failures (`Failure`), the two sequence
  types and a `Result` type. Every exception the code raises becomes an `Err` value.
- `Validation` (validation.dfy): `ValidateLength` and `DetectSequenceType`.
- `Encoder` (encoder.dfy): the constant base table `BaseToVector` and the lookup of
  every base in order. It also models numpy's `column_stack` (a 4 x n matrix) and the
  row-major `flatten`. The layout is therefore channel-major: entry `k*n + i` is channel
  `k` of base `i`. The vector is not a per-position concatenation of base vectors.
- `Substitution` (encoder.dfy): T and U are interchangeable for the encoder.
- `Metrics` (metrics.dfy): squared distance, dot product and squared norm of integer
  vectors, and cosine similarity for vectors of equal norm.
- `Similarity` (similarity.dfy): the metrics of two encodings, expressed through
  per-position counts of bases that share or do not share a vector.
- `Comparator`, `ComparatorProperties` (comparator.dfy): `compare_sequences` and what
  it promises over all inputs, plus the known scenarios.

Numbers are exact, not floating point. Encoded entries are 0 or 1, so the squared
distance and the dot product are integers. Every valid encoding has squared norm
n >= 30, so in exact arithmetic the product of the two norms is n. The Euclidean
distance is reported by its square. The cosine similarity is the exact rational
`dot / n`; numpy's float result can differ from it by rounding (see "Left out").

Points where the code behaves differently from what a reader might expect; the model
follows the code:

- `compare_sequences` does not upper-case its arguments. Only the interactive `main`
  does. A lower-case sequence passes every validator and fails at the table lookup
  (`CompareLowerCaseFailsAtLookup`).
- No validator rejects a symbol outside A, C, G, T, U. Such a symbol surfaces only as
  the lookup error, after all six gates pass.
- The encoding is channel-major, as described above.
- The zero-norm case of the cosine similarity cannot arise, because every encoding has
  squared norm n >= 30 (`Similarity.EncodedSquaredNorm`, `Similarity.EncodedCosine`).

## Model

| member | source | states |
|---|---|---|
| `Encoder.BaseTableIsOneHot` | genseq_sim.py:4-10 | The table's keys are exactly A, C, G, T, U. Every vector is one-hot of length 4. U and T share a vector. A, C, G and T have pairwise different vectors. |
| `Encoder.FirstUnknown` | genseq_sim.py:14 | Gives the position of the first symbol missing from the table; every symbol before it is in the table. |
| `Encoder.LookUpAll` | genseq_sim.py:14 | The per-base lookup succeeds exactly when every symbol is in the table, and then yields the table vector of each base in order. Otherwise it fails with the lookup error of the first unknown symbol. |
| `Encoder.ColumnStack` | genseq_sim.py:15 | Stacking n four-entry columns gives a 4 x n matrix whose entry (k, i) is entry k of column i. An empty list is refused. |
| `Encoder.Flatten` | genseq_sim.py:16 | The rows of a matrix laid end to end, first row first (row-major order). |
| `Encoder.FlattenFourRows` | genseq_sim.py:16 | Flattening a four-row matrix lays its rows end to end, in order. |
| `Encoder.OneHotEncode` | genseq_sim.py:13-17 | Succeeds exactly on a non-empty string of table symbols and returns a vector of length 4n laid out channel-major. Otherwise it fails with the first unknown symbol's lookup error, or, for the empty string, numpy's stacking error. |
| `Encoder.EncodedEntry` | genseq_sim.py:13-17 | Entry k*n + i of the encoding is channel k of the vector of base i. |
| `Substitution.LookUpAllReplace` | genseq_sim.py:14 | Replacing one symbol by another with the same table vector leaves the lookup unchanged, including its failure. |
| `Substitution.UracilEncodesAsThymine` | genseq_sim.py:8-9 | Replacing every U by T, or every T by U, leaves the encoding unchanged. |
| `Metrics.SquaredDistance` | genseq_sim.py:19-20 | The sum of squared entry differences of two equal-length vectors: the square of `np.linalg.norm(v1 - v2)`. |
| `Metrics.Dot` | genseq_sim.py:22-23 | The sum of entry products of two equal-length vectors, as `np.dot` computes. |
| `Metrics.SquaredNorm` | genseq_sim.py:22-23 | The sum of squared entries: the square of `np.linalg.norm(v)`. It is 0 exactly when every entry is 0. |
| `Metrics.Cosine` | genseq_sim.py:22-23 | The dot product over the common squared norm, which equals dot / (norm(v1) * norm(v2)) when both norms are equal and non-zero. |
| `Metrics.SquaredDistanceSymmetric` | genseq_sim.py:19-20 | The squared Euclidean distance is symmetric. |
| `Metrics.SquaredDistanceZeroIff` | genseq_sim.py:19-20 | The squared distance is 0 exactly when the two vectors are equal. |
| `Metrics.DotSymmetric` | genseq_sim.py:22-23 | The dot product in the cosine numerator is symmetric. |
| `Metrics.SquaredNormIsSelfDot` | genseq_sim.py:22-23 | The squared norm of a vector is its dot product with itself. |
| `Metrics.SquaredDistanceExpansion` | genseq_sim.py:19-23 | The squared distance equals the sum of the two squared norms minus twice the dot product. |
| `Metrics.DotAppend` | genseq_sim.py:22-23 | The dot product of two concatenations is the sum of the dot products of their parts. |
| `Validation.ValidateLength` | genseq_sim.py:37-39 | Fails, with the length error, exactly when the length is below 30 or above 50. |
| `Validation.Bases` | genseq_sim.py:26 | The set of distinct symbols contains exactly the symbols that occur in the string. |
| `Validation.DetectSequenceType` | genseq_sim.py:25-35 | Fails with the mixed-marker error exactly when both T and U occur. Returns RNA exactly when U occurs without T. Returns DNA exactly when U does not occur, including when neither marker does. |
| `Similarity.Matches` | genseq_sim.py:54-58 | Counts positions whose two bases share a vector. The count is at most n. It is n exactly when every position matches and 0 exactly when none does. |
| `Similarity.Mismatches` | genseq_sim.py:54-58 | Counts positions whose two bases have different vectors. The count is 0 exactly when every position matches and n exactly when none does. |
| `Similarity.MatchesPlusMismatches` | genseq_sim.py:54-58 | Every position is counted either as a match or as a mismatch. |
| `Similarity.Row` | genseq_sim.py:15 | Row k of the stacked matrix holds channel k of each base, in order. |
| `Similarity.EncodingIsRows` | genseq_sim.py:13-17 | The encoding is the four rows of the stacked matrix, one after another. |
| `Similarity.BaseDot` | genseq_sim.py:4-10 | For two bases, the channel products sum to 1 when they share a vector and to 0 otherwise. |
| `Similarity.RowsDot` | genseq_sim.py:13-23 | Summed over the four rows, the dot products count the matching positions. |
| `Similarity.EncodedDot` | genseq_sim.py:22-23 | The dot product of two encodings is the number of positions whose bases share a vector. |
| `Similarity.EncodedSquaredNorm` | genseq_sim.py:13-23 | Each encoding has squared norm n, since each position has exactly one 1. |
| `Similarity.EncodedSquaredDistance` | genseq_sim.py:19-20 | The squared distance of two encodings is twice the number of positions whose bases have different vectors. |
| `Similarity.EncodedCosine` | genseq_sim.py:22-23 | Both norms equal sqrt n, so the cosine similarity is the number of matching positions divided by n. It lies in [0, 1]. |
| `Similarity.EncodingsEqualIff` | genseq_sim.py:13-20 | Two encodings are equal exactly when no position mismatches. |
| `Comparator.CompareSequences` | genseq_sim.py:41-60 | The gates apply in order: length of seq1, length of seq2, equal lengths, type of seq1, type of seq2, equal types (the error carries both types). The first failing gate decides the error. Then the first unknown symbol of seq1, then of seq2, fails the lookup. Success happens exactly when all of these pass. On success the squared distance is 2 x mismatches and the similarity is matches / n. |
| `ComparatorProperties.CompareIdentity` | genseq_sim.py:41-60 | Comparing a valid sequence with itself gives squared distance 0 and similarity 1. |
| `ComparatorProperties.CompareSymmetric` | genseq_sim.py:41-60 | Swapping the arguments changes neither whether the comparison succeeds nor the two metrics it returns. |
| `ComparatorProperties.CompareMetricsMeaning` | genseq_sim.py:54-58 | When every gate and lookup passes, which is exactly when the comparison succeeds, the distance is 0 exactly when the encodings are equal. The similarity lies in [0, 1] and is 1 exactly when the encodings are equal. |
| `ComparatorProperties.CompareKnownDistance` | genseq_sim.py:41-60 | n A's against n C's give squared distance 2n and similarity 0. For n = 30 the squared distance is 60. |
| `ComparatorProperties.CompareThymineAgainstUracil` | genseq_sim.py:48-52 | n T's against n U's fail with a DNA-vs-RNA type mismatch, although the two sequences encode to the same vector. |
| `ComparatorProperties.CompareLowerCaseFailsAtLookup` | genseq_sim.py:41-55 | Any all-lower-case sequence of valid length, compared with a DNA-typed sequence of the same length, passes every validator and fails with the lookup error of its first symbol. |
| `ComparatorProperties.CompareFailureKinds` | genseq_sim.py:41-60 | The comparison never fails with numpy's stacking error. It fails with the lookup KeyError, the only failure that is not a ValueError, exactly when all six gates pass and some symbol of either sequence is not in the table. |

## Left out

- `main` (genseq_sim.py:62-79) is not modelled: its `input`/`print` retry loop, the `.upper()` at the prompt, and its `except ValueError`. That handler would not catch the lookup `KeyError` that a symbol outside A, C, G, T, U raises, so such input would end the program instead of re-prompting (`CompareFailureKinds` states exactly which inputs raise it).
- Floating point is not modelled. `np.linalg.norm` and the float division are replaced by the exact squared distance and the exact rational cosine similarity; the square root of the reported squared distance is the distance.
- `Similarity.EncodedCosine`, `ComparatorProperties.CompareIdentity`, `ComparatorProperties.CompareMetricsMeaning`: the [0, 1] bound and the value 1.0 hold for the exact ratio. numpy's result differs by rounding and can exceed 1: in doubles sqrt(n) * sqrt(n) differs from n for some lengths (n = 31 among them), so two identical sequences of such a length give a similarity slightly above 1.0.
- `Metrics.Cosine`: defined only for two vectors of the same non-zero squared norm. In general the norm product needs a square root, and numpy would give `nan` (0 / 0.0) for a zero norm. Every pair of valid encodings has equal norms n >= 30.
- `Metrics.SquaredDistance`, `Metrics.Dot`: require vectors of equal length. numpy's broadcasting of mismatched shapes is not modelled; the pipeline only ever passes equal lengths.
- The text of the error messages is not modelled. A failure records its kind, and a type mismatch records both inferred types. The two length checks raise the same message, so which sequence failed is not observable and not recorded.
- numpy's fixed-width integer dtype is not modelled; all entries are 0 or 1 and all sums are at most 100.
