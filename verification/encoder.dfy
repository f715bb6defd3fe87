/** The one-hot encoder of genseq_sim.py: the fixed base table, the per-base lookup,
    numpy's column stacking and the row-major flattening. */
module Encoder {
  import opened Outcomes

  /** Number of channels of a base vector, one per DNA base A, C, G, T. */
  const Channels: nat := 4

  /** BASE_TO_VECTOR: each base to its indicator vector; U shares T's vector. */
  const BaseToVector: map<char, seq<int>> := map[
    'A' := [1, 0, 0, 0],
    'C' := [0, 1, 0, 0],
    'G' := [0, 0, 1, 0],
    'T' := [0, 0, 0, 1],
    'U' := [0, 0, 0, 1]
  ]

  /** `v` has four entries, exactly one of which is 1, the others 0. */
  predicate OneHot(v: seq<int>) {
    && |v| == Channels
    && exists k :: 0 <= k < Channels && v[k] == 1 && forall j :: 0 <= j < Channels && j != k ==> v[j] == 0
  }

  /** The base table covers exactly A, C, G, T and U, every entry is one-hot, U and T
      share a vector, and the four DNA bases have four different vectors. */
  lemma BaseTableIsOneHot()
    ensures forall b :: b in BaseToVector <==> b in "ACGTU"
    ensures forall b :: b in BaseToVector ==> OneHot(BaseToVector[b])
    ensures BaseToVector['U'] == BaseToVector['T']
    ensures forall b, c :: b in "ACGT" && c in "ACGT" && b != c ==> BaseToVector[b] != BaseToVector[c]
  {
    assert OneHot(BaseToVector['A']) by { assert BaseToVector['A'][0] == 1; }
    assert OneHot(BaseToVector['C']) by { assert BaseToVector['C'][1] == 1; }
    assert OneHot(BaseToVector['G']) by { assert BaseToVector['G'][2] == 1; }
    assert OneHot(BaseToVector['T']) by { assert BaseToVector['T'][3] == 1; }
  }

  /** Every symbol of `s` is a key of the base table. */
  predicate AllKnown(s: string) {
    forall i :: 0 <= i < |s| ==> s[i] in BaseToVector
  }

  /** The position of the first symbol of `s` that the base table does not know. */
  function FirstUnknown(s: string): (j: nat)
    requires !AllKnown(s)
    ensures j < |s| && s[j] !in BaseToVector && AllKnown(s[..j])
  {
    if s[0] !in BaseToVector then 0
    else
      assert !AllKnown(s[1..]) by {
        var i :| 0 <= i < |s| && s[i] !in BaseToVector;
        assert s[1..][i - 1] == s[i];
      }
      var j := FirstUnknown(s[1..]);
      assert s[..j + 1] == [s[0]] + s[1..][..j];
      1 + j
  }

  /** The list comprehension of one_hot_encode: each base looked up in order, the
      first one missing from the table raising a lookup error. */
  function LookUpAll(s: string): (r: Result<seq<seq<int>>>)
    ensures r.Ok? <==> AllKnown(s)
    ensures r.Ok? ==> |r.value| == |s| && forall i :: 0 <= i < |s| ==> r.value[i] == BaseToVector[s[i]]
    ensures r.Err? ==> r.error == UnknownSymbol(s[FirstUnknown(s)])
  {
    if |s| == 0 then Ok([])
    else if s[0] !in BaseToVector then Err(UnknownSymbol(s[0]))
    else
      match LookUpAll(s[1..])
      case Err(e) => Err(e)
      case Ok(rest) => Ok([BaseToVector[s[0]]] + rest)
  }

  /** np.column_stack of four-entry columns: the 4 x n matrix whose column i is
      columns[i]; numpy refuses to stack an empty list. */
  function ColumnStack(columns: seq<seq<int>>): (m: Result<seq<seq<int>>>)
    requires forall i :: 0 <= i < |columns| ==> |columns[i]| == Channels
    ensures m.Err? <==> |columns| == 0
    ensures m.Err? ==> m.error == NothingToStack
    ensures m.Ok? ==> |m.value| == Channels
    ensures m.Ok? ==> forall k :: 0 <= k < Channels ==> |m.value[k]| == |columns|
    ensures m.Ok? ==> forall k, i :: 0 <= k < Channels && 0 <= i < |columns| ==> m.value[k][i] == columns[i][k]
  {
    if |columns| == 0 then Err(NothingToStack)
    else Ok(seq(Channels, k requires 0 <= k < Channels =>
              seq(|columns|, i requires 0 <= i < |columns| => columns[i][k])))
  }

  /** ndarray.flatten: the rows of a matrix laid end to end (row-major order). */
  function Flatten(m: seq<seq<int>>): seq<int> {
    if |m| == 0 then [] else m[0] + Flatten(m[1..])
  }

  /** Flattening four rows lays them end to end in order. */
  lemma FlattenFourRows(m: seq<seq<int>>)
    requires |m| == Channels
    ensures Flatten(m) == m[0] + m[1] + m[2] + m[3]
  {
    calc {
      Flatten(m);
      m[0] + Flatten(m[1..]);
      m[0] + (m[1] + Flatten(m[2..]));
      { assert m[2..][1..] == m[3..]; }
      m[0] + (m[1] + (m[2] + Flatten(m[3..])));
      { assert m[3..][1..] == []; }
      m[0] + (m[1] + (m[2] + m[3]));
    }
  }

  /** one_hot_encode: succeeds exactly on a non-empty string of table symbols and
      returns the channel-major vector of length 4n whose first n entries are channel
      0 (A) of each base in order, the next n channel 1 (C), then channel 2 (G), then
      channel 3 (T/U); otherwise raises the lookup error of the first unknown symbol,
      or, on the empty string, numpy's stacking error. */
  function OneHotEncode(s: string): (r: Result<seq<int>>)
    ensures r.Ok? <==> 0 < |s| && AllKnown(s)
    ensures r.Ok? ==> |r.value| == Channels * |s|
    ensures r.Ok? ==> forall i :: 0 <= i < |s| ==>
                        && r.value[i] == BaseToVector[s[i]][0]
                        && r.value[|s| + i] == BaseToVector[s[i]][1]
                        && r.value[2 * |s| + i] == BaseToVector[s[i]][2]
                        && r.value[3 * |s| + i] == BaseToVector[s[i]][3]
    ensures r.Err? ==> r.error == if AllKnown(s) then NothingToStack else UnknownSymbol(s[FirstUnknown(s)])
  {
    var vectors :- LookUpAll(s);
    var matrix :- ColumnStack(vectors);
    FlattenFourRows(matrix);
    Ok(Flatten(matrix))
  }

  /** The layout of the encoding: entry k*n + i is channel k of base i. */
  lemma EncodedEntry(s: string, k: nat, i: nat)
    requires OneHotEncode(s).Ok? && k < Channels && i < |s|
    ensures k * |s| + i < |OneHotEncode(s).value|
    ensures OneHotEncode(s).value[k * |s| + i] == BaseToVector[s[i]][k]
  {
    if k == 0 {
      assert k * |s| == 0;
    } else if k == 1 {
      assert k * |s| == |s|;
    } else if k == 2 {
      assert k * |s| == 2 * |s|;
    } else {
      assert k * |s| == 3 * |s|;
    }
  }
}

/** Replacing symbols that share a table vector does not change the encoding. */
module Substitution {
  import opened Outcomes
  import opened Encoder

  /** `s` with every occurrence of `from` replaced by `to`. */
  function Replace(s: string, from: char, to: char): (r: string)
    ensures |r| == |s|
    ensures forall i :: 0 <= i < |s| ==> r[i] == if s[i] == from then to else s[i]
  {
    if |s| == 0 then [] else [if s[0] == from then to else s[0]] + Replace(s[1..], from, to)
  }

  /** Looking up a string in which one symbol was replaced by another with the same
      vector gives the same vectors, or fails on the same symbol. */
  lemma {:induction false} LookUpAllReplace(s: string, from: char, to: char)
    requires from in BaseToVector && to in BaseToVector && BaseToVector[from] == BaseToVector[to]
    ensures LookUpAll(Replace(s, from, to)) == LookUpAll(s)
  {
    if |s| > 0 {
      LookUpAllReplace(s[1..], from, to);
      assert Replace(s, from, to)[1..] == Replace(s[1..], from, to);
    }
  }

  /** Encoding treats T and U alike: swapping every U for T, or every T for U, leaves
      the encoding (and any failure) unchanged. */
  lemma UracilEncodesAsThymine(s: string)
    ensures OneHotEncode(Replace(s, 'U', 'T')) == OneHotEncode(s)
    ensures OneHotEncode(Replace(s, 'T', 'U')) == OneHotEncode(s)
  {
    LookUpAllReplace(s, 'U', 'T');
    LookUpAllReplace(s, 'T', 'U');
  }
}
