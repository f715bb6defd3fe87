/** The two validators of genseq_sim.py: the length bounds and the DNA/RNA classification. */
module Validation {
  import opened Outcomes

  /** Inclusive bounds on the length of a sequence. */
  const MinLength: nat := 30
  const MaxLength: nat := 50

  predicate LengthInBounds(s: string) {
    MinLength <= |s| <= MaxLength
  }

  /** validate_length: passes exactly when the length lies in [30, 50]. */
  function ValidateLength(s: string): (c: Check)
    ensures c.Fail? <==> |s| < MinLength || |s| > MaxLength
    ensures c.Fail? ==> c.error == LengthOutOfRange
  {
    if LengthInBounds(s) then Pass else Fail(LengthOutOfRange)
  }

  /** The set of distinct symbols of `s` (Python's `set(seq)`). */
  function Bases(s: string): (bases: set<char>)
    ensures forall c :: c in bases <==> c in s
  {
    set i | 0 <= i < |s| :: s[i]
  }

  /** detect_sequence_type: a sequence holding both markers is refused; otherwise
      a 'U' makes it RNA, and everything else, including a sequence with neither
      marker, is DNA. Only the upper-case markers are looked for. */
  function DetectSequenceType(s: string): (r: Result<SeqType>)
    ensures r.Err? <==> 'T' in s && 'U' in s
    ensures r.Err? ==> r.error == MixedTypeMarkers
    ensures r == Ok(RNA) <==> 'U' in s && 'T' !in s
    ensures r == Ok(DNA) <==> 'U' !in s
  {
    var bases := Bases(s);
    var hasT := 'T' in bases;
    var hasU := 'U' in bases;
    if hasT && hasU then Err(MixedTypeMarkers)
    else if hasU then Ok(RNA)
    else Ok(DNA)
  }
}
