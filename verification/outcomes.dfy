/** The classified failures of the comparison pipeline and the result type that carries them.
    In genseq_sim.py every failure is a raised exception; here each one is a value. */
module Outcomes {

  /** The two sequence types that detect_sequence_type can infer. */
  datatype SeqType = DNA | RNA

  /** One constructor per way the pipeline can raise. Apart from `TypeMismatch`,
      which carries the two inferred types shown in its message, a failure records
      only its kind: the text of the messages is not modelled. */
  datatype Failure =
    | LengthOutOfRange                              // ValueError, validate_length
    | LengthMismatch                                // ValueError, compare_sequences
    | MixedTypeMarkers                              // ValueError, detect_sequence_type
    | TypeMismatch(first: SeqType, second: SeqType) // ValueError, compare_sequences
    | UnknownSymbol(symbol: char)                   // KeyError, the base-table lookup
    | NothingToStack                                // ValueError, numpy column_stack of no columns

  /** True of the failures Python raises as `ValueError`; the table lookup raises `KeyError`. */
  predicate IsValueError(f: Failure) {
    !f.UnknownSymbol?
  }

  /** Either the value an operation returns or the failure it raises. */
  datatype Result<+T> = Ok(value: T) | Err(error: Failure) {

    predicate IsFailure() {
      Err?
    }

    function PropagateFailure<U>(): Result<U>
      requires Err?
    {
      Err(error)
    }

    function Extract(): T
      requires Ok?
    {
      value
    }
  }

  /** The outcome of a check that returns nothing when it passes. */
  datatype Check = Pass | Fail(error: Failure)
}
