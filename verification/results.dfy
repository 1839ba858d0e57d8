/** Failure-compatible wrappers shared by the whole model.

    The Go program reports every fatal condition with `panic` (an unknown
    opcode, an oversized ROM, an array index out of range). Here each of those
    becomes an `Err` carrying a `Fault`, so that the error paths are part of
    the model instead of being excluded by preconditions.
 */
module Results {

  /** The fatal conditions the interpreter can run into. */
  datatype Fault =
    | UnknownOpcode(op: bv16)       // the decoder found no handler for `op`
    | IndexOutOfRange(index: int)   // a Go array was indexed at `index`
    | RomTooLarge(size: int)        // a ROM of `size` bytes does not fit

  datatype Result<+T> = Ok(value: T) | Err(fault: Fault) {

    predicate IsFailure() {
      Err?
    }

    function PropagateFailure<U>(): Result<U>
      requires Err?
    {
      Err(fault)
    }

    function Extract(): T
      requires Ok?
    {
      value
    }
  }

  datatype Option<+T> = None | Some(value: T)
}
