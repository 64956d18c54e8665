/**
 * Failure-aware results. The simulations signal broken states by raising
 * Python exceptions; here every such exception becomes an `Err` value.
 */
module Results {

  /** The exceptions the modelled code can raise, one constructor each. */
  datatype Fault =
    | Conflict        // a cell holds two different object kinds (the explicit `raise Exception`)
    | NotInList       // `list.remove` of an element the list does not hold (ValueError)
    | NoDirectionLeft // `choice` on the exhausted list of directions (IndexError)
    | EmptyMemory     // `memory[0]` on an empty memory (IndexError)
    | ZeroDistance    // `100 / radius` with a radius of 0 (ZeroDivisionError)
    | NoPartner       // `self.linked.waiting` while `linked` is None (AttributeError)
    | NoColumn        // `board[x]` with `x` past the last column (IndexError)
    | NoTileLeft      // `choice` on the exhausted list of tiles (IndexError)

  /** Python's `None` or a value. */
  datatype Option<+T> = None | Some(value: T)

  /** A value, or the exception that interrupted the computation. */
  datatype Result<+T> = Ok(value: T) | Err(fault: Fault) {

    predicate IsFailure() {
      Err?
    }

    function PropagateFailure<U>(): Result<U>
      requires Err?
    {
      Err(fault)
    }

    function Extract(): T
      requires Ok?
    {
      value
    }
  }
}
