/** Option and Result, plus the ways a run of the virtual machine can abort. */
module Wrappers {

  datatype Option<T> = None | Some(value: T)

  /**
   * Every Java exception the core throws becomes a Fault and ends the run,
   * except `get` past the end of the data in BASTORE, which is caught and
   * appends instead.
   */
  datatype Fault =
    | Truncated                    // a read past the end of the class-file bytes
    | UnsupportedConstant(tag: int) // a constant-pool tag the parser does not handle
    | FieldAttributes              // a field that carries attributes
    | MethodAttributes             // a method whose attribute count is not one
    | UnknownClassAttribute        // a class attribute other than SourceFile
    | NegativeSize                 // a negative array size (code length)
    | NullPointer
    | ClassCast
    | EmptyStack
    | IndexOutOfBounds
    | TypeMismatch                 // an operand of the wrong basic type
    | ArrayBounds                  // an array index above size - 1 computed as a Java int
    | Arithmetic                   // integer division by zero
    | InvalidOpcode(code: int)
    | UnknownFormat                // LDC2_W on a constant that is neither long nor double
    | UnknownType                  // DUP2 on a value that is neither long nor double
    | NoSuchMethod
    | NotStatic
    | ClassNotFound
    | OutOfFuel                    // the model's step bound ran out

  /** A Java array or list access s[i]: an index outside the bounds throws. */
  function ElementAt<T>(s: seq<T>, i: int): (r: Result<T>)
    ensures r.Ok? <==> 0 <= i < |s|
    ensures r.Ok? ==> r.value == s[i]
  {
    if 0 <= i < |s| then Ok(s[i]) else Err(IndexOutOfBounds)
  }

  datatype Result<T> = Ok(value: T) | Err(fault: Fault)
  {
    predicate IsFailure() { Err? }

    function PropagateFailure<U>(): Result<U>
      requires Err?
    {
      Err(fault)
    }

    function Extract(): T
      requires Ok?
    {
      value
    }
  }
}
