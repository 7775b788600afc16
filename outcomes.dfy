/** Failure-compatible result types and the errors the recipe code raises. */
module Outcomes {

  /** Python's `None` or a value. */
  datatype Option<+T> = None | Some(value: T)

  /**
   * The exceptions that abort a stage. Every one of them propagates out of
   * the stage constructor and ends the whole pipeline.
   */
  datatype Error =
    // RuntimeError '{tool} version not fulfilled: {given}. Minimum required version: {required}.'
    | VersionNotFulfilled(tool: string, given: string, required: string)
    // ValueError from StrictVersion: the string is not a strict version
    | InvalidVersion(version: string)
    // RuntimeError '<feature> : not implemented yet...'
    | NotImplemented(feature: string)
    // RuntimeError 'Implementation Error: compiler is not an HPCCM building block'
    | NotABuildingBlock
    // AttributeError: an attribute that only some handler sets was read before it was set
    | MissingAttribute(attribute: string)
    // KeyError: a dictionary or a str.format call lacks a key
    | MissingKey(key: string)
    // KeyError from the SIMD name table
    | UnknownSimd(simd: string)
    // ValueError: an engine argument does not split into exactly one key and one value
    | MalformedEngineArgument(argument: string)
    // TypeError: an empty engine string parses to None, which is then subscripted
    | EmptyEngine

  /** A value or the exception that was raised instead. */
  datatype Result<+T> = Ok(value: T) | Err(error: Error) {
    predicate IsFailure() { Err? }

    function PropagateFailure<U>(): Result<U>
      requires Err?
    {
      Err(error)
    }

    function Extract(): T
      requires Ok?
    {
      value
    }
  }

  /** A step that returns nothing, or the exception it raised. */
  datatype Outcome = Pass | Fail(error: Error) {
    predicate IsFailure() { Fail? }

    function PropagateFailure(): Outcome
      requires Fail?
    {
      this
    }
  }

  /** Reading an attribute that may never have been set: an AttributeError if it was not. */
  function Attribute<T>(v: Option<T>, name: string): (r: Result<T>)
    ensures r.Ok? <==> v.Some?
    ensures r.Ok? ==> r.value == v.value
    ensures r.Err? ==> r.error == MissingAttribute(name)
  {
    match v
    case None => Err(MissingAttribute(name))
    case Some(x) => Ok(x)
  }
}
