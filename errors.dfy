/**
  * The runtime errors the machine reports, and the tag checks `expect_int` and
  * `expect_string` it applies to popped values.
  */
module Errors {
  import opened Wrappers
  import opened Values

  datatype Error =
    | StackOverflow                 // push onto a full operand stack
    | StackUnderflow                // pop from an empty operand stack
    | InvalidConstantIndex(index: nat)  // "Invalid index for constant", with the instruction's operand
    | ExpectedNumber(found: Value)  // `expect_int` on a value that is not a number
    | ExpectedString(found: Value)  // `expect_string` on a value that is not a string

  /** `expect_int`: the number inside `v`, or an error naming `v`. */
  function ExpectInt(v: Value): (r: Result<int, Error>)
    ensures r.Success? <==> v.Number?
    ensures r.Success? ==> r.value == v.n
    ensures r.Failure? ==> r.error == ExpectedNumber(v)
  {
    match v
    case Number(n) => Success(n)
    case _ => Failure(ExpectedNumber(v))
  }

  /** `expect_string`: the text inside `v`, or an error naming `v`. */
  function ExpectString(v: Value): (r: Result<string, Error>)
    ensures r.Success? <==> v.ObjString?
    ensures r.Success? ==> r.value == v.s
    ensures r.Failure? ==> r.error == ExpectedString(v)
  {
    match v
    case ObjString(s) => Success(s)
    case _ => Failure(ExpectedString(v))
  }
}
