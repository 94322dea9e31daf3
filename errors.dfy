/** Status codes and the error type of the binding (Sources/SoundIO/Errors.swift).
    Also the few shapes every other module shares: C integers, pointers, closures. */
module Errors {

  /** A C `int` as the binding sees it: a signed 32-bit value (`CInt`, `Int32`). */
  type CInt = x: int | -0x8000_0000 <= x < 0x8000_0000

  /** A C pointer, as an address; 0 is the null pointer. */
  type Ptr = nat

  /** A Swift closure the caller hands to the binding. Only its identity matters to the
      binding, which stores it and later calls it. */
  datatype Closure = Closure(tag: nat)

  /** `soundio_strerror`: the C library's text for a status code. It is foreign code, so
      every operation that turns a code into an error takes it as a parameter. */
  type Strerror = CInt -> string

  datatype Option<+T> = None | Some(value: T)

  datatype Result<+T, +E> = Success(value: T) | Failure(error: E)

  /** The outcome of a Swift function that returns nothing but may throw. */
  datatype Outcome<+E> = Pass | Fail(error: E)

  /** `SoundIOError`: the only thing it carries is a message. */
  datatype SoundIOError = SoundIOError(message: string)
  {
    /** `CustomStringConvertible.description`. */
    function Description(): (s: string)
      ensures s == message
    {
      message
    }
  }

  /** `SoundIOError(errorCode:)`: the message is the C library's text for that code. */
  function FromCode(code: CInt, strerror: Strerror): (e: SoundIOError)
    ensures e.message == strerror(code)
  {
    SoundIOError(strerror(code))
  }

  /** `CInt.ensureSuccess()`: a status throws exactly when it is strictly positive, so 0
      and every negative status are success; the error thrown is the one for that code. */
  function EnsureSuccess(status: CInt, strerror: Strerror): (r: Outcome<SoundIOError>)
    ensures r == Pass <==> status <= 0
    ensures r != Pass ==> r == Fail(FromCode(status, strerror))
  {
    if 0 < status then Fail(FromCode(status, strerror)) else Pass
  }
}
