/** Status codes and call outcomes shared by every module of the model. */
module Errors {

  /** A status code an engine call reports on failure: always negative (`err < 0`). */
  type ErrorCode = c: int | c < 0 witness -1

  /** `js_pending_exception`: the code returned once a JavaScript exception is pending. */
  const PendingException: ErrorCode := -1

  /** What a fallible engine call yields: its out-parameter, or a negative status. */
  datatype Reply<+T> = Done(value: T) | Failed(code: ErrorCode)

  /**
   * What a conversion of the library yields.  `Err` passes an engine status up
   * unchanged; `Thrown` means a type error "Value is not of type '<label>'" was
   * thrown and `js_pending_exception` returned; `Abort` means a debug
   * assertion failed, which terminates the process.
   */
  datatype Outcome<+T> = Ok(value: T) | Err(code: ErrorCode) | Thrown(expected: string) | Abort
  {
    /** The `int` the C++ function returns for this outcome. */
    function Status(): int
      requires !Abort?
    {
      match this
      case Ok(_) => 0
      case Err(c) => c
      case Thrown(_) => PendingException
    }

    /** The same failure at another result type. */
    function Cast<U>(): (r: Outcome<U>)
      requires !Ok?
      ensures !r.Ok? && r.Abort? == Abort?
      ensures !Abort? ==> r.Status() == Status()
    {
      match this
      case Err(c) => Err(c)
      case Thrown(l) => Thrown(l)
      case Abort => Abort
    }

    /** The outcome with its value dropped: only success or the failure remains. */
    function Drop(): (r: Outcome<()>)
      ensures r.Ok? == Ok?
      ensures !Ok? ==> r == Cast()
    {
      if Ok? then Ok(()) else Cast()
    }
  }

  /** An engine reply seen as an outcome of the library: the status is passed up unchanged. */
  function FromReply<T>(r: Reply<T>): (o: Outcome<T>)
    ensures o.Ok? <==> r.Done?
    ensures r.Done? ==> o.value == r.value
    ensures r.Failed? ==> o == Err(r.code)
  {
    match r
    case Done(x) => Ok(x)
    case Failed(c) => Err(c)
  }
}
