/**
 * The safe ServiceError enumeration and its conversions to and from the C
 * error code (api/src/safe_api/mod.rs). SUCCESS has no safe counterpart: it
 * becomes Ok(()) on the way in, and only Ok(()) produces it on the way out.
 */
module ServiceErrors {
  import opened Wrappers
  import C = CBindings

  datatype ServiceError =
    | CoreInternalError
    | InvalidInput0 | InvalidInput1 | InvalidInput2 | InvalidInput3
    | InvalidInput4 | InvalidInput5 | InvalidInput6 | InvalidInput7
    | NotFound
    | Unauthorized
    | Duplicate
    | PluginUninit
    | InvalidResponse
    | ShutingDown

  /** CServiceError::to_rust */
  function ToRust(c: C.CServiceError): (r: Result<(), ServiceError>)
    ensures r.Ok? <==> c == C.Success
  {
    match c
    case Success => Ok(())
    case CoreInternalError => Err(CoreInternalError)
    case InvalidInput0 => Err(InvalidInput0)
    case InvalidInput1 => Err(InvalidInput1)
    case InvalidInput2 => Err(InvalidInput2)
    case InvalidInput3 => Err(InvalidInput3)
    case InvalidInput4 => Err(InvalidInput4)
    case InvalidInput5 => Err(InvalidInput5)
    case InvalidInput6 => Err(InvalidInput6)
    case InvalidInput7 => Err(InvalidInput7)
    case NotFound => Err(NotFound)
    case Unauthorized => Err(Unauthorized)
    case Duplicate => Err(Duplicate)
    case PluginUninit => Err(PluginUninit)
    case InvalidResponse => Err(InvalidResponse)
    case ShutingDown => Err(ShutingDown)
  }

  /** ServiceError::to_c: never SUCCESS. */
  function ToC(e: ServiceError): (r: C.CServiceError)
    ensures r != C.Success
  {
    match e
    case CoreInternalError => C.CoreInternalError
    case InvalidInput0 => C.InvalidInput0
    case InvalidInput1 => C.InvalidInput1
    case InvalidInput2 => C.InvalidInput2
    case InvalidInput3 => C.InvalidInput3
    case InvalidInput4 => C.InvalidInput4
    case InvalidInput5 => C.InvalidInput5
    case InvalidInput6 => C.InvalidInput6
    case InvalidInput7 => C.InvalidInput7
    case NotFound => C.NotFound
    case Unauthorized => C.Unauthorized
    case Duplicate => C.Duplicate
    case PluginUninit => C.PluginUninit
    case InvalidResponse => C.InvalidResponse
    case ShutingDown => C.ShutingDown
  }

  /** From<Result<(), ServiceError>> for CServiceError (through From<()> and From<ServiceError>). */
  function FromResult(r: Result<(), ServiceError>): (c: C.CServiceError)
    ensures (c == C.Success) <==> r.Ok?
  {
    match r
    case Ok(_) => C.Success
    case Err(e) => ToC(e)
  }

  /** Converting a safe error to C and back gives the same error. */
  lemma ToRustToC(e: ServiceError)
    ensures ToRust(ToC(e)) == Err(e)
  {
  }

  /** ToC is injective: distinct safe errors have distinct codes. */
  lemma ToCInjective(a: ServiceError, b: ServiceError)
    ensures ToC(a) == ToC(b) ==> a == b
  {
    ToRustToC(a);
    ToRustToC(b);
  }

  /** Every C code survives the trip through the safe Result and back. */
  lemma {:induction false} FromResultToRust(c: C.CServiceError)
    ensures FromResult(ToRust(c)) == c
  {
    match c
    case Success =>
    case CoreInternalError =>
    case InvalidInput0 =>
    case InvalidInput1 =>
    case InvalidInput2 =>
    case InvalidInput3 =>
    case InvalidInput4 =>
    case InvalidInput5 =>
    case InvalidInput6 =>
    case InvalidInput7 =>
    case NotFound =>
    case Unauthorized =>
    case Duplicate =>
    case PluginUninit =>
    case InvalidResponse =>
    case ShutingDown =>
  }

  /** Every safe Result survives the trip through the C code and back. */
  lemma ToRustFromResult(r: Result<(), ServiceError>)
    ensures ToRust(FromResult(r)) == r
  {
    match r
    case Ok(u) =>
      assert u == ();
    case Err(e) =>
      ToRustToC(e);
  }
}
