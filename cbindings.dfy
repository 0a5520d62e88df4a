/**
 * The C-side value types of the boundary as the generated bindings declare them
 * (api/src/capi/header/ft_rustbindings.h): the flat error code enumeration, the
 * two-word Uuid and an opaque non-null function pointer.
 */
module CBindings {
  import opened Bytes

  /** CServiceError: SUCCESS plus one code per safe ServiceError variant. */
  datatype CServiceError =
    | Success
    | CoreInternalError
    | InvalidInput0 | InvalidInput1 | InvalidInput2 | InvalidInput3
    | InvalidInput4 | InvalidInput5 | InvalidInput6 | InvalidInput7
    | NotFound
    | Unauthorized
    | Duplicate
    | PluginUninit
    | InvalidResponse
    | ShutingDown

  /** CUuid: two 64-bit words, most significant first. */
  datatype CUuid = CUuid(higher: u64, lower: u64)

  /** A non-null C function pointer, identified by the code it points to. */
  datatype FnPtr = FnPtr(id: nat)
}
