/**
 * Conversions between the C structs that cross the boundary and their safe
 * forms (api/src/safe_api/mod.rs): event handlers, endpoint responses and the
 * capability table (ApplicationContext).
 */
module SafeApi {
  import opened Wrappers
  import C = CBindings
  import opened ServiceErrors
  import opened SafeMisc
  import OpaqueString

  /** ok_or_core: a null function pointer is a host-internal error. */
  function OkOrCore(f: Option<C.FnPtr>): (r: Result<C.FnPtr, ServiceError>)
    ensures r.Ok? <==> f.Some?
    ensures r.Ok? ==> r.value == f.value
    ensures r.Err? ==> r.error == CoreInternalError
  {
    match f
    case Some(p) => Ok(p)
    case None => Err(CoreInternalError)
  }

  // ---- event handlers ----

  datatype CEventHandler = CEventHandler(func: Option<C.FnPtr>, handlerId: C.CUuid, error: C.CServiceError)

  datatype EventHandler = EventHandler(func: C.FnPtr, handlerId: Uuid)

  /** CEventHandler::new_error: no function, a zero id, the given code. */
  function NewErrorHandler(e: C.CServiceError): (r: CEventHandler)
    ensures r.error == e && r.func.None?
  {
    CEventHandler(None, C.CUuid(0, 0), e)
  }

  /**
   * CEventHandler::to_rust: the embedded error is returned first; only then is a
   * null function pointer reported (as CoreInternalError).
   */
  function EventHandlerToRust(c: CEventHandler): (r: Result<EventHandler, ServiceError>)
    ensures c.error != C.Success ==> r == Err(ToRust(c.error).error)
    ensures c.error == C.Success && c.func.None? ==> r == Err(CoreInternalError)
    ensures r.Ok? ==> c.error == C.Success && Some(r.value.func) == c.func
                      && r.value.handlerId == UuidFromC(c.handlerId)
  {
    match ToRust(c.error)
    case Err(e) => Err(e)
    case Ok(_) =>
      match OkOrCore(c.func)
      case Err(e) => Err(e)
      case Ok(func) => Ok(EventHandler(func, UuidFromC(c.handlerId)))
  }

  /** EventHandler::to_c: the function wrapped in Some, the id converted, SUCCESS. */
  function EventHandlerToC(h: EventHandler): (r: CEventHandler)
    ensures r.error == C.Success && r.func == Some(h.func)
    ensures UuidFromC(r.handlerId) == h.handlerId
  {
    CEventHandler(Some(h.func), UuidToC(h.handlerId), C.Success)
  }

  /** From<Result<EventHandler, ServiceError>> for CEventHandler. */
  function EventHandlerFromResult(r: Result<EventHandler, ServiceError>): (c: CEventHandler)
    ensures (c.error == C.Success) <==> r.Ok?
  {
    match r
    case Ok(h) => EventHandlerToC(h)
    case Err(e) => NewErrorHandler(ToC(e))
  }

  /** A safe handler converted to C and back is the same handler. */
  lemma EventHandlerRoundTrip(h: EventHandler)
    ensures EventHandlerToRust(EventHandlerToC(h)) == Ok(h)
  {
    UuidRoundTrip(h.handlerId);
  }

  /** Any safe result, converted to C and back, is unchanged. */
  lemma EventHandlerResultRoundTrip(r: Result<EventHandler, ServiceError>)
    ensures EventHandlerToRust(EventHandlerFromResult(r)) == r
  {
    match r
    case Ok(h) => EventHandlerRoundTrip(h);
    case Err(e) => ToRustToC(e);
  }

  // ---- endpoint responses ----

  datatype CEndpointResponse = CEndpointResponse(response: OpaqueString.StringValue, error: C.CServiceError)

  datatype EndpointResponse = EndpointResponse(response: OpaqueString.StringValue)

  /** CEndpointResponse::to_rust: the error when it is not SUCCESS, otherwise the same response. */
  function EndpointResponseToRust(c: CEndpointResponse): (r: Result<EndpointResponse, ServiceError>)
    ensures r.Ok? <==> c.error == C.Success
    ensures r.Ok? ==> r.value.response == c.response
    ensures r.Err? ==> ToC(r.error) == c.error
  {
    match ToRust(c.error)
    case Err(e) =>
      FromResultToRust(c.error);
      Err(e)
    case Ok(_) => Ok(EndpointResponse(c.response))
  }

  /** EndpointResponse::to_c: always SUCCESS. */
  function EndpointResponseToC(e: EndpointResponse): (r: CEndpointResponse)
    ensures r.error == C.Success && r.response == e.response
  {
    CEndpointResponse(e.response, C.Success)
  }

  /** A safe response converted to C and back is unchanged. */
  lemma EndpointResponseRoundTrip(e: EndpointResponse)
    ensures EndpointResponseToRust(EndpointResponseToC(e)) == Ok(e)
  {
  }

  // ---- the capability table ----

  datatype CApplicationContext = CApplicationContext(
    handlerRegisterService: Option<C.FnPtr>,
    handlerUnregisterService: Option<C.FnPtr>,
    eventRegisterService: Option<C.FnPtr>,
    eventUnregisterService: Option<C.FnPtr>,
    eventTriggerService: Option<C.FnPtr>,
    endpointRegisterService: Option<C.FnPtr>,
    endpointUnregisterService: Option<C.FnPtr>,
    endpointRequestService: Option<C.FnPtr>)

  datatype ApplicationContext = ApplicationContext(
    handlerRegisterService: C.FnPtr,
    handlerUnregisterService: C.FnPtr,
    eventRegisterService: C.FnPtr,
    eventUnregisterService: C.FnPtr,
    eventTriggerService: C.FnPtr,
    endpointRegisterService: C.FnPtr,
    endpointUnregisterService: C.FnPtr,
    endpointRequestService: C.FnPtr)

  /** All eight service pointers are present. */
  predicate Complete(c: CApplicationContext) {
    && c.handlerRegisterService.Some?
    && c.handlerUnregisterService.Some?
    && c.eventRegisterService.Some?
    && c.eventUnregisterService.Some?
    && c.eventTriggerService.Some?
    && c.endpointRegisterService.Some?
    && c.endpointUnregisterService.Some?
    && c.endpointRequestService.Some?
  }

  /** CApplicationContext::to_rust: each pointer through ok_or_core, in field order. */
  function ContextToRust(c: CApplicationContext): (r: Result<ApplicationContext, ServiceError>)
    ensures r.Ok? <==> Complete(c)
    ensures r.Err? ==> r.error == CoreInternalError
    ensures r.Ok? ==> ContextToC(r.value) == c
  {
    var hr :- OkOrCore(c.handlerRegisterService);
    var hu :- OkOrCore(c.handlerUnregisterService);
    var er :- OkOrCore(c.eventRegisterService);
    var eu :- OkOrCore(c.eventUnregisterService);
    var et :- OkOrCore(c.eventTriggerService);
    var nr :- OkOrCore(c.endpointRegisterService);
    var nu :- OkOrCore(c.endpointUnregisterService);
    var nt :- OkOrCore(c.endpointRequestService);
    Ok(ApplicationContext(hr, hu, er, eu, et, nr, nu, nt))
  }

  /** ApplicationContext::to_c: every pointer wrapped in Some. */
  function ContextToC(a: ApplicationContext): (r: CApplicationContext)
    ensures Complete(r)
  {
    CApplicationContext(
      Some(a.handlerRegisterService), Some(a.handlerUnregisterService),
      Some(a.eventRegisterService), Some(a.eventUnregisterService),
      Some(a.eventTriggerService), Some(a.endpointRegisterService),
      Some(a.endpointUnregisterService), Some(a.endpointRequestService))
  }

  /** A safe capability table converted to C and back is unchanged. */
  lemma ContextRoundTrip(a: ApplicationContext)
    ensures ContextToRust(ContextToC(a)) == Ok(a)
  {
  }
}
