/**
 * The opaque String value of the C boundary layer (api/src/capi/ft_string.c).
 *
 * In C the value is a 24-byte union read either as {length, data, dealloc_fn}
 * or as {error, flag bytes}. Here the three states it can be observed in are
 * tagged explicitly: Valid (non-null data; length is |bytes|), Error (all flag
 * bytes zero plus an error code) and Invalid (null data and not an error: made
 * by createString(NULL, ...) or left behind by destroyString). An Error whose
 * code is SUCCESS is the all-zero pattern of a zero-initialised String and is
 * not reported as an error.
 */
module OpaqueString {
  import opened Wrappers
  import opened Bytes
  import C = CBindings

  /** The non-null deallocators a String can hold: C's no_op, Rust's drop_string, or a plugin's own. */
  datatype Dealloc = NoOp | DropString | Callback(id: nat)

  /** A non-null pointer together with the bytes readable from it. */
  datatype Span = Span(addr: nat, bytes: seq<byte>)

  datatype StringValue =
    | Valid(addr: nat, bytes: seq<byte>, dealloc: Option<Dealloc>)
    | Error(code: C.CServiceError)
    | Invalid

  /** One call of a deallocator: the function, the data pointer and the length it was given. */
  datatype DeallocCall = DeallocCall(fn: Dealloc, addr: nat, length: nat)

  /** isValidString (castData != NULL): the value holds owned data. */
  predicate IsValid(s: StringValue) {
    s.Valid?
  }

  /** getLengthString: the stored length, 0 on anything but a valid String. */
  function GetLength(s: StringValue): (n: nat)
    ensures IsValid(s) ==> n == |s.bytes|
    ensures !IsValid(s) ==> n == 0
  {
    if s.Valid? then |s.bytes| else 0
  }

  /** asErrorString (castError): the embedded code, unless it is SUCCESS or the value is not an Error. */
  function AsError(s: StringValue): (r: Option<C.CServiceError>)
    ensures r.Some? ==> r.value != C.Success && s == Error(r.value)
    ensures s.Error? && s.code != C.Success ==> r == Some(s.code)
  {
    if s.Error? && s.code != C.Success then Some(s.code) else None
  }

  /** createString: a null pointer gives the canonical invalid value and takes no ownership. */
  function CreateString(data: Option<Span>, length: nat, deallocator: Option<Dealloc>): (r: StringValue)
    requires data.Some? ==> length <= |data.value.bytes|
    ensures IsValid(r) <==> data.Some?
    ensures GetLength(r) == (if data.Some? then length else 0)
    ensures AsError(r) == None
    ensures data.Some? ==> r.addr == data.value.addr && r.bytes == data.value.bytes[..length]
    ensures data.Some? ==> r.dealloc == deallocator
  {
    match data
    case None => Invalid
    case Some(span) => Valid(span.addr, span.bytes[..length], deallocator)
  }

  /** fromErrorString: an error value, never valid; SUCCESS does not read back as an error. */
  function FromError(code: C.CServiceError): (r: StringValue)
    ensures !IsValid(r) && GetLength(r) == 0
    ensures AsError(r) == (if code == C.Success then None else Some(code))
  {
    Error(code)
  }

  /**
   * getCharString with the intended bounds check `index < length`: the byte
   * at `index`, or the zero sentinel on an invalid String or an index out of range.
   */
  function GetChar(s: StringValue, index: nat): (c: byte)
    ensures IsValid(s) && index < GetLength(s) ==> c == s.bytes[index]
    ensures !(IsValid(s) && index < GetLength(s)) ==> c == 0
  {
    if s.Valid? && index < |s.bytes| then s.bytes[index] else 0
  }

  /** What the code as written does for one read: a byte, or a read past the buffer. */
  datatype CharRead = Byte(b: byte) | OutOfBounds

  /** getCharString as written: the guard `length >= index` returns 0 for every in-range index. */
  function GetCharAsWritten(s: StringValue, index: nat): (r: CharRead)
    ensures !IsValid(s) ==> r == Byte(0)
    ensures IsValid(s) && index <= GetLength(s) ==> r == Byte(0)
    ensures IsValid(s) && index > GetLength(s) ==> r == OutOfBounds
  {
    if !s.Valid? then Byte(0)
    else if |s.bytes| >= index then Byte(0)
    else OutOfBounds
  }

  /** The inverted guard loses every byte of a non-empty String and reads past its end. */
  lemma GetCharAsWrittenIsInverted(s: StringValue)
    requires IsValid(s) && GetLength(s) > 0 && s.bytes[0] != 0
    ensures GetCharAsWritten(s, 0) == Byte(0) && GetChar(s, 0) == s.bytes[0] != 0
    ensures GetCharAsWritten(s, GetLength(s) + 1) == OutOfBounds && GetChar(s, GetLength(s) + 1) == 0
  {
  }

  /**
   * getViewString: a pointer to offset `start` when start < end, start < length
   * and end <= length on a valid String; null otherwise.
   */
  function GetView(s: StringValue, start: nat, end: nat): (r: Option<nat>)
    ensures r.Some? <==> IsValid(s) && start < end && start < GetLength(s) && end <= GetLength(s)
    ensures r.Some? ==> r.value == s.addr + start
  {
    if !s.Valid? then None
    else if start >= end || start >= |s.bytes| || end > |s.bytes| then None
    else Some(s.addr + start)
  }

  /**
   * The bytes a view points at are the ones getCharString reads: the k-th byte
   * behind a view from `start` is the String's character at start + k.
   */
  lemma ViewAgreesWithGetChar(s: StringValue, start: nat, end: nat, k: nat)
    requires GetView(s, start, end).Some? && k < end - start
    ensures GetView(s, start, end).value - s.addr + k < |s.bytes|
    ensures s.bytes[GetView(s, start, end).value - s.addr + k] == GetChar(s, start + k)
  {
  }

  /** A String's whole view exists exactly when isValidString holds and the String is not empty. */
  lemma ValidIffViewable(s: StringValue)
    ensures IsValid(s) && GetLength(s) > 0 <==> GetView(s, 0, GetLength(s)).Some?
  {
  }

  /** A valid String is never an error, and an error value is never valid. */
  lemma ValidAndErrorExclusive(s: StringValue)
    ensures IsValid(s) ==> AsError(s) == None
    ensures AsError(s).Some? ==> !IsValid(s)
  {
  }

  /** The deallocator call destroyString makes on a value: one call for a valid String with a deallocator. */
  ghost function DestroyCalls(s: StringValue): seq<DeallocCall>
  {
    if s.Valid? && s.dealloc.Some? then [DeallocCall(s.dealloc.value, s.addr, |s.bytes|)] else []
  }

  /** A String stored in memory; destroyString changes it in place. */
  class StringSlot {
    var value: StringValue
    /** Every deallocator call made on behalf of this String, in order. */
    ghost var deallocs: seq<DeallocCall>

    constructor (v: StringValue)
      ensures value == v && deallocs == []
    {
      value := v;
      deallocs := [];
    }

    /**
     * destroyString: on a valid String clear length, data and deallocator (the
     * canonical invalid value), then call the saved deallocator, if any, with
     * the saved data and length. Anything else is left as it is.
     */
    method Destroy()
      modifies this
      ensures old(value).Valid? ==> value == Invalid
      ensures !old(value).Valid? ==> value == old(value)
      ensures deallocs == old(deallocs) + DestroyCalls(old(value))
    {
      if !value.Valid? {
        return;
      }
      var tmpLength := |value.bytes|;
      var tmpData := value.addr;
      var tmpFn := value.dealloc;
      value := Invalid;
      if tmpFn.None? {
        return;
      }
      deallocs := deallocs + [DeallocCall(tmpFn.value, tmpData, tmpLength)];
    }
  }

  /**
   * The life of one String: create it from a non-null buffer, destroy it, destroy
   * it again. The deallocator runs exactly once, with the original pointer and
   * length, and the String is invalid afterwards.
   */
  method CreateAndDestroyTwice(data: Span, length: nat, d: Dealloc) returns (slot: StringSlot)
    requires length <= |data.bytes|
    ensures fresh(slot)
    ensures slot.deallocs == [DeallocCall(d, data.addr, length)]
    ensures !IsValid(slot.value) && GetLength(slot.value) == 0
  {
    slot := new StringSlot(CreateString(Some(data), length, Some(d)));
    slot.Destroy();
    slot.Destroy();
  }

  /** createString(NULL, n, d) never calls d, even when destroyed. */
  method NullDataNeverFreed(length: nat, d: Option<Dealloc>) returns (slot: StringSlot)
    ensures fresh(slot)
    ensures slot.deallocs == [] && !IsValid(slot.value) && GetLength(slot.value) == 0
  {
    slot := new StringSlot(CreateString(None, length, d));
    slot.Destroy();
  }
}
