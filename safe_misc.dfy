/**
 * Small conversions on the Rust side of the boundary (api/src/safe_api/misc.rs):
 * CUuid <-> Uuid, reading a CString as UTF-8 text, building a CString from owned
 * text, and dropping a CString.
 */
module SafeMisc {
  import opened Wrappers
  import opened Bytes
  import C = CBindings
  import opened OpaqueString

  const TwoTo64: nat := 0x1_0000_0000_0000_0000

  /** uuid::Uuid as its 128-bit value. */
  type Uuid = x: nat | x < 0x1_0000_0000_0000_0000_0000_0000_0000_0000

  /** From<CUuid> for Uuid: Uuid::from_u64_pair(higher, lower). */
  function UuidFromC(c: C.CUuid): (u: Uuid)
    ensures u / TwoTo64 == c.higher && u % TwoTo64 == c.lower
  {
    c.higher * TwoTo64 + c.lower
  }

  /** From<Uuid> for CUuid: the pair as_u64_pair returns. */
  function UuidToC(u: Uuid): (c: C.CUuid)
    ensures c.higher * TwoTo64 + c.lower == u
  {
    C.CUuid(u / TwoTo64, u % TwoTo64)
  }

  /** CUuid -> Uuid -> CUuid keeps (higher, lower). */
  lemma CUuidRoundTrip(c: C.CUuid)
    ensures UuidToC(UuidFromC(c)) == c
  {
  }

  /** Uuid -> CUuid -> Uuid keeps the value. */
  lemma UuidRoundTrip(u: Uuid)
    ensures UuidFromC(UuidToC(u)) == u
  {
  }

  /** StringConventError */
  datatype StringConvertError = InvalidString | Utf8

  /**
   * CString::as_str as intended: an invalid String is InvalidString; a valid one
   * yields its getLengthString bytes read from offset 0, or Utf8 when they are
   * not well-formed UTF-8. Here the empty String reads as the empty text.
   */
  function AsStr(s: StringValue): (r: Result<seq<byte>, StringConvertError>)
    ensures r == Err(InvalidString) <==> !IsValid(s)
    ensures r == Err(Utf8) <==> IsValid(s) && !IsUtf8(s.bytes)
    ensures r.Ok? ==> IsValid(s) && r.value == s.bytes[..GetLength(s)] && IsUtf8(r.value)
  {
    if !IsValid(s) then Err(InvalidString)
    else
      var len := GetLength(s);
      var text := s.bytes[..len];
      assert text == s.bytes;
      if IsUtf8(text) then Ok(text) else Err(Utf8)
  }

  /** What as_str does as written: text, an error, or a slice built from a null pointer. */
  datatype AsStrOutcome = Text(text: seq<byte>) | Failed(error: StringConvertError) | NullSlice

  /**
   * CString::as_str as written: it asks getViewString for (0, len) and builds the
   * slice from whatever pointer comes back. For a valid empty String the view is
   * null (start >= end), and slice::from_raw_parts on a null pointer is undefined
   * behaviour even for length 0.
   */
  function AsStrAsWritten(s: StringValue): (r: AsStrOutcome)
    ensures r == NullSlice <==> IsValid(s) && GetLength(s) == 0
    ensures GetLength(s) > 0 ==> (r.Text? <==> AsStr(s).Ok?)
    ensures r.Text? ==> AsStr(s) == Ok(r.text)
    ensures r.Failed? ==> AsStr(s) == Err(r.error)
  {
    if !IsValid(s) then Failed(InvalidString)
    else
      var len := GetLength(s);
      var ptr := GetView(s, 0, len);
      if ptr.None? then NullSlice
      else
        var text := s.bytes[ptr.value - s.addr..][..len];
        if IsUtf8(text) then Text(text) else Failed(Utf8)
  }

  /** A valid empty String: the code as written reaches the null slice, the intended reading is "". */
  lemma EmptyStringHitsNullSlice(addr: nat, d: Option<Dealloc>)
    ensures AsStrAsWritten(Valid(addr, [], d)) == NullSlice
    ensures AsStr(Valid(addr, [], d)) == Ok([])
  {
  }

  /**
   * From<T: Into<Box<str>>> for CString: the boxed text (always UTF-8) is leaked at
   * `addr` and wrapped with drop_string as its deallocator. Reading it back gives
   * the same text.
   */
  function FromText(text: seq<byte>, addr: nat): (r: StringValue)
    requires IsUtf8(text)
    ensures IsValid(r) && GetLength(r) == |text| && r.addr == addr
    ensures r.dealloc == Some(DropString)
    ensures AsStr(r) == Ok(text)
  {
    assert text[..|text|] == text;
    CreateString(Some(Span(addr, text)), |text|, Some(DropString))
  }

  /** Drop for CString: destroyString on the value in place. */
  method DropCString(s: StringSlot)
    modifies s
    ensures old(s.value).Valid? ==> s.value == Invalid
    ensures !old(s.value).Valid? ==> s.value == old(s.value)
    ensures s.deallocs == old(s.deallocs) + DestroyCalls(old(s.value))
  {
    s.Destroy();
  }

  /** A CString built from Rust text frees its buffer exactly once, through drop_string. */
  method OwnedTextFreedOnce(text: seq<byte>, addr: nat) returns (s: StringSlot)
    requires IsUtf8(text)
    ensures fresh(s)
    ensures s.deallocs == [DeallocCall(DropString, addr, |text|)]
    ensures AsStr(s.value) == Err(InvalidString)
  {
    s := new StringSlot(FromText(text, addr));
    DropCString(s);
    DropCString(s);
  }
}
