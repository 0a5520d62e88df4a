/**
 * The generic List value of the C boundary layer, as the CREATE_LIST_TYPE_IMPL
 * macro defines it (api/src/capi/header/ft_list.h). The struct's three fields are
 * kept as they are; validity is structural (data not null and length not zero).
 * Pointers are addresses counted in elements, so &data[index] is data + index.
 */
module OpaqueList {
  import opened Wrappers
  import opened Bytes

  /** The non-null element deallocators: the macro's TYPE##no_op, or the owner's own. */
  datatype ListDealloc = ListNoOp | ListCallback(id: nat)

  datatype ListValue = ListValue(dealloc: Option<ListDealloc>, data: Option<nat>, length: u32)

  datatype ListDeallocCall = ListDeallocCall(fn: ListDealloc, data: nat, length: u32)

  /** isValidList on a non-null list pointer. */
  predicate IsValidList(l: ListValue) {
    l.data.Some? && l.length != 0
  }

  /** createList: a null data pointer gives {NULL, 1, no_op}; anything else is stored verbatim. */
  function CreateList(data: Option<nat>, length: u32, fn: Option<ListDealloc>): (r: ListValue)
    ensures data.None? ==> r == ListValue(Some(ListNoOp), None, 1)
    ensures data.Some? ==> r == ListValue(fn, data, length)
    ensures IsValidList(r) <==> data.Some? && length != 0
  {
    if data.None? then ListValue(Some(ListNoOp), None, 1) else ListValue(fn, data, length)
  }

  /** emptyList: the list createList(NULL, 0, NULL) builds, which is invalid. */
  function EmptyList(): (r: ListValue)
    ensures r == ListValue(Some(ListNoOp), None, 1)
    ensures !IsValidList(r)
  {
    CreateList(None, 0, None)
  }

  /** getList with the intended bounds check: &data[index] iff the list is valid and index < length. */
  function GetList(l: ListValue, index: u32): (r: Option<nat>)
    ensures r.Some? <==> IsValidList(l) && index < l.length
    ensures r.Some? ==> r.value == l.data.value + index
  {
    if !IsValidList(l) then None
    else if index >= l.length then None
    else Some(l.data.value + index)
  }

  /** A List is valid exactly when its first element can be read. */
  lemma ValidListReadable(l: ListValue)
    ensures IsValidList(l) <==> GetList(l, 0).Some?
  {
  }

  /** What the code as written returns: null, an element pointer, or a pointer past the end. */
  datatype ListRead = NullRead | Element(addr: nat) | PastEnd(addr: nat)

  /** getList as written: the guard `length >= index` refuses every index in range. */
  function GetListAsWritten(l: ListValue, index: u32): (r: ListRead)
    ensures !IsValidList(l) ==> r == NullRead
    ensures IsValidList(l) && index <= l.length ==> r == NullRead
    ensures IsValidList(l) && index > l.length ==> r == PastEnd(l.data.value + index)
  {
    if !IsValidList(l) then NullRead
    else if l.length >= index then NullRead
    else PastEnd(l.data.value + index)
  }

  /** On a valid list the code as written never yields an element, and yields past-the-end pointers. */
  lemma GetListAsWrittenIsInverted(l: ListValue)
    requires IsValidList(l) && l.length < 0xFFFF_FFFF
    ensures GetListAsWritten(l, 0) == NullRead && GetList(l, 0) == Some(l.data.value)
    ensures GetListAsWritten(l, l.length + 1).PastEnd? && GetList(l, l.length + 1) == None
    ensures forall i: u32 :: !GetListAsWritten(l, i).Element?
  {
  }

  ghost function DestroyCalls(l: ListValue): seq<ListDeallocCall>
  {
    if IsValidList(l) && l.dealloc.Some? then [ListDeallocCall(l.dealloc.value, l.data.value, l.length)] else []
  }

  /** A List stored in memory; destroyList changes it in place. */
  class ListSlot {
    var value: ListValue
    ghost var deallocs: seq<ListDeallocCall>

    constructor (v: ListValue)
      ensures value == v && deallocs == []
    {
      value := v;
      deallocs := [];
    }

    /**
     * destroyList: on a valid list set length to 0, data and dealloc_fn to NULL,
     * then call the saved deallocator, if any, with the saved data and length.
     * An invalid list is left as it is.
     */
    method Destroy()
      modifies this
      ensures IsValidList(old(value)) ==> value == ListValue(None, None, 0)
      ensures !IsValidList(old(value)) ==> value == old(value)
      ensures !IsValidList(value)
      ensures deallocs == old(deallocs) + DestroyCalls(old(value))
    {
      if !IsValidList(value) {
        return;
      }
      var tmpLength := value.length;
      var tmpData := value.data.value;
      var tmpFn := value.dealloc;
      value := ListValue(None, None, 0);
      if tmpFn.None? {
        return;
      }
      deallocs := deallocs + [ListDeallocCall(tmpFn.value, tmpData, tmpLength)];
    }
  }

  /** A list created with length 0 is invalid, so destroying it never calls its deallocator. */
  method ZeroLengthNeverFreed(data: nat, fn: ListDealloc) returns (slot: ListSlot)
    ensures fresh(slot) && slot.deallocs == []
  {
    slot := new ListSlot(CreateList(Some(data), 0, Some(fn)));
    slot.Destroy();
  }

  /** Destroying a valid list twice calls its deallocator once with (data, length). */
  method CreateAndDestroyTwice(data: nat, length: u32, fn: ListDealloc) returns (slot: ListSlot)
    requires length != 0
    ensures fresh(slot)
    ensures slot.deallocs == [ListDeallocCall(fn, data, length)]
    ensures slot.value == ListValue(None, None, 0)
  {
    slot := new ListSlot(CreateList(Some(data), length, Some(fn)));
    slot.Destroy();
    slot.Destroy();
  }
}
