/**
 * The earlier host registration code (core/src/runtime.rs): events keep their
 * handlers in a Vec, and handlerRegister answers with a bool.
 */
module LegacyRuntime {
  import opened Wrappers
  import opened Bytes
  import C = CBindings
  import opened OpaqueString
  import opened SafeMisc

  /** StoredHandler: the handler function and the plugin that registered it. */
  datatype StoredHandler = StoredHandler(handler: C.FnPtr, pluginId: C.CUuid)

  /** Event: its handler Vec and the argument and result validators (kept as their schema texts). */
  datatype Event = Event(handlers: seq<StoredHandler>, argumentSchema: seq<byte>, resultSchema: seq<byte>)

  /** Event::new: no handlers yet. */
  function NewEvent(argumentSchema: seq<byte>, resultSchema: seq<byte>): (e: Event)
    ensures e.handlers == []
    ensures e.argumentSchema == argumentSchema && e.resultSchema == resultSchema
  {
    Event([], argumentSchema, resultSchema)
  }

  /** The loader's handler table, keyed by event name. */
  class HandlerTable {
    var events: map<seq<byte>, Event>

    constructor (events: map<seq<byte>, Event>)
      ensures this.events == events
    {
      this.events := events;
    }

    /**
     * handlerRegister: false for a null handler, an unreadable name or an
     * unknown event; otherwise the handler is appended to that event's Vec
     * (a second registration by the same plugin is appended too) and true.
     */
    method HandlerRegister(handler: Option<C.FnPtr>, pluginId: C.CUuid, eventName: StringValue) returns (ok: bool)
      modifies this
      ensures ok <==> handler.Some? && AsStr(eventName).Ok? && AsStr(eventName).value in old(events)
      ensures !ok ==> events == old(events)
      ensures ok ==>
                var name := AsStr(eventName).value;
                var e := old(events)[name];
                events == old(events)[name := e.(handlers := e.handlers + [StoredHandler(handler.value, pluginId)])]
    {
      if handler.None? {
        return false;
      }
      var nameRes := AsStr(eventName);
      if nameRes.Err? {
        return false;
      }
      var name := nameRes.value;
      if name !in events {
        return false;
      }
      var event := events[name];
      events := events[name := event.(handlers := event.handlers + [StoredHandler(handler.value, pluginId)])];
      ok := true;
    }
  }

  /** Number of entries `p` has in a handler Vec. */
  function CountFor(hs: seq<StoredHandler>, p: C.CUuid): (n: nat)
    ensures n <= |hs|
    ensures n == 0 <==> forall i :: 0 <= i < |hs| ==> hs[i].pluginId != p
  {
    if hs == [] then 0
    else CountFor(hs[..|hs| - 1], p) + (if hs[|hs| - 1].pluginId == p then 1 else 0)
  }

  /** Registering once more adds exactly one entry for the caller and none for anybody else. */
  lemma {:induction false} AppendCounts(hs: seq<StoredHandler>, h: StoredHandler, q: C.CUuid)
    ensures CountFor(hs + [h], q) == CountFor(hs, q) + (if h.pluginId == q then 1 else 0)
  {
    assert (hs + [h])[..|hs + [h]| - 1] == hs;
  }

  /** Unlike the set-based table, this one accepts the same plugin twice on one event. */
  method DuplicateRegistrationAccepted(handler: C.FnPtr, pluginId: C.CUuid, name: seq<byte>, addr: nat)
      returns (table: HandlerTable, first: bool, second: bool)
    requires IsUtf8(name)
    ensures first && second
    ensures name in table.events && CountFor(table.events[name].handlers, pluginId) == 2
  {
    table := new HandlerTable(map[name := NewEvent([], [])]);
    var s := FromText(name, addr);
    first := table.HandlerRegister(Some(handler), pluginId, s);
    second := table.HandlerRegister(Some(handler), pluginId, s);
    var h := StoredHandler(handler, pluginId);
    assert table.events[name].handlers == [h] + [h];
    AppendCounts([], h, pluginId);
    AppendCounts([h], h, pluginId);
  }
}
