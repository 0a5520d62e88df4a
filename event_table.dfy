/**
 * The host's event registration table (core/src/runtime/event.rs): a map from
 * fully-qualified event name to the event's owner, argument schema and handler
 * set, and the services plugins call to change it or trigger an event.
 *
 * The handler set is a HashSet whose equality and hash look at the plugin id
 * only, so it holds at most one handler per plugin: it is kept here as a map
 * from plugin id to handler. JSON parsing and schema validation are supplied
 * from outside as a JsonModel. Each service runs under the global write lock,
 * so each is one atomic step here.
 */
module EventRuntime {
  import opened Wrappers
  import opened Bytes
  import C = CBindings
  import opened OpaqueString
  import opened SafeMisc
  import SafeApi

  type Text = seq<byte>

  /** JSON and JSON-schema handling, which the table delegates to serde_json and jsonschema. */
  datatype JsonModel = JsonModel(
    isJson: Text -> bool,             // serde_json::from_str succeeds
    isSchema: Text -> bool,           // jsonschema::validator_for accepts the parsed value
    validates: (Text, Text) -> bool)  // validator built from a schema accepts parsed arguments
  {
    /** The empty text is not a JSON document. */
    predicate Wf() { !isJson([]) }
  }

  /** The EventHandler of the API revision this host is built against: a function and a CUuid id. */
  datatype RegisteredHandler = RegisteredHandler(func: C.FnPtr, handlerId: C.CUuid)

  /** StoredEventHandler: a handler together with the plugin that registered it. */
  datatype StoredEventHandler = StoredEventHandler(handler: RegisteredHandler, pluginId: C.CUuid)

  /** PartialEq / Hash of StoredEventHandler: two entries are the same iff their plugin ids are. */
  predicate SameHandler(a: StoredEventHandler, b: StoredEventHandler) {
    a.pluginId == b.pluginId
  }

  /** An event's handler set, keyed by plugin id. */
  type HandlerSet = map<C.CUuid, RegisteredHandler>

  /** The handler set as the HashSet holds it. */
  function Stored(hs: HandlerSet): (s: set<StoredEventHandler>)
    ensures forall p :: p in hs ==> StoredEventHandler(hs[p], p) in s
    ensures forall e :: e in s ==> e.pluginId in hs && hs[e.pluginId] == e.handler
  {
    set p | p in hs :: StoredEventHandler(hs[p], p)
  }

  /** No two distinct entries of a handler set are equal under SameHandler. */
  lemma StoredIsHashSet(hs: HandlerSet)
    ensures forall a, b :: a in Stored(hs) && b in Stored(hs) && SameHandler(a, b) ==> a == b
  {
  }

  /** Event: its handlers, the argument schema its validator was built from, and its owner. */
  datatype Event = Event(handlers: HandlerSet, schema: Text, owner: C.CUuid)

  /** Event::new: no handlers yet. */
  function NewEvent(schema: Text, owner: C.CUuid): (e: Event)
    ensures e.handlers == map[] && e.schema == schema && e.owner == owner
  {
    Event(map[], schema, owner)
  }

  /** "core:init" */
  function CoreInit(): Text { [99, 111, 114, 101, 58, 105, 110, 105, 116] }
  /** "core:event" */
  function CoreEvent(): Text { [99, 111, 114, 101, 58, 101, 118, 101, 110, 116] }

  /** The separator between plugin name and local name. */
  const Colon: byte := 58

  /** register_core_events: exactly "core:init" and "core:event", owned by the core, no handlers. */
  function RegisterCoreEvents(coreId: C.CUuid, initSchema: Text, eventSchema: Text): (r: map<Text, Event>)
    ensures r.Keys == {CoreInit(), CoreEvent()}
    ensures r[CoreInit()] == NewEvent(initSchema, coreId)
    ensures r[CoreEvent()] == NewEvent(eventSchema, coreId)
  {
    assert |CoreInit()| != |CoreEvent()|;
    map[CoreInit() := NewEvent(initSchema, coreId), CoreEvent() := NewEvent(eventSchema, coreId)]
  }

  /** One call of a handler function by event_trigger: the function, its registering plugin, the arguments. */
  datatype Invocation = Invocation(func: C.FnPtr, owner: C.CUuid, args: Text)

  function Owners(calls: seq<Invocation>): set<C.CUuid>
  {
    if calls == [] then {} else {calls[0].owner} + Owners(calls[1..])
  }

  /** `calls` calls every handler of `hs` once with `args`, in some order. */
  ghost predicate InvokesEachOnce(calls: seq<Invocation>, hs: HandlerSet, args: Text)
  {
    && |calls| == |hs|
    && (forall i :: 0 <= i < |calls| ==>
          calls[i].owner in hs && calls[i].func == hs[calls[i].owner].func && calls[i].args == args)
    && (forall i, j :: 0 <= i < j < |calls| ==> calls[i].owner != calls[j].owner)
  }

  /** The owners of the calls are exactly the calls' owners. */
  lemma {:induction false} OwnersMembers(calls: seq<Invocation>)
    ensures forall i :: 0 <= i < |calls| ==> calls[i].owner in Owners(calls)
    ensures forall p :: p in Owners(calls) ==> exists i :: 0 <= i < |calls| && calls[i].owner == p
  {
    if calls != [] {
      var rest := calls[1..];
      OwnersMembers(rest);
      forall i | 0 <= i < |calls| ensures calls[i].owner in Owners(calls) {
        if i > 0 { assert calls[i] == rest[i - 1]; }
      }
      forall p | p in Owners(calls) ensures exists i :: 0 <= i < |calls| && calls[i].owner == p {
        if p != calls[0].owner {
          var k :| 0 <= k < |rest| && rest[k].owner == p;
          assert calls[k + 1].owner == p;
        }
      }
    }
  }

  /** Calls with distinct owners have as many owners as calls. */
  lemma {:induction false} OwnersOfDistinct(calls: seq<Invocation>)
    requires forall i, j :: 0 <= i < j < |calls| ==> calls[i].owner != calls[j].owner
    ensures |Owners(calls)| == |calls|
  {
    if calls != [] {
      var rest := calls[1..];
      assert forall i, j :: 0 <= i < j < |rest| ==> rest[i].owner != rest[j].owner by {
        forall i, j | 0 <= i < j < |rest| ensures rest[i].owner != rest[j].owner {
          assert rest[i] == calls[i + 1] && rest[j] == calls[j + 1];
        }
      }
      OwnersOfDistinct(rest);
      OwnersMembers(rest);
      forall i | 0 <= i < |rest| ensures rest[i].owner != calls[0].owner {
        assert rest[i] == calls[i + 1];
      }
      assert calls[0].owner !in Owners(rest);
    }
  }

  lemma {:induction false} SubsetSize<T>(a: set<T>, b: set<T>)
    requires a <= b
    ensures |a| <= |b|
  {
    if a != {} {
      var y :| y in a;
      SubsetSize(a - {y}, b - {y});
    }
  }

  lemma SubsetSameSize<T>(a: set<T>, b: set<T>)
    requires a <= b && |a| == |b|
    ensures a == b
  {
    if a != b {
      var x :| x in b && x !in a;
      SubsetSize(a, b - {x});
    }
  }

  /** A trigger that invokes each handler once reaches every registered plugin's handler. */
  lemma {:induction false} EveryHandlerInvoked(calls: seq<Invocation>, hs: HandlerSet, args: Text)
    requires InvokesEachOnce(calls, hs, args)
    ensures forall p :: p in hs ==> exists i :: 0 <= i < |calls| && calls[i].owner == p && calls[i].func == hs[p].func
  {
    OwnersOfDistinct(calls);
    OwnersMembers(calls);
    assert Owners(calls) <= hs.Keys;
    SubsetSameSize(Owners(calls), hs.Keys);
  }

  /** The inputs event_register has checked before it takes the lock: (event name, schema text). */
  datatype Registration = Registration(localName: Text, schema: Text, pluginName: Text)

  class EventTable {
    /** The events map (Events) of the governor. */
    var events: map<Text, Event>
    /** Names of the loaded plugins, by id; the loader fills it, the services only read it. */
    var plugins: map<C.CUuid, Text>
    const coreId: C.CUuid
    const json: JsonModel
    /** Every handler call made by triggers, in order. */
    ghost var invocations: seq<Invocation>

    ghost predicate Valid()
      reads this
    {
      json.Wf()
    }

    /** The table right after start-up: the two core events. */
    constructor (coreId: C.CUuid, plugins: map<C.CUuid, Text>, json: JsonModel, initSchema: Text, eventSchema: Text)
      requires json.Wf()
      ensures Valid()
      ensures this.events == RegisterCoreEvents(coreId, initSchema, eventSchema)
      ensures this.plugins == plugins && this.coreId == coreId && this.json == json
      ensures invocations == []
    {
      this.events := RegisterCoreEvents(coreId, initSchema, eventSchema);
      this.plugins := plugins;
      this.coreId := coreId;
      this.json := json;
      this.invocations := [];
    }

    /**
     * handler_register: a null function is InvalidInput0, an unreadable name
     * InvalidInput2, an unknown event NotFound, a plugin that already has a
     * handler on the event Duplicate. Otherwise the handler is added under the
     * caller's id with the fresh id `newId` (Uuid::new_v4) and returned with SUCCESS.
     */
    method HandlerRegister(handlerFp: Option<C.FnPtr>, pluginId: C.CUuid, eventName: StringValue, newId: C.CUuid)
      returns (r: SafeApi.CEventHandler)
      modifies this
      ensures plugins == old(plugins) && invocations == old(invocations)
      ensures r.error != C.Success ==> events == old(events) && r == SafeApi.NewErrorHandler(r.error)
      ensures handlerFp.None? ==> r.error == C.InvalidInput0
      ensures handlerFp.Some? && AsStr(eventName).Err? ==> r.error == C.InvalidInput2
      ensures (handlerFp.Some? && AsStr(eventName).Ok? && AsStr(eventName).value !in old(events))
                ==> r.error == C.NotFound
      ensures (handlerFp.Some? && AsStr(eventName).Ok? && AsStr(eventName).value in old(events)
               && pluginId in old(events)[AsStr(eventName).value].handlers)
                ==> r.error == C.Duplicate
      ensures r.error == C.Success <==>
                handlerFp.Some? && AsStr(eventName).Ok? && AsStr(eventName).value in old(events)
                && pluginId !in old(events)[AsStr(eventName).value].handlers
      ensures r.error == C.Success ==>
                var name := AsStr(eventName).value;
                var e := old(events)[name];
                && r == SafeApi.CEventHandler(handlerFp, newId, C.Success)
                && events == old(events)[name := e.(handlers := e.handlers[pluginId := RegisteredHandler(handlerFp.value, newId)])]
    {
      if handlerFp.None? {
        return SafeApi.NewErrorHandler(C.InvalidInput0);
      }
      var nameRes := AsStr(eventName);
      if nameRes.Err? {
        return SafeApi.NewErrorHandler(C.InvalidInput2);
      }
      var name := nameRes.value;
      var handler := RegisteredHandler(handlerFp.value, newId);
      if name !in events {
        return SafeApi.NewErrorHandler(C.NotFound);
      }
      var event := events[name];
      if pluginId in event.handlers {
        return SafeApi.NewErrorHandler(C.Duplicate);
      }
      events := events[name := event.(handlers := event.handlers[pluginId := handler])];
      r := SafeApi.CEventHandler(Some(handler.func), handler.handlerId, C.Success);
    }

    /**
     * handler_unregister: an unreadable name is InvalidInput2; an unknown event,
     * or no handler with that id, NotFound; a handler with that id belonging to
     * another plugin Unauthorized. Otherwise the caller's handler is removed.
     */
    method HandlerUnregister(handlerId: C.CUuid, pluginId: C.CUuid, eventName: StringValue) returns (r: C.CServiceError)
      modifies this
      ensures plugins == old(plugins) && invocations == old(invocations)
      ensures r != C.Success ==> events == old(events)
      ensures AsStr(eventName).Err? ==> r == C.InvalidInput2
      ensures AsStr(eventName).Ok? && AsStr(eventName).value !in old(events) ==> r == C.NotFound
      ensures AsStr(eventName).Ok? && AsStr(eventName).value in old(events) ==>
                var hs := old(events)[AsStr(eventName).value].handlers;
                && (r == C.NotFound <==> forall p :: p in hs ==> hs[p].handlerId != handlerId)
                && (r == C.Unauthorized ==> exists p :: p in hs && hs[p].handlerId == handlerId && p != pluginId)
      ensures AsStr(eventName).Ok? ==> r != C.InvalidInput2
      ensures AsStr(eventName).Ok? && AsStr(eventName).value in old(events) ==>
                var hs := old(events)[AsStr(eventName).value].handlers;
                (exists p :: p in hs && hs[p].handlerId == handlerId) ==>
                     && ((forall p :: p in hs && hs[p].handlerId == handlerId ==> p == pluginId) ==> r == C.Success)
                     && ((forall p :: p in hs && hs[p].handlerId == handlerId ==> p != pluginId) ==> r == C.Unauthorized)
      ensures r == C.Success ==>
                var name := AsStr(eventName).value;
                var e := old(events)[name];
                && pluginId in e.handlers && e.handlers[pluginId].handlerId == handlerId
                && events == old(events)[name := e.(handlers := e.handlers - {pluginId})]
      ensures r in {C.Success, C.InvalidInput2, C.NotFound, C.Unauthorized}
    {
      var nameRes := AsStr(eventName);
      if nameRes.Err? {
        return C.InvalidInput2;
      }
      var name := nameRes.value;
      if name !in events {
        return C.NotFound;
      }
      var event := events[name];
      if !exists p :: p in event.handlers && event.handlers[p].handlerId == handlerId {
        return C.NotFound;
      }
      // HashSet iteration order decides which matching handler `find` returns.
      var owner :| owner in event.handlers && event.handlers[owner].handlerId == handlerId;
      if owner != pluginId {
        return C.Unauthorized;
      }
      events := events[name := event.(handlers := event.handlers - {owner})];
      r := C.Success;
    }

    /**
     * The checks event_register makes before taking the lock, and the plugin
     * name lookup it makes under it: an unreadable name is InvalidInput2; a schema
     * that is not a readable string, not JSON or not a schema InvalidInput0; an
     * unknown plugin CoreInternalError.
     */
    function CheckRegistration(schema: StringValue, pluginId: C.CUuid, eventName: StringValue)
      : (r: Result<Registration, C.CServiceError>)
      reads this`plugins
      ensures AsStr(eventName).Err? ==> r == Err(C.InvalidInput2)
      ensures AsStr(eventName).Ok? && AsStr(schema).Err? ==> r == Err(C.InvalidInput0)
      ensures (AsStr(eventName).Ok? && AsStr(schema).Ok?
               && !(json.isJson(AsStr(schema).value) && json.isSchema(AsStr(schema).value)))
                ==> r == Err(C.InvalidInput0)
      ensures r.Err? ==> r.error in {C.InvalidInput2, C.InvalidInput0, C.CoreInternalError}
      ensures r.Err? && r.error == C.CoreInternalError <==>
                AsStr(eventName).Ok? && AsStr(schema).Ok? && json.isJson(AsStr(schema).value)
                && json.isSchema(AsStr(schema).value) && pluginId !in plugins
      ensures r.Ok? ==> && r.value.localName == AsStr(eventName).value
                        && r.value.schema == AsStr(schema).value
                        && json.isJson(r.value.schema) && json.isSchema(r.value.schema)
                        && pluginId in plugins && r.value.pluginName == plugins[pluginId]
    {
      match AsStr(eventName)
      case Err(_) => Err(C.InvalidInput2)
      case Ok(name) =>
        match AsStr(schema)
        case Err(_) => Err(C.InvalidInput0)
        case Ok(text) =>
          if !json.isJson(text) then Err(C.InvalidInput0)
          else if !json.isSchema(text) then Err(C.InvalidInput0)
          else if pluginId !in plugins then Err(C.CoreInternalError)
          else Ok(Registration(name, text, plugins[pluginId]))
    }

    /**
     * event_register with the duplicate check on the name the event is stored
     * under, "<plugin name>:<event name>": after the checks of CheckRegistration
     * an existing entry is Duplicate; otherwise a new event owned by the caller,
     * with no handlers, is stored, and "core:event" is triggered by the core
     * with `notice` as its arguments; `notified` is what that trigger returned.
     * The code as written sends the empty text, which is not JSON, so the
     * notification never reaches a handler (EventRegisterAsWritten).
     */
    method EventRegister(schema: StringValue, pluginId: C.CUuid, eventName: StringValue, notice: Text)
      returns (r: C.CServiceError, notified: Option<C.CServiceError>)
      requires Valid()
      modifies this
      ensures Valid() && plugins == old(plugins)
      ensures r != C.Success ==> events == old(events) && invocations == old(invocations) && notified.None?
      ensures CheckRegistration(schema, pluginId, eventName).Err? ==> r == CheckRegistration(schema, pluginId, eventName).error
      ensures CheckRegistration(schema, pluginId, eventName).Ok? ==>
                var reg := CheckRegistration(schema, pluginId, eventName).value;
                var key := reg.pluginName + [Colon] + reg.localName;
                && (r == C.Duplicate <==> key in old(events))
                && (r == C.Success <==> key !in old(events))
                && (r == C.Success ==> events == old(events)[key := NewEvent(reg.schema, pluginId)])
                && (r == C.Success ==> notified.Some?)
                && (r == C.Success ==>
                      TriggerOutcome(events, coreId, CoreEvent(), notice, notified.value, old(invocations), invocations))
    {
      notified := None;
      var check := CheckRegistration(schema, pluginId, eventName);
      if check.Err? {
        return check.error, None;
      }
      var reg := check.value;
      var key := reg.pluginName + [Colon] + reg.localName;
      if key in events {
        return C.Duplicate, None;
      }
      events := events[key := NewEvent(reg.schema, pluginId)];
      var outcome := TriggerText(coreId, CoreEvent(), notice);
      notified := Some(outcome);
      r := C.Success;
    }

    /**
     * event_register as written: the duplicate check looks up the unprefixed
     * event name, but the event is stored under "<plugin name>:<event name>", so
     * registering the same name again replaces the earlier event and its handlers.
     */
    method EventRegisterAsWritten(schema: StringValue, pluginId: C.CUuid, eventName: StringValue) returns (r: C.CServiceError)
      requires Valid()
      modifies this
      ensures Valid() && plugins == old(plugins) && invocations == old(invocations)
      ensures r != C.Success ==> events == old(events)
      ensures CheckRegistration(schema, pluginId, eventName).Err? ==> r == CheckRegistration(schema, pluginId, eventName).error
      ensures CheckRegistration(schema, pluginId, eventName).Ok? ==>
                var reg := CheckRegistration(schema, pluginId, eventName).value;
                var key := reg.pluginName + [Colon] + reg.localName;
                && (r == C.Duplicate <==> reg.localName in old(events))
                && (r == C.Success <==> reg.localName !in old(events))
                && (r == C.Success ==> events == old(events)[key := NewEvent(reg.schema, pluginId)])
    {
      var check := CheckRegistration(schema, pluginId, eventName);
      if check.Err? {
        return check.error;
      }
      var reg := check.value;
      if reg.localName in events {
        return C.Duplicate;
      }
      events := events[reg.pluginName + [Colon] + reg.localName := NewEvent(reg.schema, pluginId)];
      var _ := TriggerText(coreId, CoreEvent(), []);
      r := C.Success;
    }

    /**
     * event_unregister: an unreadable name is InvalidInput1, an unknown event
     * NotFound, an event owned by another plugin Unauthorized; otherwise exactly
     * that entry is removed.
     */
    method EventUnregister(pluginId: C.CUuid, eventName: StringValue) returns (r: C.CServiceError)
      modifies this
      ensures plugins == old(plugins) && invocations == old(invocations)
      ensures r != C.Success ==> events == old(events)
      ensures AsStr(eventName).Err? ==> r == C.InvalidInput1
      ensures AsStr(eventName).Ok? ==>
                var name := AsStr(eventName).value;
                && (r == C.NotFound <==> name !in old(events))
                && (r == C.Unauthorized <==> name in old(events) && old(events)[name].owner != pluginId)
                && (r == C.Success <==> name in old(events) && old(events)[name].owner == pluginId)
                && (r == C.Success ==> events == old(events) - {name})
    {
      var nameRes := AsStr(eventName);
      if nameRes.Err? {
        return C.InvalidInput1;
      }
      var name := nameRes.value;
      if name !in events {
        return C.NotFound;
      }
      if events[name].owner != pluginId {
        return C.Unauthorized;
      }
      events := events - {name};
      r := C.Success;
    }

    /**
     * event_trigger: an unreadable name is InvalidInput1, unreadable arguments
     * InvalidInput2; then as TriggerText.
     */
    method EventTrigger(pluginId: C.CUuid, eventName: StringValue, arguments: StringValue) returns (r: C.CServiceError)
      modifies this
      ensures events == old(events) && plugins == old(plugins)
      ensures AsStr(eventName).Err? ==> r == C.InvalidInput1 && invocations == old(invocations)
      ensures AsStr(eventName).Ok? && AsStr(arguments).Err? ==> r == C.InvalidInput2 && invocations == old(invocations)
      ensures AsStr(eventName).Ok? && AsStr(arguments).Ok? ==>
                TriggerOutcome(old(events), pluginId, AsStr(eventName).value, AsStr(arguments).value, r,
                               old(invocations), invocations)
    {
      var nameRes := AsStr(eventName);
      if nameRes.Err? {
        return C.InvalidInput1;
      }
      var argsRes := AsStr(arguments);
      if argsRes.Err? {
        return C.InvalidInput2;
      }
      r := TriggerText(pluginId, nameRes.value, argsRes.value);
    }

    /**
     * What event_trigger promises once name and arguments are text: an unknown
     * event is NotFound, an event the caller does not own Unauthorized, arguments
     * that are not JSON or that the event's schema rejects InvalidInput2, and
     * otherwise SUCCESS after every stored handler was called once with the
     * arguments. Only a SUCCESS calls anything.
     */
    ghost predicate TriggerOutcome(evs: map<Text, Event>, pluginId: C.CUuid, name: Text, args: Text,
                                   r: C.CServiceError, before: seq<Invocation>, after: seq<Invocation>)
      reads this
    {
      && (r == C.NotFound <==> name !in evs)
      && (r == C.Unauthorized <==> name in evs && evs[name].owner != pluginId)
      && (r == C.InvalidInput2 <==> name in evs && evs[name].owner == pluginId
                                    && !(json.isJson(args) && json.validates(evs[name].schema, args)))
      && (r == C.Success <==> name in evs && evs[name].owner == pluginId
                              && json.isJson(args) && json.validates(evs[name].schema, args))
      && (r != C.Success ==> after == before)
      && (r == C.Success ==> |after| >= |before| && after[..|before|] == before
                             && InvokesEachOnce(after[|before|..], evs[name].handlers, args))
    }

    /** event_trigger after the name and arguments have been read as text. */
    method TriggerText(pluginId: C.CUuid, name: Text, args: Text) returns (r: C.CServiceError)
      modifies this
      ensures events == old(events) && plugins == old(plugins)
      ensures TriggerOutcome(old(events), pluginId, name, args, r, old(invocations), invocations)
      ensures r == C.Success ==> json.isJson(args)
    {
      if name !in events {
        return C.NotFound;
      }
      var event := events[name];
      if event.owner != pluginId {
        return C.Unauthorized;
      }
      if !json.isJson(args) {
        return C.InvalidInput2;
      }
      if !json.validates(event.schema, args) {
        return C.InvalidInput2;
      }
      // Collect the handler functions (HashSet iteration order) under the lock ...
      var hs := event.handlers;
      var remaining := hs.Keys;
      var funcs: seq<Invocation> := [];
      while remaining != {}
        invariant events == old(events) && plugins == old(plugins) && invocations == old(invocations)
        invariant remaining <= hs.Keys
        invariant |funcs| + |remaining| == |hs.Keys|
        invariant forall i :: 0 <= i < |funcs| ==>
                    funcs[i].owner in hs && funcs[i].owner !in remaining
                    && funcs[i].func == hs[funcs[i].owner].func && funcs[i].args == args
        invariant forall i, j :: 0 <= i < j < |funcs| ==> funcs[i].owner != funcs[j].owner
        decreases |remaining|
      {
        var p :| p in remaining;
        funcs := funcs + [Invocation(hs[p].func, p, args)];
        remaining := remaining - {p};
      }
      // ... then call each of them, outside it.
      var i := 0;
      while i < |funcs|
        invariant 0 <= i <= |funcs|
        invariant events == old(events) && plugins == old(plugins)
        invariant invocations == old(invocations) + funcs[..i]
      {
        invocations := invocations + [funcs[i]];
        i := i + 1;
      }
      assert funcs[..i] == funcs;
      assert invocations[|old(invocations)|..] == funcs;
      r := C.Success;
    }
  }

  /** The texts the witnesses below use: "{}", "e" and "p:e". */
  lemma WitnessTexts()
    ensures IsUtf8([123, 125]) && IsUtf8([101]) && IsUtf8([112, 58, 101])
  {
    AsciiIsUtf8([123, 125]);
    AsciiIsUtf8([101]);
    AsciiIsUtf8([112, 58, 101]);
  }

  /**
   * The as-written event_register lets plugin "p" register event "e" twice:
   * the second call succeeds and drops the handler another plugin registered
   * on "p:e" in between.
   */
  method ReRegistrationOverwrites()
    returns (table: EventTable, first: C.CServiceError, handled: C.CServiceError, between: HandlerSet, second: C.CServiceError)
    ensures first == C.Success && handled == C.Success && second == C.Success
    ensures between == map[C.CUuid(0, 3) := RegisteredHandler(C.FnPtr(7), C.CUuid(0, 4))]
    ensures [112, 58, 101] in table.events && table.events[[112, 58, 101]].handlers == map[]
  {
    var plugin := C.CUuid(0, 2);
    var json := SampleJson();
    table := new EventTable(C.CUuid(0, 1), map[plugin := [112]], json, [123, 125], [123, 125]);
    WitnessTexts();
    var schema := FromText([123, 125], 100);
    var name := FromText([101], 200);
    var fullName := FromText([112, 58, 101], 300);
    assert [112] + [Colon] + [101] == [112, 58, 101];
    assert table.CheckRegistration(schema, plugin, name) == Ok(Registration([101], [123, 125], [112]));
    assert table.events.Keys == {CoreInit(), CoreEvent()};
    assert [101] !in table.events;
    first := table.EventRegisterAsWritten(schema, plugin, name);
    assert [101] !in table.events;
    var h := table.HandlerRegister(Some(C.FnPtr(7)), C.CUuid(0, 3), fullName, C.CUuid(0, 4));
    handled := h.error;
    between := table.events[[112, 58, 101]].handlers;
    assert table.CheckRegistration(schema, plugin, name) == Ok(Registration([101], [123, 125], [112]));
    second := table.EventRegisterAsWritten(schema, plugin, name);
  }

  /** The name "core:event" is ASCII, so valid UTF-8. */
  lemma CoreEventIsUtf8()
    ensures IsUtf8(CoreEvent())
  {
    var name := CoreEvent();
    assert forall i :: 0 <= i < |name| ==> name[i] < 0x80;
    AsciiIsUtf8(name);
  }

  /** The JSON model the witnesses use: every non-empty text is JSON and a schema, and accepts anything. */
  function SampleJson(): (j: JsonModel)
    ensures j.Wf() && j.isJson([123, 125]) && j.validates([123, 125], [123, 125])
  {
    JsonModel(t => t != [], t => t != [], (s, a) => true)
  }

  /** The handler the witnesses put on "core:event". */
  function Watcher(): HandlerSet {
    map[C.CUuid(0, 3) := RegisteredHandler(C.FnPtr(7), C.CUuid(0, 4))]
  }

  /** A fresh table for plugin "p" in which plugin 3 has a handler on "core:event". */
  method WatchedTable() returns (table: EventTable, watched: C.CServiceError)
    ensures fresh(table) && watched == C.Success
    ensures table.Valid() && table.json == SampleJson() && table.coreId == C.CUuid(0, 1)
    ensures table.plugins == map[C.CUuid(0, 2) := [112]] && table.invocations == []
    ensures table.events.Keys == {CoreInit(), CoreEvent()}
    ensures table.events[CoreEvent()] == Event(Watcher(), [123, 125], C.CUuid(0, 1))
  {
    table := new EventTable(C.CUuid(0, 1), map[C.CUuid(0, 2) := [112]], SampleJson(), [123, 125], [123, 125]);
    CoreEventIsUtf8();
    var coreEvent := FromText(CoreEvent(), 400);
    var h := table.HandlerRegister(Some(C.FnPtr(7)), C.CUuid(0, 3), coreEvent, C.CUuid(0, 4));
    watched := h.error;
  }

  /**
   * The as-written event_register never notifies "core:event": a plugin's
   * handler is on it, plugin "p" registers "e" successfully, and no handler
   * has been called.
   */
  method CoreEventNotificationDead() returns (table: EventTable, watched: C.CServiceError, registered: C.CServiceError)
    ensures watched == C.Success && registered == C.Success
    ensures CoreEvent() in table.events && table.events[CoreEvent()].handlers == Watcher()
    ensures table.invocations == []
  {
    table, watched := WatchedTable();
    WitnessTexts();
    var schema := FromText([123, 125], 100);
    var name := FromText([101], 200);
    assert table.CheckRegistration(schema, C.CUuid(0, 2), name) == Ok(Registration([101], [123, 125], [112]));
    assert |[101]| != |CoreEvent()| && |[101]| != |CoreInit()|;
    registered := table.EventRegisterAsWritten(schema, C.CUuid(0, 2), name);
    assert [112] + [Colon] + [101] != CoreEvent();
  }

  /** With a JSON notice the corrected event_register calls the handler on "core:event" once. */
  method CoreEventNotified() returns (table: EventTable, watched: C.CServiceError, registered: C.CServiceError)
    ensures watched == C.Success && registered == C.Success
    ensures table.invocations == [Invocation(C.FnPtr(7), C.CUuid(0, 3), [123, 125])]
  {
    table, watched := WatchedTable();
    WitnessTexts();
    var schema := FromText([123, 125], 100);
    var name := FromText([101], 200);
    assert table.CheckRegistration(schema, C.CUuid(0, 2), name) == Ok(Registration([101], [123, 125], [112]));
    assert [112] + [Colon] + [101] == [112, 58, 101];
    assert |[112, 58, 101]| != |CoreEvent()| && |[112, 58, 101]| != |CoreInit()|;
    var notified;
    registered, notified := table.EventRegister(schema, C.CUuid(0, 2), name, [123, 125]);
    assert table.events[CoreEvent()] == Event(Watcher(), [123, 125], table.coreId);
    var calls := table.invocations;
    assert InvokesEachOnce(calls[0..], Watcher(), [123, 125]) && calls[0..] == calls;
    assert |calls| == 1 && calls[0].owner in Watcher();
  }

  /** With the corrected check the second registration of "e" by "p" is Duplicate. */
  method ReRegistrationRejected() returns (table: EventTable, first: C.CServiceError, second: C.CServiceError)
    ensures first == C.Success && second == C.Duplicate
  {
    var plugin := C.CUuid(0, 2);
    var json := SampleJson();
    table := new EventTable(C.CUuid(0, 1), map[plugin := [112]], json, [123, 125], [123, 125]);
    WitnessTexts();
    var schema := FromText([123, 125], 100);
    var name := FromText([101], 200);
    assert [112] + [Colon] + [101] == [112, 58, 101];
    assert table.CheckRegistration(schema, plugin, name) == Ok(Registration([101], [123, 125], [112]));
    assert table.events.Keys == {CoreInit(), CoreEvent()};
    assert [112, 58, 101] !in table.events;
    var notified;
    first, notified := table.EventRegister(schema, plugin, name, [123, 125]);
    assert table.CheckRegistration(schema, plugin, name) == Ok(Registration([101], [123, 125], [112]));
    second, notified := table.EventRegister(schema, plugin, name, [123, 125]);
  }
}
