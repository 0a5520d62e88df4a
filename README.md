# Universal JSON Plugin Loader — a Dafny model of its core

The plugin loader is a host that loads plugins through a C ABI. Plugins talk to the
host through:

- opaque C values: a `String`, which is a byte view or an error code, and a `List`;
- a flat error-code enumeration;
- function pointers for registering and triggering events.

This project models, on the C side of that boundary:

- the opaque String (`api/src/capi/ft_string.c`);
- the List macro (`api/src/capi/header/ft_list.h`).

On the Rust side it models:

- the safe conversions (`api/src/safe_api/mod.rs`, `api/src/safe_api/misc.rs`);
- the host's event table: registering and unregistering events and handlers, and triggering events (`core/src/runtime/event.rs`);
- the older handler registration code (`core/src/runtime.rs`);
- the map helpers (`core/src/util.rs`);
- the plugin configuration:
  - command-line options `plugin:key=value` parsed as TOML values (`core/src/config/cli.rs`);
  - the older option parser (`core/src/config.rs`);
  - the layering of file, environment and command-line settings, and the config request handler (`core/src/config/mod.rs`);
- the runtime's power state and park/unpark handshake (`core/src/runtime/mod.rs`);
- the checks the `fn_trait` procedural macro makes on a trait (`proc-macros/src/lib.rs`).

How the model is written:

- Values of the source are datatypes. Things the source updates in place are classes:
  - a String or List slot that is destroyed;
  - the event table (`EventRuntime.EventTable`) and the older runtime's table (`LegacyRuntime.HandlerTable`);
  - the config store;
  - the lock-protected map of `rcu_alter` (`Util.LockedMap`);
  - the power-state runtime.
- Each class's methods are specified against pure functions.
- Loops of the source are methods with loop invariants:
  - the array collector of the macro;
  - the attribute search over a trait's items;
  - `join_merge`;
  - `join_table`;
  - the collect-and-call loops of `event_trigger` (`EventRuntime.EventTable.TriggerText`).
- Several things are parameters of the model:
  - the JSON and JSON-schema checkers (`JsonModel`);
  - the float, TOML-datetime and RFC 3339 recognisers (`Recognisers`);
  - the constant-case conversion;
  - the platform config directory;
  - fresh UUIDs;
  - the environment and the parsed configuration files.

Modules:

- One module per source file.
- `Wrappers` holds Option and Result.
- `Bytes` holds UTF-8 validity (RFC 3629), which `str::from_utf8` checks.
- `CBindings` holds the C types of `api/src/capi/header/ft_rustbindings.h`.
- `Texts` holds `split`, `split_once`, and decimal reading and writing.

## Model

| member | source | states |
|---|---|---|
| OpaqueString.GetLength | api/src/capi/ft_string.c:105-109 | the length of a valid string; 0 for an error or invalidated value |
| OpaqueString.AsError | api/src/capi/ft_string.c:70-74 | an error code is returned only for an error value whose code is not SUCCESS; a zeroed (SUCCESS) error value reads as no error |
| OpaqueString.CreateString | api/src/capi/ft_string.c:59-64 | a null data pointer gives an invalid, empty string; otherwise the value views exactly `length` bytes at that address with the given deallocator, and it is never an error |
| OpaqueString.FromError | api/src/capi/ft_string.c:66-68 | an error string is not valid and has length 0; its code reads back unless it is SUCCESS |
| OpaqueString.GetChar | api/src/capi/ft_string.c:95-103 | corrected read: the byte at an in-range index of a valid string, otherwise 0 |
| OpaqueString.GetCharAsWritten | api/src/capi/ft_string.c:98-102 | the read as written: 0 for every index up to the length, an out-of-bounds read beyond it |
| OpaqueString.GetCharAsWrittenIsInverted | api/src/capi/ft_string.c:98 | on a string whose first byte is non-zero, index 0 reads 0 as written, and index length+1 reads past the end |
| OpaqueString.GetView | api/src/capi/ft_string.c:111-119 | a pointer is returned iff the string is valid and start < end <= length with start < length, and it points at data + start |
| OpaqueString.ViewAgreesWithGetChar | api/src/capi/ft_string.c:117 | the k-th byte behind a returned view is the string's character at start + k, as getCharString reads it |
| OpaqueString.ValidAndErrorExclusive | api/src/capi/ft_string.c:25-55 | no value reads both as a valid string and as an error |
| OpaqueString.ValidIffViewable | api/src/capi/ft_string.c:91-93 | isValidString holds on a non-empty string exactly when its whole view can be taken |
| OpaqueString.StringSlot.constructor | api/src/capi/ft_string.c:59-64 | a slot holds the created value and has made no deallocator call |
| OpaqueString.StringSlot.Destroy | api/src/capi/ft_string.c:76-89 | destroying a valid string invalidates it and calls its deallocator once with its data and length (none for a null deallocator); other values are untouched |
| OpaqueString.CreateAndDestroyTwice | api/src/capi/ft_string.c:76-89 | destroying the same string twice frees it exactly once |
| OpaqueString.NullDataNeverFreed | api/src/capi/ft_string.c:60-61 | a string created from a null pointer is never freed |
| OpaqueList.CreateList | api/src/capi/header/ft_list.h:32-37 | null data gives the no-op list of length 1; otherwise the given fields; the list is valid iff data is non-null and length non-zero |
| OpaqueList.EmptyList | api/src/capi/header/ft_list.h:67-69 | the empty list is the invalid no-op list |
| OpaqueList.ValidListReadable | api/src/capi/header/ft_list.h:25-30 | isValidList holds exactly when element 0 can be read |
| OpaqueList.GetList | api/src/capi/header/ft_list.h:55-65 | corrected access: an element pointer iff the list is valid and index < length, and it is data + index |
| OpaqueList.GetListAsWritten | api/src/capi/header/ft_list.h:60-64 | the access as written: null for every index up to the length, a pointer past the end beyond it |
| OpaqueList.GetListAsWrittenIsInverted | api/src/capi/header/ft_list.h:60 | as written, index 0 gives null and index length+1 a pointer past the end; no index ever gives an element |
| OpaqueList.ListSlot.constructor | api/src/capi/header/ft_list.h:32-37 | a slot holds the list and has made no deallocator call |
| OpaqueList.ListSlot.Destroy | api/src/capi/header/ft_list.h:39-53 | destroying a valid list clears it and calls its deallocator once; an invalid list is untouched; afterwards the list is invalid |
| OpaqueList.ZeroLengthNeverFreed | api/src/capi/header/ft_list.h:40-42 | a list with data but length 0 is never freed |
| OpaqueList.CreateAndDestroyTwice | api/src/capi/header/ft_list.h:39-53 | destroying a list twice frees it exactly once |
| ServiceErrors.ToRust | api/src/safe_api/mod.rs:38-59 | the C code converts to Ok exactly for SUCCESS |
| ServiceErrors.ToC | api/src/safe_api/mod.rs:61-81 | no Rust error maps to SUCCESS |
| ServiceErrors.FromResult | api/src/safe_api/mod.rs:95-102 | a result gives SUCCESS iff it is Ok |
| ServiceErrors.ToRustToC | api/src/safe_api/mod.rs:38-81 | converting an error to C and back gives the same error |
| ServiceErrors.ToCInjective | api/src/safe_api/mod.rs:61-81 | distinct errors have distinct codes |
| ServiceErrors.FromResultToRust | api/src/safe_api/mod.rs:95-106 | every C code survives the round trip through a Rust result |
| ServiceErrors.ToRustFromResult | api/src/safe_api/mod.rs:95-106 | every Rust result survives the round trip through a C code |
| SafeMisc.UuidFromC | api/src/safe_api/misc.rs:9-13 | the 128-bit UUID has the C pair as its high and low 64 bits |
| SafeMisc.UuidToC | api/src/safe_api/misc.rs:15-20 | the pair recombines to the UUID |
| SafeMisc.CUuidRoundTrip | api/src/safe_api/misc.rs:9-20 | C pair to UUID and back is the identity |
| SafeMisc.UuidRoundTrip | api/src/safe_api/misc.rs:9-20 | UUID to C pair and back is the identity |
| SafeMisc.AsStr | api/src/safe_api/misc.rs:34-45 | corrected as_str: InvalidString iff the string is not valid; a Utf8 error iff its bytes are not UTF-8; otherwise all of its bytes |
| SafeMisc.AsStrAsWritten | api/src/safe_api/misc.rs:39-43 | as written, a valid empty string reaches a slice built from a null view; every non-empty string gives what AsStr gives. The empty arguments event_register sends with its "core:event" notification are such a string; the event table reads them through the corrected AsStr, as the empty text |
| SafeMisc.EmptyStringHitsNullSlice | api/src/safe_api/misc.rs:40-42 | the empty string created from "" hits the null slice as written, and is the empty text when corrected |
| SafeMisc.FromText | api/src/safe_api/misc.rs:47-58 | a Rust text becomes a valid string of its length, freed by drop_string, whose as_str is that text |
| SafeMisc.DropCString | api/src/safe_api/misc.rs:22-26 | Drop is destroyString |
| SafeMisc.OwnedTextFreedOnce | api/src/safe_api/misc.rs:22-64 | a string made from a Rust text and dropped is freed once, by drop_string, with its address and length |
| SafeApi.OkOrCore | api/src/safe_api/mod.rs:119 | a missing function pointer is CoreInternalError; a present one is passed through |
| SafeApi.NewErrorHandler | api/src/safe_api/mod.rs:160-164 | an error handler carries the code and no function |
| SafeApi.EventHandlerToRust | api/src/safe_api/mod.rs:116-126 | the error code is checked first, then the function pointer; Ok carries the pointer |
| SafeApi.EventHandlerToC | api/src/safe_api/mod.rs:128-135 | the C form has SUCCESS, the function and the same id |
| SafeApi.EventHandlerFromResult | api/src/safe_api/mod.rs:166-173 | SUCCESS iff the result is Ok |
| SafeApi.EventHandlerRoundTrip | api/src/safe_api/mod.rs:116-135 | to_c then to_rust gives back the handler |
| SafeApi.EventHandlerResultRoundTrip | api/src/safe_api/mod.rs:166-179 | every handler result survives the trip through the C form |
| SafeApi.EndpointResponseToRust | api/src/safe_api/mod.rs:185-190 | Ok iff the code is SUCCESS, with the response string; otherwise the error whose code it is |
| SafeApi.EndpointResponseToC | api/src/safe_api/mod.rs:192-195 | SUCCESS with the same response |
| SafeApi.EndpointResponseRoundTrip | api/src/safe_api/mod.rs:185-195 | to_c then to_rust gives back the response |
| SafeApi.ContextToRust | api/src/safe_api/mod.rs:244-258 | Ok iff all eight service pointers are present; otherwise CoreInternalError; Ok converts back to the same C context |
| SafeApi.ContextToC | api/src/safe_api/mod.rs:260-272 | the C context has all eight pointers |
| SafeApi.ContextRoundTrip | api/src/safe_api/mod.rs:244-272 | to_c then to_rust gives back the context |
| LegacyRuntime.NewEvent | core/src/runtime.rs:37-41 | a new event has no handlers and the given schemas |
| LegacyRuntime.HandlerTable.constructor | core/src/runtime.rs:17-23 | the table holds the given events |
| LegacyRuntime.HandlerTable.HandlerRegister | core/src/runtime.rs:13-28 | succeeds iff a handler is given, the name is readable and the event exists; then exactly that event gets the handler appended |
| LegacyRuntime.CountFor | core/src/runtime.rs:26 | the count of a plugin's handlers is 0 iff it has none |
| LegacyRuntime.AppendCounts | core/src/runtime.rs:26 | appending a handler adds one to its plugin's count only |
| LegacyRuntime.DuplicateRegistrationAccepted | core/src/runtime.rs:26 | registering the same handler twice succeeds twice and stores it twice |
| EventRuntime.Stored | core/src/runtime/event.rs:37-49 | the stored set holds one handler per plugin id, and each of its elements is that plugin's handler |
| EventRuntime.StoredIsHashSet | core/src/runtime/event.rs:37-49 | two stored handlers that are equal by plugin id are the same handler |
| EventRuntime.NewEvent | core/src/runtime/event.rs:21-28 | a new event has no handlers, the given schema and the owner |
| EventRuntime.RegisterCoreEvents | core/src/runtime/event.rs:57-74 | exactly "core:init" and "core:event", both owned by the core |
| EventRuntime.OwnersMembers | core/src/runtime/event.rs:237-241 | the set of invoked owners is exactly the owners of the calls |
| EventRuntime.OwnersOfDistinct | core/src/runtime/event.rs:237-241 | calls to distinct owners have as many owners as calls |
| EventRuntime.EveryHandlerInvoked | core/src/runtime/event.rs:237-241 | a trigger that calls each stored handler once calls every registered plugin's handler |
| EventRuntime.EventTable.constructor | core/src/runtime/event.rs:57-74 | the table starts with the core events and no calls |
| EventRuntime.EventTable.HandlerRegister | core/src/runtime/event.rs:81-114 | InvalidInput0, InvalidInput2, NotFound, Duplicate in that order; on success only that event gains the handler under the plugin's id, with the fresh id |
| EventRuntime.EventTable.HandlerUnregister | core/src/runtime/event.rs:116-146 | InvalidInput2 iff the name is unreadable; NotFound iff the event is unknown or no handler has the id; when the only handler with the id is the caller's, Success and exactly that handler is removed; when every handler with the id is another plugin's, Unauthorized |
| EventRuntime.EventTable.CheckRegistration | core/src/runtime/event.rs:153-174 | the checks before the lock and the plugin lookup, with each error code |
| EventRuntime.EventTable.EventRegister | core/src/runtime/event.rs:148-184 | corrected: Duplicate iff "plugin:event" is already registered; otherwise exactly that entry is added as a new event owned by the caller, and "core:event" is then triggered by the core with the notice, with the outcome TriggerOutcome states (every handler on it called once when the notice is JSON its schema accepts) |
| EventRuntime.EventTable.EventRegisterAsWritten | core/src/runtime/event.rs:176-182 | as written: Duplicate iff the unprefixed name is registered; the event is stored under the prefixed name; the "core:event" notification carries the empty text, so no handler is ever called |
| EventRuntime.EventTable.EventUnregister | core/src/runtime/event.rs:186-207 | InvalidInput1, NotFound, Unauthorized; on success exactly that entry is removed |
| EventRuntime.EventTable.EventTrigger | core/src/runtime/event.rs:209-243 | InvalidInput1, InvalidInput2, NotFound, Unauthorized, InvalidInput2 for bad JSON or a schema mismatch; on success each stored handler is called once with the arguments |
| EventRuntime.EventTable.TriggerText | core/src/runtime/event.rs:220-242 | the trigger on readable texts; success implies the arguments are JSON |
| EventRuntime.ReRegistrationOverwrites | core/src/runtime/event.rs:176-179 | as written, plugin "p" registers "e" twice and both succeed; a handler registered successfully on "p:e" in between is gone after the second |
| EventRuntime.ReRegistrationRejected | core/src/runtime/event.rs:176-177 | corrected, the second registration is Duplicate |
| EventRuntime.CoreEventNotificationDead | core/src/runtime/event.rs:182 | as written, with a handler on "core:event", a successful registration calls no handler |
| EventRuntime.CoreEventNotified | core/src/runtime/event.rs:182 | corrected, with a JSON notice the handler on "core:event" is called exactly once, with the notice |
| Util.MergedSpec | core/src/util.rs:128-148 | the merge has the keys of both maps; a key in both is combined; a key in one keeps its value |
| Util.JoinMerge | core/src/util.rs:128-148 | the loop computes exactly Merged(left, right, func) |
| Util.MergeKeepRightIsOverride | core/src/util.rs:128-148 | merging with "keep the right value" is map override |
| Util.MergeWithEmpty | core/src/util.rs:128-148 | merging with an empty map on either side changes nothing |
| Util.Alter | core/src/util.rs:85-106 | a missing key is NotFound and nothing changes; otherwise only that key takes the function's new value and the function's result is returned |
| Util.AlterFrame | core/src/util.rs:85-106 | the keys are unchanged, every other entry is unchanged, and success means the key was present and the function succeeded |
| Util.LockedMap.constructor | core/src/util.rs:77-83 | the map holds the given contents |
| Util.LockedMap.RcuAlter | core/src/util.rs:85-106 | the stored map and the result are those of Alter on the old map |
| Util.OrError | core/src/util.rs:114-121 | Ok iff true; otherwise the given error |
| Util.Flatten | core/src/util.rs:180-186 | Ok iff both layers are Ok; the error is the outer one, else the inner one |
| Util.FlattenOfOk | core/src/util.rs:180-186 | flattening Ok(inner) is inner; an outer error stays |
| Texts.Split | core/src/config/cli.rs:105 | split always gives at least one piece |
| Texts.SplitPieces | core/src/config/cli.rs:105 | no piece holds the separator or is longer than the text; one piece iff the separator is absent |
| Texts.SplitJoin | core/src/config/cli.rs:105 | joining the pieces with the separator gives back the text |
| Texts.JoinSplit | core/src/config/cli.rs:105 | splitting a join of separator-free pieces gives back the pieces |
| Texts.SplitOnce | core/src/config/cli.rs:69-70 | None iff the separator is absent; otherwise the text is head + separator + tail with no separator in head |
| Texts.SplitOnceUnique | core/src/config/cli.rs:69-70 | a separator-free head is split off exactly |
| Texts.ParseI64 | core/src/config/cli.rs:89 | a number iff the text is an optional sign and at least one digit and nothing else, and its value fits in 64 bits; the number is the digits' value, negated after '-' |
| Texts.Dec | proc-macros/src/lib.rs:75-76 | Display of an integer is a non-empty run of digits |
| Texts.DecValue | proc-macros/src/lib.rs:75-76 | the digits read back as the number |
| Texts.DecInjective | proc-macros/src/lib.rs:75-76 | different numbers are displayed differently |
| Texts.ParseI64OfDec | core/src/config/cli.rs:89 | every 64-bit integer written in decimal parses back to itself |
| CliConfig.ParseBool | core/src/config/cli.rs:95-97 | exactly "true" and "false" are booleans |
| CliConfig.ParseItems | core/src/config/cli.rs:101-108 | on success one value per piece, each piece's parse; an error iff some piece fails |
| CliConfig.ParseEntries | core/src/config/cli.rs:110-122 | on success every piece holds '=' and the earlier keys are kept (a later piece may replace their values) |
| CliConfig.ParseEntriesLastWins | core/src/config/cli.rs:114-121 | the last piece's key maps to the parse of its value |
| CliConfig.ParseEntriesKeys | core/src/config/cli.rs:110-122 | on success the table's keys are exactly the earlier keys and the pieces' keys |
| CliConfig.ParseEntriesLast | core/src/config/cli.rs:114-121 | a key takes the value of the last piece that gives it |
| CliConfig.ParseEntriesKeeps | core/src/config/cli.rs:110-122 | an earlier key that no piece gives keeps its value |
| CliConfig.ParseCliFailure | core/src/config/cli.rs:88-125 | parse_cli fails only with MalformedValue, and only on text holding '{' (a table piece without '=') |
| CliConfig.ArrayFailure | core/src/config/cli.rs:101-108 | an array fails only through a nested table |
| CliConfig.ParseItemsFailure | core/src/config/cli.rs:103-107 | a failing array reports MalformedValue |
| CliConfig.ParseEntriesFailure | core/src/config/cli.rs:113-121 | a failing table reports MalformedValue |
| CliConfig.FromStrErrors | core/src/config/cli.rs:68-76 | no ':' is NoPluginPrefix; no '=' after it is NoValue; any other failure is MalformedValue |
| CliConfig.FromStrParts | core/src/config/cli.rs:68-76 | a parsed option is plugin ":" key "=" text, with the value being the parse of text, no ':' in the plugin and no '=' in the key |
| CliConfig.FromStrOfText | core/src/config/cli.rs:68-76 | writing plugin:key=text and parsing it gives back the plugin, the key and the parse of text |
| CliConfig.GroupedSpec | core/src/config/cli.rs:49-62 | a plugin is grouped iff some option names it; a key is present iff some option sets it, and the value is that of the last such option |
| CliConfig.JoinTable | core/src/config/cli.rs:51-62 | the fold computes Grouped(options) |
| ConfigStore.JoinPath | core/src/config/mod.rs:129-131 | an absolute path replaces the base; a relative one is appended to it |
| ConfigStore.FileName | core/src/config/mod.rs:64 | the file name is the last component, never ".." |
| ConfigStore.Initials | core/src/config/mod.rs:66 | a character is an initial iff it starts a non-empty word; with no empty word, exactly the first character of each word, in order |
| ConfigStore.InitialsConcat | core/src/config/mod.rs:66 | the initials keep the order of the words: those of two runs are the first run's, then the second's |
| ConfigStore.EnvPrefix | core/src/config/mod.rs:63-67 | Ok iff there is a root directory with a file name, and then the initials of the '_'-separated words of that name in constant case; otherwise NoConfigDir |
| ConfigStore.Stripped | core/src/config/mod.rs:91-92 | exactly the variables with the prefix, each as "<rest of name>=<value>": each of them is there, nothing else is; all of them when every variable has the prefix, none when none has |
| ConfigStore.StrippedConcat | core/src/config/mod.rs:91-92 | the variables keep their order: stripping two runs gives the first run's, then the second's |
| ConfigStore.CollectAll | core/src/config/mod.rs:93-94 | all parses in order on success; an error iff some parse fails, and then it is one of the parse errors |
| ConfigStore.OverlayPrecedence | core/src/config/mod.rs:74-79 | an overriding key wins; other keys of either side stay |
| ConfigStore.LayeredPrecedence | core/src/config/mod.rs:69-86 | a key is configured iff the command line, the environment or a file sets it, and the command line beats the environment, which beats the files |
| ConfigStore.LayeredPlugins | core/src/config/mod.rs:69-86 | a plugin is configured iff some layer names it |
| ConfigStore.LoadConfig | core/src/config/mod.rs:171-182 | an unknown plugin or key is NotFound; no key gives the plugin's table; a key gives its value |
| ConfigStore.LoadAfterInit | core/src/config/mod.rs:69-182 | after init a load of a key returns the effective value by the precedence above |
| ConfigStore.FilesAsWritten | core/src/config/mod.rs:98-121 | as written, each ".toml" file's table is keyed by its whole file name, so every key ends in ".toml" |
| ConfigStore.FilesAsWrittenUnreachable | core/src/config/mod.rs:112-116 | as written, loading a key of a plugin whose name does not end in ".toml" finds nothing from the files |
| ConfigStore.Files | core/src/config/mod.rs:98-121 | corrected, the plugins with a file are exactly the stems of the ".toml" file names |
| ConfigStore.FilesFound | core/src/config/mod.rs:98-121 | corrected, the file "p.toml" gives plugin "p" its table |
| ConfigStore.FilesLoad | core/src/config/mod.rs:112-182 | corrected, loading a key of plugin "p" set by "p.toml" answers its value |
| ConfigStore.Config.constructor | core/src/config/mod.rs:56-61 | no configurations and no root directory |
| ConfigStore.Config.ConfigDir | core/src/config/mod.rs:57-61 | the root directory, or NoConfigDir when unset |
| ConfigStore.Config.SetConfigDir | core/src/config/mod.rs:127-136 | a relative path without a platform directory is NoConfigDir; a second set is ConfigRootAlreadySet; otherwise the root becomes the (joined) path |
| ConfigStore.Config.Init | core/src/config/mod.rs:69-95 | NoConfigDir, or CliFailure from the environment; on success the store is Layered(Files(directory), environment options, command-line options). Corrected: the file tables are keyed by stem (`Files`); as written they are keyed by the whole file name (`FilesAsWritten`), see Findings |
| ConfigStore.Config.Handle | core/src/config/mod.rs:156-168 | unreadable arguments are InvalidJson; load is LoadConfig; save needs key and value (else InvalidApi); reload reloads |
| LegacyConfig.NewItems | core/src/config.rs:88-91 | on success one value per piece, each piece's parse; an error iff some piece fails |
| LegacyConfig.NewEntries | core/src/config.rs:92-99 | on success every piece holds '=' and the earlier keys are kept (a later piece may replace their values) |
| LegacyConfig.NewEntriesLastWins | core/src/config.rs:94-99 | the last piece's key maps to the parse of its value |
| LegacyConfig.NewEntriesKeys | core/src/config.rs:92-99 | on success the table's keys are exactly the earlier keys and the pieces' keys |
| LegacyConfig.NewEntriesLast | core/src/config.rs:94-99 | a key takes the value of the last piece that gives it |
| LegacyConfig.NewEntriesKeeps | core/src/config.rs:92-99 | an earlier key that no piece gives keeps its value |
| LegacyConfig.OneCharacter | core/src/config.rs:82-84 | a one-character text that is not a number is a Char |
| LegacyConfig.NewFailure | core/src/config.rs:72-102 | new fails only with MalformedValue, and only on text holding '{' |
| LegacyConfig.ArrayFailure | core/src/config.rs:88-91 | an array fails only through a nested table |
| LegacyConfig.NewItemsFailure | core/src/config.rs:90 | a failing array reports MalformedValue |
| LegacyConfig.NewEntriesFailure | core/src/config.rs:94-99 | a failing table reports MalformedValue |
| LegacyConfig.FromStrErrors | core/src/config.rs:108-112 | no ':' is NoPluginPrefix; no '=' after it is NoValue; any other failure is MalformedValue |
| LegacyConfig.FromStrOfText | core/src/config.rs:108-112 | writing plugin:name=text and parsing it gives back the plugin, the name and the parse of text |
| Power.Runtime.constructor | core/src/runtime/mod.rs:62-75 | a new runtime is Running |
| Power.Runtime.CheckAndResetPower | core/src/runtime/mod.rs:78-81 | returns the state and resets it to Running |
| Power.Runtime.CheckPower | core/src/runtime/mod.rs:83-85 | returns the state and changes nothing |
| Power.Runtime.SetPower | core/src/runtime/mod.rs:131-136 | stores the state and wakes the main thread unless it is Cancel |
| Power.Runtime.Park | core/src/runtime/mod.rs:111-114 | consumes the wake-up and returns the requested state, leaving Running |
| Power.RequestSeenOnce | core/src/runtime/mod.rs:131-136 | a request wakes the main thread iff it is not Cancel; the park sees it once, then Running |
| Power.LastRequestWins | core/src/runtime/mod.rs:78-81 | of two requests before a check, the later one is seen |
| ProcMacros.CollectArray | proc-macros/src/lib.rs:41-63 | Ok iff exactly n items, then those items; Only(found, n) when fewer; MoreThan(n) when more, after pulling n+1 |
| ProcMacros.DecPrefix | proc-macros/src/lib.rs:75-76 | a number followed by a non-digit is read back uniquely |
| ProcMacros.Message | proc-macros/src/lib.rs:71-78 | the message starts "Expected " and a digit and ends in '.' after a digit (Only) or in " more." (MoreThan) |
| ProcMacros.MessageRest | proc-macros/src/lib.rs:75-76 | the text after the expected count starts with a space, its ninth character tells Only from MoreThan, and it ends as Message does |
| ProcMacros.MessageInjective | proc-macros/src/lib.rs:71-78 | different bounds errors have different messages |
| ProcMacros.ParseAttrArgs | proc-macros/src/lib.rs:14-24 | succeeds iff the tokens are Trait for Struct, and takes both names |
| ProcMacros.AttrArgsRoundTrip | proc-macros/src/lib.rs:14-24 | parsing the rendered arguments gives them back, and only those tokens parse to them |
| ProcMacros.Without | proc-macros/src/lib.rs:246 | retain drops exactly the given attribute |
| ProcMacros.Matches | proc-macros/src/lib.rs:244-245 | a function is matched iff it is one of the items and carries the attribute |
| ProcMacros.MatchesConcat | proc-macros/src/lib.rs:244-245 | the matches keep trait order: those of two runs of items are the first run's, then the second's |
| ProcMacros.StripAll | proc-macros/src/lib.rs:246 | each function no longer carries the attribute, keeps every other attribute and is otherwise unchanged |
| ProcMacros.PullFound | proc-macros/src/lib.rs:243-248 | the first `limit` functions carrying the attribute, with the attribute removed |
| ProcMacros.PullStripsAll | proc-macros/src/lib.rs:243-248 | the items keep their number; pulled to the end, no function still carries the attribute |
| ProcMacros.PullKeepsOthers | proc-macros/src/lib.rs:246 | stripping one attribute leaves the functions carrying another attribute as they were |
| ProcMacros.FindFuncByAttr | proc-macros/src/lib.rs:243-248 | returns the pulled functions and strips them in place in the array |
| ProcMacros.ErrorText | proc-macros/src/lib.rs:220-252 | each kind of macro error has its own ending: a quote for the receiver error; " more." or '.' after a digit for a count error, and '.' after 't', 'r' or 'n' for the others |
| ProcMacros.ErrorTextKind | proc-macros/src/lib.rs:220-252 | two errors with the same text are of the same kind |
| ProcMacros.BareArgs | proc-macros/src/lib.rs:287-302 | Ok iff no argument is a receiver, then the types in order; otherwise the receiver error |
| ProcMacros.FpAdapterCheck | proc-macros/src/lib.rs:220-225 | no argument, a non-self first argument, then no body, in that order; otherwise the receiver type |
| ProcMacros.Annotated | proc-macros/src/lib.rs:142-144 | Ok iff exactly one function carries the attribute, then that function stripped; otherwise the count error |
| ProcMacros.WithoutFn | proc-macros/src/lib.rs:167 | retain removes exactly the functions of that name |
| ProcMacros.FnTraitResult | proc-macros/src/lib.rs:138-177 | the checks run in order and the first that fails gives the error: the sig count's AnnotationCount, ReceiverArgument for sig, the adapter count's AnnotationCount, ReceiverArgument for adapter, the fp_adapter count's AnnotationCount, then FpAdapterCheck's error; Ok iff each of sig, adapter and fp_adapter is annotated once, sig and adapter take no receiver and the fp_adapter check passes; then the items are the trait without fp_adapter plus the two getters, and the trait's items are left stripped by the three searches |

## Left out

- Lock poisoning and a missing global state are left out. In the source, `GGL.write()`/`GGL.read()` return CoreInternalError when poisoned, and so do `get_gov()` failures. The model holds one table object.
- Handlers run one after another with no re-entry. Handlers called by `event_trigger` may call back into the table; the model records each call and does not run plugin code.
- JSON parsing and JSON-schema validation are not modelled; they are the `JsonModel` parameter. Float, TOML datetime and RFC 3339 parsing are the `Recognisers` parameters, and a recognised float or datetime keeps its text.
- File I/O is not modelled: reading the directory, `read_config`, `save_config`'s write, and `create_dir_all`. The directory's files with their parsed tables are the `dir` parameter of `Init`. A file name that is not UTF-8 (InvalidFileName) and read or TOML errors are left out with them. `save_config` and `reload_config` are modelled only as the outcome that `handle` dispatches to.
- `dirs::config_dir()` is a parameter. The `convert_case` constant-case conversion is the `constantCase` parameter. Its output is split into words at '_' (`Split`) before the initials are taken; only the grapheme-aware word splitting of `convert_case::split` is left out.
- Failures of `serde_json::to_string` (CoreInternalError in `load_config`) are not modelled. Turning arguments into JSON is the `Option<ConfigArgs>` parameter of `Handle`.
- `Uuid::new_v4` is not modelled. A fresh handler id is a parameter.
- Token generation by `quote!`/`parse_quote!` is left out: `sig_to_fp`, `create_type`, `variadic_to_bare_variadic`, the adapter getter's generic clean-up and the `trait_fn` attribute macro. The getters are modelled as items named `<fn>_fp` with the `inline` attribute.
- ProcMacros.CollectArray: the dropping of already collected elements on failure is a memory effect and is not stated.
- Util.LockedMap.RcuAlter: the compare-and-swap retry of `rcu` under contention is not modelled. One uninterrupted attempt is.
- Power.Runtime.Park: blocking and spurious wake-ups of `thread::park` are not modelled. The token is the unpark flag.
- `Runtime::init`, `restart`, `shutdown` and `start` are not part of this model. They start threads, load plugins and reset global state.
- CliConfig.ParseCli, CliConfig.FromStr, LegacyConfig.New, LegacyConfig.FromStr and ConfigStore.ParseEnv carry no `ensures` of their own. What they promise is proved in the lemmas listed above.
- EventRuntime.EventTable.EventRegister: what the "core:event" notification was meant to carry is not visible in the source, so the corrected notification takes it as the `notice` parameter.
- SafeMisc.DropCString models the `Drop` of one CString as `destroyString` on its slot, logging the deallocator call; no memory is freed.
- The event services take their CString arguments by value, so each argument is dropped (its deallocator called) when the service returns. The service methods take the arguments as values and do not log those calls.
- The NULL guards of the C functions on a null `String *` or `List *` are not modelled: the model passes values, never pointers, so a null pointer cannot be expressed.
- `ok_or_core` and `CEventHandler::new_error` are defined outside the files modelled here, in the api crate's helper traits. The model assumes that `ok_or_core` turns a missing function pointer into CoreInternalError and that `new_error` gives no function, a zero id and the code.

## Findings

| source | as written | input that shows it | evidently intended | confidence | as-written member | corrected member |
|---|---|---|---|---|---|---|
| api/src/capi/ft_string.c:98 | `getCharString` returns 0 when `length >= index` and reads `data[index]` otherwise | a valid string of length 1 holding 'A': index 0 gives 0, index 2 reads past the end | return the byte when `index < length`, 0 otherwise | not executed | OpaqueString.GetCharAsWrittenIsInverted | OpaqueString.GetChar |
| api/src/capi/header/ft_list.h:60 | `getList` returns NULL when `length >= index` and `&data[index]` otherwise | a valid list of length 3: index 0 gives NULL, index 4 a pointer past the end | return the element pointer when `index < length` | not executed | OpaqueList.GetListAsWrittenIsInverted | OpaqueList.GetList |
| api/src/safe_api/misc.rs:40-42 | `as_str` asks for the view (0, len) and builds a slice from it; for len 0 the view is NULL because `start >= end` | `CString::from("")` then `as_str()` builds a slice from a null pointer | the empty text | not executed | SafeMisc.EmptyStringHitsNullSlice | SafeMisc.AsStr |
| core/src/runtime/event.rs:176-179 | the duplicate check looks up the bare event name, but the event is stored under "plugin:event" | plugin "p" registers "e" twice: both succeed and the second replaces the first with its handlers | Duplicate on the second registration | not executed | EventRuntime.ReRegistrationOverwrites | EventRuntime.ReRegistrationRejected |
| core/src/runtime/event.rs:182 | after a registration "core:event" is triggered with `format!("")` as its arguments; read as text (through the corrected `as_str`; as written it first meets the null slice above) the empty text is not JSON, so `event_trigger` returns InvalidInput2 before calling any handler | a plugin registers a handler on "core:event", then plugin "p" registers "e": the registration succeeds and the handler is never called | the handlers of "core:event" are called after each registration | not executed | EventRuntime.CoreEventNotificationDead | EventRuntime.CoreEventNotified |
| core/src/config/mod.rs:112-116 | `parse_files` keys each table by `file_name()`, "p.toml", but the layers and `load_config` look plugins up by name, "p" | a file "p.toml" setting k, then a load of k for plugin "p": NotFound | the table keyed by the file stem, "p" | not executed | ConfigStore.FilesAsWrittenUnreachable | ConfigStore.FilesLoad |
