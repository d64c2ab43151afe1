# TX-LCN transaction client core, modelled in Dafny

TX-LCN is a distributed-transaction coordinator. Each participating service runs a transaction
client (TC), which intercepts business methods, joins them to a transaction group held by the
transaction manager, and carries the group identity from service to service.
This project models four parts of that client and proves properties of the model:

- **Tracing context** (`tracing_context.dfy`, module `Tracing`). A per-thread bag of string fields
  holding the group id and the *app map*, which maps each service id to its address. The tracing
  context starts a group, merges fields imported from a request, registers participants, and exports
  the app map as Base64 text. Helper modules supply what it needs:
  - `utf8.dfy`: UTF-8 as in RFC 3629.
  - `base64.dfy`: Base64 as in section 4 of RFC 4648.
  - `app_map_json.dfy`: the JSON text of a string-to-string object.
- **Transaction descriptor cache** (`dtx_info.dfy`, module `Aspect`). The descriptor (`DTXInfo`) of an
  intercepted method, and the process-wide cache that hands out one descriptor per unit id through
  three lookup overloads.
- **Transaction weaver** (`dtx_logic_weaver.dfy`, module `Weave`). It wraps a business call. It
  short-circuits nested calls, reuses or starts the global transaction context, sets up the thread's
  local context, runs the executor, and tears the contexts down in a `finally` block.
- **Group-control template** (`transaction_control_template.dfy`, module `Template`). It creates,
  joins and notifies a group. Each operation is a fixed sequence of calls on collaborators. The model
  returns those calls as an event log and takes the collaborators' outcomes as parameters.

Objects the source updates in place are classes with `modifies` clauses:
- the tracing context and its thread slot;
- the descriptor and its cache;
- the local and global transaction contexts.

The template's operations change nothing of their own. They are methods that return their event log.

Two points where the model departs from the code as written:
- **The app-map import.** The code Base64-*encodes* an imported app map where decoding was evidently
  intended (see Findings). The as-written encoder is modelled and its effect is proved. `Init`
  uses the corrected decoder.
- **DTXInfo lookups by name.** The lookup overload that takes a `Method`, arguments and a class
  keys the cache by the method's bare name, while every descriptor's unit id comes from the method's
  full `toString()`. The model keeps this behaviour. `Aspect.OverloadsShareByNameEntry` shows two
  overloads sharing one entry.

## Model

| member | source | states |
|---|---|---|
| Utf8.EncodeChar | txlcn-tracing/src/main/java/com/codingapi/txlcn/tracing/TracingContext.java:108 | a character takes one to four bytes: one byte exactly when it is ASCII, otherwise a lead byte and continuation bytes of the RFC 3629 forms |
| Utf8.Encode | txlcn-tracing/src/main/java/com/codingapi/txlcn/tracing/TracingContext.java:108 | `getBytes(utf8)` yields between one and four bytes per character |
| Utf8.DecodeEncode | txlcn-tracing/src/main/java/com/codingapi/txlcn/tracing/TracingContext.java:108 | decoding the UTF-8 bytes of any string gives back that string |
| Utf8.DecodeIsEncode | txlcn-tracing/src/main/java/com/codingapi/txlcn/tracing/TracingContext.java:114-120 | a byte sequence decodes to a string only when it is exactly that string's UTF-8 encoding (overlong forms and surrogates are rejected) |
| Utf8.EncodeEmpty | txlcn-tracing/src/main/java/com/codingapi/txlcn/tracing/TracingContext.java:116-117 | only the empty string has an empty encoding, so the `""` special case agrees with encoding `""` |
| Utf8.Decode | txlcn-tracing/src/main/java/com/codingapi/txlcn/tracing/TracingContext.java:114-120 | a decoded string has at most one character per byte; `Utf8.DecodeEncode` and `Utf8.DecodeIsEncode` make it the exact inverse of `Encode` |
| Utf8.DecodeFailsOffEncodings | txlcn-tracing/src/main/java/com/codingapi/txlcn/tracing/TracingContext.java:114-120 | decoding fails only on byte sequences that are no string's UTF-8 encoding |
| Utf8.EncodeInjective | txlcn-tracing/src/main/java/com/codingapi/txlcn/tracing/TracingContext.java:108 | `getBytes(utf8)` loses nothing: different strings have different encodings |
| Base64.CharOf | txlcn-tracing/src/main/java/com/codingapi/txlcn/tracing/TracingContext.java:108 | every 6-bit value is written as a character of the RFC 4648 alphabet |
| Base64.ValueOf | txlcn-tracing/src/main/java/com/codingapi/txlcn/tracing/TracingContext.java:108 | a character has a 6-bit value exactly when it is in the alphabet, and `CharOf` maps that value back to it |
| Base64.Encode | txlcn-tracing/src/main/java/com/codingapi/txlcn/tracing/TracingContext.java:108 | `encodeToString` writes about four characters for every three bytes, and nothing exactly for no bytes; `Base64.DecodeEncode`, `Base64.EncodeLength` and `Base64.EncodeAlphabet` give the rest of its meaning |
| Base64.Decode | txlcn-tracing/src/main/java/com/codingapi/txlcn/tracing/TracingContext.java:114-120 | the basic decoder of `java.util.Base64`, which `Base64Utils.decodeFromString` uses. It gives at most three bytes per four characters, and some byte for non-empty text; `Base64.DecodeEncode` makes it undo `Encode` |
| Base64.PadOneKeepsDecode | txlcn-tracing/src/main/java/com/codingapi/txlcn/tracing/TracingContext.java:114-120 | any text that decodes and ends in a three-character group decodes to the same bytes with its one pad written |
| Base64.PadTwoKeepsDecode | txlcn-tracing/src/main/java/com/codingapi/txlcn/tracing/TracingContext.java:114-120 | any text that decodes and ends in a two-character group decodes to the same bytes with its two pads written |
| Base64.UnpaddedFinalGroup | txlcn-tracing/src/main/java/com/codingapi/txlcn/tracing/TracingContext.java:114-120 | examples of the basic decoder's handling of final groups: `e30` decodes as `e30=` does, while a lone character and a group of two characters with one pad are rejected |
| Base64.EncodeLength | txlcn-tracing/src/main/java/com/codingapi/txlcn/tracing/TracingContext.java:108 | `encodeToString` writes four characters per started group of three bytes |
| Base64.EncodeAlphabet | txlcn-tracing/src/main/java/com/codingapi/txlcn/tracing/TracingContext.java:108 | every character `encodeToString` writes is an alphabet character or the pad |
| Base64.DecodeEncode | txlcn-tracing/src/main/java/com/codingapi/txlcn/tracing/TracingContext.java:108 | decoding the Base64 text of any byte sequence recovers the bytes |
| Base64.EncodedHasNoBrace | txlcn-tracing/src/main/java/com/codingapi/txlcn/tracing/TracingContext.java:71 | Base64 text never contains `{`, so it never passes for JSON in the `init` test |
| AppMapJson.Escape | txlcn-tracing/src/main/java/com/codingapi/txlcn/tracing/TracingContext.java:100 | escaping writes no fewer characters than it is given; `AppMapJson.EscapePlain` and `AppMapJson.EscapedQuotesFollowBackslash` give its meaning |
| AppMapJson.EscapePlain | txlcn-tracing/src/main/java/com/codingapi/txlcn/tracing/TracingContext.java:100 | a string with no `"` and no `\` is written unchanged |
| AppMapJson.EscapedQuotesFollowBackslash | txlcn-tracing/src/main/java/com/codingapi/txlcn/tracing/TracingContext.java:100 | every `"` in escaped text follows a `\`, so no escaped quote ends a string literal |
| AppMapJson.Serialize | txlcn-tracing/src/main/java/com/codingapi/txlcn/tracing/TracingContext.java:100 | `toJSONString` writes text that starts with `{` and ends with `}`; `AppMapJson.ParseSerialize` makes `Parse` its inverse |
| AppMapJson.Parse | txlcn-tracing/src/main/java/com/codingapi/txlcn/tracing/TracingContext.java:95 | an object read from text starts with `{`, and the empty object is read exactly from `{}`; `AppMapJson.ParseSerialize` makes it undo `Serialize` |
| AppMapJson.ParseSerialize | txlcn-tracing/src/main/java/com/codingapi/txlcn/tracing/TracingContext.java:95-100 | reading the JSON text written for an app map gives back exactly its members |
| AppMapJson.ToMapAppend | txlcn-tracing/src/main/java/com/codingapi/txlcn/tracing/TracingContext.java:99 | adding a member to the object sets exactly that key in the map view |
| AppMapJson.ToMapKeys | txlcn-tracing/src/main/java/com/codingapi/txlcn/tracing/TracingContext.java:96 | the map view contains a service id exactly when some member names it |
| Tracing.IsWhitespace | txlcn-tracing/src/main/java/com/codingapi/txlcn/tracing/TracingContext.java:82 | `Character.isWhitespace` as in Java 8 (Unicode 6.2, which still counts U+180E); a whitespace character is never a Base64 character and never `{` |
| Tracing.HasText | txlcn-tracing/src/main/java/com/codingapi/txlcn/tracing/TracingContext.java:82 | a string has text exactly when some character in it is not whitespace as `Tracing.IsWhitespace` defines it |
| Tracing.NeedsRewrite | txlcn-tracing/src/main/java/com/codingapi/txlcn/tracing/TracingContext.java:71 | the `init` test holds exactly when the value does not start with `{`; its second disjunct adds nothing |
| Tracing.BaseString2AppMap | txlcn-tracing/src/main/java/com/codingapi/txlcn/tracing/TracingContext.java:114-120 | as written, the result is the Base64 text of the argument's UTF-8 bytes, for every argument including `""` |
| Tracing.RewriteAppMap | txlcn-tracing/src/main/java/com/codingapi/txlcn/tracing/TracingContext.java:69-73 | the as-written rewrite of the caller's map changes at most the app-map value. A value starting with `{` is kept; any other value is replaced by its Base64 encoding |
| Tracing.IntendedBaseString2AppMap | txlcn-tracing/src/main/java/com/codingapi/txlcn/tracing/TracingContext.java:114-120 | the corrected import keeps `""`, and any text it returns is the one whose UTF-8 bytes the Base64 input decodes to. `Tracing.IntendedImportAcceptsExactly` gives the converse |
| Tracing.IntendedImportAcceptsExactly | txlcn-tracing/src/main/java/com/codingapi/txlcn/tracing/TracingContext.java:114-120 | the corrected import returns a text exactly when the Base64 input decodes to that text's UTF-8 bytes, so it succeeds whenever the input is Base64 of UTF-8 |
| Tracing.IntendedRewriteAppMap | txlcn-tracing/src/main/java/com/codingapi/txlcn/tracing/TracingContext.java:69-73 | the corrected rewrite changes at most the app-map value, leaves JSON text alone, and stores a text whose UTF-8 bytes the old value decodes to. It fails, with `MalformedImport`, exactly when the value needs rewriting and the corrected import rejects it |
| Tracing.IntendedRewriteFailsExactly | txlcn-tracing/src/main/java/com/codingapi/txlcn/tracing/TracingContext.java:69-73 | the corrected rewrite fails exactly when the value needs rewriting and decodes to the UTF-8 bytes of no text at all, in both directions |
| Tracing.TracingContext.constructor | txlcn-tracing/src/main/java/com/codingapi/txlcn/tracing/TracingContext.java:43-54 | a new context has no field map |
| Tracing.TracingContext.HasGroup | txlcn-tracing/src/main/java/com/codingapi/txlcn/tracing/TracingContext.java:80-83 | a group exists exactly when the fields exist and the group-id value has a non-whitespace character |
| Tracing.TracingContext.BeginTransactionGroup | txlcn-tracing/src/main/java/com/codingapi/txlcn/tracing/TracingContext.java:56-62 | an existing group leaves the fields untouched. Otherwise the group id is set to the random key and the app map to `{}`, giving an empty app map. A group exists afterwards exactly when it did before or the key has text |
| Tracing.TracingContext.Init | txlcn-tracing/src/main/java/com/codingapi/txlcn/tracing/TracingContext.java:64-76 | the fields come to exist. Unless the import fails, they become the old fields overridden by the rewritten caller's map, and that map is returned |
| Tracing.TracingContext.GroupId | txlcn-tracing/src/main/java/com/codingapi/txlcn/tracing/TracingContext.java:85-91 | the group id is returned exactly when a group exists; otherwise the call fails with the non-group error |
| Tracing.TracingContext.AppMapMembers | txlcn-tracing/src/main/java/com/codingapi/txlcn/tracing/TracingContext.java:95 | reading the app map gives its parsed members, and it succeeds whenever the field is present and parses. A missing or empty field fails as a null map, since `parseObject` returns null for it; other unreadable text fails as malformed |
| Tracing.TracingContext.AddApp | txlcn-tracing/src/main/java/com/codingapi/txlcn/tracing/TracingContext.java:93-104 | without a group, or with a missing or unreadable app map, the call fails and nothing changes. A registered service id keeps its first address. Otherwise only the app-map field changes, to the members plus the new one, and the map view gains exactly that entry |
| Tracing.TracingContext.AppMapBase64String | txlcn-tracing/src/main/java/com/codingapi/txlcn/tracing/TracingContext.java:106-112 | it fails without a group or without an app map; otherwise it is exactly the Base64 text of the app map's UTF-8 bytes, which decodes back to them |
| Tracing.TracingContext.AppMap | txlcn-tracing/src/main/java/com/codingapi/txlcn/tracing/TracingContext.java:122-130 | it fails without a group, and is null when the app-map field is missing or empty, since `parseObject` returns null for both. For other text it succeeds exactly when the text parses, and a map it returns is the map view of the parsed text |
| Tracing.TracingContext.Destroy | txlcn-tracing/src/main/java/com/codingapi/txlcn/tracing/TracingContext.java:132-136 | the thread's slot is empty afterwards |
| Tracing.TracingSlot.Tracing | txlcn-tracing/src/main/java/com/codingapi/txlcn/tracing/TracingContext.java:47-52 | the slot's context is returned unchanged, or a new, group-less one when the slot is empty; the slot holds the result |
| Tracing.ImportOfExportReencodes | txlcn-tracing/src/main/java/com/codingapi/txlcn/tracing/TracingContext.java:114-120 | as written, importing an exported app map encodes it a second time, and the result no longer parses as JSON |
| Tracing.EmptyAppMapRoundTrip | txlcn-tracing/src/main/java/com/codingapi/txlcn/tracing/TracingContext.java:142-145 | `baseString2appMap("{}")` is `e30=`, and importing `e30=` as written yields `ZTMwPQ==` |
| Tracing.IntendedImportUndoesExport | txlcn-tracing/src/main/java/com/codingapi/txlcn/tracing/TracingContext.java:114-120 | the corrected import returns exactly the app map that `appMapBase64String` exported |
| Tracing.IntendedRewriteUndoesExport | txlcn-tracing/src/main/java/com/codingapi/txlcn/tracing/TracingContext.java:69-73 | the corrected `init` rewrite of an exported app map restores the app map |
| Aspect.GetMethod | txlcn-tc/src/main/java/com/codingapi/txlcn/tc/aspect/DTXInfo.java:80 | the method found is a public method of the class with the requested name and parameter types; nothing is found only when no such method exists |
| Aspect.TransactionInfo.constructor | txlcn-tc/src/main/java/com/codingapi/txlcn/tc/aspect/DTXInfo.java:56-61 | the aspect information records the target class, arguments, method name, method string and parameter types it is given |
| Aspect.DTXInfo.constructor | txlcn-tc/src/main/java/com/codingapi/txlcn/tc/aspect/DTXInfo.java:55-65 | a descriptor records the method's name, string and parameter types, the arguments and the target class. Its business method is the method and its unit id is the unit id of the method's string. Its type and propagation are null |
| Aspect.DTXInfo.ReanalyseMethodArgs | txlcn-tc/src/main/java/com/codingapi/txlcn/tc/aspect/DTXInfo.java:67-69 | only the recorded argument values change, to the new arguments |
| Aspect.DTXInfoCache.constructor | txlcn-tc/src/main/java/com/codingapi/txlcn/tc/aspect/DTXInfo.java:40 | the cache starts empty and satisfies its invariant |
| Aspect.DTXInfoCache.Insert | txlcn-tc/src/main/java/com/codingapi/txlcn/tc/aspect/DTXInfo.java:81-82 | a new descriptor, built as the constructor describes, is stored under a key that was absent. No other entry or argument list changes, and the invariant is kept |
| Aspect.DTXInfoCache.Store | txlcn-tc/src/main/java/com/codingapi/txlcn/tc/aspect/DTXInfo.java:82 | `put` of a descriptor under an absent key adds exactly that entry, its storage and its arguments, and keeps the invariant |
| Aspect.DTXInfoCache.Refresh | txlcn-tc/src/main/java/com/codingapi/txlcn/tc/aspect/DTXInfo.java:84-85 | the cached descriptor is returned with the new arguments; no other entry's arguments change |
| Aspect.DTXInfoCache.GetFromCacheJoinPoint | txlcn-tc/src/main/java/com/codingapi/txlcn/tc/aspect/DTXInfo.java:71-86 | the key is the unit id of the signature text. A hit returns the cached descriptor. On a miss, the target class's method is looked up: if it is absent the call fails with nothing changed, otherwise a new descriptor for it is cached. The result carries the join point's arguments |
| Aspect.DTXInfoCache.GetFromCacheInvocation | txlcn-tc/src/main/java/com/codingapi/txlcn/tc/aspect/DTXInfo.java:88-99 | the key is the unit id of the method's string. A hit returns the cached descriptor; a miss caches a new one. The result carries the invocation's arguments, and its unit id comes from its own method's string |
| Aspect.DTXInfoCache.GetFromCacheMethod | txlcn-tc/src/main/java/com/codingapi/txlcn/tc/aspect/DTXInfo.java:101-111 | the key is the unit id of the method's name, while a new descriptor's unit id is the unit id of the method's string. A hit returns the cached descriptor, otherwise a new one is cached. The result carries the arguments |
| Aspect.RepeatedInvocationLookups | txlcn-tc/src/main/java/com/codingapi/txlcn/tc/aspect/DTXInfo.java:88-99 | two lookups of one method return the same descriptor, which holds the second call's arguments and stays cached; the cache never loses a key |
| Aspect.OverloadsShareByNameEntry | txlcn-tc/src/main/java/com/codingapi/txlcn/tc/aspect/DTXInfo.java:101-107 | two overloads of one name share a single entry, and the second gets a unit id that is not that of its own signature |
| Aspect.SameNameLookupsShareEntry | txlcn-tc/src/main/java/com/codingapi/txlcn/tc/aspect/DTXInfo.java:101-111 | any two lookups by methods of one name return the same descriptor, holding the second call's arguments. When the name was not cached, that descriptor was built from the first method, so its unit id is that of the first method's string |
| Weave.LocalSlot.GetOrNew | txlcn-tc/src/main/java/com/codingapi/txlcn/tc/aspect/weave/DTXLogicWeaver.java:61 | the current local context is returned, or a new one with the initial field values when there is none; the slot holds the result |
| Weave.LocalSlot.MakeNeverAppeared | txlcn-tc/src/main/java/com/codingapi/txlcn/tc/aspect/weave/DTXLogicWeaver.java:109 | the thread has no local context afterwards |
| Weave.TCGlobalContext.StartTx | txlcn-tc/src/main/java/com/codingapi/txlcn/tc/aspect/weave/DTXLogicWeaver.java:70 | the started context becomes the current one and is returned |
| Weave.TCGlobalContext.DestroyTx | txlcn-tc/src/main/java/com/codingapi/txlcn/tc/aspect/weave/DTXLogicWeaver.java:106 | no transaction context remains |
| Weave.TeardownEvents | txlcn-tc/src/main/java/com/codingapi/txlcn/tc/aspect/weave/DTXLogicWeaver.java:98-111 | teardown happens exactly when `destroy` is set. It begins by signalling waiters and ends by clearing the local and tracing contexts, and it destroys the global context exactly when the unit is not in the group |
| Weave.DTXLogicWeaver.constructor | txlcn-tc/src/main/java/com/codingapi/txlcn/tc/aspect/weave/DTXLogicWeaver.java:47-50 | the weaver keeps the executor and global context it is given |
| Weave.DTXLogicWeaver.Teardown | txlcn-tc/src/main/java/com/codingapi/txlcn/tc/aspect/weave/DTXLogicWeaver.java:97-113 | a context marked `destroy` leaves both slots empty, and the global context is destroyed only outside the group; an unmarked context leaves everything as it was |
| Weave.DTXLogicWeaver.Enter | txlcn-tc/src/main/java/com/codingapi/txlcn/tc/aspect/weave/DTXLogicWeaver.java:60-80 | the new local context is installed. A parent context is reused and marks the unit `inGroup` with nothing logged; otherwise the started context is installed and logged. The unit id, group id and type are copied. `destroy` keeps its initial value unless a group id was already present, which clears it |
| Weave.DTXLogicWeaver.RunTransaction | txlcn-tc/src/main/java/com/codingapi/txlcn/tc/aspect/weave/DTXLogicWeaver.java:52-114 | see the notes after the table |
| Template.CreateGroup | txlcn-tc/src/main/java/com/codingapi/txlcn/tc/core/template/TransactionControlTemplate.java:82-101 | the log is exactly: the opening entry, the create message, then either the aspect trace or one handler call, then the closing entry unless the handler threw (four entries, or three). An RPC failure reaches the message handler with the exception; a business failure reaches the business handler with the exception's cause. The operation completes exactly when the send succeeded or the handler returned |
| Template.JoinGroup | txlcn-tc/src/main/java/com/codingapi/txlcn/tc/core/template/TransactionControlTemplate.java:112-138 | the join message carries the local transaction state. A successful send gives exactly six entries: opening, message, the second log entry, the delayed check, the aspect trace, closing. A failure gives the opening entry, the message and exactly one handler call, with `[groupId, unitId, transactionType]` and, for a business failure, the exception itself, followed by the closing entry exactly when the handler returns (four entries, or three). The second log entry, the delayed check and the aspect trace appear exactly when the send succeeds |
| Template.JoinFailed | txlcn-tc/src/main/java/com/codingapi/txlcn/tc/core/template/TransactionControlTemplate.java:132-137 | a failed join logs its opening entries and exactly the one handler call it is given, then the closing entry exactly when that handler returns: four entries, or three. The join-over entry, the delayed check and the aspect trace are absent |
| Template.SendNotification | txlcn-tc/src/main/java/com/codingapi/txlcn/tc/core/template/TransactionControlTemplate.java:161-171 | the steps are the notification, then clean with its debug entry (three steps), or clean with the error log and the clean-failure trace (four steps) when clean fails; a send failure gives the notification and exactly one handler call with `[groupId, state, unitId, transactionType]` (two steps). A clear failure reaches no handler |
| Template.CleanupSteps | txlcn-tc/src/main/java/com/codingapi/txlcn/tc/core/template/TransactionControlTemplate.java:162-166 | after clean, one debug entry is written, or two entries ending in the clean-failure trace exactly when clean fails |
| Template.NotifyInTime | txlcn-tc/src/main/java/com/codingapi/txlcn/tc/core/template/TransactionControlTemplate.java:153-173 | without a timeout the log is the opening entry, the notification steps of `SendNotification` and the closing entry: four, five or six entries |
| Template.NotifyGroup | txlcn-tc/src/main/java/com/codingapi/txlcn/tc/core/template/TransactionControlTemplate.java:148-174 | on a timeout the log is exactly three entries: the opening entry, the business handler call with a null cause, and the closing entry; neither the messenger nor clean is called. Otherwise it is the opening entry, the notification steps and the closing entry, so four, five or six entries. The closing entry is always last |

`Weave.DTXLogicWeaver.RunTransaction` states six things:
1. A nested call (a local context exists already) returns the callback's outcome. It changes nothing: no slot, no context, no global transaction and no tracing state.
2. Otherwise, a parent transaction context is reused and marks the unit `inGroup`. Without a parent, the started context is installed.
3. Before the executor runs, the new local context holds the descriptor's unit id and type and the context's group id. `destroy` is set exactly when it was initially set and no group id was present.
4. The executor receives the callback, the group id, the unit id, the business method, the propagation, the aspect information, the type and the context's start flag. Its outcome, normal or exceptional, is the result.
5. The event log and the final slots are those of `TeardownEvents`, whatever that outcome.
6. The global context is destroyed exactly when the unit was torn down outside its group.

## Left out

- Thread-local storage is reduced to one thread whose slots are objects the weaver is given. `synchronized` and `notifyAll` on the context's lock are reduced to a `Signalled` event.
- The cache's soft references and concurrent access are left out. In the model an entry is never evicted.
- The JSON reader and writer cover the canonical form of an object whose members are all strings, escaping only `"` and `\`. Whitespace, other escapes, non-string values and fastjson's member order are left out. A later duplicate member overrides an earlier one.
- Tracing.TracingContext.AppMap: only empty app-map text reads as null. Text of JSON whitespace alone, which fastjson also reads as null, fails as malformed, because the reader models no whitespace. `AppMapMembers` treats it the same way.
- TracingConstants.java is not part of this model. Its two keys are given distinct literal values.
- `RandomUtils.randomKey`, the `startTx` group id, `isDTXTimeout()`, `DTXLocalContext.transactionState()` and the collaborators' outcomes are nondeterministic or unseen. Each is a parameter.
- `Transactions.unitId` is a function parameter of the cache. Reflection is reduced to method records holding a name, a `toString()` text and parameter types. A join point's signature text is a separate input.
- Java nulls inside maps and arguments (a null app-map value, a null `initFields`) are left out. Map values are always strings.
- Lombok's generated getters, setters and the public all-arguments constructor of `DTXInfo` are left out. The transaction type and propagation are only read.
- DTXLocalContext.java is not part of this model. The initial field values of a new local context, including `destroy`, are the weaver's `initialLocal` parameter.
- Weave.DTXLogicWeaver.RunTransaction: the executor is a function of its parameter. Effects that `transactionRunning` or the callback have on the contexts are not modelled.
- Weave.DTXLogicWeaver.RunTransaction: the debug log lines of the weaver are not recorded.
- Logging records only which entry was written, not its text.
- Collaborators fail only in the ways listed: the messenger with an RPC or business exception, clean with a clear exception, a create or join handler by rethrowing. Runtime exceptions from the loggers, the delayed checker and the notify handlers are left out. `notifyGroup` declares no checked exception, so its handlers always return.
- Tracing.TracingContext.Init: models the corrected import, which decodes, not the encoding the code performs; Tracing.RewriteAppMap models the code as written (see Findings).
- Tracing.IntendedBaseString2AppMap: rejects malformed UTF-8, where Java's decoder would substitute U+FFFD. It rejects invalid Base64 as `Base64Utils.decodeFromString` does by throwing. Like `java.util.Base64`'s basic decoder, it accepts a final group without its padding.
- Unpaired surrogates are left out. A Dafny `char` cannot hold one, while Java's UTF-8 encoder would write it as `?`.
- `main` in TracingContext.java is a debug stub. What it prints is stated by `Tracing.EmptyAppMapRoundTrip`.
- JoinGroupExecuteService.java, on the manager side, is not part of this model. It only forwards to manager services, which are not modelled here, and rethrows their failures.

## Findings

| source | as written | input that shows it | evidently intended | confidence | as-written member | corrected member |
|---|---|---|---|---|---|---|
| txlcn-tracing/src/main/java/com/codingapi/txlcn/tracing/TracingContext.java:114-120 | `baseString2appMap`, which `init` applies to an imported app map that is not JSON text, Base64-*encodes* the value. The comment at line 68 and the method's own comment say "decode". | The app map `{}` is exported by `appMapBase64String` as `e30=`. Importing `e30=` through `init` stores `ZTMwPQ==`, which is not JSON, so the next `addApp` or `appMap` fails. | Base64-decode the value and read the bytes as UTF-8, so that importing an exported app map restores it | not executed | Tracing.ImportOfExportReencodes | Tracing.IntendedImportUndoesExport |
