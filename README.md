# Skaly Cordova bridge, modelled in Dafny

This project models `SkalySDK.execute`, the Cordova plugin entry point that connects
script-side callers to the Skaly body-metrics SDK (scales, watches, user identities,
data-sharing consent). A command is an action name and a positional JSON argument array.
`execute` does one of these:

- it rejects an unknown action by returning `false`;
- it answers a presence query (`hasScale`, `hasWatch`) at once;
- it refuses a history fetch when no handles are known;
- it decodes the arguments and posts one runnable to the main looper.

When a posted runnable runs, it makes one call into the SDK. The SDK's completion is then
turned into exactly one `success(...)` or `error(message)` for the command's callback context.

The SDK is opaque. What it answers at once (`hasScale()`, `hasWatch()`, `getHandles()`) is the
`DeviceView` parameter of `Execute`. How each SDK call completes (the arguments its callback
receives, the value it returns, or the exception it throws) is the `Completion` parameter of
`RunNext`. Turning replies into JSON (`ScaleReplyKt.toJSONString`, `WatchReplyKt.toJSONString`,
`new JSONObject(...)`) is an opaque `Codec`: each serialiser either yields text or fails with
an exception's message.

Modules, leaf to root:

- `Wrappers`: `Option`, `Result`.
- `JsonArgs`: the argument array and org.json's typed readers. A reader that fails gives an
  `ArgFault`, which stands for the JSONException the source lets escape from `execute`.
- `IdList`: the comma-list decoding for `addScale` and `addWatch`, with Java `split(",")` semantics.
- `Decoders`: the sex code, the birthday in milliseconds, the handle default and the cursor choice.
- `Device`: the SDK's value types, the calls the bridge makes and the shapes they complete in.
- `Envelope`: outcomes, payloads, serialisation and one adapter per completion shape.
- `Bridge`: the routing function `Route` and the adapter dispatch `Respond`. Its class
  `SkalyPlugin` holds four fields:
  - the static session;
  - the FIFO queue of posted runnables;
  - the log of deliveries to callback contexts;
  - the log of SDK calls.

  `Execute` is `execute`. `RunNext` runs the oldest runnable. `Drain` runs them all in submission order.

In these places the model follows the code, which differs from what one might expect:

- The no-reading error of `startReading` is the fixed text
  `Didn't get a reading, handle (contains error message): ` followed by the scanned handle, not
  the scanned handle alone.
- Sex code 0 is Male and every other integer is Female, not only 1.
- `getWatchData` succeeds whatever its flag says. The flag of `startReading` is not consulted either.

Line 188 treats a null first argument of `getScaleData` as "use the first known handle".
The model's route follows that intention: it reads a JSON null there as absent
(`JsonArgs.GetNullableString`), so the fetch uses the first known handle. Android's org.json
`getString` never returns Java null, though: it reads a JSON null as the text `"null"`. As
written, then, the default is never taken; see "## Findings".

## Model

| member | source | states |
|---|---|---|
| `IdList.DropTrailingEmpty` | src/android/SkalySDK.java:90 | the result is a prefix of the pieces, its last element is non-empty, and every piece cut off is empty |
| `IdList.JoinPieces` | src/android/SkalySDK.java:90 | cutting a string at its commas gives comma-free pieces that join back to the string |
| `IdList.PiecesJoin` | src/android/SkalySDK.java:90 | joining comma-free pieces and cutting again gives the same pieces, so the cut is unique |
| `IdList.DecodeIdListSpec` | src/android/SkalySDK.java:87-92 | an empty string gives the empty list; otherwise the comma-separated pieces in order, dropping only trailing empty pieces; no identifier contains a comma (the same decoding serves `addWatch`, lines 110-115) |
| `IdList.DecodeIdListExamples` | src/android/SkalySDK.java:88-92 | `"a,,b,,"` gives `["a", "", "b"]`, `",,"` gives `[]`, `"a"` gives `["a"]` |
| `IdList.JavaSplit` | src/android/SkalySDK.java:90 | a non-empty string splits into its comma-cut pieces without the trailing empty ones, including when it has no comma; the empty string gives `[""]` |
| `IdList.DecodeIdList` | src/android/SkalySDK.java:87-92 | the length guard turns the empty string into the empty list; any other string gives its pieces without the trailing empty ones |
| `JsonArgs.GetString` | src/android/SkalySDK.java:66 | reads argument `i` when it is present and a string; otherwise a fault naming index `i`, missing exactly when there are too few arguments (also lines 87, 110, 133, 238-239) |
| `JsonArgs.GetNullableString` | src/android/SkalySDK.java:188 | reads argument `i` as a string or, for a JSON null, as absent; otherwise a fault naming index `i`, missing exactly when there are too few arguments |
| `JsonArgs.GetInteger` | src/android/SkalySDK.java:134-136 | reads argument `i` when it is present and a number; otherwise a fault naming index `i`, missing exactly when there are too few arguments (also line 189) |
| `JsonArgs.AndroidGetString` | src/android/SkalySDK.java:188 | Android's reader as written: never yields null, and reads a JSON null as `"null"` |
| `Decoders.SexOf` | src/android/SkalySDK.java:134 | Male exactly for code 0, Female for every other code |
| `Decoders.BirthdayMillis` | src/android/SkalySDK.java:135 | the milliseconds are a multiple of 1000 whose quotient by 1000 is the seconds argument |
| `Decoders.ChooseHandle` | src/android/SkalySDK.java:188 | a null handle becomes the first known handle; a given handle is kept |
| `Decoders.FetchFor` | src/android/SkalySDK.java:195-200 | cursor 0 selects the newest-page fetch; any other cursor selects the fetch before that UID; the handle is passed on |
| `Envelope.SerializedSpec` | src/android/SkalySDK.java:203-207 | serialising a list succeeds exactly when every element does, giving same length and order; otherwise it fails with the first failing element's message |
| `Envelope.SerializedFailureSticks` | src/android/SkalySDK.java:204-206 | once a prefix fails to serialise, the whole list fails with that message, as the thrown exception ends the loop |
| `Envelope.SerializeEach` | src/android/SkalySDK.java:203-206 | the JSON-array loop computes exactly the specified serialisation, failure included |
| `Envelope.FlagOutcome` | src/android/SkalySDK.java:99-103 | true gives success with no payload; false gives an error with the given action-specific message |
| `Envelope.ReadingOutcome` | src/android/SkalySDK.java:164-178 | a null reply gives the no-reading error carrying the scanned handle; a reply gives a success with `scaleReply` and `scannedHandle`, unless serialising it fails, which gives an error with that message |
| `Envelope.NoReadingCarriesHandle` | src/android/SkalySDK.java:166-168 | the no-reading error message is the fixed prefix followed by exactly the scanned handle |
| `Envelope.PageOutcome` | src/android/SkalySDK.java:202-213 | success exactly when every reply serialises; then `scaleReplies` has the replies' length and order and `lastUID` is the returned cursor; otherwise a single error with the first failure's message |
| `Envelope.BatchOutcome` | src/android/SkalySDK.java:220-232 | success exactly when every reply serialises, with the full list in order; otherwise a single error with the first failure's message |
| `Bridge.Route` | src/android/SkalySDK.java:63-256 | unknown exactly for actions outside the ten; presence queries answer at once; a history fetch with no handles is refused with "No handles registered yet!"; a posted operation belongs to the action named |
| `Bridge.MalformedExactlyOnBadArguments` | src/android/SkalySDK.java:63-256 | a recognised command throws exactly when its arguments do not fit the action's signature, and it names the first argument that does not fit, missing or mismatched |
| `Bridge.ExecuteReturnValue` | src/android/SkalySDK.java:183-255 | `execute` returns true for recognised actions with fitting arguments, except a history fetch with no handles known; it returns false for unknown actions and that fetch |
| `Bridge.UnknownAndRefusedCommands` | src/android/SkalySDK.java:183-187 | an unknown action delivers and posts nothing; a history fetch with no handles delivers exactly the no-handles error and posts nothing, before any argument is read |
| `Bridge.AddDeviceRouted` | src/android/SkalySDK.java:86-93 | `addScale` and `addWatch` post the decoded list of their string argument |
| `Bridge.AddIdentityRouted` | src/android/SkalySDK.java:132-137 | `addIdentity` posts only when all four arguments read; sex is Male exactly for code 0, and the birthday is seconds × 1000 |
| `Bridge.StartGrantAndPresenceRouted` | src/android/SkalySDK.java:65-250 | `start` posts its root key; `allowAccessToData` posts grantee then handle in argument order; `hasScale`/`hasWatch` answer what the session reports; `startReading` and `getWatchData` read no argument |
| `Bridge.ScaleDataRouted` | src/android/SkalySDK.java:188-200 | with handles known, the posted fetch uses the given handle or the first known one for null, and the cursor picks the newest page for 0 and the page before that UID otherwise |
| `Bridge.NullHandleAsWritten` | src/android/SkalySDK.java:188 | as written, a null handle with cursor 0 is fetched as the handle `"null"`, not the first known handle that the model's route uses |
| `Bridge.ScaleDataHandleAsWritten` | src/android/SkalySDK.java:188 | line 188 with the model's Android reader (numbers left out, see `JsonArgs.AndroidGetString`): the handle reads unless the argument is missing or a number; a JSON null gives the handle `"null"` and a string gives itself; a fault names argument 0 |
| `Bridge.DefaultNeverTakenAsWritten` | src/android/SkalySDK.java:188 | as written, the handle is always the text the reader returned, so the default branch is never taken |
| `Bridge.CallFor` | src/android/SkalySDK.java:70-243 | a history fetch becomes exactly the two history calls, keeping its handle, with the newest-page call for cursor 0 (lines 195-200); only `start` builds a new session |
| `Bridge.CallForByAction` | src/android/SkalySDK.java:70-243 | each runnable calls the SDK method of its own action with the decoded arguments unchanged: `new Skaly` (line 70), `addScale` (96), `addWatch` (119), `addIdentity` (141), `startReading` (162), the two history calls (195-200), `startReadingWatch` (220) and `allowAccessToData` (243) |
| `Bridge.CallForInjective` | src/android/SkalySDK.java:70-243 | different posted operations make different SDK calls, so no decoded argument is lost on the way into the SDK |
| `Bridge.Fits` | src/android/SkalySDK.java:70-248 | which completions an SDK call can end in: an exception is delivered only by `addIdentity` (`try` at line 140, caught at 152) and the history fetch (`try` at 193, caught at 210), and both always may; only `start` (the constructor returns, line 70) and `allowAccessToData` (its no-argument callback, lines 243-248) complete with no value (`Done`) |
| `Bridge.Respond` | src/android/SkalySDK.java:96-250 | every success carries the payload its action promises (none, a reading, a page or a batch); an SDK exception caught at lines 152 and 210 becomes an error with its message |
| `Bridge.RespondByAction` | src/android/SkalySDK.java:162-232 | a reading is answered by the reading adapter (lines 164-178), a history page by the page adapter (202-213) and a watch batch by the batch adapter (220-232), each given exactly what the SDK's callback received or, for the history fetch, what the call returned (lines 196, 199) |
| `Bridge.CallbackAdapters` | src/android/SkalySDK.java:96-250 | boolean callbacks give success on true and "Failed adding scale"/"Failed adding watch"/"Failed adding user" on false; the reading and watch flags do not matter; `start` and `allowAccessToData` always succeed |
| `Bridge.ResponsesInOrder` | src/android/SkalySDK.java:63-256 | running the queue delivers exactly one outcome per posted command, to its own callback context, in submission order |
| `Bridge.CallsInOrder` | src/android/SkalySDK.java:63-256 | running the queue makes exactly one SDK call per posted command, in submission order |
| `Bridge.SessionAfterLastStart` | src/android/SkalySDK.java:65-73 | after running the queue, the session is the one made by the last `start` run, or the old one if none ran |
| `Bridge.StartThenTwoIdentities` | src/android/SkalySDK.java:132-157 | a `start` and two `addIdentity` tasks make their three SDK calls in order, deliver success, success and "Failed adding user", and leave the new session |
| `Bridge.RunExample` | src/android/SkalySDK.java:63-157 | submitting `start` and two `addIdentity` commands through `execute` and running the main looper makes the three SDK calls in order, delivers success, success and "Failed adding user", and leaves the new session |
| `Bridge.SkalyPlugin.constructor` | src/android/SkalySDK.java:33 | there is no session yet, nothing is queued and nothing has been delivered or called (the field is static, so this is the first plugin instance of a process) |
| `Bridge.SkalyPlugin.Execute` | src/android/SkalySDK.java:63-256 | returns or throws as `Route` decides; appends exactly the posted operation to the queue; delivers only the immediate answer or refusal; never touches the session or the SDK |
| `Bridge.SkalyPlugin.RunNext` | src/android/SkalySDK.java:67-250 | removes the oldest runnable, makes its SDK call, delivers exactly one outcome to its callback context, and replaces the session only for `start` |
| `Bridge.SkalyPlugin.Drain` | src/android/SkalySDK.java:63-256 | empties the queue, making the calls and deliveries of every posted command in submission order and leaving the session the last `start` made |

## Left out

- Platform lifecycle: `initialize`, `setActivityResultCallback` and the `onActivityResult` forwarding (lines 49-53, 258-262). They are Android plumbing.
- Threading: the main looper is a FIFO sequence that `RunNext` drains one item at a time. No concurrency is modelled.
- The SDK's callback is taken to arrive exactly once, as part of the step that runs its runnable. An SDK that never calls back, calls back twice, or calls back after later runnables have run is not modelled.
- SDK internals: pairing, Bluetooth, identity persistence, and what `userScaleData` and `userScaleDataBeforeHandle` return. These arrive as `DeviceView` and `Completion` parameters. The paging contract (UIDs strictly below the cursor, termination on an empty page) belongs to the SDK and is not stated.
- JSON building: `Codec` is an opaque serialiser that can fail. JSON text is not modelled.
- JsonArgs.GetString, JsonArgs.GetNullableString, JsonArgs.AndroidGetString, Bridge.ScaleDataHandleAsWritten: do not model org.json's coercions to text. Android's `getString` returns the text of a number or a boolean (so `start([true])` would build a session with the root key `"true"`), and the text of an array or an object; the first two readers report a boolean as a mismatch, all three (and so the as-written handle of line 188) report a number as a mismatch, and `JsonValue` has no array or object element at all.
- JsonArgs.GetInteger: does not model org.json's reading of numeric strings as numbers, nor its truncation of fractional numbers.
- JsonArgs.GetString: a JSON null where a string is required is a type mismatch in the model. Android's org.json would read it as the text `"null"` and pass that on.
- JsonArgs.GetNullableString: reads a JSON null as absent, as line 188 intends. Android's org.json never does this (see "## Findings").
- The exact text of org.json's JSONException messages. Cordova's handling of a `false` return or of a thrown JSONException (Cordova is not part of this model).
- `Decoders.BirthdayMillis`: does not model Java `long` overflow of `seconds * 1000`. `Date` semantics are not modelled either.
- `JsonArgs.GetInteger`: does not model `getInt`'s narrowing to 32 bits for the sex code and the length.
- Null-session dereferences: `Execute` requires a session for `hasScale`, `hasWatch` and `getScaleData`, and `RunNext` requires one for every runnable except `start`'s. The source would throw a NullPointerException there. For `addIdentity` (line 141) that exception is thrown inside the `try`: it is caught at line 152 and delivered as `error(e.getMessage())` (line 154), so it does not escape. The model does not cover this case because the exception's message is the runtime's.
- The session field is `static` (line 33): it lives across plugin instances. The constructor's empty session holds only for the first instance in a process.
- SDK exceptions the source does not catch (outside `addIdentity` and the history fetch) would crash the main thread. `Fits` does not admit them.
- `printStackTrace` logging, and an exception whose message is null.

## Findings

| source | as written | input that shows it | evidently intended | confidence | as-written member | corrected member |
|---|---|---|---|---|---|---|
| src/android/SkalySDK.java:188 | tests `args.getString(0) == null`, but Android's org.json `getString` reads a JSON null as the text `"null"` and never returns null | `args = [null, 0]` with handles known: the runnable calls `userScaleData("null")` | a null handle means the first known handle | not executed; from reading the org.json library, which is not part of this model | `Bridge.NullHandleAsWritten` | `Bridge.ScaleDataRouted` |
