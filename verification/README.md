# Realtime session client: audio-context registry, payload decoder, session controller

This project models, in Dafny, three pieces of client code from the browser
side of a realtime multimodal streaming session with a generative-AI endpoint.
It proves the properties each piece promises.

- **The audio-context registry** (`audioContext` in `src/lib/utils.ts`). A
  page-wide map from a logical id to one shared `AudioContext`. A call with an
  id that is already cached returns the cached context, whatever options it
  passes: the first writer wins. Any other call creates a new context and caches
  it when a non-empty id was given: the source tests `options?.id` for
  truthiness, so an empty-string id is never cached. A call first probes whether audio may play. If the
  probe is blocked, the call waits for the first pointer or key gesture, then
  makes the same decision. `Utils.AudioContextRegistry` is a class with the map,
  a creation counter and a ghost log of everything it handed out. `Utils.Resolve`
  is the decision both paths make. The proved invariant is "at most one context
  per id".
- **The payload decoder** (`base64ToArrayBuffer` in `src/lib/utils.ts`). `atob`
  is modelled as the WHATWG "forgiving-base64 decode" over the alphabet of
  section 4 of RFC 4648 (`ForgivingBase64`). Steps 1 to 3 remove whitespace,
  drop up to two trailing '=' when the length is a multiple of four, and reject
  a length of 4k+1. Step 4 rejects characters outside the alphabet. The
  remaining steps take six bits per character, and a final group may carry
  discarded bits that need not be zero. The copy loop that
  fills the `Uint8Array` is the method `Utils.CopyCharCodes`. An RFC 4648 encoder
  is the partner for the round-trip lemmas.
- **The session controller** (`useLiveAPI` in `src/composables/useLiveAPI.ts`).
  The class `LiveApi.LiveSession` holds the `connected`, `config` and `volume`
  refs, the optional streamer and the protocol client. It has `connect`,
  `disconnect` and `setConfig`, the two mount hooks, the unmount hook and the
  `close`, `interrupted` and `audio` handlers. The client
  (`MultimodalLiveClient`) and the streamer (`AudioStreamer`) are abstract. Each
  keeps a ghost log of the calls made on it, and the client keeps its ordered
  listener list. Every method that changes the `SessionState` snapshot is
  specified by a step function on it; the others state their effects on the
  registry, the client's listeners or the streamer's call log directly. The
  lemmas are proved about those step functions and about `Run`, which folds
  them over any sequence of operations and events.

Environment facts become parameters:
- `isBrowser` is a constructor argument of the registry and a parameter of
  `Base64ToArrayBuffer`.
- The autoplay probe is `playAllowed`.
- The result of the server handshake is `accepted`.
- `new AudioContext(options)` mints a handle with the next serial number.

## Model

| member | source | states |
|---|---|---|
| `ForgivingBase64.SextetChar` | src/lib/utils.ts:95 | each six-bit value has one alphabet character, and `SextetValue` maps that character back to the value |
| `ForgivingBase64.RemoveWhitespace` | src/lib/utils.ts:95 | step 1 of the decode keeps a character exactly when it is not whitespace and never makes the input longer; order and repetitions are kept, as `RemoveWhitespaceAppend`, `RemoveWhitespaceNoop` and `RemoveWhitespaceOfBlank` prove |
| `ForgivingBase64.DropPadding` | src/lib/utils.ts:95 | step 2 removes a prefix-preserving run of at most two trailing '='; when it removes fewer than two, the result does not end in '=' |
| `ForgivingBase64.DecodeQuanta` | src/lib/utils.ts:95 | characters decode to bytes at the rate 4:3: a trailing group of 2 or 3 characters gives 1 or 2 bytes |
| `ForgivingBase64.ForgivingDecode` | src/lib/utils.ts:95 | a successful decode yields 3/4 as many bytes as characters survive steps 1-2, and so at most 3/4 of the input length |
| `ForgivingBase64.IsomorphicDecode` | src/lib/utils.ts:95 | the string `atob` returns has one character per byte, and each character's code is that byte |
| `ForgivingBase64.Atob` | src/lib/utils.ts:95 | `atob` succeeds exactly when the forgiving decode does, and every character it returns has a code below 256 |
| `ForgivingBase64.EncodeUnpadded` | src/lib/utils.ts:95-100 | the RFC 4648 encoding without padding uses only alphabet characters, ceil(4n/3) of them |
| `ForgivingBase64.Encode` | src/lib/utils.ts:95-100 | the padded RFC 4648 encoding is 4 * ceil(n/3) characters, a multiple of four |
| `ForgivingBase64.WhitespaceIsIgnored` | src/lib/utils.ts:95 | whitespace inserted anywhere in a payload does not change what it decodes to |
| `ForgivingBase64.RejectsForeignCharacter` | src/lib/utils.ts:95 | any character that is not whitespace, '=' or in the alphabet makes `atob` fail |
| `ForgivingBase64.RejectsLengthOneModFour` | src/lib/utils.ts:95 | 4k+1 alphabet characters are rejected |
| `ForgivingBase64.DecodeEncodeUnpadded` | src/lib/utils.ts:95-100 | decoding inverts the unpadded encoding at every length, including 0 and lengths not divisible by 3 |
| `ForgivingBase64.RoundTrip` | src/lib/utils.ts:95-100 | decoding the padded RFC 4648 encoding of any bytes gives back exactly those bytes |
| `ForgivingBase64.RoundTripUnpadded` | src/lib/utils.ts:95-100 | the encoding with its '=' padding left off also decodes to the original bytes |
| `ForgivingBase64.DecodeSingleBytePadded` | src/lib/utils.ts:95 | the four-character input "xy==" decodes to the one byte formed by the top eight of its twelve bits |
| `ForgivingBase64.DiscardedBitsAreIgnored` | src/lib/utils.ts:95 | the non-canonical "QR==" and the canonical "QQ==" both decode to 0x41 |
| `Utils.CacheKey` | src/lib/utils.ts:45-53 | a call is cached under its id exactly when the options and the id are present and the id is non-empty |
| `Utils.EmptyIdIsNeverCached` | src/lib/utils.ts:45-55 | a call whose id is the empty string creates a new context from its options and leaves the map as it was |
| `Utils.Resolve` | src/lib/utils.ts:45-55 | the lookup-or-create decision: a cached id returns its context unchanged (first writer wins); after a call with an id, the map holds that id's returned context; a call without an id leaves the map alone; a call whose id is not cached mints a new context from these options and advances the counter; existing entries are never overwritten and only the call's own id is added; the registry invariant is kept |
| `Utils.SameIdSameContext` | src/lib/utils.ts:45-55 | two calls with the same id return the same context, even when the second passes different options, and the second call changes nothing |
| `Utils.UncachedIsFresh` | src/lib/utils.ts:51-55 | a call without an id returns a context that is not in the map and is newly created |
| `Utils.AudioContextRegistry.constructor` | src/lib/utils.ts:21-34 | the map starts empty, and the gesture listeners are installed exactly when running in a browser |
| `Utils.AudioContextRegistry.Acquire` | src/lib/utils.ts:36-70 | outside a browser it throws and changes nothing; otherwise both the immediate path and the after-gesture path return and store what `Resolve` decides, so `playAllowed` has no effect; "one context per id" is kept |
| `Utils.OneContextPerId` | src/lib/utils.ts:45-68 | over the whole history of calls, all calls with the same id received the same context |
| `Utils.ToUint8` | src/lib/utils.ts:98 | a store into a `Uint8Array` keeps a code below 256 as it is and otherwise reduces it modulo 256 |
| `Utils.CopyCharCodes` | src/lib/utils.ts:96-99 | the array is newly allocated, as long as the string, and byte `i` is character `i`'s code as stored into a `Uint8Array` |
| `Utils.Base64ToArrayBuffer` | src/lib/utils.ts:91-101 | it throws before decoding outside a browser and throws with no buffer on malformed input; otherwise the buffer is a newly allocated array holding exactly the decoded bytes |
| `Utils.DecodeEncodedPayload` | src/lib/utils.ts:91-101 | the buffer made from the RFC 4648 encoding of any payload holds exactly that payload |
| `LiveApi.RemoveListener` | src/composables/useLiveAPI.ts:38-41 | `off` keeps a listener exactly when it is not the given (event, handler) pair; the others keep their order and repetitions, as `RemoveListenerAppend` and `RemoveAbsentListener` prove |
| `LiveApi.UnmountUndoesMount` | src/composables/useLiveAPI.ts:33-42 | the unmount hook removes exactly the three listeners the mount hook added, even when other listeners were registered in between, so the listeners from before mounting remain, followed by those registered since |
| `LiveApi.InitialSessionState` | src/composables/useLiveAPI.ts:15-17 | a new session is disconnected, has volume 0 and has config `{model: 'models/gemini-2.0-flash-exp'}` |
| `LiveApi.ConnectContract` | src/composables/useLiveAPI.ts:45-50 | without a config, `connect` fails with ConfigNotSet before any client call and changes nothing; with one, it calls the client's disconnect and then its connect with the current config; it succeeds, and `connected` becomes true, only when the handshake succeeds; a failed handshake leaves `connected` as it was |
| `LiveApi.DisconnectIdempotent` | src/composables/useLiveAPI.ts:52-55 | `disconnect` leaves the session disconnected; a second call gives the same session state and adds only one more client disconnect |
| `LiveApi.SetConfigOnlyReplacesConfig` | src/composables/useLiveAPI.ts:60 | `setConfig(c)` sets the config to `c` and changes nothing else, including the client |
| `LiveApi.StepKeepsInvariant` | src/composables/useLiveAPI.ts:30-60 | every operation and event keeps the session invariant and only appends to the client's call log |
| `LiveApi.RunKeepsInvariant` | src/composables/useLiveAPI.ts:30-60 | over any sequence of operations and events, the session invariant holds throughout and client calls are only appended |
| `LiveApi.ConnectedOnlyAfterAcceptedHandshake` | src/composables/useLiveAPI.ts:45-55 | from a new session, `connected` is true only after a handshake the server accepted, and every handshake came directly after a client disconnect |
| `LiveApi.LiveSession.constructor` | src/composables/useLiveAPI.ts:12-17 | the composable starts with a fresh client with no listeners, no streamer and the initial refs |
| `LiveApi.LiveSession.MountAudio` | src/composables/useLiveAPI.ts:19-27 | when no streamer exists, it builds one on the registry's shared "audio-out" context, which an earlier caller may already have created, and installs the "vumeter-out" worklet; the registry changes only as the one call for "audio-out" changes it; outside a browser it fails and no streamer exists; an existing streamer is kept; in those two cases the registry is untouched |
| `LiveApi.LiveSession.OnVolumeMessage` | src/composables/useLiveAPI.ts:23-25 | a volume-meter message sets `volume` to its reading and changes nothing else |
| `LiveApi.LiveSession.MountHandlers` | src/composables/useLiveAPI.ts:29-36 | registers `close`, `interrupted` and `audio` handlers, in that order, after any existing listeners |
| `LiveApi.LiveSession.UnmountHandlers` | src/composables/useLiveAPI.ts:37-42 | removes the three session handlers and nothing else: the listeners from before mounting remain, followed in order by any that other code registered since |
| `LiveApi.LiveSession.HandleClose` | src/composables/useLiveAPI.ts:30 | a `close` event sets `connected` to false and changes nothing else |
| `LiveApi.LiveSession.HandleInterrupted` | src/composables/useLiveAPI.ts:31 | an `interrupted` event calls `stop` on the streamer only if one exists |
| `LiveApi.LiveSession.HandleAudio` | src/composables/useLiveAPI.ts:32 | an `audio` event passes its bytes unchanged to `addPCM16` only if a streamer exists |
| `LiveApi.LiveSession.Connect` | src/composables/useLiveAPI.ts:45-50 | the method's state and outcome are those of `ConnectStep`, and the session invariant is kept |
| `LiveApi.LiveSession.Disconnect` | src/composables/useLiveAPI.ts:52-55 | the method's state is that of `DisconnectStep`, and the session invariant is kept |
| `LiveApi.LiveSession.SetConfig` | src/composables/useLiveAPI.ts:60 | the method's state is that of `SetConfigStep`; the client is untouched |

## Left out

- The autoplay probe (`new Audio()` and `play()`) and the wait for a pointer or key gesture are not modelled as browser events. The probe's outcome is the `playAllowed` flag, and the wait is treated as completing.
- `new AudioContext(options)` never fails in the model. If it threw inside the immediate path, the source would retry once on the gesture path. That retry is not modelled.
- `GetAudioContextOptions` keeps only `id`, `sampleRate` and `latencyHint` of the browser's `AudioContextOptions`. The other fields pass through to the constructor in the same way.
- `blobToJSON` wraps `FileReader` and `JSON.parse`, which are browser I/O and a foreign parser.
- `charCodeAt` is taken to be a character's code point. For the strings `atob` returns, every code is below 256, so this matches.
- `MultimodalLiveClient`, `AudioStreamer` and the volume-meter worklet are not part of this model. They appear only through the calls made on them. The client's `off` is assumed to remove every registration of the (event, handler) pair, as in the usual event-emitter library. Delivery of client events to the registered handlers is not modelled; the handlers are methods the environment calls.
- `LiveApi.ConnectContract`: a failed handshake leaves `connected` as it was. The client's own asynchronous `close` event, which would clear it, comes from client code that is not modelled.
- `LiveApi.LiveSession`: while the session is mounted, other code may add listeners to the client, and unmounting keeps them. Other code may not remove listeners that were registered before mounting. The invariant expects those listeners, followed by the three session handlers, to be the start of the list. Other code is also assumed not to call the client's `connect` directly: the invariant that every handshake directly follows a disconnect covers the client's whole call log.
- Vue reactivity and asynchronous scheduling are not modelled. Each operation is one sequential step. Overlapping `connect` calls, and a mount hook that is still waiting on its `await`, are out of scope.
- `volume` is a floating-point meter reading. It is passed through as a `real` and not otherwise interpreted.
- `nuxt.config.ts` is build configuration only and has no behaviour to verify.
- A "responding" flag with a debounce timer does not exist in `useLiveAPI.ts`, so it is not modelled.
