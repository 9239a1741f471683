/**
  The browser helpers of `src/lib/utils.ts`: the registry that hands out one
  shared audio output context per logical id, and the conversion of a base64
  payload into a fresh byte buffer.
*/
module Utils {
  import opened Wrappers
  import opened ForgivingBase64

  /** The errors these helpers throw. */
  datatype UtilsError =
    | NotInBrowser            // no `window` / `window.document`
    | InvalidCharacterError   // `atob` rejected its input

  // ---------------------------------------------------------------------------
  // The audio-context registry
  // ---------------------------------------------------------------------------

  /**
    `GetAudioContextOptions`: the options passed on to `new AudioContext`, plus
    the optional logical `id` the registry caches under.
  */
  datatype GetAudioContextOptions = GetAudioContextOptions(
    id: Option<string>,
    sampleRate: Option<nat>,
    latencyHint: Option<string>)

  /**
    An `AudioContext`. Each one the registry creates gets the next serial number,
    so two handles are the same context exactly when they are equal; it also
    remembers the options it was created with.
  */
  datatype AudioContextHandle = AudioContextHandle(serial: nat, createdWith: Option<GetAudioContextOptions>)

  /**
    The id a call caches under: `options?.id` when it is truthy. An absent
    options object, an absent id and the empty string all leave the call uncached.
  */
  function CacheKey(options: Option<GetAudioContextOptions>): (key: Option<string>)
    ensures key.Some? ==> key.value != "" && options.Some? && options.value.id == Some(key.value)
    ensures key.None? ==> options.None? || options.value.id.None? || options.value.id == Some("")
  {
    if options.Some? && options.value.id.Some? && options.value.id.value != "" then Some(options.value.id.value)
    else None
  }

  /** What the registry holds: the id-to-context map and the number of contexts created so far. */
  datatype RegistryState = RegistryState(contexts: map<string, AudioContextHandle>, minted: nat)

  /** The context one call hands out and the registry after it. */
  datatype Acquired = Acquired(handle: AudioContextHandle, state: RegistryState)

  /**
    The registry's invariant: every cached context was created before (its serial
    is below the counter) and no context is cached under two ids.
  */
  ghost predicate WellFormed(st: RegistryState) {
    && (forall k :: k in st.contexts ==> st.contexts[k].serial < st.minted)
    && (forall k, j :: k in st.contexts && j in st.contexts && k != j ==> st.contexts[k] != st.contexts[j])
  }

  /**
    The lookup-or-create-and-cache decision that both paths of `audioContext`
    make once they may create audio: a cached context for the id is returned as
    it is; otherwise a new context is created from the options and, when the
    call has an id, cached under it.
  */
  function Resolve(st: RegistryState, options: Option<GetAudioContextOptions>): (r: Acquired)
    // first writer wins: a cached context is returned whatever the options say
    ensures CacheKey(options).Some? && CacheKey(options).value in st.contexts ==>
              r.handle == st.contexts[CacheKey(options).value] && r.state == st
    // after a call with an id, the id maps to the context returned
    ensures CacheKey(options).Some? ==>
              CacheKey(options).value in r.state.contexts && r.state.contexts[CacheKey(options).value] == r.handle
    // a call without an id leaves the map alone
    ensures CacheKey(options).None? ==> r.state.contexts == st.contexts
    // a context that was not cached is a new one, created from these options
    ensures r.handle in st.contexts.Values ||
              (r.handle == AudioContextHandle(st.minted, options) && r.state.minted == st.minted + 1)
    ensures !(CacheKey(options).Some? && CacheKey(options).value in st.contexts) ==>
              r.handle == AudioContextHandle(st.minted, options) && r.state.minted == st.minted + 1
    // existing entries are never overwritten, and only the call's own id can be added
    ensures forall k :: k in st.contexts ==> k in r.state.contexts && r.state.contexts[k] == st.contexts[k]
    ensures forall k :: k in r.state.contexts && k !in st.contexts ==> CacheKey(options) == Some(k)
    ensures WellFormed(st) ==> WellFormed(r.state)
  {
    var key := CacheKey(options);
    if key.Some? && key.value in st.contexts then
      Acquired(st.contexts[key.value], st)
    else
      var ctx := AudioContextHandle(st.minted, options);
      var contexts := if key.Some? then st.contexts[key.value := ctx] else st.contexts;
      Acquired(ctx, RegistryState(contexts, st.minted + 1))
  }

  /** Two calls with the same id return the same context, whatever options the second one passes. */
  lemma SameIdSameContext(st: RegistryState, first: Option<GetAudioContextOptions>, second: Option<GetAudioContextOptions>)
    requires CacheKey(first).Some? && CacheKey(second) == CacheKey(first)
    ensures Resolve(Resolve(st, first).state, second).handle == Resolve(st, first).handle
    ensures Resolve(Resolve(st, first).state, second).state == Resolve(st, first).state
  {
  }

  /** An empty-string id is falsy: such a call always creates a new context and caches nothing. */
  lemma EmptyIdIsNeverCached(st: RegistryState, options: GetAudioContextOptions)
    requires options.id == Some("")
    ensures Resolve(st, Some(options)).handle == AudioContextHandle(st.minted, Some(options))
    ensures Resolve(st, Some(options)).state == RegistryState(st.contexts, st.minted + 1)
  {
  }

  /** A call without an id hands out a context that no earlier call returned. */
  lemma UncachedIsFresh(st: RegistryState, options: Option<GetAudioContextOptions>)
    requires WellFormed(st) && CacheKey(options).None?
    ensures Resolve(st, options).handle !in st.contexts.Values
    ensures Resolve(st, options).handle.serial == st.minted
  {
  }

  /**
    The module-level `map` of `audioContext`, with the factory around it. The
    autoplay probe and the gesture wait are a `playAllowed` flag: false means
    the silent probe was blocked and the call goes on after the first
    pointer or key gesture.
  */
  class AudioContextRegistry {
    /** `isBrowser`: whether `window` and `window.document` exist. */
    const isBrowser: bool
    var contexts: map<string, AudioContextHandle>
    var minted: nat
    /** Whether the one-shot pointerdown/keydown listeners were installed. */
    ghost var gestureListeners: bool
    /** Every context handed out so far, with the id its call cached under. */
    ghost var issued: seq<(Option<string>, AudioContextHandle)>

    function State(): RegistryState
      reads this
    {
      RegistryState(contexts, minted)
    }

    /**
      The registry invariant, including "at most one live context per id":
      every context handed out to a call with an id is the one cached under it.
    */
    ghost predicate Valid()
      reads this
    {
      && WellFormed(State())
      && gestureListeners == isBrowser
      && (forall i :: 0 <= i < |issued| ==> issued[i].1.serial < minted)
      && (forall i :: 0 <= i < |issued| && issued[i].0.Some? ==>
            issued[i].0.value in contexts && contexts[issued[i].0.value] == issued[i].1)
    }

    constructor (isBrowser: bool)
      ensures Valid()
      ensures this.isBrowser == isBrowser && gestureListeners == isBrowser
      ensures contexts == map[] && minted == 0 && issued == []
    {
      this.isBrowser := isBrowser;
      contexts := map[];
      minted := 0;
      gestureListeners := isBrowser;
      issued := [];
    }

    /**
      `audioContext(options)`. Outside a browser it throws and changes nothing.
      Otherwise the immediate path and the after-gesture path make the same
      decision, `Resolve`, so the result does not depend on `playAllowed`.
    */
    method Acquire(options: Option<GetAudioContextOptions>, playAllowed: bool)
      returns (r: Result<AudioContextHandle, UtilsError>)
      requires Valid()
      modifies this
      ensures Valid()
      ensures !isBrowser ==> r == Failure(NotInBrowser) && State() == old(State()) && issued == old(issued)
      ensures isBrowser ==>
                && r == Success(Resolve(old(State()), options).handle)
                && State() == Resolve(old(State()), options).state
                && issued == old(issued) + [(CacheKey(options), r.value)]
    {
      if !isBrowser {
        return Failure(NotInBrowser);
      }
      var key := CacheKey(options);
      var ctx: AudioContextHandle;
      if playAllowed {
        // the silent probe played: decide at once
        if key.Some? && key.value in contexts {
          ctx := contexts[key.value];
        } else {
          ctx := AudioContextHandle(minted, options);
          minted := minted + 1;
          if key.Some? {
            contexts := contexts[key.value := ctx];
          }
        }
      } else {
        // the probe was blocked: after the first gesture, decide the same way
        if key.Some? && key.value in contexts {
          ctx := contexts[key.value];
        } else {
          ctx := AudioContextHandle(minted, options);
          minted := minted + 1;
          if key.Some? {
            contexts := contexts[key.value := ctx];
          }
        }
      }
      issued := issued + [(key, ctx)];
      r := Success(ctx);
    }
  }

  /** However many calls were made, all calls with the same id got the same context. */
  lemma OneContextPerId(registry: AudioContextRegistry, i: nat, j: nat)
    requires registry.Valid()
    requires i < |registry.issued| && j < |registry.issued|
    requires registry.issued[i].0.Some? && registry.issued[i].0 == registry.issued[j].0
    ensures registry.issued[i].1 == registry.issued[j].1
  {
  }

  // ---------------------------------------------------------------------------
  // base64ToArrayBuffer
  // ---------------------------------------------------------------------------

  /** The conversion a `Uint8Array` element store applies: the value modulo 2^8. */
  function ToUint8(code: int): (b: Byte)
    ensures 0 <= code < 256 ==> b == code
    ensures (code - b) % 256 == 0
  {
    code % 256
  }

  /**
    The copy loop of `base64ToArrayBuffer`: a fresh byte array as long as the
    string, whose byte `i` is the code of character `i` stored into a `Uint8Array`.
  */
  method CopyCharCodes(binary: string) returns (bytes: array<Byte>)
    ensures fresh(bytes)
    ensures bytes.Length == |binary|
    ensures forall i :: 0 <= i < |binary| ==> bytes[i] == ToUint8(binary[i] as int)
  {
    bytes := new Byte[|binary|];
    for i := 0 to |binary|
      invariant forall j :: 0 <= j < i ==> bytes[j] == ToUint8(binary[j] as int)
    {
      bytes[i] := ToUint8(binary[i] as int);
    }
  }

  /**
    `base64ToArrayBuffer`: outside a browser it throws before decoding; a payload
    `atob` rejects throws with no buffer; otherwise the buffer holds exactly the
    decoded bytes.
  */
  method Base64ToArrayBuffer(isBrowser: bool, base64: string) returns (r: Result<array<Byte>, UtilsError>)
    ensures r.Success? ==> fresh(r.value)
    ensures !isBrowser ==> r == Failure(NotInBrowser)
    ensures isBrowser && ForgivingDecode(base64).None? ==> r == Failure(InvalidCharacterError)
    ensures isBrowser && ForgivingDecode(base64).Some? ==>
              r.Success? && r.value[..] == ForgivingDecode(base64).value
  {
    if !isBrowser {
      return Failure(NotInBrowser);
    }
    var binaryString := Atob(base64);
    if binaryString.None? {
      return Failure(InvalidCharacterError);
    }
    var bytes := CopyCharCodes(binaryString.value);
    assert bytes[..] == ForgivingDecode(base64).value;
    r := Success(bytes);
  }

  /** Round trip through the payload decoder: the buffer of an encoded payload holds the original bytes. */
  method DecodeEncodedPayload(payload: seq<Byte>) returns (buffer: array<Byte>)
    ensures buffer[..] == payload
  {
    RoundTrip(payload);
    var r := Base64ToArrayBuffer(true, Encode(payload));
    buffer := r.value;
  }
}
