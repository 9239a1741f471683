/**
  The session controller of `src/composables/useLiveAPI.ts`: the `connected`,
  `config` and `volume` state, `connect`, `disconnect` and `setConfig`, and the
  `close` / `interrupted` / `audio` handlers it registers on its protocol client.
  The client and the audio streamer are kept abstract: each records the calls
  made on it.
*/
module LiveApi {
  import opened Wrappers
  import opened ForgivingBase64
  import opened Utils

  /** The session-negotiation payload: a model identifier and opaque generation options. */
  datatype LiveConfig = LiveConfig(model: string, generationConfig: map<string, string>)

  /** The model of the configuration a new session starts with. */
  const DefaultModel: string := "models/gemini-2.0-flash-exp"

  /** The id under which the session's audio output context is shared. */
  const AudioOutId: string := "audio-out"

  /** The name of the volume-meter worklet installed on the streamer. */
  const VolumeMeterWorklet: string := "vumeter-out"

  datatype SessionError =
    | ConfigNotSet       // "config has not been set"
    | HandshakeFailed    // the client's `connect` rejected
    | AudioUnavailable   // the audio output context could not be obtained

  // ---------------------------------------------------------------------------
  // Event subscriptions on the client
  // ---------------------------------------------------------------------------

  datatype EventName = Close | Interrupted | Audio | OtherEvent(name: string)

  /**
    A handler's identity. The session's three closures are `OnClose`,
    `StopAudioStreamer` and `OnAudio`; any other code's handlers are foreign.
  */
  datatype Handler = OnClose | StopAudioStreamer | OnAudio | ForeignHandler(id: nat)

  datatype Listener = Listener(event: EventName, handler: Handler)

  /** `on(event, handler)`: the handler is added after those already registered. */
  function AddListener(listeners: seq<Listener>, event: EventName, handler: Handler): seq<Listener> {
    listeners + [Listener(event, handler)]
  }

  /**
    `off(event, handler)`: every registration of that handler for that event is
    removed; all other listeners keep their order.
  */
  function RemoveListener(listeners: seq<Listener>, event: EventName, handler: Handler): (r: seq<Listener>)
    ensures forall l :: l in r <==> l in listeners && l != Listener(event, handler)
    ensures |r| <= |listeners|
    decreases |listeners|
  {
    if listeners == [] then []
    else if listeners[0] == Listener(event, handler) then RemoveListener(listeners[1..], event, handler)
    else [listeners[0]] + RemoveListener(listeners[1..], event, handler)
  }

  /** The three listeners the session registers when it is mounted, in registration order. */
  function SessionListeners(): seq<Listener> {
    [Listener(Close, OnClose), Listener(Interrupted, StopAudioStreamer), Listener(Audio, OnAudio)]
  }

  predicate IsSessionListener(l: Listener) {
    l in SessionListeners()
  }

  predicate NoSessionListeners(listeners: seq<Listener>) {
    forall i :: 0 <= i < |listeners| ==> !IsSessionListener(listeners[i])
  }

  /** The chained `on` calls of the mount hook. */
  function Mounted(listeners: seq<Listener>): seq<Listener> {
    AddListener(AddListener(AddListener(listeners, Close, OnClose), Interrupted, StopAudioStreamer), Audio, OnAudio)
  }

  /** The chained `off` calls of the unmount hook. */
  function Unmounted(listeners: seq<Listener>): seq<Listener> {
    RemoveListener(RemoveListener(RemoveListener(listeners, Close, OnClose), Interrupted, StopAudioStreamer), Audio, OnAudio)
  }

  /** Removal works listener by listener, so it distributes over concatenation. */
  lemma {:induction false} RemoveListenerAppend(a: seq<Listener>, b: seq<Listener>, event: EventName, handler: Handler)
    ensures RemoveListener(a + b, event, handler) == RemoveListener(a, event, handler) + RemoveListener(b, event, handler)
    decreases |a|
  {
    if a == [] {
      assert a + b == b;
    } else {
      assert (a + b)[0] == a[0];
      assert (a + b)[1..] == a[1..] + b;
      RemoveListenerAppend(a[1..], b, event, handler);
    }
  }

  /** Removing a handler that is not registered changes nothing. */
  lemma {:induction false} RemoveAbsentListener(listeners: seq<Listener>, event: EventName, handler: Handler)
    requires Listener(event, handler) !in listeners
    ensures RemoveListener(listeners, event, handler) == listeners
    decreases |listeners|
  {
    if listeners != [] {
      assert listeners[0] in listeners;
      assert forall l :: l in listeners[1..] ==> l in listeners;
      RemoveAbsentListener(listeners[1..], event, handler);
    }
  }

  /** Removing a handler registered once takes out just that registration. */
  lemma RemoveSingleListener(a: seq<Listener>, b: seq<Listener>, event: EventName, handler: Handler)
    requires Listener(event, handler) !in a && Listener(event, handler) !in b
    ensures RemoveListener(a + [Listener(event, handler)] + b, event, handler) == a + b
  {
    RemoveListenerAppend(a + [Listener(event, handler)], b, event, handler);
    RemoveListenerAppend(a, [Listener(event, handler)], event, handler);
    RemoveAbsentListener(a, event, handler);
    RemoveAbsentListener(b, event, handler);
  }

  /**
    The unmount hook undoes the mount hook: it removes exactly the three
    listeners the mount hook added, whatever other code registered in between.
  */
  lemma UnmountUndoesMount(before: seq<Listener>, later: seq<Listener>)
    requires NoSessionListeners(before) && NoSessionListeners(later)
    ensures Unmounted(Mounted(before) + later) == before + later
  {
    var l0, l1, l2 := Listener(Close, OnClose), Listener(Interrupted, StopAudioStreamer), Listener(Audio, OnAudio);
    assert IsSessionListener(l0) && IsSessionListener(l1) && IsSessionListener(l2);
    assert l0 !in before && l1 !in before && l2 !in before;
    assert l0 !in later && l1 !in later && l2 !in later;
    assert Mounted(before) + later == before + [l0] + ([l1, l2] + later);
    RemoveSingleListener(before, [l1, l2] + later, Close, OnClose);
    assert before + ([l1, l2] + later) == before + [l1] + ([l2] + later);
    RemoveSingleListener(before, [l2] + later, Interrupted, StopAudioStreamer);
    assert before + ([l2] + later) == before + [l2] + later;
    RemoveSingleListener(before, later, Audio, OnAudio);
  }

  // ---------------------------------------------------------------------------
  // The collaborators, recorded by the calls made on them
  // ---------------------------------------------------------------------------

  datatype ClientCall =
    | ClientDisconnect
    | ClientConnect(config: LiveConfig, accepted: bool)

  /** `MultimodalLiveClient`, seen only through its listeners and the calls made on it. */
  class MultimodalLiveClient {
    const url: string
    const apiKey: string
    var listeners: seq<Listener>
    ghost var calls: seq<ClientCall>

    constructor (url: string, apiKey: string)
      ensures this.url == url && this.apiKey == apiKey
      ensures listeners == [] && calls == []
    {
      this.url := url;
      this.apiKey := apiKey;
      listeners := [];
      calls := [];
    }

    method Disconnect()
      modifies this`calls
      ensures calls == old(calls) + [ClientDisconnect]
    {
      calls := calls + [ClientDisconnect];
    }

    /** The handshake; `accepted` is whether the server acknowledged the setup. */
    method Connect(config: LiveConfig, accepted: bool) returns (ok: bool)
      modifies this`calls
      ensures ok == accepted
      ensures calls == old(calls) + [ClientConnect(config, accepted)]
    {
      calls := calls + [ClientConnect(config, accepted)];
      ok := accepted;
    }

    method On(event: EventName, handler: Handler)
      modifies this`listeners
      ensures listeners == AddListener(old(listeners), event, handler)
    {
      listeners := AddListener(listeners, event, handler);
    }

    method Off(event: EventName, handler: Handler)
      modifies this`listeners
      ensures listeners == RemoveListener(old(listeners), event, handler)
    {
      listeners := RemoveListener(listeners, event, handler);
    }
  }

  datatype StreamerCall =
    | StreamerAddWorklet(name: string)
    | StreamerStop
    | StreamerAddPCM16(data: seq<Byte>)

  /** `AudioStreamer`, seen only through the context it plays on and the calls made on it. */
  class AudioStreamer {
    const context: AudioContextHandle
    ghost var calls: seq<StreamerCall>

    constructor (context: AudioContextHandle)
      ensures this.context == context && calls == []
    {
      this.context := context;
      calls := [];
    }

    method AddWorklet(name: string)
      modifies this`calls
      ensures calls == old(calls) + [StreamerAddWorklet(name)]
    {
      calls := calls + [StreamerAddWorklet(name)];
    }

    method Stop()
      modifies this`calls
      ensures calls == old(calls) + [StreamerStop]
    {
      calls := calls + [StreamerStop];
    }

    method AddPCM16(data: seq<Byte>)
      modifies this`calls
      ensures calls == old(calls) + [StreamerAddPCM16(data)]
    {
      calls := calls + [StreamerAddPCM16(data)];
    }
  }

  // ---------------------------------------------------------------------------
  // The session state and its transitions
  // ---------------------------------------------------------------------------

  /**
    What the session exposes and what it has asked of its client. `config` is
    `None` when it holds a falsy value.
  */
  datatype SessionState = SessionState(connected: bool, config: Option<LiveConfig>, volume: real, calls: seq<ClientCall>)

  function InitialSession(): SessionState {
    SessionState(false, Some(LiveConfig(DefaultModel, map[])), 0.0, [])
  }

  datatype Transition = Transition(state: SessionState, outcome: Outcome<SessionError>)

  /** `connect()`; `accepted` is the outcome of the client's handshake. */
  function ConnectStep(s: SessionState, accepted: bool): Transition {
    if s.config.None? then Transition(s, Fail(ConfigNotSet))
    else
      var calls := s.calls + [ClientDisconnect, ClientConnect(s.config.value, accepted)];
      if accepted then Transition(s.(connected := true, calls := calls), Pass)
      else Transition(s.(calls := calls), Fail(HandshakeFailed))
  }

  /** `disconnect()`. */
  function DisconnectStep(s: SessionState): SessionState {
    s.(connected := false, calls := s.calls + [ClientDisconnect])
  }

  /** `setConfig(c)`. */
  function SetConfigStep(s: SessionState, c: Option<LiveConfig>): SessionState {
    s.(config := c)
  }

  /** The `close` handler. */
  function CloseStep(s: SessionState): SessionState {
    s.(connected := false)
  }

  /** The volume-meter callback: the worklet's reading is passed through as it is. */
  function VolumeStep(s: SessionState, v: real): SessionState {
    s.(volume := v)
  }

  datatype Op =
    | ConnectOp(accepted: bool)
    | DisconnectOp
    | SetConfigOp(config: Option<LiveConfig>)
    | CloseEvent
    | VolumeMessage(volume: real)

  function Step(s: SessionState, op: Op): SessionState {
    match op
    case ConnectOp(accepted) => ConnectStep(s, accepted).state
    case DisconnectOp => DisconnectStep(s)
    case SetConfigOp(c) => SetConfigStep(s, c)
    case CloseEvent => CloseStep(s)
    case VolumeMessage(v) => VolumeStep(s, v)
  }

  /** The state after a sequence of operations and events, one at a time. */
  function Run(s: SessionState, ops: seq<Op>): SessionState
    decreases |ops|
  {
    if ops == [] then s else Run(Step(s, ops[0]), ops[1..])
  }

  predicate HasAcceptedConnect(calls: seq<ClientCall>) {
    exists i :: 0 <= i < |calls| && calls[i].ClientConnect? && calls[i].accepted
  }

  /** Every handshake the session started was preceded directly by a disconnect. */
  predicate DisconnectPrecedesConnect(calls: seq<ClientCall>) {
    forall i :: 0 <= i < |calls| && calls[i].ClientConnect? ==> 0 < i && calls[i - 1] == ClientDisconnect
  }

  /**
    The session invariant: `connected` is only ever true after a handshake the
    server accepted, and every handshake came right after a disconnect.
  */
  predicate SessionInvariant(s: SessionState) {
    && (s.connected ==> HasAcceptedConnect(s.calls))
    && DisconnectPrecedesConnect(s.calls)
  }

  /** The initial state: disconnected, volume 0 and the default model configured. */
  lemma InitialSessionState()
    ensures !InitialSession().connected && InitialSession().volume == 0.0
    ensures InitialSession().config == Some(LiveConfig(DefaultModel, map[]))
    ensures SessionInvariant(InitialSession())
  {
  }

  /**
    `connect` without a config fails before any client call and changes nothing;
    with one, it disconnects the client and then starts the handshake with the
    current config, and `connected` becomes true only if the handshake succeeds.
  */
  lemma ConnectContract(s: SessionState, accepted: bool)
    ensures s.config.None? ==> ConnectStep(s, accepted) == Transition(s, Fail(ConfigNotSet))
    ensures s.config.Some? ==>
              var t := ConnectStep(s, accepted).state;
              && |t.calls| == |s.calls| + 2
              && t.calls[..|s.calls|] == s.calls
              && t.calls[|s.calls|] == ClientDisconnect
              && t.calls[|s.calls| + 1] == ClientConnect(s.config.value, accepted)
              && t.config == s.config && t.volume == s.volume
    ensures ConnectStep(s, accepted).outcome.Pass? <==> s.config.Some? && accepted
    ensures ConnectStep(s, accepted).state.connected <==> s.connected || (s.config.Some? && accepted)
  {
  }

  /** `disconnect` leaves the session disconnected; a second call gives the same session state. */
  lemma DisconnectIdempotent(s: SessionState)
    ensures !DisconnectStep(s).connected
    ensures var once, twice := DisconnectStep(s), DisconnectStep(DisconnectStep(s));
            twice.(calls := once.calls) == once && twice.calls == once.calls + [ClientDisconnect]
  {
  }

  /** `setConfig` replaces the config and nothing else, and does not call the client. */
  lemma SetConfigOnlyReplacesConfig(s: SessionState, c: Option<LiveConfig>)
    ensures SetConfigStep(s, c).config == c
    ensures SetConfigStep(s, c).(config := s.config) == s
  {
  }

  /** Every single operation or event keeps the session invariant and only appends client calls. */
  lemma StepKeepsInvariant(s: SessionState, op: Op)
    requires SessionInvariant(s)
    ensures SessionInvariant(Step(s, op))
    ensures s.calls <= Step(s, op).calls
  {
    var t := Step(s, op);
    assert t.calls[..|s.calls|] == s.calls;
    if t.connected {
      if s.connected {
        var i :| 0 <= i < |s.calls| && s.calls[i].ClientConnect? && s.calls[i].accepted;
        assert t.calls[i] == s.calls[i];
      } else {
        assert t.calls[|t.calls| - 1].ClientConnect?;
      }
    }
    forall i | 0 <= i < |t.calls| && t.calls[i].ClientConnect?
      ensures 0 < i && t.calls[i - 1] == ClientDisconnect
    {
      if i < |s.calls| {
        assert t.calls[i] == s.calls[i] && t.calls[i - 1] == s.calls[i - 1];
      }
    }
  }

  /** Whatever operations and events happen, from any state that keeps the invariant, it is kept. */
  lemma {:induction false} RunKeepsInvariant(s: SessionState, ops: seq<Op>)
    requires SessionInvariant(s)
    ensures SessionInvariant(Run(s, ops))
    ensures s.calls <= Run(s, ops).calls
    decreases |ops|
  {
    if ops != [] {
      StepKeepsInvariant(s, ops[0]);
      RunKeepsInvariant(Step(s, ops[0]), ops[1..]);
    }
  }

  /** From the initial state, `connected` is never true without a handshake the server accepted. */
  lemma ConnectedOnlyAfterAcceptedHandshake(ops: seq<Op>)
    ensures Run(InitialSession(), ops).connected ==> HasAcceptedConnect(Run(InitialSession(), ops).calls)
    ensures DisconnectPrecedesConnect(Run(InitialSession(), ops).calls)
  {
    RunKeepsInvariant(InitialSession(), ops);
  }

  // ---------------------------------------------------------------------------
  // The composable
  // ---------------------------------------------------------------------------

  /** One `useLiveAPI` instance: its refs, its client and its optional streamer. */
  class LiveSession {
    const client: MultimodalLiveClient
    var audioStreamer: AudioStreamer?
    var connected: bool
    var config: Option<LiveConfig>
    var volume: real
    /** Whether the handler-registering mount hook has run and the unmount hook has not. */
    ghost var mounted: bool
    /** The client's listeners just before the mount hook ran. */
    ghost var beforeMount: seq<Listener>

    ghost function State(): SessionState
      reads this, client
    {
      SessionState(connected, config, volume, client.calls)
    }

    /**
      The session invariant, plus the client's listeners: while mounted they are
      those before mounting, the three session handlers, and whatever other code
      registered since.
    */
    ghost predicate Valid()
      reads this, client
    {
      && SessionInvariant(State())
      && NoSessionListeners(beforeMount)
      && (mounted ==>
            && |client.listeners| >= |beforeMount| + 3
            && client.listeners[..|beforeMount| + 3] == Mounted(beforeMount)
            && NoSessionListeners(client.listeners[|beforeMount| + 3..]))
      && (!mounted ==> NoSessionListeners(client.listeners))
    }

    /** `useLiveAPI({ url, apiKey })`: a fresh client and the initial refs. */
    constructor (url: string, apiKey: string)
      ensures Valid()
      ensures State() == InitialSession()
      ensures fresh(client) && client.url == url && client.apiKey == apiKey && client.listeners == []
      ensures audioStreamer == null && !mounted
    {
      client := new MultimodalLiveClient(url, apiKey);
      audioStreamer := null;
      connected := false;
      config := Some(LiveConfig(DefaultModel, map[]));
      volume := 0.0;
      mounted := false;
      beforeMount := [];
    }

    /**
      The first mount hook: unless a streamer exists, obtain the shared
      "audio-out" context, build a streamer on it and install the volume meter.
    */
    method MountAudio(registry: AudioContextRegistry, playAllowed: bool) returns (r: Outcome<SessionError>)
      requires Valid() && registry.Valid()
      modifies this, registry
      ensures Valid() && registry.Valid()
      ensures State() == old(State()) && mounted == old(mounted) && beforeMount == old(beforeMount)
      ensures old(audioStreamer) != null ==>
                && r == Pass && audioStreamer == old(audioStreamer)
                && registry.State() == old(registry.State()) && registry.issued == old(registry.issued)
      ensures old(audioStreamer) == null && !registry.isBrowser ==>
                && r == Fail(AudioUnavailable) && audioStreamer == null
                && registry.State() == old(registry.State()) && registry.issued == old(registry.issued)
      ensures old(audioStreamer) == null && registry.isBrowser ==>
                && r == Pass && audioStreamer != null && fresh(audioStreamer)
                // the one call `audioContext({ id: 'audio-out' })`, and no other change to the registry
                && registry.State() == Resolve(old(registry.State()), Some(GetAudioContextOptions(Some(AudioOutId), None, None))).state
                && registry.issued == old(registry.issued) + [(Some(AudioOutId), audioStreamer.context)]
                && AudioOutId in registry.contexts
                && audioStreamer.context == registry.contexts[AudioOutId]
                && (AudioOutId in old(registry.contexts) ==> audioStreamer.context == old(registry.contexts[AudioOutId]))
                && audioStreamer.calls == [StreamerAddWorklet(VolumeMeterWorklet)]
    {
      if audioStreamer != null {
        return Pass;
      }
      var ctx := registry.Acquire(Some(GetAudioContextOptions(Some(AudioOutId), None, None)), playAllowed);
      if ctx.Failure? {
        return Fail(AudioUnavailable);
      }
      var streamer := new AudioStreamer(ctx.value);
      audioStreamer := streamer;
      streamer.AddWorklet(VolumeMeterWorklet);
      r := Pass;
    }

    /** The volume meter's message handler. */
    method OnVolumeMessage(v: real)
      requires Valid()
      modifies this`volume
      ensures Valid()
      ensures State() == VolumeStep(old(State()), v)
    {
      volume := v;
    }

    /** The second mount hook: register the three handlers on the client, in order. */
    method MountHandlers()
      requires Valid() && !mounted
      modifies this`mounted, this`beforeMount, client`listeners
      ensures Valid() && mounted
      ensures client.listeners == Mounted(old(client.listeners))
      ensures beforeMount == old(client.listeners)
      ensures State() == old(State())
    {
      beforeMount := client.listeners;
      client.On(Close, OnClose);
      client.On(Interrupted, StopAudioStreamer);
      client.On(Audio, OnAudio);
      mounted := true;
      assert client.listeners[..|beforeMount| + 3] == client.listeners;
      assert client.listeners[|beforeMount| + 3..] == [];
    }

    /**
      The unmount hook: remove the three handlers, leaving the listeners from
      before mounting followed by those other code registered since.
    */
    method UnmountHandlers()
      requires Valid() && mounted
      modifies this`mounted, client`listeners
      ensures Valid() && !mounted
      ensures client.listeners == old(beforeMount) + old(client.listeners)[|old(beforeMount)| + 3..]
      ensures State() == old(State())
    {
      var later := client.listeners[|beforeMount| + 3..];
      assert client.listeners == Mounted(beforeMount) + later;
      UnmountUndoesMount(beforeMount, later);
      client.Off(Close, OnClose);
      client.Off(Interrupted, StopAudioStreamer);
      client.Off(Audio, OnAudio);
      mounted := false;
    }

    /** The `close` handler. */
    method HandleClose()
      requires Valid()
      modifies this`connected
      ensures Valid()
      ensures State() == CloseStep(old(State()))
    {
      connected := false;
    }

    /** The `interrupted` handler: stop the streamer, if there is one. */
    method HandleInterrupted()
      requires Valid()
      modifies audioStreamer
      ensures Valid() && State() == old(State())
      ensures audioStreamer != null ==> audioStreamer.calls == old(audioStreamer.calls) + [StreamerStop]
    {
      if audioStreamer != null {
        audioStreamer.Stop();
      }
    }

    /** The `audio` handler: pass the bytes unchanged to the streamer, if there is one. */
    method HandleAudio(data: seq<Byte>)
      requires Valid()
      modifies audioStreamer
      ensures Valid() && State() == old(State())
      ensures audioStreamer != null ==> audioStreamer.calls == old(audioStreamer.calls) + [StreamerAddPCM16(data)]
    {
      if audioStreamer != null {
        audioStreamer.AddPCM16(data);
      }
    }

    /** `connect()`; `accepted` is whether the client's handshake succeeds. */
    method Connect(accepted: bool) returns (r: Outcome<SessionError>)
      requires Valid()
      modifies this`connected, client`calls
      ensures Valid()
      ensures Transition(State(), r) == ConnectStep(old(State()), accepted)
    {
      if config.None? {
        return Fail(ConfigNotSet);
      }
      client.Disconnect();
      var ok := client.Connect(config.value, accepted);
      if !ok {
        assert State() == Step(old(State()), ConnectOp(accepted));
        StepKeepsInvariant(old(State()), ConnectOp(accepted));
        return Fail(HandshakeFailed);
      }
      connected := true;
      assert State() == Step(old(State()), ConnectOp(accepted));
      StepKeepsInvariant(old(State()), ConnectOp(accepted));
      r := Pass;
    }

    /** `disconnect()`. */
    method Disconnect()
      requires Valid()
      modifies this`connected, client`calls
      ensures Valid()
      ensures State() == DisconnectStep(old(State()))
    {
      client.Disconnect();
      connected := false;
      StepKeepsInvariant(old(State()), DisconnectOp);
    }

    /** `setConfig(c)`. */
    method SetConfig(c: Option<LiveConfig>)
      requires Valid()
      modifies this`config
      ensures Valid()
      ensures State() == SetConfigStep(old(State()), c)
    {
      config := c;
    }
  }
}
