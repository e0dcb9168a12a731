/**
 * The lifecycle of the voice-therapy component as an event-driven state
 * machine.  The component holds four refs (the socket, the audio context, the
 * microphone source node and the script processor) and an `isRecording` flag;
 * its handlers are closures that run one at a time.  Each handler becomes one
 * pure step function over an immutable `State`, and every externally visible
 * effect (a message sent on a socket, a node disconnected, a context closed, a
 * text spoken) is appended to the state's trace.
 *
 * The open handler suspends at its `await` on the microphone prompt, so it is
 * two steps: the handshake when the socket opens, and the rest when the
 * prompt settles; other callbacks may run in between.  The start button stays
 * on screen until recording begins and `start` has no guard of its own, so
 * several sockets can exist; sockets are numbered in creation order, and so
 * are the capture graphs (context, source and processor built together by one
 * run of the open handler).  Each graph keeps sending to the socket its
 * closure captured, and the refs point at whichever graph was stored last.
 */
module Session {

  import opened Optional
  import opened Pcm
  import opened Reply

  /** `WebSocket.readyState`. */
  datatype ReadyState = Connecting | Open | Closing | Closed

  /**
   * A capture graph: the socket its audio callback captured, and whether the
   * processor is still connected with its callback installed.
   */
  datatype Graph = Graph(socket: nat, processorLive: bool)

  /** An externally visible effect, in the order it happened. */
  datatype Out =
    | Handshake(socket: nat)                   // ws.send('{"type":"start"}')
    | Frame(socket: nat, samples: seq<int>)    // ws.send(pcmData)
    | CloseRequest(socket: nat)                // wsRef.current.close()
    | Speak(text: Json)                        // speechSynthesis.speak(...)
    | ProcessorDisconnected(graph: nat)
    | SourceDisconnected(graph: nat)
    | ContextClosed(graph: nat)

  datatype State = State(
    sockets: seq<ReadyState>,
    graphs: seq<Graph>,
    wsRef: Option<nat>,
    processorRef: Option<nat>,
    sourceRef: Option<nat>,
    contextRef: Option<nat>,
    isRecording: bool,
    awaitingMic: set<nat>,   // sockets whose open handler waits on the microphone prompt
    trace: seq<Out>)

  /** One capture callback's input: the processor was built with 4096-sample buffers. */
  type Buffer = b: seq<Float> | |b| == BufferSize witness seq(BufferSize, _ => Finite(0.0))

  /** What can happen to the component: clicks and browser callbacks. */
  datatype Event =
    | ClickStart
    | SocketOpened(socket: nat)
    | MicResolved(socket: nat, granted: bool)
    | AudioReady(graph: nat, buffer: Buffer)
    | MessageArrived(socket: nat, data: Option<Json>)
    | SocketClosing(socket: nat)
    | SocketClosed(socket: nat)
    | SocketFailed(socket: nat)
    | ClickStop

  /** The mounted component: all refs null, not recording, no prompt pending, nothing sent. */
  const Init: State := State([], [], None, None, None, None, false, {}, [])

  predicate RefIn(r: Option<nat>, n: nat) {
    r.Some? ==> r.value < n
  }

  /** Every handle names something that exists. */
  predicate WellFormed(s: State) {
    && (forall j :: 0 <= j < |s.graphs| ==> s.graphs[j].socket < |s.sockets|)
    && RefIn(s.wsRef, |s.sockets|)
    && RefIn(s.processorRef, |s.graphs|)
    && RefIn(s.sourceRef, |s.graphs|)
    && RefIn(s.contextRef, |s.graphs|)
    && (forall k :: k in s.awaitingMic ==> k < |s.sockets|)
  }

  predicate NoAudioRefs(s: State) {
    s.processorRef.None? && s.sourceRef.None? && s.contextRef.None?
  }

  /** The trace entries a step added. */
  function Emitted(s: State, r: State): (added: seq<Out>)
    requires s.trace <= r.trace
  {
    r.trace[|s.trace|..]
  }

  /** `o` is the release of an audio handle that `s` holds. */
  predicate ReleasesStoredHandle(s: State, o: Out) {
    match o
    case ProcessorDisconnected(j) => s.processorRef == Some(j)
    case SourceDisconnected(j) => s.sourceRef == Some(j)
    case ContextClosed(j) => s.contextRef == Some(j)
    case _ => false
  }

  // ---------------------------------------------------------------------------
  // Handlers
  // ---------------------------------------------------------------------------

  /** `startVoiceTherapy`: creates a new connecting socket and nothing else. */
  function StartVoiceTherapy(s: State): (r: State)
    requires WellFormed(s)
    ensures WellFormed(r)
    ensures |r.sockets| == |s.sockets| + 1
    ensures r.sockets[..|s.sockets|] == s.sockets && r.sockets[|s.sockets|] == Connecting
    ensures r.graphs == s.graphs && r.trace == s.trace && r.isRecording == s.isRecording
    ensures r.wsRef == s.wsRef && r.processorRef == s.processorRef
    ensures r.sourceRef == s.sourceRef && r.contextRef == s.contextRef
    ensures r.awaitingMic == s.awaitingMic
  {
    s.(sockets := s.sockets + [Connecting])
  }

  /**
   * `ws.onopen` of socket `k`, up to its `await`: the start handshake goes out
   * and the handler suspends on the microphone prompt.  Only a connecting
   * socket opens.
   */
  function OnOpen(s: State, k: nat): (r: State)
    requires WellFormed(s)
    ensures WellFormed(r)
    ensures !(k < |s.sockets| && s.sockets[k] == Connecting) ==> r == s
    ensures k < |s.sockets| && s.sockets[k] == Connecting ==>
      r == s.(sockets := s.sockets[k := Open], trace := s.trace + [Handshake(k)],
              awaitingMic := s.awaitingMic + {k})
  {
    if k >= |s.sockets| || s.sockets[k] != Connecting then s
    else s.(sockets := s.sockets[k := Open], trace := s.trace + [Handshake(k)],
            awaitingMic := s.awaitingMic + {k})
  }

  /**
   * The rest of socket `k`'s open handler, once the microphone prompt
   * settles.  A refused microphone rejects the awaited promise and the
   * handler ends.  A granted one builds the capture graph bound to `k`,
   * stores all four refs and sets `isRecording` — without looking at the
   * socket again, so a socket that closed during the prompt is stored too.
   */
  function OnMicResolved(s: State, k: nat, granted: bool): (r: State)
    requires WellFormed(s)
    ensures WellFormed(r)
    ensures k !in s.awaitingMic ==> r == s
    ensures k in s.awaitingMic ==>
      && r.awaitingMic == s.awaitingMic - {k}
      && r.sockets == s.sockets && r.trace == s.trace
      && (granted ==>
            && |r.graphs| == |s.graphs| + 1
            && r.graphs[..|s.graphs|] == s.graphs
            && r.graphs[|s.graphs|] == Graph(k, true)
            && r.wsRef == Some(k)
            && r.processorRef == r.sourceRef == r.contextRef == Some(|s.graphs|)
            && r.isRecording)
      && (!granted ==> r == s.(awaitingMic := r.awaitingMic))
  {
    if k !in s.awaitingMic then s
    else
      var settled := s.(awaitingMic := s.awaitingMic - {k});
      if !granted then settled
      else
        var g := |s.graphs|;
        settled.(
          graphs := s.graphs + [Graph(k, true)],
          wsRef := Some(k),
          contextRef := Some(g),
          sourceRef := Some(g),
          processorRef := Some(g),
          isRecording := true)
  }

  /** The socket a live processor's callback sends to is open. */
  predicate CanSend(s: State, j: nat)
    requires WellFormed(s)
  {
    j < |s.graphs| && s.graphs[j].processorLive && s.sockets[s.graphs[j].socket] == Open
  }

  /**
   * `processor.onaudioprocess` of graph `j`: the buffer is quantised and sent
   * to the captured socket only if that socket is open at this moment;
   * otherwise the frame is dropped without error.  A disconnected processor
   * delivers no callbacks.
   */
  function OnAudioProcess(s: State, j: nat, buffer: Buffer): (r: State)
    requires WellFormed(s)
    ensures WellFormed(r)
    ensures r.(trace := s.trace) == s
    ensures s.trace <= r.trace && |r.trace| <= |s.trace| + 1
    ensures |r.trace| == |s.trace| + 1 <==> CanSend(s, j)
    ensures CanSend(s, j) ==> r.trace[|s.trace|] == Frame(s.graphs[j].socket, Quantized(buffer))
  {
    if j >= |s.graphs| || !s.graphs[j].processorLive then s
    else
      var k := s.graphs[j].socket;
      var pcm := Quantized(buffer);
      if s.sockets[k] == Open then s.(trace := s.trace + [Frame(k, pcm)]) else s
  }

  /**
   * The browser dispatches a received message only while the socket is open:
   * once it is closing or closed, incoming messages are discarded before any
   * handler runs.
   */
  predicate Delivers(s: State, k: nat) {
    k < |s.sockets| && s.sockets[k] == Open
  }

  /**
   * `ws.onmessage`: at most one utterance per message, carrying the reply
   * text unmodified, and only when the reply rule holds.
   */
  function OnMessage(s: State, k: nat, data: Option<Json>): (r: State)
    requires WellFormed(s)
    ensures WellFormed(r)
    ensures r.(trace := s.trace) == s
    ensures s.trace <= r.trace && |r.trace| <= |s.trace| + 1
    ensures |r.trace| == |s.trace| + 1 ==>
      Delivers(s, k) && r.trace[|s.trace|].Speak? && CarriesReply(data, r.trace[|s.trace|].text)
    ensures Delivers(s, k) && (exists text :: CarriesReply(data, text)) ==> |r.trace| == |s.trace| + 1
  {
    if !Delivers(s, k) then s
    else
      match SpokenText(data)
      case None => s
      case Some(text) => s.(trace := s.trace + [Speak(text)])
  }

  /**
   * `cleanupAudio`: disconnects the stored processor (removing its callback),
   * disconnects the stored source and closes the stored context, clearing
   * each ref; handles that are not stored are skipped.
   */
  function CleanupAudio(s: State): (r: State)
    requires WellFormed(s)
    ensures WellFormed(r)
    ensures NoAudioRefs(r)
    ensures r.wsRef == s.wsRef && r.isRecording == s.isRecording && r.sockets == s.sockets
    ensures r.awaitingMic == s.awaitingMic
    ensures ProcessorSilenced(s, r)
    ensures s.trace <= r.trace
    ensures Emitted(s, r) == Released(s)
    ensures forall o :: o in Emitted(s, r) <==> ReleasesStoredHandle(s, o)
    ensures NoAudioRefs(s) ==> r == s
  {
    var released := Released(s);
    var graphs :=
      if s.processorRef.None? then s.graphs
      else
        var j := s.processorRef.value;
        s.graphs[j := s.graphs[j].(processorLive := false)];
    var r := s.(graphs := graphs, trace := s.trace + released,
                processorRef := None, sourceRef := None, contextRef := None);
    assert Emitted(s, r) == released;
    ReleasedExactly(s);
    r
  }

  /**
   * `r`'s capture graphs are `s`'s, except that the processor `s` stores is
   * disconnected with its callback removed; every other graph is untouched.
   */
  predicate ProcessorSilenced(s: State, r: State) {
    && |r.graphs| == |s.graphs|
    && forall j :: 0 <= j < |s.graphs| ==>
         r.graphs[j] == s.graphs[j].(processorLive := s.graphs[j].processorLive && s.processorRef != Some(j))
  }

  /** The releases `cleanupAudio` performs, in its order, one per stored handle. */
  function Released(s: State): (released: seq<Out>) {
    (if s.processorRef.Some? then [ProcessorDisconnected(s.processorRef.value)] else [])
    + (if s.sourceRef.Some? then [SourceDisconnected(s.sourceRef.value)] else [])
    + (if s.contextRef.Some? then [ContextClosed(s.contextRef.value)] else [])
  }

  /** Cleanup releases exactly the handles that are stored. */
  lemma ReleasedExactly(s: State)
    ensures forall o :: o in Released(s) <==> ReleasesStoredHandle(s, o)
  {
    var p := if s.processorRef.Some? then [ProcessorDisconnected(s.processorRef.value)] else [];
    var q := if s.sourceRef.Some? then [SourceDisconnected(s.sourceRef.value)] else [];
    var c := if s.contextRef.Some? then [ContextClosed(s.contextRef.value)] else [];
    assert Released(s) == p + q + c;
    forall o
      ensures o in Released(s) <==> ReleasesStoredHandle(s, o)
    {
      assert o in p + q + c <==> o in p || o in q || o in c;
    }
  }

  /** The shared tail of `onclose`, `onerror` and `stopVoiceTherapy`. */
  function Teardown(s: State): (r: State)
    requires WellFormed(s)
    ensures WellFormed(r)
    ensures NoAudioRefs(r) && !r.isRecording
    ensures r.wsRef == s.wsRef && r.sockets == s.sockets && r.awaitingMic == s.awaitingMic
    ensures ProcessorSilenced(s, r)
    ensures s.trace <= r.trace
    ensures Emitted(s, r) == Released(s)
    ensures forall o :: o in Emitted(s, r) <==> ReleasesStoredHandle(s, o)
    ensures NoAudioRefs(s) ==> r == s.(isRecording := false)
  {
    CleanupAudio(s).(isRecording := false)
  }

  /**
   * The server starts the closing handshake on socket `k`: the browser moves
   * an open socket to closing and runs no handler of this component until
   * the close event.
   */
  function PeerClosing(s: State, k: nat): (r: State)
    requires WellFormed(s)
    ensures WellFormed(r)
    ensures !(k < |s.sockets| && s.sockets[k] == Open) ==> r == s
    ensures k < |s.sockets| && s.sockets[k] == Open ==>
      && r.sockets == s.sockets[k := Closing]
      && r.(sockets := s.sockets) == s
  {
    if k < |s.sockets| && s.sockets[k] == Open then s.(sockets := s.sockets[k := Closing]) else s
  }

  /** Socket `k` exists and has not yet closed. */
  predicate NotClosed(s: State, k: nat) {
    k < |s.sockets| && s.sockets[k] != Closed
  }

  /**
   * `ws.onclose` of socket `k`: the socket is closed and the audio of
   * whatever session the refs hold is torn down, whichever socket it was.
   */
  function OnClose(s: State, k: nat): (r: State)
    requires WellFormed(s)
    ensures WellFormed(r)
    ensures !NotClosed(s, k) ==> r == s
    ensures NotClosed(s, k) ==>
      && r.sockets == s.sockets[k := Closed]
      && !r.isRecording && NoAudioRefs(r) && r.wsRef == s.wsRef && r.awaitingMic == s.awaitingMic
      && ProcessorSilenced(s, r)
      && s.trace <= r.trace
      && Emitted(s, r) == Released(s)
      && (forall o :: o in Emitted(s, r) <==> ReleasesStoredHandle(s, o))
  {
    if !NotClosed(s, k) then s
    else
      var closed := s.(sockets := s.sockets[k := Closed]);
      assert forall o :: ReleasesStoredHandle(closed, o) <==> ReleasesStoredHandle(s, o);
      Teardown(closed)
  }

  /**
   * A failed socket: the browser marks it closed and fires `error` and then
   * `close`, so both handlers run.
   */
  function OnError(s: State, k: nat): (r: State)
    requires WellFormed(s)
    ensures WellFormed(r)
    ensures !NotClosed(s, k) ==> r == s
    ensures NotClosed(s, k) ==>
      && r.sockets == s.sockets[k := Closed]
      && !r.isRecording && NoAudioRefs(r) && r.wsRef == s.wsRef && r.awaitingMic == s.awaitingMic
      && ProcessorSilenced(s, r)
      && s.trace <= r.trace
      && Emitted(s, r) == Released(s)
      && (forall o :: o in Emitted(s, r) <==> ReleasesStoredHandle(s, o))
  {
    if !NotClosed(s, k) then s
    else
      var failed := s.(sockets := s.sockets[k := Closed]);
      assert forall o :: ReleasesStoredHandle(failed, o) <==> ReleasesStoredHandle(s, o);
      var afterError := Teardown(failed);
      assert Teardown(afterError) == afterError;
      Teardown(afterError)
  }

  /** The stored socket exists and is open. */
  predicate StoredSocketOpen(s: State)
    requires WellFormed(s)
  {
    s.wsRef.Some? && s.sockets[s.wsRef.value] == Open
  }

  /**
   * `stopVoiceTherapy`: closes the stored socket only when one is stored and
   * open, then tears the audio down and clears `isRecording`.  The socket ref
   * itself is never cleared.
   */
  function StopVoiceTherapy(s: State): (r: State)
    requires WellFormed(s)
    ensures WellFormed(r)
    ensures !r.isRecording && NoAudioRefs(r) && r.wsRef == s.wsRef && r.awaitingMic == s.awaitingMic
    ensures ProcessorSilenced(s, r)
    ensures StoredSocketOpen(s) ==> r.sockets == s.sockets[s.wsRef.value := Closing]
    ensures !StoredSocketOpen(s) ==> r.sockets == s.sockets
    ensures s.trace <= r.trace
    ensures forall k: nat :: CloseRequest(k) in Emitted(s, r) <==> StoredSocketOpen(s) && s.wsRef == Some(k)
    ensures StoredSocketOpen(s) ==> r.trace[|s.trace|] == CloseRequest(s.wsRef.value)
    ensures forall o: Out :: !o.CloseRequest? ==> (o in Emitted(s, r) <==> ReleasesStoredHandle(s, o))
    ensures Emitted(s, r) == (if StoredSocketOpen(s) then [CloseRequest(s.wsRef.value)] else []) + Released(s)
  {
    StopState(s);
    StopTrace(s);
    StopEmits(s);
    Teardown(CloseStored(s))
  }

  /** The first branch of `stopVoiceTherapy`: close the stored socket when it is open. */
  function CloseStored(s: State): (r: State)
    requires WellFormed(s)
    ensures WellFormed(r)
  {
    if StoredSocketOpen(s) then
      s.(sockets := s.sockets[s.wsRef.value := Closing], trace := s.trace + [CloseRequest(s.wsRef.value)])
    else s
  }

  /** Stop's effect on everything but the trace. */
  lemma StopState(s: State)
    requires WellFormed(s)
    ensures var r := Teardown(CloseStored(s));
      && !r.isRecording && NoAudioRefs(r) && r.wsRef == s.wsRef && r.awaitingMic == s.awaitingMic
      && ProcessorSilenced(s, r)
      && (StoredSocketOpen(s) ==> r.sockets == s.sockets[s.wsRef.value := Closing])
      && (!StoredSocketOpen(s) ==> r.sockets == s.sockets)
  {
    var closing := CloseStored(s);
    assert closing.graphs == s.graphs && closing.processorRef == s.processorRef;
  }

  /** Stop's trace: an optional close request on the stored socket, then the releases. */
  lemma StopTrace(s: State)
    requires WellFormed(s)
    ensures var r := Teardown(CloseStored(s));
      && s.trace <= r.trace
      && Emitted(s, r) == (if StoredSocketOpen(s) then [CloseRequest(s.wsRef.value)] else []) + Released(s)
      && (StoredSocketOpen(s) ==> r.trace[|s.trace|] == CloseRequest(s.wsRef.value))
  {
    var close := if StoredSocketOpen(s) then [CloseRequest(s.wsRef.value)] else [];
    var closing := CloseStored(s);
    assert closing.trace == s.trace + close;
    assert Released(closing) == Released(s);
    var r := Teardown(closing);
    assert Emitted(s, r) == close + Emitted(closing, r);
  }

  /** Which entries a stop emits: the close request exactly when the stored socket is open, and the releases. */
  lemma StopEmits(s: State)
    requires WellFormed(s)
    ensures var r := Teardown(CloseStored(s));
      && s.trace <= r.trace
      && (forall k: nat :: CloseRequest(k) in Emitted(s, r) <==> StoredSocketOpen(s) && s.wsRef == Some(k))
      && (forall o: Out :: !o.CloseRequest? ==> (o in Emitted(s, r) <==> ReleasesStoredHandle(s, o)))
  {
    StopTrace(s);
    var close := if StoredSocketOpen(s) then [CloseRequest(s.wsRef.value)] else [];
    CloseThenReleases(s, Teardown(CloseStored(s)), close);
  }

  /** What a stop emits, entry by entry, given its list: an optional close, then the releases. */
  lemma CloseThenReleases(s: State, r: State, close: seq<Out>)
    requires s.trace <= r.trace
    requires Emitted(s, r) == close + Released(s)
    requires forall o :: o in close ==> o.CloseRequest?
    ensures forall k: nat :: CloseRequest(k) in Emitted(s, r) <==> CloseRequest(k) in close
    ensures forall o: Out :: !o.CloseRequest? ==> (o in Emitted(s, r) <==> ReleasesStoredHandle(s, o))
  {
    ReleasedExactly(s);
  }

  // ---------------------------------------------------------------------------
  // The event loop
  // ---------------------------------------------------------------------------

  /**
   * One click or browser callback.  The component renders the stop button
   * only while recording and the start button only while not, so a click on
   * the button that is not shown does nothing.
   */
  function Step(s: State, e: Event): (r: State)
    requires WellFormed(s)
    ensures WellFormed(r)
    ensures s.trace <= r.trace
    ensures e.ClickStart? && s.isRecording ==> r == s
    ensures e.ClickStop? && !s.isRecording ==> r == s
  {
    match e
    case ClickStart => if s.isRecording then s else StartVoiceTherapy(s)
    case SocketOpened(k) => OnOpen(s, k)
    case MicResolved(k, granted) => OnMicResolved(s, k, granted)
    case AudioReady(j, buffer) => OnAudioProcess(s, j, buffer)
    case MessageArrived(k, data) => OnMessage(s, k, data)
    case SocketClosing(k) => PeerClosing(s, k)
    case SocketClosed(k) => OnClose(s, k)
    case SocketFailed(k) => OnError(s, k)
    case ClickStop => if s.isRecording then StopVoiceTherapy(s) else s
  }

  /** The state after handling `events` in order. */
  function Run(s: State, events: seq<Event>): (r: State)
    requires WellFormed(s)
    ensures WellFormed(r)
    ensures s.trace <= r.trace
    decreases |events|
  {
    if events == [] then s else Run(Step(s, events[0]), events[1..])
  }

}
