/**
 * Properties of the voice-session state machine: single-step laws
 * (idempotent teardown, error equals close), an invariant every reachable
 * state keeps (handshake before frames, frames well formed, the recording
 * flag backed by stored refs and a live processor that feeds the stored
 * socket), and concrete runs that show how the code as written behaves in its
 * corner cases.
 */
module SessionProofs {

  import opened Optional
  import opened Pcm
  import opened Reply
  import opened Session

  // ---------------------------------------------------------------------------
  // Single-step laws
  // ---------------------------------------------------------------------------

  /** A second `cleanupAudio` changes nothing and emits nothing. */
  lemma CleanupIdempotent(s: State)
    requires WellFormed(s)
    ensures CleanupAudio(CleanupAudio(s)) == CleanupAudio(s)
  {
  }

  /** A second `stopVoiceTherapy` changes nothing: in particular it sends no second close. */
  lemma StopIdempotent(s: State)
    requires WellFormed(s)
    ensures StopVoiceTherapy(StopVoiceTherapy(s)) == StopVoiceTherapy(s)
  {
    var r := StopVoiceTherapy(s);
    assert !StoredSocketOpen(r);
    assert Teardown(r) == r;
  }

  /** Running the error handler and then the close handler is the same as a plain close. */
  lemma ErrorIsClose(s: State, k: nat)
    requires WellFormed(s)
    ensures OnError(s, k) == OnClose(s, k)
  {
  }

  /**
   * Audio frames are gated on the socket being open at callback time: with
   * the socket connecting, closing or closed the frame is dropped and the
   * state is unchanged.
   */
  lemma FrameDroppedUnlessOpen(s: State, j: nat, buffer: Buffer)
    requires WellFormed(s) && j < |s.graphs|
    requires s.sockets[s.graphs[j].socket] != Open
    ensures OnAudioProcess(s, j, buffer) == s
  {
  }

  // ---------------------------------------------------------------------------
  // Trace predicates
  // ---------------------------------------------------------------------------

  /** Some handshake on socket `k` occurs before position `i`. */
  ghost predicate HandshakeBefore(t: seq<Out>, k: nat, i: int) {
    exists h :: 0 <= h < i && h < |t| && t[h] == Handshake(k)
  }

  /** Every frame sent on a socket comes after that socket's handshake. */
  ghost predicate FramesFollowHandshake(t: seq<Out>) {
    forall i :: 0 <= i < |t| && t[i].Frame? ==> HandshakeBefore(t, t[i].socket, i)
  }

  /** Every frame holds one full buffer of int16 samples. */
  ghost predicate FramesWellFormed(t: seq<Out>) {
    forall i :: 0 <= i < |t| && t[i].Frame? ==>
      && |t[i].samples| == BufferSize
      && (forall n :: 0 <= n < |t[i].samples| ==> InInt16(t[i].samples[n]))
  }

  /** No socket receives two handshakes. */
  ghost predicate HandshakeOnce(t: seq<Out>) {
    forall i, i' :: 0 <= i < i' < |t| && t[i].Handshake? && t[i'].Handshake? ==>
      t[i].socket != t[i'].socket
  }

  /** Neither a frame nor a handshake. */
  predicate Quiet(o: Out) {
    !o.Frame? && !o.Handshake?
  }

  ghost predicate TraceOk(t: seq<Out>) {
    FramesFollowHandshake(t) && FramesWellFormed(t) && HandshakeOnce(t)
  }

  // ---------------------------------------------------------------------------
  // The reachable-state invariant
  // ---------------------------------------------------------------------------

  ghost predicate Valid(s: State) {
    && WellFormed(s)
    && TraceOk(s.trace)
    // a handshake goes out only when a socket leaves the connecting state
    && (forall i :: 0 <= i < |s.trace| && s.trace[i].Handshake? ==>
          s.trace[i].socket < |s.sockets| && s.sockets[s.trace[i].socket] != Connecting)
    // every pending microphone prompt and every capture graph follows its socket's handshake
    && (forall k :: k in s.awaitingMic ==> HandshakeBefore(s.trace, k, |s.trace|))
    && (forall j :: 0 <= j < |s.graphs| ==> HandshakeBefore(s.trace, s.graphs[j].socket, |s.trace|))
    // the three audio refs are stored and cleared together, with the socket they feed
    && s.sourceRef == s.processorRef
    && s.contextRef == s.processorRef
    && (s.processorRef.Some? ==> s.wsRef.Some? && s.graphs[s.processorRef.value].socket == s.wsRef.value)
    // recording means all refs stored, with a live processor
    && (s.isRecording ==> s.processorRef.Some? && s.graphs[s.processorRef.value].processorLive)
  }

  lemma InitValid()
    ensures Valid(Init)
  {
  }

  lemma HandshakeBeforeExtends(t: seq<Out>, u: seq<Out>, k: nat, i: int)
    requires t <= u && i <= |t|
    requires HandshakeBefore(t, k, i)
    ensures HandshakeBefore(u, k, i) && HandshakeBefore(u, k, |u|)
  {
    var h :| 0 <= h < i && h < |t| && t[h] == Handshake(k);
    assert u[h] == t[h];
  }

  /** Appending entries that are neither frames nor handshakes keeps the trace properties. */
  lemma {:induction false} QuietExtension(t: seq<Out>, u: seq<Out>)
    requires t <= u && TraceOk(t)
    requires forall o :: o in u[|t|..] ==> Quiet(o)
    ensures TraceOk(u)
    ensures forall i :: 0 <= i < |u| && u[i].Handshake? ==> i < |t|
  {
    forall i | |t| <= i < |u|
      ensures Quiet(u[i])
    {
      assert u[i] == u[|t|..][i - |t|];
    }
    forall i | 0 <= i < |u| && u[i].Frame?
      ensures HandshakeBefore(u, u[i].socket, i)
    {
      assert i < |t| && u[i] == t[i];
      HandshakeBeforeExtends(t, u, t[i].socket, i);
    }
  }

  /** Appending a handshake for a socket that has none keeps the trace properties. */
  lemma AppendHandshake(t: seq<Out>, k: nat)
    requires TraceOk(t)
    requires forall i :: 0 <= i < |t| && t[i].Handshake? ==> t[i].socket != k
    ensures TraceOk(t + [Handshake(k)])
    ensures HandshakeBefore(t + [Handshake(k)], k, |t| + 1)
  {
    var u := t + [Handshake(k)];
    forall i | 0 <= i < |u| && u[i].Frame?
      ensures HandshakeBefore(u, u[i].socket, i)
    {
      HandshakeBeforeExtends(t, u, t[i].socket, i);
    }
    assert u[|t|] == Handshake(k);
  }

  /** Appending a full frame for a socket that already had its handshake keeps the trace properties. */
  lemma AppendFrame(t: seq<Out>, k: nat, samples: seq<int>)
    requires TraceOk(t) && HandshakeBefore(t, k, |t|)
    requires |samples| == BufferSize && forall n :: 0 <= n < |samples| ==> InInt16(samples[n])
    ensures TraceOk(t + [Frame(k, samples)])
  {
    var u := t + [Frame(k, samples)];
    forall i | 0 <= i < |u| && u[i].Frame?
      ensures HandshakeBefore(u, u[i].socket, i)
    {
      if i < |t| {
        HandshakeBeforeExtends(t, u, t[i].socket, i);
      } else {
        HandshakeBeforeExtends(t, u, k, |t|);
      }
    }
  }

  /**
   * The prompt and graph parts of the invariant survive any step that keeps
   * the pending prompts and the graph sockets and extends the trace.
   */
  lemma GraphsKeepHandshake(s: State, r: State)
    requires Valid(s) && s.trace <= r.trace
    requires r.awaitingMic == s.awaitingMic
    requires |r.graphs| == |s.graphs|
    requires forall j :: 0 <= j < |s.graphs| ==> r.graphs[j].socket == s.graphs[j].socket
    ensures forall k :: k in r.awaitingMic ==> HandshakeBefore(r.trace, k, |r.trace|)
    ensures forall j :: 0 <= j < |r.graphs| ==> HandshakeBefore(r.trace, r.graphs[j].socket, |r.trace|)
  {
    forall k | k in r.awaitingMic
      ensures HandshakeBefore(r.trace, k, |r.trace|)
    {
      HandshakeBeforeExtends(s.trace, r.trace, k, |s.trace|);
    }
    forall j | 0 <= j < |r.graphs|
      ensures HandshakeBefore(r.trace, r.graphs[j].socket, |r.trace|)
    {
      HandshakeBeforeExtends(s.trace, r.trace, s.graphs[j].socket, |s.trace|);
    }
  }

  lemma OpenKeepsValid(s: State, k: nat)
    requires Valid(s)
    ensures Valid(OnOpen(s, k))
  {
    var r := OnOpen(s, k);
    if k < |s.sockets| && s.sockets[k] == Connecting {
      AppendHandshake(s.trace, k);
      forall x | x in r.awaitingMic
        ensures HandshakeBefore(r.trace, x, |r.trace|)
      {
        if x != k {
          HandshakeBeforeExtends(s.trace, r.trace, x, |s.trace|);
        }
      }
      forall j | 0 <= j < |s.graphs|
        ensures HandshakeBefore(r.trace, s.graphs[j].socket, |r.trace|)
      {
        HandshakeBeforeExtends(s.trace, r.trace, s.graphs[j].socket, |s.trace|);
      }
      forall i | 0 <= i < |r.trace| && r.trace[i].Handshake?
        ensures r.sockets[r.trace[i].socket] != Connecting
      {
        if i < |s.trace| {
          assert s.trace[i] == r.trace[i];
        }
      }
    }
  }

  lemma MicKeepsValid(s: State, k: nat, granted: bool)
    requires Valid(s)
    ensures Valid(OnMicResolved(s, k, granted))
  {
    var r := OnMicResolved(s, k, granted);
    if k in s.awaitingMic && granted {
      assert r.graphs[|s.graphs|] == Graph(k, true);
    }
  }

  lemma AudioKeepsValid(s: State, j: nat, buffer: Buffer)
    requires Valid(s)
    ensures Valid(OnAudioProcess(s, j, buffer))
  {
    var r := OnAudioProcess(s, j, buffer);
    if CanSend(s, j) {
      var k := s.graphs[j].socket;
      assert r.trace == s.trace + [Frame(k, Quantized(buffer))];
      AppendFrame(s.trace, k, Quantized(buffer));
      GraphsKeepHandshake(s, r);
    }
  }

  lemma MessageKeepsValid(s: State, k: nat, data: Option<Json>)
    requires Valid(s)
    ensures Valid(OnMessage(s, k, data))
  {
    var r := OnMessage(s, k, data);
    if |r.trace| == |s.trace| + 1 {
      assert Emitted(s, r) == [r.trace[|s.trace|]];
      QuietExtension(s.trace, r.trace);
      GraphsKeepHandshake(s, r);
    }
  }

  /** A step that closes socket `k` (if any) and tears the audio down keeps the invariant. */
  lemma TeardownStepKeepsValid(s: State, r: State)
    requires Valid(s) && WellFormed(r)
    requires s.trace <= r.trace
    requires forall o :: o in Emitted(s, r) ==> Quiet(o)
    requires !r.isRecording && NoAudioRefs(r) && r.awaitingMic == s.awaitingMic
    requires |r.sockets| == |s.sockets|
    requires forall x :: 0 <= x < |s.sockets| && s.sockets[x] != Connecting ==> r.sockets[x] != Connecting
    requires |r.graphs| == |s.graphs|
    requires forall j :: 0 <= j < |s.graphs| ==> r.graphs[j].socket == s.graphs[j].socket
    ensures Valid(r)
  {
    QuietExtension(s.trace, r.trace);
    GraphsKeepHandshake(s, r);
    forall i | 0 <= i < |r.trace| && r.trace[i].Handshake?
      ensures r.sockets[r.trace[i].socket] != Connecting
    {
      assert r.trace[i] == s.trace[i];
    }
  }

  lemma CloseKeepsValid(s: State, k: nat)
    requires Valid(s)
    ensures Valid(OnClose(s, k)) && Valid(OnError(s, k))
  {
    ErrorIsClose(s, k);
    var r := OnClose(s, k);
    if NotClosed(s, k) {
      var closed := s.(sockets := s.sockets[k := Closed]);
      assert r == CleanupAudio(closed).(isRecording := false);
      TeardownStepKeepsValid(s, r);
    }
  }

  /** Cleanup emits releases only. */
  lemma ReleasedQuiet(s: State)
    ensures forall o :: o in Released(s) ==> Quiet(o)
  {
    ReleasedExactly(s);
  }

  lemma StopKeepsValid(s: State)
    requires Valid(s)
    ensures Valid(StopVoiceTherapy(s))
  {
    var r := StopVoiceTherapy(s);
    var close := if StoredSocketOpen(s) then [CloseRequest(s.wsRef.value)] else [];
    ReleasedQuiet(s);
    forall o | o in Emitted(s, r)
      ensures Quiet(o)
    {
      assert o in close || o in Released(s);
    }
    TeardownStepKeepsValid(s, r);
  }

  lemma StepKeepsValid(s: State, e: Event)
    requires Valid(s)
    ensures Valid(Step(s, e))
  {
    match e
    case ClickStart => StartKeepsValid(s);
    case SocketOpened(k) => OpenKeepsValid(s, k);
    case MicResolved(k, granted) => MicKeepsValid(s, k, granted);
    case AudioReady(j, buffer) => AudioKeepsValid(s, j, buffer);
    case MessageArrived(k, data) => MessageKeepsValid(s, k, data);
    case SocketClosing(k) => PeerClosingKeepsValid(s, k);
    case SocketClosed(k) => CloseKeepsValid(s, k);
    case SocketFailed(k) => CloseKeepsValid(s, k);
    case ClickStop => StopKeepsValid(s);
  }

  lemma PeerClosingKeepsValid(s: State, k: nat)
    requires Valid(s)
    ensures Valid(PeerClosing(s, k))
  {
  }

  lemma StartKeepsValid(s: State)
    requires Valid(s)
    ensures Valid(StartVoiceTherapy(s))
  {
    var r := StartVoiceTherapy(s);
    forall i | 0 <= i < |r.trace| && r.trace[i].Handshake?
      ensures r.sockets[r.trace[i].socket] != Connecting
    {
      assert r.sockets[r.trace[i].socket] == s.sockets[s.trace[i].socket];
    }
  }

  lemma {:induction false} RunKeepsValid(s: State, events: seq<Event>)
    requires Valid(s)
    ensures Valid(Run(s, events))
    decreases |events|
  {
    if events != [] {
      StepKeepsValid(s, events[0]);
      RunKeepsValid(Step(s, events[0]), events[1..]);
    }
  }

  // ---------------------------------------------------------------------------
  // What holds after any sequence of clicks and browser callbacks
  // ---------------------------------------------------------------------------

  /**
   * In every trace the component can produce: each frame is preceded by its
   * socket's start handshake, each socket gets at most one handshake, every
   * frame is one full buffer of int16 samples, and the recording flag is
   * only up while all four refs are stored, the stored processor is
   * connected and feeds the stored socket, and that socket was greeted.  The
   * stored socket need not still be open: see `CloseDuringPrompt`.
   */
  lemma ReachableSessionsBehave(events: seq<Event>)
    ensures var s := Run(Init, events);
      && (forall i :: 0 <= i < |s.trace| && s.trace[i].Frame? ==>
            exists h :: 0 <= h < i && s.trace[h] == Handshake(s.trace[i].socket))
      && HandshakeOnce(s.trace)
      && FramesWellFormed(s.trace)
      && (s.isRecording ==>
            && s.wsRef.Some? && s.processorRef.Some? && s.sourceRef.Some? && s.contextRef.Some?
            && s.graphs[s.processorRef.value].processorLive
            && s.graphs[s.processorRef.value].socket == s.wsRef.value
            && exists h :: 0 <= h < |s.trace| && s.trace[h] == Handshake(s.wsRef.value))
  {
    InitValid();
    RunKeepsValid(Init, events);
  }

  // ---------------------------------------------------------------------------
  // Concrete runs
  // ---------------------------------------------------------------------------

  /** The single session on socket 0 and graph 0, while it records, with trace `t`. */
  function Recording(t: seq<Out>): State {
    State([Open], [Graph(0, true)], Some(0), Some(0), Some(0), Some(0), true, {}, t)
  }

  /** The same session after stop, with trace `t`. */
  function Stopped(t: seq<Out>): State {
    State([Closing], [Graph(0, false)], Some(0), None, None, None, false, {}, t)
  }

  /** What stopping the session on socket `k`, graph `k`, emits. */
  function StopEffects(k: nat): seq<Out> {
    [CloseRequest(k), ProcessorDisconnected(k), SourceDisconnected(k), ContextClosed(k)]
  }

  /** Start, then socket 0 opens and waits for the microphone. */
  const Prompting: State :=
    State([Open], [], None, None, None, None, false, {0}, [Handshake(0)])

  lemma StartAndPrompt()
    ensures Step(Step(Init, ClickStart), SocketOpened(0)) == Prompting
  {
  }

  lemma StartAndOpen()
    ensures Step(Step(Step(Init, ClickStart), SocketOpened(0)), MicResolved(0, true)) == Recording([Handshake(0)])
  {
    StartAndPrompt();
    assert Prompting.awaitingMic - {0} == {};
  }

  lemma SendWhileRecording(t: seq<Out>, b: Buffer)
    ensures Step(Recording(t), AudioReady(0, b)) == Recording(t + [Frame(0, Quantized(b))])
  {
  }

  lemma SpeakWhileRecording(t: seq<Out>, text: string)
    requires text != ""
    ensures Step(Recording(t), MessageArrived(0, Some(ReplyDocument(text)))) == Recording(t + [Speak(JString(text))])
  {
    SpeaksStringReply(text);
  }

  lemma StopWhileRecording(t: seq<Out>)
    ensures Step(Recording(t), ClickStop) == Stopped(t + StopEffects(0))
  {
  }

  /**
   * The end-to-end session: start, open, handshake, microphone granted, three
   * frames sent in capture order, one reply spoken verbatim, then stop closes
   * the socket and releases the processor, the source and the context.
   */
  lemma EndToEnd(b1: Buffer, b2: Buffer, b3: Buffer)
    ensures
      var connected := Step(Step(Step(Init, ClickStart), SocketOpened(0)), MicResolved(0, true));
      var captured := Step(Step(Step(connected, AudioReady(0, b1)), AudioReady(0, b2)), AudioReady(0, b3));
      var s := Step(Step(captured, MessageArrived(0, Some(ReplyDocument("breathe in")))), ClickStop);
      && s.trace == [Handshake(0), Frame(0, Quantized(b1)), Frame(0, Quantized(b2)), Frame(0, Quantized(b3)),
                     Speak(JString("breathe in")), CloseRequest(0),
                     ProcessorDisconnected(0), SourceDisconnected(0), ContextClosed(0)]
      && s.sockets == [Closing]
      && s.graphs == [Graph(0, false)]
      && !s.isRecording && NoAudioRefs(s) && s.wsRef == Some(0)
  {
    var t1 := [Handshake(0)];
    var t2 := t1 + [Frame(0, Quantized(b1))];
    var t3 := t2 + [Frame(0, Quantized(b2))];
    var t4 := t3 + [Frame(0, Quantized(b3))];
    var t5 := t4 + [Speak(JString("breathe in"))];
    StartAndOpen();
    SendWhileRecording(t1, b1);
    SendWhileRecording(t2, b2);
    SendWhileRecording(t3, b3);
    SpeakWhileRecording(t4, "breathe in");
    StopWhileRecording(t5);
    NineEntries(Handshake(0), Frame(0, Quantized(b1)), Frame(0, Quantized(b2)), Frame(0, Quantized(b3)),
                Speak(JString("breathe in")), StopEffects(0));
  }

  /** Appending five entries one at a time and then four more spells out the nine-entry trace. */
  lemma NineEntries(a: Out, b: Out, c: Out, d: Out, e: Out, rest: seq<Out>)
    requires |rest| == 4
    ensures [a] + [b] + [c] + [d] + [e] + rest == [a, b, c, d, e, rest[0], rest[1], rest[2], rest[3]]
  {
  }

  /** The recording session after the server started closing socket 0, with trace `t`. */
  function ServerClosing(t: seq<Out>): State {
    State([Closing], [Graph(0, true)], Some(0), Some(0), Some(0), Some(0), true, {}, t)
  }

  lemma ServerStartsClosing(t: seq<Out>)
    ensures Step(Recording(t), SocketClosing(0)) == ServerClosing(t)
  {
  }

  lemma ClosingStops(t: seq<Out>)
    ensures Step(ServerClosing(t), ClickStop) == Stopped(t + Released(ServerClosing(t)))
  {
    var s := ServerClosing(t);
    assert CloseStored(s) == s;
  }

  /**
   * Once the server starts the closing handshake, the socket is closing: the
   * capture callback drops every frame, an arriving reply is not spoken, and
   * stop sends no close but releases the audio.
   */
  lemma ServerCloseWhileRecording(b: Buffer, text: string)
    ensures
      var s := Step(Step(Step(Step(Init, ClickStart), SocketOpened(0)), MicResolved(0, true)), SocketClosing(0));
      && s.sockets == [Closing] && s.isRecording
      && Step(s, AudioReady(0, b)) == s
      && Step(s, MessageArrived(0, Some(ReplyDocument(text)))) == s
      && Step(s, ClickStop).trace
           == [Handshake(0), ProcessorDisconnected(0), SourceDisconnected(0), ContextClosed(0)]
  {
    StartAndOpen();
    ServerStartsClosing([Handshake(0)]);
    ClosingStops([Handshake(0)]);
    assert Released(ServerClosing([Handshake(0)]))
        == [ProcessorDisconnected(0), SourceDisconnected(0), ContextClosed(0)];
  }

  /** Socket 0 closed during the microphone prompt, which then granted access. */
  const RecordingOnClosed: State :=
    State([Closed], [Graph(0, true)], Some(0), Some(0), Some(0), Some(0), true, {}, [Handshake(0)])

  lemma CloseThenGrant()
    ensures Step(Step(Prompting, SocketClosed(0)), MicResolved(0, true)) == RecordingOnClosed
  {
    var closed := State([Closed], [], None, None, None, None, false, {0}, [Handshake(0)]);
    assert Step(Prompting, SocketClosed(0)) == closed;
    assert closed.awaitingMic - {0} == {};
  }

  /**
   * The open handler does not look at the socket again after the microphone
   * prompt: when the socket closes while the prompt is showing, the grant
   * still stores the closed socket, builds its capture graph and sets
   * `isRecording`.  Every frame is then dropped, and stop sends no close but
   * releases the audio.
   */
  lemma CloseDuringPrompt(b: Buffer)
    ensures
      var s := Step(Step(Step(Step(Init, ClickStart), SocketOpened(0)), SocketClosed(0)), MicResolved(0, true));
      && s.isRecording && s.wsRef == Some(0) && s.sockets == [Closed]
      && s.graphs == [Graph(0, true)]
      && Step(s, AudioReady(0, b)) == s
      && Step(s, ClickStop).trace == [Handshake(0), ProcessorDisconnected(0), SourceDisconnected(0), ContextClosed(0)]
  {
    StartAndPrompt();
    CloseThenGrant();
    ClosedRecordingDropsFrames(b);
    ClosedRecordingStops();
  }

  lemma ClosedRecordingDropsFrames(b: Buffer)
    ensures Step(RecordingOnClosed, AudioReady(0, b)) == RecordingOnClosed
  {
  }

  lemma ClosedRecordingStops()
    ensures Step(RecordingOnClosed, ClickStop).trace
         == [Handshake(0), ProcessorDisconnected(0), SourceDisconnected(0), ContextClosed(0)]
  {
    var s := RecordingOnClosed;
    assert CloseStored(s) == s;
    var r := Teardown(s);
    assert Released(s) == [ProcessorDisconnected(0), SourceDisconnected(0), ContextClosed(0)];
    assert r.trace == s.trace + Released(s);
  }

  /**
   * A refused microphone ends the open handler after the handshake: nothing
   * is stored and nothing records, so the start button is offered again,
   * and a second start opens another socket beside the first, which stays
   * open.
   */
  lemma MicrophoneRefused()
    ensures
      var s := Step(Step(Step(Init, ClickStart), SocketOpened(0)), MicResolved(0, false));
      && s.trace == [Handshake(0)]
      && s.sockets == [Open]
      && s.wsRef == None && !s.isRecording
      && NoAudioRefs(s) && s.graphs == []
      && Step(s, ClickStart).sockets == [Open, Connecting]
  {
    StartAndPrompt();
    assert Prompting.awaitingMic - {0} == {};
  }

  /** After a stop (trace `t`), a second session on socket 1 is recording. */
  function Restarted(t: seq<Out>): State {
    State([Closing, Open], [Graph(0, false), Graph(1, true)], Some(1), Some(1), Some(1), Some(1), true, {},
          t + [Handshake(1)])
  }

  lemma Restart(t: seq<Out>)
    ensures Step(Step(Step(Stopped(t), ClickStart), SocketOpened(1)), MicResolved(1, true)) == Restarted(t)
  {
    var prompting := State([Closing, Open], [Graph(0, false)], Some(0), None, None, None, false, {1},
                           t + [Handshake(1)]);
    assert Step(Step(Stopped(t), ClickStart), SocketOpened(1)) == prompting;
    assert prompting.awaitingMic - {1} == {};
  }

  /** Two starts clicked before either socket opened. */
  const TwoPending: State :=
    State([Connecting, Connecting], [], None, None, None, None, false, {}, [])

  /** `TwoPending` after socket 0 opened and the microphone was granted. */
  const FirstOfTwo: State :=
    State([Open, Connecting], [Graph(0, true)], Some(0), Some(0), Some(0), Some(0), true, {}, [Handshake(0)])

  lemma TwoStarts()
    ensures Step(Step(Init, ClickStart), ClickStart) == TwoPending
  {
  }

  lemma FirstOfTwoRecords()
    ensures Step(Step(TwoPending, SocketOpened(0)), MicResolved(0, true)) == FirstOfTwo
  {
    var prompting := State([Open, Connecting], [], None, None, None, None, false, {0}, [Handshake(0)]);
    assert Step(TwoPending, SocketOpened(0)) == prompting;
    assert prompting.awaitingMic - {0} == {};
  }

  lemma SecondOpensAfterStop(t: seq<Out>)
    ensures
      var stopped := State([Closing, Connecting], [Graph(0, false)], Some(0), None, None, None, false, {}, t);
      Step(Step(stopped, SocketOpened(1)), MicResolved(1, true)) == Restarted(t)
  {
    var prompting := State([Closing, Open], [Graph(0, false)], Some(0), None, None, None, false, {1},
                           t + [Handshake(1)]);
    assert prompting.awaitingMic - {1} == {};
  }

  /**
   * Stop closes only the stored socket and does not cancel a connection still
   * pending: with two starts clicked before the first socket opened,
   * stopping the first session leaves the second connecting, and when it
   * opens and the microphone is granted the component records again without
   * another click on start.
   */
  lemma StopLeavesPendingSocket()
    ensures
      var first := Step(Step(Step(Step(Init, ClickStart), ClickStart), SocketOpened(0)), MicResolved(0, true));
      var s := Step(Step(Step(first, ClickStop), SocketOpened(1)), MicResolved(1, true));
      && s.isRecording && s.wsRef == Some(1)
      && s.sockets == [Closing, Open]
      && s.trace == [Handshake(0)] + StopEffects(0) + [Handshake(1)]
  {
    TwoStarts();
    FirstOfTwoRecords();
    FirstOfTwoStops();
    SecondOpensAfterStop([Handshake(0)] + StopEffects(0));
  }

  lemma FirstOfTwoStops()
    ensures Step(FirstOfTwo, ClickStop)
         == State([Closing, Connecting], [Graph(0, false)], Some(0), None, None, None, false, {},
                  [Handshake(0)] + StopEffects(0))
  {
  }

  /**
   * The close handler tears down whatever audio the refs hold: when a stopped
   * session's socket finally closes after a new session has started, the new
   * session's capture is disconnected and recording ends while its socket
   * stays open.
   */
  lemma StaleCloseEndsNewerSession()
    ensures
      var first := Step(Step(Step(Step(Init, ClickStart), SocketOpened(0)), MicResolved(0, true)), ClickStop);
      var second := Step(Step(Step(first, ClickStart), SocketOpened(1)), MicResolved(1, true));
      var s := Step(second, SocketClosed(0));
      && s.sockets == [Closed, Open]
      && s.wsRef == Some(1)
      && s.graphs == [Graph(0, false), Graph(1, false)]
      && !s.isRecording && NoAudioRefs(s)
  {
    var t := [Handshake(0)] + StopEffects(0);
    StartAndOpen();
    StopWhileRecording([Handshake(0)]);
    Restart(t);
    StaleClose(t);
  }

  lemma StaleClose(t: seq<Out>)
    ensures var s := Step(Restarted(t), SocketClosed(0));
      && s.sockets == [Closed, Open]
      && s.wsRef == Some(1)
      && s.graphs == [Graph(0, false), Graph(1, false)]
      && !s.isRecording && NoAudioRefs(s)
  {
  }

  /** Two sessions started before either socket opened, both opened and granted. */
  const BothOpen: State :=
    State([Open, Open], [Graph(0, true), Graph(1, true)], Some(1), Some(1), Some(1), Some(1), true, {},
          [Handshake(0), Handshake(1)])

  /** `BothOpen` after stop: only the second session's audio was released. */
  const LeakedStop: State :=
    State([Open, Closing], [Graph(0, true), Graph(1, false)], Some(1), None, None, None, false, {},
          [Handshake(0), Handshake(1)] + StopEffects(1))

  lemma BothOpenFromTwoPending()
    ensures
      var opened2 := Step(Step(TwoPending, SocketOpened(0)), SocketOpened(1));
      Step(Step(opened2, MicResolved(0, true)), MicResolved(1, true)) == BothOpen
  {
    var both := State([Open, Open], [], None, None, None, None, false, {0, 1}, [Handshake(0), Handshake(1)]);
    assert Step(Step(TwoPending, SocketOpened(0)), SocketOpened(1)) == both;
    var one := State([Open, Open], [Graph(0, true)], Some(0), Some(0), Some(0), Some(0), true, {1},
                     [Handshake(0), Handshake(1)]);
    assert both.awaitingMic - {0} == {1};
    assert Step(both, MicResolved(0, true)) == one;
    assert one.awaitingMic - {1} == {};
  }

  lemma StopLeavesFirstGraph()
    ensures Step(BothOpen, ClickStop) == LeakedStop
  {
  }

  /**
   * Two starts before either socket opens build two capture graphs; the refs
   * keep only the second, so stop leaves the first processor running and its
   * frames still reach the first, still open, socket.
   */
  lemma SecondStartLeaksFirstCapture(b: Buffer)
    ensures
      var opened2 := Step(Step(Step(Step(Init, ClickStart), ClickStart), SocketOpened(0)), SocketOpened(1));
      var both := Step(Step(opened2, MicResolved(0, true)), MicResolved(1, true));
      var s := Step(Step(both, ClickStop), AudioReady(0, b));
      && s.sockets == [Open, Closing]
      && s.graphs == [Graph(0, true), Graph(1, false)]
      && s.trace == LeakedStop.trace + [Frame(0, Quantized(b))]
  {
    TwoStarts();
    BothOpenFromTwoPending();
    StopLeavesFirstGraph();
  }

}
