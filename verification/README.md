# Voice therapy session — a Dafny model

The voice-therapy component streams microphone audio to a speech service over a
WebSocket and speaks the service's replies aloud. This project models its core,
`src/components/VoiceTherapy.tsx`, in two parts:

- **The capture-side transcoder** `convertFloat32ToInt16` (module `Pcm`). Each
  Float32 sample is clamped to [-1, 1] with `Math.max`/`Math.min`. A negative
  sample is scaled by 0x8000, any other by 0x7fff. The product is stored into an
  `Int16Array`, which applies ECMA-262's ToInt16: truncate toward zero, then
  wrap modulo 2^16. Samples are `Finite(real) | PosInf | NegInf | NaN`, so
  NaN propagation through `Math.min`/`Math.max` and IEEE `<` are explicit. The
  2^16 wrap is written out, and a lemma shows it never fires after the clamp.
- **The session lifecycle** (module `Session`). There is one pure step function
  per handler: start, the socket's open/message/close/error handlers, the audio
  callback, stop and `cleanupAudio`. The open handler suspends at its `await` on
  the microphone prompt, so it is two steps. `OnOpen` sends the handshake, and
  `OnMicResolved` runs the rest once the prompt settles. Any other callback may
  run in between. They all act on an immutable `State`, which holds:
  - every socket created so far with its ready state;
  - every capture graph built so far, each bound to the socket its closure
    captured;
  - the four refs and the `isRecording` flag;
  - the sockets whose open handler is waiting on the prompt;
  - an append-only trace of the visible effects. These are handshakes, audio
    frames, close requests, utterances, node disconnects and context closes.

  `Step` dispatches one click or browser callback. A click counts only on the
  button that is rendered: stop while recording, start otherwise. `Run` folds a
  sequence of events.

The reply rule `data.reply && data.reply.text` is modelled in module `Reply`. It
works on parsed JSON values, with JavaScript truthiness and property reads. A
read on `null` throws and stops the handler.

Module `SessionProofs` proves a reachable-state invariant (`Valid`) that is
preserved by every step. From it follows what every run of the component
satisfies:

- every audio frame follows its own socket's start handshake;
- no socket is greeted twice;
- every frame is one full 4096-sample buffer of int16 values;
- `isRecording` is up only while all refs are stored, with a live processor
  that feeds the stored socket, and that socket has been greeted.

It does not follow that the stored socket is still open. A socket that closes
during the microphone prompt is stored anyway, and recording starts on it
(`SessionProofs.CloseDuringPrompt`).

The module also proves single-step laws: cleanup and stop are idempotent, and
error behaves like close. Concrete runs show the corner cases of the code as
written.

The code as written has these properties, and the model keeps them:

- Samples are truncated toward zero, not rounded.
- `start` has no guard of its own. The start button stays on screen until
  recording begins, so a second click opens a second socket.
- A refused microphone leaves the open socket and the handshake in place, with
  no teardown.
- After the microphone prompt the open handler stores its socket and sets
  `isRecording` without checking the socket's state.
- Stop closes only the stored socket. A connection still pending opens later
  and starts recording again (`SessionProofs.StopLeavesPendingSocket`).

## Model

| member | source | states |
|---|---|---|
| Pcm.ConvertFloat32ToInt16 | src/components/VoiceTherapy.tsx:112-122 | The output has the input's length, and each position holds the quantisation of the sample at that position. |
| Pcm.Quantized | src/components/VoiceTherapy.tsx:113-119 | A frame has as many samples as the buffer, and every sample lies in the int16 range. |
| Pcm.Clamp | src/components/VoiceTherapy.tsx:117 | The JS clamp gives NaN exactly for NaN input and the real clamp to [-1, 1] for finite input. -Infinity maps to -1 and +Infinity to 1. |
| Pcm.ToInt16 | src/components/VoiceTherapy.tsx:118 | The Int16Array store lands in [-32768, 32767]. It maps non-finite values to 0 and keeps the truncation's residue modulo 2^16. |
| Pcm.Quantize | src/components/VoiceTherapy.tsx:117-118 | One sample's stored value always lies in the int16 range; the lemmas below fix its value for every input. |
| Pcm.ToInt16NoWrap | src/components/VoiceTherapy.tsx:118 | A value already within int16 range is stored as its truncation, with no wrap-around. |
| Pcm.QuantizeFinite | src/components/VoiceTherapy.tsx:117-118 | A finite sample stores as its clamped, side-scaled value truncated toward zero. |
| Pcm.QuantizeSaturates | src/components/VoiceTherapy.tsx:117-118 | Every output is in int16 range. Inputs at or below -1 (and -Infinity) saturate at -32768, inputs at or above 1 (and +Infinity) at 32767. NaN stores as 0. |
| Pcm.QuantizeBoundaries | src/components/VoiceTherapy.tsx:117-118 | -1 maps to -32768, 1 to 32767 and 0 to 0. |
| Pcm.QuantizeMonotone | src/components/VoiceTherapy.tsx:117-118 | For ordered non-NaN samples, infinities included, the quantised values are ordered the same way. |
| Pcm.QuantizeSign | src/components/VoiceTherapy.tsx:117-118 | The stored value is negative iff the sample is at most -1/32768, and positive iff it is at least 1/32767. Samples strictly between those store as 0. |
| Reply.SpokenText | src/components/VoiceTherapy.tsx:64-71 | A value is spoken only if the document carries an object `reply` whose `text` is that truthy value. Whenever such a reply exists, something is spoken. |
| Reply.SpeaksStringReply | src/components/VoiceTherapy.tsx:68-70 | A non-empty string reply is spoken verbatim; an empty one speaks nothing. |
| Reply.NonReplySpeaksNothing | src/components/VoiceTherapy.tsx:64-68 | A parse failure and every document that is not an object (null, boolean, number, string, array) speak nothing. |
| Session.StartVoiceTherapy | src/components/VoiceTherapy.tsx:12-22 | Start adds one connecting socket and changes no ref, graph, flag or trace. |
| Session.OnOpen | src/components/VoiceTherapy.tsx:24-36 | Only a connecting socket opens. It sends the start handshake and then waits on the microphone prompt; nothing else changes. |
| Session.OnMicResolved | src/components/VoiceTherapy.tsx:36-59 | When a waiting prompt is granted, a live graph bound to that socket is built, all four refs are stored and `isRecording` is set, whatever state the socket is now in. A refusal ends the handler with nothing stored. No other socket and no trace entry changes. |
| Session.OnAudioProcess | src/components/VoiceTherapy.tsx:44-51 | Only the trace changes. It grows by exactly one frame, the quantised buffer on the captured socket, iff the processor is live and that socket is open. |
| Session.OnMessage | src/components/VoiceTherapy.tsx:63-72 | At most one utterance per message. It carries the reply's text, and it is emitted iff the socket is open, so the browser dispatches the message, and the reply rule holds. |
| Session.CleanupAudio | src/components/VoiceTherapy.tsx:96-110 | All three audio refs are cleared, and each stored handle is released once, in processor, source, context order. Only the stored processor goes dead. `wsRef`, `isRecording` and the sockets are untouched. With nothing stored it is the identity. |
| Session.Teardown | src/components/VoiceTherapy.tsx:76-77 | The tail shared by close, error and stop (also lines 82-83 and 91-92): the audio refs are cleared and `isRecording` is lowered. Each stored handle is released once, only the stored processor goes dead, and sockets, `wsRef` and pending prompts are untouched. |
| Session.OnClose | src/components/VoiceTherapy.tsx:74-78 | The socket becomes closed. The refs' handles are released, each once and in cleanup order, and only the stored processor goes dead. `isRecording` is cleared and `wsRef` is kept. |
| Session.OnError | src/components/VoiceTherapy.tsx:80-84 | A failed socket ends closed. The error and close handlers together release each stored handle exactly once, silence only the stored processor, clear `isRecording` and keep `wsRef`. |
| Session.StopVoiceTherapy | src/components/VoiceTherapy.tsx:87-94 | A close request goes out, first and on the stored socket, iff that socket is stored and open. It is followed by exactly one release per stored handle. Only the stored processor goes dead, the audio refs and `isRecording` are cleared, and `wsRef` is kept. |
| Session.Step | src/components/VoiceTherapy.tsx:128-142 | A click on the button that is not rendered does nothing: start while recording, stop while not. |
| SessionProofs.CleanupIdempotent | src/components/VoiceTherapy.tsx:96-110 | A second cleanup changes nothing. |
| SessionProofs.StopIdempotent | src/components/VoiceTherapy.tsx:87-94 | A second stop changes nothing; in particular it sends no second close. |
| SessionProofs.ErrorIsClose | src/components/VoiceTherapy.tsx:74-84 | The error handler followed by the close handler has the same effect as the close handler alone. |
| SessionProofs.FrameDroppedUnlessOpen | src/components/VoiceTherapy.tsx:48-50 | A frame captured while its socket is connecting, closing or closed is dropped, and the state is unchanged. |
| SessionProofs.RunKeepsValid | src/components/VoiceTherapy.tsx:24-110 | Every sequence of clicks and callbacks preserves the session invariant. |
| SessionProofs.ReachableSessionsBehave | src/components/VoiceTherapy.tsx:32-59 | In every reachable state: each frame follows its socket's handshake; no socket is greeted twice; frames are full int16 buffers; `isRecording` implies all refs are stored, with a live processor feeding the stored socket, which was greeted. |
| SessionProofs.EndToEnd | src/components/VoiceTherapy.tsx:24-110 | Start, open, three captures, one reply and stop produce, in this order: the handshake, the three frames, the utterance, the close request, then the processor, source and context releases. |
| SessionProofs.CloseDuringPrompt | src/components/VoiceTherapy.tsx:36-59 | If the socket closes during the microphone prompt and the prompt is then granted, the closed socket is stored and `isRecording` is set. Every frame is dropped, and stop sends no close but still releases the audio. |
| SessionProofs.ServerCloseWhileRecording | src/components/VoiceTherapy.tsx:87-92 | Once the server starts closing the socket, frames are dropped and replies are no longer dispatched. Stop then skips the close, because the socket is not open, but still releases the audio. |
| SessionProofs.StopLeavesPendingSocket | src/components/VoiceTherapy.tsx:87-90 | With two starts clicked before the first socket opened, stop closes only the first. The second opens later and recording starts again without another click. |
| SessionProofs.MicrophoneRefused | src/components/VoiceTherapy.tsx:32-36 | A refused microphone leaves only the handshake. No socket or audio ref is stored, no capture graph is built, and nothing records. The start button is offered again, and clicking it opens a second socket while the first stays open. |
| SessionProofs.StaleCloseEndsNewerSession | src/components/VoiceTherapy.tsx:74-78 | The old socket's late close tears down a newer session's capture, and its open socket stays stored. |
| SessionProofs.SecondStartLeaksFirstCapture | src/components/VoiceTherapy.tsx:53-57 | After two starts the refs hold only the second graph. Stop leaves the first processor live, and its frames still reach the first, still open, socket. |

## Left out

- Transport and platform internals are parameters, not models. This covers the
  WebSocket connection, `getUserMedia`, the Web Audio graph and
  `speechSynthesis`. Their outcomes arrive as events: a socket opens, the
  microphone prompt is granted or refused, a capture buffer is ready, a message
  arrives, the server starts closing a socket, a socket closes or fails. A
  message reaches the handler only while its socket is open.
- `JSON.parse` is not modelled. The message handler receives its outcome, with
  a parse failure meaning the handler throws and nothing is spoken.
- The API key and config id from the environment, the URL built from them, and
  all `console` logging are left out; they have no effect on the state.
- Session.OnMessage: an utterance records the JSON value of `text`, not its
  conversion to a string. For a truthy non-string `text` (a number or an
  object), the spoken string is not modelled.
- Pcm.Quantize: negative zero is not distinguished from zero. Both store as 0.
- The byte layout of the `ArrayBuffer` sent on the socket is not modelled. A
  frame is the sequence of int16 values it holds.
- The stream returned by `getUserMedia` is not modelled. The code never stops
  its tracks; stopping closes the context and disconnects the nodes only.
- Reply.Get models only the two keys the handler reads ("reply" and "text").
  Inherited properties of JavaScript values (for example a string's `length`)
  are not modelled.
- The rendered JSX is modelled only as the rule that a click reaches the handler
  of the button on screen. Its markup and the status text are left out.
- The other pages and components of the application are not part of this
  model.
