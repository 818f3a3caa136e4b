# Live transcription relay: a verified model

The relay has two halves. A client captures microphone audio and streams it
over TCP, reconnecting after network errors. A server receives each client's
audio and passes it to a speech-recognition engine. For every client the
server also shows a bubble that glows while the client is speaking, and it
turns the recognised words into a running, punctuated transcript.

This project models the logic of both halves in Dafny and proves what each
part promises:

- **`Sentences`**: the server's per-client sentence buffer (`SentenceBuffer.add_word`).
  It looks back one token: strip the token, capitalise it at a sentence
  start, decide the leading space, emit the fragment, and remember whether
  the token ended a sentence. A class with the one flag is proved against
  `Render`, the pure rendering of a token sequence.
- **`Handshake`**: the `name|lang` message the client sends and the server's
  strip-and-split parse with its fallbacks. Also a round trip.
- **`Activity`**: the speaking detector inside `SocketStream.read`. It reads
  every tenth 16-bit sample and compares the RMS with 150, stated over the
  integers as `10 * sum_squares > 22500 * count`.
- **`Session`**: the server's `ClientHandler` (handshake, transcript
  handling, `cleanup`) and `ServerThread` (accept loop, `stop`), with events
  appended to a log (`Events`).
- **`Pulse`**: the `ClientWidget` glow, a bounded oscillator driven by a 50 ms
  timer.
- **`Level`**: the microphone level the client shows, including the NumPy
  `int16` wrap-around of `abs(-32768)` (see Findings).
- **`Streamer`**, **`StreamerProps`** and **`Client`**: the client's capture
  thread. `Streamer.Exec` is the whole run of `_run` as a function over an
  oracle. The oracle lists the outcome of each blocking call (connect, send,
  open, read) and the `stop()`/`set_mute()` calls the GUI thread makes
  meanwhile. `StreamerProps` proves what a run guarantees. `Client.AudioStreamer`
  is the class with the source's fields and nested loops, and
  `AudioStreamer.Run` is proved to end in exactly the state `Exec` computes.
  Both report the corrected microphone level, not the wrapped one (see
  Findings); on frames without a -32768 sample the two agree
  (`Streamer.FrameLevelAgrees`).

Two behaviours of the code worth noting:

- After `.`, a token such as `it's` IS capitalised (`" It's"`). The code
  capitalises any alphanumeric first character at a sentence start
  (server.py:80-81).
- An empty or all-whitespace handshake payload names the client `""` in
  language `en`. The port-based name `Client-<port>` is used only when
  receiving or decoding raises (server.py:263-273).

## Model

| member | source | states |
|---|---|---|
| Text.Upper | server.py:81 | `upper()` on an ASCII character: lower-case letters map to their capitals, every other character is unchanged |
| Text.StripSlice | server.py:76 | `strip()` keeps a contiguous slice whose ends are not whitespace and removes only whitespace on both sides |
| Text.StripEmptyIff | server.py:76-77 | a token strips to the empty string exactly when every character is whitespace |
| Text.Decimal | server.py:246 | the f-string rendering of a port: non-empty, all digits, no leading zero, and the digits denote the port (`DigitsValue`) |
| Sentences.FormatBlank | server.py:76-77 | `Format` on a blank token emits nothing and leaves `new_sentence` unchanged |
| Sentences.CapitaliseShape | server.py:80-81 | capitalisation changes at most the first character, upper-casing it only at a sentence start when it is alphanumeric |
| Sentences.FormatWord | server.py:74-109 | `Format` on a non-blank token emits one fragment, `prefix + word`; the prefix is empty iff the word is one of `. , ! ? : ; ) ] } "` or starts with `'`, and one space otherwise; the new flag holds iff the word ends in `.`, `!` or `?` |
| Sentences.FormatState | server.py:105-109 | the flag `Format` gives after a non-blank token is whether that token ends a sentence, whatever the flag was |
| Sentences.RenderAppend | server.py:251-258 | feeding tokens in two batches (two recognition messages) gives the same fragments and flag as one batch |
| Sentences.RenderLookback | server.py:72-109 | one fragment per non-blank token; the final flag depends only on the last non-blank token (initially true) |
| Sentences.CapitalisedAfterTerminator | server.py:80-109 | a token with an alphanumeric first character that follows one ending a sentence is emitted capitalised, whatever came before |
| Sentences.Example | server.py:66-109 | a fresh buffer fed `hello world . it's fine` emits `" Hello"," world","."," It's"," fine"` |
| Sentences.SentenceBuffer.constructor | server.py:68-72 | a new buffer starts a sentence |
| Sentences.SentenceBuffer.AddWord | server.py:74-109 | one call emits what `Format` gives for the token and the current flag, and sets the flag to its result |
| Sentences.SentenceBuffer.ForceFlush | server.py:111-112 | `force_flush` changes nothing |
| Events.TranscriptSignals.Emit | server.py:114-121 | an emitted signal is appended to the event log |
| Handshake.SplitFirst | server.py:267 | `split("\|", 1)`: the parts rejoin to the input around the first `\|`, the first part has no `\|`; none iff no `\|` occurs |
| Handshake.SplitFirstUnique | server.py:267 | the split at the first separator is the only one with a separator-free head |
| Handshake.FallbackName | server.py:246 | the default name is `Client-` followed by `Decimal(port)`, the decimal digits of the port |
| Handshake.Parse | server.py:263-273 | with a separator, the name and language rejoin to the stripped payload and the name has no `\|`; without, the name is the stripped payload and the language `en`; a failed receive gives `Client-<port>` and `en` |
| Handshake.RoundTrip | client.py:104-105 | `Parse` of `Encode(name, lang)` (`name\|lang`) recovers the client's name and language when the name has no `\|` and no leading whitespace and the language no trailing whitespace |
| Handshake.BlankPayload | server.py:265-270 | a blank payload gives the name `""` and language `en`, not the fallback name |
| Pcm.SampleAt | server.py:321 | little-endian signed 16-bit decoding: in range and congruent to the raw word modulo 65536 |
| Pcm.Samples | client.py:128 | `np.frombuffer(..., int16)`: half as many samples as bytes, the k-th decoded from bytes 2k and 2k+1 |
| Activity.SumOfSquares | server.py:317-322 | the sampling loop computes the sum of squares of the samples at offsets 0, 20, 40, ... that have two bytes |
| Activity.SilenceIsInactive | server.py:315-326 | `IsActive` never holds of an all-zero chunk |
| Activity.LoudIsActive | server.py:315-326 | `IsActive` always holds of a chunk whose every sampled value is above the threshold, though only one sample in ten is read |
| Activity.SampledCount | server.py:319-320 | the loop samples `(len - 2) / 20 + 1` offsets |
| Session.SocketStream.Read | server.py:309-331 | the received bytes are returned untouched (empty on an exception or end of stream), with one activity event for every chunk of at least two bytes |
| Session.ClientHandler.constructor | server.py:241-249 | a new handler is running, named `Client-<port>`, with a buffer of the same name at a sentence start |
| Session.ClientHandler.Handshake | server.py:263-279 | the identity is the parsed one, the buffer takes the name, and the connection and log events are emitted |
| Session.ClientHandler.HandleTranscript | server.py:251-258 | feeding the words in order emits exactly the rendering of the word sequence and leaves its final flag |
| Session.StreamedTranscript | server.py:251-258 | with the activity events of the interleaved socket reads dropped, a session's log is the rendering of all delivered words, in order, and its flag the rendering's final one |
| Session.ClientHandler.Cleanup | server.py:342-354 | always ends not running, closes once and emits the disconnect and log events, on every call |
| Session.ClientHandler.Run | server.py:260-340 | the whole session over the engine's calls interleaved with the socket reads: the connect events; then, call by call, one activity event per chunk of at least two bytes and the transcript fragments of each delivery (`Streamed`); the error line if the session raised; then the farewell. The handler and its buffer carry the parsed name, it ends not running, closed once more, and the buffer's flag is the rendering's final one |
| Session.ServerThread.constructor | server.py:358-363 | a new listener is running with no clients |
| Session.ServerThread.Serve | server.py:365-386 | accepted connections get handlers, in order, until `accept` raises, each fresh, running, never closed, named `Client-<port>` with its buffer at a sentence start; nothing is accepted once the flag is clear; the listening socket is closed once exactly when `accept` raised or the flag was found clear |
| Session.ServerThread.Stop | server.py:388-393 | clears the flag; closes the listening socket once if it was created and not otherwise; every handler ever accepted is stopped, closed once more, keeps its name and announces its disconnection again, in order |
| Session.ServerThread.CleanupAll | server.py:392-393 | every handler ever accepted, in order, is stopped, closed once more, keeps its name and announces its disconnection again, even one that already finished |
| Pulse.PulseStep | server.py:150-157 | one tick keeps the glow in [0, 100] in steps of 10, moves it by one step or turns round at the bound it heads for, with the direction pointing inwards at the bounds |
| Pulse.TicksValid | server.py:150-157 | any number of ticks keeps the glow reachable |
| Pulse.Rising | server.py:150-157 | from the start, the glow rises by 10 per tick for 10 ticks |
| Pulse.Falling | server.py:150-157 | it then falls by 10 per tick for 10 ticks |
| Pulse.PulsePeriod | server.py:143-157 | the glow returns to its initial state after exactly 20 ticks (one second at 50 ms) and not before |
| Pulse.ClientWidget.constructor | server.py:125-136 | a new bubble is idle, dark, and its glow will rise first |
| Pulse.ClientWidget.SetActive | server.py:138-148 | nothing changes unless the state changes; activating starts the 50 ms timer; deactivating stops it and clears the glow but keeps the direction |
| Pulse.ClientWidget.UpdatePulse | server.py:150-158 | one `update_pulse` is a `PulseStep` and a repaint |
| Pulse.ClientWidget.Tick | server.py:133-134 | the timer fires `update_pulse` only while the bubble is active, so an idle bubble stays dark and is not repainted; an active one is repainted once |
| Level.Abs16 | client.py:129 | `np.abs` on an `int16` stays an `int16`, is the magnitude modulo 65536, and is negative exactly for -32768 |
| Level.PeakAsWritten | client.py:129 | `np.max(np.abs(...))` as written is the largest wrapped magnitude and one of them |
| Level.Peak | client.py:129 | the corrected peak is the largest `Magnitude`, one of them, and at most full scale |
| Level.LevelNumerator | client.py:130 | `min(1.0, peak / 32768)` never exceeds 1 and is the peak itself below full scale |
| Level.LevelOf | client.py:128-130 | the level lies in [0, 1] and is the loudest sample's magnitude over full scale |
| Level.PeakAgrees | client.py:129 | with no -32768 sample, the peak as written equals the corrected one |
| Level.NegativeLevelAsWritten | client.py:128-130 | the frame `00 80` (one sample -32768) reads as level -1.0 as written, 1.0 corrected |
| Level.QuietPeakAsWritten | client.py:129 | the frame `[-32768, 5]` reads as peak 5 as written, full scale corrected |
| Streamer.Drain | client.py:84-88 | the GUI thread's calls before the next outcome only change `running`, `muted` and the queue, and leave an outcome (or nothing) at its head |
| Streamer.DrainEffect | client.py:84-88 | after `k` leading control calls, the queue is what follows them, `running` is cleared iff a `stop()` was among them, and `muted` is the last `set_mute` value, if any (`MuteAfter`) |
| Streamer.DrainInputs | client.py:84-88 | the control calls before the next outcome are all consumed |
| Streamer.DrainFlags | client.py:84-88 | `running` is cleared iff a `stop()` came before the next outcome, and `muted` is the last toggle's |
| Streamer.Take | client.py:100 | a blocking call consumes exactly one outcome, or finds none, and changes nothing the thread owns |
| Streamer.TakeEffect | client.py:100 | a blocking call returns the first outcome after the leading control calls and leaves what follows it; it finds none only when no outcome is left, and the flags are as `DrainEffect` says |
| Streamer.CloseEffects | client.py:150-159 | the stream closes iff set; audio iff set and no stream close raised; the socket iff set and no earlier close raised |
| Streamer.Cleanup | client.py:149-163 | `_cleanup` always leaves all three handles unset |
| Streamer.CleanupIdempotent | client.py:149-163 | a second `_cleanup` does nothing |
| Streamer.Abort | client.py:136-144 | a network error goes back to the outer loop, any other exception ends the run, a call never answered blocks |
| Streamer.OuterStep | client.py:93-120 | an outer iteration consumes an outcome, or ends or blocks the run |
| Streamer.FrameLevel | client.py:127-131 | the level of a frame is at most full scale |
| Streamer.FrameLevelIsLevel | client.py:127-131 | the level reported for a frame is the corrected level of its 16-bit samples: the loudest magnitude over full scale |
| Streamer.FrameLevelAgrees | client.py:127-131 | on a frame with no -32768 sample, the reported level is exactly what `np.max(np.abs(...))` as written gives |
| Streamer.InnerStep | client.py:122-134 | a frame-loop iteration consumes an outcome or leaves the frame loop |
| Streamer.Step | client.py:93-144 | every iteration makes progress, so the run terminates |
| Streamer.Exec | client.py:90-147 | `_run` always stops, either finished or blocked on a call the oracle never answers |
| StreamerProps.ExecGood | client.py:90-147 | a whole run keeps the audio order, only appends to the trace, and ends finished or blocked |
| StreamerProps.FinishGood | client.py:146-147 | `Finish` ends the run `Good`: after `_cleanup`, `finished` is emitted once, last, with every handle released; the trace only grows |
| StreamerProps.RetryGood | client.py:136-140 | `Retry`, the network-error handler, goes back to the loop head with the run `Good`: audio order kept, `finished` not emitted; the trace only grows |
| StreamerProps.AbortGood | client.py:136-144 | a failed or unanswered blocking call, whatever the failure, leaves the run `Good` (audio order kept; if finished, `finished` is last, once, with every handle released) and only appends to the trace |
| StreamerProps.DialledGood | client.py:95-120 | whatever the connect made by `Dial` returns, the rest of the outer `try` (handshake by `Greet`, `OpenAudio`, `StartStreaming`) leaves the run `Good` and only appends to the trace |
| StreamerProps.GreetedGood | client.py:104-120 | whatever the handshake send returns, the rest of the outer `try` leaves the run `Good`, only appending to the trace |
| StreamerProps.OpenedGood | client.py:108-120 | whatever `OpenAudio` returns, the run is left `Good`: on success it enters the frame loop (`StartStreaming`) on a greeted connection; the trace only grows |
| StreamerProps.ShowReady | client.py:127-131 | `Show`, the level report on even counts, keeps the connection greeted and the run in order and unfinished, only appending to the trace |
| StreamerProps.TransmitGood | client.py:133-134 | `Transmit` on a greeted connection leaves the run `Good`, so a frame is only ever sent after its connection's handshake; the trace only grows |
| StreamerProps.SentGood | client.py:134 | whatever `sendall` returns, `Sent` leaves the run `Good`, only appending to the trace |
| StreamerProps.ForwardGood | client.py:126-134 | `Forward` (level on even counts, then transmission) leaves the run `Good`, including when the level cannot be computed; the trace only grows |
| StreamerProps.CapturedGood | client.py:123-134 | whatever the read returns, `Captured` leaves the run `Good`, only appending to the trace |
| StreamerProps.GreetedMeans | client.py:100-105 | the trace reader's `greeted` flag holds iff a handshake was sent with no connect since |
| StreamerProps.OrderedMeans | client.py:104-134 | the `ordered` flag holds iff every audio frame was sent after its connection's handshake |
| StreamerProps.RunGuarantees | client.py:90-147 | from `start()`: the run ends finished or blocked; every frame follows its connection's handshake; `finished` comes once, last, with every handle released; a blocked run has not finished |
| StreamerProps.DialPrefix | client.py:95-100 | a connection attempt from the loop head stays in the trace |
| StreamerProps.RetryOnce | client.py:136-140 | a connect failing with a network error reports, closes the socket, sleeps 5 s and is back at the loop head |
| StreamerProps.Retries | client.py:91-140 | `n` failed connects in a row give `n` retry cycles and leave the run at the loop head |
| StreamerProps.CyclesAttempts | client.py:95-100 | `n` retry cycles hold `n` connection attempts |
| StreamerProps.RetriesThenConnect | client.py:91-140 | `n` network failures then a successful connect give `n + 1` connection attempts, in that order, in the run's trace |
| StreamerProps.CapturedFrame | client.py:123-134 | a frame once read: the level is reported on even counts, muted or not; the frame is sent exactly when not muted |
| StreamerProps.FrameStep | client.py:122-134 | a frame is read whatever the mute state; muting suppresses only the send |
| StreamerProps.BadFrameIsFatal | client.py:127-147 | a frame whose level cannot be computed is a fatal error: reported once, then cleanup and `finished`, no retry |
| StreamerProps.StoppedFinishes | client.py:93-147 | once `running` is clear, in either loop, the run ends with cleanup and `finished` and reads nothing more |
| StreamerProps.StopDuringRead | client.py:122-134 | `stop()` during a read does not cancel the frame in flight |
| StreamerProps.StopAfterFrame | client.py:84-147 | after that frame, both loops see the flag and the run finishes without reconnecting |
| Client.AudioStreamer.constructor | client.py:67-78 | a new streamer is stopped, unmuted, with no handle set |
| Client.AudioStreamer.Start | client.py:80-82 | `start()` sets `running` and the run then ends as `Exec` computes |
| Client.AudioStreamer.Stop | client.py:84-85 | `stop()` only clears `running` |
| Client.AudioStreamer.SetMute | client.py:87-88 | `set_mute` only sets `muted` |
| Client.AudioStreamer.DrainControls | client.py:84-88 | the queued GUI calls are applied as `Drain` says |
| Client.AudioStreamer.Await | client.py:100 | a blocking call takes its outcome as `Take` says |
| Client.AudioStreamer.CloseHandles | client.py:150-159 | the closes run in order and stop at the first that raises, as `CloseEffects` says |
| Client.AudioStreamer.Cleanup | client.py:149-163 | `_cleanup` leaves the state `Streamer.Cleanup` gives, all handles unset |
| Client.AudioStreamer.Recover | client.py:136-144 | the `except` clauses: network errors retry, other errors report and leave, as `Abort` says |
| Client.AudioStreamer.Say | client.py:95 | emitting a signal appends it to the thread's trace, as `Emit` does |
| Client.AudioStreamer.Dial | client.py:95-100 | announce, create the socket, connect |
| Client.AudioStreamer.SendHandshake | client.py:103-105 | send `name\|lang` |
| Client.AudioStreamer.OpenStream | client.py:106-117 | pause, then create the audio instance and open the stream |
| Client.AudioStreamer.StartStreaming | client.py:119-120 | announce streaming and start counting at 0 |
| Client.AudioStreamer.Establish | client.py:94-120 | the outer `try` up to the frame loop is one `OuterStep` |
| Client.AudioStreamer.Forward | client.py:126-134 | level on even counts, then transmission, as `Streamer.Forward` says |
| Client.AudioStreamer.Transmit | client.py:133-134 | `sendall` only when not muted |
| Client.AudioStreamer.Frame | client.py:123-134 | one pass of the frame loop is one `InnerStep` |
| Client.AudioStreamer.StreamFrames | client.py:122-134 | the frame loop runs on exactly as `Exec` does from the frame-loop head |
| Client.AudioStreamer.Run | client.py:90-147 | `_run` ends in exactly the state `Exec` computes from the outer-loop head, so every `StreamerProps` guarantee holds of it |

## Left out

- The Qt user interface: painting, styles, transcript HTML merging, settings, file export, device listing, and the name-to-widget registry of the server window. Only the glow's state is modelled, not its drawing.
- The speech-recognition engine, its websocket client and its message format. The model takes, as a list of calls (`Session.Call`), the socket reads the engine makes through `SocketStream.read` interleaved with the words it delivers, plus the message of an exception that ended the session (`ClientHandler.Run`).
- Threads, the buffer's lock and Qt signal delivery. Calls are sequential and signals are appended to a log. The GUI thread's `stop()`/`set_mute()` calls during a capture run are queued in the oracle and seen at the thread's next blocking call or sleep. Interleavings within one call are not modelled.
- Sockets, PyAudio, `time.sleep` and timeouts. Each becomes an outcome from the oracle or a recorded effect. The socket options and the device index are not modelled.
- Streamer.Dial: a failing `socket.socket()` is folded into the connect outcome, so the model records a socket to close even though creation failed. The same holds for a failing `pyaudio.PyAudio()` in `OpenAudio`.
- Streamer.Config: which handles raise on close is a fixed set per run, not a fresh outcome on each `_cleanup`.
- Streamer.Exec: a run whose oracle runs out stops in the `Blocked` phase. This stands for a blocking call that never returns, not a termination of `_run`.
- Streamer.FrameLevel: the capture run reports the corrected level, not the value the `int16` wrap-around gives on a frame holding -32768. The wrap-around as written is modelled in `Level` (see Findings), and on every other frame the two agree (`Streamer.FrameLevelAgrees`).
- Streamer.FrameLevelIsLevel: states the corrected level for the same reason; `Level.NegativeLevelAsWritten` and `Level.QuietPeakAsWritten` exhibit what the code as written reports instead.
- Floating point: the RMS square root and division are replaced by the equivalent integer comparison, and the level is kept as a numerator over 32768.
- Unicode: `strip`, `isalnum` and `upper` are modelled on ASCII. A character whose upper case is longer is not modelled.
- The single `recv(1024)` handshake read is taken as the whole handshake. Handshakes split across segments or merged with audio are not modelled.
- Session.ServerThread.Serve: the bind/listen failure path and the listener's log lines are not modelled.
- Session.SocketStream.Read: an exception after `recv` succeeded (in the activity computation) cannot happen for byte input and is not modelled.
- UI code that is dead or broken (the nested settings functions, the headless start missing `lang_code`, the missing indicator frame) is not modelled.

## Findings

| source | as written | input that shows it | evidently intended | confidence | as-written member | corrected member |
|---|---|---|---|---|---|---|
| client.py:129 | `np.abs` on `int16` samples wraps -32768 to -32768, so the peak can be negative or miss a full-scale sample | the frame `00 80` (one sample -32768) gives level -1.0; the frame `[-32768, 5]` gives peak 5 | the peak is the largest magnitude, so the level lies in [0, 1] and a full-scale sample reads 1.0 | not executed | Level.NegativeLevelAsWritten | Level.LevelOf |
