/**
 * The client's capture thread (`AudioStreamer`, client.py:60-163): connect,
 * send the handshake, open the microphone and stream frames until stopped,
 * retrying after network errors and giving up on any other error.
 *
 * Everything outside the thread is an oracle: `inputs` lists, in order, the
 * outcome of each blocking call (connect, send, open, read) and the
 * `stop()` / `set_mute()` calls the GUI thread makes meanwhile. A control
 * call is seen by the capture thread at its next blocking call or sleep.
 * What the thread does to the outside world is recorded as `Effect`s.
 */
module Streamer {

  import opened Wrappers
  import opened Pcm
  import opened Text
  import opened Handshake
  import opened Level

  /** `retry_delay`, in seconds. */
  const RetryDelay: nat := 5
  /** The pause after the handshake, `time.sleep(0.1)`, in milliseconds. */
  const HandshakePause: nat := 100

  const RetryLine: string := "Connection lost. Retrying in 5s..."
  const StreamingLine: string := "\U{1F534} Streaming Audio"
  /** What NumPy raises for a frame it cannot view as `int16` samples ... */
  const OddFrameMessage: string := "buffer size must be a multiple of element size"
  /** ... and for the maximum of an empty frame. */
  const EmptyFrameMessage: string := "zero-size array to reduction operation maximum which has no identity"

  /** The result of one blocking call. `NetError` is any `OSError` (which
      `socket.error` names in Python 3), `Failure` any other exception. */
  datatype Outcome = Ok(data: seq<byte>) | NetError | Failure(message: string)

  datatype Input = Returns(outcome: Outcome) | SetMute(muted: bool) | Stop

  /** The three resources `_cleanup` releases: `stream`, `p` and `sock`. */
  datatype Handle = Stream | Audio | Socket

  datatype Effect =
    | Status(text: string)          // status_changed
    | ErrorMessage(text: string)    // error_occurred
    | Finished                      // finished
    | LevelChanged(level: nat)      // audio_level, as a numerator over FullScale
    | Connect(host: string, port: nat)
    | SendHandshake(text: string)
    | SendAudio(data: seq<byte>)
    | Close(handle: Handle)
    | Sleep(ms: nat)

  /** The streamer's settings. `faulty` lists the handles whose release
      raises. */
  datatype Config = Config(serverIp: string, serverPort: nat, clientName: string, langCode: string,
                           faulty: set<Handle>)

  /** Where the thread is: at the head of the outer (connect) loop, at the
      head of the inner (frame) loop, finished, or blocked in a call the
      oracle never answers. */
  datatype Phase = Outer | Inner | Done | Blocked

  /** The thread's state. `stream`, `audio` and `sock` say whether each
      handle is set (not `None`); `counter` is `update_counter`. */
  datatype Machine = Machine(phase: Phase, running: bool, muted: bool, counter: int,
                             stream: bool, audio: bool, sock: bool,
                             inputs: seq<Input>, trace: seq<Effect>)

  function ConnectingLine(c: Config): string {
    "Connecting to " + c.serverIp + ":" + Decimal(c.serverPort) + "..."
  }

  function Emit(m: Machine, es: seq<Effect>): Machine {
    m.(trace := m.trace + es)
  }

  /** The control calls the GUI thread made before the next outcome. */
  function Drain(m: Machine): (r: Machine)
    ensures r.phase == m.phase && r.counter == m.counter && r.trace == m.trace
    ensures r.stream == m.stream && r.audio == m.audio && r.sock == m.sock
    ensures |r.inputs| <= |m.inputs|
    ensures r.inputs == [] || r.inputs[0].Returns?
    ensures (m.inputs == [] || m.inputs[0].Returns?) ==> r == m
    decreases |m.inputs|
  {
    if m.inputs == [] || m.inputs[0].Returns? then m
    else
      var next := m.(inputs := m.inputs[1..]);
      if m.inputs[0].Stop? then Drain(next.(running := false)) else Drain(next.(muted := m.inputs[0].muted))
  }

  /** A blocking call: the control calls before it take effect, then its
      outcome is consumed; `None` when the oracle has no more outcomes. */
  function Take(m: Machine): (r: (Machine, Option<Outcome>))
    ensures |r.0.inputs| <= |m.inputs|
    ensures r.1.Some? ==> |r.0.inputs| < |m.inputs|
    ensures r.1.None? ==> r.0.inputs == []
    ensures r.0.trace == m.trace && r.0.phase == m.phase && r.0.counter == m.counter
    ensures r.0.stream == m.stream && r.0.audio == m.audio && r.0.sock == m.sock
  {
    var d := Drain(m);
    if d.inputs == [] then (d, None) else (d.(inputs := d.inputs[1..]), Some(d.inputs[0].outcome))
  }
  /** How many control inputs (mute toggles and stop requests) come before
      the next outcome. */
  function Leading(inputs: seq<Input>): (k: nat)
    ensures k <= |inputs| && (k < |inputs| ==> inputs[k].Returns?)
    ensures forall j :: 0 <= j < k ==> !inputs[j].Returns?
    decreases |inputs|
  {
    if inputs == [] || inputs[0].Returns? then 0 else 1 + Leading(inputs[1..])
  }

  /** The mute flag after a run of control inputs: the value of the last
      toggle among them, or `muted` when there is none. */
  function MuteAfter(muted: bool, controls: seq<Input>): bool {
    if controls == [] then muted
    else if controls[|controls| - 1].SetMute? then controls[|controls| - 1].muted
    else MuteAfter(muted, controls[..|controls| - 1])
  }

  lemma {:induction false} MuteAfterCons(muted: bool, first: Input, rest: seq<Input>)
    ensures MuteAfter(muted, [first] + rest) == MuteAfter(MuteAfter(muted, [first]), rest)
    decreases |rest|
  {
    if rest != [] {
      var all := [first] + rest;
      assert all[..|all| - 1] == [first] + rest[..|rest| - 1];
      MuteAfterCons(muted, first, rest[..|rest| - 1]);
    } else {
      assert [first] + rest == [first];
    }
  }

  /** The control calls made before a blocking call are all consumed. */
  lemma {:induction false} DrainInputs(m: Machine)
    ensures Drain(m).inputs == m.inputs[Leading(m.inputs)..]
    decreases |m.inputs|
  {
    if m.inputs != [] && !m.inputs[0].Returns? {
      var first, next := m.inputs[0], m.(inputs := m.inputs[1..]);
      assert m.inputs[Leading(m.inputs)..] == m.inputs[1..][Leading(m.inputs) - 1..];
      if first.Stop? {
        DrainInputs(next.(running := false));
      } else {
        DrainInputs(next.(muted := first.muted));
      }
    }
  }

  /** What the control calls made before a blocking call do to the flags:
      the loop flag is cleared exactly when one of them is a stop request,
      and the mute flag is the last toggle's, if any. */
  lemma {:induction false} DrainFlags(m: Machine)
    ensures var k, r := Leading(m.inputs), Drain(m);
      && r.running == (m.running && Stop !in m.inputs[..k])
      && r.muted == MuteAfter(m.muted, m.inputs[..k])
    decreases |m.inputs|
  {
    if m.inputs != [] && !m.inputs[0].Returns? {
      var first, next := m.inputs[0], m.(inputs := m.inputs[1..]);
      var k := Leading(m.inputs);
      assert m.inputs[..k] == [first] + m.inputs[1..][..k - 1];
      MuteAfterCons(m.muted, first, m.inputs[1..][..k - 1]);
      assert MuteAfter(m.muted, [first]) == if first.SetMute? then first.muted else m.muted by {
        assert [first][..0] == [];
      }
      if first.Stop? {
        DrainFlags(next.(running := false));
      } else {
        DrainFlags(next.(muted := first.muted));
      }
    }
  }

  /** What the control calls made before a blocking call do: they are all
      consumed, the loop flag is cleared exactly when one of them is a stop
      request, and the mute flag is the last toggle's, if any. */
  lemma DrainEffect(m: Machine)
    ensures var k, r := Leading(m.inputs), Drain(m);
      && r.inputs == m.inputs[k..]
      && r.running == (m.running && Stop !in m.inputs[..k])
      && r.muted == MuteAfter(m.muted, m.inputs[..k])
  {
    DrainInputs(m);
    DrainFlags(m);
  }

  /** A blocking call returns the first outcome after the control calls
      before it, and `None` only when no outcome is left. */
  lemma TakeEffect(m: Machine)
    ensures var k, r := Leading(m.inputs), Take(m);
      && (k == |m.inputs| ==> r.1.None? && r.0.inputs == [])
      && (k < |m.inputs| ==> r.1 == Some(m.inputs[k].outcome) && r.0.inputs == m.inputs[k + 1..])
      && r.0.running == (m.running && Stop !in m.inputs[..k])
      && r.0.muted == MuteAfter(m.muted, m.inputs[..k])
  {
    DrainEffect(m);
  }


  /** The closes `_cleanup` attempts: stream, then audio, then socket, each
      only if set, all inside one `try`, so the first one that raises skips
      the rest. */
  function CloseEffects(c: Config, stream: bool, audio: bool, sock: bool): (r: seq<Effect>)
    ensures Close(Stream) in r <==> stream
    ensures Close(Audio) in r <==> audio && !(stream && Stream in c.faulty)
    ensures Close(Socket) in r <==> sock && !(stream && Stream in c.faulty) && !(audio && Audio in c.faulty)
    ensures forall e :: e in r ==> e.Close?
    ensures !stream && !audio && !sock ==> r == []
  {
    var s := if stream then [Close(Stream)] else [];
    if stream && Stream in c.faulty then s
    else
      var a := if audio then [Close(Audio)] else [];
      if audio && Audio in c.faulty then s + a
      else s + a + (if sock then [Close(Socket)] else [])
  }

  /** `_cleanup`: the closes, then every handle is `None` whatever happened. */
  function Cleanup(c: Config, m: Machine): (r: Machine)
    ensures !r.stream && !r.audio && !r.sock
    ensures r.phase == m.phase && r.running == m.running && r.muted == m.muted && r.inputs == m.inputs
  {
    Emit(m, CloseEffects(c, m.stream, m.audio, m.sock)).(stream := false, audio := false, sock := false)
  }

  /** A second `_cleanup` does nothing. */
  lemma CleanupIdempotent(c: Config, m: Machine)
    ensures Cleanup(c, Cleanup(c, m)) == Cleanup(c, m)
  {
    var once := Cleanup(c, m);
    assert once.trace + [] == once.trace;
  }

  /** The network-error handler: report, clean up, wait, and go round the
      outer loop again. */
  function Retry(c: Config, m: Machine): Machine {
    Drain(Emit(Cleanup(c, Emit(m, [Status(RetryLine)])), [Sleep(RetryDelay * 1000)])).(phase := Outer)
  }

  /** After the outer loop: `_cleanup`, then `finished`. */
  function Finish(c: Config, m: Machine): Machine {
    Emit(Cleanup(c, m), [Finished]).(phase := Done)
  }

  /** A blocking call that did not succeed. */
  function Abort(c: Config, m: Machine, o: Option<Outcome>): (r: Machine)
    requires o.None? || !o.value.Ok?
    ensures |r.inputs| <= |m.inputs|
    ensures o.None? ==> r.phase == Blocked
    ensures o.Some? && o.value.NetError? ==> r.phase == Outer
    ensures o.Some? && o.value.Failure? ==> r.phase == Done
  {
    match o
    case None => m.(phase := Blocked)
    case Some(NetError) => Retry(c, m)
    case Some(Failure(message)) => Finish(c, Emit(m, [ErrorMessage("Fatal Error: " + message)]))
  }

  predicate Succeeded(o: Option<Outcome>) {
    o.Some? && o.value.Ok?
  }

  /** Steps 1-3 of an outer iteration: create the socket and connect ... */
  function Dial(c: Config, m: Machine): Machine {
    Emit(Emit(m, [Status(ConnectingLine(c))]).(sock := true), [Connect(c.serverIp, c.serverPort)])
  }

  /** ... send `name|lang` ... */
  function Greet(c: Config, m: Machine): Machine {
    Emit(m, [SendHandshake(Encode(c.clientName, c.langCode))])
  }

  /** ... pause, create the PyAudio instance and open the input stream ... */
  function OpenAudio(m: Machine): (r: Machine)
    ensures |r.inputs| <= |m.inputs|
  {
    Drain(Emit(m, [Sleep(HandshakePause)])).(audio := true)
  }

  /** ... and enter the frame loop. */
  function StartStreaming(m: Machine): Machine {
    Emit(m.(stream := true), [Status(StreamingLine)]).(phase := Inner, counter := 0)
  }

  function Opened(c: Config, t: (Machine, Option<Outcome>)): (r: Machine)
    ensures |r.inputs| <= |t.0.inputs| && (t.1.None? ==> r.phase == Blocked)
  {
    if Succeeded(t.1) then StartStreaming(t.0) else Abort(c, t.0, t.1)
  }

  function Greeted(c: Config, t: (Machine, Option<Outcome>)): (r: Machine)
    ensures |r.inputs| <= |t.0.inputs| && (t.1.None? ==> r.phase == Blocked)
  {
    if Succeeded(t.1) then Opened(c, Take(OpenAudio(t.0))) else Abort(c, t.0, t.1)
  }

  function Dialled(c: Config, t: (Machine, Option<Outcome>)): (r: Machine)
    ensures |r.inputs| <= |t.0.inputs| && (t.1.None? ==> r.phase == Blocked)
  {
    if Succeeded(t.1) then Greeted(c, Take(Greet(c, t.0))) else Abort(c, t.0, t.1)
  }

  /** One iteration of the outer loop, from its head. */
  function OuterStep(c: Config, m: Machine): (r: Machine)
    requires m.phase == Outer
    ensures |r.inputs| < |m.inputs| || (|r.inputs| == |m.inputs| && (r.phase == Done || r.phase == Blocked))
  {
    if !m.running then Finish(c, m) else Dialled(c, Take(Dial(c, m)))
  }

  /** Why the level of a frame cannot be computed, if it cannot. */
  function LevelFault(data: seq<byte>): Option<string> {
    if |data| % 2 == 1 then Some(OddFrameMessage)
    else if |data| == 0 then Some(EmptyFrameMessage)
    else None
  }

  /** The loudest sample of a frame of whole samples, read pair by pair. */
  function FramePeak(data: seq<byte>): (r: nat)
    requires |data| >= 2 && |data| % 2 == 0
    ensures r <= FullScale
    decreases |data|
  {
    var here := Magnitude(SampleAt(data, 0));
    if |data| == 2 then here
    else
      var rest := FramePeak(data[2..]);
      if here >= rest then here else rest
  }

  /** The level of a frame that has one, as a numerator over full scale. */
  function FrameLevel(data: seq<byte>): (r: nat)
    requires LevelFault(data).None?
    ensures r <= FullScale
  {
    LevelNumerator(FramePeak(data))
  }

  /** The level reported for a frame is the corrected level of its samples:
      the loudest magnitude over full scale, in [0, 1]. */
  lemma FrameLevelIsLevel(data: seq<byte>)
    requires LevelFault(data).None?
    ensures InRange(Samples(data)) && FrameLevel(data) == LevelOf(Samples(data))
  {
    FramePeakIsPeak(data);
  }

  /** The level `client.py` computes as written, `max(abs(samples)) /
      32768.0` with a 16-bit `abs`, agrees with the reported level on every
      frame that holds no -32768 sample. */
  lemma FrameLevelAgrees(data: seq<byte>)
    requires LevelFault(data).None? && MinSample !in Samples(data)
    ensures FrameLevel(data) == LevelNumerator(PeakAsWritten(Samples(data)))
  {
    FrameLevelIsLevel(data);
    var samples := Samples(data);
    assert forall k :: 0 <= k < |samples| ==> samples[k] != MinSample;
    PeakAgrees(samples);
  }

  lemma {:induction false} FramePeakIsPeak(data: seq<byte>)
    requires |data| >= 2 && |data| % 2 == 0
    ensures InRange(Samples(data)) && FramePeak(data) == Peak(Samples(data))
    decreases |data|
  {
    var samples := Samples(data);
    assert InRange(samples) by {
      forall k | 0 <= k < |samples|
        ensures MinSample <= samples[k] <= MaxSample
      {
        assert samples[k] == SampleAt(data, 2 * k);
      }
    }
    assert samples == [SampleAt(data, 0)] + Samples(data[2..]);
    if |data| > 2 {
      FramePeakIsPeak(data[2..]);
      assert samples[1..] == Samples(data[2..]);
    }
  }

  /** The frame just read, after `update_counter += 1`: its level on even
      counts, then, unless muted, its transmission. */
  function Forward(c: Config, m: Machine, data: seq<byte>): (r: Machine)
    ensures |r.inputs| <= |m.inputs|
  {
    if m.counter % 2 == 0 && LevelFault(data).Some? then
      Abort(c, m, Some(Failure(LevelFault(data).value)))
    else
      Transmit(c, Show(m, data), data)
  }

  /** `audio_level.emit(level)` on even counts. */
  function Show(m: Machine, data: seq<byte>): (r: Machine)
    requires m.counter % 2 == 0 ==> LevelFault(data).None?
    ensures r.inputs == m.inputs && r.phase == m.phase && r.muted == m.muted
  {
    if m.counter % 2 == 0 then Emit(m, [LevelChanged(FrameLevel(data))]) else m
  }

  /** `sock.sendall(data)` unless muted. */
  function Transmit(c: Config, m: Machine, data: seq<byte>): (r: Machine)
    ensures |r.inputs| <= |m.inputs|
  {
    if m.muted then m else Sent(c, Take(Emit(m, [SendAudio(data)])))
  }

  function Sent(c: Config, t: (Machine, Option<Outcome>)): (r: Machine)
    ensures |r.inputs| <= |t.0.inputs|
  {
    if Succeeded(t.1) then t.0 else Abort(c, t.0, t.1)
  }

  function Captured(c: Config, t: (Machine, Option<Outcome>)): (r: Machine)
    ensures |r.inputs| <= |t.0.inputs| && (t.1.None? ==> r.phase == Blocked)
  {
    if Succeeded(t.1) then Forward(c, t.0.(counter := t.0.counter + 1), t.1.value.data) else Abort(c, t.0, t.1)
  }

  /** One iteration of the frame loop, from its head; when `running` is
      clear the loop ends and the outer loop's head is next. */
  function InnerStep(c: Config, m: Machine): (r: Machine)
    requires m.phase == Inner
    ensures |r.inputs| < |m.inputs| || (|r.inputs| == |m.inputs| && r.phase != Inner)
  {
    if !m.running then m.(phase := Outer) else Captured(c, Take(m))
  }

  function Rank(p: Phase): nat {
    match p
    case Inner => 2
    case Outer => 1
    case _ => 0
  }

  predicate Live(m: Machine) {
    m.phase == Outer || m.phase == Inner
  }

  /** One loop iteration. Every step consumes an input or moves towards
      the end of the run. */
  function Step(c: Config, m: Machine): (r: Machine)
    requires Live(m)
    ensures |r.inputs| < |m.inputs| || (|r.inputs| == |m.inputs| && Rank(r.phase) < Rank(m.phase))
  {
    if m.phase == Outer then OuterStep(c, m) else InnerStep(c, m)
  }

  /** The whole run of `_run` from a machine state. */
  function Exec(c: Config, m: Machine): (r: Machine)
    ensures r.phase == Done || r.phase == Blocked
    decreases |m.inputs|, Rank(m.phase)
  {
    if !Live(m) then m
    else
      Exec(c, Step(c, m))
  }

}
