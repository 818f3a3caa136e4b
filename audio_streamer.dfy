/**
 * The client's `AudioStreamer` (client.py:60-163) as a class whose fields
 * the worker loop updates in place. The blocking calls of `_run` (connect,
 * `sendall`, opening the input stream, `stream.read`) take their outcomes
 * from `inputs`, the same oracle the `Streamer` model reads, and the calls
 * the GUI thread makes (`stop`, `set_mute`) are queued in it between
 * outcomes. `Run` is proved to end in exactly the state `Streamer.Exec`
 * computes, so every property proved of `Exec` holds of the loop.
 */
module Client {

  import opened Wrappers
  import opened Pcm
  import opened Handshake
  import opened Streamer
  import StreamerProps

  class AudioStreamer {
    const serverIp: string
    const serverPort: nat
    /** Passed to the input stream when it is opened; the audio device is
        not modelled. */
    const deviceIndex: int
    const clientName: string
    const langCode: string
    /** The handles whose close raises during `_cleanup`. */
    const faulty: set<Handle>
    var running: bool
    var muted: bool
    /** Whether `self.stream`, `self.p` and `self.sock` are set. */
    var stream: bool
    var audio: bool
    var sock: bool
    /** The outcomes of blocking calls still to come, with the GUI thread's
        calls in between. */
    var inputs: seq<Input>
    /** The signals emitted and the calls made on the outside world. */
    var trace: seq<Effect>

    function Cfg(): Config {
      Config(serverIp, serverPort, clientName, langCode, faulty)
    }

    /** The object as a `Streamer` machine, at a point of `_run` given by
        `phase` and the local `update_counter`. */
    function State(phase: Phase, counter: int): Machine
      reads this
    {
      Machine(phase, running, muted, counter, stream, audio, sock, inputs, trace)
    }

    constructor (serverIp: string, serverPort: nat, deviceIndex: int, clientName: string,
                 langCode: string, faulty: set<Handle>, inputs: seq<Input>)
      ensures this.serverIp == serverIp && this.serverPort == serverPort && this.deviceIndex == deviceIndex
      ensures this.clientName == clientName && this.langCode == langCode && this.faulty == faulty
      ensures State(Outer, 0) == Machine(Outer, false, false, 0, false, false, false, inputs, [])
    {
      this.serverIp := serverIp;
      this.serverPort := serverPort;
      this.deviceIndex := deviceIndex;
      this.clientName := clientName;
      this.langCode := langCode;
      this.faulty := faulty;
      running := false;
      muted := false;
      stream := false;
      audio := false;
      sock := false;
      this.inputs := inputs;
      trace := [];
    }

    /** `stop`: the worker sees the flag at its next loop test. */
    method Stop()
      modifies this`running
      ensures !running
    {
      running := false;
    }

    /** `set_mute`. */
    method SetMute(muted: bool)
      modifies this`muted
      ensures this.muted == muted
    {
      this.muted := muted;
    }

    /** `start`, with the worker thread's `_run` carried out to the end of
        the inputs. */
    method Start() returns (phase: Phase, counter: int)
      modifies this`running, this`muted, this`stream, this`audio, this`sock, this`inputs, this`trace
      ensures phase == Done || phase == Blocked
      ensures State(phase, counter) == Exec(Cfg(), old(State(Outer, 0)).(running := true))
    {
      running := true;
      phase, counter := Run();
    }

    /** Emitting signals or calling out without a result. */
    method Say(es: seq<Effect>, ghost phase: Phase, ghost counter: int)
      modifies this`trace
      ensures State(phase, counter) == Emit(old(State(phase, counter)), es)
    {
      trace := trace + es;
    }

    /** The GUI thread's calls that land before the next outcome. */
    method DrainControls(ghost phase: Phase, ghost counter: int)
      modifies this`running, this`muted, this`inputs
      ensures State(phase, counter) == Drain(old(State(phase, counter)))
    {
      while inputs != [] && !inputs[0].Returns?
        invariant Drain(State(phase, counter)) == Drain(old(State(phase, counter)))
        decreases |inputs|
      {
        if inputs[0].Stop? {
          Stop();
        } else {
          SetMute(inputs[0].muted);
        }
        inputs := inputs[1..];
      }
    }

    /** A blocking call: `None` when no outcome is left. */
    method Await(ghost phase: Phase, ghost counter: int) returns (o: Option<Outcome>)
      modifies this`running, this`muted, this`inputs
      ensures (State(phase, counter), o) == Take(old(State(phase, counter)))
    {
      DrainControls(phase, counter);
      if inputs == [] {
        o := None;
      } else {
        o := Some(inputs[0].outcome);
        inputs := inputs[1..];
      }
    }

    /** The `try` of `_cleanup`: the closes run in order, each only if its
        handle is set, and the first one that raises skips the rest. */
    method CloseHandles()
      modifies this`trace
      ensures trace == old(trace) + CloseEffects(Cfg(), stream, audio, sock)
    {
      ghost var expected := CloseEffects(Cfg(), stream, audio, sock);
      var raised := false;
      if stream {
        trace := trace + [Close(Stream)];
        raised := Stream in faulty;
      }
      if !raised && audio {
        trace := trace + [Close(Audio)];
        raised := Audio in faulty;
      }
      if !raised && sock {
        trace := trace + [Close(Socket)];
      }
      if stream && Stream in faulty {
      } else if audio && Audio in faulty {
        assert expected == (if stream then [Close(Stream)] else []) + [Close(Audio)];
      } else {
        assert expected
          == (if stream then [Close(Stream)] else []) + (if audio then [Close(Audio)] else [])
             + (if sock then [Close(Socket)] else []);
      }
    }

    /** `_cleanup`: the closes, then the `finally` clears every handle. */
    method Cleanup(ghost phase: Phase, ghost counter: int)
      modifies this`stream, this`audio, this`sock, this`trace
      ensures State(phase, counter) == Streamer.Cleanup(Cfg(), old(State(phase, counter)))
    {
      CloseHandles();
      stream, audio, sock := false, false, false;
    }

    /** The `except` clauses of `_run` for a call that did not succeed. A
        network error reports, cleans up and sleeps, and the outer loop goes
        on (`Outer`); any other exception is reported and the loop is left
        (`Done`, the final cleanup still to come); with no outcome left the
        run stops where it is (`Blocked`). */
    method Recover(o: Option<Outcome>, ghost phase: Phase, ghost counter: int) returns (next: Phase)
      requires !Succeeded(o)
      modifies this`running, this`muted, this`stream, this`audio, this`sock, this`inputs, this`trace
      ensures next == (if o.None? then Blocked else if o.value.NetError? then Outer else Done)
      ensures (if next == Done then Finish(Cfg(), State(Outer, counter)) else State(next, counter))
        == Abort(Cfg(), old(State(phase, counter)), o)
    {
      match o
      case None =>
        next := Blocked;
      case Some(NetError) =>
        Say([Status(RetryLine)], phase, counter);
        Cleanup(phase, counter);
        Say([Sleep(RetryDelay * 1000)], phase, counter);
        DrainControls(phase, counter);
        next := Outer;
      case Some(Failure(message)) =>
        Say([ErrorMessage("Fatal Error: " + message)], phase, counter);
        assert Finish(Cfg(), State(phase, counter)) == Finish(Cfg(), State(Outer, counter));
        next := Done;
    }

    /** Step 1 of the outer `try`: announce, create the socket and connect. */
    method Dial(ghost counter: int) returns (o: Option<Outcome>)
      modifies this`running, this`muted, this`sock, this`inputs, this`trace
      ensures (State(Outer, counter), o) == Take(Streamer.Dial(Cfg(), old(State(Outer, counter))))
    {
      Say([Status(ConnectingLine(Cfg()))], Outer, counter);
      sock := true;
      Say([Effect.Connect(serverIp, serverPort)], Outer, counter);
      o := Await(Outer, counter);
    }

    /** Step 2: send `name|lang`. */
    method SendHandshake(ghost counter: int) returns (o: Option<Outcome>)
      modifies this`running, this`muted, this`inputs, this`trace
      ensures (State(Outer, counter), o) == Take(Greet(Cfg(), old(State(Outer, counter))))
    {
      Say([Effect.SendHandshake(Encode(clientName, langCode))], Outer, counter);
      o := Await(Outer, counter);
    }

    /** Step 3: pause, create the PyAudio instance and open the input
        stream. */
    method OpenStream(ghost counter: int) returns (o: Option<Outcome>)
      modifies this`running, this`muted, this`audio, this`inputs, this`trace
      ensures (State(Outer, counter), o) == Take(OpenAudio(old(State(Outer, counter))))
    {
      Say([Sleep(HandshakePause)], Outer, counter);
      DrainControls(Outer, counter);
      audio := true;
      o := Await(Outer, counter);
    }

    /** Step 4: the stream is open; announce it and enter the frame loop
        with `update_counter` at 0. */
    method StartStreaming(ghost counter: int)
      modifies this`stream, this`trace
      ensures State(Inner, 0) == Streamer.StartStreaming(old(State(Outer, counter)))
    {
      stream := true;
      Say([Status(StreamingLine)], Inner, 0);
    }

    /** The body of the outer `try` up to the frame loop. `Inner` means the
        frame loop is entered with `update_counter` at 0; the other phases
        are those of `Recover`. */
    method Establish(ghost counter: int) returns (next: Phase)
      requires running
      modifies this`running, this`muted, this`stream, this`audio, this`sock, this`inputs, this`trace
      ensures next == Inner || next == Outer || next == Done || next == Blocked
      ensures (if next == Done then Finish(Cfg(), State(Outer, counter))
               else State(next, if next == Inner then 0 else counter))
        == OuterStep(Cfg(), old(State(Outer, counter)))
    {
      ghost var goal := OuterStep(Cfg(), State(Outer, counter));
      var o := Dial(counter);
      assert goal == Dialled(Cfg(), (State(Outer, counter), o));
      if !Succeeded(o) {
        next := Recover(o, Outer, counter);
        return;
      }
      o := SendHandshake(counter);
      assert goal == Greeted(Cfg(), (State(Outer, counter), o));
      if !Succeeded(o) {
        next := Recover(o, Outer, counter);
        return;
      }
      o := OpenStream(counter);
      assert goal == Opened(Cfg(), (State(Outer, counter), o));
      if !Succeeded(o) {
        next := Recover(o, Outer, counter);
        return;
      }
      assert goal == Streamer.StartStreaming(State(Outer, counter));
      StartStreaming(counter);
      next := Inner;
    }

    /** The rest of a frame loop pass once a frame is read and counted:
        its level on even counts, and its transmission unless muted. */
    method Forward(data: seq<byte>, count: int) returns (next: Phase)
      modifies this`running, this`muted, this`stream, this`audio, this`sock, this`inputs, this`trace
      ensures next == Inner || next == Outer || next == Done || next == Blocked
      ensures (if next == Done then Finish(Cfg(), State(Outer, count)) else State(next, count))
        == Streamer.Forward(Cfg(), old(State(Inner, count)), data)
    {
      if count % 2 == 0 {
        if LevelFault(data).Some? {
          next := Recover(Some(Failure(LevelFault(data).value)), Inner, count);
            return;
        }
        Say([LevelChanged(FrameLevel(data))], Inner, count);
      }
      next := Transmit(data, count);
    }

    /** `sock.sendall(data)` unless muted. */
    method Transmit(data: seq<byte>, ghost count: int) returns (next: Phase)
      modifies this`running, this`muted, this`stream, this`audio, this`sock, this`inputs, this`trace
      ensures next == Inner || next == Outer || next == Done || next == Blocked
      ensures (if next == Done then Finish(Cfg(), State(Outer, count)) else State(next, count))
        == Streamer.Transmit(Cfg(), old(State(Inner, count)), data)
    {
      next := Inner;
      if !muted {
        Say([SendAudio(data)], Inner, count);
        var o := Await(Inner, count);
        if !Succeeded(o) {
          next := Recover(o, Inner, count);
          }
      }
    }

    /** One pass of the frame loop: read a frame and count it, then
        `Forward` it. `Inner` means the loop goes on; the other phases are
        those of `Recover`. */
    method Frame(counter: int) returns (next: Phase, count: int)
      requires running
      modifies this`running, this`muted, this`stream, this`audio, this`sock, this`inputs, this`trace
      ensures next == Inner || next == Outer || next == Done || next == Blocked
      ensures (if next == Done then Finish(Cfg(), State(Outer, count)) else State(next, count))
        == InnerStep(Cfg(), old(State(Inner, counter)))
    {
      count := counter;
      ghost var m := State(Inner, counter);
      var o := Await(Inner, count);
      ghost var t := (State(Inner, count), o);
      assert InnerStep(Cfg(), m) == Captured(Cfg(), t);
      if !Succeeded(o) {
        next := Recover(o, Inner, count);
        return;
      }
      StreamerProps.CapturedOk(Cfg(), t, o.value.data);
      count := count + 1;
      assert t.0.(counter := t.0.counter + 1) == State(Inner, count);
      next := Forward(o.value.data, count);
    }

    /** The frame loop: passes until `running` is cleared, then back to
        the outer loop (`Outer`), or until a pass leaves with another phase
        of `Recover`. The state it leaves runs on as the frame loop would. */
    method StreamFrames(counter: int) returns (next: Phase, count: int)
      modifies this`running, this`muted, this`stream, this`audio, this`sock, this`inputs, this`trace
      ensures next == Outer || next == Done || next == Blocked
      ensures |inputs| <= old(|inputs|)
      ensures Exec(Cfg(), if next == Done then Finish(Cfg(), State(Outer, count)) else State(next, count))
        == Exec(Cfg(), old(State(Inner, counter)))
    {
      var c := Cfg();
      ghost var final := Exec(c, State(Inner, counter));
      count := counter;
      while running
        invariant Exec(c, State(Inner, count)) == final
        invariant |inputs| <= old(|inputs|)
        decreases |inputs|
      {
        StreamerProps.ExecStep(c, State(Inner, count));
        next, count := Frame(count);
        if next != Inner {
          return;
        }
      }
      StreamerProps.ExecStep(c, State(Inner, count));
      next := Outer;
    }

    /** `_run`: the outer loop connects and streams until `running` is
        cleared, a fatal error leaves it, or the outcomes run out; then the
        final `_cleanup` and `finished`. It returns where the run ended
        (`Done`, or `Blocked` when the outcomes ran out) and the last value
        of `update_counter`. */
    method Run() returns (phase: Phase, counter: int)
      modifies this`running, this`muted, this`stream, this`audio, this`sock, this`inputs, this`trace
      ensures phase == Done || phase == Blocked
      ensures State(phase, counter) == Exec(Cfg(), old(State(Outer, 0)))
    {
      var c := Cfg();
      ghost var final := Exec(c, State(Outer, 0));
      counter := 0;
      while running
        invariant Exec(c, State(Outer, counter)) == final
        decreases |inputs|
      {
        StreamerProps.ExecStep(c, State(Outer, counter));
        phase := Establish(counter);
        if phase == Blocked {
          return;
        } else if phase == Outer {
          continue;
        } else if phase == Done {
          break;
        }
        phase, counter := StreamFrames(0);
        if phase == Blocked {
          return;
        } else if phase == Done {
          break;
        }
      }
      assert Finish(c, State(Outer, counter)) == final;
      Cleanup(Outer, counter);
      Say([Finished], Outer, counter);
      phase := Done;
    }
  }

}
