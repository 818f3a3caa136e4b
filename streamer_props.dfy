/**
 * What the capture thread's run guarantees: the handshake goes out before
 * any audio on each connection, `finished` is signalled exactly once, at
 * the end, with every handle released; network errors are retried and
 * other errors are not; muting only stops transmission.
 */
module StreamerProps {

  import opened Wrappers
  import opened Pcm
  import opened Handshake
  import opened Streamer

  /** What a reader of the trace knows so far: whether every audio frame
      sent went out after the handshake of its connection, and whether the
      current connection has been greeted. */
  datatype Progress = Progress(ordered: bool, greeted: bool)

  const Fresh := Progress(true, false)

  function Next(s: Progress, e: Effect): Progress {
    match e
    case Connect(_, _) => s.(greeted := false)
    case SendHandshake(_) => s.(greeted := true)
    case SendAudio(_) => s.(ordered := s.ordered && s.greeted)
    case _ => s
  }

  function Replay(s: Progress, t: seq<Effect>): Progress
    decreases |t|
  {
    if t == [] then s else Next(Replay(s, t[..|t| - 1]), t[|t| - 1])
  }

  lemma {:induction false} ReplayAppend(s: Progress, a: seq<Effect>, b: seq<Effect>)
    ensures Replay(s, a + b) == Replay(Replay(s, a), b)
    decreases |b|
  {
    if b == [] {
      assert a + b == a;
    } else {
      assert (a + b)[..|a + b| - 1] == a + b[..|b| - 1];
      assert (a + b)[|a + b| - 1] == b[|b| - 1];
      ReplayAppend(s, a, b[..|b| - 1]);
    }
  }

  /** Effects that neither connect, greet, send audio nor finish. */
  predicate Neutral(d: seq<Effect>) {
    forall e :: e in d ==> !e.Connect? && !e.SendHandshake? && !e.SendAudio? && !e.Finished?
  }

  lemma {:induction false} ReplayNeutral(s: Progress, d: seq<Effect>)
    requires Neutral(d)
    ensures Replay(s, d) == s
    decreases |d|
  {
    if d != [] {
      assert d[|d| - 1] in d;
      assert Neutral(d[..|d| - 1]) by {
        forall e | e in d[..|d| - 1] ensures e in d { }
      }
      ReplayNeutral(s, d[..|d| - 1]);
    }
  }

  /** Appending neutral effects changes nothing a reader of the trace cares
      about. */
  lemma EmitNeutral(m: Machine, d: seq<Effect>)
    requires Neutral(d)
    ensures Replay(Fresh, Emit(m, d).trace) == Replay(Fresh, m.trace)
    ensures Finished in Emit(m, d).trace <==> Finished in m.trace
    ensures m.trace <= Emit(m, d).trace
  {
    ReplayAppend(Fresh, m.trace, d);
    ReplayNeutral(Replay(Fresh, m.trace), d);
    assert Finished !in d;
  }

  lemma CleanupNeutral(c: Config, m: Machine)
    ensures Replay(Fresh, Cleanup(c, m).trace) == Replay(Fresh, m.trace)
    ensures Finished in Cleanup(c, m).trace <==> Finished in m.trace
    ensures m.trace <= Cleanup(c, m).trace
  {
    EmitNeutral(m, CloseEffects(c, m.stream, m.audio, m.sock));
  }

  /** The invariant of a run: the audio order holds, the frame loop runs
      only on a greeted connection, and `finished` is absent until the run
      is done, when it is the last effect, appears once, and every handle
      has been released. */
  predicate Good(m: Machine) {
    && Replay(Fresh, m.trace).ordered
    && (m.phase == Inner ==> Replay(Fresh, m.trace).greeted)
    && (m.phase == Done ==>
          && |m.trace| > 0 && m.trace[|m.trace| - 1] == Finished && Finished !in m.trace[..|m.trace| - 1]
          && !m.stream && !m.audio && !m.sock)
    && (m.phase != Done ==> Finished !in m.trace)
  }

  /** The run so far is in order and has not finished. */
  predicate Open(m: Machine) {
    Replay(Fresh, m.trace).ordered && Finished !in m.trace
  }

  /** ... and the current connection has been greeted. */
  predicate Ready(m: Machine) {
    Open(m) && Replay(Fresh, m.trace).greeted
  }

  lemma EmitOne(m: Machine, e: Effect)
    ensures Replay(Fresh, Emit(m, [e]).trace) == Next(Replay(Fresh, m.trace), e)
    ensures Finished in Emit(m, [e]).trace <==> Finished in m.trace || e == Finished
    ensures m.trace <= Emit(m, [e]).trace
  {
    var t := m.trace + [e];
    assert t[..|t| - 1] == m.trace;
  }

  lemma FinishGood(c: Config, m: Machine)
    requires Open(m)
    ensures Finish(c, m).phase == Done && Good(Finish(c, m)) && m.trace <= Finish(c, m).trace
  {
    var clean := Cleanup(c, m);
    CleanupNeutral(c, m);
    var r := Finish(c, m);
    assert r.trace[..|r.trace| - 1] == clean.trace;
    EmitOne(clean, Finished);
  }

  lemma RetryGood(c: Config, m: Machine)
    requires Open(m)
    ensures Retry(c, m).phase == Outer && Good(Retry(c, m)) && m.trace <= Retry(c, m).trace
  {
    var m1 := Emit(m, [Status(RetryLine)]);
    EmitOne(m, Status(RetryLine));
    CleanupNeutral(c, m1);
    EmitOne(Cleanup(c, m1), Sleep(RetryDelay * 1000));
  }

  /** A failed call ends the run well whatever the failure. */
  lemma AbortGood(c: Config, m: Machine, o: Option<Outcome>)
    requires o.None? || !o.value.Ok?
    requires Open(m)
    ensures Good(Abort(c, m, o)) && m.trace <= Abort(c, m, o).trace
  {
    match o
    case None =>
    case Some(NetError) => RetryGood(c, m);
    case Some(Failure(message)) =>
      EmitOne(m, ErrorMessage("Fatal Error: " + message));
      FinishGood(c, Emit(m, [ErrorMessage("Fatal Error: " + message)]));
  }

  lemma OpenedGood(c: Config, t: (Machine, Option<Outcome>))
    requires Ready(t.0)
    ensures Good(Opened(c, t)) && t.0.trace <= Opened(c, t).trace
  {
    if Succeeded(t.1) {
      EmitOne(t.0.(stream := true), Status(StreamingLine));
    } else {
      AbortGood(c, t.0, t.1);
    }
  }

  lemma GreetedGood(c: Config, t: (Machine, Option<Outcome>))
    requires Ready(t.0)
    ensures Good(Greeted(c, t)) && t.0.trace <= Greeted(c, t).trace
  {
    if Succeeded(t.1) {
      EmitOne(t.0, Sleep(HandshakePause));
      OpenedGood(c, Take(OpenAudio(t.0)));
    } else {
      AbortGood(c, t.0, t.1);
    }
  }

  lemma DialledGood(c: Config, t: (Machine, Option<Outcome>))
    requires Open(t.0)
    ensures Good(Dialled(c, t)) && t.0.trace <= Dialled(c, t).trace
  {
    if Succeeded(t.1) {
      EmitOne(t.0, SendHandshake(Encode(c.clientName, c.langCode)));
      GreetedGood(c, Take(Greet(c, t.0)));
    } else {
      AbortGood(c, t.0, t.1);
    }
  }

  lemma OuterGood(c: Config, m: Machine)
    requires m.phase == Outer && Good(m)
    ensures Good(OuterStep(c, m)) && m.trace <= OuterStep(c, m).trace
  {
    if !m.running {
      FinishGood(c, m);
    } else {
      var m1 := Emit(m, [Status(ConnectingLine(c))]);
      EmitOne(m, Status(ConnectingLine(c)));
      EmitOne(m1.(sock := true), Connect(c.serverIp, c.serverPort));
      DialledGood(c, Take(Dial(c, m)));
    }
  }

  lemma SentGood(c: Config, t: (Machine, Option<Outcome>))
    requires t.0.phase == Inner && Ready(t.0)
    ensures Good(Sent(c, t)) && t.0.trace <= Sent(c, t).trace
  {
    if !Succeeded(t.1) {
      AbortGood(c, t.0, t.1);
    }
  }

  lemma ShowReady(m: Machine, data: seq<byte>)
    requires m.counter % 2 == 0 ==> LevelFault(data).None?
    requires Ready(m)
    ensures Ready(Show(m, data)) && m.trace <= Show(m, data).trace
  {
    if m.counter % 2 == 0 {
      EmitOne(m, LevelChanged(FrameLevel(data)));
    }
  }

  lemma TransmitGood(c: Config, m: Machine, data: seq<byte>)
    requires m.phase == Inner && Ready(m)
    ensures Good(Transmit(c, m, data)) && m.trace <= Transmit(c, m, data).trace
  {
    if !m.muted {
      EmitOne(m, SendAudio(data));
      SentGood(c, Take(Emit(m, [SendAudio(data)])));
    }
  }

  lemma ForwardGood(c: Config, m: Machine, data: seq<byte>)
    requires m.phase == Inner && Ready(m)
    ensures Good(Forward(c, m, data)) && m.trace <= Forward(c, m, data).trace
  {
    if m.counter % 2 == 0 && LevelFault(data).Some? {
      AbortGood(c, m, Some(Failure(LevelFault(data).value)));
    } else {
      ShowReady(m, data);
      TransmitGood(c, Show(m, data), data);
    }
  }

  lemma CapturedGood(c: Config, t: (Machine, Option<Outcome>))
    requires t.0.phase == Inner && Ready(t.0)
    ensures Good(Captured(c, t)) && t.0.trace <= Captured(c, t).trace
  {
    if Succeeded(t.1) {
      var data := t.1.value.data;
      CapturedOk(c, t, data);
      ForwardGood(c, t.0.(counter := t.0.counter + 1), data);
    } else {
      AbortGood(c, t.0, t.1);
    }
  }

  lemma InnerGood(c: Config, m: Machine)
    requires m.phase == Inner && Good(m)
    ensures Good(InnerStep(c, m)) && m.trace <= InnerStep(c, m).trace
  {
    if m.running {
      CapturedGood(c, Take(m));
    }
  }

  lemma StepGood(c: Config, m: Machine)
    requires Live(m) && Good(m)
    ensures Good(Step(c, m)) && m.trace <= Step(c, m).trace
  {
    if m.phase == Outer {
      OuterGood(c, m);
    } else {
      InnerGood(c, m);
    }
  }

  lemma ExecStep(c: Config, m: Machine)
    requires Live(m)
    ensures Exec(c, m) == Exec(c, Step(c, m))
  {
  }

  lemma PrefixTrans(a: seq<Effect>, b: seq<Effect>, d: seq<Effect>)
    requires a <= b && b <= d
    ensures a <= d
  {
    assert d[..|a|] == d[..|b|][..|a|];
  }

  /** A connect attempt from the loop head is in the trace for good. */
  lemma DialPrefix(c: Config, m: Machine)
    requires m.phase == Outer && m.running && Good(m)
    ensures Dial(c, m).trace <= Exec(c, m).trace
  {
    DialledGood(c, Take(Dial(c, m)));
    StepGood(c, m);
    ExecStep(c, m);
    ExecGood(c, Step(c, m));
    PrefixTrans(Dial(c, m).trace, Step(c, m).trace, Exec(c, m).trace);
  }

  /** The whole run keeps the invariant, only appends to the trace, and
      ends done or blocked. */
  lemma {:induction false} ExecGood(c: Config, m: Machine)
    requires Good(m)
    ensures var r := Exec(c, m); Good(r) && m.trace <= r.trace && !Live(r)
    decreases |m.inputs|, Rank(m.phase)
  {
    if Live(m) {
      StepGood(c, m);
      ExecGood(c, Step(c, m));
      PrefixTrans(m.trace, Step(c, m).trace, Exec(c, m).trace);
    }
  }

  /** The connection current at position `j` of the trace has been
      greeted: a handshake went out before `j` with no connect since. */
  predicate GreetedBefore(t: seq<Effect>, j: nat)
    requires j <= |t|
  {
    exists i :: 0 <= i < j && t[i].SendHandshake? && forall k :: i < k < j ==> !t[k].Connect?
  }

  lemma {:induction false} GreetedMeans(t: seq<Effect>, j: nat)
    requires j <= |t|
    ensures Replay(Fresh, t[..j]).greeted <==> GreetedBefore(t, j)
  {
    if j > 0 {
      GreetedMeans(t, j - 1);
      assert t[..j][..j - 1] == t[..j - 1];
      var e := t[j - 1];
      if e.SendHandshake? {
        assert GreetedBefore(t, j) by {
          assert t[j - 1].SendHandshake?;
        }
      } else if e.Connect? {
        if GreetedBefore(t, j) {
          var i :| 0 <= i < j && t[i].SendHandshake? && forall k :: i < k < j ==> !t[k].Connect?;
          assert false;
        }
      } else {
        if GreetedBefore(t, j) {
          var i :| 0 <= i < j && t[i].SendHandshake? && forall k :: i < k < j ==> !t[k].Connect?;
          assert i < j - 1;
          assert GreetedBefore(t, j - 1);
        }
        if GreetedBefore(t, j - 1) {
          var i :| 0 <= i < j - 1 && t[i].SendHandshake? && forall k :: i < k < j - 1 ==> !t[k].Connect?;
          assert forall k :: i < k < j ==> !t[k].Connect?;
        }
      }
    }
  }

  lemma {:induction false} OrderedMeans(t: seq<Effect>, j: nat)
    requires j <= |t|
    ensures Replay(Fresh, t[..j]).ordered <==>
      forall i :: 0 <= i < j && t[i].SendAudio? ==> GreetedBefore(t, i)
  {
    if j > 0 {
      OrderedMeans(t, j - 1);
      GreetedMeans(t, j - 1);
      assert t[..j][..j - 1] == t[..j - 1];
    }
  }

  /** The thread as `start()` leaves it: running, with no handle set. */
  function Started(inputs: seq<Input>, muted: bool): Machine {
    Machine(Outer, true, muted, 0, false, false, false, inputs, [])
  }

  /** Whatever the outcomes and control calls, a run ends finished or
      blocked in a call; every audio frame goes out on a connection whose
      handshake was sent; `finished` is signalled once, as the last effect,
      with every handle released, and never before the run is done. */
  lemma RunGuarantees(c: Config, inputs: seq<Input>, muted: bool)
    ensures var r := Exec(c, Started(inputs, muted));
      && (r.phase == Done || r.phase == Blocked)
      && (forall j :: 0 <= j < |r.trace| && r.trace[j].SendAudio? ==> GreetedBefore(r.trace, j))
      && (r.phase == Done ==>
            && |r.trace| > 0 && r.trace[|r.trace| - 1] == Finished && Finished !in r.trace[..|r.trace| - 1]
            && !r.stream && !r.audio && !r.sock)
      && (r.phase == Blocked ==> Finished !in r.trace)
  {
    var m := Started(inputs, muted);
    assert Good(m);
    ExecGood(c, m);
    var r := Exec(c, m);
    OrderedMeans(r.trace, |r.trace|);
    assert r.trace[..|r.trace|] == r.trace;
  }

  /** One failed connection attempt from an idle outer-loop head. */
  function RetryCycle(c: Config): seq<Effect> {
    [Status(ConnectingLine(c)), Connect(c.serverIp, c.serverPort), Status(RetryLine), Close(Socket),
     Sleep(RetryDelay * 1000)]
  }

  function Cycles(c: Config, n: nat): seq<Effect> {
    if n == 0 then [] else Cycles(c, n - 1) + RetryCycle(c)
  }

  function NetErrors(n: nat): seq<Input> {
    if n == 0 then [] else NetErrors(n - 1) + [Returns(NetError)]
  }

  /** One loop iteration, or nothing once the run has ended. */
  function Advance(c: Config, m: Machine): Machine {
    if Live(m) then Step(c, m) else m
  }

  /** `k` loop iterations, stopping early when the run ends. */
  function Steps(c: Config, m: Machine, k: nat): Machine {
    if k == 0 then m else Advance(c, Steps(c, m, k - 1))
  }

  lemma ExecAdvance(c: Config, m: Machine)
    ensures Exec(c, m) == Exec(c, Advance(c, m))
  {
    if Live(m) {
      ExecStep(c, m);
    }
  }

  lemma {:induction false} ExecSteps(c: Config, m: Machine, k: nat)
    ensures Exec(c, m) == Exec(c, Steps(c, m, k))
  {
    if k > 0 {
      ExecSteps(c, m, k - 1);
      ExecAdvance(c, Steps(c, m, k - 1));
    }
  }

  /** At the head of the outer loop with nothing to release. */
  predicate Idle(m: Machine) {
    m.phase == Outer && m.running && !m.stream && !m.audio && !m.sock
  }

  /** A connect that fails with a network error reports it, closes the
      socket, waits five seconds and is back at the loop head. */
  lemma RetryOnce(c: Config, m: Machine, rest: seq<Input>)
    requires Idle(m) && m.inputs == [Returns(NetError)] + rest && (rest == [] || rest[0].Returns?)
    ensures Step(c, m) == m.(inputs := rest, trace := m.trace + RetryCycle(c))
  {
    var m1 := Emit(Emit(m, [Status(ConnectingLine(c))]).(sock := true), [Connect(c.serverIp, c.serverPort)]);
    assert Drain(m1) == m1;
    assert m1.inputs[1..] == rest;
    var m2 := m1.(inputs := rest);
    assert Take(m1) == (m2, Some(NetError));
    assert CloseEffects(c, false, false, true) == [Close(Socket)];
    assert m2.trace + [Status(RetryLine)] + [Close(Socket)] + [Sleep(RetryDelay * 1000)] == m.trace + RetryCycle(c);
  }

  lemma AppendAssoc(a: seq<Effect>, b: seq<Effect>, d: seq<Effect>)
    ensures (a + b) + d == a + (b + d)
  {
  }

  /** `n` failed connects in a row: `n` retry cycles, and the run goes on
      as if from the loop head after them. */
  lemma {:induction false} Retries(c: Config, m: Machine, n: nat, rest: seq<Input>)
    requires Idle(m) && Good(m) && m.inputs == NetErrors(n) + rest && (rest == [] || rest[0].Returns?)
    ensures var after := m.(inputs := rest, trace := m.trace + Cycles(c, n));
      Good(after) && Steps(c, m, n) == after
    decreases n
  {
    if n == 0 {
      assert m.inputs == rest && m.trace + [] == m.trace;
    } else {
      var tail := [Returns(NetError)] + rest;
      assert m.inputs == NetErrors(n - 1) + tail;
      Retries(c, m, n - 1, tail);
      var p := m.(inputs := tail, trace := m.trace + Cycles(c, n - 1));
      RetryOnce(c, p, rest);
      StepGood(c, p);
      AppendAssoc(m.trace, Cycles(c, n - 1), RetryCycle(c));
    }
  }

  /** The number of connection attempts in a trace. */
  function Attempts(t: seq<Effect>): nat {
    if t == [] then 0 else (if t[0].Connect? then 1 else 0) + Attempts(t[1..])
  }

  lemma {:induction false} AttemptsAppend(a: seq<Effect>, b: seq<Effect>)
    ensures Attempts(a + b) == Attempts(a) + Attempts(b)
  {
    if a == [] {
      assert a + b == b;
    } else {
      assert (a + b)[1..] == a[1..] + b;
      AttemptsAppend(a[1..], b);
    }
  }

  lemma CycleAttempts(c: Config)
    ensures Attempts(RetryCycle(c)) == 1
  {
    var r := RetryCycle(c);
    assert Attempts(r[4..]) == 0 by {
      assert r[4..][1..] == [];
    }
    assert Attempts(r[3..]) == 0 by {
      assert r[3..][1..] == r[4..];
    }
    assert Attempts(r[2..]) == 0 by {
      assert r[2..][1..] == r[3..];
    }
    assert Attempts(r[1..]) == 1 by {
      assert r[1..][1..] == r[2..];
    }
  }

  lemma {:induction false} CyclesAttempts(c: Config, n: nat)
    ensures Attempts(Cycles(c, n)) == n
  {
    if n > 0 {
      CyclesAttempts(c, n - 1);
      AttemptsAppend(Cycles(c, n - 1), RetryCycle(c));
      CycleAttempts(c);
    }
  }

  /** The status line and connect of one attempt. */
  function Attempt(c: Config): seq<Effect> {
    [Status(ConnectingLine(c)), Connect(c.serverIp, c.serverPort)]
  }

  lemma AttemptTrace(c: Config, m: Machine)
    ensures Dial(c, m).trace == m.trace + Attempt(c)
    ensures Attempts(Attempt(c)) == 1
  {
    var two := Attempt(c);
    assert Attempts(two[1..]) == 1 by {
      assert two[1..][1..] == [];
    }
  }

  /** `n` connection failures and then a connect that succeeds: the trace
      starts with `n` retry cycles and a further attempt, `n + 1` in all. */
  lemma RetriesThenConnect(c: Config, m: Machine, n: nat, data: seq<byte>, rest: seq<Input>)
    requires Idle(m) && Good(m) && m.inputs == NetErrors(n) + [Returns(Ok(data))] + rest
    ensures m.trace + Cycles(c, n) + Attempt(c) <= Exec(c, m).trace
    ensures Attempts(Cycles(c, n) + Attempt(c)) == n + 1
  {
    assert m.inputs == NetErrors(n) + ([Returns(Ok(data))] + rest);
    Retries(c, m, n, [Returns(Ok(data))] + rest);
    ExecSteps(c, m, n);
    var after := m.(inputs := [Returns(Ok(data))] + rest, trace := m.trace + Cycles(c, n));
    DialPrefix(c, after);
    AttemptTrace(c, after);
    CyclesAttempts(c, n);
    AttemptsAppend(Cycles(c, n), Attempt(c));
  }

  /** Reading from an input list that starts with an outcome takes it. */
  lemma TakeHead(m: Machine, o: Outcome, rest: seq<Input>)
    requires m.inputs == [Returns(o)] + rest
    ensures Take(m) == (m.(inputs := rest), Some(o))
  {
    assert m.inputs[1..] == rest;
  }

  /** Sending a frame whose `sendall` succeeds: nothing when muted,
      otherwise one `SendAudio` effect and the outcome consumed. */
  lemma TransmitStep(c: Config, m: Machine, data: seq<byte>, ack: seq<byte>, rest: seq<Input>)
    requires m.inputs == [Returns(Ok(ack))] + rest
    ensures Transmit(c, m, data)
      == if m.muted then m else m.(inputs := rest, trace := m.trace + [SendAudio(data)])
  {
    if !m.muted {
      TakeHead(Emit(m, [SendAudio(data)]), Ok(ack), rest);
    }
  }

  /** What happens to a frame once it is read: its level is reported on
      even counts only, muted or not, and it is sent exactly when not muted. */
  lemma CapturedFrame(c: Config, m: Machine, data: seq<byte>, ack: seq<byte>, rest: seq<Input>)
    requires m.inputs == [Returns(Ok(ack))] + rest
    requires (m.counter + 1) % 2 == 0 ==> LevelFault(data).None?
    ensures Captured(c, (m, Some(Ok(data)))) == m.(
      counter := m.counter + 1,
      inputs := if m.muted then m.inputs else rest,
      trace := m.trace
        + (if (m.counter + 1) % 2 == 0 then [LevelChanged(FrameLevel(data))] else [])
        + (if m.muted then [] else [SendAudio(data)]))
  {
    var read := m.(counter := m.counter + 1);
    CapturedOk(c, (m, Some(Ok(data))), data);
    ForwardStep(c, read, data);
    var shown := ShowStep(read, data);
    TransmitStep(c, shown, data, ack, rest);
    if m.muted {
      assert shown.trace + [] == shown.trace;
    }
  }

  /** A frame read is counted and forwarded. */
  lemma CapturedOk(c: Config, t: (Machine, Option<Outcome>), data: seq<byte>)
    requires t.1 == Some(Ok(data))
    ensures Captured(c, t) == Forward(c, t.0.(counter := t.0.counter + 1), data)
  {
    assert Succeeded(t.1) && t.1.value.data == data;
  }

  /** A frame whose level can be computed where it is needed goes on to
      be transmitted. */
  lemma ForwardStep(c: Config, m: Machine, data: seq<byte>)
    requires m.counter % 2 == 0 ==> LevelFault(data).None?
    ensures Forward(c, m, data) == Transmit(c, Show(m, data), data)
  {
  }

  /** The level report of a frame that has one, on even counts only. */
  lemma ShowStep(m: Machine, data: seq<byte>) returns (shown: Machine)
    requires m.counter % 2 == 0 ==> LevelFault(data).None?
    ensures shown == Show(m, data)
    ensures shown == m.(trace := m.trace + (if m.counter % 2 == 0 then [LevelChanged(FrameLevel(data))] else []))
  {
    shown := Show(m, data);
    if m.counter % 2 != 0 {
      assert m.trace + [] == m.trace;
    }
  }

  /** A frame read while streaming: it is read whatever the mute state, its
      level is reported on even counts only, muted or not, and it is sent
      exactly when not muted. */
  lemma FrameStep(c: Config, m: Machine, data: seq<byte>, ack: seq<byte>, rest: seq<Input>)
    requires m.phase == Inner && m.running
    requires m.inputs == [Returns(Ok(data)), Returns(Ok(ack))] + rest
    requires (m.counter + 1) % 2 == 0 ==> LevelFault(data).None?
    ensures InnerStep(c, m) == m.(
      counter := m.counter + 1,
      inputs := if m.muted then [Returns(Ok(ack))] + rest else rest,
      trace := m.trace
        + (if (m.counter + 1) % 2 == 0 then [LevelChanged(FrameLevel(data))] else [])
        + (if m.muted then [] else [SendAudio(data)]))
  {
    assert m.inputs == [Returns(Ok(data))] + ([Returns(Ok(ack))] + rest);
    TakeHead(m, Ok(data), [Returns(Ok(ack))] + rest);
    CapturedFrame(c, m.(inputs := [Returns(Ok(ack))] + rest), data, ack, rest);
  }

  /** On an even count, a frame whose level cannot be computed is a fatal
      error: reported once, then cleanup and `finished`, with no retry. */
  lemma BadFrameIsFatal(c: Config, m: Machine, data: seq<byte>, rest: seq<Input>)
    requires m.phase == Inner && m.running && m.inputs == [Returns(Ok(data))] + rest
    requires (m.counter + 1) % 2 == 0 && LevelFault(data).Some?
    ensures var r := InnerStep(c, m);
      && r.phase == Done && r.inputs == rest && !r.stream && !r.audio && !r.sock
      && r.trace == m.trace + [ErrorMessage("Fatal Error: " + LevelFault(data).value)]
                   + CloseEffects(c, m.stream, m.audio, m.sock) + [Finished]
  {
    assert m.inputs[1..] == rest;
    assert Take(m) == (m.(inputs := rest), Some(Ok(data)));
  }

  /** Once `running` is clear, whichever loop the worker is in, the run ends
      with the final cleanup and `finished`, and reads nothing more. */
  lemma StoppedFinishes(c: Config, m: Machine)
    requires Live(m) && !m.running
    ensures Exec(c, m) == Finish(c, m)
  {
    ExecStep(c, m);
    if m.phase == Inner {
      ExecStep(c, m.(phase := Outer));
      assert Finish(c, m.(phase := Outer)) == Finish(c, m);
    }
  }

  /** `stop()` during a read: the frame in flight is still counted and
      read, and sent since the count is odd and the client not muted. */
  lemma StopDuringRead(c: Config, m: Machine, data: seq<byte>, ack: seq<byte>)
    requires m.phase == Inner && m.running && !m.muted && m.counter % 2 == 0
    requires m.inputs == [Stop, Returns(Ok(data)), Returns(Ok(ack))]
    ensures InnerStep(c, m)
      == m.(running := false, counter := m.counter + 1, inputs := [], trace := m.trace + [SendAudio(data)])
  {
    var stopped := m.(running := false, inputs := [Returns(Ok(data)), Returns(Ok(ack))]);
    assert m.inputs[1..] == stopped.inputs;
    assert Drain(m) == Drain(stopped);
    var read := stopped.(inputs := [Returns(Ok(ack))]);
    assert stopped.inputs[1..] == read.inputs;
    assert Take(m) == (read, Some(Ok(data)));
    CapturedFrame(c, read, data, ack, []);
  }

  /** ... after which both loops see the flag and the run ends without
      reconnecting. */
  lemma StopAfterFrame(c: Config, m: Machine, data: seq<byte>, ack: seq<byte>)
    requires m.phase == Inner && m.running && !m.muted && m.counter % 2 == 0
    requires m.inputs == [Stop, Returns(Ok(data)), Returns(Ok(ack))]
    ensures Exec(c, m) == m.(phase := Done, running := false, counter := m.counter + 1, inputs := [],
      stream := false, audio := false, sock := false,
      trace := m.trace + [SendAudio(data)] + CloseEffects(c, m.stream, m.audio, m.sock) + [Finished])
  {
    StopDuringRead(c, m, data, ack);
    ExecStep(c, m);
    StoppedFinishes(c, InnerStep(c, m));
  }

}
