/**
 * The server side of one connection (`ClientHandler`, server.py:239-354)
 * and the listener that owns the handlers (`ServerThread`, server.py:356-393).
 * Sockets, threads and the transcription engine are replaced by their
 * outcomes, passed in as parameters.
 */
module Session {

  import opened Wrappers
  import opened Pcm
  import opened Events
  import opened Sentences
  import opened Handshake
  import opened Activity

  /** `SocketStream`, the pull source handed to the transcription engine. */
  class SocketStream {
    const clientName: string
    const signals: TranscriptSignals

    constructor (signals: TranscriptSignals, clientName: string)
      ensures this.signals == signals && this.clientName == clientName
    {
      this.signals := signals;
      this.clientName := clientName;
    }

    /** `read(size)`. `received` is what `conn.recv(size)` returned, or `None`
        when it raised. The bytes are passed through untouched; an empty
        result is the engine's only end-of-stream signal. A chunk of at least
        one whole sample also reports whether the client is speaking. */
    method Read(received: Option<seq<byte>>) returns (data: seq<byte>)
      modifies signals
      ensures data == (if received.Some? then received.value else [])
      ensures signals.events == old(signals.events)
        + (if |data| >= 2 then [Activity(clientName, IsActive(data))] else [])
    {
      if received.None? {
        return [];
      }
      data := received.value;
      if |data| == 0 {
        return;
      }
      var count := |data| / 2;
      if count > 0 {
        var sumSquares := SumOfSquares(data);
        var isActive := 10 * sumSquares > Threshold * Threshold * count;
        signals.Emit(Activity(clientName, isActive));
      }
    }
  }

  /** The log line announcing a connection. */
  function ConnectedLine(name: string, lang: string): string {
    "New connection: " + name + " (Lang: " + lang + ")"
  }

  /** The events `cleanup` emits. */
  function Farewell(name: string): seq<Event> {
    [Disconnected(name), LogMessage("Disconnected: " + name)]
  }

  /** One more word handled: the log and the sentence flag move from the
      rendering of `words[..i]` to that of `words[..i + 1]`. */
  lemma TranscriptStep(events: seq<Event>, log: seq<Event>, name: string, start: bool, words: seq<string>, i: nat)
    requires i < |words|
    requires var o := Format(Render(start, words[..i]).newSentence, words[i]);
      events == log + Transcripts(name, Render(start, words[..i]).fragments) + Transcripts(name, Emitted(o.fragment))
    ensures Render(start, words[..i + 1]).newSentence == Format(Render(start, words[..i]).newSentence, words[i]).newSentence
    ensures events == log + Transcripts(name, Render(start, words[..i + 1]).fragments)
  {
    var before := Render(start, words[..i]);
    var o := Format(before.newSentence, words[i]);
    assert words[..i + 1] == words[..i] + [words[i]];
    RenderSnoc(start, words[..i], words[i]);
    ExtendLog(events, log, name, before.fragments, Emitted(o.fragment));
  }

  /** What the transcription engine does during `run_synchronously`, in
      order: pull a chunk through `SocketStream.read` (`received` is what
      `conn.recv` returned, `None` when it raised), or deliver an
      `AddTranscript` message carrying recognised words. */
  datatype Call = Pull(received: Option<seq<byte>>) | Deliver(words: seq<string>)

  /** The events one pull emits. */
  function PullEvents(name: string, received: Option<seq<byte>>): seq<Event> {
    var data := if received.Some? then received.value else [];
    if |data| >= 2 then [Activity(name, IsActive(data))] else []
  }

  /** The events of a session so far and the sentence flag it leaves. */
  datatype Log = Log(events: seq<Event>, newSentence: bool)

  /** One engine call appended to a log. */
  function Apply(name: string, log: Log, call: Call): Log {
    match call
    case Pull(received) => Log(log.events + PullEvents(name, received), log.newSentence)
    case Deliver(words) =>
      var r := Render(log.newSentence, words);
      Log(log.events + Transcripts(name, r.fragments), r.newSentence)
  }

  /** The events the engine's calls cause, from the flag `start`. */
  function Streamed(name: string, start: bool, calls: seq<Call>): Log {
    if calls == [] then Log([], start)
    else Apply(name, Streamed(name, start, calls[..|calls| - 1]), calls[|calls| - 1])
  }

  /** Every word delivered, in order. */
  function Delivered(calls: seq<Call>): seq<string> {
    if calls == [] then []
    else
      var last := calls[|calls| - 1];
      Delivered(calls[..|calls| - 1]) + (if last.Deliver? then last.words else [])
  }

  /** A log with its activity events taken out. */
  function Transcribed(events: seq<Event>): seq<Event> {
    if events == [] then []
    else
      var last := events[|events| - 1];
      Transcribed(events[..|events| - 1]) + (if last.Activity? then [] else [last])
  }

  lemma {:induction false} TranscribedAppend(a: seq<Event>, b: seq<Event>)
    ensures Transcribed(a + b) == Transcribed(a) + Transcribed(b)
    decreases |b|
  {
    if b == [] {
      assert a + b == a;
    } else {
      var b' := b[..|b| - 1];
      assert (a + b)[..|a + b| - 1] == a + b';
      assert (a + b)[|a + b| - 1] == b[|b| - 1];
      TranscribedAppend(a, b');
    }
  }

  lemma {:induction false} TranscribedTranscripts(name: string, fragments: seq<string>)
    ensures Transcribed(Transcripts(name, fragments)) == Transcripts(name, fragments)
    decreases |fragments|
  {
    if fragments != [] {
      var f' := fragments[..|fragments| - 1];
      TranscribedTranscripts(name, f');
      TranscribedAppend(Transcripts(name, f'), [Transcript(name, fragments[|fragments| - 1])]);
      assert Transcribed([Transcript(name, fragments[|fragments| - 1])]) == [Transcript(name, fragments[|fragments| - 1])] by {
        assert [Transcript(name, fragments[|fragments| - 1])][..0] == [];
      }
    }
  }

  /** Audio pulls interleaved with the recognised words change nothing in
      the transcript: without its activity events, the log is the
      transcript of every word delivered, in order, and the flag is the one
      that word sequence leaves. */
  lemma {:induction false} StreamedTranscript(name: string, start: bool, calls: seq<Call>)
    ensures var log, r := Streamed(name, start, calls), Render(start, Delivered(calls));
      Transcribed(log.events) == Transcripts(name, r.fragments) && log.newSentence == r.newSentence
    decreases |calls|
  {
    if calls != [] {
      var pre, last := calls[..|calls| - 1], calls[|calls| - 1];
      StreamedTranscript(name, start, pre);
      var before := Streamed(name, start, pre);
      var ra := Render(start, Delivered(pre));
      match last
      case Pull(received) =>
        var data := if received.Some? then received.value else [];
        assert Transcribed(PullEvents(name, received)) == [] by {
          if |data| >= 2 {
            assert [Activity(name, IsActive(data))][..0] == [];
          }
        }
        TranscribedAppend(before.events, PullEvents(name, received));
        assert Transcribed(Streamed(name, start, calls).events) == Transcribed(before.events) + [];
        assert Delivered(calls) == Delivered(pre) + [];
        assert Delivered(pre) + [] == Delivered(pre);
        assert Transcribed(before.events) + [] == Transcribed(before.events);
      case Deliver(words) =>
        var rb := Render(ra.newSentence, words);
        RenderAppend(start, Delivered(pre), words);
        TranscribedAppend(before.events, Transcripts(name, rb.fragments));
        TranscribedTranscripts(name, rb.fragments);
        TranscriptsAppend(name, ra.fragments, rb.fragments);
    }
  }

  /** One more engine call handled: the log moves from the calls before
      `i` to those up to and including it. */
  lemma StreamedStep(events: seq<Event>, log: seq<Event>, name: string, calls: seq<Call>, i: nat, added: seq<Event>)
    requires i < |calls|
    requires Apply(name, Streamed(name, true, calls[..i]), calls[i]).events == Streamed(name, true, calls[..i]).events + added
    requires events == log + Streamed(name, true, calls[..i]).events + added
    ensures Streamed(name, true, calls[..i + 1]) == Apply(name, Streamed(name, true, calls[..i]), calls[i])
    ensures events == log + Streamed(name, true, calls[..i + 1]).events
  {
    assert calls[..i + 1][..i] == calls[..i];
  }

  class ClientHandler {
    /** The peer's port, `addr[1]`. */
    const port: nat
    var clientName: string
    var running: bool
    /** How many times `conn.close()` has been attempted. */
    var closeCalls: nat
    const buffer: SentenceBuffer
    const signals: TranscriptSignals

    ghost predicate Valid()
      reads this
    {
      buffer.signals == signals
    }

    constructor (port: nat, signals: TranscriptSignals)
      ensures Valid() && fresh(buffer)
      ensures this.port == port && this.signals == signals
      ensures clientName == FallbackName(port) && running && closeCalls == 0
      ensures buffer.clientName == clientName && buffer.newSentence
    {
      this.port := port;
      this.signals := signals;
      clientName := FallbackName(port);
      buffer := new SentenceBuffer(FallbackName(port), signals);
      running := true;
      closeCalls := 0;
    }

    /** Step 1 of `run`: settle the client's identity from the handshake,
        tell the buffer, and announce the connection. */
    method Handshake(received: Option<string>) returns (lang: string)
      modifies this`clientName, buffer`clientName, signals
      ensures Identity(clientName, lang) == Parse(received, port)
      ensures buffer.clientName == clientName
      ensures signals.events == old(signals.events)
        + [Connected(clientName, lang), LogMessage(ConnectedLine(clientName, lang))]
    {
      var id := Parse(received, port);
      clientName, lang := id.name, id.lang;
      buffer.clientName := clientName;
      signals.Emit(Connected(clientName, lang));
      signals.Emit(LogMessage(ConnectedLine(clientName, lang)));
    }

    /** `handle_transcript`: every recognised word, in order, goes to the buffer. */
    method HandleTranscript(words: seq<string>)
      requires Valid()
      modifies buffer`newSentence, signals
      ensures buffer.newSentence == Render(old(buffer.newSentence), words).newSentence
      ensures signals.events
        == old(signals.events) + Transcripts(buffer.clientName, Render(old(buffer.newSentence), words).fragments)
    {
      ghost var start, log := buffer.newSentence, signals.events;
      var i := 0;
      while i < |words|
        invariant 0 <= i <= |words|
        invariant buffer.newSentence == Render(start, words[..i]).newSentence
        invariant signals.events == log + Transcripts(buffer.clientName, Render(start, words[..i]).fragments)
      {
        ghost var before := Render(start, words[..i]);
        ghost var o := Format(before.newSentence, words[i]);
        ghost var name := buffer.clientName;
        buffer.AddWord(words[i]);
        TranscriptStep(signals.events, log, name, start, words, i);
        i := i + 1;
      }
      assert words[..|words|] == words;
    }

    /** `cleanup`: marks the handler stopped, flushes the buffer (a no-op),
        announces the disconnection and closes the socket, swallowing any
        error. It announces again on every call. */
    method Cleanup()
      modifies this`running, this`closeCalls, signals
      ensures !running && closeCalls == old(closeCalls) + 1
      ensures signals.events == old(signals.events) + Farewell(clientName)
    {
      running := false;
      buffer.ForceFlush();
      signals.Emit(Disconnected(clientName));
      signals.Emit(LogMessage("Disconnected: " + clientName));
      closeCalls := closeCalls + 1;
    }

    /** `run`: the handshake, then the engine's calls in order (audio pulls
        through a `SocketStream` named after the client, and recognised
        words into the buffer), then, if the session raised, the error
        line, and always `cleanup`. `failure` is the message of the
        exception that ended the session. */
    method Run(received: Option<string>, calls: seq<Call>, failure: Option<string>)
      requires Valid() && buffer.newSentence
      modifies this`clientName, this`running, this`closeCalls, buffer`clientName, buffer`newSentence, signals
      ensures var id := Parse(received, port);
        var session := Streamed(id.name, true, calls);
        && clientName == id.name && buffer.clientName == id.name && !running
        && closeCalls == old(closeCalls) + 1 && buffer.newSentence == session.newSentence
        && signals.events == old(signals.events)
          + [Connected(id.name, id.lang), LogMessage(ConnectedLine(id.name, id.lang))]
          + session.events
          + (if failure.Some? then [LogMessage("Error with " + id.name + ": " + failure.value)] else [])
          + Farewell(id.name)
    {
      var lang := Handshake(received);
      var stream := new SocketStream(signals, clientName);
      ghost var log := signals.events;
      var i := 0;
      assert calls[..0] == [];
      while i < |calls|
        invariant 0 <= i <= |calls| && Valid()
        invariant clientName == Parse(received, port).name && buffer.clientName == clientName
        invariant closeCalls == old(closeCalls)
        invariant stream.signals == signals && stream.clientName == clientName
        invariant buffer.newSentence == Streamed(clientName, true, calls[..i]).newSentence
        invariant signals.events == log + Streamed(clientName, true, calls[..i]).events
      {
        ghost var before := Streamed(clientName, true, calls[..i]);
        ghost var start := signals.events;
        match calls[i] {
          case Pull(r) =>
            var data := stream.Read(r);
            StreamedStep(signals.events, log, clientName, calls, i, PullEvents(clientName, r));
          case Deliver(words) =>
            HandleTranscript(words);
            StreamedStep(signals.events, log, clientName, calls, i,
              Transcripts(clientName, Render(before.newSentence, words).fragments));
        }
        i := i + 1;
      }
      assert calls[..|calls|] == calls;
      if failure.Some? {
        signals.Emit(LogMessage("Error with " + clientName + ": " + failure.value));
      }
      Cleanup();
    }
  }

  /** The disconnect announcements of a list of handlers, in order. */
  function Farewells(names: seq<string>): seq<Event> {
    if names == [] then [] else Farewells(names[..|names| - 1]) + Farewell(names[|names| - 1])
  }

  lemma FarewellsStep(events: seq<Event>, log: seq<Event>, names: seq<string>, i: nat)
    requires i < |names| && events == log + Farewells(names[..i]) + Farewell(names[i])
    ensures events == log + Farewells(names[..i + 1])
  {
    assert names[..i + 1][..i] == names[..i];
  }

  class ServerThread {
    var running: bool
    /** Whether `server_socket` is set. */
    var hasSocket: bool
    var clients: seq<ClientHandler>
    /** How many times the listening socket has been closed. */
    var listenerCloses: nat
    const signals: TranscriptSignals

    /** Every handler shares the server's signals, and each accepted
        connection has a handler of its own. */
    ghost predicate Valid()
      reads this, clients
    {
      && (forall c :: c in clients ==> c.signals == signals)
      && (forall i, j :: 0 <= i < j < |clients| ==> clients[i] != clients[j])
    }

    function Names(): seq<string>
      reads this, clients
    {
      seq(|clients|, k reads this, clients requires 0 <= k < |clients| => clients[k].clientName)
    }

    /** How many times each handler's connection has been closed so far. */
    ghost method CloseCounts() returns (closes: seq<nat>)
      ensures |closes| == |clients| && forall k :: 0 <= k < |clients| ==> closes[k] == clients[k].closeCalls
    {
      closes := seq(|clients|, k reads this, clients requires 0 <= k < |clients| => clients[k].closeCalls);
    }

    constructor (signals: TranscriptSignals)
      ensures Valid() && this.signals == signals && running && !hasSocket
      ensures clients == [] && listenerCloses == 0
    {
      this.signals := signals;
      running := true;
      hasSocket := false;
      clients := [];
      listenerCloses := 0;
    }

    /** `run`: the accept loop. `accepted` lists the peer port of each
        accepted connection until `accept` raises (`None`): each one gets a
        fresh handler under its fallback name, started and kept in
        `clients` even after it finishes. The listening socket is closed
        once the loop ends, that is when `accept` raises or the flag is
        found cleared; while `accept` keeps succeeding it stays open. */
    method Serve(accepted: seq<Option<nat>>)
      requires Valid()
      modifies this`clients, this`listenerCloses, this`hasSocket
      ensures Valid() && hasSocket
      ensures listenerCloses == old(listenerCloses) + (if running && None !in accepted then 0 else 1)
      ensures |clients| >= |old(clients)| && clients[..|old(clients)|] == old(clients)
      ensures |clients| - |old(clients)| <= |accepted|
      ensures !running ==> clients == old(clients)
      ensures forall k :: 0 <= k < |clients| - |old(clients)| ==>
        (accepted[k].Some? && clients[|old(clients)| + k].port == accepted[k].value)
      ensures running ==>
        (|clients| - |old(clients)| == |accepted| || accepted[|clients| - |old(clients)|].None?)
      ensures forall k :: |old(clients)| <= k < |clients| ==>
        && fresh(clients[k]) && clients[k].Valid() && clients[k].signals == signals
        && clients[k].running && clients[k].closeCalls == 0
        && clients[k].clientName == FallbackName(clients[k].port) && clients[k].buffer.newSentence
    {
      hasSocket := true;
      var i := 0;
      while running && i < |accepted|
        invariant 0 <= i <= |accepted| && Valid() && listenerCloses == old(listenerCloses) && hasSocket
        invariant !running ==> i == 0
        invariant |clients| == |old(clients)| + i && clients[..|old(clients)|] == old(clients)
        invariant forall k :: 0 <= k < i ==> accepted[k].Some? && clients[|old(clients)| + k].port == accepted[k].value
        invariant forall k :: |old(clients)| <= k < |clients| ==>
          && fresh(clients[k]) && clients[k].Valid() && clients[k].signals == signals
          && clients[k].running && clients[k].closeCalls == 0
          && clients[k].clientName == FallbackName(clients[k].port) && clients[k].buffer.newSentence
      {
        if accepted[i].None? {
          break;
        }
        var client := new ClientHandler(accepted[i].value, signals);
        clients := clients + [client];
        i := i + 1;
      }
      if !running || i < |accepted| {
        listenerCloses := listenerCloses + 1;
      }
    }

    /** The first `i` handlers are cleaned up: each is stopped, closed once
        more than its count in `closes`, and announced, in order, after
        `log`; the rest are untouched. */
    ghost predicate CleanedUpTo(i: nat, names: seq<string>, closes: seq<nat>, log: seq<Event>)
      reads this, clients, signals
    {
      && i <= |clients| && |names| == |closes| == |clients|
      && (forall k :: 0 <= k < |clients| ==>
        && clients[k].clientName == names[k]
        && clients[k].closeCalls == closes[k] + (if k < i then 1 else 0)
        && (k < i ==> !clients[k].running))
      && signals.events == log + Farewells(names[..i])
    }

    /** `client.cleanup()` for the next handler of `stop`'s loop. */
    method CleanupNext(i: nat, ghost names: seq<string>, ghost closes: seq<nat>, ghost log: seq<Event>)
      requires Valid() && i < |clients| && CleanedUpTo(i, names, closes, log)
      modifies clients`running, clients`closeCalls, signals
      ensures Valid() && CleanedUpTo(i + 1, names, closes, log)
    {
      clients[i].Cleanup();
      FarewellsStep(signals.events, log, names, i);
    }

    /** `stop`'s loop: `client.cleanup()` for every handler ever accepted,
        in order, so a handler that already finished announces its
        disconnection a second time. */
    method CleanupAll()
      requires Valid()
      modifies clients`running, clients`closeCalls, signals
      ensures Valid()
      ensures signals.events == old(signals.events) + Farewells(old(Names()))
      ensures forall k :: 0 <= k < |clients| ==>
        && !clients[k].running && clients[k].closeCalls == old(clients[k].closeCalls) + 1
        && clients[k].clientName == old(clients[k].clientName)
    {
      ghost var names := Names();
      ghost var closes := CloseCounts();
      var i := 0;
      while i < |clients|
        invariant Valid() && CleanedUpTo(i, names, closes, old(signals.events))
      {
        CleanupNext(i, names, closes, old(signals.events));
        i := i + 1;
      }
      assert names[..|clients|] == names;
    }

    /** `stop`: clears the flag, closes the listening socket if one was
        created, and cleans up every handler ever accepted. */
    method Stop()
      requires Valid()
      modifies this`running, this`listenerCloses, clients`running, clients`closeCalls, signals
      ensures !running && clients == old(clients) && hasSocket == old(hasSocket)
      ensures listenerCloses == old(listenerCloses) + (if hasSocket then 1 else 0)
      ensures signals.events == old(signals.events) + Farewells(old(Names()))
      ensures forall k :: 0 <= k < |clients| ==>
        && !clients[k].running && clients[k].closeCalls == old(clients[k].closeCalls) + 1
        && clients[k].clientName == old(clients[k].clientName)
    {
      ghost var names := Names();
      running := false;
      if hasSocket {
        listenerCloses := listenerCloses + 1;
      }
      assert Names() == names;
      CleanupAll();
    }
  }

}
