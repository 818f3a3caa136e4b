/**
 * The server's signal hub (`TranscriptSignals`, server.py:114-121): worker
 * threads emit events that the presentation layer consumes in order. Qt's
 * cross-thread delivery is modelled as appending to one event log.
 */
module Events {

  datatype Event =
    | Transcript(client: string, text: string)   // new_transcript
    | Connected(client: string, lang: string)    // client_connected
    | Disconnected(client: string)               // client_disconnected
    | LogMessage(text: string)                   // log_message
    | Activity(client: string, active: bool)     // audio_activity

  /** One `new_transcript` event per fragment, in order. */
  function Transcripts(client: string, fragments: seq<string>): seq<Event> {
    if fragments == [] then []
    else Transcripts(client, fragments[..|fragments| - 1]) + [Transcript(client, fragments[|fragments| - 1])]
  }

  /** Emitting two runs of fragments one after the other emits the
      announcements of both runs in order. */
  lemma {:induction false} TranscriptsAppend(client: string, a: seq<string>, b: seq<string>)
    ensures Transcripts(client, a + b) == Transcripts(client, a) + Transcripts(client, b)
    decreases |b|
  {
    if b == [] {
      assert a + b == a;
    } else {
      var b' := b[..|b| - 1];
      assert (a + b)[..|a + b| - 1] == a + b';
      assert (a + b)[|a + b| - 1] == b[|b| - 1];
      TranscriptsAppend(client, a, b');
    }
  }

  /** A log that already ends in the transcripts of `a` and then of `b`
      ends in the transcripts of `a + b`. */
  lemma ExtendLog(events: seq<Event>, log: seq<Event>, client: string, a: seq<string>, b: seq<string>)
    requires events == log + Transcripts(client, a) + Transcripts(client, b)
    ensures events == log + Transcripts(client, a + b)
  {
    TranscriptsAppend(client, a, b);
  }

  class TranscriptSignals {
    /** Every event emitted so far, oldest first. */
    var events: seq<Event>

    constructor ()
      ensures events == []
    {
      events := [];
    }

    method Emit(e: Event)
      modifies this
      ensures events == old(events) + [e]
    {
      events := events + [e];
    }
  }

}
