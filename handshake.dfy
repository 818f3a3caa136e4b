/**
 * The plaintext handshake: the client sends `name|lang` once after
 * connecting (client.py:104-105); the server strips the payload and splits
 * it at the first `|`, falling back to defaults (server.py:246, 263-276).
 */
module Handshake {

  import opened Wrappers
  import opened Text

  const Separator: char := '|'
  const DefaultLanguage: string := "en"

  /** The client's handshake message, `f"{client_name}|{lang_code}"`. */
  function Encode(name: string, lang: string): string {
    name + [Separator] + lang
  }

  /** `s.split(sep, 1)` when `sep` occurs in `s`: the text before its first
      occurrence and everything after it; `None` when it does not occur. */
  function SplitFirst(s: string, sep: char): (r: Option<(string, string)>)
    ensures r.None? <==> sep !in s
    ensures r.Some? ==> s == r.value.0 + [sep] + r.value.1 && sep !in r.value.0
  {
    if s == [] then None
    else if s[0] == sep then Some(([], s[1..]))
    else match SplitFirst(s[1..], sep)
      case None => None
      case Some((before, after)) => Some(([s[0]] + before, after))
  }

  /** Splitting is unique: if `s` is `a + [sep] + b` with no `sep` in `a`,
      that is the split. */
  lemma {:induction false} SplitFirstUnique(a: string, b: string, sep: char)
    requires sep !in a
    ensures SplitFirst(a + [sep] + b, sep) == Some((a, b))
  {
    if a != [] {
      SplitFirstUnique(a[1..], b, sep);
      assert (a + [sep] + b)[1..] == a[1..] + [sep] + b;
      assert [a[0]] + a[1..] == a;
    }
  }

  /** The name the server gives a client before (or instead of) a handshake,
      `f"Client-{addr[1]}"`. */
  function FallbackName(port: nat): (name: string)
    ensures |name| > 7 && name[..7] == "Client-" && name[7..] == Decimal(port)
  {
    "Client-" + Decimal(port)
  }

  /** The identity the server settles on for a connection. */
  datatype Identity = Identity(name: string, lang: string)

  /** The server's handshake step. `received` is the decoded payload of the
      single `recv(1024)`, or `None` when receiving or UTF-8 decoding raised. */
  function Parse(received: Option<string>, port: nat): (id: Identity)
    ensures received.None? ==> id == Identity(FallbackName(port), DefaultLanguage)
    ensures received.Some? && Separator in Strip(received.value) ==>
      Strip(received.value) == id.name + [Separator] + id.lang && Separator !in id.name
    ensures received.Some? && Separator !in Strip(received.value) ==>
      id == Identity(Strip(received.value), DefaultLanguage)
  {
    match received
    case None => Identity(FallbackName(port), DefaultLanguage)
    case Some(payload) =>
      var raw := Strip(payload);
      match SplitFirst(raw, Separator)
      case Some((name, lang)) => Identity(name, lang)
      case None => Identity(raw, DefaultLanguage)
  }

  /** Round trip: the server recovers the client's name and language when the
      name contains no `|` and does not start with whitespace, and the language
      does not end with whitespace (the only characters `strip()` could take). */
  lemma RoundTrip(name: string, lang: string, port: nat)
    requires Separator !in name
    requires name == [] || !IsSpace(name[0])
    requires lang == [] || !IsSpace(lang[|lang| - 1])
    ensures Parse(Some(Encode(name, lang)), port) == Identity(name, lang)
  {
    var msg := Encode(name, lang);
    assert msg[0] == (if name == [] then Separator else name[0]);
    assert msg[|msg| - 1] == (if lang == [] then Separator else lang[|lang| - 1]);
    StripUnchanged(msg);
    SplitFirstUnique(name, lang, Separator);
  }

  /** A payload that is only whitespace names the client with the empty string
      in the default language; the port-based name is used only when the
      receive itself failed. */
  lemma BlankPayload(payload: string, port: nat)
    requires forall k :: 0 <= k < |payload| ==> IsSpace(payload[k])
    ensures Parse(Some(payload), port) == Identity("", DefaultLanguage)
  {
    StripEmptyIff(payload);
  }

}
