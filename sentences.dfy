/**
 * `SentenceBuffer` (server.py:66-112): a streaming formatter that turns the
 * recognised words of one client into spaced, capitalised transcript
 * fragments, looking back at most one token.
 */
module Sentences {

  import opened Wrappers
  import opened Text
  import opened Events

  /** Tokens that are emitted without a leading space: the one-character
      strings `.` `,` `!` `?` `:` `;` `)` `]` `}` and `"`. */
  predicate IsNoSpacePunct(word: string) {
    |word| == 1 && word[0] in ".,!?:;)]}\""
  }

  /** The characters that end a sentence. */
  predicate IsTerminator(c: char) {
    c == '.' || c == '!' || c == '?'
  }

  /** Upper-cases the first character at a sentence start when it is alphanumeric. */
  function Capitalise(newSentence: bool, word: string): string {
    if newSentence && |word| > 0 && IsAlnum(word[0]) then [Upper(word[0])] + word[1..] else word
  }

  /** The leading space decision. */
  function Prefix(word: string): string {
    if IsNoSpacePunct(word) || (|word| > 0 && word[0] == '\'') then "" else " "
  }

  predicate EndsSentence(word: string) {
    |word| > 0 && IsTerminator(word[|word| - 1])
  }

  /** What one `add_word` call emits (if anything) and the flag it leaves. */
  datatype Output = Output(fragment: Option<string>, newSentence: bool)

  function Format(newSentence: bool, token: string): Output {
    var word := Strip(token);
    if word == [] then Output(None, newSentence)
    else
      var w := Capitalise(newSentence, word);
      Output(Some(Prefix(w) + w), EndsSentence(w))
  }

  function Emitted(fragment: Option<string>): seq<string> {
    if fragment.Some? then [fragment.value] else []
  }

  /** A token that is empty after stripping emits nothing and leaves the flag alone. */
  lemma FormatBlank(newSentence: bool, token: string)
    requires forall k :: 0 <= k < |token| ==> IsSpace(token[k])
    ensures Format(newSentence, token) == Output(None, newSentence)
  {
    StripEmptyIff(token);
  }

  /** Capitalisation changes at most the first character, and never whether
      the word is a no-space mark, starts with an apostrophe or ends a sentence. */
  lemma {:induction false} CapitaliseShape(newSentence: bool, word: string)
    requires word != []
    ensures var w := Capitalise(newSentence, word);
      && |w| == |word| && w[1..] == word[1..]
      && w[0] == (if newSentence && IsAlnum(word[0]) then Upper(word[0]) else word[0])
      && (IsNoSpacePunct(w) <==> IsNoSpacePunct(word))
      && (w[0] == '\'' <==> word[0] == '\'')
      && (EndsSentence(w) <==> EndsSentence(word))
  {
    var w := Capitalise(newSentence, word);
    if newSentence && IsAlnum(word[0]) {
      assert IsAlnum(w[0]);
      if |word| > 1 {
        assert w[|w| - 1] == word[|word| - 1];
      }
    }
  }

  /** A token that is not blank emits exactly one fragment: the stripped word,
      with only its first character upper-cased and only at a sentence start
      when that character is alphanumeric, preceded by one space unless the
      word is one of the no-space punctuation marks or starts with an
      apostrophe. The new flag says whether the word ends in `.`, `!` or `?`. */
  lemma {:induction false} FormatWord(newSentence: bool, token: string)
    requires Strip(token) != []
    ensures var word, r := Strip(token), Format(newSentence, token);
      && r.fragment.Some?
      && var f := r.fragment.value;
      && (|f| == |word| <==> IsNoSpacePunct(word) || word[0] == '\'')
      && (|f| == |word| || (|f| == |word| + 1 && f[0] == ' '))
      && f[|f| - |word|] == (if newSentence && IsAlnum(word[0]) then Upper(word[0]) else word[0])
      && f[|f| - |word| + 1..] == word[1..]
      && (r.newSentence <==> IsTerminator(word[|word| - 1]))
  {
    var word := Strip(token);
    var w := Capitalise(newSentence, word);
    CapitaliseShape(newSentence, word);
    var f := Prefix(w) + w;
    assert Format(newSentence, token) == Output(Some(f), EndsSentence(w));
    if Prefix(w) == "" {
      assert f == w;
    } else {
      assert f == [' '] + w && f[1..] == w;
    }
  }

  /** The flag after a non-blank token depends on that token alone. */
  lemma FormatState(newSentence: bool, token: string)
    requires Strip(token) != []
    ensures Format(newSentence, token).fragment.Some?
    ensures Format(newSentence, token).newSentence == EndsSentence(Strip(token))
  {
    FormatWord(newSentence, token);
  }

  /** The fragments emitted for a token sequence and the final flag. */
  datatype Rendered = Rendered(fragments: seq<string>, newSentence: bool)

  /** `add_word` applied to each token in turn, starting from `newSentence`. */
  function Render(newSentence: bool, tokens: seq<string>): Rendered {
    if tokens == [] then Rendered([], newSentence)
    else
      var before := Render(newSentence, tokens[..|tokens| - 1]);
      var o := Format(before.newSentence, tokens[|tokens| - 1]);
      Rendered(before.fragments + Emitted(o.fragment), o.newSentence)
  }

  /** The non-blank tokens, stripped. */
  function Words(tokens: seq<string>): (ws: seq<string>)
    ensures |ws| <= |tokens|
    ensures forall k :: 0 <= k < |ws| ==> ws[k] != []
  {
    if tokens == [] then []
    else
      var w := Strip(tokens[|tokens| - 1]);
      Words(tokens[..|tokens| - 1]) + (if w == [] then [] else [w])
  }

  /** Feeding tokens in two batches (two recognition messages, say) emits the
      same fragments and leaves the same flag as feeding them in one. */
  lemma {:induction false} RenderAppend(newSentence: bool, a: seq<string>, b: seq<string>)
    ensures var ra := Render(newSentence, a);
      var rb := Render(ra.newSentence, b);
      Render(newSentence, a + b) == Rendered(ra.fragments + rb.fragments, rb.newSentence)
    decreases |b|
  {
    if b != [] {
      var b', t := b[..|b| - 1], b[|b| - 1];
      assert (a + b)[..|a + b| - 1] == a + b';
      assert (a + b)[|a + b| - 1] == t;
      RenderAppend(newSentence, a, b');
      var ra := Render(newSentence, a);
      var rb' := Render(ra.newSentence, b');
      var o := Format(rb'.newSentence, t);
      assert Render(ra.newSentence, b) == Rendered(rb'.fragments + Emitted(o.fragment), o.newSentence);
      assert Render(newSentence, a + b) == Rendered((ra.fragments + rb'.fragments) + Emitted(o.fragment), o.newSentence);
      assert (ra.fragments + rb'.fragments) + Emitted(o.fragment) == ra.fragments + (rb'.fragments + Emitted(o.fragment));
    } else {
      assert a + b == a;
      assert Render(newSentence, a).fragments + [] == Render(newSentence, a).fragments;
    }
  }

  /** One fragment per non-blank token, and the final flag depends only on the
      last non-blank token: it holds iff that token ends a sentence (or, with
      no such token, the flag is unchanged). */
  lemma {:induction false} RenderLookback(newSentence: bool, tokens: seq<string>)
    ensures var r, ws := Render(newSentence, tokens), Words(tokens);
      && |r.fragments| == |ws|
      && r.newSentence == (if ws == [] then newSentence else EndsSentence(ws[|ws| - 1]))
  {
    if tokens != [] {
      var t := tokens[|tokens| - 1];
      RenderLookback(newSentence, tokens[..|tokens| - 1]);
      var before := Render(newSentence, tokens[..|tokens| - 1]);
      var o := Format(before.newSentence, t);
      assert Render(newSentence, tokens) == Rendered(before.fragments + Emitted(o.fragment), o.newSentence);
      if Strip(t) != [] {
        FormatState(before.newSentence, t);
        assert Words(tokens) == Words(tokens[..|tokens| - 1]) + [Strip(t)];
      } else {
        assert Words(tokens) == Words(tokens[..|tokens| - 1]) + [];
      }
    }
  }

  /** Appending one token to a sequence extends the rendering by that token's
      `Format` on the flag the sequence left. */
  lemma RenderSnoc(newSentence: bool, tokens: seq<string>, t: string)
    ensures var before := Render(newSentence, tokens);
      var o := Format(before.newSentence, t);
      Render(newSentence, tokens + [t]) == Rendered(before.fragments + Emitted(o.fragment), o.newSentence)
  {
    var ts := tokens + [t];
    assert ts[..|ts| - 1] == tokens && ts[|ts| - 1] == t;
  }

  /** After a token ending a sentence, a sentence starts. */
  lemma FlagAfterTerminator(newSentence: bool, a: seq<string>, p: string)
    requires Strip(p) != [] && IsTerminator(Strip(p)[|Strip(p)| - 1])
    ensures Render(newSentence, a + [p]).newSentence
  {
    RenderSnoc(newSentence, a, p);
    FormatState(Render(newSentence, a).newSentence, p);
  }

  /** The last fragment of a rendering is that of its last token, if it emits one. */
  lemma LastFragment(newSentence: bool, tokens: seq<string>, t: string, flag: bool)
    requires Render(newSentence, tokens).newSentence == flag && Format(flag, t).fragment.Some?
    ensures var fs := Render(newSentence, tokens + [t]).fragments;
      |fs| > 0 && fs[|fs| - 1] == Format(flag, t).fragment.value
  {
    RenderSnoc(newSentence, tokens, t);
  }

  /** At a sentence start, a word with an alphanumeric first character is
      emitted with that character upper-cased. */
  lemma CapitalisedFragment(t: string)
    requires Strip(t) != [] && IsAlnum(Strip(t)[0])
    ensures var o, w := Format(true, t), Strip(t);
      && o.fragment.Some?
      && var f := o.fragment.value;
      |f| >= |w| && f[|f| - |w|] == Upper(w[0]) && f[|f| - |w| + 1..] == w[1..]
  {
    FormatWord(true, t);
  }

  /** A token that follows one ending in `.`, `!` or `?` is capitalised when
      it starts with an alphanumeric character, whatever came before. */
  lemma CapitalisedAfterTerminator(newSentence: bool, a: seq<string>, p: string, t: string)
    requires Strip(p) != [] && IsTerminator(Strip(p)[|Strip(p)| - 1])
    requires Strip(t) != [] && IsAlnum(Strip(t)[0])
    ensures var fs := Render(newSentence, a + [p, t]).fragments;
      var f, w := fs[|fs| - 1], Strip(t);
      |fs| > 0 && |f| >= |w| && f[|f| - |w|] == Upper(w[0]) && f[|f| - |w| + 1..] == w[1..]
  {
    FlagAfterTerminator(newSentence, a, p);
    CapitalisedFragment(t);
    assert a + [p, t] == (a + [p]) + [t];
    LastFragment(newSentence, a + [p], t, true);
  }

  /** The worked example: a fresh buffer fed "hello", "world", ".", "it's",
      "fine". "it's" follows "." and so is capitalised. */
  const ExampleTokens: seq<string> := ["hello", "world", ".", "it's", "fine"]
  const ExampleFragments: seq<string> := [" Hello", " world", ".", " It's", " fine"]

  lemma Example()
    ensures Render(true, ExampleTokens).fragments == ExampleFragments
  {
    ExamplePrefix(5);
    assert ExampleTokens[..5] == ExampleTokens && ExampleFragments[..5] == ExampleFragments;
  }

  /** The example's first `n` tokens render to its first `n` fragments; the
      flag is set only after the third token, ".". */
  lemma {:induction false} ExamplePrefix(n: nat)
    requires n <= 5
    ensures Render(true, ExampleTokens[..n]) == Rendered(ExampleFragments[..n], n == 0 || n == 3)
  {
    if n > 0 {
      ExamplePrefix(n - 1);
      ExampleStep(n - 1);
      PrefixExtend(ExampleTokens, ExampleFragments, n, n - 1 == 0 || n - 1 == 3, n - 1 == 2);
    }
  }

  /** The `k`-th `add_word` call of the example. */
  lemma ExampleStep(k: nat)
    requires k < 5
    ensures Format(k == 0 || k == 3, ExampleTokens[k]) == Output(Some(ExampleFragments[k]), k == 2)
  {
    if k == 0 {
      StripUnchanged("hello");
      assert Capitalise(true, "hello") == "Hello";
      assert " " + "Hello" == " Hello";
    } else if k == 1 {
      StripUnchanged("world");
      assert " " + "world" == " world";
    } else if k == 2 {
      StripUnchanged(".");
      assert "" + "." == ".";
    } else if k == 3 {
      StripUnchanged("it's");
      assert Capitalise(true, "it's") == "It's";
      assert " " + "It's" == " It's";
    } else {
      StripUnchanged("fine");
      assert " " + "fine" == " fine";
    }
  }

  /** If the first `n - 1` tokens render to the first `n - 1` fragments and
      token `n - 1` formats to fragment `n - 1`, the first `n` tokens render
      to the first `n` fragments. */
  lemma PrefixExtend(tokens: seq<string>, fragments: seq<string>, n: nat, flag: bool, next: bool)
    requires 0 < n <= |tokens| && n <= |fragments|
    requires Render(true, tokens[..n - 1]) == Rendered(fragments[..n - 1], flag)
    requires Format(flag, tokens[n - 1]) == Output(Some(fragments[n - 1]), next)
    ensures Render(true, tokens[..n]) == Rendered(fragments[..n], next)
  {
    var ts := tokens[..n];
    assert ts[..|ts| - 1] == tokens[..n - 1] && ts[|ts| - 1] == tokens[n - 1];
    assert fragments[..n] == fragments[..n - 1] + [fragments[n - 1]];
  }

  /** The per-client buffer. The source's lock only serialises calls; calls are
      sequential here. */
  class SentenceBuffer {
    var clientName: string
    var newSentence: bool
    const signals: TranscriptSignals

    constructor (clientName: string, signals: TranscriptSignals)
      ensures this.clientName == clientName && this.signals == signals
      ensures newSentence
    {
      this.clientName := clientName;
      this.signals := signals;
      newSentence := true;
    }

    method AddWord(token: string)
      modifies this`newSentence, signals
      ensures var o := Format(old(newSentence), token);
        && newSentence == o.newSentence
        && signals.events == old(signals.events) + Transcripts(clientName, Emitted(o.fragment))
    {
      var word := Strip(token);
      if word == [] {
        return;
      }
      if newSentence && |word| > 0 && IsAlnum(word[0]) {
        word := [Upper(word[0])] + word[1..];
      }
      var prefix := " ";
      if IsNoSpacePunct(word) || word[0] == '\'' {
        prefix := "";
      }
      signals.Emit(Transcript(clientName, prefix + word));
      newSentence := IsTerminator(word[|word| - 1]);
    }

    /** A no-op: every token is emitted as soon as it arrives. */
    method ForceFlush()
      ensures newSentence == old(newSentence) && clientName == old(clientName)
    {
    }
  }

}
