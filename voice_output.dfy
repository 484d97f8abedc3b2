/**
 * The voice output interface: a streamed reply is cut into sentences on
 * chunks that end with a sentence terminator, and each non-blank sentence
 * (stripped) is handed to speech synthesis; what is left at the end of the
 * stream is spoken once. `VoiceOutput` also echoes the stream to the
 * console; `QuietVoiceOutput` speaks the same sentences silently.
 */
module Voice {
  import opened Wrappers
  import opened Text

  /** The characters whose presence at the end of a chunk closes a sentence. */
  const SentenceEndings: seq<char> := ['.', '!', '?', '\n']

  /** `any(chunk.endswith(e) for e in sentence_endings)`: false for the empty chunk. */
  predicate EndsSentence(chunk: string)
    ensures EndsSentence(chunk) <==> exists i :: 0 <= i < |SentenceEndings| && EndsWith(chunk, [SentenceEndings[i]])
  {
    chunk != [] && chunk[|chunk| - 1] in SentenceEndings
  }

  /** Python's `s.endswith(suffix)`. */
  predicate EndsWith(s: string, suffix: string) {
    |suffix| <= |s| && s[|s| - |suffix|..] == suffix
  }

  /** What the console shows: the reply header, an echoed chunk, a spoken message, the closing newline. */
  datatype Line = Header | Echo(chunk: string) | Speaking(message: string) | Newline

  /** `self.api_key = api_key or OPENAI_API_KEY`, or None where the constructor raises for a missing key. */
  function ResolveKey(given: string, configured: string): (r: Option<string>)
    ensures r.Some? <==> given != "" || configured != ""
    ensures r.Some? ==> r.value != "" && (r.value == given || r.value == configured)
    ensures given != "" ==> r == Some(given)
  {
    if given != "" then Some(given)
    else if configured != "" then Some(configured)
    else None
  }

  /** The sentence a chunk closes, stripped, when it ends one that is not blank. */
  function Closed(acc: string, chunk: string): seq<string> {
    if EndsSentence(chunk) && Strip(acc + chunk) != "" then [Strip(acc + chunk)] else []
  }

  /** The console line announcing a closed sentence, if any. */
  function Announce(closed: seq<string>): seq<Line> {
    if closed == [] then [] else [Speaking(closed[0])]
  }

  /** The console lines for one chunk: the header before the first chunk, the echo, the announced sentence. */
  function ChunkLines(first: bool, chunk: string, closed: seq<string>): seq<Line> {
    (if first then [Header] else []) + [Echo(chunk)] + Announce(closed)
  }

  /**
   * Where the segmentation stands after some chunks: the closed runs (the
   * raw, unstripped text of each sentence closed by a terminator chunk),
   * the text accumulated since the last one, and the sentences spoken so far.
   */
  datatype Scan = Scan(runs: seq<string>, acc: string, spoken: seq<string>)

  /** The segmentation of a stream of chunks, one chunk at a time. */
  function ScanOf(chunks: seq<string>): Scan {
    if chunks == [] then Scan([], "", [])
    else
      var prev := ScanOf(chunks[..|chunks| - 1]);
      var chunk := chunks[|chunks| - 1];
      Scan(if EndsSentence(chunk) then prev.runs + [prev.acc + chunk] else prev.runs,
           if EndsSentence(chunk) then "" else prev.acc + chunk,
           prev.spoken + Closed(prev.acc, chunk))
  }

  /** The console lines `VoiceOutput.stream_output` writes while consuming the chunks. */
  function SaidOf(chunks: seq<string>): seq<Line> {
    if chunks == [] then []
    else
      var chunk := chunks[|chunks| - 1];
      SaidOf(chunks[..|chunks| - 1])
        + ChunkLines(|chunks| == 1, chunk, Closed(ScanOf(chunks[..|chunks| - 1]).acc, chunk))
  }

  /** Reference definition of what is spoken for closed runs: each non-blank run, stripped. */
  function Utter(runs: seq<string>): seq<string> {
    if runs == [] then []
    else
      var prev := Utter(runs[..|runs| - 1]);
      var sentence := Strip(runs[|runs| - 1]);
      if sentence == "" then prev else prev + [sentence]
  }

  /** What is spoken for the text left at the end of the stream. */
  function Remainder(acc: string): seq<string> {
    if Strip(acc) == "" then [] else [Strip(acc)]
  }

  /** Every message a stream makes `stream_output` hand to speech, in order. */
  function Speech(chunks: seq<string>): seq<string> {
    ScanOf(chunks).spoken + Remainder(ScanOf(chunks).acc)
  }

  /** The console lines that end a stream: the remainder announced when it is not blank, then a newline. */
  function Closing(acc: string): seq<Line> {
    if Strip(acc) == "" then [Newline] else [Speaking(Strip(acc)), Newline]
  }

  /** Everything `VoiceOutput.stream_output` writes to the console for the chunks. */
  function Shown(chunks: seq<string>): seq<Line> {
    SaidOf(chunks) + Closing(ScanOf(chunks).acc)
  }

  /** The number of chunks that end with a sentence terminator. */
  function Terminators(chunks: seq<string>): nat {
    if chunks == [] then 0
    else Terminators(chunks[..|chunks| - 1]) + (if EndsSentence(chunks[|chunks| - 1]) then 1 else 0)
  }

  /** The echoed chunks among console lines, in order. */
  function Echoes(lines: seq<Line>): seq<string> {
    if lines == [] then []
    else Echoes(lines[..|lines| - 1]) + (if lines[|lines| - 1].Echo? then [lines[|lines| - 1].chunk] else [])
  }

  /** The spoken messages among console lines, in order. */
  function Spoken(lines: seq<Line>): seq<string> {
    if lines == [] then []
    else Spoken(lines[..|lines| - 1]) + (if lines[|lines| - 1].Speaking? then [lines[|lines| - 1].message] else [])
  }

  /** The number of reply headers among console lines. */
  function Headers(lines: seq<Line>): nat {
    if lines == [] then 0
    else Headers(lines[..|lines| - 1]) + (if lines[|lines| - 1].Header? then 1 else 0)
  }

  /** `VoiceOutput`: speaks and echoes a reply. */
  class VoiceOutput {
    const apiKey: string
    const voice: string
    /** `_first_chunk`: whether the reply header is still to be printed. */
    var firstChunk: bool
    /** Every message handed to speech synthesis, in order. */
    var spoken: seq<string>
    /** Everything written to the console, in order. */
    var console: seq<Line>

    /** `__init__` once the key is resolved: nothing spoken or shown yet, header pending. */
    constructor(apiKey: string, voice: string)
      requires apiKey != ""
      ensures this.apiKey == apiKey && this.voice == voice
      ensures firstChunk && spoken == [] && console == []
    {
      this.apiKey := apiKey;
      this.voice := voice;
      firstChunk := true;
      spoken := [];
      console := [];
    }

    /** `send_output`: a blank message is ignored; any other is shown and spoken as it is. */
    method SendOutput(message: string)
      modifies this
      ensures Strip(message) == "" ==> spoken == old(spoken) && console == old(console)
      ensures Strip(message) != "" ==> spoken == old(spoken) + [message] && console == old(console) + [Speaking(message)]
      ensures firstChunk == old(firstChunk)
    {
      if Strip(message) == "" {
        return;
      }
      console := console + [Speaking(message)];
      spoken := spoken + [message];
    }

    /**
     * One pass of the loop of `stream_output`: print the header before the
     * first chunk, add the chunk to the accumulated text and echo it, and
     * when it ends a sentence speak the stripped text, unless blank, and
     * start afresh. Returns the new accumulated text.
     */
    method TakeChunk(accumulated: string, chunk: string) returns (rest: string)
      modifies this
      ensures rest == (if EndsSentence(chunk) then "" else accumulated + chunk)
      ensures spoken == old(spoken) + Closed(accumulated, chunk)
      ensures console == old(console) + ChunkLines(old(firstChunk), chunk, Closed(accumulated, chunk))
      ensures !firstChunk
    {
      ghost var shown := console;
      ghost var header: seq<Line> := if firstChunk then [Header] else [];
      ghost var closed := Closed(accumulated, chunk);
      if firstChunk {
        console := console + [Header];
        firstChunk := false;
      }
      rest := accumulated + chunk;
      console := console + [Echo(chunk)];
      if EndsSentence(chunk) {
        var sentence := Strip(rest);
        if sentence != "" {
          StripTwice(rest);
          SendOutput(sentence);
        }
        rest := "";
      }
      assert console == shown + header + [Echo(chunk)] + Announce(closed);
      Regroup(shown, header, [Echo(chunk)], Announce(closed));
    }

    /** The end of `stream_output`: speak the text left over unless it is blank, then end the line. */
    method Finish(accumulated: string)
      modifies this
      ensures spoken == old(spoken) + Remainder(accumulated)
      ensures console == old(console) + Closing(accumulated)
      ensures firstChunk == old(firstChunk)
    {
      if Strip(accumulated) != "" {
        StripTwice(accumulated);
        SendOutput(Strip(accumulated));
      }
      console := console + [Newline];
    }

    /**
     * `stream_output`: echo every chunk after a single header, speak each
     * sentence as its terminator chunk arrives, then the remainder. The
     * header is pending again only when the stream was empty.
     */
    method StreamOutput(chunks: seq<string>)
      modifies this
      ensures spoken == old(spoken) + Speech(chunks)
      ensures console == old(console) + Shown(chunks)
      ensures firstChunk == (chunks == [])
    {
      var accumulated := "";
      firstChunk := true;
      var n := 0;
      assert chunks[..n] == [] && spoken + [] == spoken && console + [] == console;
      while n < |chunks|
        invariant 0 <= n <= |chunks|
        invariant firstChunk == (n == 0)
        invariant accumulated == ScanOf(chunks[..n]).acc
        invariant spoken == old(spoken) + ScanOf(chunks[..n]).spoken
        invariant console == old(console) + SaidOf(chunks[..n])
      {
        var chunk := chunks[n];
        ghost var prev, said := ScanOf(chunks[..n]).spoken, SaidOf(chunks[..n]);
        ghost var closed := Closed(accumulated, chunk);
        PrefixStep(chunks, n);
        Assoc(old(spoken), prev, closed);
        Assoc(old(console), said, ChunkLines(n == 0, chunk, closed));
        accumulated := TakeChunk(accumulated, chunk);
        n := n + 1;
      }
      assert chunks[..n] == chunks;
      Assoc(old(spoken), ScanOf(chunks).spoken, Remainder(accumulated));
      Assoc(old(console), SaidOf(chunks), Closing(accumulated));
      Finish(accumulated);
    }
  }

  /** `QuietVoiceOutput`: speaks a reply without writing it to the console. */
  class QuietVoiceOutput {
    const apiKey: string
    const voice: string
    /** Inherited `_first_chunk`, which the quiet stream never touches. */
    var firstChunk: bool
    /** Every message handed to speech synthesis, in order. */
    var spoken: seq<string>

    /** The inherited `__init__` once the key is resolved. */
    constructor(apiKey: string, voice: string)
      requires apiKey != ""
      ensures this.apiKey == apiKey && this.voice == voice
      ensures firstChunk && spoken == []
    {
      this.apiKey := apiKey;
      this.voice := voice;
      firstChunk := true;
      spoken := [];
    }

    /** `send_output`: a blank message is ignored; any other is spoken as it is. */
    method SendOutput(message: string)
      modifies this
      ensures spoken == (if Strip(message) == "" then old(spoken) else old(spoken) + [message])
      ensures firstChunk == old(firstChunk)
    {
      if Strip(message) == "" {
        return;
      }
      spoken := spoken + [message];
    }

    /**
     * One pass of the loop of the quiet `stream_output`: add the chunk to the
     * accumulated text and, when it ends a sentence, speak the stripped text,
     * unless blank, and start afresh. Returns the new accumulated text.
     */
    method TakeChunk(accumulated: string, chunk: string) returns (rest: string)
      modifies this
      ensures rest == (if EndsSentence(chunk) then "" else accumulated + chunk)
      ensures spoken == old(spoken) + Closed(accumulated, chunk)
      ensures firstChunk == old(firstChunk)
    {
      rest := accumulated + chunk;
      if EndsSentence(chunk) {
        var sentence := Strip(rest);
        if sentence != "" {
          StripTwice(rest);
          SendOutput(sentence);
        }
        rest := "";
      }
    }

    /** The end of the quiet `stream_output`: speak the text left over unless it is blank. */
    method Finish(accumulated: string)
      modifies this
      ensures spoken == old(spoken) + Remainder(accumulated)
      ensures firstChunk == old(firstChunk)
    {
      if Strip(accumulated) != "" {
        StripTwice(accumulated);
        SendOutput(Strip(accumulated));
      }
    }

    /** `stream_output`: speaks exactly the sentences `VoiceOutput.stream_output` speaks. */
    method StreamOutput(chunks: seq<string>)
      modifies this
      ensures spoken == old(spoken) + Speech(chunks)
      ensures firstChunk == old(firstChunk)
    {
      var accumulated := "";
      var n := 0;
      assert chunks[..n] == [] && spoken + [] == spoken;
      while n < |chunks|
        invariant 0 <= n <= |chunks|
        invariant firstChunk == old(firstChunk)
        invariant accumulated == ScanOf(chunks[..n]).acc
        invariant spoken == old(spoken) + ScanOf(chunks[..n]).spoken
      {
        var chunk := chunks[n];
        ghost var prev := ScanOf(chunks[..n]).spoken;
        PrefixStep(chunks, n);
        Assoc(old(spoken), prev, Closed(accumulated, chunk));
        accumulated := TakeChunk(accumulated, chunk);
        n := n + 1;
      }
      assert chunks[..n] == chunks;
      Assoc(old(spoken), ScanOf(chunks).spoken, Remainder(accumulated));
      Finish(accumulated);
    }
  }

  /** One more chunk: how the segmentation of a prefix and the console lines written for it grow. */
  lemma PrefixStep(chunks: seq<string>, n: nat)
    requires n < |chunks|
    ensures var prev, chunk := ScanOf(chunks[..n]), chunks[n];
            && ScanOf(chunks[..n + 1]).acc == (if EndsSentence(chunk) then "" else prev.acc + chunk)
            && ScanOf(chunks[..n + 1]).spoken == prev.spoken + Closed(prev.acc, chunk)
            && SaidOf(chunks[..n + 1]) == SaidOf(chunks[..n]) + ChunkLines(n == 0, chunk, Closed(prev.acc, chunk))
  {
    assert chunks[..n + 1][..n] == chunks[..n];
  }

  /** Regrouping a concatenation. */
  lemma Assoc<T>(a: seq<T>, b: seq<T>, c: seq<T>)
    ensures a + (b + c) == a + b + c
  {
  }

  /** Regrouping a concatenation of four. */
  lemma Regroup<T>(a: seq<T>, b: seq<T>, c: seq<T>, d: seq<T>)
    ensures a + b + c + d == a + (b + c + d)
  {
  }

  /** The sentences spoken along the way are exactly the closed runs that are not blank, each stripped. */
  lemma {:induction false} SpokenIsUtter(chunks: seq<string>)
    ensures ScanOf(chunks).spoken == Utter(ScanOf(chunks).runs)
  {
    if chunks != [] {
      var init, chunk := chunks[..|chunks| - 1], chunks[|chunks| - 1];
      var prev := ScanOf(init);
      SpokenIsUtter(init);
      if EndsSentence(chunk) {
        var runs := prev.runs + [prev.acc + chunk];
        assert runs[..|runs| - 1] == prev.runs;
      } else {
        assert prev.spoken + [] == prev.spoken;
      }
    }
  }

  /** Every message spoken for closed runs is non-empty and stripped. */
  lemma {:induction false} UtterStripped(runs: seq<string>)
    ensures forall k :: 0 <= k < |Utter(runs)| ==> Utter(runs)[k] != "" && IsStripped(Utter(runs)[k])
    ensures |Utter(runs)| <= |runs|
  {
    if runs != [] {
      UtterStripped(runs[..|runs| - 1]);
      StripSpec(runs[|runs| - 1]);
    }
  }

  /** Every message a stream speaks is non-empty and has no leading or trailing whitespace. */
  lemma SpeechStripped(chunks: seq<string>)
    ensures forall k :: 0 <= k < |Speech(chunks)| ==> Speech(chunks)[k] != "" && IsStripped(Speech(chunks)[k])
  {
    SpokenIsUtter(chunks);
    UtterStripped(ScanOf(chunks).runs);
    StripSpec(ScanOf(chunks).acc);
  }

  /** Appending one string to a concatenation. */
  lemma ConcatSnoc(parts: seq<string>, s: string)
    ensures Concat(parts + [s]) == Concat(parts) + s
  {
    assert (parts + [s])[..|parts|] == parts;
  }

  /** One chunk's effect on the closed runs and the pending text. */
  lemma ScanRunsStep(chunks: seq<string>)
    requires chunks != []
    ensures var prev, chunk := ScanOf(chunks[..|chunks| - 1]), chunks[|chunks| - 1];
            && ScanOf(chunks).runs == (if EndsSentence(chunk) then prev.runs + [prev.acc + chunk] else prev.runs)
            && ScanOf(chunks).acc == (if EndsSentence(chunk) then "" else prev.acc + chunk)
  {
  }

  /**
   * Nothing is lost or reordered: the closed runs followed by the pending
   * text concatenate to exactly the concatenation of the chunks.
   */
  lemma {:induction false} RunsCoverChunks(chunks: seq<string>)
    ensures Concat(ScanOf(chunks).runs + [ScanOf(chunks).acc]) == Concat(chunks)
  {
    if chunks != [] {
      var init, chunk := chunks[..|chunks| - 1], chunks[|chunks| - 1];
      var prev, cur := ScanOf(init), ScanOf(chunks);
      RunsCoverChunks(init);
      ScanRunsStep(chunks);
      var done := Concat(prev.runs);
      assert done + prev.acc == Concat(init) by { ConcatSnoc(prev.runs, prev.acc); }
      assert Concat(chunks) == Concat(init) + chunk;
      if EndsSentence(chunk) {
        assert Concat(cur.runs + [cur.acc]) == done + (prev.acc + chunk) by {
          ConcatSnoc(cur.runs, "");
          ConcatSnoc(prev.runs, prev.acc + chunk);
        }
      } else {
        assert Concat(cur.runs + [cur.acc]) == done + (prev.acc + chunk) by {
          ConcatSnoc(prev.runs, prev.acc + chunk);
        }
      }
      Assoc(done, prev.acc, chunk);
    }
  }


  /** One closed run per terminator chunk. */
  lemma {:induction false} RunsPerTerminator(chunks: seq<string>)
    ensures |ScanOf(chunks).runs| == Terminators(chunks)
  {
    if chunks != [] {
      RunsPerTerminator(chunks[..|chunks| - 1]);
    }
  }

  /** A stream speaks at most once per terminator chunk, plus once for the remainder. */
  lemma SpeechBound(chunks: seq<string>)
    ensures |Speech(chunks)| <= Terminators(chunks) + 1
  {
    RunsPerTerminator(chunks);
    SpokenIsUtter(chunks);
    UtterStripped(ScanOf(chunks).runs);
  }

  /** Without any terminator chunk, nothing is spoken until the end, and then the whole text once, stripped. */
  lemma {:induction false} NoTerminatorSpeaksOnce(chunks: seq<string>)
    requires forall k :: 0 <= k < |chunks| ==> !EndsSentence(chunks[k])
    ensures ScanOf(chunks).runs == [] && ScanOf(chunks).acc == Concat(chunks) && ScanOf(chunks).spoken == []
    ensures Speech(chunks) == Remainder(Concat(chunks))
  {
    if chunks != [] {
      NoTerminatorSpeaksOnce(chunks[..|chunks| - 1]);
    }
  }

  /**
   * Scanning from an empty accumulation: the runs and spoken sentences of a
   * later part add to those of the earlier part.
   */
  lemma {:induction false} ScanAppend(a: seq<string>, b: seq<string>)
    requires ScanOf(a).acc == ""
    ensures var sa, sb := ScanOf(a), ScanOf(b);
            && ScanOf(a + b).runs == sa.runs + sb.runs
            && ScanOf(a + b).acc == sb.acc
            && ScanOf(a + b).spoken == sa.spoken + sb.spoken
  {
    var sa := ScanOf(a);
    if b == [] {
      assert a + b == a;
      assert sa.runs + [] == sa.runs && sa.spoken + [] == sa.spoken;
    } else {
      var init, chunk := b[..|b| - 1], b[|b| - 1];
      assert (a + b)[..|a + b| - 1] == a + init;
      ScanAppend(a, init);
      var si := ScanOf(init);
      var closed := Closed(si.acc, chunk);
      Assoc(sa.runs, si.runs, [si.acc + chunk]);
      Assoc(sa.spoken, si.spoken, closed);
    }
  }

  /**
   * Sentences are independent: once a terminator chunk has closed a
   * sentence, the rest of the stream is spoken as if it were a stream of
   * its own.
   */
  lemma SpeechAfterTerminator(a: seq<string>, chunk: string, b: seq<string>)
    requires EndsSentence(chunk)
    ensures Speech(a + [chunk] + b) == Speech(a + [chunk]) + Speech(b)
  {
    var first := a + [chunk];
    assert first[..|first| - 1] == a;
    ScanAppend(first, b);
    StripSpec("");
    var sf, sb := ScanOf(first), ScanOf(b);
    assert sf.spoken + [] == sf.spoken;
    Assoc(sf.spoken, sb.spoken, Remainder(sb.acc));
  }

  /** Filtering console lines distributes over concatenation. */
  lemma {:induction false} LinesAppend(x: seq<Line>, y: seq<Line>)
    ensures Echoes(x + y) == Echoes(x) + Echoes(y)
    ensures Spoken(x + y) == Spoken(x) + Spoken(y)
    ensures Headers(x + y) == Headers(x) + Headers(y)
  {
    if y == [] {
      assert x + y == x;
    } else {
      var init := y[..|y| - 1];
      assert (x + y)[..|x + y| - 1] == x + init;
      LinesAppend(x, init);
    }
  }

  /**
   * The lines written per chunk: one header when there was a chunk and none
   * otherwise, every chunk echoed once and in order, and every sentence
   * spoken along the way announced, in order.
   */
  lemma {:induction false} SaidContents(chunks: seq<string>)
    ensures Echoes(SaidOf(chunks)) == chunks
    ensures Spoken(SaidOf(chunks)) == ScanOf(chunks).spoken
    ensures Headers(SaidOf(chunks)) == (if chunks == [] then 0 else 1)
  {
    if chunks != [] {
      var init, chunk := chunks[..|chunks| - 1], chunks[|chunks| - 1];
      assert chunks == init + [chunk];
      SaidContents(init);
      var prev := ScanOf(init);
      var closed := Closed(prev.acc, chunk);
      var header: seq<Line> := if init == [] then [Header] else [];
      ChunkLinesContents(header, chunk, closed);
      LinesAppend(SaidOf(init), ChunkLines(init == [], chunk, closed));
    }
  }

  /** What a single console line contributes to each count. */
  lemma OneLine(line: Line)
    ensures Echoes([line]) == (if line.Echo? then [line.chunk] else [])
    ensures Spoken([line]) == (if line.Speaking? then [line.message] else [])
    ensures Headers([line]) == (if line.Header? then 1 else 0)
  {
    assert [line][..0] == [];
  }

  /** The lines of one chunk echo it, announce its sentence, and hold the header when given. */
  lemma ChunkLinesContents(header: seq<Line>, chunk: string, closed: seq<string>)
    requires header == [] || header == [Header]
    requires |closed| <= 1
    ensures var lines := ChunkLines(header != [], chunk, closed);
            Echoes(lines) == [chunk] && Spoken(lines) == closed && Headers(lines) == |header|
  {
    var echo, tail := [Echo(chunk)], Announce(closed);
    assert ChunkLines(header != [], chunk, closed) == header + echo + tail;
    OneLine(Echo(chunk));
    if header != [] {
      OneLine(Header);
    }
    if closed != [] {
      assert tail == [Speaking(closed[0])];
      OneLine(Speaking(closed[0]));
      assert closed == [closed[0]];
    }
    LinesAppend(header, echo);
    LinesAppend(header + echo, tail);
    assert Echoes(header + echo + tail) == [] + [chunk] + [];
    assert Spoken(header + echo + tail) == [] + [] + closed;
    assert Headers(header + echo + tail) == |header| + 0 + 0;
  }


  /** The closing lines announce exactly the remainder, and echo nothing. */
  lemma ClosingContents(acc: string)
    ensures Echoes(Closing(acc)) == [] && Spoken(Closing(acc)) == Remainder(acc) && Headers(Closing(acc)) == 0
  {
    var closing := Closing(acc);
    if Strip(acc) == "" {
      assert closing[..0] == [];
    } else {
      var first := [Speaking(Strip(acc))];
      assert closing[..1] == first && first[..0] == [];
      assert Echoes(first) == Echoes([]) && Headers(first) == Headers([]);
      assert Spoken(first) == Spoken([]) + [Strip(acc)];
      assert Echoes(closing) == Echoes(first) && Headers(closing) == Headers(first);
      assert Spoken(closing) == Spoken(first) + [];
    }
  }

  /**
   * The console of `VoiceOutput.stream_output`: exactly one header when the
   * stream had a chunk and none otherwise, every chunk echoed once and in
   * order, and every spoken message announced, in order.
   */
  lemma ShownContents(chunks: seq<string>)
    ensures Headers(Shown(chunks)) == (if chunks == [] then 0 else 1)
    ensures Echoes(Shown(chunks)) == chunks
    ensures Spoken(Shown(chunks)) == Speech(chunks)
  {
    SaidContents(chunks);
    ClosingContents(ScanOf(chunks).acc);
    LinesAppend(SaidOf(chunks), Closing(ScanOf(chunks).acc));
  }
}
