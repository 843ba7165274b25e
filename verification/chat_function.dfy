/**
  * The `chat` edge function: it turns the request into the provider's
  * `contents` list, calls the provider, and re-frames the provider's
  * newline-delimited stream as server-sent events (section 9.2 of the
  * WHATWG HTML Living Standard), ending with a `[DONE]` event.
  */
module ChatFunction {
  import opened Wrappers
  import opened JsString
  import opened Lists
  import JsonString

  // ---------------------------------------------------------------------------
  // The provider request

  /** One entry of the request's `conversationHistory`. */
  datatype HistoryEntry = HistoryEntry(role: string, content: string)

  /** `{ role, parts: [{ text }] }`. */
  datatype Content = Content(role: string, text: string)

  /** `msg.role === 'assistant' ? 'model' : 'user'`. */
  function ProviderRole(role: string): (r: string)
    ensures r == "model" <==> role == "assistant"
    ensures r == "model" || r == "user"
  {
    if role == "assistant" then "model" else "user"
  }

  /**
    * The loop of lines 19-33: one entry per history message, in order, with
    * its text and mapped role, then the current message as a user entry.
    */
  method BuildContents(history: seq<HistoryEntry>, message: string) returns (contents: seq<Content>)
    ensures |contents| == |history| + 1
    ensures forall i :: 0 <= i < |history| ==>
      contents[i].text == history[i].content &&
      (contents[i].role == "model" <==> history[i].role == "assistant") &&
      (contents[i].role == "model" || contents[i].role == "user")
    ensures contents[|history|] == Content("user", message)
  {
    contents := [];
    for i := 0 to |history|
      invariant |contents| == i
      invariant forall j :: 0 <= j < i ==> contents[j] == Content(ProviderRole(history[j].role), history[j].content)
    {
      contents := contents + [Content(ProviderRole(history[i].role), history[i].content)];
    }
    contents := contents + [Content("user", message)];
  }

  // ---------------------------------------------------------------------------
  // Event framing

  const DoneFrame: string := "data: [DONE]\n\n"

  /** `data: ${JSON.stringify({ text })}\n\n`: a `data:` line ended by a blank line. */
  function TextFrame(text: string): (r: string)
    ensures "data: " <= r && r[|r| - 2..] == "\n\n"
  {
    "data: {\"text\":" + JsonString.Quote(text) + "}\n\n"
  }

  /**
    * What one line of the provider's stream contributes: nothing for a blank
    * line, for a line that does not parse or for one without a non-empty
    * text; otherwise one text frame. `extract` stands for `JSON.parse`
    * followed by `data.candidates?.[0]?.content?.parts?.[0]?.text`, with
    * `None` for a parse failure or a missing text.
    */
  function LineFrame(line: string, extract: string -> Option<string>): (r: seq<string>)
    ensures |r| <= 1
    ensures r != [] <==> Trim(line) != [] && extract(line).Some? && extract(line).value != []
    ensures r != [] ==> r[0] == TextFrame(extract(line).value)
  {
    if Trim(line) == [] then []
    else
      var text := extract(line);
      if text.Some? && text.value != [] then [TextFrame(text.value)] else []
  }

  function LineFrameOf(extract: string -> Option<string>): string -> seq<string> {
    (line: string) => LineFrame(line, extract)
  }

  /** The frames for a sequence of lines, in order. */
  function LineFrames(lines: seq<string>, extract: string -> Option<string>): seq<string> {
    FlatMap(lines, LineFrameOf(extract))
  }

  /** Everything the reader delivered, in order. */
  function Concat(chunks: seq<string>): string {
    if chunks == [] then [] else Concat(chunks[..|chunks| - 1]) + chunks[|chunks| - 1]
  }

  /** A text frame carries its payload on one line, then the blank line that ends the event. */
  lemma TextFrameIsOneEvent(text: string)
    ensures var f := TextFrame(text);
      && "data: " <= f
      && f[|f| - 2..] == "\n\n"
      && (forall i :: 0 <= i < |f| - 2 ==> f[i] != '\n' && f[i] != '\r')
      && f != DoneFrame
  {
    var body := JsonString.EscapeBody(text);
    JsonString.EscapeBodyHasNoControl(text);
    var f := TextFrame(text);
    assert f == "data: {\"text\":\"" + body + "\"}\n\n";
    forall i | 0 <= i < |f| - 2 ensures f[i] != '\n' && f[i] != '\r' {
      if 15 <= i < 15 + |body| {
        assert f[i] == body[i - 15];
      }
    }
    assert f[6] == '{' && DoneFrame[6] == '[';
  }

  /** `f` is `data: {"text":…}` for some non-empty text. */
  ghost predicate IsTextFrame(f: string) {
    exists t :: t != [] && f == TextFrame(t)
  }

  /** Every frame produced for lines is a text frame, so none of them is the `[DONE]` frame. */
  lemma {:induction false} LineFramesAreTextFrames(lines: seq<string>, extract: string -> Option<string>)
    ensures forall k :: 0 <= k < |LineFrames(lines, extract)| ==> IsTextFrame(LineFrames(lines, extract)[k])
    ensures DoneFrame !in LineFrames(lines, extract)
  {
    if lines != [] {
      LineFramesAreTextFrames(lines[1..], extract);
      var head := LineFrame(lines[0], extract);
      var tail := LineFrames(lines[1..], extract);
      assert LineFrames(lines, extract) == head + tail;
      if head != [] {
        var t := extract(lines[0]).value;
        assert head == [TextFrame(t)] && t != [];
        assert IsTextFrame(head[0]);
      }
      forall k | 0 <= k < |head + tail| ensures IsTextFrame((head + tail)[k]) {
        if k >= |head| {
          assert (head + tail)[k] == tail[k - |head|];
        }
      }
      forall k | 0 <= k < |head + tail| ensures (head + tail)[k] != DoneFrame {
        assert IsTextFrame((head + tail)[k]);
        var t :| t != [] && (head + tail)[k] == TextFrame(t);
        TextFrameIsOneEvent(t);
      }
    }
  }

  /** Splitting the input at a newline splits the frames there. */
  lemma FramesAtNewline(a: string, b: string, extract: string -> Option<string>)
    ensures LineFrames(Split(a + "\n" + b, '\n'), extract)
         == LineFrames(Split(a, '\n'), extract) + LineFrames(Split(b, '\n'), extract)
  {
    SplitAtDelim(a, b, '\n');
    FlatMapAppend(Split(a, '\n'), Split(b, '\n'), LineFrameOf(extract));
  }

  /** A newline at the very start only adds an empty first line, which produces nothing. */
  lemma LeadingNewline(b: string, extract: string -> Option<string>)
    ensures LineFrames(Split("\n" + b, '\n'), extract) == LineFrames(Split(b, '\n'), extract)
  {
    SplitDelimStep(b, '\n');
    FlatMapAppend([""], Split(b, '\n'), LineFrameOf(extract));
    assert LineFrame("", extract) == [];
    assert FlatMap([""], LineFrameOf(extract)) == [];
  }

  /** Blank lines between events produce nothing: an extra newline changes no frame. */
  lemma BlankLinesAreSkipped(a: string, b: string, extract: string -> Option<string>)
    ensures LineFrames(Split(a + "\n\n" + b, '\n'), extract) == LineFrames(Split(a + "\n" + b, '\n'), extract)
  {
    assert "\n" + "\n" == "\n\n";
    AppendAssoc(a, "\n", "\n");
    AppendAssoc(a + "\n", "\n", b);
    FramesAtNewline(a, "\n" + b, extract);
    LeadingNewline(b, extract);
    FramesAtNewline(a, b, extract);
  }

  // ---------------------------------------------------------------------------
  // The stream

  lemma LineFramesSnoc(lines: seq<string>, line: string, extract: string -> Option<string>)
    ensures LineFrames(lines + [line], extract) == LineFrames(lines, extract) + LineFrame(line, extract)
  {
    FlatMapAppend(lines, [line], LineFrameOf(extract));
    assert FlatMap([line], LineFrameOf(extract)) == LineFrame(line, extract) + FlatMap([line][1..], LineFrameOf(extract));
  }

  lemma LineFramesAppend(a: seq<string>, b: seq<string>, extract: string -> Option<string>)
    ensures LineFrames(a + b, extract) == LineFrames(a, extract) + LineFrames(b, extract)
  {
    FlatMapAppend(a, b, LineFrameOf(extract));
  }

  lemma ConcatSnoc(chunks: seq<string>, i: nat)
    requires i < |chunks|
    ensures Concat(chunks[..i + 1]) == Concat(chunks[..i]) + chunks[i]
  {
    assert chunks[..i + 1][..i] == chunks[..i];
  }

  /** Appending a chunk re-splits only the buffered tail: the complete lines stay. */
  lemma ChunkStep(prefix: string, chunk: string, complete: seq<string>, buffer: string)
    requires Split(prefix, '\n') == complete + [buffer]
    ensures Split(prefix + chunk, '\n') == complete + Split(buffer + chunk, '\n')
  {
    SplitAppend(prefix, chunk, '\n');
    var sp := Split(prefix, '\n');
    assert sp[..|sp| - 1] == complete;
    assert Last(sp) == buffer;
  }

  /** The `for (const line of lines)` loop: each complete line framed in order. */
  method FrameLines(lines: seq<string>, extract: string -> Option<string>) returns (out: seq<string>)
    ensures out == LineFrames(lines, extract)
  {
    out := [];
    for j := 0 to |lines|
      invariant out == LineFrames(lines[..j], extract)
    {
      LineFramesSnoc(lines[..j], lines[j], extract);
      assert lines[..j + 1] == lines[..j] + [lines[j]];
      out := out + LineFrame(lines[j], extract);
    }
    assert lines[..|lines|] == lines;
  }

  /** The lines of `text` that a newline has ended; the text after the last newline is not among them. */
  function CompleteLines(text: string): seq<string> {
    var pieces := Split(text, '\n');
    pieces[..|pieces| - 1]
  }

  /** One read: the new chunk's complete lines join the framed ones, its tail becomes the buffer. */
  lemma ReadStep(chunks: seq<string>, i: nat, complete: seq<string>, buffer: string)
    requires i < |chunks|
    requires Split(Concat(chunks[..i]), '\n') == complete + [buffer]
    ensures var lines := Split(buffer + chunks[i], '\n');
      Split(Concat(chunks[..i + 1]), '\n') == (complete + lines[..|lines| - 1]) + [lines[|lines| - 1]]
  {
    ConcatSnoc(chunks, i);
    ChunkStep(Concat(chunks[..i]), chunks[i], complete, buffer);
    var lines := Split(buffer + chunks[i], '\n');
    FrontLast(lines);
    assert complete + lines == (complete + lines[..|lines| - 1]) + [lines[|lines| - 1]];
  }

  /** After the last read, the framed lines are the complete lines and the buffer is the rest. */
  lemma ReadDone(text: string, complete: seq<string>, buffer: string)
    requires Split(text, '\n') == complete + [buffer]
    ensures CompleteLines(text) == complete
    ensures buffer == Last(Split(text, '\n'))
    ensures '\n' !in buffer
  {
    var all := complete + [buffer];
    assert all[..|all| - 1] == complete;
    SplitPiecesFree(text, '\n');
  }

  /**
    * The read loop of lines 82-107: after every chunk, `buffer` holds the
    * text after the last newline, and exactly the lines completed so far
    * have been framed.
    */
  method ReadChunks(chunks: seq<string>, extract: string -> Option<string>) returns (frames: seq<string>, buffer: string)
    ensures frames == LineFrames(CompleteLines(Concat(chunks)), extract)
    ensures buffer == Last(Split(Concat(chunks), '\n'))
    ensures '\n' !in buffer
  {
    buffer := "";
    frames := [];
    ghost var complete: seq<string> := [];
    var i := 0;
    while i < |chunks|
      invariant 0 <= i <= |chunks|
      invariant Split(Concat(chunks[..i]), '\n') == complete + [buffer]
      invariant frames == LineFrames(complete, extract)
    {
      ReadStep(chunks, i, complete, buffer);
      var lines := Split(buffer + chunks[i], '\n');
      buffer := lines[|lines| - 1];
      lines := lines[..|lines| - 1];
      var more := FrameLines(lines, extract);
      LineFramesAppend(complete, lines, extract);
      frames := frames + more;
      complete := complete + lines;
      i := i + 1;
    }
    assert chunks[..i] == chunks;
    ReadDone(Concat(chunks), complete, buffer);
  }

  /** The buffer left after the read loop is the last line of the whole text. */
  lemma LastLine(text: string, buffer: string, extract: string -> Option<string>)
    requires buffer == Last(Split(text, '\n'))
    ensures LineFrames(Split(text, '\n'), extract) == LineFrames(CompleteLines(text), extract) + LineFrame(buffer, extract)
  {
    var lines := Split(text, '\n');
    FrontLast(lines);
    LineFramesSnoc(CompleteLines(text), buffer, extract);
  }

  /**
    * The body of `start`: the read loop, then the remaining buffer framed
    * and `[DONE]` sent. If a read fails after the given chunks, the stream
    * is errored: the frames sent so far stay sent, and neither the buffer
    * nor `[DONE]` follows.
    */
  method StreamFrames(chunks: seq<string>, readFails: bool, extract: string -> Option<string>)
    returns (frames: seq<string>, errored: bool)
    ensures !readFails ==> frames == LineFrames(Split(Concat(chunks), '\n'), extract) + [DoneFrame] && !errored
    ensures readFails ==> frames == LineFrames(CompleteLines(Concat(chunks)), extract) && errored
  {
    var buffer;
    frames, buffer := ReadChunks(chunks, extract);
    if readFails {
      return frames, true;
    }
    LastLine(Concat(chunks), buffer, extract);
    frames := frames + LineFrame(buffer, extract) + [DoneFrame];
    errored := false;
  }

  /** On normal completion `[DONE]` is sent exactly once, as the last frame. */
  lemma DoneSentOnceLast(chunks: seq<string>, extract: string -> Option<string>, frames: seq<string>)
    requires frames == LineFrames(Split(Concat(chunks), '\n'), extract) + [DoneFrame]
    ensures frames[|frames| - 1] == DoneFrame
    ensures forall k :: 0 <= k < |frames| - 1 ==> frames[k] != DoneFrame
  {
    var lines := Split(Concat(chunks), '\n');
    LineFramesAreTextFrames(lines, extract);
    forall k | 0 <= k < |frames| - 1 ensures frames[k] != DoneFrame {
      assert frames[k] == LineFrames(lines, extract)[k];
    }
  }

  // ---------------------------------------------------------------------------
  // The handler

  /** The parsed request: a CORS preflight, a body that is not JSON, or a chat message. */
  datatype ChatRequest =
    | Preflight
    | Unparseable(parseError: string)
    | Post(message: string, conversationHistory: Option<seq<HistoryEntry>>)

  /** What the provider's `fetch` gave back. */
  datatype Upstream =
    | FetchFailed(error: string)
    | NotOk(status: nat)
      /** `body` is absent when the response has no readable stream. */
    | Ok(body: Option<seq<string>>, readFails: bool)

  datatype ChatResponse =
    | CorsOnly
    | JsonError(status: nat, error: string)
    | EventStream(frames: seq<string>, errored: bool)

  /**
    * The request handler. `apiKey` is `Deno.env.get("GEMINI_API_KEY")`;
    * `sent` is the `contents` list posted to the provider, if the handler
    * got that far.
    */
  method HandleChat(request: ChatRequest, apiKey: Option<string>, upstream: Upstream, extract: string -> Option<string>)
    returns (response: ChatResponse, sent: Option<seq<Content>>)
    ensures request.Preflight? ==> response == CorsOnly && sent.None?
    ensures request.Unparseable? ==> response == JsonError(500, request.parseError) && sent.None?
    ensures request.Post? && (apiKey.None? || apiKey == Some("")) ==>
      response == JsonError(500, "GEMINI_API_KEY is not configured") && sent.None?
    ensures request.Post? && apiKey.Some? && apiKey.value != "" ==>
      && sent.Some?
      && |sent.value| == (if request.conversationHistory.Some? then |request.conversationHistory.value| else 0) + 1
      && sent.value[|sent.value| - 1] == Content("user", request.message)
      && (var h := if request.conversationHistory.Some? then request.conversationHistory.value else [];
          forall i :: 0 <= i < |h| ==> sent.value[i] == Content(ProviderRole(h[i].role), h[i].content))
      && (upstream.FetchFailed? ==> response == JsonError(500, upstream.error))
      && (upstream.NotOk? ==> response == JsonError(500, "Failed to get response from Gemini"))
      && (upstream.Ok? && upstream.body.None? ==> response == EventStream([], false))
      && (upstream.Ok? && upstream.body.Some? && !upstream.readFails ==>
            response == EventStream(LineFrames(Split(Concat(upstream.body.value), '\n'), extract) + [DoneFrame], false))
      && (upstream.Ok? && upstream.body.Some? && upstream.readFails ==>
            response == EventStream(LineFrames(CompleteLines(Concat(upstream.body.value)), extract), true))
    ensures response.EventStream? ==> upstream.Ok?
  {
    match request {
      case Preflight =>
        return CorsOnly, None;
      case Unparseable(e) =>
        return JsonError(500, e), None;
      case Post(message, history) =>
        if apiKey.None? || apiKey.value == "" {
          return JsonError(500, "GEMINI_API_KEY is not configured"), None;
        }
        var contents := BuildContents(if history.Some? then history.value else [], message);
        sent := Some(contents);
        match upstream {
          case FetchFailed(e) =>
            response := JsonError(500, e);
          case NotOk(_) =>
            response := JsonError(500, "Failed to get response from Gemini");
          case Ok(body, readFails) =>
            if body.None? {
              response := EventStream([], false);
            } else {
              var frames, errored := StreamFrames(body.value, readFails, extract);
              response := EventStream(frames, errored);
            }
        }
    }
  }
}
