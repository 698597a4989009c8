/** AIService (lib/services/ai/ai-service.ts): the provider-independent pieces, that is the
    default model, the server-sent-events line buffer shared by the three stream readers and
    their per-line `data:` handling, the Anthropic and Google message mappings and the
    Anthropic token totals. The HTTP calls are inputs: a reply is either a failed status,
    a missing body or the sequence of text chunks the body delivers, and JSON decoding of a
    `data:` payload is the function `decode` a reader is given. */
module AiService {
  import opened Wrappers
  import Text

  datatype Provider = OpenAI | Anthropic | Google

  datatype Role = User | Assistant | System

  datatype Message = Message(role: Role, content: string)

  /** AIStreamChunk. */
  datatype StreamChunk = TextChunk(content: string) | ErrorChunk(error: string) | DoneChunk

  /** The provider names the chat route accepts. */
  function ParseProvider(name: string): (p: Option<Provider>)
    ensures p.Some? <==> name in {"openai", "anthropic", "google"}
    ensures name == "openai" ==> p == Some(OpenAI)
    ensures name == "anthropic" ==> p == Some(Anthropic)
    ensures name == "google" ==> p == Some(Google)
  {
    if name == "openai" then Some(OpenAI)
    else if name == "anthropic" then Some(Anthropic)
    else if name == "google" then Some(Google)
    else None
  }

  /** DEFAULT_MODELS (lib/services/ai/types.ts:60-64). */
  function DefaultModel(p: Provider): (model: string)
    ensures model != ""
  {
    match p
    case OpenAI => "gpt-4o-mini"
    case Anthropic => "claude-3-5-sonnet-20241022"
    case Google => "gemini-1.5-flash"
  }

  /** `request.model || DEFAULT_MODELS[provider]`: an absent or empty model means the default. */
  function ChooseModel(requested: Option<string>, p: Provider): (model: string)
    ensures requested.Some? && requested.value != "" ==> model == requested.value
    ensures requested.None? || requested.value == "" ==> model == DefaultModel(p)
    ensures model != ""
  {
    if requested.Some? && requested.value != "" then requested.value else DefaultModel(p)
  }

  // ---- Message mapping ----

  /** `messages.filter(m => m.role !== 'system')`. */
  function NonSystem(msgs: seq<Message>): (r: seq<Message>)
    ensures forall m :: m in r <==> m in msgs && m.role != System
    ensures |r| <= |msgs|
  {
    if msgs == [] then []
    else (if msgs[0].role == System then [] else [msgs[0]]) + NonSystem(msgs[1..])
  }

  /** The filter keeps the order: filtering a concatenation concatenates the filtered parts. */
  lemma {:induction false} NonSystemAppend(a: seq<Message>, b: seq<Message>)
    ensures NonSystem(a + b) == NonSystem(a) + NonSystem(b)
  {
    if a != [] {
      assert (a + b)[0] == a[0];
      assert (a + b)[1..] == a[1..] + b;
      NonSystemAppend(a[1..], b);
      assert NonSystem(a + b) == (if a[0].role == System then [] else [a[0]]) + (NonSystem(a[1..]) + NonSystem(b));
    } else {
      assert a + b == b;
    }
  }

  /** `messages.find(m => m.role === 'system')?.content`. */
  function FirstSystem(msgs: seq<Message>): (r: Option<string>)
    ensures r.None? <==> forall i :: 0 <= i < |msgs| ==> msgs[i].role != System
    ensures r.Some? ==> exists i :: (0 <= i < |msgs| && msgs[i].role == System && msgs[i].content == r.value
      && forall j :: 0 <= j < i ==> msgs[j].role != System)
  {
    if msgs == [] then None
    else if msgs[0].role == System then Some(msgs[0].content)
    else
      var r := FirstSystem(msgs[1..]);
      assert r.Some? ==> exists i :: (1 <= i < |msgs| && msgs[i].role == System && msgs[i].content == r.value
        && forall j :: 0 <= j < i ==> msgs[j].role != System) by {
        if r.Some? {
          var i :| 0 <= i < |msgs[1..]| && msgs[1..][i].role == System && msgs[1..][i].content == r.value
            && forall j :: 0 <= j < i ==> msgs[1..][j].role != System;
          assert msgs[i + 1] == msgs[1..][i];
          assert forall j :: 1 <= j < i + 1 ==> msgs[j] == msgs[1..][j - 1];
        }
      }
      r
  }

  /** The body of an Anthropic request: the first system message becomes `system`, the other
      messages keep their order, and `max_tokens` falls back to 4096 when absent or zero. */
  datatype AnthropicRequest = AnthropicRequest(model: string, messages: seq<Message>, system: Option<string>, maxTokens: int)

  function AnthropicBody(model: string, msgs: seq<Message>, maxTokens: Option<int>): (r: AnthropicRequest)
    ensures r.model == model && r.messages == NonSystem(msgs) && r.system == FirstSystem(msgs)
    ensures r.maxTokens == if maxTokens.Some? && maxTokens.value != 0 then maxTokens.value else 4096
  {
    AnthropicRequest(model, NonSystem(msgs), FirstSystem(msgs), if maxTokens.Some? && maxTokens.value != 0 then maxTokens.value else 4096)
  }

  /** One entry of Google's `contents`. */
  datatype GoogleContent = GoogleContent(role: string, text: string)

  /** Google's `contents`: system messages dropped, 'assistant' renamed 'model', every other
      role sent as 'user', order kept. */
  function GoogleContents(msgs: seq<Message>): (r: seq<GoogleContent>)
    ensures |r| == |NonSystem(msgs)|
    ensures forall i :: 0 <= i < |r| ==>
      r[i].text == NonSystem(msgs)[i].content
      && r[i].role == (if NonSystem(msgs)[i].role == Assistant then "model" else "user")
  {
    var kept := NonSystem(msgs);
    seq(|kept|, i requires 0 <= i < |kept| => GoogleContent(if kept[i].role == Assistant then "model" else "user", kept[i].content))
  }

  /** Token counts as Anthropic reports them; either may be missing. */
  datatype AnthropicUsage = AnthropicUsage(inputTokens: Option<nat>, outputTokens: Option<nat>)

  datatype TokenUsage = TokenUsage(prompt: nat, completion: nat, total: nat)

  /** anthropicCompletion's `tokensUsed`: missing counts are 0 and the total is their sum. */
  function AnthropicTokens(usage: Option<AnthropicUsage>): (t: TokenUsage)
    ensures t.total == t.prompt + t.completion
    ensures t.prompt == (if usage.Some? then usage.value.inputTokens.GetOr(0) else 0)
    ensures t.completion == (if usage.Some? then usage.value.outputTokens.GetOr(0) else 0)
  {
    var input := if usage.Some? then usage.value.inputTokens.GetOr(0) else 0;
    var output := if usage.Some? then usage.value.outputTokens.GetOr(0) else 0;
    TokenUsage(input, output, input + output)
  }

  // ---- Server-sent events ----

  /** What a reader does with one complete line. */
  datatype LineAction = Skip | Emit(chunk: StreamChunk) | Stop

  /** A decoded `data:` payload: not JSON, or the two fields the readers look at (the event
      type and the text in the provider's own place for it). */
  datatype Payload = Malformed | Fields(eventType: Option<string>, text: Option<string>)

  /** The text a payload carries, when non-empty. */
  predicate HasText(p: Payload) {
    p.Fields? && p.text.Some? && p.text.value != ""
  }

  /** openAIStream's line handling (lines 147-161). */
  function OpenAIStep(decode: string -> Payload, line: string): (a: LineAction)
    ensures !Text.StartsWith(line, "data: ") ==> a == Skip
    ensures a == Stop <==> line == "data: [DONE]"
    ensures a.Emit? ==> (Text.StartsWith(line, "data: ") && HasText(decode(line[6..]))
      && a.chunk == TextChunk(decode(line[6..]).text.value))
  {
    if Text.StartsWith(line, "data: ") then
      var data := line[6..];
      if data == "[DONE]" then (assert line == "data: " + data; Stop)
      else if HasText(decode(data)) then Emit(TextChunk(decode(data).text.value))
      else Skip
    else Skip
  }

  /** anthropicStream's line handling (lines 257-265): only text deltas. */
  function AnthropicStep(decode: string -> Payload, line: string): (a: LineAction)
    ensures a != Stop
    ensures a.Emit? <==> (Text.StartsWith(line, "data: ") && HasText(decode(line[6..]))
      && decode(line[6..]).eventType == Some("content_block_delta"))
    ensures a.Emit? ==> a.chunk == TextChunk(decode(line[6..]).text.value)
  {
    if Text.StartsWith(line, "data: ") then
      var data := decode(line[6..]);
      if HasText(data) && data.eventType == Some("content_block_delta") then Emit(TextChunk(data.text.value))
      else Skip
    else Skip
  }

  /** googleStream's line handling (lines 359-370). */
  function GoogleStep(decode: string -> Payload, line: string): (a: LineAction)
    ensures a != Stop
    ensures a.Emit? <==> Text.StartsWith(line, "data: ") && HasText(decode(line[6..]))
    ensures a.Emit? ==> a.chunk == TextChunk(decode(line[6..]).text.value)
  {
    if Text.StartsWith(line, "data: ") && HasText(decode(line[6..])) then Emit(TextChunk(decode(line[6..]).text.value))
    else Skip
  }

  function Step(p: Provider, decode: string -> Payload, line: string): (a: LineAction)
    ensures a == Stop ==> p == OpenAI && line == "data: [DONE]"
    ensures a.Emit? ==> (Text.StartsWith(line, "data: ") && HasText(decode(line[6..]))
      && a.chunk == TextChunk(decode(line[6..]).text.value))
  {
    match p
    case OpenAI => OpenAIStep(decode, line)
    case Anthropic => AnthropicStep(decode, line)
    case Google => GoogleStep(decode, line)
  }

  /** The text the stream delivers, in order. */
  function Concat(chunks: seq<string>): string {
    if chunks == [] then "" else Concat(chunks[..|chunks| - 1]) + chunks[|chunks| - 1]
  }

  /** The lines that a '\n' has terminated; the trailing unfinished line is not among them. */
  function CompleteLines(s: string): (lines: seq<string>)
    ensures |lines| + 1 == |Text.Split(s, '\n')|
  {
    var parts := Text.Split(s, '\n');
    parts[..|parts| - 1]
  }

  /** Processing lines in order: what is emitted, and whether a line stopped the reader. */
  function Run(p: Provider, decode: string -> Payload, lines: seq<string>): (r: (seq<StreamChunk>, bool))
    ensures |r.0| <= |lines| && (r.1 ==> |r.0| > 0)
    ensures r.1 <==> exists i :: 0 <= i < |lines| && Step(p, decode, lines[i]) == Stop
  {
    if lines == [] then ([], false)
    else match Step(p, decode, lines[0])
      case Skip => Run(p, decode, lines[1..])
      case Emit(c) => var rest := Run(p, decode, lines[1..]); ([c] + rest.0, rest.1)
      case Stop => ([DoneChunk], true)
  }

  /** The chunks a stream reader yields for a body: one per emitting complete line, up to and
      including a stopping line, then 'done' exactly once. */
  function StreamOutput(p: Provider, decode: string -> Payload, chunks: seq<string>): (out: seq<StreamChunk>)
    ensures 0 < |out| <= |CompleteLines(Concat(chunks))| + 1
  {
    var (out, stopped) := Run(p, decode, CompleteLines(Concat(chunks)));
    if stopped then out else out + [DoneChunk]
  }

  lemma RunSingle(p: Provider, decode: string -> Payload, line: string)
    ensures Run(p, decode, [line]) == match Step(p, decode, line)
      case Skip => ([], false)
      case Emit(c) => ([c], false)
      case Stop => ([DoneChunk], true)
  {
    assert [line][0] == line;
    assert [line][1..] == [];
    assert Run(p, decode, []) == ([], false);
    match Step(p, decode, line) {
      case Skip =>
      case Emit(c) => assert [c] + [] == [c];
      case Stop =>
    }
  }

  lemma {:induction false} RunAppend(p: Provider, decode: string -> Payload, a: seq<string>, b: seq<string>)
    ensures var ra, rb := Run(p, decode, a), Run(p, decode, b);
      Run(p, decode, a + b) == if ra.1 then ra else (ra.0 + rb.0, rb.1)
  {
    if a != [] {
      assert (a + b)[0] == a[0];
      assert (a + b)[1..] == a[1..] + b;
      RunAppend(p, decode, a[1..], b);
      match Step(p, decode, a[0]) {
        case Skip =>
        case Emit(c) =>
          var ra', rb := Run(p, decode, a[1..]), Run(p, decode, b);
          if !ra'.1 {
            assert [c] + (ra'.0 + rb.0) == ([c] + ra'.0) + rb.0;
          }
        case Stop =>
      }
    } else {
      assert a + b == b;
      assert Run(p, decode, a) == ([], false);
      assert [] + Run(p, decode, b).0 == Run(p, decode, b).0;
    }
  }

  lemma ConcatAppend(chunks: seq<string>, i: nat)
    requires i < |chunks|
    ensures Concat(chunks[..i + 1]) == Concat(chunks[..i]) + chunks[i]
  {
    assert chunks[..i + 1][..i] == chunks[..i];
  }

  lemma {:induction false} ConcatSplitAt(chunks: seq<string>, i: nat)
    requires i <= |chunks|
    ensures Concat(chunks) == Concat(chunks[..i]) + Concat(chunks[i..])
  {
    if i < |chunks| {
      var n := |chunks|;
      ConcatSplitAt(chunks[..n - 1], i);
      assert chunks[..n - 1][..i] == chunks[..i];
      assert chunks[..n - 1][i..] == chunks[i..][..n - 1 - i];
      assert chunks[i..][n - 1 - i] == chunks[n - 1];
    } else {
      assert chunks[..i] == chunks;
    }
  }

  /** The last, unterminated piece of a text. */
  function LastPiece(s: string): string {
    var parts := Text.Split(s, '\n');
    parts[|parts| - 1]
  }

  /** Appending text: the complete lines so far stay, and new ones come from the old
      unfinished line followed by the new text. */
  lemma CompleteLinesAppend(x: string, y: string)
    ensures CompleteLines(x + y) == CompleteLines(x) + CompleteLines(LastPiece(x) + y)
    ensures LastPiece(x + y) == LastPiece(LastPiece(x) + y)
  {
    var px, py := Text.Split(x, '\n'), Text.Split(y, '\n');
    var last := px[|px| - 1];
    Text.SplitAppend(x, y, '\n');
    var pxy := Text.Split(x + y, '\n');
    assert pxy == px[..|px| - 1] + ([last + py[0]] + py[1..]);
    var tail := LastPieceSplit(x, y);
    assert tail == [last + py[0]] + py[1..];
    assert pxy[..|pxy| - 1] == px[..|px| - 1] + tail[..|tail| - 1];
    assert pxy[|pxy| - 1] == tail[|tail| - 1];
  }

  /** The unfinished line of `x` has no line break, so it splits `y` only where `y` does. */
  lemma LastPieceSplit(x: string, y: string) returns (tail: seq<string>)
    ensures var px, py := Text.Split(x, '\n'), Text.Split(y, '\n');
      tail == Text.Split(px[|px| - 1] + y, '\n') && tail == [px[|px| - 1] + py[0]] + py[1..]
  {
    var px, py := Text.Split(x, '\n'), Text.Split(y, '\n');
    var last := px[|px| - 1];
    Text.SplitPiecesFree(x, '\n');
    assert forall i :: 0 <= i < |last| ==> last[i] != '\n';
    Text.SplitNoSeparator(last, '\n');
    Text.SplitAppend(last, y, '\n');
    tail := Text.Split(last + y, '\n');
  }

  /** The buffered reader of lines 136-166: each chunk is appended to the buffer, the complete
      lines are handled in order and the unfinished rest stays in the buffer; a line that
      stops the reader yields 'done' and ends it, and otherwise 'done' follows the last chunk.
      A last line without '\n' is never handled. */
  method ReadStream(p: Provider, decode: string -> Payload, chunks: seq<string>) returns (out: seq<StreamChunk>)
    ensures out == StreamOutput(p, decode, chunks)
  {
    var buffer := "";
    out := [];
    var i := 0;
    while i < |chunks|
      invariant 0 <= i <= |chunks|
      invariant buffer == LastPiece(Concat(chunks[..i]))
      invariant Run(p, decode, CompleteLines(Concat(chunks[..i]))) == (out, false)
    {
      ghost var done := CompleteLines(Concat(chunks[..i]));
      BufferStep(chunks, i);
      buffer := buffer + chunks[i];
      var parts := Text.Split(buffer, '\n');
      var lines := parts[..|parts| - 1];
      buffer := parts[|parts| - 1];
      var stopped;
      out, stopped := HandleLines(p, decode, done, lines, out);
      if stopped {
        assert done + lines == (done + lines) + [];
        StopIsFinal(p, decode, chunks, i + 1, done + lines, []);
        return;
      }
      i := i + 1;
    }
    assert chunks[..i] == chunks;
    out := out + [DoneChunk];
  }

  /** One chunk more: the complete lines grow by those of the old buffer plus the chunk. */
  lemma BufferStep(chunks: seq<string>, i: nat)
    requires i < |chunks|
    ensures var before := Concat(chunks[..i]);
      && CompleteLines(Concat(chunks[..i + 1])) == CompleteLines(before) + CompleteLines(LastPiece(before) + chunks[i])
      && LastPiece(Concat(chunks[..i + 1])) == LastPiece(LastPiece(before) + chunks[i])
  {
    ConcatAppend(chunks, i);
    CompleteLinesAppend(Concat(chunks[..i]), chunks[i]);
  }

  /** The inner `for (const line of lines)` loop: handles complete lines in order until one
      stops the reader. */
  method HandleLines(p: Provider, decode: string -> Payload, ghost done: seq<string>, lines: seq<string>,
                     out0: seq<StreamChunk>)
    returns (out: seq<StreamChunk>, stopped: bool)
    requires Run(p, decode, done) == (out0, false)
    ensures Run(p, decode, done + lines) == (out, stopped)
  {
    out := out0;
    var j := 0;
    assert done + lines[..0] == done;
    while j < |lines|
      invariant 0 <= j <= |lines|
      invariant Run(p, decode, done + lines[..j]) == (out, false)
    {
      RunAppend(p, decode, done + lines[..j], [lines[j]]);
      RunSingle(p, decode, lines[j]);
      assert done + lines[..j + 1] == done + lines[..j] + [lines[j]];
      match Step(p, decode, lines[j]) {
        case Skip =>
          assert out + [] == out;
        case Emit(c) =>
          out := out + [c];
        case Stop =>
          out := out + [DoneChunk];
          assert done + lines == (done + lines[..j + 1]) + lines[j + 1..];
          RunAppend(p, decode, done + lines[..j + 1], lines[j + 1..]);
          return out, true;
      }
      j := j + 1;
    }
    assert lines[..j] == lines;
    stopped := false;
  }

  /** Once a complete line stops the reader, later text changes nothing. */
  lemma StopIsFinal(p: Provider, decode: string -> Payload, chunks: seq<string>, i: nat,
                    handled: seq<string>, pending: seq<string>)
    requires i <= |chunks|
    requires CompleteLines(Concat(chunks[..i])) == handled + pending
    requires Run(p, decode, handled).1
    ensures StreamOutput(p, decode, chunks) == Run(p, decode, handled).0
  {
    ConcatSplitAt(chunks, i);
    CompleteLinesAppend(Concat(chunks[..i]), Concat(chunks[i..]));
    var rest := CompleteLines(LastPiece(Concat(chunks[..i])) + Concat(chunks[i..]));
    assert CompleteLines(Concat(chunks)) == handled + (pending + rest);
    RunAppend(p, decode, handled, pending + rest);
  }

  /** The reply to a streaming request. */
  datatype StreamReply = NotOk(status: int) | NoBody | Body(chunks: seq<string>)

  function ProviderLabel(p: Provider): string {
    match p
    case OpenAI => "OpenAI"
    case Anthropic => "Anthropic"
    case Google => "Google"
  }

  /** openAIStream, anthropicStream and googleStream: a failed status or a missing body
      yields one error chunk and ends the stream. */
  method CreateStreamingCompletion(p: Provider, decode: string -> Payload, reply: StreamReply)
    returns (out: seq<StreamChunk>)
    ensures reply.NotOk? ==> out == [ErrorChunk(ProviderLabel(p) + " API error: " + Text.IntToString(reply.status))]
    ensures reply.NoBody? ==> out == [ErrorChunk("No response body")]
    ensures reply.Body? ==> out == StreamOutput(p, decode, reply.chunks)
  {
    match reply {
      case NotOk(status) =>
        out := [ErrorChunk(ProviderLabel(p) + " API error: " + Text.IntToString(status))];
      case NoBody =>
        out := [ErrorChunk("No response body")];
      case Body(chunks) =>
        out := ReadStream(p, decode, chunks);
    }
  }

  /** Every reader ends with exactly one 'done', and everything before it is text. */
  lemma {:induction false} RunEmitsText(p: Provider, decode: string -> Payload, lines: seq<string>)
    ensures var (out, stopped) := Run(p, decode, lines);
      (stopped ==> |out| > 0 && out[|out| - 1] == DoneChunk && forall k :: 0 <= k < |out| - 1 ==> out[k].TextChunk?)
      && (!stopped ==> forall k :: 0 <= k < |out| ==> out[k].TextChunk?)
  {
    if lines != [] {
      RunEmitsText(p, decode, lines[1..]);
    }
  }

  lemma StreamEndsWithOneDone(p: Provider, decode: string -> Payload, chunks: seq<string>)
    ensures var out := StreamOutput(p, decode, chunks);
      |out| > 0 && out[|out| - 1] == DoneChunk && forall k :: 0 <= k < |out| - 1 ==> out[k].TextChunk?
  {
    RunEmitsText(p, decode, CompleteLines(Concat(chunks)));
  }

  /** With OpenAI, the stream is over at `data: [DONE]`: text arriving after that line is never read. */
  lemma OpenAIStopsAtDone(decode: string -> Payload, chunks: seq<string>, later: seq<string>)
    requires "data: [DONE]" in CompleteLines(Concat(chunks))
    ensures StreamOutput(OpenAI, decode, chunks + later) == StreamOutput(OpenAI, decode, chunks)
  {
    var lines := CompleteLines(Concat(chunks));
    var k :| 0 <= k < |lines| && lines[k] == "data: [DONE]";
    StopAtLine(decode, lines, k);
    assert lines == lines[..k + 1] + lines[k + 1..];
    assert chunks[..|chunks|] == chunks;
    StopIsFinal(OpenAI, decode, chunks, |chunks|, lines[..k + 1], lines[k + 1..]);
    assert (chunks + later)[..|chunks|] == chunks;
    StopIsFinal(OpenAI, decode, chunks + later, |chunks|, lines[..k + 1], lines[k + 1..]);
  }

  lemma {:induction false} StopAtLine(decode: string -> Payload, lines: seq<string>, k: nat)
    requires k < |lines| && lines[k] == "data: [DONE]"
    ensures Run(OpenAI, decode, lines[..k + 1]).1
  {
    if k == 0 {
      assert lines[..1] == [lines[0]];
    } else {
      assert lines[..k + 1][0] == lines[0];
      assert lines[..k + 1][1..] == lines[1..][..k];
      StopAtLine(decode, lines[1..], k - 1);
    }
  }
}
