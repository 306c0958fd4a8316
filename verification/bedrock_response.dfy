/** Response decoding for the Converse call: the non-streaming path of
    `process_response` (src/ell/providers/bedrock.py, lines 156-262), which
    reads the usage block and builds one canonical message per response
    chunk. */
module BedrockResponse {
  import opened Wrappers
  import opened PyValues
  import opened EllTypes
  import BedrockContent

  /** `chunk["usage"]`'s counts under the framework's names, each 0 when the
      provider left it out. */
  function ChunkUsage(chunk: Value): (r: Result<map<string, Value>, Error>)
    ensures r.Success? <==> chunk.Dict? && "usage" in chunk.entries && chunk.entries["usage"].Dict?
    ensures r.Success? ==>
      var u := chunk.entries["usage"].entries;
      && r.value.Keys == {"prompt_tokens", "completion_tokens", "total_tokens"}
      && r.value["prompt_tokens"] == (if "inputTokens" in u then u["inputTokens"] else Int(0))
      && r.value["completion_tokens"] == (if "outputTokens" in u then u["outputTokens"] else Int(0))
      && r.value["total_tokens"] == (if "totalTokens" in u then u["totalTokens"] else Int(0))
    ensures chunk.Dict? && "usage" !in chunk.entries ==> r == Failure(KeyError("usage"))
  {
    var usage :- Subscript(chunk, "usage");
    match Get(usage, "inputTokens", Int(0))
    case Failure(e) => Failure(e)
    case Success(prompt) =>
      match Get(usage, "outputTokens", Int(0))
      case Failure(e) => Failure(e)
      case Success(completion) =>
        match Get(usage, "totalTokens", Int(0))
        case Failure(e) => Failure(e)
        case Success(total) =>
          Success(map["prompt_tokens" := prompt, "completion_tokens" := completion, "total_tokens" := total])
  }

  /** The canonical message for one chunk: the role of `output.message` and
      one text block holding the text of its first content entry. */
  function ChunkMessage(chunk: Value): (r: Result<Message, Error>)
  {
    var output :- Subscript(chunk, "output");
    var message :- Subscript(output, "message");
    var content :- Subscript(message, "content");
    var first :- First(content);
    var text :- Subscript(first, "text");
    var t :- AsStr(text);
    var role :- Subscript(message, "role");
    var rl :- AsStr(role);
    Success(Message(rl, [TextBlock(t)], [], []))
  }

  /** A chunk shaped as the provider sends it: `output.message` with a
      string role and a content list whose first entry has a string text. */
  predicate WellFormedChunk(chunk: Value)
  {
    && chunk.Dict? && "output" in chunk.entries
    && var output := chunk.entries["output"];
    && output.Dict? && "message" in output.entries
    && var message := output.entries["message"];
    && message.Dict? && "content" in message.entries && "role" in message.entries
    && message.entries["role"].Str?
    && var content := message.entries["content"];
    && content.List? && content.items != []
    && content.items[0].Dict? && "text" in content.items[0].entries
    && content.items[0].entries["text"].Str?
  }

  /** Role copied from `output.message.role`. */
  function ChunkRole(chunk: Value): string
    requires WellFormedChunk(chunk)
  {
    chunk.entries["output"].entries["message"].entries["role"].s
  }

  /** Text copied from `output.message.content[0].text`. */
  function ChunkText(chunk: Value): string
    requires WellFormedChunk(chunk)
  {
    chunk.entries["output"].entries["message"].entries["content"].items[0].entries["text"].s
  }

  /** A well-formed chunk decodes to exactly one text block with its text and
      its role, and no tool calls; any other chunk raises. */
  lemma ChunkMessageCopies(chunk: Value)
    ensures ChunkMessage(chunk).Success? <==> WellFormedChunk(chunk)
    ensures WellFormedChunk(chunk) ==>
      ChunkMessage(chunk) == Success(Message(ChunkRole(chunk), [TextBlock(ChunkText(chunk))], [], []))
  {
  }

  /** The messages and the metadata of a list of chunks, or the first
      exception raised; each chunk is read usage first, then message. */
  function DecodeChunks(chunks: seq<Value>): (r: Result<(seq<Message>, map<string, Value>), Error>)
    ensures r.Success? ==> |r.value.0| == |chunks|
    ensures r.Success? && chunks == [] ==> r.value.1 == map[]
    ensures r.Success? && chunks != [] ==>
              ChunkUsage(chunks[|chunks| - 1]).Success? && r.value.1 == map["usage" := Dict(ChunkUsage(chunks[|chunks| - 1]).value)]
    decreases |chunks|
  {
    if chunks == [] then Success(([], map[]))
    else
      var front := chunks[..|chunks| - 1];
      var chunk := chunks[|chunks| - 1];
      match DecodeChunks(front)
      case Failure(e) => Failure(e)
      case Success(done) =>
        match ChunkUsage(chunk)
        case Failure(e) => Failure(e)
        case Success(usage) =>
          match ChunkMessage(chunk)
          case Failure(e) => Failure(e)
          case Success(m) => Success((done.0 + [m], map["usage" := Dict(usage)]))
  }

  /** Each tracked message is the decoding of the chunk at its position. */
  lemma {:induction false} DecodeChunksElementwise(chunks: seq<Value>)
    ensures DecodeChunks(chunks).Success? ==> forall i :: 0 <= i < |chunks| ==>
              ChunkMessage(chunks[i]).Success? && DecodeChunks(chunks).value.0[i] == ChunkMessage(chunks[i]).value
    decreases |chunks|
  {
    if chunks != [] && DecodeChunks(chunks).Success? {
      var front := chunks[..|chunks| - 1];
      var last := chunks[|chunks| - 1];
      DecodeChunksElementwise(front);
      assert DecodeChunks(front).Success? && ChunkMessage(last).Success?;
      assert DecodeChunks(chunks).value.0 == DecodeChunks(front).value.0 + [ChunkMessage(last).value];
      assert forall i :: 0 <= i < |front| ==> front[i] == chunks[i];
    }
  }

  /** An exception in a prefix is the exception of the whole list. */
  lemma {:induction false} DecodeChunksFailurePrefix(a: seq<Value>, b: seq<Value>)
    requires DecodeChunks(a).Failure?
    ensures DecodeChunks(a + b) == DecodeChunks(a)
    decreases |b|
  {
    if b == [] {
      assert a + b == a;
    } else {
      var b' := b[..|b| - 1];
      assert (a + b)[..|a + b| - 1] == a + b';
      DecodeChunksFailurePrefix(a, b');
    }
  }

  /** `process_response` for a non-streaming call result: the response is
      wrapped in a one-element list and each chunk is decoded in turn. */
  method ProcessResponse(callResult: APICallResult) returns (r: Result<(seq<Message>, map<string, Value>), Error>)
    requires !callResult.actualStreaming
    ensures r == DecodeChunks([callResult.response])
  {
    var response := [callResult.response];
    var metadata: map<string, Value> := map[];
    var trackedResults: seq<Message> := [];
    var i := 0;
    while i < |response|
      invariant 0 <= i <= |response|
      invariant DecodeChunks(response[..i]) == Success((trackedResults, metadata))
    {
      var chunk := response[i];
      assert response[..i + 1][..i] == response[..i];
      assert response[..i + 1] + response[i + 1..] == response;
      var usage := ChunkUsage(chunk);
      if usage.Failure? {
        DecodeChunksFailurePrefix(response[..i + 1], response[i + 1..]);
        return Failure(usage.error);
      }
      metadata := map["usage" := Dict(usage.value)];
      var message := ChunkMessage(chunk);
      if message.Failure? {
        DecodeChunksFailurePrefix(response[..i + 1], response[i + 1..]);
        return Failure(message.error);
      }
      trackedResults := trackedResults + [message.value];
      i := i + 1;
    }
    assert response[..i] == response;
    return Success((trackedResults, metadata));
  }

  /** Exactly one message comes back for a call result, copied from the
      response, together with its usage counts. */
  lemma ProcessResponseSingle(response: Value)
    ensures DecodeChunks([response]).Success? <==> ChunkUsage(response).Success? && WellFormedChunk(response)
    ensures DecodeChunks([response]).Success? ==>
      && DecodeChunks([response]).value.0 == [Message(ChunkRole(response), [TextBlock(ChunkText(response))], [], [])]
      && DecodeChunks([response]).value.1 == map["usage" := Dict(ChunkUsage(response).value)]
  {
    ChunkMessageCopies(response);
    DecodeChunksElementwise([response]);
    if DecodeChunks([response]).Success? {
      assert DecodeChunks([response]).value.0[0] == ChunkMessage(response).value;
    }
  }

  /** A Converse response with the given role, content entries and usage
      block. */
  function ConverseResponse(role: string, content: seq<Value>, usage: map<string, Value>): Value
  {
    Dict(map[
      "output" := Dict(map["message" := Dict(map["role" := Str(role), "content" := List(content)])]),
      "usage" := Dict(usage)])
  }

  /** Round trip through the provider: when the provider echoes back a text
      entry as the request encoder builds it, the decoded message carries the
      same text (the block's text, or its parsed value's JSON). */
  lemma TextRoundTrip(b: ContentBlock, role: string, usage: map<string, Value>)
    requires b.image.None? && BedrockContent.Convertible(b)
    ensures var resp := ConverseResponse(role, [BedrockContent.ConvertContentBlock(b).value], usage);
      var text := if BedrockContent.HasText(b) then b.text.value else b.parsed.value.dumpedJson;
      DecodeChunks([resp]) == Success(([Message(role, [TextBlock(text)], [], [])],
                                       map["usage" := Dict(ChunkUsage(resp).value)]))
  {
    var resp := ConverseResponse(role, [BedrockContent.ConvertContentBlock(b).value], usage);
    ProcessResponseSingle(resp);
  }

  /** A single-text reply with usage {input 5, output 7, total 12}. */
  lemma UsageExample()
    ensures DecodeChunks([ConverseResponse("assistant", [Dict(map["text" := Str("hi")])],
                          map["inputTokens" := Int(5), "outputTokens" := Int(7), "totalTokens" := Int(12)])])
         == Success(([Message("assistant", [TextBlock("hi")], [], [])],
                     map["usage" := Dict(map["prompt_tokens" := Int(5), "completion_tokens" := Int(7), "total_tokens" := Int(12)])]))
  {
    var resp := ConverseResponse("assistant", [Dict(map["text" := Str("hi")])],
                  map["inputTokens" := Int(5), "outputTokens" := Int(7), "totalTokens" := Int(12)]);
    ProcessResponseSingle(resp);
  }
}
