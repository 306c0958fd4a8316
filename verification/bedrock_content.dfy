/** Request-side translation of one canonical message into a Bedrock
    Converse message: the content-block converter and the message encoder
    (src/ell/providers/bedrock.py, lines 20-86). */
module BedrockContent {
  import opened Wrappers
  import opened PyValues
  import opened EllTypes

  /** The block's text is present and non-empty, i.e. truthy. */
  predicate HasText(b: ContentBlock)
  {
    b.text.Some? && b.text.value != ""
  }

  /** Some branch of the converter fires for this block. */
  predicate Convertible(b: ContentBlock)
  {
    b.image.Some? || HasText(b) || b.parsed.Some?
  }

  /** `{"image": {"format": "png", "source": {"bytes": png}}}` */
  function ImageEntry(png: seq<byte>): Value
  {
    Dict(map["image" := Dict(map["format" := Str("png"), "source" := Dict(map["bytes" := Bytes(png)])])])
  }

  /** `{"text": t}` */
  function TextEntry(t: string): Value
  {
    Dict(map["text" := Str(t)])
  }

  /** Converts one content block; None when no branch fires. The branches are
      tried image, then text, then parsed, and the first that applies wins. */
  function ConvertContentBlock(b: ContentBlock): (r: Option<Value>)
    ensures r.Some? <==> Convertible(b)
    ensures r.Some? ==> r.value.Dict? && |r.value.entries| == 1
    ensures r.Some? ==> ("image" in r.value.entries <==> b.image.Some?)
    ensures b.image.Some? ==> r == Some(ImageEntry(b.image.value.pngBytes))
    ensures b.image.None? && HasText(b) ==> r == Some(TextEntry(b.text.value))
    ensures b.image.None? && !HasText(b) && b.parsed.Some? ==> r == Some(TextEntry(b.parsed.value.dumpedJson))
  {
    if b.image.Some? then Some(ImageEntry(b.image.value.pngBytes))
    else if HasText(b) then Some(TextEntry(b.text.value))
    else if b.parsed.Some? then Some(TextEntry(b.parsed.value.dumpedJson))
    else None
  }

  /** `list(filter(None, [convert(c) for c in blocks]))`: the converted blocks
      in order, the blocks no branch fires for dropped. */
  function ConvertBlocks(blocks: seq<ContentBlock>): (r: seq<Value>)
    ensures |r| <= |blocks|
    decreases |blocks|
  {
    if blocks == [] then []
    else
      var front := ConvertBlocks(blocks[..|blocks| - 1]);
      match ConvertContentBlock(blocks[|blocks| - 1])
      case Some(v) => front + [v]
      case None => front
  }

  /** Converting a concatenation converts each part: order is preserved and
      each block contributes on its own. */
  lemma {:induction false} ConvertBlocksAppend(a: seq<ContentBlock>, b: seq<ContentBlock>)
    ensures ConvertBlocks(a + b) == ConvertBlocks(a) + ConvertBlocks(b)
    decreases |b|
  {
    if b == [] {
      assert a + b == a;
    } else {
      var b' := b[..|b| - 1];
      assert (a + b)[..|a + b| - 1] == a + b';
      assert (a + b)[|a + b| - 1] == b[|b| - 1];
      ConvertBlocksAppend(a, b');
    }
  }

  /** A single block contributes its entry, or nothing when no branch fires. */
  lemma ConvertBlocksSingle(b: ContentBlock)
    ensures Convertible(b) ==> ConvertBlocks([b]) == [ConvertContentBlock(b).value]
    ensures !Convertible(b) ==> ConvertBlocks([b]) == []
  {
    assert [b][..0] == [];
  }

  /** When every block is convertible there is exactly one entry per block,
      the i-th entry being the i-th block's conversion. */
  lemma {:induction false} ConvertBlocksAllConvertible(blocks: seq<ContentBlock>)
    requires forall i :: 0 <= i < |blocks| ==> Convertible(blocks[i])
    ensures |ConvertBlocks(blocks)| == |blocks|
    ensures forall i :: 0 <= i < |blocks| ==> ConvertBlocks(blocks)[i] == ConvertContentBlock(blocks[i]).value
    decreases |blocks|
  {
    if blocks != [] {
      var front := blocks[..|blocks| - 1];
      ConvertBlocksAllConvertible(front);
      assert ConvertContentBlock(blocks[|blocks| - 1]).Some?;
    }
  }

  /** The positions of the blocks some branch of the converter fires for. */
  function ConvertibleAt(blocks: seq<ContentBlock>): set<int>
  {
    set i | 0 <= i < |blocks| && Convertible(blocks[i])
  }

  /** One more block adds its own position when it is convertible. */
  lemma ConvertibleAtSnoc(blocks: seq<ContentBlock>)
    requires blocks != []
    ensures var n := |blocks| - 1;
      |ConvertibleAt(blocks)| == |ConvertibleAt(blocks[..n])| + (if Convertible(blocks[n]) then 1 else 0)
  {
    var n := |blocks| - 1;
    var front := blocks[..n];
    var last: set<int> := if Convertible(blocks[n]) then {n} else {};
    forall i | i in ConvertibleAt(blocks)
      ensures i in ConvertibleAt(front) + last
    {
      if i < n {
        assert front[i] == blocks[i];
      }
    }
    forall i | i in ConvertibleAt(front) + last
      ensures i in ConvertibleAt(blocks)
    {
      if i < n {
        assert front[i] == blocks[i];
      }
    }
    assert ConvertibleAt(blocks) == ConvertibleAt(front) + last;
    assert n !in ConvertibleAt(front);
  }

  /** The content list has exactly one entry per block that is an image, a
      non-empty text or a parsed value. */
  lemma {:induction false} ConvertBlocksCount(blocks: seq<ContentBlock>)
    ensures |ConvertBlocks(blocks)| == |ConvertibleAt(blocks)|
    decreases |blocks|
  {
    if blocks == [] {
      assert ConvertibleAt(blocks) == {};
    } else {
      ConvertBlocksCount(blocks[..|blocks| - 1]);
      ConvertibleAtSnoc(blocks);
    }
  }

  /** When no block is convertible nothing is sent. */
  lemma {:induction false} ConvertBlocksNoneConvertible(blocks: seq<ContentBlock>)
    requires forall i :: 0 <= i < |blocks| ==> !Convertible(blocks[i])
    ensures ConvertBlocks(blocks) == []
    decreases |blocks|
  {
    if blocks != [] {
      ConvertBlocksNoneConvertible(blocks[..|blocks| - 1]);
    }
  }

  /** `{"toolUse": {"input": ..., "name": ..., "toolUseId": ...}}`, or None
      when serialising the call's parameters raises TypeError. */
  function ToolUseEntry(tc: ToolCall): Option<Value>
  {
    match tc.paramsJson
    case None => None
    case Some(json) =>
      Some(Dict(map["toolUse" := Dict(map[
        "input" := Str(json),
        "name" := Str(tc.toolName),
        "toolUseId" := Str(tc.toolCallId)])]))
  }

  /** Every tool call's parameters serialise. */
  predicate AllSerialisable(tcs: seq<ToolCall>)
  {
    forall i :: 0 <= i < |tcs| ==> tcs[i].paramsJson.Some?
  }

  /** The tool-use entries of a list of tool calls, one per call in order;
      None as soon as one call's parameters fail to serialise. */
  function ToolUseEntries(tcs: seq<ToolCall>): (r: Option<seq<Value>>)
    ensures r.Some? <==> AllSerialisable(tcs)
    ensures r.Some? ==> |r.value| == |tcs|
    ensures r.Some? ==> forall i :: 0 <= i < |tcs| ==> Some(r.value[i]) == ToolUseEntry(tcs[i])
    decreases |tcs|
  {
    if tcs == [] then Some([])
    else
      var last := tcs[|tcs| - 1];
      match ToolUseEntries(tcs[..|tcs| - 1])
      case None => None
      case Some(front) =>
        match ToolUseEntry(last)
        case None => None
        case Some(v) => Some(front + [v])
  }

  /** The entry appended for a tool result whose result is non-empty. */
  function ToolResultEntry(tr: ToolResult): Value
    requires tr.result != []
  {
    Dict(map[
      "content" := Dict(map["text" := OptStr(tr.result[0].text)]),
      "toolUseId" := Str(tr.toolCallId)])
  }

  const OneBlockMessage := "Tool result should only have one content block"
  const TextBlockMessage := "Tool result should only have one text content block"

  /** The tool-results step applied to the message built so far, whose
      `content` is `content`. */
  function WithToolResults(m: Message, content: Value): Result<map<string, Value>, Error>
  {
    if m.toolResults == [] then
      Success(map["role" := Str(m.role), "content" := content])
    else if !content.List? then
      Failure(AttributeError("append"))
    else
      var tr := m.toolResults[0];
      if tr.result == [] then Failure(IndexError)
      else if |tr.result| != 1 then Failure(AssertionError(OneBlockMessage))
      else if tr.result[0].kind != "text" then Failure(AssertionError(TextBlockMessage))
      else Success(map["role" := Str(m.role), "content" := List(content.items + [ToolResultEntry(tr)])])
  }

  /** The Converse message for `m`, or the exception the encoder raises. */
  function EncodeMessage(m: Message): Result<map<string, Value>, Error>
  {
    if m.toolCalls != [] then
      if ToolUseEntries(m.toolCalls).None? then
        Failure(TypeError("tool call parameters are not JSON serialisable"))
      else
        WithToolResults(m, Null)
    else
      WithToolResults(m, List(ConvertBlocks(m.content)))
  }

  /** The encoder as the source runs it: build the dictionary, extend its
      content with tool uses, null the content, append the tool result. */
  method MessageToBedrockFormat(m: Message) returns (r: Result<map<string, Value>, Error>)
    ensures r == EncodeMessage(m)
  {
    var converted: seq<Value> := [];
    var i := 0;
    while i < |m.content|
      invariant 0 <= i <= |m.content|
      invariant converted == ConvertBlocks(m.content[..i])
    {
      assert m.content[..i + 1][..i] == m.content[..i];
      var entry := ConvertContentBlock(m.content[i]);
      if entry.Some? {
        converted := converted + [entry.value];
      }
      i := i + 1;
    }
    assert m.content[..i] == m.content;
    var converseMessage := map["role" := Str(m.role), "content" := List(converted)];

    if m.toolCalls != [] {
      var uses: seq<Value> := [];
      var j := 0;
      while j < |m.toolCalls|
        invariant 0 <= j <= |m.toolCalls|
        invariant ToolUseEntries(m.toolCalls[..j]) == Some(uses)
      {
        assert m.toolCalls[..j + 1][..j] == m.toolCalls[..j];
        var entry := ToolUseEntry(m.toolCalls[j]);
        if entry.None? {
          assert !m.toolCalls[j].paramsJson.Some?;
          return Failure(TypeError("tool call parameters are not JSON serialisable"));
        }
        uses := uses + [entry.value];
        j := j + 1;
      }
      assert m.toolCalls[..j] == m.toolCalls;
      converseMessage := converseMessage["content" := List(converted + uses)];
      // the tool-use entries just built are discarded
      converseMessage := converseMessage["content" := Null];
      assert converseMessage == map["role" := Str(m.role), "content" := Null];
    }

    if m.toolResults != [] {
      var content := converseMessage["content"];
      if !content.List? {
        return Failure(AttributeError("append"));
      }
      var tr := m.toolResults[0];
      if tr.result == [] {
        return Failure(IndexError);
      }
      converseMessage := converseMessage["content" := List(content.items + [ToolResultEntry(tr)])];
      assert converseMessage == map["role" := Str(m.role), "content" := List(content.items + [ToolResultEntry(tr)])];
      if |tr.result| != 1 {
        return Failure(AssertionError(OneBlockMessage));
      }
      if tr.result[0].kind != "text" {
        return Failure(AssertionError(TextBlockMessage));
      }
    }
    return Success(converseMessage);
  }

  /** A successful encoding has exactly the keys `role` and `content`, and
      its role is the message's role, copied verbatim. */
  lemma EncodeMessageRole(m: Message)
    requires EncodeMessage(m).Success?
    ensures EncodeMessage(m).value.Keys == {"role", "content"}
    ensures EncodeMessage(m).value["role"] == Str(m.role)
  {
  }

  /** Without tool calls or tool results, the content is the converted blocks
      in order, one entry per convertible block, and encoding never fails. */
  lemma EncodePlainMessage(m: Message)
    requires m.toolCalls == [] && m.toolResults == []
    ensures EncodeMessage(m) == Success(map["role" := Str(m.role), "content" := List(ConvertBlocks(m.content))])
    ensures (forall i :: 0 <= i < |m.content| ==> Convertible(m.content[i])) ==>
              |ConvertBlocks(m.content)| == |m.content|
  {
    if forall i :: 0 <= i < |m.content| ==> Convertible(m.content[i]) {
      ConvertBlocksAllConvertible(m.content);
    }
  }

  /** With tool calls, the content ends up null whatever was built first; a
      serialisation failure is raised as TypeError; and tool results on the
      same message make the append onto null fail. */
  lemma EncodeToolCallsMessage(m: Message)
    requires m.toolCalls != []
    ensures !AllSerialisable(m.toolCalls) ==> EncodeMessage(m).Failure? && EncodeMessage(m).error.TypeError?
    ensures AllSerialisable(m.toolCalls) && m.toolResults == [] ==>
              EncodeMessage(m) == Success(map["role" := Str(m.role), "content" := Null])
    ensures AllSerialisable(m.toolCalls) && m.toolResults != [] ==>
              EncodeMessage(m) == Failure(AttributeError("append"))
  {
  }

  /** With tool results and no tool calls, exactly one entry built from the
      first result is appended after the converted blocks; the call fails
      unless that result holds exactly one block of type "text". */
  lemma EncodeToolResultMessage(m: Message)
    requires m.toolCalls == [] && m.toolResults != []
    ensures var tr := m.toolResults[0];
      EncodeMessage(m).Success? <==> |tr.result| == 1 && tr.result[0].kind == "text"
    ensures var tr := m.toolResults[0];
      EncodeMessage(m).Success? ==>
        EncodeMessage(m).value["content"] == List(ConvertBlocks(m.content) + [Dict(map[
          "content" := Dict(map["text" := OptStr(tr.result[0].text)]),
          "toolUseId" := Str(tr.toolCallId)])])
    ensures m.toolResults[0].result == [] ==> EncodeMessage(m) == Failure(IndexError)
    ensures |m.toolResults[0].result| > 1 ==> EncodeMessage(m) == Failure(AssertionError(OneBlockMessage))
  {
  }
}
