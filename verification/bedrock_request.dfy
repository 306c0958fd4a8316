/** Request assembly for the Converse call: the part of `call_model` that
    splits off system prompts, encodes the other messages, cleans up the
    call parameters and adds the tools directive
    (src/ell/providers/bedrock.py, lines 88-154). The `client.converse`
    call itself is not modelled: its response is an input. */
module BedrockRequest {
  import opened Wrappers
  import opened PyValues
  import opened EllTypes
  import opened BedrockContent

  predicate IsSystem(m: Message)
  {
    m.role == "system"
  }

  /** The messages whose "is system" flag equals `system`, in order. */
  function WithRole(ms: seq<Message>, system: bool): seq<Message>
    decreases |ms|
  {
    if ms == [] then []
    else WithRole(ms[..|ms| - 1], system) + (if IsSystem(ms[|ms| - 1]) == system then [ms[|ms| - 1]] else [])
  }

  /** The messages whose role is not "system", in order. */
  function NonSystem(ms: seq<Message>): seq<Message>
  {
    WithRole(ms, false)
  }

  /** The messages whose role is "system", in order. */
  function SystemOnly(ms: seq<Message>): seq<Message>
  {
    WithRole(ms, true)
  }

  /** Each list holds only messages of its kind. */
  lemma {:induction false} WithRoleOnly(ms: seq<Message>, system: bool)
    ensures forall i :: 0 <= i < |WithRole(ms, system)| ==> IsSystem(WithRole(ms, system)[i]) == system
    decreases |ms|
  {
    if ms != [] {
      WithRoleOnly(ms[..|ms| - 1], system);
    }
  }

  /** Every message lands in exactly one of the two lists. */
  lemma {:induction false} SplitCounts(ms: seq<Message>)
    ensures |NonSystem(ms)| + |SystemOnly(ms)| == |ms|
    decreases |ms|
  {
    if ms != [] {
      SplitCounts(ms[..|ms| - 1]);
    }
  }

  /** Selecting by role distributes over concatenation, so each list keeps
      the input order. */
  lemma {:induction false} WithRoleAppend(a: seq<Message>, b: seq<Message>, system: bool)
    ensures WithRole(a + b, system) == WithRole(a, system) + WithRole(b, system)
    decreases |b|
  {
    if b == [] {
      assert a + b == a;
    } else {
      var b' := b[..|b| - 1];
      assert (a + b)[..|a + b| - 1] == a + b';
      WithRoleAppend(a, b', system);
    }
  }

  /** One more message extends its own list by itself and leaves the other
      list alone. */
  lemma WithRoleStep(ms: seq<Message>, i: nat, system: bool)
    requires i < |ms|
    ensures IsSystem(ms[i]) == system ==> WithRole(ms[..i + 1], system) == WithRole(ms[..i], system) + [ms[i]]
    ensures IsSystem(ms[i]) != system ==> WithRole(ms[..i + 1], system) == WithRole(ms[..i], system)
  {
    assert ms[..i + 1][..i] == ms[..i];
    assert WithRole(ms[..i], system) + [] == WithRole(ms[..i], system);
  }

  /** `[f(x) for x in xs]` for an `f` that may raise: the results in order,
      or the first exception raised. */
  function MapOrRaise<T, U>(xs: seq<T>, f: T -> Result<U, Error>): (r: Result<seq<U>, Error>)
    ensures r.Success? ==> |r.value| == |xs|
    decreases |xs|
  {
    if xs == [] then Success([])
    else
      match MapOrRaise(xs[..|xs| - 1], f)
      case Failure(e) => Failure(e)
      case Success(done) =>
        match f(xs[|xs| - 1])
        case Failure(e) => Failure(e)
        case Success(y) => Success(done + [y])
  }

  /** The comprehension succeeds iff `f` succeeds on every item, and then
      holds `f`'s result for each item at its position. */
  lemma {:induction false} MapOrRaiseElementwise<T, U>(xs: seq<T>, f: T -> Result<U, Error>)
    ensures MapOrRaise(xs, f).Success? <==> forall i :: 0 <= i < |xs| ==> f(xs[i]).Success?
    ensures MapOrRaise(xs, f).Success? ==>
              forall i :: 0 <= i < |xs| ==> MapOrRaise(xs, f).value[i] == f(xs[i]).value
    decreases |xs|
  {
    if xs != [] {
      var front := xs[..|xs| - 1];
      MapOrRaiseElementwise(front, f);
      assert forall i :: 0 <= i < |front| ==> front[i] == xs[i];
    }
  }

  /** A failed comprehension raises the exception of the first item on which
      `f` fails. */
  lemma {:induction false} MapOrRaiseFirstFailure<T, U>(xs: seq<T>, f: T -> Result<U, Error>)
    ensures MapOrRaise(xs, f).Failure? ==>
              exists k :: 0 <= k < |xs| && f(xs[k]).Failure? && MapOrRaise(xs, f).error == f(xs[k]).error &&
                          forall j :: 0 <= j < k ==> f(xs[j]).Success?
    decreases |xs|
  {
    if xs != [] && MapOrRaise(xs, f).Failure? {
      var front := xs[..|xs| - 1];
      MapOrRaiseFirstFailure(front, f);
      assert forall i :: 0 <= i < |front| ==> front[i] == xs[i];
      if MapOrRaise(front, f).Success? {
        MapOrRaiseElementwise(front, f);
        var k := |xs| - 1;
        assert f(xs[k]).Failure? && MapOrRaise(xs, f).error == f(xs[k]).error;
      }
    }
  }

  /** One more item appends its result, or raises its exception. */
  lemma MapOrRaiseSnoc<T, U>(xs: seq<T>, x: T, f: T -> Result<U, Error>)
    requires MapOrRaise(xs, f).Success?
    ensures f(x).Success? ==> MapOrRaise(xs + [x], f) == Success(MapOrRaise(xs, f).value + [f(x).value])
    ensures f(x).Failure? ==> MapOrRaise(xs + [x], f) == Failure(f(x).error)
  {
    assert (xs + [x])[..|xs|] == xs;
  }

  /** An exception raised on the selected messages among the first k is the
      exception of the whole comprehension. */
  lemma {:induction false} MapOrRaisePrefixFailure<U>(ms: seq<Message>, k: nat, system: bool,
                                                      f: Message -> Result<U, Error>)
    requires k <= |ms| && MapOrRaise(WithRole(ms[..k], system), f).Failure?
    ensures MapOrRaise(WithRole(ms, system), f) == MapOrRaise(WithRole(ms[..k], system), f)
    decreases |ms|
  {
    if k == |ms| {
      assert ms[..k] == ms;
    } else {
      var front := ms[..|ms| - 1];
      assert front[..k] == ms[..k];
      MapOrRaisePrefixFailure(front, k, system, f);
      var done := WithRole(front, system);
      var last := ms[|ms| - 1];
      if IsSystem(last) == system {
        assert WithRole(ms, system) == done + [last];
        assert (done + [last])[..|done|] == done;
      } else {
        assert WithRole(ms, system) == done + [];
        assert done + [] == done;
      }
    }
  }

  /** The encoded message as a Python dict, or the encoder's exception. */
  function EncodeMessageValue(m: Message): Result<Value, Error>
  {
    match EncodeMessage(m)
    case Failure(e) => Failure(e)
    case Success(d) => Success(Dict(d))
  }

  /** The encodings of `ms` in order, or the first exception raised. */
  function EncodeMessages(ms: seq<Message>): Result<seq<Value>, Error>
  {
    MapOrRaise(ms, EncodeMessageValue)
  }

  /** `{"text": message.content[0].text}` for a system message. */
  function SystemEntry(m: Message): Result<Value, Error>
  {
    if m.content == [] then Failure(IndexError)
    else Success(Dict(map["text" := OptStr(m.content[0].text)]))
  }

  /** The system entries of `ms` in order, or the first exception raised. */
  function SystemEntries(ms: seq<Message>): Result<seq<Value>, Error>
  {
    MapOrRaise(ms, SystemEntry)
  }

  /** The system prompts are collected iff every system message has a first
      block; otherwise `IndexError` is raised. */
  lemma SystemEntriesRaise(ms: seq<Message>)
    ensures SystemEntries(ms).Success? <==> forall i :: 0 <= i < |ms| ==> ms[i].content != []
    ensures SystemEntries(ms).Failure? ==> SystemEntries(ms).error == IndexError
  {
    MapOrRaiseElementwise(ms, SystemEntry);
    MapOrRaiseFirstFailure(ms, SystemEntry);
  }

  /** The tools descriptor the source builds for one tool. */
  function ToolDescriptor(t: Tool): Value
  {
    Dict(map[
      "type" := Str("function"),
      "function" := Dict(map[
        "name" := Str(t.name),
        "description" := OptStr(t.doc),
        "parameters" := t.paramsSchema])])
  }

  function ToolDescriptors(tools: seq<Tool>): (r: seq<Value>)
  {
    seq(|tools|, i requires 0 <= i < |tools| => ToolDescriptor(tools[i]))
  }

  /** The models for which the source tries to forbid system prompts. */
  predicate IsO1(model: string)
  {
    model == "o1-preview" || model == "o1-mini"
  }

  /** The keys removed from the caller's parameters. */
  const StrippedKeys: set<string> := {"n", "stream", "stream_options"}

  /** `api_params.get("n", 1)` */
  function ActualN(apiParams: map<string, Value>): Value
  {
    if "n" in apiParams then apiParams["n"] else Int(1)
  }

  /** `final_call_params.get("response_format")` is truthy. */
  predicate WantsResponseFormat(params: map<string, Value>)
  {
    "response_format" in params && Truthy(params["response_format"])
  }

  /** The parameters after the system prompts, model id and messages are set
      and the stripped keys are removed, before any branch. */
  function BaseParams(model: string, apiParams: map<string, Value>, system: seq<Value>, converse: seq<Value>)
    : (r: map<string, Value>)
    ensures r.Keys == (apiParams.Keys - StrippedKeys) + {"system", "modelId", "messages"}
    ensures r["system"] == List(system) && r["modelId"] == Str(model) && r["messages"] == List(converse)
    ensures forall k :: k in apiParams && k !in StrippedKeys && k !in {"system", "modelId", "messages"} ==> r[k] == apiParams[k]
  {
    apiParams["system" := List(system)]["modelId" := Str(model)]["messages" := List(converse)] - StrippedKeys
  }

  /** The branch that adds `tool_choice` and `tools` is taken. */
  predicate AddsTools(model: string, apiParams: map<string, Value>, tools: seq<Tool>)
  {
    !IsO1(model) && !WantsResponseFormat(apiParams) && tools != []
  }

  /** The branch on the model and on `response_format` (lines 115-147),
      applied to the cleaned-up parameters. */
  function BranchParams(model: string, params: map<string, Value>, tools: seq<Tool>)
    : Result<map<string, Value>, Error>
  {
    if IsO1(model) then
      Failure(AttributeError("system"))
    else if WantsResponseFormat(params) then
      Success(params - {"stream", "stream_options"})
    else if tools != [] then
      Success(params["tool_choice" := Str("auto")]["tools" := List(ToolDescriptors(tools))] - {"stream", "stream_options"})
    else
      Success(params)
  }

  /** On parameters without the streaming keys the pops of lines 126-127
      and 145-146 change nothing: the branch only adds the tools directive. */
  lemma BranchOnCleanedParams(model: string, params: map<string, Value>, tools: seq<Tool>)
    requires !IsO1(model) && "stream" !in params && "stream_options" !in params
    ensures BranchParams(model, params, tools) ==
      Success(if !WantsResponseFormat(params) && tools != []
              then params["tool_choice" := Str("auto")]["tools" := List(ToolDescriptors(tools))]
              else params)
  {
    assert params - {"stream", "stream_options"} == params;
    var extended := params["tool_choice" := Str("auto")]["tools" := List(ToolDescriptors(tools))];
    assert extended - {"stream", "stream_options"} == extended;
  }

  /** The call result `call_model` returns for a given provider response, or
      the exception it raises before or instead of calling the client. */
  function BuildCall(model: string, messages: seq<Message>, apiParams: map<string, Value>,
                     tools: seq<Tool>, response: Value): (r: Result<APICallResult, Error>)
    ensures r.Success? ==> !r.value.actualStreaming && r.value.response == response
  {
    match EncodeMessages(NonSystem(messages))
    case Failure(e) => Failure(e)
    case Success(converse) =>
      match SystemEntries(SystemOnly(messages))
      case Failure(e) => Failure(e)
      case Success(system) =>
        match BranchParams(model, BaseParams(model, apiParams, system, converse), tools)
        case Failure(e) => Failure(e)
        case Success(params) => Success(APICallResult(response, false, ActualN(apiParams), params))
  }

  /** Popping the stripped keys one at a time removes them all. */
  lemma StepwiseRemoval(m: map<string, Value>)
    ensures m - {"n"} - {"stream"} - {"stream_options"} == m - StrippedKeys
  {
  }

  /** The comprehension of lines 98-102: encode each non-system message, in
      order, raising the first exception an encoding raises. */
  method ConvertNonSystemMessages(messages: seq<Message>) returns (r: Result<seq<Value>, Error>)
    ensures r == EncodeMessages(NonSystem(messages))
  {
    var converseMessages: seq<Value> := [];
    ghost var selected: seq<Message> := [];
    var i := 0;
    while i < |messages|
      invariant 0 <= i <= |messages|
      invariant selected == WithRole(messages[..i], false)
      invariant MapOrRaise(selected, EncodeMessageValue) == Success(converseMessages)
    {
      var m := messages[i];
      WithRoleStep(messages, i, false);
      if !IsSystem(m) {
        var encoded := MessageToBedrockFormat(m);
        MapOrRaiseSnoc(selected, m, EncodeMessageValue);
        if encoded.Failure? {
          MapOrRaisePrefixFailure(messages, i + 1, false, EncodeMessageValue);
          return Failure(encoded.error);
        }
        converseMessages := converseMessages + [Dict(encoded.value)];
        selected := selected + [m];
      }
      i := i + 1;
    }
    assert messages[..i] == messages;
    return Success(converseMessages);
  }

  /** The comprehension of lines 103-107: `{"text": content[0].text}` for each
      system message, in order. */
  method SystemPrompts(messages: seq<Message>) returns (r: Result<seq<Value>, Error>)
    ensures r == SystemEntries(SystemOnly(messages))
  {
    var system: seq<Value> := [];
    ghost var selected: seq<Message> := [];
    var i := 0;
    while i < |messages|
      invariant 0 <= i <= |messages|
      invariant selected == WithRole(messages[..i], true)
      invariant MapOrRaise(selected, SystemEntry) == Success(system)
    {
      var m := messages[i];
      WithRoleStep(messages, i, true);
      if IsSystem(m) {
        MapOrRaiseSnoc(selected, m, SystemEntry);
        if m.content == [] {
          MapOrRaisePrefixFailure(messages, i + 1, true, SystemEntry);
          return Failure(IndexError);
        }
        system := system + [Dict(map["text" := OptStr(m.content[0].text)])];
        selected := selected + [m];
      }
      i := i + 1;
    }
    assert messages[..i] == messages;
    return Success(system);
  }

  /** The comprehension of lines 133-143: one descriptor per tool, in order. */
  method BuildToolDescriptors(tools: seq<Tool>) returns (descriptors: seq<Value>)
    ensures |descriptors| == |tools|
    ensures forall k :: 0 <= k < |tools| ==> descriptors[k] == ToolDescriptor(tools[k])
  {
    descriptors := [];
    var k := 0;
    while k < |tools|
      invariant 0 <= k <= |tools|
      invariant |descriptors| == k
      invariant forall j :: 0 <= j < k ==> descriptors[j] == ToolDescriptor(tools[j])
    {
      descriptors := descriptors + [ToolDescriptor(tools[k])];
      k := k + 1;
    }
  }

  /** Lines 115-147 without the client calls: the o1 models fail reading
      `.system` off the converted message list, a truthy `response_format`
      leaves the parameters as they are, and otherwise a non-empty tool
      list adds the tools directive. */
  method TakeBranch(model: string, params: map<string, Value>, tools: seq<Tool>)
    returns (r: Result<map<string, Value>, Error>)
    ensures r == BranchParams(model, params, tools)
  {
    var finalCallParams := params;
    if IsO1(model) {
      // `converse_messages.system`: a list has no attribute `system`
      return Failure(AttributeError("system"));
    } else if "response_format" in finalCallParams && Truthy(finalCallParams["response_format"]) {
      finalCallParams := finalCallParams - {"stream"};
      finalCallParams := finalCallParams - {"stream_options"};
      assert finalCallParams == params - {"stream", "stream_options"};
    } else {
      if tools != [] {
        finalCallParams := finalCallParams["tool_choice" := Str("auto")];
        var descriptors := BuildToolDescriptors(tools);
        assert descriptors == ToolDescriptors(tools);
        finalCallParams := finalCallParams["tools" := List(descriptors)];
        finalCallParams := finalCallParams - {"stream"};
        finalCallParams := finalCallParams - {"stream_options"};
        assert finalCallParams == params["tool_choice" := Str("auto")]["tools" := List(ToolDescriptors(tools))] - {"stream", "stream_options"};
      }
    }
    return Success(finalCallParams);
  }

  /** `call_model` as the source runs it, up to the client call: copy the
      parameters, then update the copy step by step. */
  method CallModel(model: string, messages: seq<Message>, apiParams: map<string, Value>,
                   tools: seq<Tool>, response: Value) returns (r: Result<APICallResult, Error>)
    ensures r == BuildCall(model, messages, apiParams, tools, response)
  {
    var finalCallParams := apiParams;
    var converseMessages :- ConvertNonSystemMessages(messages);
    var system :- SystemPrompts(messages);
    finalCallParams := finalCallParams["system" := List(system)];
    var actualN := if "n" in apiParams then apiParams["n"] else Int(1);
    finalCallParams := finalCallParams["modelId" := Str(model)];
    finalCallParams := finalCallParams["messages" := List(converseMessages)];
    finalCallParams := finalCallParams - {"n"};
    finalCallParams := finalCallParams - {"stream"};
    finalCallParams := finalCallParams - {"stream_options"};
    StepwiseRemoval(apiParams["system" := List(system)]["modelId" := Str(model)]["messages" := List(converseMessages)]);
    assert finalCallParams == BaseParams(model, apiParams, system, converseMessages);
    assert EncodeMessages(NonSystem(messages)) == Success(converseMessages);
    assert SystemEntries(SystemOnly(messages)) == Success(system);

    finalCallParams :- TakeBranch(model, finalCallParams, tools);
    return Success(APICallResult(response, false, actualN, finalCallParams));
  }

  /** A successful call's parameters are the base parameters, extended with
      the tools directive exactly when the tools branch is taken. */
  lemma BuildCallParams(model: string, messages: seq<Message>, apiParams: map<string, Value>,
                        tools: seq<Tool>, response: Value)
    requires BuildCall(model, messages, apiParams, tools, response).Success?
    ensures EncodeMessages(NonSystem(messages)).Success?
    ensures SystemEntries(SystemOnly(messages)).Success?
    ensures var base := BaseParams(model, apiParams, SystemEntries(SystemOnly(messages)).value,
                                   EncodeMessages(NonSystem(messages)).value);
      BuildCall(model, messages, apiParams, tools, response).value.finalCallParams ==
        if AddsTools(model, apiParams, tools)
        then base["tool_choice" := Str("auto")]["tools" := List(ToolDescriptors(tools))]
        else base
  {
    var base := BaseParams(model, apiParams, SystemEntries(SystemOnly(messages)).value,
                           EncodeMessages(NonSystem(messages)).value);
    assert WantsResponseFormat(base) == WantsResponseFormat(apiParams);
    BranchOnCleanedParams(model, base, tools);
  }

  /** Message split: `messages` holds the encodings of exactly the
      non-system messages and `system` one text entry per system message,
      each in order; the two counts sum to the number of messages. */
  lemma BuildCallSplitsMessages(model: string, messages: seq<Message>, apiParams: map<string, Value>,
                                tools: seq<Tool>, response: Value)
    requires BuildCall(model, messages, apiParams, tools, response).Success?
    ensures var p := BuildCall(model, messages, apiParams, tools, response).value.finalCallParams;
      && "messages" in p && p["messages"].List?
      && "system" in p && p["system"].List?
      && |p["messages"].items| + |p["system"].items| == |messages|
      && |p["messages"].items| == |NonSystem(messages)|
      && (forall i :: 0 <= i < |NonSystem(messages)| ==>
            EncodeMessage(NonSystem(messages)[i]).Success? &&
            p["messages"].items[i] == Dict(EncodeMessage(NonSystem(messages)[i]).value))
      && (forall i :: 0 <= i < |SystemOnly(messages)| ==>
            SystemOnly(messages)[i].content != [] &&
            p["system"].items[i] == Dict(map["text" := OptStr(SystemOnly(messages)[i].content[0].text)]))
  {
    BuildCallParams(model, messages, apiParams, tools, response);
    SplitCounts(messages);
    MapOrRaiseElementwise(NonSystem(messages), EncodeMessageValue);
    MapOrRaiseElementwise(SystemOnly(messages), SystemEntry);
    var p := BuildCall(model, messages, apiParams, tools, response).value.finalCallParams;
    assert p["messages"] == List(EncodeMessages(NonSystem(messages)).value);
    assert p["system"] == List(SystemEntries(SystemOnly(messages)).value);
  }

  /** Parameter cleanup: `n`, `stream` and `stream_options` are gone,
      `modelId` is the model, `actual_n` is the caller's `n` or 1, and every
      other key of the caller's parameters keeps its value. */
  lemma BuildCallCleansParams(model: string, messages: seq<Message>, apiParams: map<string, Value>,
                              tools: seq<Tool>, response: Value)
    requires BuildCall(model, messages, apiParams, tools, response).Success?
    ensures var c := BuildCall(model, messages, apiParams, tools, response).value;
      var added := {"system", "modelId", "messages"} + (if AddsTools(model, apiParams, tools) then {"tool_choice", "tools"} else {});
      && c.finalCallParams.Keys == (apiParams.Keys - StrippedKeys) + added
      && c.finalCallParams["modelId"] == Str(model)
      && c.actualN == (if "n" in apiParams then apiParams["n"] else Int(1))
      && !c.actualStreaming
      && (forall k :: k in apiParams && k !in StrippedKeys && k !in added ==> c.finalCallParams[k] == apiParams[k])
  {
    BuildCallParams(model, messages, apiParams, tools, response);
  }

  /** Tools directive: when the tools branch is taken the parameters gain
      `tool_choice = "auto"` and one descriptor per tool, in order, naming
      it; otherwise `tool_choice` and `tools` are whatever the caller passed. */
  lemma BuildCallToolsDirective(model: string, messages: seq<Message>, apiParams: map<string, Value>,
                                tools: seq<Tool>, response: Value)
    requires BuildCall(model, messages, apiParams, tools, response).Success?
    ensures var p := BuildCall(model, messages, apiParams, tools, response).value.finalCallParams;
      AddsTools(model, apiParams, tools) ==>
        && p["tool_choice"] == Str("auto")
        && p["tools"].List? && |p["tools"].items| == |tools|
        && forall i :: 0 <= i < |tools| ==>
             p["tools"].items[i].Dict? && "function" in p["tools"].items[i].entries
             && p["tools"].items[i].entries["function"].Dict?
             && p["tools"].items[i].entries["function"].entries["name"] == Str(tools[i].name)
    ensures var p := BuildCall(model, messages, apiParams, tools, response).value.finalCallParams;
      !AddsTools(model, apiParams, tools) ==>
        && ("tool_choice" in p <==> "tool_choice" in apiParams)
        && ("tools" in p <==> "tools" in apiParams)
        && ("tools" in p ==> p["tools"] == apiParams["tools"])
  {
    BuildCallParams(model, messages, apiParams, tools, response);
  }

  /** For o1-preview and o1-mini the call never succeeds: once the messages
      are converted, reading `.system` off the converted list raises
      AttributeError, with or without system messages, before any client
      call. */
  lemma BuildCallO1AlwaysFails(model: string, messages: seq<Message>, apiParams: map<string, Value>,
                               tools: seq<Tool>, response: Value)
    requires IsO1(model)
    ensures BuildCall(model, messages, apiParams, tools, response).Failure?
    ensures EncodeMessages(NonSystem(messages)).Success? && SystemEntries(SystemOnly(messages)).Success? ==>
              BuildCall(model, messages, apiParams, tools, response).error == AttributeError("system")
  {
  }
}
