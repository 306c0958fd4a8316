# Bedrock Converse adapter — a Dafny model

This project models the Amazon Bedrock Converse provider of the `ell`
language-model framework (`src/ell/providers/bedrock.py`). The provider
translates the framework's canonical messages into a Converse request and
translates the Converse response back. The model has four parts:

- **Content-block converter** (`BedrockContent.ConvertContentBlock`). It turns
  an image, text or parsed block into a Converse content entry. It gives None
  when no branch applies.
- **Message encoder** (`BedrockContent.MessageToBedrockFormat`, specified by
  `EncodeMessage`). It copies the role and converts the blocks. Tool calls
  null the content; tool results append one entry.
- **Request assembly** (`BedrockRequest.CallModel`, specified by `BuildCall`).
  It moves system messages into `system` and encodes the other messages. It
  reads and removes `n`, strips the streaming keys, sets `modelId` and, on the
  plain path, adds the tools directive.
- **Response decoding** (`BedrockResponse.ProcessResponse`, specified by
  `DecodeChunks`). It reads the usage counts, with 0 for a missing count. It
  builds one canonical message per response chunk.

Python values are `PyValues.Value`: None, bool, int, str, bytes, list, and
dict with string keys. Each exception the code can raise becomes a `Failure`
of a `Result`, in the order Python raises them. Each imperative Python
function is a `method` whose loops mirror its comprehensions. Its `ensures`
ties the result to a specification function, and lemmas state the
properties of that function.

Some behaviours of the code are easy to miss on a first reading; the model
keeps each of them:

- A message with tool calls is sent with `content` set to null. Lines 50-63
  build the tool-use entries and extend the content with them, so a
  serialisation `TypeError` still escapes (re-raised at line 68). Lines 69-71
  then overwrite the content with None, so the entries are never sent.
- A message with both tool calls and tool results fails with
  `AttributeError`, because `append` is called on None (line 74).
- The tool-result entry reads `result[0]` before the length assertion runs.
  So an empty result raises `IndexError`, not the assertion error
  (lines 73-85).
- For `o1-preview` and `o1-mini`, the assertion at lines 117-119 reads
  `.system` off a list. So, with assertions enabled, these models always
  fail before the client is called, whether or not there are system messages.

## Model

| member | source | states |
|---|---|---|
| `BedrockContent.ConvertContentBlock` | src/ell/providers/bedrock.py:20-34 | An entry is produced exactly when the block has an image, a non-empty text or a parsed value. The entry is a one-key dict whose key is "image" exactly when the block has an image. Image wins over text, which wins over parsed; text entries carry the text or the parsed value's JSON. |
| `BedrockContent.ConvertBlocks` | src/ell/providers/bedrock.py:40-48 | The filtered list never has more entries than there are blocks. |
| `BedrockContent.ConvertBlocksAppend` | src/ell/providers/bedrock.py:40-48 | Converting a concatenation is the concatenation of the conversions, so block order is preserved. |
| `BedrockContent.ConvertBlocksSingle` | src/ell/providers/bedrock.py:40-48 | A single block contributes its entry when convertible and nothing otherwise (the `filter(None, ...)` step). |
| `BedrockContent.ConvertBlocksAllConvertible` | src/ell/providers/bedrock.py:40-48 | When every block is convertible there is exactly one entry per block, the i-th being the i-th block's conversion. |
| `BedrockContent.ConvertibleAtSnoc` | src/ell/providers/bedrock.py:40-48 | One more block adds one convertible position exactly when that block is an image, a non-empty text or a parsed value. |
| `BedrockContent.ConvertBlocksCount` | src/ell/providers/bedrock.py:40-48 | For any list of blocks, the content list has exactly as many entries as there are blocks that are an image, a non-empty text or a parsed value. |
| `BedrockContent.ConvertBlocksNoneConvertible` | src/ell/providers/bedrock.py:40-48 | When no block is convertible the content list is empty. |
| `BedrockContent.ToolUseEntries` | src/ell/providers/bedrock.py:52-63 | Tool-use entries exist exactly when every call's parameters serialise; then there is one per call, in order. |
| `BedrockContent.MessageToBedrockFormat` | src/ell/providers/bedrock.py:36-86 | The in-place construction of the Converse message (build, extend, null, append, assert) yields exactly `EncodeMessage`'s result or exception. |
| `BedrockContent.EncodeMessageRole` | src/ell/providers/bedrock.py:38-39 | A successful encoding has exactly the keys role and content, and the role is copied verbatim. |
| `BedrockContent.EncodePlainMessage` | src/ell/providers/bedrock.py:38-49 | Without tool calls or results encoding never fails, and the content is the converted blocks in order. With every block convertible, there are as many entries as blocks. |
| `BedrockContent.EncodeToolCallsMessage` | src/ell/providers/bedrock.py:50-74 | With tool calls: an unserialisable parameter set raises `TypeError`. Otherwise the content is null, and tool results on the same message raise `AttributeError`. |
| `BedrockContent.EncodeToolResultMessage` | src/ell/providers/bedrock.py:73-85 | With tool results and no tool calls, encoding succeeds iff the first result has exactly one block and that block's type is "text". Then exactly one entry `{content: {text}, toolUseId}` follows the converted blocks. An empty result raises `IndexError`; more than one block raises the assertion error. |
| `BedrockRequest.SplitCounts` | src/ell/providers/bedrock.py:98-107 | Non-system and system messages together number as many as the input messages. |
| `BedrockRequest.WithRoleOnly` | src/ell/providers/bedrock.py:98-107 | The non-system list holds only non-system messages, and the system list only system messages. |
| `BedrockRequest.WithRoleAppend` | src/ell/providers/bedrock.py:98-107 | Both role filters distribute over concatenation, so each keeps the input order. |
| `BedrockRequest.WithRoleStep` | src/ell/providers/bedrock.py:98-107 | One more message extends the list of its own kind by itself and leaves the other list unchanged. |
| `BedrockRequest.MapOrRaise` | src/ell/providers/bedrock.py:98-107 | A list comprehension whose element expression may raise: a successful result has one entry per item. |
| `BedrockRequest.MapOrRaiseElementwise` | src/ell/providers/bedrock.py:98-107 | The comprehension succeeds iff the element expression succeeds on every item. Its i-th entry is then the i-th item's value. |
| `BedrockRequest.MapOrRaiseFirstFailure` | src/ell/providers/bedrock.py:98-107 | A failed comprehension raises the exception of the first item that fails; every earlier item succeeds. |
| `BedrockRequest.MapOrRaiseSnoc` | src/ell/providers/bedrock.py:98-107 | One more item appends its value, or raises its own exception. |
| `BedrockRequest.MapOrRaisePrefixFailure` | src/ell/providers/bedrock.py:98-107 | An exception raised among the first k messages of one kind is the exception of the whole comprehension; later messages are never reached. |
| `BedrockRequest.SystemEntriesRaise` | src/ell/providers/bedrock.py:103-107 | The system prompts are collected iff every system message has a first block. Otherwise the exception is `IndexError`. |
| `BedrockRequest.BaseParams` | src/ell/providers/bedrock.py:97-113 | The cleaned parameters have the caller's keys minus `n`, `stream` and `stream_options`, plus `system`, `modelId` and `messages` with their new values. Every other key keeps its value. |
| `BedrockRequest.StepwiseRemoval` | src/ell/providers/bedrock.py:111-113 | The three successive `pop`s remove exactly the stripped keys. |
| `BedrockRequest.BranchOnCleanedParams` | src/ell/providers/bedrock.py:115-147 | For a model other than o1, on parameters without the streaming keys, the branch succeeds. It adds `tool_choice: "auto"` and the tools list exactly when `response_format` is falsy and tools were given; otherwise the parameters are unchanged. |
| `BedrockRequest.BuildCall` | src/ell/providers/bedrock.py:88-154 | A successful call result is never streaming, and it carries the client's response. |
| `BedrockRequest.ConvertNonSystemMessages` | src/ell/providers/bedrock.py:98-102 | The loop over the messages gives exactly the encodings of the non-system messages or the first exception. |
| `BedrockRequest.SystemPrompts` | src/ell/providers/bedrock.py:103-107 | The loop over the messages gives exactly the system entries or `IndexError`. |
| `BedrockRequest.BuildToolDescriptors` | src/ell/providers/bedrock.py:133-143 | One descriptor per tool, in order, each `{type: "function", function: {name, description, parameters}}`. |
| `BedrockRequest.TakeBranch` | src/ell/providers/bedrock.py:115-147 | The step-by-step branch on model and `response_format` yields exactly `BranchParams`. |
| `BedrockRequest.CallModel` | src/ell/providers/bedrock.py:88-154 | Copying the parameters and updating the copy step by step yields exactly `BuildCall`'s result or exception. |
| `BedrockRequest.BuildCallParams` | src/ell/providers/bedrock.py:108-147 | A successful call's parameters are the cleaned parameters, plus the tools directive exactly when the tools branch is taken. |
| `BedrockRequest.BuildCallSplitsMessages` | src/ell/providers/bedrock.py:98-110 | `messages` holds the encodings of exactly the non-system messages and `system` one text entry per system message, each in order. Their lengths sum to the number of input messages. |
| `BedrockRequest.BuildCallCleansParams` | src/ell/providers/bedrock.py:97-113 | The final keys are the caller's keys minus `n`, `stream` and `stream_options`, plus `system`, `modelId` and `messages`, plus `tool_choice` and `tools` on the tools branch. `modelId` is the model and `actual_n` is the caller's `n` or 1. Every other key keeps its value, and the result is not streaming. |
| `BedrockRequest.BuildCallToolsDirective` | src/ell/providers/bedrock.py:125-145 | On the tools branch (not o1, no truthy `response_format`, non-empty tools), `tool_choice` is "auto" and `tools` holds one descriptor per tool, in order, naming it. Otherwise `tool_choice` and `tools` are exactly what the caller passed. |
| `BedrockRequest.BuildCallO1AlwaysFails` | src/ell/providers/bedrock.py:115-121 | For o1-preview and o1-mini the call never succeeds. Once the messages convert, it raises `AttributeError("system")`. |
| `BedrockResponse.ChunkUsage` | src/ell/providers/bedrock.py:176-182 | Usage is `{prompt_tokens, completion_tokens, total_tokens}`, read from `inputTokens`, `outputTokens` and `totalTokens`, each 0 when missing. A chunk without `usage` raises `KeyError`. |
| `BedrockResponse.ChunkMessageCopies` | src/ell/providers/bedrock.py:209-220 | A chunk decodes iff it is well formed. It then gives one message whose role is `output.message.role`, with one text block holding `output.message.content[0].text` and no tool calls. |
| `BedrockResponse.DecodeChunks` | src/ell/providers/bedrock.py:176-262 | A successful decoding has exactly one message per chunk. The metadata holds the usage of the last chunk, or is empty when there are no chunks. |
| `BedrockResponse.DecodeChunksElementwise` | src/ell/providers/bedrock.py:209-220 | Each decoded message is the decoding of the chunk at its position, so chunk order is kept. |
| `BedrockResponse.DecodeChunksFailurePrefix` | src/ell/providers/bedrock.py:176-262 | The first failing chunk's exception is the exception of the whole loop. |
| `BedrockResponse.ProcessResponse` | src/ell/providers/bedrock.py:156-262 | The loop over the one-element response list yields exactly `DecodeChunks` of that list. |
| `BedrockResponse.ProcessResponseSingle` | src/ell/providers/bedrock.py:169-182 | A call result decodes iff its usage block is a dict and the chunk is well formed. It then gives exactly one message copied from the response, together with its usage metadata. |
| `BedrockResponse.TextRoundTrip` | src/ell/providers/bedrock.py:28-32 | A response echoing a text entry built by the request encoder decodes to a message with the same text: the block's text, or its parsed value's JSON. |
| `BedrockResponse.UsageExample` | src/ell/providers/bedrock.py:176-220 | A reply with text "hi" and usage 5/7/12 decodes to one assistant message "hi" with usage `{prompt_tokens: 5, completion_tokens: 7, total_tokens: 12}`. |

## Left out

- The model registrar in `src/ell/models/bedrock.py` is not modelled. It builds a boto3 client, swallows any failure and writes into a global registry that is not part of this model.
- The three `client.converse(...)` network calls are not modelled. The response is an input to `CallModel`.
- Foreign library calls are carried as data on the inputs. `Image.pngBytes` is what PIL's PNG save produces and `ParsedValue.dumpedJson` is `model_dump_json()`. `ToolCall.paramsJson` is `json.dumps(params.model_dump())`, with None standing for a `TypeError`; other exceptions from `json.dumps` are not modelled. `Tool.paramsSchema` is `model_json_schema()`.
- `ell.types` is not part of this model. A message's `tool_calls` and `tool_results` and a block's `type` tag are taken as input fields rather than derived from the content blocks.
- `BedrockResponse.ProcessResponse` requires a non-streaming call result. The streaming branch (lines 186-208) cannot be reached, because every call result is built with `actual_streaming=False` (line 151, proved by `BuildCall`), and it refers to an undefined `choice_deltas`.
- The `if False:` tool-call reconstruction block (lines 222-250) is dead code.
- `print` calls, `supports_streaming`, `get_client_type` and the import-time `register_provider` are not modelled. Neither are the unused `logger` and `tools` arguments of `process_response`.
- The origin trace that `_lstr` attaches to the decoded text is not modelled.
- ChunkMessage: a non-string `text` or `role` in the response is reported as `TypeError`. The code would convert the text with `str()` and let the message validator reject the role. Bedrock always sends strings there.
- Dictionary key order is not represented. The caller's `api_params` is a value here, so the copy at line 97 has no aliasing to model, and the caller's dictionary trivially stays unchanged.
- `tools=None` and `tools=[]` are both falsy in the code; both are the empty sequence here.
- Python `assert` statements are taken to be enabled, so the code is assumed not to run under `python -O`. Under `-O` the checks at lines 80-85 and 117-119 disappear. The tool-result shape would then go unchecked. The o1 branch would call the client and would not fail with `AttributeError`. `BedrockContent.WithToolResults` and `BedrockRequest.BuildCallO1AlwaysFails` state the behaviour with assertions enabled.
- Exceptions carry their kind and the failing key or attribute, and assertion errors carry their message. Python's other message texts are not modelled.
