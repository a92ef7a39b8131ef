# A verified model of a tool-using chat agent and its API logger

This project models the core of a small agent framework for the Anthropic Messages API.

- A `Chat` object keeps a conversation history, a registry of tool functions and the JSON schemas it advertises for them.
- `Chat.__call__` sends the history to the model and records the reply.
- `toolloop` repeats a bounded number of rounds. Each round answers every `tool_use` request of the latest reply with an id-correlated `tool_result`, then asks the model again.
- `get_text` reads the text out of a reply.
- The project also models the pure parts of the API logger:
  - message serialisation;
  - the request counter;
  - masking of sensitive HTTP headers;
  - truncation of long non-JSON bodies;
  - the one-line history summary;
  - the success or error status of a tool execution.

## Modules

Each module is one file.

- `strings.dfy`:
  - `Wrappers`: the `Option` type.
  - `Strings`: the Python string built-ins the code relies on, namely `join`, one-character `split`, `str` of a natural number and ASCII `lower`. It also holds a subsequence predicate.
- `schema.dfy`, `ToolSchema`: `generate_tool_schema`, over a function's metadata (name, docstring, parameters in declaration order).
- `conversation.dfy`, `Conversation`:
  - content blocks, messages and replies;
  - `mk_toolres` and `get_text`;
  - the predicate saying that a message of tool results answers the requests of the message before it.
- `logger.dfy`, `ApiLogging`:
  - `_serialize_message`;
  - the `ApiLogger` class and its `request_count`;
  - header masking, body lines, the content summary and tool-execution status.
- `chat.dfy`, `Agent`:
  - tool registration and tool answering;
  - the specification of the tool loop (`Rounds`, `ToolLoopRun`) with its lemmas;
  - the `Chat` class, whose methods are proved against those functions.

The model service is an oracle `Llm`: a function from a request (model, token budget, history, advertised tools) to either a reply or a failure. A tool is a function from its arguments to a returned string or a raised message. `toolloop` is a method that returns the replies the generator would yield, together with the failure that ended it, if any.

## Model

| member | source | states |
|---|---|---|
| ToolSchema.GenerateToolSchema | chat.py:18-54 | the loop over the parameters builds exactly `SchemaOf(meta)`: the function's name, type "object", and at most one property per parameter |
| ToolSchema.Description | chat.py:48 | without a docstring the description is "Execute <name>"; otherwise it is the docstring's prefix up to, not including, the first line break |
| Strings.FirstLine | chat.py:48 | `split('\n')[0]` is a prefix of the string that holds no line break and is followed by one or by the end |
| ToolSchema.PropertiesAreStrings | chat.py:34-41 | every advertised property has type "string" and is not named `self` |
| ToolSchema.PropertiesInDeclarationOrder | chat.py:34-41 | the property names occur in the parameters' declaration order |
| ToolSchema.PropertiesExact | chat.py:34-41 | a name is a property iff it is a parameter other than `self` |
| ToolSchema.RequiredExact | chat.py:43-44 | a name is required iff a parameter other than `self` has that name and no default |
| ToolSchema.RequiredInPropertyOrder | chat.py:31-44 | `required` is a subsequence of the property names |
| ToolSchema.SchemaOfFunction | chat.py:46-53 | a schema carries the function's name, type "object", exactly the non-`self` parameters as properties, exactly the required ones in `required`, in property order |
| Conversation.MkToolRes | chat.py:57-63 | the result block is a `tool_result` whose `tool_use_id` is exactly the request id and whose content is the given string |
| Conversation.ToolUses | chat.py:167 | the requests collected from a reply are all `tool_use` blocks, and no more numerous than its blocks |
| Conversation.ToolUsesExact | chat.py:167 | the requests are a subsequence of the reply's blocks, and every `tool_use` block of the reply appears among them at the position given by the requests before it |
| Conversation.NoToolUses | chat.py:167-169 | a reply yields no requests iff none of its blocks is a `tool_use` block |
| Conversation.GetTextWithoutText | chat.py:234-237 | a reply with no text block reads as "" |
| Conversation.GetTextSkipsToolUse | chat.py:234-237 | text, a tool request, then text read as the two texts joined by one line break |
| Conversation.GetText | chat.py:234-237 | no text block reads as ""; a single text block reads as its text; with more, the result starts with the first text followed by a line break |
| Conversation.TextsExact | chat.py:236 | the texts `get_text` joins are exactly the text blocks' texts in block order: each block adds its text and only a text block adds one, at the position given by the texts before it |
| Conversation.TextsAppend | chat.py:236 | the texts of a concatenation are the texts of its parts, in order |
| Conversation.GetTextRecoversTexts | chat.py:234-237 | when some block is text and no text holds a line break, splitting `get_text` at line breaks gives back the texts in block order |
| Agent.Advertised | chat.py:124 | the request omits tools iff no schema is registered, and otherwise carries the schema list itself |
| Agent.SchemasPerRegistration | chat.py:100-104 | there is one schema per registration, duplicates included, in registration order |
| Agent.RegistryNames | chat.py:103 | a name is in the tool map iff some registered function has it, and the tool stored under a name has that name |
| Agent.RegistryLastWins | chat.py:103 | the last function registered under a name is the one stored |
| Agent.DuplicateNameAdvertisedTwice | chat.py:100-104 | two functions of one name leave one tool, the later one, but two schemas |
| Agent.Chat.constructor | chat.py:71-98 | empty history; the given tools registered in order; a fresh logger with count 0 exactly when logging is enabled |
| Agent.Chat.RegisterTool | chat.py:100-104 | the tool map gains or overwrites the name; the schema list gains that function's schema at its end; the history is unchanged |
| Agent.Chat.Call | chat.py:106-144 | the request is the old history plus the user text, with budget `max_tokens` or 4096 and tools iff registered; the history grows by the user message, then by the reply iff there is one; the logger counts one request |
| Agent.Answer | chat.py:173-198 | the result answers the request's id; an unregistered name gives "Error: Unknown tool <name>"; a tool that returns is answered with its output, and one that raises with "Error: " followed by its message |
| Agent.AnswerAll | chat.py:172-198 | one result per request, the k-th answering the k-th request |
| Agent.Chat.ExecuteToolCalls | chat.py:172-198 | the round's results are `AnswerAll` of the requests (one per request, in order, same ids); the k-th execution record is the k-th request's |
| Agent.RoundAnswersReply | chat.py:167-198 | the results of a round answer the reply's requests: as many, in order, with matching ids |
| Agent.ExecutionLog | chat.py:183-198 | the record names the requested tool; its status is error iff the tool is unknown or raised; its detail is "Unknown tool", the raised message, or the returned output |
| Agent.SilentRaiseLoggedAsSuccessAsWritten | logger.py:319 | a tool that raises with an empty message is recorded as an error by the model, but logger.py's own rule reports success |
| Agent.Rounds | chat.py:161-232 | the rounds keep the replies and the history so far as prefixes and add at most one reply per step |
| Agent.ToolLoopRun | chat.py:158-232 | at most `max_steps + 1` replies (none past the budget for a negative `max_steps`); the history starts with the old one plus the user text |
| Agent.RoundsShape | chat.py:161-232 | at most one new reply per round, earlier replies kept; the history grows by a result message and a reply per round (plus a result message on failure), old entries unchanged, each reply right after its results |
| Agent.RoundsStopForAReason | chat.py:161-169 | the rounds end before the budget is spent, without failure, only when the latest reply makes the continuation predicate false or asks for no tool |
| Agent.RoundsContinueUntilHalt | chat.py:161-230 | every reply followed by another model call made the continuation predicate true and asked for a tool; a failure is the model's answer to the request for the final history |
| Agent.RoundsAnswered | chat.py:172-204 | every reply of the rounds that has a successor is answered by it: one result per request, in order, with matching ids |
| Agent.ToolLoopProperties | chat.py:146-232 | at most `max_steps + 1` replies; at least one unless the model fails; the first is the reply to the user text; the history starts with the old one plus the user text and only grows; every reply followed by another message is answered by it; every reply but the last (and the last too when the model failed) continued the loop; the loop stops early without failure only because the last reply halts it; a failure is the model's answer to the final history |
| Agent.ToolLoopZeroSteps | chat.py:158-161 | with `max_steps <= 0` the loop yields exactly the first reply and executes no tool |
| Agent.ToolLoopNeverContinue | chat.py:163-164 | a continuation predicate that is always false leaves exactly the first reply, whatever `max_steps` |
| Agent.BudgetCanLeaveRequestsUnanswered | chat.py:158-161 | with `max_steps <= 0` and a first reply asking for a tool, the loop ends without failure with that request unanswered |
| Agent.ToolLoopNoToolCalls | chat.py:167-169 | a first reply with no `tool_use` block ends the loop after that reply |
| Agent.Chat.Round | chat.py:172-230 | one round appends the results of the reply's requests, sends the history with budget 4096 and tools iff registered, appends the new reply iff there is one; the logger counts one request |
| Agent.Chat.ToolLoop | chat.py:146-232 | the replies, the failure and the new history are exactly those of `ToolLoopRun` on the old state; the logger counts one request per model call |
| Agent.ChatMessageLoggedInFull | logger.py:144-169 | a block message of the chat is serialised with its role, one entry per block, in order, each keeping its text, or its id, name and input, or its `tool_use_id` and content |
| ApiLogging.SerializeItem | logger.py:146-169 | an element is dropped iff it is a typed block of an unknown type, and gives at most one entry; text, `tool_use`, dict and plain elements keep their fields or `str`; a `tool_result` without `tool_use_id` gets "unknown", and without content its `str` |
| ApiLogging.SerializeMessage | logger.py:134-174 | the loop builds exactly `Serialize(msg)` |
| ApiLogging.SerializeItemsLength | logger.py:144-169 | a serialised list is never longer than the input, and is as long iff no block type is unknown |
| ApiLogging.SerializeItemsInOrder | logger.py:144-169 | without unknown block types the k-th output is the k-th input, serialised |
| ApiLogging.SerializeItemsAppend | logger.py:144-169 | serialising a concatenation is concatenating the serialisations: every element keeps its place |
| ApiLogging.UnknownBlockDropped | logger.py:146-169 | a block of an unknown type is dropped and the elements on either side are serialised as if it were absent |
| ApiLogging.SerializeKeepsRoleAndText | logger.py:136-143 | a non-dict gives `{"error": "Not a dict", "value": …}`; a dict keeps its role, keeps string content verbatim, and never lengthens list content |
| ApiLogging.ApiLogger.constructor | logger.py:115 | the request count starts at 0 |
| ApiLogging.ApiLogger.LogApiRequest | logger.py:186-195 | the count rises by exactly one; the metadata carries the new count, the model, `max_tokens` or 4096, the number of messages and of tools (0 when absent); every message is serialised, in order |
| ApiLogging.ApiLogger.LogApiResponse | logger.py:244 | reports the current count, the stop reason and the block count, and changes nothing |
| ApiLogging.MaskRevealsAtMostLastFour | logger.py:418-422 | a sensitive value's log line depends only on its last four characters when longer than four, and not at all otherwise |
| ApiLogging.MaskHeaderValue | logger.py:420-421 | a non-sensitive value is unchanged; a sensitive one longer than four characters becomes eight stars, "..." and its last four characters, otherwise "***" |
| ApiLogging.MaskOnlySensitive | logger.py:420 | other headers pass through unchanged; header names are compared without regard to case |
| ApiLogging.HeaderLines | logger.py:418-422 | one line per header, in order, with the value masked iff masking is asked for and the header is sensitive |
| ApiLogging.Indented | logger.py:438-440 | every line gets the three-space indent, in order |
| ApiLogging.BodyLines | logger.py:425-443 | the loop builds exactly `BodySection`: "(empty)" for no body, the JSON lines, the truncated form over 5000 characters, or the body's lines |
| ApiLogging.ShortBodyLoggedInFull | logger.py:438-440 | a non-JSON body of at most 5000 characters is recovered by stripping the indent and joining the lines |
| ApiLogging.LongBodyTruncated | logger.py:435-437 | a longer non-JSON body is logged as its first 5000 characters plus "..." and a line "... (truncated, total <length> bytes)", so nothing after those characters shows |
| ApiLogging.ContentSummary | logger.py:377-385 | no content gives ""; a list gives "<n> content blocks"; a string is kept up to 100 characters and never exceeds 103; any other value gives a prefix of its `str` of at most 100 characters |
| ApiLogging.SummaryTruncates | logger.py:380-385 | string content is summarised unchanged up to 100 characters, otherwise as its first 100 characters plus "..." |
| ApiLogging.ExecutionStatusAsWritten | logger.py:319-326 | as written, the status is ERROR iff an error string is supplied and is non-empty |
| ApiLogging.EmptyErrorLoggedAsSuccess | logger.py:319 | as written, an error message that is empty yields status SUCCESS/success |
| ApiLogging.ExecutionStatus | logger.py:319-326 | the status is ERROR/error iff an error is supplied, and SUCCESS/success otherwise |
| ApiLogging.ToolExecutionEntry | logger.py:308-326 | the record names the tool, is an error iff an error is supplied, and carries the error or else the output |

## Findings

| source | as written | input that shows it | evidently intended | confidence | as-written member | corrected member |
|---|---|---|---|---|---|---|
| logger.py:319 | the status is "ERROR" only when the error string is non-empty (Python truthiness), and the same at line 326 | a tool that raises `Exception()`: chat.py:191 passes `error=""`, and the failure is logged as SUCCESS | ERROR whenever an error is supplied | medium, not executed | ApiLogging.EmptyErrorLoggedAsSuccess | ApiLogging.ExecutionStatus |

`Agent.ExecutionLog` and `ApiLogging.ToolExecutionEntry` use the corrected status.

## Left out

- The Anthropic client and the network are not modelled. The model service is a function parameter, so it is deterministic in the request. Since the history grows with every request, two requests of one loop never coincide.
- Python reflection (`inspect.signature`, `inspect.getdoc`) is replaced by metadata: a name, the cleaned docstring (empty when absent) and the parameters with or without a default. Parameter names are distinct, as in any Python signature. Type annotations are ignored, as in the source.
- Tool invocation `self.tools[name](**input)` and `str(result)` are not modelled: a tool is an abstract function to a returned string or a raised message.
  - An argument-binding error is one of the raised messages.
  - Only `Exception` is caught in the source. A `BaseException` that escapes a tool is not modelled.
  - Tool inputs are maps from strings to strings; arbitrary JSON values are not modelled.
- Agent.Chat.ToolLoop: the generator is run to completion.
  - A caller that stops iterating early is not modelled.
  - A model failure is returned as `failure`, with the replies yielded before it, rather than raised.
  - What the caller does between two yields is not modelled. The source reads `self.tools`, `self.tool_schemas` and `self.h` afresh in every round (chat.py:177, 201, 211, 220), so a caller that registers a tool or calls the chat while iterating changes later rounds. The model fixes the tools, the schemas and the history at entry.
  - Tools are pure functions of their arguments. A stateful tool, or a tool that changes the chat it belongs to, is not covered.
  - A stop by `max_steps` or by `cont_func` can leave the last reply's `tool_use` requests unanswered in the history (`Agent.BudgetCanLeaveRequestsUnanswered`); the model keeps that behaviour as written.
- The HTTP-level logging transport (`enable_http_logging`, `create_logging_client`) and `load_dotenv` are environment wiring and are not part of this model.
- Emitting log records is not modelled: handlers, files, console output, separators and headers of the log text. Timestamps, elapsed times, `_format_json` and `log_summary` are left out as well.
  - The tool-execution records are computed by `ExecuteToolCalls` but not written anywhere.
  - The model keeps `log_api_request`'s count and metadata, and the serialised history.
- JSON parsing of HTTP bodies is not modelled: `BodySection` takes the pretty-printed JSON as a parameter, absent when the body does not parse.
- Strings.ToLower lowercases ASCII letters only; Python's `str.lower` is Unicode-aware. A header name that is sensitive only under Unicode case folding is not covered.
- Response headers are logged unmasked in the source (logger.py:478-480); `HeaderLines` with `masked` false models that as written.
- Default arguments are not modelled: every caller passes them explicitly. These are `toolloop`'s `max_steps=10` (chat.py:146) and `Chat`'s `model="claude-sonnet-4-5-20250929"` and `enable_logging=True` (chat.py:71).
- `**kwargs` of `__call__` other than `max_tokens` are not modelled. The source forwards them only to the logger.
- ApiLogging.ContentSummary models only the summary text of one entry; the role fallback "unknown" and the line numbering of `log_conversation_state` are left out.
