# Luna core, modelled in Dafny

Luna is a voice-and-text assistant. It sends a conversation to a model provider and reads the reply back as a stream, and it may offer local Python functions to the model as tools. This project models the logic at the centre of that loop:

- **Streaming tool-call accumulation** (`Completion`, `Response`, shared parts in `ToolCalls`). Two async generators read a provider stream: one reads Chat Completions chunks, the other Responses API events. Each forwards text fragments as they arrive. Each collects tool-call fragments into one slot per positional index, kept in a dict that preserves insertion order. When the provider ends a round of tool calls, the generator yields the completed calls as one batch and empties the dict. The request keyword arguments of both clients are modelled too.
- **Tool schema building** (`ToolSchema`). `build_tools` turns the parameter lists of Python functions into JSON-Schema-like tool descriptors. A parameter may have no annotation, which counts as `str`, a `type_map` key, or `list[T]` for any `T`: the item type is `T`'s JSON type when `T` is a `type_map` key and "string" otherwise. Any other annotation raises an error. Python reflection is replaced by the parameter values it would report.
- **Sentence-by-sentence voice output** (`Voice`, with whitespace stripping in `Text`). `VoiceOutput` echoes streamed text to the console and speaks each completed sentence. A chunk ending in `.`, `!`, `?` or a newline closes a sentence. `QuietVoiceOutput` speaks the same sentences and prints nothing. Speech synthesis is recorded as the list of messages handed to it. The console is recorded as a transcript of lines.
- **The agent** (`Agents`). An agent starts with the built-in clock tool and an empty history. `add_message` appends to the history. `chat` records a non-empty prompt as a user message, asks the provider for a reply to the whole history, and records and returns that reply. The provider call is a function parameter.

`Wrappers` holds `Option` and `Result`, and `Requests` holds the message and keyword-argument values that are sent to the provider.

Most streaming operations are written as methods with loops. Each method is proved equal to a specification function that folds over the prefix of the stream. The lemmas then state what that function promises.

## Model

| member | source | states |
|---|---|---|
| Completion.CompletionKwargs | agent/api/completion.py:9-17 | the request holds the default model and the messages; `tools` and `tool_choice` "auto" are present exactly when the tool list is non-empty |
| Completion.StreamingKwargs | agent/api/completion.py:30-38 | the request holds the given model, the messages and `stream` true; `tools` and `tool_choice` "auto" are present exactly when tools are given |
| Completion.Merge | agent/api/completion.py:50-72 | a fragment of a new index adds a slot at the end of the insertion order (type defaults to "function", name and arguments to ""); a fragment of a known index keeps its place, overwrites id and type only when truthy, and appends its name and arguments pieces; every other slot is untouched |
| Completion.MergeAll | agent/api/completion.py:50-72 | merging a list of fragments keeps the dict's keys and insertion order consistent |
| Completion.Step | agent/api/completion.py:45-78 | content (even "") is forwarded and wins over fragments; fragments are merged and nothing is yielded; a round end with pending slots yields them in insertion order and empties the dict; a round end with none yields nothing; any other chunk changes nothing |
| Completion.Run | agent/api/completion.py:42-78 | the dict stays consistent over the whole stream |
| Completion.AddFragment | agent/api/completion.py:51-72 | the in-place update of the dict for one fragment produces exactly the dict `Merge` specifies |
| Completion.AddFragments | agent/api/completion.py:50-72 | the inner loop over a chunk's fragments produces exactly the dict `MergeAll` specifies |
| Completion.StreamingCompletion | agent/api/completion.py:42-78 | the loop yields exactly what the chunk-by-chunk specification yields |
| Completion.MergeAllAppend | agent/api/completion.py:50-72 | merging two lists of fragments in turn equals merging their concatenation |
| Completion.MergeAllHas | agent/api/completion.py:54 | after merging, an index has a slot iff it had one before or some fragment carries it |
| Completion.MergeAllExisting | agent/api/completion.py:63-72 | an existing slot ends with the last truthy id and type sent (else its own), and its name and arguments extended by the in-order pieces for its index |
| Completion.MergeAllFresh | agent/api/completion.py:54-72 | a slot created while merging has the first fragment's id unless a later truthy id replaced it, the last truthy type or "function", and the concatenated name and arguments pieces |
| Completion.LaterFragment | agent/api/completion.py:63-72 | one more fragment keeps the assembled form of a slot that already exists |
| Completion.FirstFragment | agent/api/completion.py:54-62 | the first fragment of an index creates the slot in assembled form |
| Completion.MergeAllOrder | agent/api/completion.py:54-62 | the dict's order is the order in which indices were first seen, not numeric order |
| Completion.BatchContents | agent/api/completion.py:73-78 | entry k of a batch is the assembled call of the k-th index in first-seen order |
| Completion.BatchEmptyIff | agent/api/completion.py:75 | the dict is empty after a round iff the round carried no fragment |
| Completion.AccumulatorIsPending | agent/api/completion.py:42-78 | after any prefix of the stream the dict holds exactly the current round's fragments merged from empty, so rounds do not leak into each other |
| Completion.RoundEndYields | agent/api/completion.py:73-78 | a round end yields one batch of the pending fragments, or nothing when none are pending, and leaves the dict empty |
| Completion.BatchesNonEmpty | agent/api/completion.py:75-77 | no yielded batch is empty |
| Completion.SilentTailYieldsNothing | agent/api/completion.py:44-72 | chunks with no content that do not end a round yield nothing at all |
| Completion.UnfinishedRoundNotYielded | agent/api/completion.py:44-78 | as long as no chunk ends the round, the batches of tool calls yielded stay the same whatever text is forwarded, so the stream can end with calls left pending |
| Response.RequestKwargs | agent/api/response.py:6-31 | for an `input` that is a string or a message list, as its type allows, the request holds model, input and `stream` true, plus `tools` and `tool_choice` "auto" when tools are given; the caller's extra keyword arguments override what was set before them |
| Response.Merge | agent/api/response.py:46-62 | a new index gets a slot with its call id, its type or "function", and its name and arguments or ""; a known index only has its name and arguments extended, so id and type are never updated |
| Response.MergeAll | agent/api/response.py:46-62 | merging a list of fragments keeps the dict consistent |
| Response.Step | agent/api/response.py:38-71 | a text delta is yielded only when truthy; a tool-call part is merged; "tool_calls.completed" yields the pending batch and empties the dict; "completed" stops the stream; any other event changes nothing |
| Response.Run | agent/api/response.py:36-71 | the dict stays consistent over the whole stream |
| Response.AddFragment | agent/api/response.py:46-62 | the in-place update of the dict for one tool-call event produces exactly the dict `Merge` specifies |
| Response.StreamingResponse | agent/api/response.py:36-71 | the loop, with its `break`, yields exactly what the event-by-event specification yields |
| Response.StoppedStaysStopped | agent/api/response.py:70-71 | once stopped, later events change nothing |
| Response.StoppedIffCompleted | agent/api/response.py:70-71 | the stream has stopped iff a "completed" event has arrived |
| Response.CompletedEndsStream | agent/api/response.py:70-71 | everything after the first "completed" event is ignored |
| Response.MergeAllAppend | agent/api/response.py:46-62 | merging in turn equals merging the concatenation |
| Response.MergeAllHas | agent/api/response.py:49 | after merging, an index has a slot iff it had one or some fragment carries it |
| Response.MergeAllExisting | agent/api/response.py:58-62 | an existing slot keeps its id and type and gets the in-order name and arguments pieces appended |
| Response.MergeAllFresh | agent/api/response.py:49-62 | a slot created while merging carries the first fragment's id and type (default "function") and the concatenated pieces |
| Response.LaterFragment | agent/api/response.py:58-62 | one more fragment keeps the assembled form of an existing slot |
| Response.FirstFragment | agent/api/response.py:49-57 | the first fragment of an index creates the slot in assembled form |
| Response.MergeAllOrder | agent/api/response.py:49-57 | the dict's order is the first-seen order of indices |
| Response.BatchContents | agent/api/response.py:64-68 | entry k of a batch is the assembled call of the k-th first-seen index |
| Response.BatchEmptyIff | agent/api/response.py:65 | the dict is empty after a round iff the round carried no fragment |
| Response.AccumulatorIsPending | agent/api/response.py:36-71 | the dict always holds exactly the current round's fragments, merged from empty |
| Response.RoundEndYields | agent/api/response.py:64-68 | before completion, a round end yields one batch of the pending fragments (or nothing) and empties the dict |
| Response.YieldsNonEmpty | agent/api/response.py:41-67 | every yielded text is non-empty and every yielded batch is non-empty |
| Response.UnfinishedRoundNotYielded | agent/api/response.py:36-71 | as long as no "tool_calls.completed" event arrives, the batches of tool calls yielded stay the same whatever text is forwarded, so the stream can end with calls left pending |
| Response.QuietEventsYieldNothing | agent/api/response.py:44-62 | tool-call parts and unknown events never yield anything by themselves |
| ToolSchema.TypeName | agent/tools/utils.py:4-11 | `type_map` sends each supported builtin type to one of the six JSON Schema type names; only `str` gives "string" and only `list` gives "array" |
| ToolSchema.TypeNameInjective | agent/tools/utils.py:4-11 | no two builtin types share a JSON type name |
| ToolSchema.ItemTypeName | agent/tools/utils.py:32 | the item type of `list[T]` is `T`'s JSON type name when `T` is a `type_map` key, else "string" |
| ToolSchema.Description | agent/tools/utils.py:36 | a parameter's description is "Parameter: " followed by exactly its name |
| ToolSchema.DescriptionInjective | agent/tools/utils.py:36-41 | different parameters get different descriptions |
| ToolSchema.ParamSchemaOf | agent/tools/utils.py:20-43 | a parameter without an annotation is a string; a `type_map` key maps to its JSON type; `list[T]` is an array of T's JSON type (default "string"); every schema is described "Parameter: name"; anything else raises the unsupported-type error naming the parameter, the function and the annotation |
| ToolSchema.BuildTools | agent/tools/utils.py:13-64 | the loop returns the tools of the specification fold, or its first error |
| ToolSchema.BuildProperties | agent/tools/utils.py:17-48 | the inner loop over one function's parameters returns the properties and required list of the specification fold, or its first error |
| ToolSchema.ParamsFoldFailureSticks | agent/tools/utils.py:42-43 | an error in one parameter is the result for the whole function |
| ToolSchema.ToolsOfFailureSticks | agent/tools/utils.py:42-43 | an error in one function is the result for the whole list |
| ToolSchema.ToolsOfFailsAt | agent/tools/utils.py:15-43 | the first unsupported parameter, after everything before it succeeded, decides the error raised |
| ToolSchema.ParamsFoldShape | agent/tools/utils.py:17-48 | processing parameters succeeds iff all are supported; then the properties have one key per parameter and `required` lists the parameters without a default, in order |
| ToolSchema.ParamsFoldProperty | agent/tools/utils.py:45 | with distinct names, each parameter's property is its own schema |
| ToolSchema.ToolsOfSucceedsIff | agent/tools/utils.py:13-64 | `build_tools` succeeds iff every parameter of every function is supported |
| ToolSchema.ToolsMatchFunctions | agent/tools/utils.py:50-62 | one tool per function, in order, of type "function", with the function's name, its docstring or "", and an "object" parameters schema with the right properties and required list |
| ToolSchema.ToolPropertyOfParam | agent/tools/utils.py:45-62 | on success, the schema of parameter j of function k sits under its name in tool k |
| ToolSchema.ToolOfAt | agent/tools/utils.py:50-62 | on success, tool k is built from function k alone |
| Text.Strip | interfaces/voice/output.py:72 | `strip()` never lengthens its input, and what it returns neither begins nor ends with whitespace |
| Text.TrimStartSpec | interfaces/voice/output.py:72 | left trimming removes exactly the leading whitespace |
| Text.TrimEndSpec | interfaces/voice/output.py:72 | right trimming removes exactly the trailing whitespace |
| Text.StripSpec | interfaces/voice/output.py:72-73 | `strip()` returns a slice that neither starts nor ends with whitespace, with only whitespace cut off either side; it is empty iff the input is blank |
| Text.StripIdempotent | interfaces/voice/output.py:72-75 | a stripped string strips to itself |
| Text.StripTwice | interfaces/voice/output.py:72-75 | stripping twice equals stripping once, so `send_output` never rejects a sentence `stream_output` passes it |
| Voice.ResolveKey | interfaces/voice/output.py:19-22 | a key is found iff the given or the configured key is non-empty; the given key wins; the result is never empty |
| Voice.VoiceOutput.constructor | interfaces/voice/output.py:19-26 | once a key is resolved, the output keeps it and the voice, has spoken and printed nothing, and has the header pending |
| Voice.VoiceOutput.SendOutput | interfaces/voice/output.py:28-34 | a blank message is neither spoken nor printed; any other is printed as a "Speaking" line and spoken; the header flag is untouched |
| Voice.VoiceOutput.TakeChunk | interfaces/voice/output.py:62-76 | one pass of the loop prints the header before the first chunk only, echoes the chunk, speaks and announces the stripped sentence it closes unless blank, and returns the text still accumulated, which is empty after a terminator |
| Voice.VoiceOutput.Finish | interfaces/voice/output.py:78-82 | after the loop, the leftover text is spoken and announced stripped unless it is blank, then the closing newline is printed |
| Voice.VoiceOutput.StreamOutput | interfaces/voice/output.py:54-82 | speaks exactly `Speech(chunks)`, prints exactly `Shown(chunks)`, and leaves the header pending iff the stream was empty |
| Voice.QuietVoiceOutput.constructor | interfaces/voice/output.py:19-26 | the quiet output starts with nothing spoken and the header pending |
| Voice.QuietVoiceOutput.SendOutput | interfaces/voice/output.py:183-193 | a blank message is dropped and any other is spoken, with nothing printed |
| Voice.QuietVoiceOutput.TakeChunk | interfaces/voice/output.py:209-216 | one pass of the quiet loop speaks the stripped sentence the chunk closes unless blank, prints nothing, and returns the text still accumulated, which is empty after a terminator |
| Voice.QuietVoiceOutput.Finish | interfaces/voice/output.py:219-220 | after the quiet loop, the leftover text is spoken stripped unless it is blank |
| Voice.QuietVoiceOutput.StreamOutput | interfaces/voice/output.py:202-220 | speaks exactly the same `Speech(chunks)` as the printing output and never touches the header flag |
| Voice.EndsSentence | interfaces/voice/output.py:57-71 | a chunk closes a sentence iff it ends with one of `.`, `!`, `?` or a newline, as `any(chunk.endswith(e) ...)` tests; an empty chunk never does |
| Voice.SpokenIsUtter | interfaces/voice/output.py:71-76 | the sentences spoken inside the loop are exactly the closed runs that are not blank, stripped |
| Voice.UtterStripped | interfaces/voice/output.py:72-75 | every spoken sentence is non-empty and stripped, and there is at most one per closed run |
| Voice.SpeechStripped | interfaces/voice/output.py:72-80 | everything a stream speaks is non-empty and stripped |
| Voice.RunsCoverChunks | interfaces/voice/output.py:62-76 | the closed runs followed by the text still pending concatenate back to the whole stream, so no text is lost or repeated |
| Voice.RunsPerTerminator | interfaces/voice/output.py:71-76 | there is one closed run per chunk that ends a sentence |
| Voice.SpeechBound | interfaces/voice/output.py:71-80 | a stream speaks at most one sentence per terminating chunk plus one for the remainder |
| Voice.NoTerminatorSpeaksOnce | interfaces/voice/output.py:67-80 | a stream with no terminating chunk speaks its whole stripped text once at the end, or nothing if it is blank |
| Voice.ScanAppend | interfaces/voice/output.py:62-76 | after a sentence boundary, segmentation restarts: runs and speech of a concatenation are those of the parts |
| Voice.SpeechAfterTerminator | interfaces/voice/output.py:71-80 | the speech of a stream cut after a terminating chunk is the speech of the two parts |
| Voice.SaidContents | interfaces/voice/output.py:62-75 | inside the loop the console echoes every chunk in order, announces exactly the spoken sentences, and prints the header once iff a chunk arrived |
| Voice.ShownContents | interfaces/voice/output.py:62-82 | over a whole stream the console echoes every chunk, announces exactly what is spoken, and prints the header at most once |
| Agents.BuiltInTools | agent/tools/__init__.py:4-8 | the built-in tools are what `build_tools` returns for the clock function: one "function" tool named `get_current_in_local_time`, described by its raw docstring (its indentation kept, as `__doc__` holds it up to Python 3.12), taking no properties and requiring nothing |
| Agents.Asked | agent/agent.py:20-22 | the provider sees the history unchanged, plus a final user message iff the prompt is non-empty |
| Agents.AfterChat | agent/agent.py:18-24 | one exchange keeps the old history as a prefix, grows it by 2 with a prompt or 1 without, puts the prompt at the old length and ends with the assistant reply |
| Agents.ChatContents | agent/agent.py:18-24 | one exchange adds the non-empty prompt to the user messages and the reply to the assistant messages |
| Agents.ConverseContents | agent/agent.py:18-24 | over any series of exchanges, the assistant messages gain every reply in order and the user messages gain exactly the non-empty prompts in order |
| Agents.ConverseLength | agent/agent.py:18-24 | over any series of exchanges the old history stays a prefix, and the history grows by one message per reply plus one per non-empty prompt |
| Agents.Agent.constructor | agent/agent.py:7-11 | a new agent keeps its name, offers exactly the built-in tools, and has an empty history |
| Agents.Agent.AddMessage | agent/agent.py:13-15 | the message is appended to the history; the tools are unchanged |
| Agents.Agent.Chat | agent/agent.py:18-24 | the reply is the provider's answer to the history plus the non-empty prompt; the history becomes `AfterChat` of the old one; the tools are unchanged |

## Left out

- The network, the provider clients and async iteration are not modelled. A stream is a finite sequence of chunks or events, and the provider's answer is a function parameter. Exceptions raised by a client are not modelled either.
- Only `choices[0]` of a chunk is modelled, as the source reads only that one. A chunk whose `choices` list is empty makes `chunk.choices[0]` raise `IndexError` (agent/api/completion.py:45). `Chunk` always carries one choice, so this error path is not modelled.
- A tool-call fragment whose `function` attribute is `None` makes `tool_call_delta.function.name` or `.arguments` raise `AttributeError` (agent/api/completion.py:59-60, 69-72). `Fragment` always carries an optional name and arguments, so this error path is not modelled.
- `completion`'s blocking request: only its keyword arguments are modelled. The provider call (agent/api/completion.py:19) is outside the model. Without it there is no reply to read `choices[0].message` from (agent/api/completion.py:20).
- The interactive REPL and the terminal interfaces are not modelled. None of agent/agent.py, main.py, main_enhanced.py or the interfaces/ modules calls `streaming_completion` or `streaming_response`. The tool-execution loop that would run the yielded calls, with its diagnostics for an unknown function and for a function that raises, is not part of this model. main_enhanced.py:30 and main_enhanced.py:69 call `agent.stream_chat`, which agent/agent.py does not define.
- Speech synthesis, audio playback, temporary files and the subprocess calls are not modelled. What is handed to `send_output` is recorded instead, along with the printed lines.
- The `try`/`except` fallbacks in `send_output` and `stream_output` are not modelled: they print an error and, in `VoiceOutput.send_output`, the message as text. The model assumes synthesis succeeds.
- Voice.ResolveKey: the `ValueError` for a missing key is the `None` result. Both constructors take an already-resolved, non-empty key. The OpenAI client the constructor creates is not modelled.
- Voice.QuietVoiceOutput: modelled as its own class rather than as a subclass. The model carries no console for it, because its overriding methods print nothing on the success path.
- Text.Strip: its own contract states the length bound and that the result is stripped. That the result is the slice of the input between blank ends is stated in Text.StripSpec.
- ToolSchema.ToolsMatchFunctions: the JSON key order of `properties` is not modelled, because it is a map.
- ToolSchema.ParamSchemaOf: the error is the structured `UnsupportedType`, not the formatted message text.
- ToolSchema: `inspect.signature`, `get_origin` and `get_args` are replaced by the `Param` and `Annotation` values they report. The clock function itself, which reads the system clock, is not modelled.
- `agent/chats.py` is not part of this model. It is a thin wrapper over the provider call, and its `messages=[]` default (agent/chats.py:7) is one list shared by every call that omits the argument. `agent/agent.py` imports a `completion` that `agent/chats.py` does not define, so `Agent.chat` is modelled with the provider call as a parameter.
- Requests.Arg: floating-point options such as `temperature` and `top_p` are not modelled; only string, boolean, integer, message-list and tool-list values are.
- Response.RequestKwargs: Python binds `input`, `tools` and `model` to named parameters, so the extra keyword arguments cannot carry those names. The precondition states that.
