# shareefai orchestration core in Dafny

This project models the orchestration core of shareefai, a small Python agent framework. The core has these parts:

- **Registry** (`agents/agent_manager.py`). A registry maps agent names to agents, and each agent maps function names to capabilities. `execute_function` looks up at both levels. It returns an error record (a one-key dictionary `{"error": ...}`) instead of raising. `generate_prompt` renders the registry as a catalogue.
- **Assignment** (`agents/async_manager.py`). An assignment dispatches the same request repeatedly, until a condition on the result holds. Then it fires an action and clears its `running` flag.
- **Reasoner** (`reasoning/reasoner.py`). A FIFO task list. `interpret_objective` fills it from a decomposition of an objective. `execute_first_task` pops the front task and dispatches it through the registry. `run` drains the list, assessing each result.
- **Conversation buffer** (`memory/buffer_manager.py`). Python-style negative indexing, memory strings, and a flush to an external store when five conversations have gathered.
- **Chains** (`chain/simplebase.py`, `chain/templatebase.py`). Output-shaping functions: the stand-in prompt generator, the `to_json` and `to_upper` callbacks, callback resolution, and `str.format` on a template.

Shared modules:

- `Dicts` models Python's insertion-ordered dictionary. Overwriting a key keeps its position.
- `Python` has the value universe of the task records (string, `None`, bool, dictionary), truthiness, exceptions as data (`Outcome` is `Returned(v)` or `Raised(e)`), Python indexing, `str.join` and ASCII upper-casing.

Objects that Python updates in place are Dafny classes with `modifies` clauses. These are `AgentManager`, `Assignment`, `ConversationBuffer` and `Reasoning`. Their loops are Dafny loops proved against reference functions: `Catalogue`, `Poll`, `RecentMemories`, `Recorded` and `RunFrom`. The chains are pure functions.

The user-supplied callables are parameters of the model, so nothing is assumed about them. These are:

- the capabilities, `condition_check` and `action`;
- the upload to Redis;
- the Redis query;
- the LLM decomposition the reasoner calls.

`json.dumps` is an uninterpreted parameter `dumps`. A run of `start` consumes a finite script of dispatch results.

The model keeps the code's defects as written:

- `execute_first_task` passes `input_data` where `execute_function` expects the function name. So under `run`, which passes nothing, no capability is ever reached (`NoneInputNeverDispatches`).
- The normalised copies that `interpret_objective` pushes have no `"function"` key, so executing one raises `KeyError` (`NormalisedTaskRaises`).
- The reasoner's template has a lone `}`. The real `execute_chain` therefore raises `ValueError` on it (`TaskChainRaises`).
- `process_buffer` calls `upload_to_redis` with two of its three arguments (see Findings).

## Model

| member | source | states |
|---|---|---|
| Dicts.PyDict.Put | agents/agent_manager.py:56 | assignment to a dict key: the entry is set and every other entry kept; an existing key keeps its position, a new key is appended; validity preserved |
| Dicts.PutKeepsPositions | agents/agent_manager.py:56 | overwriting a key leaves every key at its index |
| Python.PyIndex | memory/buffer_manager.py:46-50 | Python list indexing: defined exactly for `-len <= i < len`, negative indices count from the end, `None` otherwise |
| Python.IndexAfterAppend | memory/buffer_manager.py:31 | after an append, index -1 is the new element |
| Python.ErrorRecord | agents/agent_manager.py:35 | an error record has exactly the key "error" holding the message |
| Python.Join | reasoning/reasoner.py:32 | `sep.join`: empty list gives "", one element gives that element |
| Python.JoinEmptySeparator | agents/async_manager.py:61 | `"".join(parts)` is the plain concatenation of the parts |
| Python.BindPositionals | memory/buffer_manager.py:41 | binding positional arguments to positional parameters succeeds exactly when the counts agree; too few raise `TypeError` naming the parameters left unbound (`'a'`, `'a' and 'b'`, `'a', 'b', and 'c'`), too many raise `TypeError` giving both counts |
| Python.ThreeMissingNames | memory/buffer_manager.py:41 | example: three missing parameters are listed as `'a', 'b', and 'c'`, with the comma before "and" |
| Agents.Agent.ExecuteFunction | agents/agent_manager.py:21-35 | a known function name calls the capability with `input_data` first and returns its result untouched; an unknown name returns `{"error": "Function <f> not found in <agent>"}`; an unhashable name raises `TypeError` |
| Agents.Bind | agents/agent_manager.py:58-60 | Python's binding of a call to `(self, agent_name, function_name, input_data=None, *args, **kwargs)`: surplus positionals are `*args`, `**kwargs` never holds a named parameter |
| Agents.BindTwoPositional | agents/agent_manager.py:58-60 | a call `(a, f, *rest, **kw)` binds `a`, `f`, the first of `rest` or `None` as `input_data`, the rest of `rest`, and `kw` |
| Agents.Dispatch | agents/agent_manager.py:70-75 | an unregistered name returns `{"error": "Agent <name> not found"}` and calls nothing; a registered one hands over to that agent's `execute_function`; the registry is only read |
| Agents.UnknownAgentReported | agents/agent_manager.py:70-75 | the agent-not-found record for any unregistered name, whatever the function |
| Agents.KnownFunctionPassesThrough | agents/agent_manager.py:30-33 | a registered agent and function give exactly the capability's result on `(input_data, args, kwargs)` |
| Agents.ListedFunctionDispatches | agents/agent_manager.py:89-90 | every function name the catalogue lists under an agent is in that agent's table, and dispatching to it calls that capability |
| Agents.DispatchAfterRegister | agents/agent_manager.py:56 | after registering `a`, dispatch to `a.name` reaches `a`; dispatch to every other name is unchanged |
| Agents.AgentBlocksAppend | agents/agent_manager.py:83-90 | the catalogue blocks of a concatenation of name lists |
| Agents.AgentBlocksIgnoreOthers | agents/agent_manager.py:83-90 | blocks of a list of names do not depend on agents outside it |
| Agents.RegisterNewAgentAppendsBlock | agents/agent_manager.py:56 | registering a new name adds its block at the end of the catalogue |
| Agents.ReRegisterKeepsBlockPosition | agents/agent_manager.py:56 | re-registering the name at position `i` replaces its block in place; the blocks before and after are unchanged |
| Agents.ReplacedBlock | agents/agent_manager.py:83-90 | replacing the entry of the `i`-th of distinct names replaces exactly its block, the blocks before and after unchanged |
| Agents.AgentManager.constructor | agents/agent_manager.py:43-48 | an empty registry and the given expected input type |
| Agents.AgentManager.RegisterAgent | agents/agent_manager.py:50-56 | the new registry is the old one with `agent.name` set to the agent, every other entry and the key order kept, a new name appended; the registry stays one where every agent sits under its own name and every function table is a dict |
| Agents.AgentManager.AppendFunctionLines | agents/agent_manager.py:89-90 | the inner loop appends one `"  - <fn>\n"` line per function name, in order |
| Agents.AgentManager.AppendBlocks | agents/agent_manager.py:83-90 | the outer loop appends the block of every agent in iteration order: its heading, then its function lines |
| Agents.AgentManager.GeneratePrompt | agents/agent_manager.py:77-95 | the accumulated prompt equals the catalogue: fixed header, then per agent in iteration order its heading and one `"  - <fn>\n"` line per function, then the fixed trailer |
| Assignments.StopIndex | agents/async_manager.py:42-48 | the first iteration that raises or satisfies the condition; every earlier one neither raises nor satisfies it |
| Assignments.Checked | agents/async_manager.py:43-46 | the values handed to the condition are the dispatch results themselves |
| Assignments.PollEffects | agents/async_manager.py:42-48 | at most one dispatch per scripted result; the action runs at most once, and only right after a result the condition accepted; the checked values are those results in order; stopping means not running or the action returned |
| Assignments.FirstMatchStops | agents/async_manager.py:42-48 | the number of dispatches is the 1-based position of the first accepted result, and the action runs once there |
| Assignments.NotRunningDoesNothing | agents/async_manager.py:42 | a stopped assignment dispatches nothing, checks nothing and runs no action |
| Assignments.ErrorRecordIsChecked | agents/async_manager.py:43-46 | an error record from dispatch is passed to the condition as it is |
| Assignments.CheckedPrefix | agents/async_manager.py:43-46 | a returning first result is the first value checked |
| Assignments.ConstantResultPoll | agents/async_manager.py:42-48 | against a constant result, polling stops after one dispatch or exhausts the script having dispatched every time |
| Assignments.Assignment.constructor | agents/async_manager.py:15-34 | `running` is true and every argument is stored unchanged |
| Assignments.Assignment.RequestBinding | agents/async_manager.py:43-45 | for stored `kwargs` that name no parameter of `execute_function`, each request binds to the stored agent and function names, with the stored `args` (first as `input_data`) and `kwargs` |
| Assignments.Assignment.RequestBindingInputKeyword | agents/async_manager.py:43-45 | a stored `input_data` keyword becomes `input_data` when no `args` are stored, and with any stored `args` each request raises the multiple-values `TypeError` |
| Assignments.Assignment.Start | agents/async_manager.py:36-49 | the run is `Poll` of the old flag: one request per dispatch, each exactly the stored one; `running` ends false exactly when the loop stopped normally |
| Assignments.Assignment.GenerateAsyncPrompt | agents/async_manager.py:51-61 | the prompt is the five parts concatenated with no separator |
| SimpleBase.GeneratePrompt | chain/simplebase.py:9-10 | the lead text, then the prompt, then ". Pre-context: ", then the pre-context rendered as `str()` does |
| SimpleBase.NoneRendersAsNone | chain/simplebase.py:10 | example: a missing pre-context gives the same prompt as the pre-context "None" |
| SimpleBase.CallbackMapping | chain/simplebase.py:25-28 | the mapping holds exactly "to_json" and "to_upper" |
| SimpleBase.ResolveCallbackCases | chain/simplebase.py:57-64 | only an absent callback applies nothing; every name but "to_upper", "" included, falls back to `to_json`; a callable is applied as it is |
| SimpleBase.UpperEntries | chain/simplebase.py:17-21 | the comprehension gives a valid dictionary with no more keys than its input |
| SimpleBase.UpperEntriesKeys | chain/simplebase.py:17-21 | its keys are exactly the upper-cased input keys |
| SimpleBase.UpperEntriesOrder | chain/simplebase.py:17-21 | the comprehension's keys are the upper-cased input keys at their first occurrences, in input order |
| SimpleBase.ToUpperEntries | chain/simplebase.py:17-21 | `to_upper`'s keys are the upper-cased input keys, no more of them than input keys, each where it first appears; a key no later key collides with keeps its value, upper-cased if a string, unchanged otherwise |
| SimpleBase.LastWins | chain/simplebase.py:18-21 | of keys colliding after upper-casing, the last one's value stays |
| SimpleBase.TwoKeys | chain/simplebase.py:18-21 | the comprehension over two keys is two assignments in order |
| SimpleBase.CollidingKeysMerge | chain/simplebase.py:18-21 | `{"a": x, "A": y}` upper-cases to one entry `{"A": y'}` |
| SimpleBase.PairRecord | chain/simplebase.py:52-55 | a two-key dictionary literal: both keys in order with their string values |
| SimpleBase.ApplyCallback | chain/simplebase.py:57-64 | a falsy callback returns the dictionary unchanged; `to_json` gives its serialisation, `to_upper` its upper-cased copy; a callable's result is returned |
| SimpleBase.ExecuteSimpleChain | chain/simplebase.py:43-64 | the callback is applied to `{"prompt": p, "generated_code": generate_prompt(p, memory)}` |
| SimpleBase.SimpleChainDefaults | chain/simplebase.py:38-39 | with the defaults, callback "to_json" and memory `None`, the result is the JSON text of that pair with "None" as pre-context |
| SimpleBase.SimpleChainToUpper | chain/simplebase.py:43-64 | under "to_upper" the result is the pair with both keys and both values upper-cased, in order |
| SimpleBase.UpperPair | chain/simplebase.py:17-21 | upper-casing a two-key record whose upper-cased keys differ |
| TemplateBase.Prepend | chain/templatebase.py:27 | literal text goes in front of a successful result; failures pass through |
| TemplateBase.NameEnd | chain/templatebase.py:27 | the scan of a field name stops at a `}`, `:`, `!` or `{`, or at the end of the text, skipping what lies between `[` and `]` |
| TemplateBase.NameEndFirst | chain/templatebase.py:27 | with no `[` before it, the name scan stops at the first `}`, `:`, `!` or `{` |
| TemplateBase.SpecEnd | chain/templatebase.py:27 | a format spec closes at a `}`, counting the braces opened inside it, or runs to the end of the text |
| TemplateBase.ReadField | chain/templatebase.py:27 | a field name that runs to the end raises "expected '}' before end of string"; a `{` in it raises "unexpected '{' in field name"; a name ended by `}` is the whole field; whatever else the field holds ends at a `}` |
| TemplateBase.ParseFieldShift | chain/templatebase.py:27 | how a field reads depends only on the text from its name on |
| TemplateBase.OpenBraceInName | chain/templatebase.py:27 | example: `"{a{".format()` raises "unexpected '{' in field name" |
| TemplateBase.UnbalancedSpec | chain/templatebase.py:27 | example: `"{0:{}".format("x")` raises "unmatched '{' in format spec" |
| TemplateBase.LookUp | chain/templatebase.py:27 | a missing positional index is at least the number of inputs; a found value is one of the inputs |
| TemplateBase.LookUpKeyword | chain/templatebase.py:27 | a name that is not all digits raises `ValueError` "Too many decimal digits in format string" when its leading digits exceed PY_SSIZE_T_MAX, and `KeyError` otherwise |
| TemplateBase.DigitRun | chain/templatebase.py:27 | the longest all-digit prefix of a field name, the whole name when it is all digits |
| TemplateBase.LookUpIndex | chain/templatebase.py:27 | a digit field name above PY_SSIZE_T_MAX raises `ValueError` "Too many decimal digits in format string" whatever the numbering; a smaller one is refused under automatic numbering and otherwise picks that input or is missing |
| TemplateBase.LiteralRun | chain/templatebase.py:27 | text without braces is copied through unchanged |
| TemplateBase.PositionalField | chain/templatebase.py:27-29 | `{n}` gives the `n`-th input, `IndexError` when there is none, and `ValueError` when `n` is above PY_SSIZE_T_MAX |
| TemplateBase.PlainPrefix | chain/templatebase.py:27 | brace-free text in front of a template is copied in front of its result |
| TemplateBase.EscapedOpen | chain/templatebase.py:27 | `{{` gives a literal `{` and formatting goes on after it |
| TemplateBase.LoneClose | chain/templatebase.py:27 | a `}` not followed by another raises `ValueError` "Single '}' encountered in format string" |
| TemplateBase.FormatFromShift | chain/templatebase.py:27 | formatting from a position depends only on the text from there on |
| TemplateBase.FieldShift | chain/templatebase.py:27 | the same for a replacement field |
| TemplateBase.FieldParts | chain/templatebase.py:27 | a field's reading, name and continuation depend only on the text from its opening brace on |
| TemplateBase.SameField | chain/templatebase.py:27 | two fields that read alike, with the same name and continuation, format alike |
| TemplateBase.EscapeRoundTrip | chain/templatebase.py:27 | a text with every brace doubled formats back to itself, whatever the inputs |
| TemplateBase.ChainOutput | chain/templatebase.py:31-37 | the output has exactly the keys `built_prompt` and `generated_code`, the latter `generate_prompt(built_prompt, memory)` |
| TemplateBase.ExecuteChain | chain/templatebase.py:20-46 | an out-of-range index returns `{"error": "Mismatch between placeholders and inputs."}`; every other format failure, the `ValueError` for an index above PY_SSIZE_T_MAX included, is raised; success applies the callback to the output dictionary |
| TemplateBase.FirstFieldOutOfRange | chain/templatebase.py:26-29 | a template whose first field is `{n}` with `n >= len(inputs)` yields the mismatch record and generates nothing, unless `n` is above PY_SSIZE_T_MAX, when it raises `ValueError` |
| TemplateBase.ChainWithoutCallback | chain/templatebase.py:43-46 | without a callback the chain returns the output dictionary itself |
| TemplateBase.HelloWorld | chain/templatebase.py:27 | example: "Hello {0}" with "World" formats to "Hello World" |
| BufferManager.MemoryLine | memory/buffer_manager.py:24 | "Previous Q: " and the question, then ", Previous A: ", then the answer |
| BufferManager.MemoryLineNonEmpty | memory/buffer_manager.py:23-24 | a memory string is never empty |
| BufferManager.AsWrittenUploadRaises | memory/buffer_manager.py:41 | binding the two arguments of the call as written to `(r, conversations, pre_context)` leaves `pre_context` unbound, so every flush raises `TypeError` "upload_to_redis() missing 1 required positional argument: 'pre_context'" before the Redis write, whatever that write does |
| BufferManager.FullUploadWrites | memory/buffer_manager.py:41 | with all three arguments the binding is complete and the flush is the Redis write |
| BufferManager.AsWrittenAddConversation | memory/buffer_manager.py:27-44 | as written, an add on a buffer of four or more raises that `TypeError` and keeps the conversation appended |
| BufferManager.AsWrittenBufferGrows | memory/buffer_manager.py:27-44 | as written, from four conversations a fifth and a sixth add both raise, and all six stay in the buffer |
| BufferManager.ConversationBuffer.constructor | memory/buffer_manager.py:17-18 | an empty buffer |
| BufferManager.ConversationBuffer.GetConversation | memory/buffer_manager.py:46-50 | `buffer[i]` under Python indexing when `-len <= i < len`, `None` otherwise, never raising |
| BufferManager.ConversationBuffer.GetMemory | memory/buffer_manager.py:20-25 | the memory string of `buffer[i]` exactly when that element exists, `None` otherwise |
| BufferManager.ConversationBuffer.SummarizeConversations | memory/buffer_manager.py:52-55 | always "Summary" |
| BufferManager.ConversationBuffer.ProcessBuffer | memory/buffer_manager.py:35-44 | the upload gets the whole buffer and the newest memory string; the buffer is emptied if it returns and kept whole if it raises |
| BufferManager.ConversationBuffer.AddConversation | memory/buffer_manager.py:27-33 | the conversation is appended; below five nothing else happens; at five the upload gets the five with the new one's memory string, and a returning upload empties the buffer, so successful adds keep it below five |
| Reasoner.TaskTemplateRaises | reasoning/reasoner.py:42-44 | formatting the task template raises `ValueError` "Single '}' encountered in format string", whatever the objective |
| Reasoner.TemplateShapeRaises | reasoning/reasoner.py:42-44 | any template made of plain text, `{0}`, plain text, `{{`, plain text and a lone `}` raises at that `}` when given an argument |
| Reasoner.TailRaises | reasoning/reasoner.py:42-44 | the part of such a template after its field raises at the lone `}` |
| Reasoner.TaskChainRaises | reasoning/reasoner.py:42-51 | the real `execute_chain` on the reasoner's chain raises rather than returning tasks |
| Reasoner.RecentMemories | reasoning/reasoner.py:24-29 | the memory strings of the newest conversations, newest first, at most five of them |
| Reasoner.TaskRecord | reasoning/reasoner.py:63-65 | the normalised record has exactly the keys name, details, input with the values read |
| Reasoner.CopyOf | reasoning/reasoner.py:60-65 | one copy for a record with truthy name and details, none otherwise |
| Reasoner.Normalised | reasoning/reasoner.py:58-65 | at most one copy per record, in order |
| Reasoner.NormalisedShape | reasoning/reasoner.py:63-65 | every copy has exactly the keys name, details and input, and no "function" key |
| Reasoner.NormalisedCount | reasoning/reasoner.py:62 | exactly one copy per record with truthy name and details |
| Reasoner.FirstNonRecord | reasoning/reasoner.py:58-59 | the first task that is not a dictionary, all earlier ones being dictionaries |
| Reasoner.RecordedCases | reasoning/reasoner.py:58-67 | the loop stops at the first non-dictionary with `AttributeError`, keeping the copies it pushed; otherwise the raw list follows the copies, and the list grows by the named records plus all records |
| Reasoner.NormalisedTaskRaises | reasoning/reasoner.py:81 | executing a normalised copy raises `KeyError("function")` |
| Reasoner.TaskDispatchArguments | reasoning/reasoner.py:80-86 | dispatch gets `task["name"]` as the agent name, `input_data` as the function name, `task["function"]` as keywords and `None` as the capability's input; `task["input"]` is not used |
| Reasoner.NoneInputNeverDispatches | reasoning/reasoner.py:128 | with `input_data` left `None` a task raises or gives an error record; no capability runs |
| Reasoner.AssessAndUpdate | reasoning/reasoner.py:90-119 | returns exactly when the result is a dictionary, true exactly when its "success" is truthy; `.get` on anything else raises |
| Reasoner.ErrorRecordIsNoSuccess | reasoning/reasoner.py:98 | an error record is assessed as no success |
| Reasoner.RunStepNeverSucceeds | reasoning/reasoner.py:128-129 | no iteration of `run` assesses a success |
| Reasoner.RunFromRaises | reasoning/reasoner.py:127-130 | a step that raises ends `run` with the rest of the list left and nothing assessed |
| Reasoner.RunFromContinues | reasoning/reasoner.py:127-130 | a step that returns records its assessment and `run` goes on with the rest |
| Reasoner.RunConsumes | reasoning/reasoner.py:127-130 | one pop per iteration: a returning run leaves the list empty having assessed every task; a raising one leaves a suffix, one task popped beyond those assessed |
| Reasoner.RunNeverSucceeds | reasoning/reasoner.py:127-130 | no assessment made by `run` is a success |
| Reasoner.Reasoning.constructor | reasoning/reasoner.py:11-14 | the collaborators are stored and the task list is empty |
| Reasoner.Reasoning.BufferContexts | reasoning/reasoner.py:23-29 | the loop over indices -1 to -5 collects exactly `RecentMemories` of the buffer |
| Reasoner.Reasoning.InterpretObjective | reasoning/reasoner.py:16-67 | the list only grows; a raising Redis query or decomposition leaves it unchanged; the decomposition gets the template chain with pre-context "Buffer: " + the recent memories joined as at line 32 + ", Redis: " + the answer; its tasks are then recorded as `Recorded` says |
| Reasoner.Reasoning.RecordTasks | reasoning/reasoner.py:58-67 | the loop and the `extend` append exactly `Recorded(tasks).added` and end as `Recorded(tasks).outcome` |
| Reasoner.Reasoning.ExecuteFirstTask | reasoning/reasoner.py:69-88 | an empty list returns "No tasks available" and stays empty; otherwise exactly the front task is removed, before its keys are read, and the result is `TaskResult` of that task |
| Reasoner.Reasoning.Run | reasoning/reasoner.py:121-130 | the outcome, the assessments and the tasks left are those of `RunFrom` on the old list |

## Left out

- `asyncio.sleep` and the `interval` argument of `start`, and cooperative scheduling. `start` is a plain sequential loop over a finite script of dispatch results. When the script ends before the condition holds, the run ends as `ScriptExhausted`.
- The bodies of capabilities, `condition_check`, `action`, the Redis query and the upload. They are parameters, so every property holds for all of them.
- The LLM decomposition the reasoner calls. `InterpretObjective` takes it as a function from the template chain to a list of values or an exception. The real `execute_chain` raises on that chain (`TaskChainRaises`). With `to_json` it would return a string rather than a list, and the model does not follow Python iterating over such a string.
- `memory/redis_manager.py`, including `fetch_from_redis`: it is Redis client I/O. `ai-handler/chatgpt.py`: a network call.
- `json.dumps`, as an uninterpreted `dumps` parameter.
- Pydantic parsing in `add_conversation` (line 29). `AddConversation` takes an already parsed `Conversation`, so a parse failure is not modelled.
- The rest of Python's `str.format` mini-language. The model covers literal text, `{{` and `}}`, `{}`, `{n}` and keyword names. A field is read as CPython's `parse_field` reads it, with its error messages, but the conversion after `!` and the spec after `:` are not applied: an unknown conversion character is not refused, and fields nested in a spec are not formatted and do not advance the automatic numbering. The text between `[` and `]` in a field name is skipped as CPython skips it, but attribute and index access are not performed: a name holding `.` or `[` is looked up whole, as a keyword. Digits are ASCII only. The index bound PY_SSIZE_T_MAX is that of a 64-bit build.
- Unicode case mapping: `Upper` maps ASCII letters only.
- `print` output (reasoning/reasoner.py:99, 130).
- The re-decomposition branch of `assess_and_update` (lines 111-117). It is dead, because `should_update_tasks` is fixed to false at line 105.
- The `hasattr` check of `interpret_objective` (lines 54-55). It is dead, because the task list always exists in the model.
- Exception messages are CPython's wording, shortened where they depend on interpreter details: the binding errors of `Bind`, and the subscript and `**` errors of `TaskResult`.
- `Assignment.__init__` binding its own `*args`/`**kwargs`. The constructor receives them already separated, and requires that `kwargs` names none of its parameters.
- RegisterAgent: requires that the agent's function table is a well-formed dict (distinct keys, listed exactly as its entries), which every Python dict is.
- `Reasoning` stores `memory_manager.buffer` directly. The rest of the memory manager is Redis, and is a parameter.
- The summary computed in `process_buffer` is unused there, and in the model too.
- The docstring examples of agent_manager.py and async_manager.py. They are not code.
- The text of the task template is written as a concatenation of shorter literals, cut at its braces and, within the longer runs, between phrases. Together they are exactly the source's text.

## Findings

| source | as written | input that shows it | evidently intended | confidence | as-written member | corrected member |
|---|---|---|---|---|---|---|
| memory/buffer_manager.py:41 | `upload_to_redis(self.buffer, memory)` passes two arguments to a function taking `(r, conversations, pre_context)` (memory/redis_manager.py:32) | a fifth `add_conversation` on any buffer of four | upload the buffer with a client, then clear it | not executed | BufferManager.AsWrittenUploadRaises | BufferManager.ConversationBuffer.AddConversation |

As written, every flush raises `TypeError` before `clear()`, because Python's argument binding leaves `pre_context` unbound (`AsWrittenUploadRaises`). The buffer therefore only grows: every later `add_conversation` raises again (`AsWrittenBufferGrows`). `AddConversation` instead takes the upload as a parameter with the intended two-value interface. With that interface, a returning upload empties the buffer, and successful adds keep it below five.
