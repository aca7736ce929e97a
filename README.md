# iQuery-Agent in Dafny

This project models the core of iQuery Agent, a conversational data-analysis
assistant. The assistant keeps a token-budgeted conversation buffer and drives
chat-completion turns. In each turn the model either answers in text or asks
for a registered tool to be called; tool failures trigger a debugging
sub-conversation. Transcripts can be uploaded to a project document.

The modules follow the repository's structure:

- `Text` (text.dfy): substring search (`str.find`, `in`) and `str.replace(p, "")`.
- `Messages` (messages.dfy): message dictionaries, outcomes (`Status`, `Run`),
  the tokenizer (a parameter) and sequence helpers.
- `BufferSpec` (buffer_spec.dfy): the state of `MessageManager` as a value, with one
  function per operation: construction, eviction, `messages_pop`,
  `messages_append`, `copy`, `add_system_messages`, `delete_system_messages`,
  `delete_function_messages`, and the in-place edits of the last message.
- `BufferProps` (buffer_props.dfy): what those operations guarantee.
- `Memory` (message_manager.dfy): the class `MessageManager`. Each method is proved to
  leave exactly the state that the matching `BufferSpec` function computes.
- `Prompts` (prompts.dfy): `modify_prompt` and `add_task_decomposition_prompt`
  as functions on buffer states. It also holds the tool-result message and the
  rendering of tool calls.
- `Registry` (available_functions.dfy): `AvailableFunctions` and `auto_functions`. Descriptions come
  from a tape of chat replies.
- `Planning` (planning.dfy): the orchestrator (`get_first_response`,
  `one_chat_response` and the three handlers). It runs against a `World` object.
  The `World` replays scripted completions, user inputs and tool outcomes, and
  it logs requests, waits, displayed items and typed inputs.
- `Tools` (tools.dfy): `insert_fig_object`, as written and as evidently intended.
- `CloudFile` (cloud_file.dfy): `append_doc_content`'s transcript formatting.
  The project document is a list of paragraphs.
- `Agent` (agent.dfy): `iQueryAgent`, covering the threshold choice, `chat`,
  `reset` and `upload_messages`.

Python exceptions are outcomes, not preconditions. A message pop on an empty
history is `Raised(IndexError)`, and an invalid manual index is
`Raised(ValueError)`. A missing tool is `Failed(KeyError)`, a missing registry
is `Failed(AttributeError)`, and so on. Tool-call arguments that are not
valid JSON never surface as ValueError: `handle_code_response` catches the
parse error and runs the turn again. When a script tape runs dry, the run
ends as `OutOfScript`.

The buffer's field `aliased` records whether `messages` is currently rebuilt as
`system_messages + history_messages`. When it is, the Python lists share their
dictionaries, so an in-place edit of `messages[-1]` also edits
`history_messages[-1]`.

## Model

| member | source | states |
|---|---|---|
| BufferSpec.Init | memory/MessageManager.py:21-83 | Defines the constructor's buffer: the system messages are dropped when they alone reach the threshold, and everything is cleared when they and the question together reach it. Its properties are stated by InitShape. |
| BufferProps.InitShape | memory/MessageManager.py:21-83 | The constructor's buffer is consistent and agrees with the content list and threshold. It is empty when the question alone reaches the threshold. It has no system messages when those reach the threshold. Otherwise it holds the system messages and `[user question]` with the summed token count. |
| Memory.MessageManager.constructor | memory/MessageManager.py:21-83 | The new buffer is exactly `Init(system_content_list, question, tokens_thr)`. |
| BufferSpec.Evict | memory/MessageManager.py:95-97 | Defines eviction: the last history message and its tokens are dropped until the count is under the threshold, and `None` stands for the IndexError when the history runs out. Its properties are stated by the four Evict lemmas. |
| BufferProps.EvictBelowThreshold | memory/MessageManager.py:95-97 | After eviction ends without error, the count is below the threshold. |
| BufferProps.EvictTrimsTail | memory/MessageManager.py:95-97 | Eviction keeps a prefix of the history. The count drops by exactly the tokens of the removed tail. |
| BufferProps.EvictMinimal | memory/MessageManager.py:95-97 | Eviction removes no more than needed: any shorter removal leaves the count at or over the threshold. |
| BufferProps.EvictFailsIff | memory/MessageManager.py:91-97 | Eviction raises IndexError exactly when even emptying the history leaves the count at or over the threshold. |
| Memory.MessageManager.ReduceTokens | memory/MessageManager.py:91-93 | `reduce_tokens(i)` removes history position i (the last position for -1) and subtracts its tokens. On an empty history it raises IndexError and changes nothing. |
| Memory.MessageManager.EvictOverflow | memory/MessageManager.py:95-97 | The eviction loop leaves the state computed by `Evict`. When eviction fails, the history is empty and its tokens are subtracted. |
| BufferProps.ManualPopCases | memory/MessageManager.py:99-105 | Manual pop under the threshold: index None/-1 removes the last message, and an in-range index removes that message, each subtracting its tokens. Index -1 on an empty history raises IndexError. Any other index raises ValueError. |
| Memory.MessageManager.PopIndex | memory/MessageManager.py:99-105 | The manual branch of `messages_pop` raises as `ManualIndex` says, or removes exactly the chosen message and its tokens. |
| BufferSpec.Pop | memory/MessageManager.py:84-108 | `messages_pop` evicts, then pops manually or rebuilds `messages`. It raises only IndexError, or ValueError for a manual pop with an explicit index other than -1. A raise leaves `messages` unrebuilt, so it stays shared only when the history is unchanged. |
| Memory.MessageManager.MessagesPop | memory/MessageManager.py:84-108 | The new state and status are exactly `Pop(old state, manual, index)`. |
| BufferProps.PopPartitions | memory/MessageManager.py:107 | After a successful pop, `messages == system_messages + history_messages` and the system part is unchanged. |
| BufferProps.PopUnderThreshold | memory/MessageManager.py:95-107 | After a successful pop, the count is below the threshold. |
| BufferSpec.Append | memory/MessageManager.py:109-125 | `messages_append` grows `messages`, the count and the history, then evicts. The only error it can raise is the eviction's IndexError. |
| Memory.MessageManager.MessagesAppend | memory/MessageManager.py:109-125 | The new state and status are exactly `Append(old state, item)`. |
| BufferProps.AppendMessage | memory/MessageManager.py:114-124 | Appending a dict grows the history by that message and the count by its tokens. If the result fits, nothing is evicted. If not, a prefix of the grown history survives. |
| BufferProps.AppendBuffer | memory/MessageManager.py:119-123 | Appending another buffer adds all of its `messages`, its system messages included, and exactly its `tokens_count`. |
| BufferProps.AppendUnsupported | memory/MessageManager.py:114-124 | Appending anything but a dict, a completion message or a buffer changes nothing. |
| BufferProps.AppendUnderThreshold | memory/MessageManager.py:109-125 | A successful append leaves a consistent buffer below the threshold. |
| BufferProps.AppendFits | memory/MessageManager.py:114-124 | When the new message fits, the append is exactly "history, messages and count grow by the message". |
| BufferProps.AppendOverflowDropsNewest | memory/MessageManager.py:114-124 | When the new message alone pushes the count over the threshold, eviction drops exactly that message and the buffer is unchanged. |
| BufferProps.SixAppendsOfTen | memory/MessageManager.py:109-125 | A worked case: with threshold 50 and 10 tokens per message, six appends keep the first four messages and a count of 40: every later message is the one evicted. |
| BufferSpec.CopyOf | memory/MessageManager.py:126-143 | Defines `copy()`: a buffer built by the constructor from the system contents, the first history content and the threshold, whose history, messages, count and system number are then overwritten. Its properties are stated by CopyAgrees, CopyBehavesAlike and CopyLosesSystemPrefix. |
| Memory.MessageManager.Copy | memory/MessageManager.py:126-143 | `copy()` returns a fresh buffer equal to `CopyOf(state)` and leaves the original untouched. |
| BufferProps.CopyAgrees | memory/MessageManager.py:126-143 | A copy has the same history, messages, count, threshold and system-message number. It is no longer aliased. |
| BufferProps.CopyBehavesAlike | memory/MessageManager.py:126-143 | When the inner constructor keeps the system messages, appending to the copy does what appending to the original does. |
| BufferProps.CopyLosesSystemPrefix | memory/MessageManager.py:131-140 | When the inner constructor clears everything, the copy has no system messages. Its next append then drops the system prefix from `messages`. |
| BufferSpec.AddSystem | memory/MessageManager.py:144-168 | Defines `add_system_messages`: the content list is extended, the system messages are rebuilt, the added text's tokens are counted, and eviction runs. `messages` is rebuilt from the shared dictionaries, so it stays shared when the eviction raises without removing anything. Its properties are stated by AddSystemShape. |
| Memory.MessageManager.AddSystemMessages | memory/MessageManager.py:144-168 | The new state and status are exactly `AddSystem(old state, contents)`. |
| BufferProps.AddSystemShape | memory/MessageManager.py:144-168 | The content list is extended, the system messages are rebuilt from it, and the count is the list length. A successful result is consistent, aliased and below the threshold. |
| BufferSpec.DeleteSystem | memory/MessageManager.py:169-184 | Defines `delete_system_messages`. Its properties are stated by DeleteSystemShape. |
| Memory.MessageManager.DeleteSystemMessages | memory/MessageManager.py:169-184 | The new state is exactly `DeleteSystem(old state)`. |
| BufferProps.DeleteSystemShape | memory/MessageManager.py:169-184 | With system contents, the system part is emptied, `messages` becomes the history, and their tokens are subtracted. Without any, nothing changes. |
| BufferSpec.DeleteFrom | memory/MessageManager.py:185-194 | Defines the reverse index loop: each function message is popped manually. Indexing past the live history's end raises IndexError with nothing changed. Its properties are stated by DeleteFromFilters and DeleteFunctionMessagesFilters. |
| Memory.MessageManager.DeleteFunctionMessages | memory/MessageManager.py:185-194 | The reverse index loop leaves exactly `DeleteFunctionMessages(old state)`. |
| BufferProps.DeleteFunctionMessagesFilters | memory/MessageManager.py:185-194 | Under the threshold, the history afterwards is the non-function messages in order, and the count drops by the removed messages' tokens. If nothing is removed, the buffer is unchanged. |
| BufferProps.DeleteFromFilters | memory/MessageManager.py:190-193 | The reverse scan over a prefix `a` keeps `Kept(a)` followed by the already scanned suffix. |
| BufferProps.KeptDroppedMultiset | memory/MessageManager.py:190-193 | Kept and dropped messages together are a permutation of the history. |
| BufferProps.KeptHasNoFunctionMessage | memory/MessageManager.py:192 | No kept message has a `function_call` or role "function". |
| BufferProps.DroppedAreFunctionMessages | memory/MessageManager.py:192 | Every dropped message is a function message. |
| Memory.MessageManager.EditLastMessage | planning/Planning.py:95-99 | Editing `messages[-1]` in place follows `EditLastMessage`, which also updates the shared history or system dictionary. |
| BufferSpec.EditLastMessage | planning/Planning.py:95-99 | Editing `messages[-1]` raises IndexError exactly when `messages` is empty, and then changes nothing. |
| BufferSpec.EditLastHistory | planning/Planning.py:97-100 | Editing `history_messages[-1]` raises IndexError exactly when the history is empty, and then changes nothing. |
| Memory.MessageManager.EditLastHistory | planning/Planning.py:97-100 | Editing `history_messages[-1]` in place follows `EditLastHistory`. |
| Prompts.ModifyPrompt | planning/Planning.py:80-129 | `modify_prompt` raises nothing but the IndexError of an empty list. Its effect is stated by ModifyPromptShape and ModifyPromptRoundTrip. |
| Planning.Block | planning/Planning.py:94-100 | One `if` block of `modify_prompt` edits `messages[-1]` and then `history_messages[-1]`, as `EditBoth` computes. |
| Planning.ModifyPromptOf | planning/Planning.py:80-129 | `modify_prompt` leaves exactly `ModifyPrompt(old state, action, md, cot)`. |
| Prompts.ModifyPromptShape | planning/Planning.py:80-129 | Each enabled suffix is appended, or removed with `replace`, once per distinct list being edited. Aliased lists are edited twice, fresh copies once. |
| Prompts.ModifyPromptRoundTrip | planning/Planning.py:80-129 | 'remove' after 'add' restores the buffer, when neither prompt text already occurs in the last contents. |
| Prompts.AddAppendsTwiceWhenShared | planning/Planning.py:93-108 | On an aliased buffer, 'add' makes the last history content `c + COT + COT + MD + MD`; on a copied one, `c + COT + MD`. |
| Prompts.RemoveUndoesAdd | planning/Planning.py:110-127 | Removing every copy of the markdown suffix and then of the chain-of-thought suffix undoes appending them. |
| Prompts.IterateAddSuffix | planning/Planning.py:96-108 | `n` in-place appends of a suffix equal the content followed by `n` copies. |
| Text.StripKeepsFront | planning/Planning.py:113-126 | `replace(p, "")` leaves a front that holds no occurrence untouched. |
| Text.ContainsIffFound | planning/Planning.py:361 | Python `in` on strings holds exactly when `find` returns a position. |
| Prompts.UnwrapDecompose | planning/Planning.py:71-72 | The decomposition wrapper can be undone: unwrapping a wrapped question gives the question back. |
| Prompts.DecomposeInjective | planning/Planning.py:71-72 | Different questions give different wrapped questions. |
| Prompts.FewShot | planning/Planning.py:35-65 | There are eight few-shot messages, alternating user and assistant, and every user message is a wrapped question. |
| Planning.AppendEach | planning/Planning.py:67-68 | The example loop leaves exactly `AppendAll(old state, examples)`. |
| Planning.AppendAllStops | planning/Planning.py:67-68 | Once one append raises, the remaining appends are never reached. |
| Prompts.AppendAllFits | planning/Planning.py:67-68 | When the items fit under the threshold, or there is none, appending a list adds every item, in order, and exactly its tokens. The threshold is kept. |
| Prompts.TaskDecomposition | planning/Planning.py:28-77 | `add_task_decomposition_prompt` can raise only IndexError. Its result is stated by TaskDecompositionShape. |
| Prompts.CopyPopFits | planning/Planning.py:52-53 | When the copy's constructor keeps the system messages, popping the copy's last history message succeeds. It leaves the rebuilt system messages and the shortened history, and subtracts that message's tokens. |
| Planning.AddTaskDecompositionPrompt | planning/Planning.py:28-77 | It returns a fresh buffer equal to `TaskDecomposition(state)`, or the error that computation raises. |
| Prompts.TaskDecompositionShape | planning/Planning.py:28-77 | When the copy keeps its system messages and the derived count stays under the threshold (or there is none), the derived buffer is the caller's history minus its last message, then the eight examples, then the wrapped question. It has the matching token count and the caller's threshold. |
| Prompts.RephrasedUnwraps | planning/Planning.py:73-74 | The rewritten question message differs from the original only in its content, which unwraps to the original content. |
| Planning.Decide | planning/Planning.py:156-216 | Defines one pass of the retry loop: a reply answers. An authentication failure waits and retries outside developer mode. In developer mode it waits and retries on '1', switches to the typed model on '2', and re-raises otherwise. Its properties are stated by the PlainRetry lemmas. |
| Planning.PlainRetry | planning/Planning.py:155-216 | The retry loop consumes no more replies or inputs than it has. With a reply on the tape, its first request sends the given messages to the given model. With no replies it sends nothing and ends as unscripted. |
| Planning.PlainRetryWaitsForReply | planning/Planning.py:155-167 | Outside developer mode, every request carries the same model and messages and the loop never re-raises. It answers exactly when some reply exists, with the first reply, after one wait per earlier authentication failure. |
| Planning.PlainRetryModels | planning/Planning.py:200-211 | In developer mode, every request sends the same messages, either to the original model or to a model name the user typed. |
| Planning.SwitchModelExample | planning/Planning.py:203-209 | A worked case: choosing '2' and typing "gpt-4" sends the retry to gpt-4. |
| Planning.AttemptOnce | planning/Planning.py:156-216 | One pass of the loop sends one request with the current model. It then takes the outcome `Decide` computes from the reply and the inputs. |
| Planning.PlainLoop | planning/Planning.py:155-216 | The retry loop's effect on the world (requests, waits, inputs left) is exactly `PlainRetry`'s. |
| Planning.ExpertLoop | planning/Planning.py:169-198 | The expert-mode authentication handler consumes inputs, makes no tool calls and only adds requests. It never raises ValueError. |
| Planning.GetFirstResponse | planning/Planning.py:136-221 | The developer prompts are added before the retry loop and removed after it; a failure to add them is passed on. Outside expert mode the loop is `PlainRetry`, and `None` is returned only in expert mode. Requests are only added, and ValueError is never raised. |
| Planning.FunctionToCall | planning/Planning.py:224-249 | Each source error is its own outcome: no tool call, no registry, no index, an unknown name. The outcome is ValueError exactly when the arguments are malformed. Otherwise the next tool outcome becomes a `tool` message with the call's id and name. |
| Prompts.ToolResultMessage | planning/Planning.py:236-247 | A tool result message has role "tool" and the call's id and name. |
| Prompts.FailureHitsSentinel | planning/Planning.py:239-240 | A raised tool error always produces content containing "报错". |
| Prompts.ReturnedRoutesByText | planning/Planning.py:239-240 | A returned result routes to debugging exactly when its text contains "报错". |
| Prompts.FenceRoundTrip | planning/Planning.py:310-311 | `convert_to_markdown` is invertible: the fence gives back the code and the language. |
| Prompts.RenderCall | planning/Planning.py:320-325 | A rendering exists exactly when `sql_query` or `py_code` is non-empty. The rendered block parses back to the SQL query with language "sql" when that is set, and otherwise to the Python code with language "python". |
| Prompts.DebugPrompts | planning/Planning.py:364-376 | Efficient debugging sends one prompt; deep debugging in expert mode sends three. |
| Planning.FetchResponse | planning/Planning.py:269-279 | The first new request, when a reply exists, carries the buffer's messages with the developer prompts added as `get_first_response` adds them. In plan mode it carries the decomposition buffer derived from the buffer instead, and a failure to derive it ends the call with that error and no request. A plain first reply is returned as is after exactly that request, and the buffer is unchanged. Task decomposition stays on once requested. ValueError is never raised. |
| Planning.DeleteLast | planning/Planning.py:281-283 | `delete_some_messages` pops follow `PopTimes`, which stops at the first raise. |
| Planning.PopTimes | planning/Planning.py:281-283 | Repeated manual pops of the last message raise nothing but IndexError. |
| Planning.PopTimesTrims | planning/Planning.py:281-283 | On a buffer under its threshold, `n` pops of the last message remove exactly the last `n` history messages and their tokens. The buffer stays under the threshold, the system messages are kept, and `messages` is rebuilt from them and the shorter history. With fewer than `n` messages, the history is emptied with all its tokens and the next pop raises IndexError. |
| Planning.PopTimesStops | planning/Planning.py:281-283 | After the first raising pop, further pops change nothing. |
| Planning.OneChatResponse | planning/Planning.py:256-293 | Every turn only adds requests and never raises ValueError. Its first request carries the buffer's messages as `get_first_response` sends them, or in plan mode the decomposition buffer's. A plain text turn appends the reply to the buffer and issues exactly that one request. The returned buffer is the caller's or a fresh one. |
| Planning.AppendAndContinue | planning/Planning.py:393-398 | Appending two messages and recursing: an append that raises, or exhausted fuel, leaves the state of appending both and ends the turn with that error or `OutOfScript`. Otherwise the next turn's first request carries the buffer after both appends, or in plan mode the decomposition buffer derived from it. |
| Planning.DebugTurns | planning/Planning.py:382-392 | With no prompts, the debug buffer is returned untouched and nothing is requested. Otherwise the first prompt is appended and the first sub-turn runs with expert mode off. |
| Planning.HandleCodeResponse | planning/Planning.py:296-341 | No tool call or malformed JSON re-runs the turn without raising, with its first request carrying the unchanged buffer. Parsed arguments without SQL or Python text raise TypeError before anything is shown. Otherwise the rendered block is shown first, and the rest of the turn is `RunShownCall`'s. |
| Planning.RunShownCall | planning/Planning.py:330-341 | In developer mode, a dry input tape ends the turn with nothing changed. A choice other than '1' appends the call and the typed revision, and the next turn's first request carries that buffer. Otherwise the tool result is checked as `CheckFunctionResponse` states. A tool that cannot run leaves the buffer and the requests unchanged. |
| Planning.CheckFunctionResponse | planning/Planning.py:344-398 | Without "报错", the call and the result are appended to the caller's buffer and the turn goes on with that buffer. With it, the caller's buffer is untouched, and the first sub-turn requests the copy plus the call, the result and the first debugging prompt, with expert mode off. Any returned buffer is then the fresh debug copy. |
| Planning.ReviseAndContinue | planning/Planning.py:440-446 | The revise answer reads one line. With none left it gives `OutOfScript` and leaves the buffer alone. Otherwise the answer and the typed revision are appended as a user message, and the next turn runs with `delete_some_messages=2` and the same flags. An append that raises, or exhausted fuel, ends the turn with that error or `OutOfScript`; otherwise that turn's first request is stated. |
| Planning.RephraseAndContinue | planning/Planning.py:447-451 | The rephrase answer reads one line. With none left it gives `OutOfScript` and leaves the buffer alone. Otherwise the typed question becomes the last message's content, and the turn runs again with the same flags. An edit on an empty buffer raises IndexError; otherwise that turn's first request carries the edited buffer. |
| Planning.HandleTextResponse | planning/Planning.py:401-457 | Outside both modes the answer is appended and nothing is asked or requested. Choice '1' in developer mode appends the answer. In plan mode or in expert mode, '1' appends the answer and the proceed prompt, and the next turn runs with expert mode and plan mode off. In developer mode, expert mode or plan mode, '2' appends the answer and the typed question, and '3' replaces the last message with the typed question. Each then hands the buffer to the next turn with plan mode kept, and that turn's first request is stated. Any other choice ends the turn and leaves the buffer unchanged. A dry input tape gives `OutOfScript`. |
| Registry.IndexKeys | tools/AvailableFunctions.py:47 | `functions_dic` has exactly the names of the listed functions, each mapped to a listed function of that name. |
| Registry.IndexLastWins | tools/AvailableFunctions.py:47 | For duplicate names, the last function listed wins. |
| Registry.Build | tools/AvailableFunctions.py:33-51 | An empty list leaves the index and call mode unset. A non-empty list is indexed with the call mode, and descriptions are generated only when none are given. |
| Registry.AvailableFunctions.AddFunction | tools/AvailableFunctions.py:52-67 | The function is listed and indexed, its description is given or generated, and the call mode is updated only when a new one is given. Without an index the operation fails with TypeError after listing the function. |
| Registry.AddKeepsIndexed | tools/AvailableFunctions.py:59-60 | Re-indexing after `add_function` agrees with indexing the extended list. |
| Registry.Generate | tools/AvailableFunctions.py:81-117 | Defines `functions_generate`: one reply per function, in order, with the first unparseable reply raising ValueError. Its properties are stated by GenerateInOrder. |
| Registry.FunctionsGenerate | tools/AvailableFunctions.py:81-117 | The generation loop produces what `Generate` computes: one description per function, in order, or the first parse failure. |
| Registry.GenerateInOrder | tools/AvailableFunctions.py:87-116 | Successful generation yields one wrapped description per function, in the order listed. |
| Registry.Retry | tools/AvailableFunctions.py:120-135 | Defines the retry loop: a failed run is retried on the remaining replies until the last attempt, whose failure is raised. Its properties are stated by RetryFailsIff and RetryFirstSuccess. |
| Registry.AutoFunctions | tools/AvailableFunctions.py:74-136 | The retry loop is exactly `Retry(functions, replies, 4)`. |
| Registry.RetryFailsIff | tools/AvailableFunctions.py:120-133 | `auto_functions` raises exactly when all four attempts fail. |
| Registry.RetryFirstSuccess | tools/AvailableFunctions.py:124-135 | After k failed attempts, the outcome is that of a fresh retry with k fewer attempts on the remaining replies. |
| Registry.RetryEmpty | tools/AvailableFunctions.py:74-136 | An empty function list yields no descriptions and consumes no replies. |
| Tools.InsertFigObject | tools/Tools.py:88-121 | Defines `insert_fig_object` as written. Its properties and the duplication it shows are stated by the Tools lemmas below. |
| Tools.FirstOccurrenceIsLeast | tools/Tools.py:102-107 | The first plot occurrence is the least position of any alias, and -1 exactly when no alias occurs. |
| Tools.ExistingFigureKept | tools/Tools.py:98-99 | Code that already creates a figure is returned unchanged. |
| Tools.NoPlottingKept | tools/Tools.py:110-121 | Code without any plotting alias is returned unchanged. |
| Tools.PrologueBeforeFirstAlias | tools/Tools.py:117-118 | Without `plt.figure`, the figure prologue is inserted right before the first alias occurrence. |
| Tools.AssignBeforeFigureCall | tools/Tools.py:111-116 | When a `)` follows `plt.figure`, `fig = ` is inserted before it, as intended. |
| Tools.NoClosingDuplicatesPrefix | tools/Tools.py:111-116 | When no `)` follows `plt.figure`, the result is the prefix, `fig = `, then the entire code again. |
| Tools.DuplicationExample | tools/Tools.py:111-116 | On "a;plt.figure(" the code as written yields "a;fig = a;plt.figure(". |
| Tools.AsWrittenNotIdempotent | tools/Tools.py:88-121 | Applying the function as written twice to "a;plt.figure(" differs from applying it once. |
| Tools.IntendedExample | tools/Tools.py:111-116 | The corrected rewrite of "a;plt.figure(" is "a;fig = plt.figure(". |
| Tools.IntendedCreatesFigure | tools/Tools.py:98-119 | Whenever the corrected rewrite changes the code, the result creates a figure. |
| Tools.IntendedIdempotent | tools/Tools.py:88-121 | The corrected rewrite is idempotent. |
| CloudFile.Line | memory/CloudFile.py:58-67 | Defines one transcript line: `role: content` for a dict (with defaults) or a message object, and `str(msg)` otherwise. Its properties are stated by DictDefaults. |
| CloudFile.FormatContent | memory/CloudFile.py:57-68 | The formatting loop yields the lines joined with newlines. |
| CloudFile.Lines | memory/CloudFile.py:58-67 | There is one line per record, in order. |
| CloudFile.DictDefaults | memory/CloudFile.py:60-61 | A dict missing a role renders as "unknown", and one missing content renders with "". |
| CloudFile.SplitJoin | memory/CloudFile.py:68 | Splitting the joined transcript at newlines gives back the lines, when none contains a newline. |
| CloudFile.JoinLength | memory/CloudFile.py:68 | The joined length is the sum of the line lengths plus one separator between each pair of lines. |
| CloudFile.Project.AppendDocContent | memory/CloudFile.py:52-71 | The document gains exactly one paragraph: the formatted transcript. |
| Agent.ThresholdFor | action/iQueryAgent.py:40-52 | The threshold is the value of the first matching rule, tried in source order, else 3000. It is always one of 3000, 7000, 12000 or 110000. |
| Agent.FirstMatchIsFirst | action/iQueryAgent.py:41-48 | The first rule whose key occurs in the model name decides. |
| Agent.FirstMatchFallback | action/iQueryAgent.py:49-50 | When no key occurs, the fallback applies. |
| Agent.DefaultThreshold | action/iQueryAgent.py:16 | The default model `gpt-3.5-turbo-16k` gets 12000. |
| Agent.FirstRuleWins | action/iQueryAgent.py:41-44 | A name holding both "1106" and "16k" gets 110000. |
| Agent.FallbackThreshold | action/iQueryAgent.py:49-50 | `gpt-4` gets 3000. |
| Agent.Agent.constructor | action/iQueryAgent.py:14-64 | The buffer is built with the greeting question and the model's threshold, and the initial messages are appended when given. |
| Agent.Agent.Chat | action/iQueryAgent.py:70-99 | For a question, appending it either raises, which ends the chat with no request, or the first request carries the grown buffer as `get_first_response` sends it. For a plain text reply, the buffer is the result of appending the question and then the reply, after exactly one request. Requests are only added, and ValueError is never raised. Multi-turn chat ends normally only after the user types "退出". |
| Agent.Agent.Reset | action/iQueryAgent.py:101-105 | A fresh buffer with the system contents, the greeting and no threshold. |
| Agent.AsRecord | action/iQueryAgent.py:115 | Defines how an uploaded history message reaches `append_doc_content`: as a dict of its role and content. Its property is stated by RecordLines. |
| Agent.RecordLines | action/iQueryAgent.py:115 | Each uploaded history message becomes the line `role: content`. |
| Agent.Agent.UploadMessages | action/iQueryAgent.py:107-115 | Without a project nothing happens. Otherwise the formatted history becomes one new paragraph. |

## Left out

- The OpenAI client, the API key and base URL, and network errors other than
  `AuthenticationError`. The client is replaced by the `World` completion tape.
- tiktoken's counts come from a `Tokenizer` parameter (`str(message)` tokens
  and text tokens). No particular encoding is modelled.
- `display`, `print` and `Markdown` are left out. The one display that is
  logged (`World.shown`) is the fenced code block of `handle_code_response`.
  Answers, debug banners and guidance texts are not logged.
  `time.sleep(60)` is just a count of waits.
- When neither `sql_query` nor `py_code` is set, `handle_code_response` hands
  the argument dict itself to `Markdown`. IPython accepts only text there and
  raises TypeError. IPython is not part of this model, so that turn ends as
  `Failed(TypeError)` before anything is shown.
- The schemas of the tools (`tools=`, `tool_choice=`) are not part of the
  recorded request.
- Calling the Python tool itself (`fuction_to_call(**args)` with `globals()`
  injected) is only its next outcome on the tool tape: a returned string or
  a raised message.
- The tools `sql_inter`, `extract_data` and `python_inter` are not part of
  this model. They run SQL and Python code against external state.
- memory/CloudFile.py beyond `append_doc_content` (folder and document I/O,
  `get_doc_content`, `clear_content`, `delete_all_files`, `update_doc_list`,
  `rename_doc`, images) works on the file system. The document is a list of
  paragraphs.
- data/dataset_handle.py and main.py are not part of this model.
- JSON arguments that parse to something other than an object, and message
  content `None`, are not modelled. Arguments are either parsed fields or
  malformed.
- Python's shared mutable default arguments (`system_content_list=[]`,
  `functions_list=[]`) are not modelled to leak between instances. Each
  instance gets its own lists.
- Agent.Agent.Reset: rebuilds the buffer from the content list the agent was
  constructed with. In Python that list object is shared with the agent's
  MessageManager (action/iQueryAgent.py:37, 55), and `add_system_messages`
  extends it in place (memory/MessageManager.py:149-154). So after system
  messages were added, Python's `reset()` (action/iQueryAgent.py:105) also
  rebuilds with them. The model keeps the two lists apart.
- BufferSpec.DeleteSystem: Python's `self.messages = self.history_messages`
  makes the two one list object (memory/MessageManager.py:183). A later
  eviction that pops that list in place and then raises
  (memory/MessageManager.py:92-97) would empty `messages` too. The model
  tracks only shared elements, so `Pop`'s raise leaves `messages` as it was.
  The state needs a buffer already over its threshold, which only an earlier
  raise leaves behind.
- `ChatCompletionMessage` objects are modelled as the same message record as
  dictionaries. Attribute access and key access are the same.
- Agent.AsRecord: a completion-message object in the history is rendered
  through its role and content, as a dict would be. The `str(msg)` fallback
  is never reached.
- Planning.OneChatResponse: apart from the plain text turn, states the
  turn's first request, not what the handlers leave in the buffer. The
  handlers' own contracts state that, one turn deep.
- Planning.HandleCodeResponse: a re-run or re-ask is stated through the
  buffer handed to the next turn and that turn's first request. What the
  later turns do is not stated.
- Planning.CheckFunctionResponse: in deep debugging, the second and third
  prompts and the buffers the sub-turns return are not stated. Only the
  first sub-turn's request is.
- Planning.HandleTextResponse: for the choices that go on to another turn,
  states the buffer handed to that turn and its first request, in plan mode
  the decomposition buffer's, not what the later turns do.
- Planning.ExpertLoop: states frame facts only. The guidance request, the
  '退出' exit and the restart with the new question are not stated.
- Planning.GetFirstResponse: in expert mode, the guidance retry is stated
  only as leaving the buffer as the prompt addition left it.
- Planning.FetchResponse: in expert mode no request is stated, as for
  `get_first_response`. So the decomposition that follows a tool call in
  expert mode is stated only as staying on.
- Agent.Agent.Chat: the multi-turn loop promises only that a normal end
  follows a typed "退出". Each later turn's buffer is not stated.
- The recursion between `one_chat_response` and its handlers is bounded by a
  `fuel` argument. An exhausted fuel ends the turn as `OutOfScript`, which the
  unbounded Python recursion would not do.

## Findings

| source | as written | input that shows it | evidently intended | confidence | as-written member | corrected member |
|---|---|---|---|---|---|---|
| tools/Tools.py:111-116 | When no `)` follows `plt.figure`, `closing_bracket_index` is -1. The middle slice is then empty and the last slice is the whole code, so the prefix before `plt.figure` appears twice. | `"a;plt.figure("` gives `"a;fig = a;plt.figure("` | `fig = ` inserted before `plt.figure` and nothing duplicated: `"a;fig = plt.figure("` | not executed | Tools.DuplicationExample | Tools.IntendedIdempotent |
