# ActosVoice core, modelled in Dafny

ActosVoice is a voice-command library: a speech-recognition (ASR) provider
turns speech into transcripts, a language-model (LLM) provider turns a final
transcript into a tool call, and an orchestration controller connects the two
and runs the named tool. This project models:

- the contract types shared by all packages (`Types`, from
  packages/core/src/types.ts);
- the controller (`Controller`), as a class whose fields are the
  controller's own fields, plus the ordered trace `calls` of every call it
  makes on a provider, a listener or a tool, and the append-only `log` of
  logger calls;
- the Web Speech provider (`WebSpeech`), as a class whose fields stand for
  the browser recognizer's settings, its start/stop calls, the callback
  slots and the trace of callback calls; the recognizer's event handlers
  are methods a browser would call;
- the WebLLM provider (`WebLlm`): its configuration, its system-prompt
  selection, the fence stripping applied to the model's reply (as pure
  functions), and its loading/answering state machine (as a class);
- the demo's tool registry and system-prompt builder (`I18n` and the prompt
  prose in `Prompts`, from demo/src/i18n.ts);
- the JavaScript string operations these rely on (`Text`): `trim`,
  `replace` with a string pattern, `join` and `${n}`; `Text` also defines
  `Split`, which the source never calls, as the reference inverse of `join`
  in which the tool-list properties are stated.

Each `await` is split in two. One method runs up to the awaited call and
records it. A second method takes the way that call settled as a parameter
(`Outcome`, `ProcessTextOutcome`, `Completion`). Providers, listeners and
tools are reached only through recorded calls. Listeners and callbacks are
named by opaque numbers.

`Scenarios` and the client methods at the end of `WebSpeech` and `WebLlm`
exercise the classes in construction, interim fragments followed by a final
transcript, a transcript dropped during a cycle, a configured and an unknown
tool, failures, stop followed by end, and a language switch while listening.

## Model

| member | source | states |
|---|---|---|
| Types.LanguageCodes | packages/core/src/types.ts:2 | a language is exactly 'en' or 'pt': both codes parse back to their language and no other string parses |
| Types.AsrStateNames | packages/core/src/types.ts:1 | the recognizer has exactly the four states idle, listening, processing and error, each with its literal |
| Types.LlmStateNames | packages/core/src/types.ts:15 | the model has exactly the five states unloaded, loading, ready, processing and error, each with its literal |
| Types.Invoke | demo/src/i18n.ts:77-101 | the action call made by one of the demo's two `execute` shapes; what each demo tool's `execute` does is stated by I18n.GetToolsActions |
| Types.LookupFound | packages/core/src/controller.ts:94-96 | `tools[name]` on own entries finds a tool exactly when the name is a key, and the tool found is the one stored under that key |
| Types.Lookup | packages/core/src/controller.ts:94-96 | `this.tools[name]` restricted to own entries; stated by Types.LookupFound |
| Text.TrimStartIndex | packages/core/src/controller.ts:71 | the leading run that `trim` removes is all whitespace and stops at the first character that is not |
| Text.TrimEndIndex | packages/core/src/controller.ts:71 | the trailing run that `trim` removes is all whitespace and starts after the last character that is not |
| Text.Trim | packages/core/src/controller.ts:71 | `trim()`: the input without the runs Text.TrimStartIndex and Text.TrimEndIndex describe; Text.TrimNonEmpty and Text.TrimIsInfix state what callers use |
| Text.TrimNonEmpty | packages/core/src/controller.ts:71 | `text.trim().length > 0` holds exactly when the text contains a character that is not whitespace |
| Text.TrimIsInfix | packages/llm-webllm/src/index.ts:103 | the trimmed string is a contiguous slice of the original |
| Text.ReplaceFirstAbsent | demo/src/i18n.ts:48 | `replace` leaves a string with no occurrence of the pattern unchanged |
| Text.ReplaceFirstAfter | demo/src/i18n.ts:48 | when the text before an occurrence cannot hold the pattern's first character, that occurrence is the first one, and only it is replaced, whatever follows |
| Text.ReplaceFirst | demo/src/i18n.ts:48 | `replace` with a string pattern; Text.ReplaceFirstAbsent and Text.ReplaceFirstAfter state which occurrence it replaces |
| Text.JoinAvoids | demo/src/i18n.ts:45-47 | a character in neither the parts nor the separator is not in their join |
| Text.Join | demo/src/i18n.ts:47 | `join(sep)`; Text.JoinAvoids and Text.SplitJoin state what it keeps and that it can be undone |
| Text.Split | demo/src/i18n.ts:45-47 | not a call of the source: the reference inverse of `join('\n')` in which Text.SplitJoin and I18n.ToolsListLines are stated; it always yields at least one part |
| Text.SplitJoin | demo/src/i18n.ts:47 | splitting a join of separator-free parts at the separator gives back exactly the parts |
| Text.NatToString | demo/src/i18n.ts:46 | `${n}` is a non-empty string of decimal digits |
| Text.NatToStringRoundTrip | demo/src/i18n.ts:46 | reading the digits of `${n}` back gives n |
| Prompts.NoBraceInBeforePieces | demo/src/i18n.ts:3-42 | in both templates no '{' occurs before the `{{TOOLS}}` placeholder |
| I18n.NoBraceBeforePlaceholder | demo/src/i18n.ts:3-42 | the text of each template before its placeholder contains no '{' |
| I18n.TemplateHasPlaceholder | demo/src/i18n.ts:11 | each template contains `{{TOOLS}}`, and its first occurrence is where the tool list goes |
| I18n.PromptTemplate | demo/src/i18n.ts:3-42 | `PROMPTS[lang]`, as the prose before the placeholder, the placeholder and the prose after; stated by I18n.TemplateHasPlaceholder and I18n.NoBraceBeforePlaceholder |
| I18n.ParamKeys | demo/src/i18n.ts:46 | `Object.keys(parameters)`: the parameter names in the object's own-property order; the lists it yields for the demo tools are stated by I18n.GetToolsParameters |
| I18n.ParamList | demo/src/i18n.ts:46 | the parameter names joined by ", ", or nothing without parameters; stated for the demo tools by I18n.GetToolsParameters |
| I18n.ToolLines | demo/src/i18n.ts:45-46 | the `map` over `Object.values(tools)`; that the list splits back into exactly these lines, one per tool, is I18n.ToolsListLines, and that each line's number is its 1-based position is I18n.ToolLineNumber |
| I18n.ToolLine | demo/src/i18n.ts:46 | the template string for one tool; I18n.ToolLineNumber states that it starts with its number |
| I18n.ToolsList | demo/src/i18n.ts:45-47 | `toolsList`; I18n.ToolsListEmpty and I18n.ToolsListLines state what it holds |
| I18n.GetSystemPrompt | demo/src/i18n.ts:44-49 | the prompt is the template with its first placeholder, and only that one, replaced by the tool list |
| I18n.ToolsListEmpty | demo/src/i18n.ts:45-47 | the tool list is the empty string exactly when the tool map is empty, so an empty map replaces the placeholder by nothing |
| I18n.ToolsListLines | demo/src/i18n.ts:45-47 | splitting the tool list at newlines gives back the tool lines, one per tool, when no tool text holds a newline |
| I18n.ToolLineNumber | demo/src/i18n.ts:46 | each line starts with its 1-based position, which reads back from the text before the first '.' |
| I18n.GetToolsKeys | demo/src/i18n.ts:72-102 | the demo map has exactly the keys set_bg_color, toggle_sidebar, open_modal, close_modal and close_session, in that order |
| I18n.GetToolsNames | demo/src/i18n.ts:53-75 | every tool is named after its key and described from the given language's table |
| I18n.GetToolsActions | demo/src/i18n.ts:77-101 | every tool calls the action of its own name, passing its arguments on when it declares parameters and an empty object when it does not |
| I18n.GetToolsParameters | demo/src/i18n.ts:76-100 | set_bg_color declares exactly `color`, toggle_sidebar exactly `open`, and the other three declare none |
| I18n.GetTools | demo/src/i18n.ts:51-104 | `getTools(lang, actions)`; its keys, names, descriptions, actions and parameters are stated by I18n.GetToolsKeys, I18n.GetToolsNames, I18n.GetToolsActions and I18n.GetToolsParameters |
| I18n.Description | demo/src/i18n.ts:53-70 | the per-language description strings; that every demo tool is described from it is I18n.GetToolsNames |
| WebLlm.DefaultPromptsDiffer | packages/llm-webllm/src/index.ts:10-17 | the two default prompts are non-empty and different |
| WebLlm.DefaultSystemPrompt | packages/llm-webllm/src/index.ts:10-17 | `DEFAULT_SYSTEM_PROMPTS[lang]`; stated by WebLlm.DefaultPromptsDiffer and WebLlm.SystemPromptSelection |
| WebLlm.ResolveConfig | packages/llm-webllm/src/index.ts:28-33 | the constructor's defaults; stated by WebLlm.ResolveConfigDefaults |
| WebLlm.MergeConfig | packages/llm-webllm/src/index.ts:35-37 | the shallow spread; stated by WebLlm.MergeConfigLaws |
| WebLlm.SelectSystemPrompt | packages/llm-webllm/src/index.ts:89 | the configured prompt or else the language's default; stated by WebLlm.SystemPromptSelection |
| WebLlm.StripFences | packages/llm-webllm/src/index.ts:103 | the global regex replace, scanning left to right; stated by WebLlm.StripLeavesNoFence, WebLlm.StripWithoutFence and WebLlm.StripIdempotent |
| WebLlm.CleanContent | packages/llm-webllm/src/index.ts:100-103 | the text given to `JSON.parse`; stated by WebLlm.CleanContentHasNoFence and WebLlm.CleanEmptyReply |
| WebLlm.ResolveConfigDefaults | packages/llm-webllm/src/index.ts:28-33 | an absent or empty model id selects the built-in model, so the model id is never empty; the system prompt is empty exactly when none or an empty one was given |
| WebLlm.MergeConfigLaws | packages/llm-webllm/src/index.ts:35-37 | the shallow merge: an empty patch changes nothing, a patch applied twice acts once, and two patches act as one combined patch in which the later one wins |
| WebLlm.SystemPromptSelection | packages/llm-webllm/src/index.ts:89 | the prompt sent is never empty; a non-empty configured prompt is used whatever the language, and otherwise the language's default prompt is used |
| WebLlm.FencePatternStart | packages/llm-webllm/src/index.ts:103 | every alternative of the fence pattern begins with three backticks |
| WebLlm.StripKeepsHead | packages/llm-webllm/src/index.ts:103 | where no fence begins, the first character is kept and the scan moves on by one |
| WebLlm.StripKeepsLeadingTick | packages/llm-webllm/src/index.ts:103 | a backtick at the front of the stripped text was a backtick at the front of the input |
| WebLlm.StripKeepsLeadingTicks | packages/llm-webllm/src/index.ts:103 | two backticks at the front of the stripped text were two backticks at the front of the input |
| WebLlm.StripLeavesNoFence | packages/llm-webllm/src/index.ts:103 | after the global replace no "```" remains, including one formed across a removed fence |
| WebLlm.StripWithoutFence | packages/llm-webllm/src/index.ts:103 | a text without "```" is left unchanged |
| WebLlm.StripIdempotent | packages/llm-webllm/src/index.ts:103 | stripping twice is stripping once |
| WebLlm.NoFenceInfix | packages/llm-webllm/src/index.ts:103 | a slice of a fence-free text is fence-free, so trimming keeps it so |
| WebLlm.CleanContentHasNoFence | packages/llm-webllm/src/index.ts:100-103 | the text handed to `JSON.parse` never contains "```" |
| WebLlm.CleanEmptyReply | packages/llm-webllm/src/index.ts:100 | a missing or empty reply is parsed as "{}" |
| WebLlm.WebLlmProvider.constructor | packages/llm-webllm/src/index.ts:19-33 | a new provider is `unloaded` with no engine, the configuration resolved with its defaults, language 'en' and no callbacks |
| WebLlm.WebLlmProvider.UpdateConfig | packages/llm-webllm/src/index.ts:35-37 | the configuration becomes the shallow merge of the old one with the patch |
| WebLlm.WebLlmProvider.SetLanguage | packages/llm-webllm/src/index.ts:39-41 | only the language is recorded |
| WebLlm.WebLlmProvider.OnProgress | packages/llm-webllm/src/index.ts:52-54 | the progress callback becomes the given one |
| WebLlm.WebLlmProvider.OnStateChange | packages/llm-webllm/src/index.ts:56-58 | the state callback becomes the given one |
| WebLlm.WebLlmProvider.SetState | packages/llm-webllm/src/index.ts:47-50 | the state becomes the given one and the state callback, if any, hears it |
| WebLlm.WebLlmProvider.BeginInit | packages/llm-webllm/src/index.ts:60-74 | with an engine present nothing changes; otherwise the state becomes loading, and then either error without an engine (no GPU support) or an engine exists and the configured model is being loaded |
| WebLlm.WebLlmProvider.SettleInit | packages/llm-webllm/src/index.ts:74-79 | a successful reload ends in ready; a failed one ends in error and its error is passed on |
| WebLlm.WebLlmProvider.BeginProcessText | packages/llm-webllm/src/index.ts:82-98 | without an engine or outside ready the call is rejected with 'LLM not ready' and nothing changes; otherwise the state becomes processing and the selected system prompt is sent with the user's text |
| WebLlm.WebLlmProvider.SettleProcessText | packages/llm-webllm/src/index.ts:95-111 | a parsed reply is returned and the state returns to ready; a failed completion or parse ends in error and its error is passed on |
| WebSpeech.SpeechLangInjective | packages/asr-webspeech/src/index.ts:32 | 'pt' maps to 'pt-BR' and 'en' to 'en-US', so different languages get different tags |
| WebSpeech.SpeechLang | packages/asr-webspeech/src/index.ts:32 | the language-to-tag mapping; stated by WebSpeech.SpeechLangInjective |
| WebSpeech.ConfiguredLang | packages/asr-webspeech/src/index.ts:24 | the configured tag or else 'en-US'; stated by the ensures of WebSpeech.WebSpeechProvider.constructor |
| WebSpeech.FlagOrTrue | packages/asr-webspeech/src/index.ts:25-26 | `flag ?? true`; stated by the ensures of WebSpeech.WebSpeechProvider.constructor |
| WebSpeech.Finals | packages/asr-webspeech/src/index.ts:60-64 | the final emissions of a result run; stated by WebSpeech.FinalsAreTheFinalResults and WebSpeech.FinalsConcat |
| WebSpeech.Interim | packages/asr-webspeech/src/index.ts:65 | the interim text of a result run; stated by WebSpeech.InterimConcat and WebSpeech.SegmentSingle |
| WebSpeech.Segment | packages/asr-webspeech/src/index.ts:57-72 | the emissions of one result event; stated by WebSpeech.SegmentShape and WebSpeech.SegmentSingle |
| WebSpeech.SegmentSingle | packages/asr-webspeech/src/index.ts:60-67 | a single final result is emitted on its own; a single interim result only adds its text to the interim part |
| WebSpeech.FinalsConcat | packages/asr-webspeech/src/index.ts:60-67 | the final emissions of consecutive result runs come in index order |
| WebSpeech.InterimConcat | packages/asr-webspeech/src/index.ts:65 | the interim text of consecutive result runs is their interim texts concatenated in index order |
| WebSpeech.FinalsAreTheFinalResults | packages/asr-webspeech/src/index.ts:62-63 | there is exactly one emission per final result, each final and carrying a final result's transcript |
| WebSpeech.SegmentShape | packages/asr-webspeech/src/index.ts:57-72 | in one result event at most one emission is interim; it comes last, and it is there exactly when the interim text is non-empty |
| WebSpeech.DeliveriesConcat | packages/asr-webspeech/src/index.ts:63-70 | the callback calls for consecutive emissions are their calls in order |
| WebSpeech.WebSpeechProvider.constructor | packages/asr-webspeech/src/index.ts:17-29 | the language is the configured one, or 'en-US' when it is absent or empty; continuous and interim results default to on; the state is idle |
| WebSpeech.WebSpeechProvider.Create | packages/asr-webspeech/src/index.ts:17-21 | without the browser's speech-recognition API there is no provider; with it, the provider is configured as the constructor says |
| WebSpeech.WebSpeechProvider.SetLanguage | packages/asr-webspeech/src/index.ts:31-41 | the recognizer gets the language's tag; an unchanged tag does nothing else, and a changed one stops the recognizer exactly when it is listening |
| WebSpeech.WebSpeechProvider.SetState | packages/asr-webspeech/src/index.ts:47-50 | the state becomes the given one and the state callback, if any, hears it |
| WebSpeech.WebSpeechProvider.HandleStart | packages/asr-webspeech/src/index.ts:53-55 | the start event sets listening |
| WebSpeech.WebSpeechProvider.HandleResult | packages/asr-webspeech/src/index.ts:57-72 | a result event delivers, from resultIndex on, each final transcript on its own as final and in order, and then the interim transcripts joined, once, as not final, if that text is non-empty |
| WebSpeech.WebSpeechProvider.EmitFinals | packages/asr-webspeech/src/index.ts:58-67 | the loop delivers the final transcripts in order and returns the interim transcripts concatenated |
| WebSpeech.WebSpeechProvider.Emit | packages/asr-webspeech/src/index.ts:63 | the transcript callback, if any, is called once with the text and the flag |
| WebSpeech.WebSpeechProvider.HandleError | packages/asr-webspeech/src/index.ts:74-77 | an error sets the error state, then the error callback hears the error |
| WebSpeech.WebSpeechProvider.HandleEnd | packages/asr-webspeech/src/index.ts:79-85 | the end event restarts the recognizer while listening, and otherwise sets idle |
| WebSpeech.WebSpeechProvider.Start | packages/asr-webspeech/src/index.ts:88-90 | the recognizer is started once |
| WebSpeech.WebSpeechProvider.Stop | packages/asr-webspeech/src/index.ts:92-96 | idle is set before the recognizer is stopped, so the end event that follows cannot restart it, and the state callback hears idle |
| WebSpeech.WebSpeechProvider.OnTranscript | packages/asr-webspeech/src/index.ts:98-100 | a registration replaces the transcript callback held before |
| WebSpeech.WebSpeechProvider.OnStateChange | packages/asr-webspeech/src/index.ts:102-104 | a registration replaces the state callback held before |
| WebSpeech.WebSpeechProvider.OnError | packages/asr-webspeech/src/index.ts:106-108 | a registration replaces the error callback held before |
| Controller.LanguageCallsReach | packages/core/src/controller.ts:50-57 | the language reaches exactly the providers that define `setLanguage`, each once and with the current language, the recognizer first; nothing else is called |
| Controller.LanguageCalls | packages/core/src/controller.ts:50-57 | the calls `updateInstancesLanguage` makes; stated by Controller.LanguageCallsReach |
| Controller.SubscribeCalls | packages/core/src/controller.ts:66-79 | the two registrations `setupListeners` makes, transcript handler first; stated by the ensures of Controller.ActosVoiceController.SetupListeners |
| Controller.DeliverAllShape | packages/core/src/controller.ts:69 | each listener is called once with the transcript, in registration order |
| Controller.DeliveriesUncounted | packages/core/src/controller.ts:69 | fanning a transcript out to listeners calls neither `processText` nor a tool |
| Controller.ToolBudget | packages/core/src/controller.ts:88-97 | the tool runs the cycle opened last may still make: one per `processText` call, used up by a tool run; stated by Controller.OneToolPerCycle |
| Controller.OneToolPerCycle | packages/core/src/controller.ts:88-97 | in a trace that keeps its budget, a `processText` call lies between any two tool runs, so no reply runs two tools |
| Controller.ToolRunNeedsProcessText | packages/core/src/controller.ts:88-97 | in a trace that keeps its budget, a `processText` call comes before every tool run |
| Controller.TwoToolsInOneCycleOverspend | packages/core/src/controller.ts:88-97 | two `processText` calls followed by two tool runs do not keep the budget |
| Controller.DeliverAll | packages/core/src/controller.ts:69 | the `forEach` fan-out; stated by Controller.DeliverAllShape and Controller.DeliveriesUncounted |
| Controller.RemoveAll | packages/core/src/controller.ts:62 | after unsubscribing, the callback is gone and only registered listeners remain |
| Controller.RemoveAllConcat | packages/core/src/controller.ts:62 | unsubscribing keeps the other listeners in their original order |
| Controller.RemoveAllCounts | packages/core/src/controller.ts:62 | unsubscribing removes every copy of the callback and keeps every other listener as often as it was registered |
| Controller.RemoveAllUndoesPush | packages/core/src/controller.ts:59-64 | subscribing a new callback and unsubscribing it restores the listener list, and a second unsubscribe changes nothing |
| Controller.ShouldResolveMeans | packages/core/src/controller.ts:71 | a resolution starts exactly for a final transcript that has a character that is not whitespace |
| Controller.ShouldResolve | packages/core/src/controller.ts:71 | the guard before `processLLM`; stated by Controller.ShouldResolveMeans |
| Controller.Dispatch | packages/core/src/controller.ts:90-103 | a result naming no tool (null or '') does nothing; a configured name runs the tool stored under it; any other name only warns |
| Controller.DispatchAgreement | packages/core/src/controller.ts:94-102 | the dispatch as written and the corrected one agree exactly when the name is not an inherited `Object.prototype` member missing from the map |
| Controller.DispatchAsWritten | packages/core/src/controller.ts:94-102 | the dispatch as written, where `this.tools[name]` also sees inherited members; stated by Controller.DispatchAgreement and Controller.InheritedNameMisreported |
| Controller.NamesTool | packages/core/src/controller.ts:94 | the truthiness test on `result.tool`: a name that is neither null nor ''; stated by the DoNothing case of Controller.Dispatch |
| Controller.InheritedNameMisreported | packages/core/src/controller.ts:94-102 | a result naming "toString" with no such tool is taken for a tool as written, but warned about by the corrected dispatch |
| Controller.ActosVoiceController.constructor | packages/core/src/controller.ts:14-22 | tools default to the empty map and the language to 'en'; the recognizer is subscribed to, then every provider with `setLanguage` gets the language; no cycle is running |
| Controller.ActosVoiceController.SetLanguage | packages/core/src/controller.ts:24-31 | `getLanguage` then returns the language, and every provider with `setLanguage` has just received it |
| Controller.ActosVoiceController.GetLanguage | packages/core/src/controller.ts:29-31 | the current language; the ensures of Controller.ActosVoiceController.SetLanguage and Controller.ActosVoiceController.UpdateConfig state what it returns |
| Controller.ActosVoiceController.UpdateConfig | packages/core/src/controller.ts:33-48 | each supplied field replaces the old one and the others stay; a new recognizer is subscribed to; the current providers get the language last, whatever was supplied |
| Controller.ActosVoiceController.UpdateInstancesLanguage | packages/core/src/controller.ts:50-57 | the providers that define `setLanguage` get the current language, and no cycle is started or tool run |
| Controller.ActosVoiceController.SetupListeners | packages/core/src/controller.ts:66-79 | the recognizer's transcript handler is registered, then its error handler |
| Controller.ActosVoiceController.OnTranscript | packages/core/src/controller.ts:59-61 | the callback is appended, and the returned subscription removes that callback |
| Controller.ActosVoiceController.Unsubscribe | packages/core/src/controller.ts:61-63 | the listeners become the old ones with every copy of the callback filtered out |
| Controller.ActosVoiceController.HandleTranscript | packages/core/src/controller.ts:67-74 | every listener hears the transcript first; a final non-blank one then calls `processText` unless a cycle is running, in which case it is dropped without a trace |
| Controller.ActosVoiceController.NotifyListeners | packages/core/src/controller.ts:69 | the `forEach` calls every listener in order |
| Controller.ActosVoiceController.BeginResolve | packages/core/src/controller.ts:81-88 | while a cycle runs nothing happens; otherwise the flag is set and `processText` is called with the text |
| Controller.ActosVoiceController.EndCycle | packages/core/src/controller.ts:106-108 | the `finally` clause clears the flag and ends the cycle |
| Controller.ActosVoiceController.SettleText | packages/core/src/controller.ts:88-108 | a throw is logged as an LLM error and null does nothing; otherwise the tool map as it is now decides between running the tool once with the result's arguments, one warning, or nothing; every ending except a tool run clears the flag |
| Controller.ActosVoiceController.SettleTool | packages/core/src/controller.ts:95-108 | a failed tool is logged as a tool error; either way the cycle ends and the flag is cleared |
| Controller.ActosVoiceController.HandleAsrError | packages/core/src/controller.ts:76-78 | a recognizer error is only logged |
| Controller.ActosVoiceController.Start | packages/core/src/controller.ts:111-114 | the model is initialised first; if that fails its error is passed on and the recognizer is never started |
| Controller.ActosVoiceController.Stop | packages/core/src/controller.ts:116-118 | only the recognizer is stopped, and its outcome is passed on |

The controller's invariant `Valid()` holds on construction and is kept by
every method. It says:

- the flag is set exactly while a cycle is suspended;
- every `processText` call in the trace belongs to one cycle, either ended
  or current;
- tool runs never outnumber `processText` calls, and are fewer while a
  reply is awaited;
- no cycle runs more than one tool: the trace keeps its tool budget
  (`BudgetKept`). By `OneToolPerCycle` and `ToolRunNeedsProcessText`, this
  means a `processText` call comes before every tool run and between any
  two of them, and the cycle awaiting its reply has run none yet.

## Left out

- I/O, timing and concurrency: awaits are begin/settle pairs with the settled
  outcome as a parameter. Interleavings other than those the single-flight
  flag guards are not modelled.
- The browser recognizer, WebGPU, the inference engine and `JSON.parse` are
  not modelled. Their behaviour enters only as parameters: `apiPresent`,
  `gpuAvailable`, the `reload` and completion outcomes, and the `parse`
  function.
- Progress reporting: the engine's progress callback and its floating-point
  percentage are left out. `OnProgress` only records the registration.
- The controller's `start` is one step that takes the outcomes of
  `llm.init()` and `asr.start()`, not two suspensions.
- Controller.ActosVoiceController.SetupListeners: registering a new
  recognizer does not unsubscribe the old one, and the old recognizer's
  events are then still handled. The model records the subscription calls
  but has only one recognizer, the current one, delivering events.
- Controller.ActosVoiceController.SettleText: follows the corrected
  dispatch `Controller.Dispatch`, so for a name such as "toString" that the
  tool map does not hold it logs the "not found" warning. The code as
  written takes the inherited member for a tool, and its missing `execute`
  is logged as a tool error; that behaviour is modelled only on values, by
  `Controller.DispatchAsWritten` (see "## Findings").
- A `ToolMap` is the object's own properties in own-property order, which
  for integer-like keys ("1", "2", …) is ascending numeric order rather than
  the order of definition. The model takes that order as given and does not
  compute it from a sequence of definitions; no key of the demo tools is
  integer-like.
- Listener callbacks and tool `execute` bodies are opaque. A listener that
  throws, or that subscribes or unsubscribes during the fan-out, is not
  modelled.
- Tool arguments are modelled as flat JSON values (null, boolean, integer,
  string). Nested objects, arrays and floating point are not modelled,
  because the controller only passes them on.
- `String.prototype.replace` special replacement patterns (`$&`, `$1`, …) are
  not modelled; no description or parameter name of the demo tools contains
  a `$`.
- `Partial<ActosVoiceConfig>` with a key present but holding `undefined` is
  treated like an absent key, as the truthiness test in `updateConfig` does.
- `WebLLMConfig` keys explicitly set to `undefined` in an `updateConfig`
  patch are modelled as absent keys. In the source, the spread copies them
  over.
- The demo's UI strings, React components and hooks, the logger's
  formatting and the build configuration are not part of this model.

## Findings

| source | as written | input that shows it | evidently intended | confidence | as-written member | corrected member |
|---|---|---|---|---|---|---|
| packages/core/src/controller.ts:94-102 | `this.tools[result.tool]` also finds the members every object inherits from `Object.prototype`, so a name such as "toString" counts as a configured tool; calling its missing `execute` throws, which is logged as a failed tool run | a model reply `{"tool": "toString", "args": null}` with no tool of that name | a name with no own entry in the tool map gets the "not found in config.tools" warning and runs nothing | not executed | Controller.DispatchAsWritten, Controller.InheritedNameMisreported | Controller.Dispatch |
