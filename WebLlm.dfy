/**
 * The in-browser language-model provider (packages/llm-webllm/src/index.ts):
 * its configuration, the system prompt it sends, the clean-up of the
 * model's reply before it is parsed, and the state machine around loading
 * the model and answering one utterance at a time.
 *
 * The inference engine is reduced to whether it exists; what `reload` and
 * `chat.completions.create` do, and what `JSON.parse` makes of the reply,
 * reach the model as outcomes passed to the methods that settle those calls.
 */
module WebLlm {
  import opened Types
  import opened Text

  const DefaultModel: string := "Llama-3.2-1B-Instruct-q4f16_1-MLC"

  /** `DEFAULT_SYSTEM_PROMPTS.en`, written in short pieces. */
  const EnDefaultPrompt: string :=
    "You are an assistant that "
    + "detects user commands and "
    + "returns tool calls in JSON.\n"
    + "Always respond ONLY with "
    + "valid JSON.\n"
    + "If there is no clear command, "
    + "respond with tool: null."

  /** `DEFAULT_SYSTEM_PROMPTS.pt`, written in short pieces. */
  const PtDefaultPrompt: string :=
    "Voc\U{00EA} \U{00E9} um assistente "
    + "que detecta comandos do "
    + "usu\U{00E1}rio e retorna chamadas "
    + "de ferramentas em JSON.\n"
    + "Sempre responda APENAS com "
    + "JSON v\U{00E1}lido.\n"
    + "Se n\U{00E3}o houver comando claro, "
    + "responda com tool: null."

  /** `DEFAULT_SYSTEM_PROMPTS[lang]`. */
  function DefaultSystemPrompt(lang: Language): string
  {
    match lang
    case En => EnDefaultPrompt
    case Pt => PtDefaultPrompt
  }

  /** The two default prompts are non-empty and differ (they open with different words). */
  lemma DefaultPromptsDiffer()
    ensures |DefaultSystemPrompt(En)| > 0 && |DefaultSystemPrompt(Pt)| > 0
    ensures DefaultSystemPrompt(En) != DefaultSystemPrompt(Pt)
  {
    assert DefaultSystemPrompt(En)[0] == 'Y';
    assert DefaultSystemPrompt(Pt)[0] == 'V';
  }

  /** `WebLLMConfig` as a caller passes it: every key optional. */
  datatype WebLlmConfig = WebLlmConfig(modelId: Option<string>, systemPrompt: Option<string>)

  /** `Required<WebLLMConfig>`: the configuration the provider holds. */
  datatype ResolvedConfig = ResolvedConfig(modelId: string, systemPrompt: string)

  /** The constructor's `modelId || DEFAULT_MODEL` and `systemPrompt || ''`. */
  function ResolveConfig(c: WebLlmConfig): ResolvedConfig
  {
    ResolvedConfig(
      if c.modelId.Some? && c.modelId.value != "" then c.modelId.value else DefaultModel,
      if c.systemPrompt.Some? then c.systemPrompt.value else "")
  }

  /**
   * An absent or empty model id selects the built-in model, and the model id
   * is never empty; the system prompt is empty exactly when none was given.
   */
  lemma ResolveConfigDefaults(c: WebLlmConfig)
    ensures ResolveConfig(c).modelId != ""
    ensures (c.modelId.None? || c.modelId.value == "") ==> ResolveConfig(c).modelId == DefaultModel
    ensures (c.modelId.Some? && c.modelId.value != "") ==> ResolveConfig(c).modelId == c.modelId.value
    ensures ResolveConfig(c).systemPrompt == "" <==> (c.systemPrompt.None? || c.systemPrompt.value == "")
  {
  }

  /** `{ ...cur, ...patch }`: every key the patch supplies overrides, every other key is kept. */
  function MergeConfig(cur: ResolvedConfig, patch: WebLlmConfig): ResolvedConfig
  {
    ResolvedConfig(
      match patch.modelId case Some(m) => m case None => cur.modelId,
      match patch.systemPrompt case Some(p) => p case None => cur.systemPrompt)
  }

  /** The patch that supplies every key of `q`, and the keys of `p` that `q` does not supply. */
  function CombinePatches(p: WebLlmConfig, q: WebLlmConfig): WebLlmConfig
  {
    WebLlmConfig(
      if q.modelId.Some? then q.modelId else p.modelId,
      if q.systemPrompt.Some? then q.systemPrompt else p.systemPrompt)
  }

  /**
   * The shallow merge: an empty patch changes nothing, applying a patch twice
   * is applying it once, and two patches in a row act as one combined patch
   * in which the later one wins.
   */
  lemma MergeConfigLaws(cur: ResolvedConfig, p: WebLlmConfig, q: WebLlmConfig)
    ensures MergeConfig(cur, WebLlmConfig(None, None)) == cur
    ensures MergeConfig(MergeConfig(cur, p), p) == MergeConfig(cur, p)
    ensures MergeConfig(MergeConfig(cur, p), q) == MergeConfig(cur, CombinePatches(p, q))
    ensures q.modelId.Some? ==> MergeConfig(MergeConfig(cur, p), q).modelId == q.modelId.value
  {
  }

  /** `this.config.systemPrompt || DEFAULT_SYSTEM_PROMPTS[this.language]`. */
  function SelectSystemPrompt(cfg: ResolvedConfig, lang: Language): string
  {
    if cfg.systemPrompt != "" then cfg.systemPrompt else DefaultSystemPrompt(lang)
  }

  /**
   * The prompt sent is never empty; a configured prompt is used as given,
   * whatever the language, and only without one does the language choose.
   */
  lemma SystemPromptSelection(cfg: ResolvedConfig, lang: Language)
    ensures |SelectSystemPrompt(cfg, lang)| > 0
    ensures cfg.systemPrompt != "" ==> SelectSystemPrompt(cfg, lang) == cfg.systemPrompt
    ensures cfg.systemPrompt != "" ==> SelectSystemPrompt(cfg, En) == SelectSystemPrompt(cfg, Pt)
    ensures cfg.systemPrompt == "" ==> SelectSystemPrompt(cfg, lang) == DefaultSystemPrompt(lang)
    ensures cfg.systemPrompt == "" ==> SelectSystemPrompt(cfg, En) != SelectSystemPrompt(cfg, Pt)
  {
    DefaultPromptsDiffer();
  }

  /**
   * `s.replace(/```json\n?|```/g, '')`: scanning from the left, remove each
   * "```json" with its newline if one follows, and each other "```".
   */
  function StripFences(s: string): (r: string)
    decreases |s|
  {
    if s == [] then []
    else if StartsWith(s, "```json\n") then StripFences(s[8..])
    else if StartsWith(s, "```json") then StripFences(s[7..])
    else if StartsWith(s, "```") then StripFences(s[3..])
    else [s[0]] + StripFences(s[1..])
  }

  predicate FenceAt(s: string, i: nat)
  {
    i + 2 < |s| && s[i] == '`' && s[i + 1] == '`' && s[i + 2] == '`'
  }

  ghost predicate NoFence(s: string)
  {
    forall i :: 0 <= i < |s| ==> !FenceAt(s, i)
  }

  /** Every pattern the regular expression matches begins with "```". */
  lemma FencePatternStart(s: string, p: string)
    requires |p| >= 3 && p[0] == '`' && p[1] == '`' && p[2] == '`'
    ensures StartsWith(s, p) ==> FenceAt(s, 0)
  {
    if StartsWith(s, p) {
      assert s[..|p|][0] == s[0] && s[..|p|][1] == s[1] && s[..|p|][2] == s[2];
    }
  }

  /** Where no fence begins, the first character is kept and the scan moves on by one. */
  lemma StripKeepsHead(s: string)
    requires |s| > 0 && !FenceAt(s, 0)
    ensures StripFences(s) == [s[0]] + StripFences(s[1..])
  {
    FencePatternStart(s, "```json\n");
    FencePatternStart(s, "```json");
    FencePatternStart(s, "```");
  }

  /** A backtick at the front of the result was a backtick at the front of the input. */
  lemma StripKeepsLeadingTick(s: string)
    ensures |StripFences(s)| > 0 && StripFences(s)[0] == '`' ==> |s| > 0 && s[0] == '`'
  {
    if |s| > 0 && !FenceAt(s, 0) {
      StripKeepsHead(s);
    }
  }

  /** Two backticks at the front of the result were two backticks at the front of the input. */
  lemma StripKeepsLeadingTicks(s: string)
    ensures |StripFences(s)| > 1 && StripFences(s)[0] == '`' && StripFences(s)[1] == '`' ==>
      |s| > 1 && s[0] == '`' && s[1] == '`'
  {
    if |s| > 0 && !FenceAt(s, 0) {
      StripKeepsHead(s);
      StripKeepsLeadingTick(s[1..]);
    }
  }

  /**
   * After stripping, no "```" is left, not even one formed by characters
   * that met across a removed fence.
   */
  lemma {:induction false} StripLeavesNoFence(s: string)
    ensures NoFence(StripFences(s))
    decreases |s|
  {
    if s == [] {
    } else if StartsWith(s, "```json\n") {
      StripLeavesNoFence(s[8..]);
    } else if StartsWith(s, "```json") {
      StripLeavesNoFence(s[7..]);
    } else if StartsWith(s, "```") {
      StripLeavesNoFence(s[3..]);
    } else {
      FencePatternStart(s, "```");
      StripKeepsHead(s);
      var rest := StripFences(s[1..]);
      var r := StripFences(s);
      StripLeavesNoFence(s[1..]);
      StripKeepsLeadingTicks(s[1..]);
      forall i | 0 <= i < |r|
        ensures !FenceAt(r, i)
      {
        if i > 0 {
          assert !FenceAt(rest, i - 1);
        }
      }
    }
  }

  /** A string without fences is left unchanged. */
  lemma {:induction false} StripWithoutFence(t: string)
    requires NoFence(t)
    ensures StripFences(t) == t
    decreases |t|
  {
    if t != [] {
      StripKeepsHead(t);
      assert NoFence(t[1..]) by {
        forall i | 0 <= i < |t[1..]|
          ensures !FenceAt(t[1..], i)
        {
          assert !FenceAt(t, i + 1);
        }
      }
      StripWithoutFence(t[1..]);
      assert [t[0]] + t[1..] == t;
    }
  }

  /** Stripping is idempotent. */
  lemma StripIdempotent(s: string)
    ensures StripFences(StripFences(s)) == StripFences(s)
  {
    StripLeavesNoFence(s);
    StripWithoutFence(StripFences(s));
  }

  lemma NoFenceInfix(s: string, i: nat, j: nat)
    requires NoFence(s) && i <= j <= |s|
    ensures NoFence(s[i..j])
  {
    forall k | 0 <= k < j - i
      ensures !FenceAt(s[i..j], k)
    {
      assert !FenceAt(s, i + k);
    }
  }

  /** `reply.choices[0].message.content || '{}'`, with fences stripped and then trimmed. */
  function CleanContent(content: Option<string>): string
  {
    var raw := if content.None? || content.value == "" then "{}" else content.value;
    Trim(StripFences(raw))
  }

  /** The text handed to the parser never holds a "```". */
  lemma CleanContentHasNoFence(content: Option<string>)
    ensures NoFence(CleanContent(content))
  {
    var raw := if content.None? || content.value == "" then "{}" else content.value;
    StripLeavesNoFence(raw);
    TrimIsInfix(StripFences(raw));
    var i, j :| 0 <= i <= j <= |StripFences(raw)| && Trim(StripFences(raw)) == StripFences(raw)[i..j];
    NoFenceInfix(StripFences(raw), i, j);
  }

  /** A missing or empty reply is parsed as the empty object "{}". */
  lemma CleanEmptyReply(content: Option<string>)
    requires content.None? || content.value == ""
    ensures CleanContent(content) == "{}"
  {
    var s: string := "{}";
    assert !FenceAt(s, 0) && !FenceAt(s[1..], 0);
    StripKeepsHead(s);
    StripKeepsHead(s[1..]);
    assert s[1..][1..] == [];
    assert StripFences(s) == s;
    assert TrimStartIndex(s) == 0;
    assert TrimEndIndex(s, 0) == 2;
    assert s[0..2] == s;
  }

  /** The two messages of a completion request: the system prompt, then the user's text. */
  datatype ChatRequest = ChatRequest(systemPrompt: string, userText: string)

  /** How `engine.chat.completions.create` settles: a reply whose first choice may lack content, or an error. */
  datatype Completion = Completed(content: Option<string>) | CompletionFailed(error: string)

  /** What `JSON.parse` (with the cast to ToolCallResult) makes of a text: a result, null, or a syntax error. */
  datatype ParseOutcome = Parsed(value: Option<ToolCallResult>) | ParseFailed(error: string)

  /** How `init()` proceeds up to its first suspension. */
  datatype InitStep = AlreadyInitialized | InitRejected(error: string) | AwaitingReload(modelId: string)

  /** How `processText(text)` proceeds up to its first suspension. */
  datatype TextStep = NotReady(error: string) | AwaitingCompletion(request: ChatRequest)

  /** A call of the registered state-change callback. */
  datatype StateNotice = StateNotice(callback: nat, state: LlmState)

  function Notices(cb: Option<nat>, s: LlmState): seq<StateNotice>
  {
    if cb.Some? then [StateNotice(cb.value, s)] else []
  }

  class WebLlmProvider {
    const id: string
    var state: LlmState
    /** Whether `this.engine` is non-null. */
    var hasEngine: bool
    var config: ResolvedConfig
    var language: Language
    var progressCallback: Option<nat>
    var stateCallback: Option<nat>
    /** Every call of the state-change callback so far. */
    var notices: seq<StateNotice>
    /** The model ids passed to `engine.reload`, in order. */
    var reloads: seq<string>
    /** The completion requests sent to the engine, in order. */
    var requests: seq<ChatRequest>

    /**
     * The engine exists in every state past `unloaded` except an error that
     * struck before it was created; it never exists while `unloaded`. Every
     * method keeps it, and `ProcessScenario` relies on it to know that a
     * ready provider has an engine.
     */
    ghost predicate Valid()
      reads this
    {
      && (state == LlmState.Unloaded ==> !hasEngine)
      && (state in {LlmState.Loading, LlmState.Ready, LlmState.Processing} ==> hasEngine)
    }

    constructor (c: WebLlmConfig)
      ensures Valid()
      ensures id == "web-llm" && state == LlmState.Unloaded && !hasEngine
      ensures config == ResolveConfig(c) && language == En
      ensures progressCallback == None && stateCallback == None
      ensures notices == [] && reloads == [] && requests == []
    {
      id := "web-llm";
      state := LlmState.Unloaded;
      hasEngine := false;
      config := ResolveConfig(c);
      language := En;
      progressCallback := None;
      stateCallback := None;
      notices := [];
      reloads := [];
      requests := [];
    }

    method UpdateConfig(patch: WebLlmConfig)
      modifies this`config
      ensures config == MergeConfig(old(config), patch)
    {
      config := MergeConfig(config, patch);
    }

    /** Only records the language; it chooses the default prompt of later requests. */
    method SetLanguage(lang: Language)
      modifies this`language
      ensures language == lang
    {
      language := lang;
    }

    method OnProgress(cb: nat)
      modifies this`progressCallback
      ensures progressCallback == Some(cb)
    {
      progressCallback := Some(cb);
    }

    method OnStateChange(cb: nat)
      modifies this`stateCallback
      ensures stateCallback == Some(cb)
    {
      stateCallback := Some(cb);
    }

    method SetState(s: LlmState)
      modifies this`state, this`notices
      ensures state == s
      ensures notices == old(notices) + Notices(stateCallback, s)
    {
      state := s;
      notices := notices + Notices(stateCallback, s);
    }

    /**
     * `init()` up to the `reload` it awaits. With an engine already present it
     * does nothing at all; otherwise it enters `loading`, and either fails at
     * once for want of GPU support (ending in `error`, still without an
     * engine, so a later call tries again) or creates the engine and starts
     * loading the configured model.
     */
    method BeginInit(gpuAvailable: bool) returns (r: InitStep)
      requires Valid()
      modifies this`state, this`notices, this`hasEngine, this`reloads
      ensures Valid()
      ensures old(hasEngine) ==> r == AlreadyInitialized && unchanged(this)
      ensures !old(hasEngine) && !gpuAvailable ==>
        && r == InitRejected("WebGPU not supported")
        && state == LlmState.Error && !hasEngine && reloads == old(reloads)
        && notices == old(notices) + Notices(stateCallback, LlmState.Loading) + Notices(stateCallback, LlmState.Error)
      ensures !old(hasEngine) && gpuAvailable ==>
        && r == AwaitingReload(config.modelId)
        && state == LlmState.Loading && hasEngine && reloads == old(reloads) + [config.modelId]
        && notices == old(notices) + Notices(stateCallback, LlmState.Loading)
    {
      if hasEngine {
        return AlreadyInitialized;
      }
      SetState(LlmState.Loading);
      if !gpuAvailable {
        SetState(LlmState.Error);
        return InitRejected("WebGPU not supported");
      }
      hasEngine := true;
      reloads := reloads + [config.modelId];
      r := AwaitingReload(config.modelId);
    }

    /** `init()` after `reload` settles: `ready` on success, otherwise `error` and the error is rethrown. */
    method SettleInit(reload: Outcome) returns (r: Outcome)
      requires Valid() && state == LlmState.Loading
      modifies this`state, this`notices
      ensures Valid() && r == reload
      ensures state == (if reload.Pass? then LlmState.Ready else LlmState.Error)
      ensures notices == old(notices) + Notices(stateCallback, state)
    {
      if reload.Pass? {
        SetState(LlmState.Ready);
      } else {
        SetState(LlmState.Error);
      }
      r := reload;
    }

    /**
     * `processText(text)` up to the completion it awaits: without an engine,
     * or in any state other than `ready`, it is rejected with 'LLM not ready'
     * and changes nothing; otherwise it enters `processing` and sends the
     * selected system prompt with the user's text.
     */
    method BeginProcessText(text: string) returns (r: TextStep)
      requires Valid()
      modifies this`state, this`notices, this`requests
      ensures Valid()
      ensures !(old(hasEngine) && old(state) == LlmState.Ready) ==> r == NotReady("LLM not ready") && unchanged(this)
      ensures old(hasEngine) && old(state) == LlmState.Ready ==>
        && r == AwaitingCompletion(ChatRequest(SelectSystemPrompt(config, language), text))
        && state == LlmState.Processing
        && requests == old(requests) + [r.request]
        && notices == old(notices) + Notices(stateCallback, LlmState.Processing)
    {
      if !hasEngine || state != LlmState.Ready {
        return NotReady("LLM not ready");
      }
      SetState(LlmState.Processing);
      var request := ChatRequest(SelectSystemPrompt(config, language), text);
      requests := requests + [request];
      r := AwaitingCompletion(request);
    }

    /**
     * `processText` after the completion settles: the reply's cleaned text is
     * parsed; success returns the parsed value (possibly null) and goes back
     * to `ready`, a failed completion or a failed parse ends in `error` and is
     * rethrown.
     */
    method SettleProcessText(completion: Completion, parse: string -> ParseOutcome) returns (r: ProcessTextOutcome)
      requires Valid() && state == LlmState.Processing
      modifies this`state, this`notices
      ensures Valid()
      ensures completion.CompletionFailed? ==> r == Threw(completion.error) && state == LlmState.Error
      ensures completion.Completed? && parse(CleanContent(completion.content)).ParseFailed? ==>
        r == Threw(parse(CleanContent(completion.content)).error) && state == LlmState.Error
      ensures completion.Completed? && parse(CleanContent(completion.content)).Parsed? ==>
        r == Returned(parse(CleanContent(completion.content)).value) && state == LlmState.Ready
      ensures notices == old(notices) + Notices(stateCallback, state)
    {
      match completion
      case CompletionFailed(e) =>
        SetState(LlmState.Error);
        r := Threw(e);
      case Completed(content) =>
        match parse(CleanContent(content))
        case ParseFailed(e) =>
          SetState(LlmState.Error);
          r := Threw(e);
        case Parsed(v) =>
          SetState(LlmState.Ready);
          r := Returned(v);
    }
  }

  /**
   * A provider whose engine exists but which is in `error` can never be used
   * again: `init` does nothing and `processText` is always rejected.
   */
  method FailedProviderStaysFailed(p: WebLlmProvider, text: string, gpu: bool)
    requires p.Valid() && p.hasEngine && p.state == LlmState.Error
    modifies p
  {
    var i := p.BeginInit(gpu);
    assert i == AlreadyInitialized && p.state == LlmState.Error;
    var t := p.BeginProcessText(text);
    assert t == NotReady("LLM not ready") && p.state == LlmState.Error;
  }

  /** The lifecycle `unloaded -> loading -> ready`, with a second `init` that does nothing. */
  method InitScenario()
  {
    var p := new WebLlmProvider(WebLlmConfig(None, None));
    var i := p.BeginInit(true);
    assert i == AwaitingReload(DefaultModel) && p.state == LlmState.Loading;
    var again := p.BeginInit(true);
    assert again == AlreadyInitialized && p.reloads == [DefaultModel];
    var done := p.SettleInit(Pass);
    assert p.state == LlmState.Ready;
  }

  /** `ready -> processing -> ready`, rejecting a second utterance while the first is in flight. */
  method ProcessScenario(p: WebLlmProvider, reply: string)
    requires p.Valid() && p.state == LlmState.Ready && p.config.systemPrompt == ""
    modifies p
  {
    var t := p.BeginProcessText("hello");
    assert t == AwaitingCompletion(ChatRequest(DefaultSystemPrompt(p.language), "hello"));
    var busy := p.BeginProcessText("again");
    assert busy.NotReady?;
    var r := p.SettleProcessText(Completed(Some(reply)), (s: string) => Parsed(None));
    assert r == Returned(None) && p.state == LlmState.Ready;
  }
}
