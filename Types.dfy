/**
 * The contract layer shared by the controller and the providers (types.ts):
 * the state enumerations, the working language, the tool-call result that a
 * language-model provider produces, the tool declaration, the two provider
 * capability descriptions and the controller's configuration.
 */
module Types {

  datatype Option<+T> = None | Some(value: T)

  /** The working language, exactly one of 'en' and 'pt'. */
  datatype Language = En | Pt

  /** The states a speech-recognition provider reports. */
  datatype AsrState = Idle | Listening | Processing | Error

  /** The states a language-model provider reports. */
  datatype LlmState = Unloaded | Loading | Ready | Processing | Error

  function LanguageCode(l: Language): (s: string)
  {
    match l
    case En => "en"
    case Pt => "pt"
  }

  function ParseLanguage(s: string): (r: Option<Language>)
  {
    if s == "en" then Some(En) else if s == "pt" then Some(Pt) else None
  }

  /** The TypeScript string literal of each speech-recognition state. */
  function AsrStateName(st: AsrState): (s: string)
  {
    match st
    case Idle => "idle"
    case Listening => "listening"
    case Processing => "processing"
    case Error => "error"
  }

  function ParseAsrState(s: string): (r: Option<AsrState>)
  {
    if s == "idle" then Some(AsrState.Idle)
    else if s == "listening" then Some(AsrState.Listening)
    else if s == "processing" then Some(AsrState.Processing)
    else if s == "error" then Some(AsrState.Error)
    else None
  }

  /** The TypeScript string literal of each language-model state. */
  function LlmStateName(st: LlmState): (s: string)
  {
    match st
    case Unloaded => "unloaded"
    case Loading => "loading"
    case Ready => "ready"
    case Processing => "processing"
    case Error => "error"
  }

  function ParseLlmState(s: string): (r: Option<LlmState>)
  {
    if s == "unloaded" then Some(LlmState.Unloaded)
    else if s == "loading" then Some(LlmState.Loading)
    else if s == "ready" then Some(LlmState.Ready)
    else if s == "processing" then Some(LlmState.Processing)
    else if s == "error" then Some(LlmState.Error)
    else None
  }

  /** A language is exactly 'en' or 'pt': its code parses back to it, and nothing else parses. */
  lemma LanguageCodes(l: Language, s: string)
    ensures ParseLanguage(LanguageCode(l)) == Some(l)
    ensures ParseLanguage(s).Some? <==> s == "en" || s == "pt"
    ensures ParseLanguage(s).Some? ==> LanguageCode(ParseLanguage(s).value) == s
  {
  }

  /** The four speech-recognition states are exactly the four literals of the source. */
  lemma AsrStateNames(st: AsrState, s: string)
    ensures ParseAsrState(AsrStateName(st)) == Some(st)
    ensures ParseAsrState(s).Some? <==> s in {"idle", "listening", "processing", "error"}
    ensures ParseAsrState(s).Some? ==> AsrStateName(ParseAsrState(s).value) == s
  {
  }

  /** The five language-model states are exactly the five literals of the source. */
  lemma LlmStateNames(st: LlmState, s: string)
    ensures ParseLlmState(LlmStateName(st)) == Some(st)
    ensures ParseLlmState(s).Some? <==> s in {"unloaded", "loading", "ready", "processing", "error"}
    ensures ParseLlmState(s).Some? ==> LlmStateName(ParseLlmState(s).value) == s
  {
  }

  /**
   * A JSON value as it may appear among a tool call's arguments; the
   * controller never inspects it, it only passes it on.
   */
  datatype Json = JNull | JBool(b: bool) | JNum(n: int) | JStr(s: string)

  /** `Record<string, any>`: the arguments of a tool call. */
  type Args = map<string, Json>

  /**
   * What a language-model provider returns for one utterance: the tool to
   * call (or none), its arguments (or none) and a conversational response,
   * which is always present.
   */
  datatype ToolCallResult = ToolCallResult(tool: Option<string>, args: Option<Args>, response: string)

  /**
   * How a `processText` call settles: its promise resolves to a result or
   * to null, or it rejects (or throws) with an error message.
   */
  datatype ProcessTextOutcome = Returned(result: Option<ToolCallResult>) | Threw(error: string)

  /** How an awaited call that yields nothing settles. */
  datatype Outcome = Pass | Fail(error: string)

  /** One parameter of a tool's JSON-Schema-style parameter description. */
  datatype ParamSpec = ParamSpec(paramType: string, description: Option<string>)

  /**
   * What a tool's `execute` function does with the arguments it receives:
   * hand them to the embedder's action of the given name unchanged, or call
   * that action with an empty argument object and ignore them. These are the
   * only two shapes the demo's tools take; the controller itself never looks
   * inside `execute` and treats it as an opaque call whose outcome it awaits.
   */
  datatype ToolAction = ForwardArgs(action: string) | EmptyArgs(action: string)

  /** A call of one of the embedder's actions. */
  datatype ActionCall = ActionCall(action: string, payload: Option<Args>)

  /**
   * A tool declaration: name, description, parameter description (in key
   * order, or absent) and the behaviour of its `execute` function.
   */
  datatype Tool = Tool(name: string, description: string, parameters: Option<seq<(string, ParamSpec)>>, execute: ToolAction)

  /** The action call that `tool.execute(args)` performs. */
  function Invoke(tool: Tool, args: Option<Args>): (c: ActionCall)
    ensures c.action == tool.execute.action
    ensures tool.execute.ForwardArgs? ==> c.payload == args
    ensures tool.execute.EmptyArgs? ==> c.payload == Some(map[])
  {
    match tool.execute
    case ForwardArgs(a) => ActionCall(a, args)
    case EmptyArgs(a) => ActionCall(a, Some(map[]))
  }

  /** One own property of a `Record<string, Tool>`. */
  datatype ToolEntry = ToolEntry(key: string, tool: Tool)

  ghost predicate DistinctKeys(entries: seq<ToolEntry>)
  {
    forall i, j :: 0 <= i < j < |entries| ==> entries[i].key != entries[j].key
  }

  /**
   * `Record<string, Tool>`: the own properties of a plain object, in the
   * object's own-property order, the order `Object.keys` and `Object.values`
   * list them in (integer-like keys first, ascending, then the other keys in
   * the order they were defined); a key occurs at most once.
   */
  type ToolMap = entries: seq<ToolEntry> | DistinctKeys(entries) witness []

  function Keys(m: seq<ToolEntry>): (ks: seq<string>)
    ensures |ks| == |m|
    ensures forall i :: 0 <= i < |m| ==> ks[i] == m[i].key
  {
    if m == [] then [] else [m[0].key] + Keys(m[1..])
  }

  /** `m[key]` restricted to own properties. */
  function Lookup(m: seq<ToolEntry>, key: string): (r: Option<Tool>)
  {
    if m == [] then None
    else if m[0].key == key then Some(m[0].tool)
    else Lookup(m[1..], key)
  }

  /** A key has an entry exactly when it is one of the map's keys, and the entry is the tool stored under it. */
  lemma {:induction false} LookupFound(m: ToolMap, key: string)
    ensures Lookup(m, key).Some? <==> key in Keys(m)
    ensures forall i :: 0 <= i < |m| && m[i].key == key ==> Lookup(m, key) == Some(m[i].tool)
  {
    if m != [] {
      var rest: ToolMap := m[1..];
      LookupFound(rest, key);
      if m[0].key != key {
        assert Keys(m) == [m[0].key] + Keys(rest);
      }
    }
  }

  /** The speech-recognition capability (`ASRInstance`): which optional members an instance defines. */
  datatype AsrInstance = AsrInstance(handle: nat, id: string, hasSetLanguage: bool, hasOnStateChange: bool)

  /** The language-model capability (`LLMInstance`): which optional members an instance defines. */
  datatype LlmInstance = LlmInstance(handle: nat, id: string, hasSetLanguage: bool, hasOnProgress: bool, hasOnStateChange: bool)

  /** `ActosVoiceConfig`: both providers are required, tools and language are optional. */
  datatype ActosVoiceConfig = ActosVoiceConfig(asr: AsrInstance, llm: LlmInstance, tools: Option<ToolMap>, language: Option<Language>)

  /** `Partial<ActosVoiceConfig>`: every field optional. */
  datatype PartialConfig = PartialConfig(asr: Option<AsrInstance>, llm: Option<LlmInstance>, tools: Option<ToolMap>, language: Option<Language>)
}
