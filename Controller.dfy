/**
 * The orchestration controller (packages/core/src/controller.ts).
 *
 * The controller holds one speech-recognition provider, one language-model
 * provider, a tool map, the transcript listeners and the working language.
 * It fans every transcript out to the listeners and, for a final non-blank
 * transcript, runs one resolution cycle: ask the language model for a tool
 * call, then run the tool, warn about a missing one, or do nothing. A
 * single-flight flag drops requests that arrive while a cycle is running.
 *
 * Providers, listeners and tools are reached only through calls, so every
 * call the controller makes on them is recorded, in order, in `calls`; the
 * logger becomes the append-only `log`. The asynchronous `processLLM` is cut
 * at its awaits: `HandleTranscript` runs up to the `processText` call,
 * `SettleText` takes the way that call settled, and `SettleTool` the way the
 * tool's `execute` settled.
 */
module Controller {
  import opened Types
  import opened Text

  datatype LogLevel = Warn | Fault

  /** One logger call: its level, its message and the error passed with it, if any. */
  datatype LogEntry = LogEntry(level: LogLevel, message: string, detail: Option<string>)

  const LlmErrorMessage: string := "LLM Processing Error:"
  const AsrErrorMessage: string := "ASR Error:"

  function ToolErrorMessage(name: string): string
  {
    "Error executing tool " + name + ":"
  }

  function MissingToolMessage(name: string): string
  {
    "Tool \"" + name + "\" requested by LLM but not found in config.tools"
  }

  /** A call the controller makes on a provider, a listener or a tool. */
  datatype Call =
    | AsrOnTranscript(asr: nat)
    | AsrOnError(asr: nat)
    | AsrSetLanguage(asr: nat, lang: Language)
    | LlmSetLanguage(llm: nat, lang: Language)
    | Deliver(listener: nat, text: string, isFinal: bool)
    | ProcessText(llm: nat, text: string)
    | Execute(tool: Tool, args: Option<Args>)
    | LlmInit(llm: nat)
    | AsrStart(asr: nat)
    | AsrStop(asr: nat)

  /** `setupListeners`: subscribe to the recognizer's transcripts, then to its errors. */
  function SubscribeCalls(asr: AsrInstance): seq<Call>
  {
    [AsrOnTranscript(asr.handle), AsrOnError(asr.handle)]
  }

  /** `updateInstancesLanguage`: each provider that has `setLanguage` is given the language, recognizer first. */
  function LanguageCalls(asr: AsrInstance, llm: LlmInstance, lang: Language): (cs: seq<Call>)
  {
    (if asr.hasSetLanguage then [AsrSetLanguage(asr.handle, lang)] else [])
    + (if llm.hasSetLanguage then [LlmSetLanguage(llm.handle, lang)] else [])
  }

  /**
   * The language calls reach exactly the providers that define `setLanguage`,
   * each once and with the given language, the recognizer first.
   */
  lemma LanguageCallsReach(asr: AsrInstance, llm: LlmInstance, lang: Language)
    ensures AsrSetLanguage(asr.handle, lang) in LanguageCalls(asr, llm, lang) <==> asr.hasSetLanguage
    ensures LlmSetLanguage(llm.handle, lang) in LanguageCalls(asr, llm, lang) <==> llm.hasSetLanguage
    ensures forall c :: c in LanguageCalls(asr, llm, lang) ==>
      (c.AsrSetLanguage? && c.asr == asr.handle && c.lang == lang) || (c.LlmSetLanguage? && c.llm == llm.handle && c.lang == lang)
    ensures |LanguageCalls(asr, llm, lang)| == (if asr.hasSetLanguage then 1 else 0) + (if llm.hasSetLanguage then 1 else 0)
    ensures asr.hasSetLanguage ==> LanguageCalls(asr, llm, lang)[0] == AsrSetLanguage(asr.handle, lang)
    ensures llm.hasSetLanguage ==> LanguageCalls(asr, llm, lang)[|LanguageCalls(asr, llm, lang)| - 1] == LlmSetLanguage(llm.handle, lang)
  {
  }

  /** The listener calls for one transcript, in registration order. */
  function DeliverAll(listeners: seq<nat>, text: string, isFinal: bool): seq<Call>
  {
    if listeners == [] then []
    else DeliverAll(listeners[..|listeners| - 1], text, isFinal) + [Deliver(listeners[|listeners| - 1], text, isFinal)]
  }

  /** Each listener is called once, in registration order, with the transcript as it arrived. */
  lemma {:induction false} DeliverAllShape(listeners: seq<nat>, text: string, isFinal: bool)
    ensures |DeliverAll(listeners, text, isFinal)| == |listeners|
    ensures forall k :: 0 <= k < |listeners| ==> DeliverAll(listeners, text, isFinal)[k] == Deliver(listeners[k], text, isFinal)
  {
    if listeners != [] {
      DeliverAllShape(listeners[..|listeners| - 1], text, isFinal);
    }
  }

  /** The number of `processText` calls among the first `n` calls. */
  function ProcessTextsIn(cs: seq<Call>, n: nat): nat
    requires n <= |cs|
  {
    if n == 0 then 0 else ProcessTextsIn(cs, n - 1) + (if cs[n - 1].ProcessText? then 1 else 0)
  }

  /** The number of tool `execute` calls among the first `n` calls. */
  function ExecutesIn(cs: seq<Call>, n: nat): nat
    requires n <= |cs|
  {
    if n == 0 then 0 else ExecutesIn(cs, n - 1) + (if cs[n - 1].Execute? then 1 else 0)
  }

  /**
   * How many tool runs the cycle opened last may still make after the first
   * `n` calls: a `processText` call opens a cycle with one, and a tool run
   * uses it up. Before any `processText` call there is none.
   */
  function ToolBudgetIn(cs: seq<Call>, n: nat): int
    requires n <= |cs|
  {
    if n == 0 then 0
    else if cs[n - 1].ProcessText? then 1
    else if cs[n - 1].Execute? then ToolBudgetIn(cs, n - 1) - 1
    else ToolBudgetIn(cs, n - 1)
  }

  /** No prefix of the first `n` calls overspends its budget: at most one tool run per `processText` call, none before the first. */
  function BudgetKeptIn(cs: seq<Call>, n: nat): bool
    requires n <= |cs|
  {
    n == 0 || (BudgetKeptIn(cs, n - 1) && ToolBudgetIn(cs, n) >= 0)
  }

  function ToolBudget(cs: seq<Call>): int
  {
    ToolBudgetIn(cs, |cs|)
  }

  function BudgetKept(cs: seq<Call>): bool
  {
    BudgetKeptIn(cs, |cs|)
  }

  function ProcessTextCount(cs: seq<Call>): nat
  {
    ProcessTextsIn(cs, |cs|)
  }

  function ExecuteCount(cs: seq<Call>): nat
  {
    ExecutesIn(cs, |cs|)
  }

  /** A prefix is counted by the calls it holds, whatever follows them. */
  lemma {:induction false} CountsPrefix(s: seq<Call>, t: seq<Call>, n: nat)
    requires n <= |s| && n <= |t| && s[..n] == t[..n]
    ensures ProcessTextsIn(s, n) == ProcessTextsIn(t, n) && ExecutesIn(s, n) == ExecutesIn(t, n)
    ensures ToolBudgetIn(s, n) == ToolBudgetIn(t, n) && BudgetKeptIn(s, n) == BudgetKeptIn(t, n)
  {
    if n > 0 {
      assert s[n - 1] == s[..n][n - 1] == t[..n][n - 1] == t[n - 1];
      assert s[..n - 1] == s[..n][..n - 1] == t[..n][..n - 1] == t[..n - 1];
      CountsPrefix(s, t, n - 1);
    }
  }

  lemma {:induction false} CountsConcatUpTo(a: seq<Call>, b: seq<Call>, k: nat)
    requires k <= |b|
    ensures ProcessTextsIn(a + b, |a| + k) == ProcessTextCount(a) + ProcessTextsIn(b, k)
    ensures ExecutesIn(a + b, |a| + k) == ExecuteCount(a) + ExecutesIn(b, k)
  {
    if k == 0 {
      assert (a + b)[..|a|] == a == a[..|a|];
      CountsPrefix(a + b, a, |a|);
    } else {
      CountsConcatUpTo(a, b, k - 1);
      assert (a + b)[|a| + k - 1] == b[k - 1];
    }
  }

  /** Both counts add up over a concatenated trace. */
  lemma CountsConcat(a: seq<Call>, b: seq<Call>)
    ensures ProcessTextCount(a + b) == ProcessTextCount(a) + ProcessTextCount(b)
    ensures ExecuteCount(a + b) == ExecuteCount(a) + ExecuteCount(b)
  {
    CountsConcatUpTo(a, b, |b|);
  }

  /** One more call adds one to the count of its own kind and nothing to the other. */
  lemma CountsAppend(cs: seq<Call>, c: Call)
    ensures ProcessTextCount(cs + [c]) == ProcessTextCount(cs) + (if c.ProcessText? then 1 else 0)
    ensures ExecuteCount(cs + [c]) == ExecuteCount(cs) + (if c.Execute? then 1 else 0)
  {
    CountsConcat(cs, [c]);
    assert ProcessTextsIn([c], 0) == 0 && ExecutesIn([c], 0) == 0;
  }

  /** One more call opens a budget of one, uses one up, or leaves it as it was. */
  lemma BudgetAppend(cs: seq<Call>, c: Call)
    ensures ToolBudget(cs + [c]) == (if c.ProcessText? then 1 else if c.Execute? then ToolBudget(cs) - 1 else ToolBudget(cs))
    ensures BudgetKept(cs + [c]) == (BudgetKept(cs) && ToolBudget(cs + [c]) >= 0)
  {
    assert (cs + [c])[..|cs|] == cs[..|cs|];
    CountsPrefix(cs + [c], cs, |cs|);
  }

  lemma {:induction false} BudgetNeutralUpTo(a: seq<Call>, b: seq<Call>, k: nat)
    requires k <= |b|
    requires forall i :: 0 <= i < |b| ==> !b[i].ProcessText? && !b[i].Execute?
    ensures ToolBudgetIn(a + b, |a| + k) == ToolBudget(a)
    ensures BudgetKeptIn(a + b, |a| + k) == BudgetKept(a)
  {
    if k == 0 {
      assert (a + b)[..|a|] == a == a[..|a|];
      CountsPrefix(a + b, a, |a|);
    } else {
      BudgetNeutralUpTo(a, b, k - 1);
      assert (a + b)[|a| + k - 1] == b[k - 1];
    }
  }

  /** Calls that are neither `processText` nor tool runs leave the budget as it was. */
  lemma BudgetNeutral(a: seq<Call>, b: seq<Call>)
    requires forall i :: 0 <= i < |b| ==> !b[i].ProcessText? && !b[i].Execute?
    ensures ToolBudget(a + b) == ToolBudget(a) && BudgetKept(a + b) == BudgetKept(a)
  {
    BudgetNeutralUpTo(a, b, |b|);
  }

  lemma {:induction false} BudgetAtMostOne(cs: seq<Call>, n: nat)
    requires n <= |cs|
    ensures ToolBudgetIn(cs, n) <= 1
  {
    if n > 0 {
      BudgetAtMostOne(cs, n - 1);
    }
  }

  lemma {:induction false} BudgetKeptPrefix(cs: seq<Call>, m: nat, n: nat)
    requires m <= n <= |cs| && BudgetKeptIn(cs, n)
    ensures BudgetKeptIn(cs, m) && ToolBudgetIn(cs, m) >= 0
  {
    if m < n {
      BudgetKeptPrefix(cs, m, n - 1);
    }
  }

  /** Without a `processText` call in between, the budget cannot grow. */
  lemma {:induction false} BudgetNoRefill(cs: seq<Call>, lo: nat, hi: nat)
    requires lo <= hi <= |cs|
    requires forall k :: lo <= k < hi ==> !cs[k].ProcessText?
    ensures ToolBudgetIn(cs, hi) <= ToolBudgetIn(cs, lo)
  {
    if lo < hi {
      BudgetNoRefill(cs, lo, hi - 1);
    }
  }

  /**
   * In a trace that keeps its budget, a `processText` call comes before
   * every tool run, and between any two tool runs: no cycle runs two tools.
   */
  lemma OneToolPerCycle(cs: seq<Call>, i: nat, j: nat)
    requires BudgetKept(cs) && j < |cs| && cs[j].Execute?
    requires i < j && cs[i].Execute?
    ensures exists k :: i < k < j && cs[k].ProcessText?
  {
    if forall k :: i < k < j ==> !cs[k].ProcessText? {
      BudgetAtMostOne(cs, i);
      BudgetNoRefill(cs, i + 1, j);
      BudgetKeptPrefix(cs, j + 1, |cs|);
      assert false;
    }
  }

  /** No tool runs before the first `processText` call. */
  lemma ToolRunNeedsProcessText(cs: seq<Call>, j: nat)
    requires BudgetKept(cs) && j < |cs| && cs[j].Execute?
    ensures exists k :: 0 <= k < j && cs[k].ProcessText?
  {
    if forall k :: 0 <= k < j ==> !cs[k].ProcessText? {
      BudgetNoRefill(cs, 0, j);
      BudgetKeptPrefix(cs, j + 1, |cs|);
      assert false;
    }
  }

  /** Two `processText` calls followed by two tool runs spend the second cycle's budget twice. */
  lemma TwoToolsInOneCycleOverspend(t: Tool)
    ensures !BudgetKept([ProcessText(0, "a"), ProcessText(0, "b"), Execute(t, None), Execute(t, None)])
  {
    var cs := [ProcessText(0, "a"), ProcessText(0, "b"), Execute(t, None), Execute(t, None)];
    assert ToolBudgetIn(cs, 2) == 1;
    assert ToolBudgetIn(cs, 4) == -1;
  }

  lemma {:induction false} CountsZeroUpTo(cs: seq<Call>, n: nat)
    requires n <= |cs|
    requires forall k :: 0 <= k < |cs| ==> !cs[k].ProcessText? && !cs[k].Execute?
    ensures ProcessTextsIn(cs, n) == 0 && ExecutesIn(cs, n) == 0
  {
    if n > 0 {
      CountsZeroUpTo(cs, n - 1);
    }
  }

  /** A trace without `processText` or `execute` calls counts neither. */
  lemma CountsZero(cs: seq<Call>)
    requires forall k :: 0 <= k < |cs| ==> !cs[k].ProcessText? && !cs[k].Execute?
    ensures ProcessTextCount(cs) == 0 && ExecuteCount(cs) == 0
  {
    CountsZeroUpTo(cs, |cs|);
  }

  lemma DeliverAllStep(listeners: seq<nat>, k: nat, text: string, isFinal: bool)
    requires k < |listeners|
    ensures DeliverAll(listeners[..k + 1], text, isFinal) == DeliverAll(listeners[..k], text, isFinal) + [Deliver(listeners[k], text, isFinal)]
  {
    assert listeners[..k + 1][..k] == listeners[..k];
  }

  /** Listener calls are neither `processText` nor `execute` calls. */
  lemma DeliveriesUncounted(listeners: seq<nat>, text: string, isFinal: bool)
    ensures ProcessTextCount(DeliverAll(listeners, text, isFinal)) == 0
    ensures ExecuteCount(DeliverAll(listeners, text, isFinal)) == 0
  {
    DeliverAllShape(listeners, text, isFinal);
    CountsZero(DeliverAll(listeners, text, isFinal));
  }

  /** `this.transcriptListeners.filter(cb => cb !== callback)`. */
  function RemoveAll(xs: seq<nat>, cb: nat): (ys: seq<nat>)
    ensures cb !in ys
    ensures forall y :: y in ys ==> y in xs
    ensures |ys| <= |xs|
  {
    if xs == [] then []
    else RemoveAll(xs[..|xs| - 1], cb) + (if xs[|xs| - 1] == cb then [] else [xs[|xs| - 1]])
  }

  /** Filtering distributes over concatenation, so the listeners that stay keep their order. */
  lemma {:induction false} RemoveAllConcat(a: seq<nat>, b: seq<nat>, cb: nat)
    ensures RemoveAll(a + b, cb) == RemoveAll(a, cb) + RemoveAll(b, cb)
    decreases |b|
  {
    if b == [] {
      assert a + b == a;
    } else {
      assert (a + b)[..|a + b| - 1] == a + b[..|b| - 1];
      RemoveAllConcat(a, b[..|b| - 1], cb);
    }
  }

  /** Every other listener stays, as often as it was registered; every copy of the removed one goes. */
  lemma {:induction false} RemoveAllCounts(xs: seq<nat>, cb: nat)
    ensures multiset(RemoveAll(xs, cb))[cb] == 0
    ensures forall y :: y != cb ==> multiset(RemoveAll(xs, cb))[y] == multiset(xs)[y]
  {
    if xs != [] {
      var init := xs[..|xs| - 1];
      RemoveAllCounts(init, cb);
      assert xs == init + [xs[|xs| - 1]];
    }
  }

  /** Subscribing a new listener and unsubscribing it restores the list; unsubscribing twice is unsubscribing once. */
  lemma RemoveAllUndoesPush(xs: seq<nat>, cb: nat)
    ensures cb !in xs ==> RemoveAll(xs + [cb], cb) == xs
    ensures RemoveAll(RemoveAll(xs, cb), cb) == RemoveAll(xs, cb)
    ensures cb !in xs ==> RemoveAll(xs, cb) == xs
  {
    RemoveAllAbsent(xs, cb);
    RemoveAllAbsent(RemoveAll(xs, cb), cb);
    assert (xs + [cb])[..|xs|] == xs;
  }

  lemma {:induction false} RemoveAllAbsent(xs: seq<nat>, cb: nat)
    ensures cb !in xs ==> RemoveAll(xs, cb) == xs
  {
    if xs != [] && cb !in xs {
      RemoveAllAbsent(xs[..|xs| - 1], cb);
      assert xs[..|xs| - 1] + [xs[|xs| - 1]] == xs;
    }
  }

  /** `isFinal && text.trim().length > 0`. */
  function ShouldResolve(text: string, isFinal: bool): bool
  {
    isFinal && |Trim(text)| > 0
  }

  /** Only final transcripts with a character that is not whitespace start a cycle. */
  lemma ShouldResolveMeans(text: string, isFinal: bool)
    ensures ShouldResolve(text, isFinal) <==> isFinal && HasNonWhitespace(text)
  {
    TrimNonEmpty(text);
  }

  /** What the settled result asks for. */
  datatype Decision = DoNothing | RunTool(name: string, tool: Tool) | WarnMissing(name: string)

  /** `result.tool` is truthy: present and not the empty string. */
  predicate NamesTool(r: ToolCallResult)
  {
    r.tool.Some? && r.tool.value != ""
  }

  /** The dispatch on a settled result, with `this.tools[name]` looking at the map's own entries only. */
  function Dispatch(r: ToolCallResult, tools: ToolMap): (d: Decision)
    ensures !NamesTool(r) <==> d.DoNothing?
    ensures d.RunTool? <==> NamesTool(r) && r.tool.value in Keys(tools)
    ensures d.WarnMissing? <==> NamesTool(r) && r.tool.value !in Keys(tools)
    ensures d.RunTool? ==> d.name == r.tool.value && exists k :: 0 <= k < |tools| && tools[k] == ToolEntry(d.name, d.tool)
    ensures d.WarnMissing? ==> d.name == r.tool.value
  {
    if !NamesTool(r) then DoNothing
    else
      LookupFound(tools, r.tool.value);
      LookupWitness(tools, r.tool.value);
      match Lookup(tools, r.tool.value)
      case Some(t) => RunTool(r.tool.value, t)
      case None => WarnMissing(r.tool.value)
  }

  lemma {:induction false} LookupWitness(m: seq<ToolEntry>, key: string)
    ensures Lookup(m, key).Some? ==> exists k :: 0 <= k < |m| && m[k] == ToolEntry(key, Lookup(m, key).value)
  {
    if m != [] && m[0].key != key {
      LookupWitness(m[1..], key);
      if Lookup(m, key).Some? {
        var k :| 0 <= k < |m[1..]| && m[1..][k] == ToolEntry(key, Lookup(m, key).value);
        assert m[k + 1] == m[1..][k];
      }
    } else if m != [] {
      assert m[0] == ToolEntry(key, Lookup(m, key).value);
    }
  }

  /** The members every plain object inherits from `Object.prototype`. */
  const InheritedNames: set<string> := {
    "constructor", "hasOwnProperty", "isPrototypeOf", "propertyIsEnumerable",
    "toLocaleString", "toString", "valueOf", "__proto__",
    "__defineGetter__", "__defineSetter__", "__lookupGetter__", "__lookupSetter__"
  }

  /** The dispatch as written: `this.tools[name]` also finds the inherited members, which have no `execute`. */
  datatype WrittenDecision = Decided(decision: Decision) | CallInherited(name: string)

  function DispatchAsWritten(r: ToolCallResult, tools: ToolMap): (d: WrittenDecision)
  {
    if NamesTool(r) && r.tool.value !in Keys(tools) && r.tool.value in InheritedNames then CallInherited(r.tool.value)
    else Decided(Dispatch(r, tools))
  }

  /** For any name that is neither inherited nor shadowed, the two dispatches agree. */
  lemma DispatchAgreement(r: ToolCallResult, tools: ToolMap)
    ensures (!NamesTool(r) || r.tool.value in Keys(tools) || r.tool.value !in InheritedNames) <==>
      DispatchAsWritten(r, tools) == Decided(Dispatch(r, tools))
  {
  }

  /**
   * A model reply naming "toString" with no such tool configured: as written,
   * the inherited function is taken for a tool and calling its missing
   * `execute` throws, which is logged as a failed tool run instead of the
   * missing-tool warning.
   */
  lemma InheritedNameMisreported()
    ensures DispatchAsWritten(ToolCallResult(Some("toString"), None, ""), []) == CallInherited("toString")
    ensures Dispatch(ToolCallResult(Some("toString"), None, ""), []) == WarnMissing("toString")
  {
    assert "toString" in InheritedNames;
  }

  /** Where `processLLM` is suspended. */
  datatype Cycle = NoCycle | AwaitingText | AwaitingTool(name: string)

  /** What the returned unsubscribe function removes. */
  datatype Subscription = Subscription(callback: nat)

  class ActosVoiceController {
    var asr: AsrInstance
    var llm: LlmInstance
    var tools: ToolMap
    var transcriptListeners: seq<nat>
    var language: Language
    var isProcessing: bool
    /** Every call made on a provider, listener or tool, in order. */
    var calls: seq<Call>
    var log: seq<LogEntry>
    var cycle: Cycle
    /** The number of resolution cycles that have ended. */
    ghost var cyclesEnded: nat

    /**
     * The flag is set exactly while a cycle is suspended; every `processText`
     * call belongs to one cycle, ended or current; tool runs never outnumber
     * `processText` calls, and are fewer while a reply is awaited; and no
     * cycle runs more than one tool (the trace keeps its tool budget, see
     * `OneToolPerCycle`), the one awaiting its reply having run none yet.
     */
    ghost predicate Valid()
      reads this`isProcessing, this`cycle, this`calls, this`cyclesEnded
    {
      && (isProcessing <==> !cycle.NoCycle?)
      && ProcessTextCount(calls) == cyclesEnded + (if isProcessing then 1 else 0)
      && ExecuteCount(calls) + (if cycle.AwaitingText? then 1 else 0) <= ProcessTextCount(calls)
      && BudgetKept(calls)
      && (cycle.AwaitingText? ==> ToolBudget(calls) == 1)
    }

    function GetLanguage(): Language
      reads this
    {
      language
    }

    /** Tools default to the empty map and the language to 'en'; then subscribe, then set the providers' language. */
    constructor (config: ActosVoiceConfig)
      ensures Valid()
      ensures asr == config.asr && llm == config.llm
      ensures tools == (match config.tools case Some(m) => m case None => [])
      ensures language == (match config.language case Some(l) => l case None => En)
      ensures transcriptListeners == [] && !isProcessing && log == []
      ensures calls == SubscribeCalls(asr) + LanguageCalls(asr, llm, language)
    {
      asr := config.asr;
      llm := config.llm;
      tools := match config.tools case Some(m) => m case None => [];
      language := match config.language case Some(l) => l case None => En;
      transcriptListeners := [];
      isProcessing := false;
      log := [];
      cycle := NoCycle;
      cyclesEnded := 0;
      new;
      calls := SubscribeCalls(asr) + LanguageCalls(asr, llm, language);
      CountsZero(calls);
      BudgetNeutral([], calls);
      assert [] + calls == calls;
    }

    method UpdateInstancesLanguage()
      modifies this`calls
      ensures calls == old(calls) + LanguageCalls(asr, llm, language)
      ensures ProcessTextCount(calls) == ProcessTextCount(old(calls)) && ExecuteCount(calls) == ExecuteCount(old(calls))
      ensures ToolBudget(calls) == ToolBudget(old(calls)) && BudgetKept(calls) == BudgetKept(old(calls))
    {
      CountsZero(LanguageCalls(asr, llm, language));
      CountsConcat(calls, LanguageCalls(asr, llm, language));
      BudgetNeutral(calls, LanguageCalls(asr, llm, language));
      calls := calls + LanguageCalls(asr, llm, language);
    }

    method SetupListeners()
      modifies this`calls
      ensures calls == old(calls) + SubscribeCalls(asr)
      ensures ProcessTextCount(calls) == ProcessTextCount(old(calls)) && ExecuteCount(calls) == ExecuteCount(old(calls))
      ensures ToolBudget(calls) == ToolBudget(old(calls)) && BudgetKept(calls) == BudgetKept(old(calls))
    {
      CountsZero(SubscribeCalls(asr));
      CountsConcat(calls, SubscribeCalls(asr));
      BudgetNeutral(calls, SubscribeCalls(asr));
      calls := calls + SubscribeCalls(asr);
    }

    method SetLanguage(l: Language)
      requires Valid()
      modifies this`language, this`calls
      ensures Valid()
      ensures GetLanguage() == l
      ensures calls == old(calls) + LanguageCalls(asr, llm, l)
    {
      language := l;
      UpdateInstancesLanguage();
    }

    /**
     * Replaces each field the patch supplies; a new recognizer is subscribed
     * to, and at the end both current providers are given the (possibly
     * unchanged) language.
     */
    method UpdateConfig(patch: PartialConfig)
      requires Valid()
      modifies this`tools, this`language, this`asr, this`llm, this`calls
      ensures Valid()
      ensures tools == (match patch.tools case Some(v) => v case None => old(tools))
      ensures language == (match patch.language case Some(v) => v case None => old(language))
      ensures asr == (match patch.asr case Some(v) => v case None => old(asr))
      ensures llm == (match patch.llm case Some(v) => v case None => old(llm))
      ensures patch.asr.Some? ==> calls == old(calls) + SubscribeCalls(asr) + LanguageCalls(asr, llm, language)
      ensures patch.asr.None? ==> calls == old(calls) + LanguageCalls(asr, llm, language)
    {
      if patch.tools.Some? {
        tools := patch.tools.value;
      }
      if patch.language.Some? {
        language := patch.language.value;
      }
      if patch.asr.Some? {
        asr := patch.asr.value;
        SetupListeners();
      }
      if patch.llm.Some? {
        llm := patch.llm.value;
      }
      UpdateInstancesLanguage();
      assert ProcessTextCount(calls) == ProcessTextCount(old(calls)) && ExecuteCount(calls) == ExecuteCount(old(calls));
      assert ToolBudget(calls) == ToolBudget(old(calls)) && BudgetKept(calls) == BudgetKept(old(calls));
    }

    /** Appends the listener; the subscription it returns removes every copy of it. */
    method OnTranscript(cb: nat) returns (s: Subscription)
      modifies this`transcriptListeners
      ensures transcriptListeners == old(transcriptListeners) + [cb] && s == Subscription(cb)
    {
      transcriptListeners := transcriptListeners + [cb];
      s := Subscription(cb);
    }

    method Unsubscribe(s: Subscription)
      modifies this`transcriptListeners
      ensures transcriptListeners == RemoveAll(old(transcriptListeners), s.callback)
    {
      transcriptListeners := RemoveAll(transcriptListeners, s.callback);
    }

    /**
     * The recognizer's transcript handler: every listener hears the
     * transcript, in order, and then a final non-blank transcript asks for a
     * resolution, which is dropped without a trace while one is running.
     */
    method HandleTranscript(text: string, isFinal: bool)
      requires Valid()
      modifies this`calls, this`isProcessing, this`cycle
      ensures Valid()
      ensures !ShouldResolve(text, isFinal) || old(isProcessing) ==>
        calls == old(calls) + DeliverAll(transcriptListeners, text, isFinal)
        && isProcessing == old(isProcessing) && cycle == old(cycle)
      ensures ShouldResolve(text, isFinal) && !old(isProcessing) ==>
        calls == old(calls) + DeliverAll(transcriptListeners, text, isFinal) + [ProcessText(llm.handle, text)]
        && isProcessing && cycle == AwaitingText
    {
      NotifyListeners(text, isFinal);
      DeliveriesUncounted(transcriptListeners, text, isFinal);
      CountsConcat(old(calls), DeliverAll(transcriptListeners, text, isFinal));
      DeliverAllShape(transcriptListeners, text, isFinal);
      BudgetNeutral(old(calls), DeliverAll(transcriptListeners, text, isFinal));
      if ShouldResolve(text, isFinal) {
        BeginResolve(text);
      }
    }

    /** `this.transcriptListeners.forEach(cb => cb(text, isFinal))`. */
    method NotifyListeners(text: string, isFinal: bool)
      modifies this`calls
      ensures calls == old(calls) + DeliverAll(transcriptListeners, text, isFinal)
    {
      ghost var before := calls;
      var k := 0;
      while k < |transcriptListeners|
        invariant 0 <= k <= |transcriptListeners|
        invariant calls == before + DeliverAll(transcriptListeners[..k], text, isFinal)
        modifies this`calls
      {
        DeliverAllStep(transcriptListeners, k, text, isFinal);
        calls := calls + [Deliver(transcriptListeners[k], text, isFinal)];
        k := k + 1;
      }
      assert transcriptListeners[..k] == transcriptListeners;
    }

    /** `processLLM` up to the awaited `processText`: a no-op while a cycle runs. */
    method BeginResolve(text: string)
      requires Valid()
      modifies this`calls, this`isProcessing, this`cycle
      ensures Valid()
      ensures old(isProcessing) ==> calls == old(calls) && isProcessing && cycle == old(cycle)
      ensures !old(isProcessing) ==> calls == old(calls) + [ProcessText(llm.handle, text)] && isProcessing && cycle == AwaitingText
    {
      if isProcessing {
        return;
      }
      isProcessing := true;
      CountsAppend(calls, ProcessText(llm.handle, text));
      BudgetAppend(calls, ProcessText(llm.handle, text));
      calls := calls + [ProcessText(llm.handle, text)];
      cycle := AwaitingText;
    }

    /** Ends the cycle: the `finally` clause. */
    method EndCycle()
      requires !cycle.NoCycle? && isProcessing
      requires ProcessTextCount(calls) == cyclesEnded + 1
      requires ExecuteCount(calls) <= ProcessTextCount(calls) && BudgetKept(calls)
      modifies this`isProcessing, this`cycle, this`cyclesEnded
      ensures Valid() && !isProcessing && cycle == NoCycle
    {
      isProcessing := false;
      cycle := NoCycle;
      cyclesEnded := cyclesEnded + 1;
    }

    /**
     * `processLLM` once `processText` has settled. A throw is logged as an
     * LLM error; null does nothing; otherwise the tool map as it is now
     * decides: a configured tool is executed with the result's arguments (and
     * the cycle waits for it), a missing one is warned about, and a result
     * naming no tool does nothing. Every ending clears the flag.
     */
    method SettleText(outcome: ProcessTextOutcome)
      requires Valid() && cycle == AwaitingText
      modifies this`calls, this`log, this`isProcessing, this`cycle, this`cyclesEnded
      ensures Valid()
      ensures outcome.Threw? ==>
        log == old(log) + [LogEntry(Fault, LlmErrorMessage, Some(outcome.error))]
        && calls == old(calls) && !isProcessing
      ensures outcome == Returned(None) ==> log == old(log) && calls == old(calls) && !isProcessing
      ensures outcome.Returned? && outcome.result.Some? ==>
        match Dispatch(outcome.result.value, tools)
        case DoNothing => log == old(log) && calls == old(calls) && !isProcessing
        case WarnMissing(name) =>
          log == old(log) + [LogEntry(Warn, MissingToolMessage(name), None)] && calls == old(calls) && !isProcessing
        case RunTool(name, tool) =>
          log == old(log) && calls == old(calls) + [Execute(tool, outcome.result.value.args)]
          && isProcessing && cycle == AwaitingTool(name)
    {
      match outcome
      case Threw(e) =>
        log := log + [LogEntry(Fault, LlmErrorMessage, Some(e))];
        EndCycle();
      case Returned(None) =>
        EndCycle();
      case Returned(Some(r)) =>
        match Dispatch(r, tools)
        case DoNothing =>
          EndCycle();
        case WarnMissing(name) =>
          log := log + [LogEntry(Warn, MissingToolMessage(name), None)];
          EndCycle();
        case RunTool(name, tool) =>
          CountsAppend(calls, Execute(tool, r.args));
          BudgetAppend(calls, Execute(tool, r.args));
          calls := calls + [Execute(tool, r.args)];
          cycle := AwaitingTool(name);
    }

    /** `processLLM` once the tool's `execute` has settled: a failure is logged as a tool error; either way the cycle ends. */
    method SettleTool(outcome: Outcome)
      requires Valid() && cycle.AwaitingTool?
      modifies this`log, this`isProcessing, this`cycle, this`cyclesEnded
      ensures Valid() && !isProcessing
      ensures outcome.Pass? ==> log == old(log)
      ensures outcome.Fail? ==> log == old(log) + [LogEntry(Fault, ToolErrorMessage(old(cycle).name), Some(outcome.error))]
    {
      if outcome.Fail? {
        log := log + [LogEntry(Fault, ToolErrorMessage(cycle.name), Some(outcome.error))];
      }
      EndCycle();
    }

    /** The recognizer's error handler only logs. */
    method HandleAsrError(error: string)
      modifies this`log
      ensures log == old(log) + [LogEntry(Fault, AsrErrorMessage, Some(error))]
    {
      log := log + [LogEntry(Fault, AsrErrorMessage, Some(error))];
    }

    /**
     * `start`: the model is initialised first, and only if that succeeds is
     * the recognizer started; either failure is passed on to the caller.
     */
    method Start(init: Outcome, asrStart: Outcome) returns (r: Outcome)
      requires Valid()
      modifies this`calls
      ensures Valid()
      ensures init.Fail? ==> r == init && calls == old(calls) + [LlmInit(llm.handle)]
      ensures init.Pass? ==> r == asrStart && calls == old(calls) + [LlmInit(llm.handle), AsrStart(asr.handle)]
    {
      var started: seq<Call> := if init.Fail? then [LlmInit(llm.handle)] else [LlmInit(llm.handle), AsrStart(asr.handle)];
      CountsZero(started);
      CountsConcat(calls, started);
      BudgetNeutral(calls, started);
      calls := calls + started;
      r := if init.Fail? then init else asrStart;
    }

    /** `stop` stops the recognizer and touches nothing else. */
    method Stop(asrStop: Outcome) returns (r: Outcome)
      requires Valid()
      modifies this`calls
      ensures Valid()
      ensures r == asrStop && calls == old(calls) + [AsrStop(asr.handle)]
    {
      CountsZero([AsrStop(asr.handle)]);
      CountsConcat(calls, [AsrStop(asr.handle)]);
      BudgetNeutral(calls, [AsrStop(asr.handle)]);
      calls := calls + [AsrStop(asr.handle)];
      r := asrStop;
    }
  }
}
