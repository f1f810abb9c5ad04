/**
 * The demo's tool registry and system-prompt builder (demo/src/i18n.ts):
 * the five demo tools with their per-language descriptions, and the prompt
 * that lists them, one numbered line per tool, in place of the template's
 * `{{TOOLS}}` placeholder.
 */
module I18n {
  import opened Types
  import opened Text
  import opened Prompts

  const Placeholder: string := "{{TOOLS}}"

  /** The template's text before the placeholder. */
  function PromptBefore(lang: Language): string
  {
    Join(BeforePieces(lang), "")
  }

  /** The template's text after the placeholder. */
  function PromptAfter(lang: Language): string
  {
    Join(AfterPieces(lang), "")
  }

  /** `PROMPTS[lang]`. */
  function PromptTemplate(lang: Language): string
  {
    PromptBefore(lang) + Placeholder + PromptAfter(lang)
  }

  lemma NoBraceBeforePlaceholder(lang: Language)
    ensures '{' !in PromptBefore(lang)
  {
    NoBraceInBeforePieces(lang);
    JoinAvoids(BeforePieces(lang), "", '{');
  }

  /** Each template holds the placeholder, and its first occurrence is where the tool list goes. */
  lemma TemplateHasPlaceholder(lang: Language)
    ensures IndexOf(PromptTemplate(lang), Placeholder) == Some(|PromptBefore(lang)|)
  {
    NoBraceBeforePlaceholder(lang);
    ReplaceFirstAfter(PromptBefore(lang), Placeholder, PromptAfter(lang), "");
  }

  function ParamKeys(ps: seq<(string, ParamSpec)>): (ks: seq<string>)
    ensures |ks| == |ps|
    ensures forall k :: 0 <= k < |ps| ==> ks[k] == ps[k].0
  {
    seq(|ps|, k requires 0 <= k < |ps| => ps[k].0)
  }

  /** The text between the parentheses: the parameter keys joined by ", ", or nothing. */
  function ParamList(t: Tool): string
  {
    match t.parameters
    case None => ""
    case Some(ps) => Join(ParamKeys(ps), ", ")
  }

  /** The line for the tool at (zero-based) position `i`: "<i+1>. name(p1, p2) - description". */
  function ToolLine(i: nat, t: Tool): string
  {
    NatToString(i + 1) + ". " + t.name + "(" + ParamList(t) + ") - " + t.description
  }

  /** One line per tool, in the map's order. */
  function ToolLines(tools: ToolMap): (lines: seq<string>)
    ensures |lines| == |tools|
    ensures forall i :: 0 <= i < |tools| ==> lines[i] == ToolLine(i, tools[i].tool)
  {
    seq(|tools|, i requires 0 <= i < |tools| => ToolLine(i, tools[i].tool))
  }

  function ToolsList(tools: ToolMap): string
  {
    Join(ToolLines(tools), "\n")
  }

  /** `getSystemPrompt(lang, tools)`. */
  function GetSystemPrompt(lang: Language, tools: ToolMap): (p: string)
    ensures p == PromptBefore(lang) + ToolsList(tools) + PromptAfter(lang)
  {
    NoBraceBeforePlaceholder(lang);
    ReplaceFirstAfter(PromptBefore(lang), Placeholder, PromptAfter(lang), ToolsList(tools));
    ReplaceFirst(PromptTemplate(lang), Placeholder, ToolsList(tools))
  }

  /**
   * The tool list is empty exactly when there are no tools, so an empty map
   * replaces the placeholder by nothing.
   */
  lemma ToolsListEmpty(tools: ToolMap)
    ensures ToolsList(tools) == "" <==> |tools| == 0
  {
    var lines := ToolLines(tools);
    if |tools| > 0 {
      assert |ToolLine(0, tools[0].tool)| > 0;
      assert Join(lines, "\n")[..|lines[0]|] == lines[0];
    } else {
      assert lines == [];
    }
  }

  ghost predicate NoNewlineIn(t: Tool)
  {
    && '\n' !in t.name
    && '\n' !in t.description
    && (t.parameters.Some? ==> forall k :: 0 <= k < |t.parameters.value| ==> '\n' !in t.parameters.value[k].0)
  }

  lemma ToolLineHasNoNewline(i: nat, t: Tool)
    requires NoNewlineIn(t)
    ensures '\n' !in ToolLine(i, t)
  {
    if t.parameters.Some? {
      JoinAvoids(ParamKeys(t.parameters.value), ", ", '\n');
    }
    var d := NatToString(i + 1);
    assert forall k :: 0 <= k < |d| ==> d[k] != '\n';
  }

  /**
   * The tool list has exactly one line per tool, in map order: splitting it at
   * newlines gives back the tool lines (when no tool text contains a newline).
   */
  lemma ToolsListLines(tools: ToolMap)
    requires |tools| > 0
    requires forall i :: 0 <= i < |tools| ==> NoNewlineIn(tools[i].tool)
    ensures Split(ToolsList(tools), '\n') == ToolLines(tools)
    ensures |Split(ToolsList(tools), '\n')| == |tools|
  {
    var lines := ToolLines(tools);
    forall k | 0 <= k < |lines|
      ensures '\n' !in lines[k]
    {
      ToolLineHasNoNewline(k, tools[k].tool);
    }
    SplitJoin(lines, '\n');
  }

  /** The line of the tool at position `i` starts with its number `i + 1`, read back up to the first '.'. */
  lemma ToolLineNumber(i: nat, t: Tool)
    ensures IndexOf(ToolLine(i, t), ".") == Some(|NatToString(i + 1)|)
    ensures ParseDecimal(ToolLine(i, t)[..|NatToString(i + 1)|]) == i + 1
  {
    var d := NatToString(i + 1);
    var rest := " " + t.name + "(" + ParamList(t) + ") - " + t.description;
    assert ToolLine(i, t) == d + "." + rest;
    assert forall k :: 0 <= k < |d| ==> d[k] != '.';
    ReplaceFirstAfter(d, ".", rest, "");
    assert ToolLine(i, t)[..|d|] == d;
    NatToStringRoundTrip(i + 1);
  }

  /** The per-language description table of the demo tools. */
  function Description(lang: Language, key: string): string
  {
    match lang
    case En =>
      if key == "set_bg_color" then "Changes the background color."
      else if key == "toggle_sidebar" then "Opens or closes the sidebar menu."
      else if key == "open_modal" then "Opens a test modal."
      else if key == "close_modal" then "Closes the active modal."
      else if key == "close_session" then "Ends the voice session and stops listening."
      else ""
    case Pt =>
      if key == "set_bg_color" then "Muda a cor de fundo."
      else if key == "toggle_sidebar" then "Abre ou fecha o menu lateral " + "de configura\U{00E7}\U{00F5}es."
      else if key == "open_modal" then "Abre um modal de teste."
      else if key == "close_modal" then "Fecha o modal ativo."
      else if key == "close_session" then "Encerra a sess\U{00E3}o de voz e para de ouvir."
      else ""
  }

  const DemoToolKeys: seq<string> := ["set_bg_color", "toggle_sidebar", "open_modal", "close_modal", "close_session"]

  /**
   * `getTools(lang, actions)`: each tool's `execute` calls the embedder's
   * action of the same name; the two tools with parameters pass their
   * arguments on, the other three pass an empty object.
   */
  function GetTools(lang: Language): (m: ToolMap)
  {
    var m := [
      ToolEntry("set_bg_color", Tool("set_bg_color", Description(lang, "set_bg_color"),
        Some([("color", ParamSpec("string", Some("HEX Color")))]), ForwardArgs("set_bg_color"))),
      ToolEntry("toggle_sidebar", Tool("toggle_sidebar", Description(lang, "toggle_sidebar"),
        Some([("open", ParamSpec("boolean", None))]), ForwardArgs("toggle_sidebar"))),
      ToolEntry("open_modal", Tool("open_modal", Description(lang, "open_modal"), None, EmptyArgs("open_modal"))),
      ToolEntry("close_modal", Tool("close_modal", Description(lang, "close_modal"), None, EmptyArgs("close_modal"))),
      ToolEntry("close_session", Tool("close_session", Description(lang, "close_session"), None, EmptyArgs("close_session")))
    ];
    assert forall i :: 0 <= i < |m| ==> |m[i].key| == [12, 14, 10, 11, 13][i];
    m
  }

  /** The demo registry has exactly the five keys, in this order. */
  lemma GetToolsKeys(lang: Language)
    ensures Keys(GetTools(lang)) == DemoToolKeys
  {
  }

  /** Every entry is named after its key and described from the language's table. */
  lemma GetToolsNames(lang: Language)
    ensures forall i :: 0 <= i < |GetTools(lang)| ==>
      var e := GetTools(lang)[i];
      && e.tool.name == e.key
      && e.tool.description == Description(lang, e.key)
  {
  }

  /**
   * Every entry calls the action of its own name, passing the arguments on
   * exactly when it declares parameters and an empty object otherwise.
   */
  lemma GetToolsActions(lang: Language, args: Option<Args>)
    ensures forall i :: 0 <= i < |GetTools(lang)| ==>
      var e := GetTools(lang)[i];
      && Invoke(e.tool, args).action == e.key
      && Invoke(e.tool, args).payload == (if e.tool.parameters.Some? then args else Some(map[]))
  {
  }

  /** `set_bg_color` declares exactly `color`, `toggle_sidebar` exactly `open`, the others nothing. */
  lemma GetToolsParameters(lang: Language)
    ensures ParamList(GetTools(lang)[0].tool) == "color"
    ensures ParamList(GetTools(lang)[1].tool) == "open"
    ensures forall i :: 2 <= i < 5 ==> GetTools(lang)[i].tool.parameters.None?
  {
  }
}
