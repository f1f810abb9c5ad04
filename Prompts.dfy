/**
 * The prose of the demo's two system-prompt templates (`PROMPTS` in
 * demo/src/i18n.ts), split at their one `{{TOOLS}}` placeholder.
 */
module Prompts {
  import opened Types

  // The two prompt templates, written as the prose before and after their
  // one placeholder, each as a list of pieces whose concatenation is the
  // source's text; the prose itself is data the model does not interpret.
  const EnPromptBeforePieces: seq<string> := [
    "You are a playground assistant for ",
    "the ActosVoice library.\n",
    "    Respond ONLY with structured JSON.\n",
    "    \n",
    "    COLOR RULES:\n",
    "    Always provide the color in HEX ",
    "format (e.g., \"#FF0000\").\n",
    "    \n",
    "    Available tools:\n",
    "    "
  ]
  const EnPromptAfterPieces: seq<string> := [
    "\n",
    "    \n",
    "    IMPORTANT: If you are not certain about which tool to call, or if the user instruction does not clearly correspond to any tool, DO NOT use tool calling. In this case, set \"tool\" to null.\n",
    "    \n",
    "    Always return JSON in this format:\n",
    "    {\"tool\": \"tool_name\" | null, \"args\": {\"param\": \"value\"}, \"response\": \"Your conversational response\"}\n",
    "    \n",
    "    Examples: \n",
    "    - \"Change to red\" -> {\"tool\": \"set_bg_color\", \"args\": {\"color\": \"#FF0000\"}, \"response\": \"Got it, changing to red!\"}\n",
    "    - \"Close menu\" -> {\"tool\": \"toggle_sidebar\", \"args\": {\"open\": false}, \"response\": \"Closing sidebar\"}\n",
    "    - \"End conversation\" -> {\"tool\": \"close_session\", \"response\": \"Goodbye!\"}\n",
    "    - \"Tell me a joke\" -> {\"tool\": null, \"response\": \"Why don't scientists trust atoms? Because they make up everything!\"}"
  ]
  const PtPromptBeforePieces: seq<string> := [
    "Voc\U{00EA} \U{00E9} um assistente de playground ",
    "para a biblioteca ActosVoice. \n",
    "    Responda APENAS com JSON estruturado.\n",
    "    \n",
    "    REGRAS DE CORES:\n",
    "    Sempre forne\U{00E7}a a cor no formato ",
    "HEX (ex: \"#FF0000\").\n",
    "    \n",
    "    Ferramentas dispon\U{00ED}veis:\n",
    "    "
  ]
  const PtPromptAfterPieces: seq<string> := [
    "\n",
    "\n",
    "    IMPORTANTE: Se voc\U{00EA} n\U{00E3}o tiver certeza sobre qual ferramenta chamar, ou se a instru\U{00E7}\U{00E3}o do usu\U{00E1}rio n\U{00E3}o corresponder claramente a nenhuma ferramenta, N\U{00C3}O use tool calling. Nesse caso, defina \"tool\" como null.\n",
    "    \n",
    "    Sempre retorne JSON neste formato:\n",
    "    {\"tool\": \"nome_da_ferramenta\" | null, \"args\": {\"param\": \"valor\"}, \"response\": \"Sua resposta conversacional\"}\n",
    "    \n",
    "    Exemplos: \n",
    "    - \"Mude para vermelho\" -> {\"tool\": \"set_bg_color\", \"args\": {\"color\": \"#FF0000\"}, \"response\": \"Pronto, mudei para vermelho!\"}\n",
    "    - \"Fechar menu\" -> {\"tool\": \"toggle_sidebar\", \"args\": {\"open\": false}, \"response\": \"Fechando o menu\"}\n",
    "    - \"Encerrar conversa\" -> {\"tool\": \"close_session\", \"response\": \"At\U{00E9} logo!\"}\n",
    "    - \"Me conte uma piada\" -> {\"tool\": null, \"response\": \"Por que o livro de matem\U{00E1}tica se suicidou? Porque tinha muitos problemas!\"}"
  ]


  /** The pieces of the text before the placeholder, in order. */
  function BeforePieces(lang: Language): seq<string>
  {
    match lang
    case En => EnPromptBeforePieces
    case Pt => PtPromptBeforePieces
  }

  /** The pieces of the text after the placeholder, in order. */
  function AfterPieces(lang: Language): seq<string>
  {
    match lang
    case En => EnPromptAfterPieces
    case Pt => PtPromptAfterPieces
  }

  lemma NoBraceInEnBeforeHead()
    ensures |EnPromptBeforePieces| == 10
    ensures forall k :: 0 <= k < 3 ==> '{' !in EnPromptBeforePieces[k]
  {
    assert '{' !in EnPromptBeforePieces[0];
    assert '{' !in EnPromptBeforePieces[1];
    assert '{' !in EnPromptBeforePieces[2];
  }

  lemma NoBraceInEnBeforeMiddle()
    ensures forall k :: 3 <= k < 6 ==> '{' !in EnPromptBeforePieces[k]
  {
    assert '{' !in EnPromptBeforePieces[3];
    assert '{' !in EnPromptBeforePieces[4];
    assert '{' !in EnPromptBeforePieces[5];
  }

  lemma NoBraceInEnBeforeTail()
    ensures forall k :: 6 <= k < 10 ==> '{' !in EnPromptBeforePieces[k]
  {
    assert '{' !in EnPromptBeforePieces[6];
    assert '{' !in EnPromptBeforePieces[7];
    assert '{' !in EnPromptBeforePieces[8];
    assert '{' !in EnPromptBeforePieces[9];
  }

  lemma NoBraceInEnBeforePieces()
    ensures forall k :: 0 <= k < |EnPromptBeforePieces| ==> '{' !in EnPromptBeforePieces[k]
  {
    NoBraceInEnBeforeHead();
    NoBraceInEnBeforeMiddle();
    NoBraceInEnBeforeTail();
  }

  lemma NoBraceInPtBeforeHead()
    ensures |PtPromptBeforePieces| == 10
    ensures forall k :: 0 <= k < 3 ==> '{' !in PtPromptBeforePieces[k]
  {
    assert '{' !in PtPromptBeforePieces[0];
    assert '{' !in PtPromptBeforePieces[1];
    assert '{' !in PtPromptBeforePieces[2];
  }

  lemma NoBraceInPtBeforeMiddle()
    ensures forall k :: 3 <= k < 6 ==> '{' !in PtPromptBeforePieces[k]
  {
    assert '{' !in PtPromptBeforePieces[3];
    assert '{' !in PtPromptBeforePieces[4];
    assert '{' !in PtPromptBeforePieces[5];
  }

  lemma NoBraceInPtBeforeTail()
    ensures forall k :: 6 <= k < 10 ==> '{' !in PtPromptBeforePieces[k]
  {
    assert '{' !in PtPromptBeforePieces[6];
    assert '{' !in PtPromptBeforePieces[7];
    assert '{' !in PtPromptBeforePieces[8];
    assert '{' !in PtPromptBeforePieces[9];
  }

  lemma NoBraceInPtBeforePieces()
    ensures forall k :: 0 <= k < |PtPromptBeforePieces| ==> '{' !in PtPromptBeforePieces[k]
  {
    NoBraceInPtBeforeHead();
    NoBraceInPtBeforeMiddle();
    NoBraceInPtBeforeTail();
  }

  /** No piece before the placeholder holds a '{'. */
  lemma NoBraceInBeforePieces(lang: Language)
    ensures forall k :: 0 <= k < |BeforePieces(lang)| ==> '{' !in BeforePieces(lang)[k]
  {
    match lang
    case En => NoBraceInEnBeforePieces();
    case Pt => NoBraceInPtBeforePieces();
  }
}
