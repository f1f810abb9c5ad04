/**
 * Runs of the controller through construction, interim fragments followed by
 * a final transcript, a transcript dropped while a cycle is in flight, a
 * configured tool, an unknown tool, and a failing language model followed by
 * a fresh cycle.
 */
module Scenarios {
  import opened Types
  import opened Text
  import opened Controller
  import I18n

  const Recognizer: AsrInstance := AsrInstance(1, "web-speech", true, true)
  const Model: LlmInstance := LlmInstance(2, "web-llm", true, true, true)

  /** Defaults on construction; a language-only update still reaches both providers. */
  method ConstructionScenario()
  {
    var c := new ActosVoiceController(ActosVoiceConfig(Recognizer, Model, None, None));
    assert c.GetLanguage() == En && c.tools == [];
    assert c.calls == [AsrOnTranscript(1), AsrOnError(1), AsrSetLanguage(1, En), LlmSetLanguage(2, En)];
    c.UpdateConfig(PartialConfig(None, None, None, Some(Pt)));
    assert c.GetLanguage() == Pt;
    assert c.calls[4..] == [AsrSetLanguage(1, Pt), LlmSetLanguage(2, Pt)];
  }

  lemma FinalIsResolved(text: string)
    requires |text| > 0 && text[0] == 'o'
    ensures ShouldResolve(text, true)
  {
    ShouldResolveMeans(text, true);
    assert !IsJsWhitespace(text[0]);
  }

  /** An interim fragment only reaches the listener. */
  method InterimFragment(c: ActosVoiceController, fragment: string)
    requires c.Valid() && !c.isProcessing && c.transcriptListeners == [7]
    modifies c
    ensures c.Valid() && !c.isProcessing && c.transcriptListeners == [7] && c.llm == old(c.llm)
    ensures c.calls == old(c.calls) + [Deliver(7, fragment, false)]
  {
    c.HandleTranscript(fragment, false);
  }

  /** Every fragment reaches the listener in order; only the final one asks the model. */
  method FragmentsScenario(c: ActosVoiceController)
    requires c.Valid() && !c.isProcessing && c.transcriptListeners == [7]
    modifies c
  {
    var before := c.calls;
    InterimFragment(c, "ol");
    InterimFragment(c, "ol\U{00E1}");
    var final: string := "ol\U{00E1} mundo";
    FinalIsResolved(final);
    c.HandleTranscript(final, true);
    assert c.calls == before + [Deliver(7, "ol", false), Deliver(7, "ol\U{00E1}", false), Deliver(7, final, true),
      ProcessText(c.llm.handle, final)];
    assert c.isProcessing && c.cycle == AwaitingText;
  }

  /** A final transcript that arrives during a cycle is delivered to listeners but never reaches the model. */
  method DropScenario(c: ActosVoiceController, text: string)
    requires c.Valid() && c.isProcessing
    modifies c
  {
    var before := c.calls;
    c.HandleTranscript(text, true);
    assert c.calls == before + DeliverAll(c.transcriptListeners, text, true);
    assert ProcessTextCount(c.calls) == ProcessTextCount(before) by {
      CountsConcat(before, DeliverAll(c.transcriptListeners, text, true));
      DeliveriesUncounted(c.transcriptListeners, text, true);
    }
  }

  /** A reply naming a configured demo tool runs it once with the reply's arguments. */
  method ToolScenario(c: ActosVoiceController)
    requires c.Valid() && c.cycle == AwaitingText && c.tools == I18n.GetTools(En)
    modifies c
  {
    var args: Args := map["color" := JStr("#FF0000")];
    var reply := ToolCallResult(Some("set_bg_color"), Some(args), "ok");
    var before := c.calls;
    c.SettleText(Returned(Some(reply)));
    var tool := I18n.GetTools(En)[0].tool;
    assert Dispatch(reply, c.tools) == RunTool("set_bg_color", tool);
    assert c.calls == before + [Execute(tool, Some(args))];
    assert Invoke(tool, Some(args)) == ActionCall("set_bg_color", Some(args));
    c.SettleTool(Pass);
    assert !c.isProcessing;
  }

  /** A reply naming a tool nobody configured runs nothing and leaves one warning. */
  method UnknownToolScenario(c: ActosVoiceController)
    requires c.Valid() && c.cycle == AwaitingText && c.tools == I18n.GetTools(En)
    modifies c
  {
    var reply := ToolCallResult(Some("unknown_tool"), None, "ok");
    var before := c.calls;
    var log := c.log;
    I18n.GetToolsKeys(En);
    assert "unknown_tool" !in I18n.DemoToolKeys;
    c.SettleText(Returned(Some(reply)));
    assert c.calls == before && !c.isProcessing;
    assert c.log == log + [LogEntry(Warn, MissingToolMessage("unknown_tool"), None)];
  }

  /** A failing model is logged once, clears the flag, and the next final transcript is resolved again. */
  method FailureScenario(c: ActosVoiceController)
    requires c.Valid() && c.cycle == AwaitingText
    modifies c
  {
    var log := c.log;
    c.SettleText(Threw("boom"));
    assert c.log == log + [LogEntry(Fault, LlmErrorMessage, Some("boom"))] && !c.isProcessing;
    var before := c.calls;
    assert ShouldResolve("again", true) by {
      ShouldResolveMeans("again", true);
      assert !IsJsWhitespace("again"[0]);
    }
    c.HandleTranscript("again", true);
    assert c.calls == before + DeliverAll(c.transcriptListeners, "again", true) + [ProcessText(c.llm.handle, "again")];
  }

  /** A failed model load ends `start` before the recognizer is started. */
  method StartFailureScenario(c: ActosVoiceController)
    requires c.Valid()
    modifies c
  {
    var before := c.calls;
    var r := c.Start(Fail("WebGPU not supported"), Pass);
    assert r == Fail("WebGPU not supported");
    assert c.calls == before + [LlmInit(c.llm.handle)];
    assert forall k :: |before| <= k < |c.calls| ==> !c.calls[k].AsrStart?;
  }
}
