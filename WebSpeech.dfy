/**
 * The browser speech-recognition provider (packages/asr-webspeech/src/index.ts).
 *
 * The browser's `SpeechRecognition` object becomes fields of the provider:
 * its `lang`, `continuous` and `interimResults` settings and the number of
 * `start()` and `stop()` calls made on it. The four event handlers the
 * provider installs on it become the methods `HandleStart`, `HandleResult`,
 * `HandleError` and `HandleEnd`, which the browser would call. Every call of
 * the provider's registered callbacks is recorded, in order, in `events`.
 */
module WebSpeech {
  import opened Types

  /** `WebSpeechConfig`: every key optional. */
  datatype WebSpeechConfig = WebSpeechConfig(language: Option<string>, continuous: Option<bool>, interimResults: Option<bool>)

  const DefaultLang: string := "en-US"

  /** `config.language || 'en-US'`: an absent or empty language selects the default. */
  function ConfiguredLang(c: WebSpeechConfig): string
  {
    if c.language.Some? && c.language.value != "" then c.language.value else DefaultLang
  }

  /** `flag ?? true`. */
  function FlagOrTrue(flag: Option<bool>): bool
  {
    match flag
    case Some(b) => b
    case None => true
  }

  /** The recognizer's language tag for the working language: 'pt' is Brazilian Portuguese, anything else US English. */
  function SpeechLang(lang: Language): string
  {
    if lang == Pt then "pt-BR" else "en-US"
  }

  /** The mapping sends the two languages to two different tags, so it can be read back. */
  lemma SpeechLangInjective(a: Language, b: Language)
    ensures SpeechLang(Pt) == "pt-BR" && SpeechLang(En) == "en-US"
    ensures SpeechLang(a) == SpeechLang(b) <==> a == b
  {
    if a != b {
      assert SpeechLang(a)[0] != SpeechLang(b)[0];
    }
  }

  /** One entry of `event.results`: whether it is final, and the transcript of its first alternative. */
  datatype SpeechResult = SpeechResult(isFinal: bool, transcript: string)

  /** One call of the transcript callback. */
  datatype Emission = Emission(text: string, isFinal: bool)

  /** The final results' transcripts, each on its own and in order. */
  function Finals(rs: seq<SpeechResult>): seq<Emission>
  {
    if rs == [] then []
    else
      var last := rs[|rs| - 1];
      Finals(rs[..|rs| - 1]) + (if last.isFinal then [Emission(last.transcript, true)] else [])
  }

  /** The concatenation of the interim results' transcripts, in order. */
  function Interim(rs: seq<SpeechResult>): string
  {
    if rs == [] then ""
    else
      var last := rs[|rs| - 1];
      Interim(rs[..|rs| - 1]) + (if last.isFinal then "" else last.transcript)
  }

  /** The emissions of one result event over the results it covers: the finals, then the interim text once if it is non-empty. */
  function Segment(rs: seq<SpeechResult>): seq<Emission>
  {
    Finals(rs) + (if |Interim(rs)| > 0 then [Emission(Interim(rs), false)] else [])
  }

  /** A single result contributes its own emission if final, or its text to the interim part. */
  lemma SegmentSingle(r: SpeechResult)
    ensures r.isFinal ==> Finals([r]) == [Emission(r.transcript, true)] && Interim([r]) == ""
    ensures !r.isFinal ==> Finals([r]) == [] && Interim([r]) == r.transcript
  {
    assert [r][..0] == [];
  }

  /** Finals distribute over concatenation: the finals of `a` come first, in order. */
  lemma {:induction false} FinalsConcat(a: seq<SpeechResult>, b: seq<SpeechResult>)
    ensures Finals(a + b) == Finals(a) + Finals(b)
    decreases |b|
  {
    if b == [] {
      assert a + b == a;
    } else {
      var b' := b[..|b| - 1];
      assert (a + b)[..|a + b| - 1] == a + b';
      FinalsConcat(a, b');
    }
  }

  /** The interim text of a concatenation is the concatenation of the interim texts. */
  lemma {:induction false} InterimConcat(a: seq<SpeechResult>, b: seq<SpeechResult>)
    ensures Interim(a + b) == Interim(a) + Interim(b)
    decreases |b|
  {
    if b == [] {
      assert a + b == a;
    } else {
      var b' := b[..|b| - 1];
      assert (a + b)[..|a + b| - 1] == a + b';
      InterimConcat(a, b');
    }
  }

  /** Exactly one emission per final result, all of them final, each carrying its result's transcript. */
  lemma {:induction false} FinalsAreTheFinalResults(rs: seq<SpeechResult>)
    ensures |Finals(rs)| == |set k | 0 <= k < |rs| && rs[k].isFinal|
    ensures forall e :: e in Finals(rs) ==> e.isFinal && exists k :: 0 <= k < |rs| && rs[k].isFinal && rs[k].transcript == e.text
  {
    if rs != [] {
      var init := rs[..|rs| - 1];
      FinalsAreTheFinalResults(init);
      var s := set k | 0 <= k < |rs| && rs[k].isFinal;
      var s' := set k | 0 <= k < |init| && init[k].isFinal;
      if rs[|rs| - 1].isFinal {
        assert s == s' + {|rs| - 1};
      } else {
        assert s == s';
      }
      forall e | e in Finals(rs)
        ensures e.isFinal && exists k :: 0 <= k < |rs| && rs[k].isFinal && rs[k].transcript == e.text
      {
        if e in Finals(init) {
          var k :| 0 <= k < |init| && init[k].isFinal && init[k].transcript == e.text;
          assert rs[k] == init[k];
        } else {
          assert rs[|rs| - 1].isFinal && rs[|rs| - 1].transcript == e.text;
        }
      }
    }
  }

  /**
   * In one event at most one emission is interim, it comes last, and it is
   * there exactly when the interim text is non-empty.
   */
  lemma SegmentShape(rs: seq<SpeechResult>)
    ensures forall k :: 0 <= k < |Segment(rs)| - 1 ==> Segment(rs)[k].isFinal
    ensures |Segment(rs)| == |Finals(rs)| + (if |Interim(rs)| > 0 then 1 else 0)
    ensures |Interim(rs)| > 0 <==> |Segment(rs)| > 0 && !Segment(rs)[|Segment(rs)| - 1].isFinal
  {
    FinalsAreTheFinalResults(rs);
    var f := Finals(rs);
    forall k | 0 <= k < |f|
      ensures f[k].isFinal
    {
      assert f[k] in f;
    }
  }

  function Clamp(i: nat, n: nat): (c: nat)
    ensures c <= n && (i <= n ==> c == i)
  {
    if i <= n then i else n
  }

  /** Taking one more result extends the finals or the interim text by that result alone. */
  lemma SegmentStep(rs: seq<SpeechResult>, lo: nat, i: nat)
    requires lo <= i < |rs|
    ensures Finals(rs[lo..i + 1]) == Finals(rs[lo..i]) + (if rs[i].isFinal then [Emission(rs[i].transcript, true)] else [])
    ensures Interim(rs[lo..i + 1]) == Interim(rs[lo..i]) + (if rs[i].isFinal then "" else rs[i].transcript)
  {
    assert rs[lo..i + 1][..i - lo] == rs[lo..i];
  }

  /** The results a result event covers: from `resultIndex` to the end, none when the index is past the end. */
  function Covered(results: seq<SpeechResult>, resultIndex: nat): seq<SpeechResult>
  {
    if resultIndex <= |results| then results[resultIndex..] else []
  }

  /** One call of a callback the provider holds. */
  datatype Event =
    | Transcript(callback: nat, text: string, isFinal: bool)
    | StateChanged(callback: nat, state: AsrState)
    | ErrorRaised(callback: nat, message: string)

  /** The transcript-callback calls for a run of emissions (none without a callback). */
  function Deliveries(cb: Option<nat>, es: seq<Emission>): seq<Event>
  {
    if cb.None? then []
    else seq(|es|, k requires 0 <= k < |es| => Transcript(cb.value, es[k].text, es[k].isFinal))
  }

  lemma DeliveriesConcat(cb: Option<nat>, a: seq<Emission>, b: seq<Emission>)
    ensures Deliveries(cb, a + b) == Deliveries(cb, a) + Deliveries(cb, b)
  {
    if cb.Some? {
      assert forall k :: 0 <= k < |b| ==> (a + b)[|a| + k] == b[k];
    }
  }

  lemma DeliveriesStep(cb: Option<nat>, rs: seq<SpeechResult>, lo: nat, i: nat)
    requires lo <= i < |rs|
    ensures Deliveries(cb, Finals(rs[lo..i + 1])) ==
      Deliveries(cb, Finals(rs[lo..i])) + (if rs[i].isFinal then Deliveries(cb, [Emission(rs[i].transcript, true)]) else [])
  {
    SegmentStep(rs, lo, i);
    if rs[i].isFinal {
      DeliveriesConcat(cb, Finals(rs[lo..i]), [Emission(rs[i].transcript, true)]);
    } else {
      assert Finals(rs[lo..i + 1]) == Finals(rs[lo..i]);
    }
  }

  /** A result event's callback calls: the finals' calls, then the interim call if there is interim text. */
  lemma DeliverSegment(cb: Option<nat>, rs: seq<SpeechResult>)
    ensures Deliveries(cb, Segment(rs)) ==
      Deliveries(cb, Finals(rs)) + (if |Interim(rs)| > 0 then Deliveries(cb, [Emission(Interim(rs), false)]) else [])
  {
    DeliveriesConcat(cb, Finals(rs), if |Interim(rs)| > 0 then [Emission(Interim(rs), false)] else []);
  }

  lemma CoveredRange(results: seq<SpeechResult>, resultIndex: nat)
    ensures results[Clamp(resultIndex, |results|)..|results|] == Covered(results, resultIndex)
  {
  }

  function StateNotices(cb: Option<nat>, s: AsrState): seq<Event>
  {
    if cb.Some? then [StateChanged(cb.value, s)] else []
  }

  function ErrorNotices(cb: Option<nat>, message: string): seq<Event>
  {
    if cb.Some? then [ErrorRaised(cb.value, message)] else []
  }

  class WebSpeechProvider {
    const id: string
    /** `recognition.lang`, `recognition.continuous`, `recognition.interimResults`. */
    var lang: string
    var continuous: bool
    var interimResults: bool
    var state: AsrState
    /** How many times `recognition.start()` and `recognition.stop()` have been called. */
    var starts: nat
    var stops: nat
    var transcriptCallback: Option<nat>
    var stateCallback: Option<nat>
    var errorCallback: Option<nat>
    /** Every call of a registered callback, in order. */
    var events: seq<Event>

    constructor (c: WebSpeechConfig)
      ensures id == "web-speech" && state == AsrState.Idle
      ensures lang == ConfiguredLang(c)
      ensures continuous == FlagOrTrue(c.continuous) && interimResults == FlagOrTrue(c.interimResults)
      ensures starts == 0 && stops == 0 && events == []
      ensures transcriptCallback == None && stateCallback == None && errorCallback == None
    {
      id := "web-speech";
      lang := ConfiguredLang(c);
      continuous := FlagOrTrue(c.continuous);
      interimResults := FlagOrTrue(c.interimResults);
      state := AsrState.Idle;
      starts := 0;
      stops := 0;
      transcriptCallback := None;
      stateCallback := None;
      errorCallback := None;
      events := [];
    }

    /**
     * `new WebSpeechProvider(config)`, which throws when the browser has no
     * speech-recognition API: no provider then.
     */
    static method Create(c: WebSpeechConfig, apiPresent: bool) returns (r: Option<WebSpeechProvider>)
      ensures r.None? <==> !apiPresent
      ensures r.Some? ==> fresh(r.value) && r.value.lang == ConfiguredLang(c) && r.value.state == AsrState.Idle
      ensures r.Some? ==> r.value.continuous == FlagOrTrue(c.continuous) && r.value.interimResults == FlagOrTrue(c.interimResults)
      ensures r.Some? ==> r.value.starts == 0 && r.value.stops == 0 && r.value.events == []
    {
      if !apiPresent {
        return None;
      }
      var p := new WebSpeechProvider(c);
      r := Some(p);
    }

    /**
     * Switches the recognizer to the language's tag. Only a change of tag
     * does anything; while listening it also stops the recognizer, whose end
     * event then restarts it with the new tag.
     */
    method SetLanguage(l: Language)
      modifies this`lang, this`stops
      ensures lang == SpeechLang(l)
      ensures old(lang) == SpeechLang(l) ==> stops == old(stops)
      ensures old(lang) != SpeechLang(l) ==> stops == old(stops) + (if state == AsrState.Listening then 1 else 0)
    {
      var speechLang := SpeechLang(l);
      if lang != speechLang {
        lang := speechLang;
        if state == AsrState.Listening {
          stops := stops + 1;
        }
      }
    }

    method SetState(s: AsrState)
      modifies this`state, this`events
      ensures state == s && events == old(events) + StateNotices(stateCallback, s)
    {
      state := s;
      events := events + StateNotices(stateCallback, s);
    }

    /** `recognition.onstart`. */
    method HandleStart()
      modifies this`state, this`events
      ensures state == AsrState.Listening
      ensures events == old(events) + StateNotices(stateCallback, AsrState.Listening)
    {
      SetState(AsrState.Listening);
    }

    /**
     * `recognition.onresult`: over the results from `resultIndex` on, each
     * final transcript is delivered on its own as final, in order, and then
     * the interim transcripts, joined, are delivered once as not final if
     * they are not empty.
     */
    method HandleResult(results: seq<SpeechResult>, resultIndex: nat)
      modifies this`events
      ensures events == old(events) + Deliveries(transcriptCallback, Segment(Covered(results, resultIndex)))
    {
      var interim := EmitFinals(results, resultIndex);
      DeliverSegment(transcriptCallback, Covered(results, resultIndex));
      if |interim| > 0 {
        Emit(interim, false);
      }
    }

    /**
     * The loop of `recognition.onresult`: emits each final transcript from
     * `resultIndex` on and returns the interim transcripts joined.
     */
    method EmitFinals(results: seq<SpeechResult>, resultIndex: nat) returns (interim: string)
      modifies this`events
      ensures events == old(events) + Deliveries(transcriptCallback, Finals(Covered(results, resultIndex)))
      ensures interim == Interim(Covered(results, resultIndex))
    {
      ghost var lo := Clamp(resultIndex, |results|);
      ghost var cb := transcriptCallback;
      ghost var before := events;
      interim := "";
      var i := resultIndex;
      ghost var hi := lo;
      while i < |results|
        invariant lo <= hi <= |results| && (i <= |results| ==> hi == i) && (i > |results| ==> i == resultIndex)
        invariant interim == Interim(results[lo..hi])
        invariant events == before + Deliveries(cb, Finals(results[lo..hi]))
        invariant cb == transcriptCallback
        decreases |results| - i
      {
        DeliveriesStep(cb, results, lo, i);
        SegmentStep(results, lo, i);
        if results[i].isFinal {
          Emit(results[i].transcript, true);
        } else {
          interim := interim + results[i].transcript;
        }
        i := i + 1;
        hi := i;
      }
      CoveredRange(results, resultIndex);
    }

    /** `this.transcriptCallback?.(text, isFinal)`. */
    method Emit(text: string, isFinal: bool)
      modifies this`events
      ensures events == old(events) + Deliveries(transcriptCallback, [Emission(text, isFinal)])
    {
      if transcriptCallback.Some? {
        assert [Emission(text, isFinal)][..0] == [];
        events := events + [Transcript(transcriptCallback.value, text, isFinal)];
      }
    }

    /** `recognition.onerror`: the state becomes `error`, then the error callback hears the error. */
    method HandleError(message: string)
      modifies this`state, this`events
      ensures state == AsrState.Error
      ensures events == old(events) + StateNotices(stateCallback, AsrState.Error) + ErrorNotices(errorCallback, message)
    {
      SetState(AsrState.Error);
      events := events + ErrorNotices(errorCallback, message);
    }

    /** `recognition.onend`: restart while listening, otherwise settle in `idle`. */
    method HandleEnd()
      modifies this`state, this`events, this`starts
      ensures old(state) == AsrState.Listening ==>
        starts == old(starts) + 1 && state == AsrState.Listening && events == old(events)
      ensures old(state) != AsrState.Listening ==>
        starts == old(starts) && state == AsrState.Idle && events == old(events) + StateNotices(stateCallback, AsrState.Idle)
    {
      if state == AsrState.Listening {
        starts := starts + 1;
      } else {
        SetState(AsrState.Idle);
      }
    }

    method Start()
      modifies this`starts
      ensures starts == old(starts) + 1
    {
      starts := starts + 1;
    }

    /**
     * Sets `idle` before stopping the recognizer, so that the end event that
     * follows does not restart it, and tells the state callback.
     */
    method Stop()
      modifies this`state, this`stops, this`events
      ensures state == AsrState.Idle && stops == old(stops) + 1
      ensures events == old(events) + StateNotices(stateCallback, AsrState.Idle)
    {
      state := AsrState.Idle;
      stops := stops + 1;
      events := events + StateNotices(stateCallback, AsrState.Idle);
    }

    /** Each registration replaces the callback held before. */
    method OnTranscript(cb: nat)
      modifies this`transcriptCallback
      ensures transcriptCallback == Some(cb)
    {
      transcriptCallback := Some(cb);
    }

    method OnStateChange(cb: nat)
      modifies this`stateCallback
      ensures stateCallback == Some(cb)
    {
      stateCallback := Some(cb);
    }

    method OnError(cb: nat)
      modifies this`errorCallback
      ensures errorCallback == Some(cb)
    {
      errorCallback := Some(cb);
    }
  }

  /** A stopped recognizer stays stopped: the end event after `stop` does not restart it. */
  method StopThenEnd(p: WebSpeechProvider)
    modifies p
  {
    p.HandleStart();
    var before := p.starts;
    p.Stop();
    p.HandleEnd();
    assert p.starts == before && p.state == AsrState.Idle;
  }

  /** An error followed by the end event leaves the provider `idle`, without a restart. */
  method ErrorThenEnd(p: WebSpeechProvider, message: string)
    modifies p
  {
    var before := p.starts;
    p.HandleError(message);
    p.HandleEnd();
    assert p.starts == before && p.state == AsrState.Idle;
  }

  /** While listening, an end event restarts the recognizer; a language change stops it so that happens. */
  method LanguageSwitchWhileListening(p: WebSpeechProvider)
    requires p.lang == "en-US"
    modifies p
  {
    p.HandleStart();
    var stops := p.stops;
    var starts := p.starts;
    p.SetLanguage(Pt);
    assert p.lang == "pt-BR" && p.stops == stops + 1;
    p.HandleEnd();
    assert p.starts == starts + 1 && p.state == AsrState.Listening;
    p.SetLanguage(Pt);
    assert p.stops == stops + 1;
  }

  /** Later registrations replace earlier ones: only the last transcript callback hears results. */
  method SingleSlotScenario(p: WebSpeechProvider)
    modifies p
  {
    p.OnTranscript(1);
    p.OnTranscript(2);
    var evs := p.events;
    p.HandleResult([SpeechResult(true, "hi")], 0);
    SegmentSingle(SpeechResult(true, "hi"));
    assert [SpeechResult(true, "hi")][0..] == [SpeechResult(true, "hi")];
    assert p.events == evs + [Transcript(2, "hi", true)];
  }
}
