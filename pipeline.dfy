/** The three-stage pipeline over the session-state record: ask both
    backends (stage 1), have each critique the other's answer (stage 2), have
    the second backend conclude from everything so far (stage 3). Each stage
    is a function from the record before to the record after; a script run
    initialises the record and then runs whichever stages the user triggered. */
module Pipeline {
  import opened Wrappers
  import opened Backends
  import opened Prompts
  import opened ModelSelection

  /** The session-state entries the pipeline uses. None is an entry that is
      absent from the session state. */
  datatype SessionRecord = SessionRecord(
    userQ: Option<string>,      // the last question asked
    gResp: Option<string>,      // first backend's answer, or its error text
    oResp: Option<string>,      // second backend's answer, or its error text
    gAn: Option<string>,        // first backend's critique of the second's answer
    oAn: Option<string>,        // second backend's critique of the first's answer
    finalCon: Option<string>)   // the conclusion
  {
    /** The five result entries exist (the question need not). */
    predicate Initialised() {
      gResp.Some? && oResp.Some? && gAn.Some? && oAn.Some? && finalCon.Some?
    }
  }

  /** A brand-new browser session: nothing stored yet. */
  const Fresh: SessionRecord := SessionRecord(None, None, None, None, None, None)

  /** How a triggered stage ended. */
  datatype StageOutcome =
    | Ran             // the stage's calls were made
    | Blocked         // its inputs were missing: a warning was shown instead
    | Failed(notice: string)  // its call failed: the error notice shown

  datatype Step = Step(record: SessionRecord, outcome: StageOutcome)

  /** What one script run is triggered by: a submitted chat message, a click on
      the cross-analysis button, a click on the conclusion button. */
  datatype Event = Event(chatInput: Option<string>, analyseClicked: bool, concludeClicked: bool)

  function OrEmpty(entry: Option<string>): Option<string> {
    Some(entry.GetOr(""))
  }

  /** Create each absent result entry as the empty string. */
  function Initialise(s: SessionRecord): (r: SessionRecord)
    ensures r.Initialised()
    ensures r.userQ == s.userQ
    ensures s.gResp.Some? ==> r.gResp == s.gResp
    ensures s.oResp.Some? ==> r.oResp == s.oResp
    ensures s.gAn.Some? ==> r.gAn == s.gAn
    ensures s.oAn.Some? ==> r.oAn == s.oAn
    ensures s.finalCon.Some? ==> r.finalCon == s.finalCon
    ensures s.gResp.None? ==> r.gResp == Some("")
    ensures s.oResp.None? ==> r.oResp == Some("")
    ensures s.gAn.None? ==> r.gAn == Some("")
    ensures s.oAn.None? ==> r.oAn == Some("")
    ensures s.finalCon.None? ==> r.finalCon == Some("")
    // running it on an initialised record changes nothing
    ensures s.Initialised() ==> r == s
  {
    SessionRecord(s.userQ, OrEmpty(s.gResp), OrEmpty(s.oResp), OrEmpty(s.gAn), OrEmpty(s.oAn), OrEmpty(s.finalCon))
  }

  lemma InitialiseIdempotent(s: SessionRecord)
    ensures Initialise(Initialise(s)) == Initialise(s)
  {
  }

  /** Stage 1: store the question, then ask each backend the question itself
      and store its reply or its marked error, each in its own slot. */
  function Ask(s: SessionRecord, question: string, modelId: string, gemini: Backend, gpt: Backend): (r: SessionRecord)
    ensures r.userQ == Some(question)
    ensures r.gResp == Some(Recorded(gemini(modelId, question), GeminiErrorPrefix))
    ensures r.oResp == Some(Recorded(gpt(GptModel, question), GptErrorPrefix))
    // the critiques and the conclusion are left as they were
    ensures r.gAn == s.gAn && r.oAn == s.oAn && r.finalCon == s.finalCon
  {
    var s1 := s.(userQ := Some(question));
    var s2 := s1.(gResp := Some(Recorded(gemini(modelId, question), GeminiErrorPrefix)));
    s2.(oResp := Some(Recorded(gpt(GptModel, question), GptErrorPrefix)))
  }

  /** The answer a backend gives does not depend on the other backend. */
  lemma AskSlotsIndependent(s: SessionRecord, question: string, modelId: string,
                            gemini: Backend, gemini': Backend, gpt: Backend, gpt': Backend)
    ensures Ask(s, question, modelId, gemini, gpt).gResp == Ask(s, question, modelId, gemini, gpt').gResp
    ensures Ask(s, question, modelId, gemini, gpt).oResp == Ask(s, question, modelId, gemini', gpt).oResp
  {
  }

  /** Stage 2: unless an answer is empty (a warning instead), ask the first
      backend to critique the second's answer and the second to assess the
      first's, each failure marked in its own slot. */
  function CrossAnalyse(s: SessionRecord, modelId: string, gemini: Backend, gpt: Backend): (st: Step)
    requires s.gResp.Some? && s.oResp.Some?
    ensures st.outcome == Blocked <==> s.gResp.value == "" || s.oResp.value == ""
    ensures st.outcome == Blocked || st.outcome == Ran
    ensures st.outcome == Blocked ==> st.record == s
    ensures st.outcome == Ran ==>
      st.record.gAn == Some(Recorded(gemini(modelId, GeminiCritiquePrompt(s.oResp.value)), AnalysisErrorPrefix)) &&
      st.record.oAn == Some(Recorded(gpt(GptModel, GptCritiquePrompt(s.gResp.value)), AnalysisErrorPrefix))
    // only the two critique slots can change
    ensures st.record.(gAn := s.gAn, oAn := s.oAn) == s
  {
    if s.gResp.value == "" || s.oResp.value == "" then
      Step(s, Blocked)
    else
      var geminiCritique := Recorded(gemini(modelId, GeminiCritiquePrompt(s.oResp.value)), AnalysisErrorPrefix);
      var s1 := s.(gAn := Some(geminiCritique));
      var gptCritique := Recorded(gpt(GptModel, GptCritiquePrompt(s1.gResp.value)), AnalysisErrorPrefix);
      Step(s1.(oAn := Some(gptCritique)), Ran)
  }

  /** The synthesis prompt stage 3 sends for a record. */
  function ConclusionPrompt(s: SessionRecord): string
    requires s.gResp.Some? && s.oResp.Some? && s.gAn.Some? && s.oAn.Some?
  {
    SynthesisPrompt(s.userQ.GetOr(""), s.gResp.value, s.oResp.value, s.gAn.value, s.oAn.value)
  }

  /** Stage 3: unless a critique is empty (a warning instead), ask the second
      backend to conclude from the question, both answers and both critiques;
      store the conclusion only when the call succeeds. */
  function Conclude(s: SessionRecord, gpt: Backend): (st: Step)
    requires s.gResp.Some? && s.oResp.Some? && s.gAn.Some? && s.oAn.Some?
    ensures st.outcome == Blocked <==> s.gAn.value == "" || s.oAn.value == ""
    ensures st.outcome == Ran <==>
      s.gAn.value != "" && s.oAn.value != "" && gpt(GptModel, ConclusionPrompt(s)).Ok?
    ensures st.outcome.Failed? ==>
      gpt(GptModel, ConclusionPrompt(s)).Err? &&
      st.outcome.notice == ConclusionErrorPrefix + gpt(GptModel, ConclusionPrompt(s)).message
    // a blocked or failed stage leaves every entry, the conclusion included, as it was
    ensures st.outcome != Ran ==> st.record == s
    ensures st.outcome == Ran ==> st.record.finalCon == Some(gpt(GptModel, ConclusionPrompt(s)).text)
    // only the conclusion can change
    ensures st.record.(finalCon := s.finalCon) == s
  {
    if s.gAn.value == "" || s.oAn.value == "" then
      Step(s, Blocked)
    else
      match gpt(GptModel, ConclusionPrompt(s))
      case Ok(text) => Step(s.(finalCon := Some(text)), Ran)
      case Err(message) => Step(s, Failed(ConclusionErrorPrefix + message))
  }

  /** The id the first backend is called with in a run whose model listing
      came out as `listing`. */
  function RunModelId(listing: Listing): (id: string)
    ensures |id| <= |ModelName(listing)|
    // without a usable listing the default resolves to the id "gemini-pro"
    ensures SelectModel(listing).None? ==> id == "gemini-pro"
  {
    PreferredModelIds();
    ModelId(ModelName(listing))
  }

  /** A non-empty chat message was submitted (the walrus test in app.py). */
  predicate Submitted(event: Event) {
    event.chatInput.Some? && event.chatInput.value != ""
  }

  /** The record once the chat tab has been handled: stage 1 ran exactly when
      a message was submitted. */
  function AfterQuestion(s: SessionRecord, event: Event, modelId: string, gemini: Backend, gpt: Backend): (r: SessionRecord)
    ensures Submitted(event) ==> r == Ask(s, event.chatInput.value, modelId, gemini, gpt)
    ensures !Submitted(event) ==> r == s
    ensures s.Initialised() ==> r.Initialised()
  {
    if Submitted(event) then Ask(s, event.chatInput.value, modelId, gemini, gpt) else s
  }

  /** The record once the analysis tab has been handled too: stage 2 ran, on
      the record left by the chat tab, exactly when its button was clicked. */
  function AfterAnalysis(s: SessionRecord, event: Event, modelId: string, gemini: Backend, gpt: Backend): (r: SessionRecord)
    requires s.Initialised()
    ensures r.Initialised()
    ensures event.analyseClicked ==>
      r == CrossAnalyse(AfterQuestion(s, event, modelId, gemini, gpt), modelId, gemini, gpt).record
    ensures !event.analyseClicked ==> r == AfterQuestion(s, event, modelId, gemini, gpt)
  {
    var s1 := AfterQuestion(s, event, modelId, gemini, gpt);
    if event.analyseClicked then CrossAnalyse(s1, modelId, gemini, gpt).record else s1
  }

  /** The stages a run triggers, in page order, on an initialised record. */
  function RunStages(s: SessionRecord, event: Event, modelId: string, gemini: Backend, gpt: Backend): (r: SessionRecord)
    requires s.Initialised()
    ensures r.Initialised()
    // stage 3 runs last, on the record that stages 1 and 2 left
    ensures event.concludeClicked ==> r == Conclude(AfterAnalysis(s, event, modelId, gemini, gpt), gpt).record
    ensures !event.concludeClicked ==> r == AfterAnalysis(s, event, modelId, gemini, gpt)
    // each entry changes only through the stage that writes it
    ensures !Submitted(event) ==> r.userQ == s.userQ && r.gResp == s.gResp && r.oResp == s.oResp
    ensures Submitted(event) ==> r.userQ == event.chatInput
    ensures !event.analyseClicked ==> r.gAn == s.gAn && r.oAn == s.oAn
    ensures !event.concludeClicked ==> r.finalCon == s.finalCon
  {
    var s2 := AfterAnalysis(s, event, modelId, gemini, gpt);
    if event.concludeClicked then Conclude(s2, gpt).record else s2
  }

  /** One run of the script: select the model, initialise, then stage 1 on a
      non-empty chat message, stage 2 on its button, stage 3 on its button. */
  function Rerun(s: SessionRecord, event: Event, listing: Listing, gemini: Backend, gpt: Backend): (r: SessionRecord)
    ensures r.Initialised()
    ensures r == RunStages(Initialise(s), event, RunModelId(listing), gemini, gpt)
    // nothing triggered: the run only initialises
    ensures event == Event(None, false, false) ==> r == Initialise(s)
    // one trigger, as Streamlit sends them: exactly that stage, on the initialised record
    ensures forall q :: q != "" && event == Event(Some(q), false, false) ==>
      r == Ask(Initialise(s), q, RunModelId(listing), gemini, gpt)
    ensures event == Event(None, true, false) ==>
      r == CrossAnalyse(Initialise(s), RunModelId(listing), gemini, gpt).record
    ensures event == Event(None, false, true) ==> r == Conclude(Initialise(s), gpt).record
    // each entry changes only through the stage that writes it
    ensures !Submitted(event) ==>
      r.userQ == s.userQ && r.gResp == Initialise(s).gResp && r.oResp == Initialise(s).oResp
    ensures Submitted(event) ==> r.userQ == event.chatInput
    ensures !event.analyseClicked ==> r.gAn == Initialise(s).gAn && r.oAn == Initialise(s).oAn
    ensures !event.concludeClicked ==> r.finalCon == Initialise(s).finalCon
  {
    RunStages(Initialise(s), event, RunModelId(listing), gemini, gpt)
  }

  /** Stage order matters: on a fresh session, neither the cross-analysis nor
      the conclusion button achieves anything before a question is asked. */
  lemma FreshSessionNeedsQuestion(listing: Listing, gemini: Backend, gpt: Backend)
    ensures CrossAnalyse(Initialise(Fresh), RunModelId(listing), gemini, gpt).outcome == Blocked
    ensures Conclude(Initialise(Fresh), gpt).outcome == Blocked
    ensures Rerun(Fresh, Event(None, true, true), listing, gemini, gpt) == Initialise(Fresh)
  {
  }

  /** A failed first backend does not stop the pipeline: its slot holds the
      marked error, stage 2 still runs, and the first backend is asked to
      critique the second backend's real answer. */
  lemma PartialFailureProceeds(s: SessionRecord, question: string, modelId: string,
                               gemini: Backend, gpt: Backend, answer: string)
    requires gemini(modelId, question).Err?
    requires gpt(GptModel, question) == Ok(answer) && answer != ""
    ensures var s1 := Ask(s, question, modelId, gemini, gpt);
            var st := CrossAnalyse(s1, modelId, gemini, gpt);
            && s1.gResp == Some(GeminiErrorPrefix + gemini(modelId, question).message)
            && s1.oResp == Some(answer)
            && st.outcome == Ran
            && st.record.gAn == Some(Recorded(gemini(modelId, GeminiCritiquePrompt(answer)), AnalysisErrorPrefix))
            && st.record.oAn == Some(Recorded(gpt(GptModel, GptCritiquePrompt(
                                        GeminiErrorPrefix + gemini(modelId, question).message)), AnalysisErrorPrefix))
  {
    var s1 := Ask(s, question, modelId, gemini, gpt);
    FailureIsRecorded(gemini(modelId, question), GeminiErrorPrefix);
    assert s1.gResp.value != "";
  }

  /** A new question replaces both answers but keeps the previous critiques,
      so stage 3 may run at once and then combines the new answers with
      critiques written about the old ones. */
  lemma NewQuestionKeepsOldCritiques(s: SessionRecord, question: string, modelId: string,
                                     gemini: Backend, gpt: Backend)
    requires s.Initialised() && s.gAn.value != "" && s.oAn.value != ""
    ensures var s1 := Ask(s, question, modelId, gemini, gpt);
            && Conclude(s1, gpt).outcome != Blocked
            && ConclusionPrompt(s1) == SynthesisPrompt(question, s1.gResp.value, s1.oResp.value, s.gAn.value, s.oAn.value)
  {
  }

  /** Echoing backends: "4" to the question itself, "looks correct" to any
      other prompt. */
  function EchoBackend(question: string): Backend {
    (model: string, prompt: string) => if prompt == question then Ok("4") else Ok("looks correct")
  }

  /** The synthesis prompt is longer than the question it embeds, so it is
      never the question itself. */
  lemma ConclusionPromptIsNotQuestion(s: SessionRecord, question: string)
    requires s.Initialised() && s.userQ == Some(question)
    ensures ConclusionPrompt(s) != question
  {
    var holes := [question, s.gResp.value, s.oResp.value, s.gAn.value, s.oAn.value];
    FillHole(SynthesisPieces, holes, 0);
    assert HoleStart(SynthesisPieces, holes, 0) == |SynthesisPieces[0]|;
    assert |SynthesisPieces[0]| > 0;
  }

  const EchoQuestion: string := "What is 2+2?"

  /** The record after asking the echoing backends the question. */
  const EchoAnswered: SessionRecord :=
    SessionRecord(Some(EchoQuestion), Some("4"), Some("4"), Some(""), Some(""), Some(""))
  /** ... after pressing the cross-analysis button. */
  const EchoCritiqued: SessionRecord :=
    EchoAnswered.(gAn := Some("looks correct"), oAn := Some("looks correct"))
  /** ... after pressing the conclusion button. */
  const EchoConcluded: SessionRecord :=
    EchoCritiqued.(finalCon := Some("looks correct"))

  lemma EchoAskStep(listing: Listing)
    ensures Rerun(Fresh, Event(Some(EchoQuestion), false, false), listing,
                  EchoBackend(EchoQuestion), EchoBackend(EchoQuestion)) == EchoAnswered
  {
    var b := EchoBackend(EchoQuestion);
    assert Rerun(Fresh, Event(Some(EchoQuestion), false, false), listing, b, b)
        == Ask(Initialise(Fresh), EchoQuestion, RunModelId(listing), b, b);
  }

  lemma EchoAnalyseStep(listing: Listing)
    ensures Rerun(EchoAnswered, Event(None, true, false), listing,
                  EchoBackend(EchoQuestion), EchoBackend(EchoQuestion)) == EchoCritiqued
  {
    var b := EchoBackend(EchoQuestion);
    assert |GeminiCritiquePrompt("4")| > |EchoQuestion| && |GptCritiquePrompt("4")| > |EchoQuestion|;
    assert Rerun(EchoAnswered, Event(None, true, false), listing, b, b)
        == CrossAnalyse(EchoAnswered, RunModelId(listing), b, b).record;
  }

  lemma EchoConcludeStep(listing: Listing)
    ensures Rerun(EchoCritiqued, Event(None, false, true), listing,
                  EchoBackend(EchoQuestion), EchoBackend(EchoQuestion)) == EchoConcluded
  {
    var b := EchoBackend(EchoQuestion);
    ConclusionPromptIsNotQuestion(EchoCritiqued, EchoQuestion);
    assert Rerun(EchoCritiqued, Event(None, false, true), listing, b, b) == Conclude(EchoCritiqued, b).record;
  }

  /** Asking "What is 2+2?" of two echoing backends and then pressing both
      buttons yields both answers "4", both critiques and the conclusion
      "looks correct". */
  lemma EchoScenario(listing: Listing)
    ensures var b := EchoBackend(EchoQuestion);
            var s1 := Rerun(Fresh, Event(Some(EchoQuestion), false, false), listing, b, b);
            var s2 := Rerun(s1, Event(None, true, false), listing, b, b);
            var s3 := Rerun(s2, Event(None, false, true), listing, b, b);
            && s1 == SessionRecord(Some(EchoQuestion), Some("4"), Some("4"), Some(""), Some(""), Some(""))
            && s2 == SessionRecord(Some(EchoQuestion), Some("4"), Some("4"), Some("looks correct"), Some("looks correct"),
                                   Some(""))
            && s3 == SessionRecord(Some(EchoQuestion), Some("4"), Some("4"), Some("looks correct"), Some("looks correct"),
                                   Some("looks correct"))
  {
    EchoAskStep(listing);
    EchoAnalyseStep(listing);
    EchoConcludeStep(listing);
  }
}
