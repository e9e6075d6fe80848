/** The Streamlit session state as an object whose entries the script
    assigns in place. Each method performs one part of the script and is
    proved to leave the state that the corresponding Pipeline function
    describes. */
module App {
  import opened Wrappers
  import opened Backends
  import opened Prompts
  import opened ModelSelection
  import Pipeline

  class SessionState {
    var userQ: Option<string>
    var gResp: Option<string>
    var oResp: Option<string>
    var gAn: Option<string>
    var oAn: Option<string>
    var finalCon: Option<string>

    /** The entries, as a value. */
    function Snapshot(): Pipeline.SessionRecord
      reads this
    {
      Pipeline.SessionRecord(userQ, gResp, oResp, gAn, oAn, finalCon)
    }

    /** A new browser session holds no entries. */
    constructor ()
      ensures Snapshot() == Pipeline.Fresh
    {
      userQ, gResp, oResp, gAn, oAn, finalCon := None, None, None, None, None, None;
    }

    /** Create each absent result entry as "". */
    method Initialise()
      modifies this
      ensures Snapshot() == Pipeline.Initialise(old(Snapshot()))
      ensures Snapshot().Initialised()
      ensures old(Snapshot()).Initialised() ==> unchanged(this)
    {
      if gResp.None? { gResp := Some(""); }
      if oResp.None? { oResp := Some(""); }
      if gAn.None? { gAn := Some(""); }
      if oAn.None? { oAn := Some(""); }
      if finalCon.None? { finalCon := Some(""); }
    }

    /** Stage 1, on a submitted question. */
    method Ask(question: string, modelId: string, gemini: Backend, gpt: Backend)
      modifies this
      ensures Snapshot() == Pipeline.Ask(old(Snapshot()), question, modelId, gemini, gpt)
      ensures gAn == old(gAn) && oAn == old(oAn) && finalCon == old(finalCon)
    {
      userQ := Some(question);
      match gemini(modelId, question) {
        case Ok(text) => gResp := Some(text);
        case Err(message) => gResp := Some(GeminiErrorPrefix + message);
      }
      match gpt(GptModel, question) {
        case Ok(text) => oResp := Some(text);
        case Err(message) => oResp := Some(GptErrorPrefix + message);
      }
    }

    /** Stage 2, on a click of the cross-analysis button. */
    method CrossAnalyse(modelId: string, gemini: Backend, gpt: Backend) returns (outcome: Pipeline.StageOutcome)
      requires gResp.Some? && oResp.Some?
      modifies this
      ensures Pipeline.Step(Snapshot(), outcome) == Pipeline.CrossAnalyse(old(Snapshot()), modelId, gemini, gpt)
      ensures userQ == old(userQ) && gResp == old(gResp) && oResp == old(oResp) && finalCon == old(finalCon)
      ensures outcome == Pipeline.Blocked ==> unchanged(this)
    {
      if gResp.value == "" || oResp.value == "" {
        return Pipeline.Blocked;
      }
      match gemini(modelId, GeminiCritiquePrompt(oResp.value)) {
        case Ok(text) => gAn := Some(text);
        case Err(message) => gAn := Some(AnalysisErrorPrefix + message);
      }
      match gpt(GptModel, GptCritiquePrompt(gResp.value)) {
        case Ok(text) => oAn := Some(text);
        case Err(message) => oAn := Some(AnalysisErrorPrefix + message);
      }
      outcome := Pipeline.Ran;
    }

    /** Stage 3, on a click of the conclusion button. */
    method Conclude(gpt: Backend) returns (outcome: Pipeline.StageOutcome)
      requires gResp.Some? && oResp.Some? && gAn.Some? && oAn.Some?
      modifies this
      ensures Pipeline.Step(Snapshot(), outcome) == Pipeline.Conclude(old(Snapshot()), gpt)
      ensures outcome != Pipeline.Ran ==> unchanged(this)
      ensures userQ == old(userQ) && gResp == old(gResp) && oResp == old(oResp)
      ensures gAn == old(gAn) && oAn == old(oAn)
    {
      if gAn.value == "" || oAn.value == "" {
        return Pipeline.Blocked;
      }
      var prompt := SynthesisPrompt(userQ.GetOr(""), gResp.value, oResp.value, gAn.value, oAn.value);
      match gpt(GptModel, prompt) {
        case Ok(text) =>
          finalCon := Some(text);
          outcome := Pipeline.Ran;
        case Err(message) =>
          outcome := Pipeline.Failed(ConclusionErrorPrefix + message);
      }
    }

    /** One run of the script: select the model, initialise, then the
        triggered stages in page order. The stage outcomes are what the page
        shows (None: that stage was not triggered). */
    method Rerun(event: Pipeline.Event, listing: Listing, gemini: Backend, gpt: Backend)
      returns (analysis: Option<Pipeline.StageOutcome>, conclusion: Option<Pipeline.StageOutcome>)
      modifies this
      ensures Snapshot() == Pipeline.Rerun(old(Snapshot()), event, listing, gemini, gpt)
      ensures analysis.Some? <==> event.analyseClicked
      ensures conclusion.Some? <==> event.concludeClicked
      // the reported outcomes are those of the stages as they ran, in page order
      ensures analysis.Some? ==> (analysis.value ==
        Pipeline.CrossAnalyse(Pipeline.AfterQuestion(Pipeline.Initialise(old(Snapshot())), event,
                                Pipeline.RunModelId(listing), gemini, gpt),
                              Pipeline.RunModelId(listing), gemini, gpt).outcome)
      ensures conclusion.Some? ==> (conclusion.value ==
        Pipeline.Conclude(Pipeline.AfterAnalysis(Pipeline.Initialise(old(Snapshot())), event,
                            Pipeline.RunModelId(listing), gemini, gpt), gpt).outcome)
    {
      var validModelName := ModelName(listing);
      var modelId := ModelId(validModelName);
      Initialise();
      if Pipeline.Submitted(event) {
        Ask(event.chatInput.value, modelId, gemini, gpt);
      }
      analysis, conclusion := None, None;
      if event.analyseClicked {
        var o := CrossAnalyse(modelId, gemini, gpt);
        analysis := Some(o);
      }
      if event.concludeClicked {
        var o := Conclude(gpt);
        conclusion := Some(o);
      }
    }
  }
}
