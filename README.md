# Dual-AI Insight Hub: model selection and the three-stage pipeline

Dual-AI Insight Hub is a single-page Streamlit app. It asks two language-model
backends the same question: "Daon", served by Gemini, and "Roo", served by
GPT-4o. Each backend then critiques the other's answer, and finally Roo writes a
conclusion from everything said so far. This project models the two pieces of
logic in `app.py` that sit inside the UI glue. Every network call is replaced by
an injected outcome.

- **Model selection for the first backend.** The app filters the provider's
  model listing down to the models that support content generation. It picks the
  first name from a fixed preference list that is present. Otherwise it takes the
  first available model. If there is none, or the listing raised, it uses the
  default `"gemini-pro"`. The name with `"models/"` removed is the model id the
  backend is called with. This is modelled as pure functions in
  `model_selection.dfy`.
- **The pipeline over the session state.** The record holds the last question
  and five result entries: both answers, both critiques and the conclusion. It
  is initialised at the top of every script run. Stage 1 stores the question and
  both answers. Stage 2 stores both critiques, and only runs when both answers
  are non-empty. Stage 3 stores the conclusion, only runs when both critiques are
  non-empty, and only stores anything when the call succeeds. `pipeline.dfy`
  states each stage as a function from record to record. `app_state.dfy` holds the
  `SessionState` class, which assigns the entries in place as the script does.
  Each of its methods is proved to produce the record that the matching function
  describes.

Backends are parameters of type `Backend = (model id, prompt) -> Reply`. A
`Reply` is `Ok(text)` or `Err(message)`, where `Err` stands for any exception the
SDK call raised. Because each backend is a function of the prompt, the contracts
can say which prompt each stage sends. The model listing is a `Listing`
parameter: the listed entries, or `ListingFailed`.

Two consequences of the code as written are proved as lemmas:

- A failed stage-1 call still stores a non-empty marked error. So stage 2 runs
  anyway and critiques the error text (`FailureIsRecorded`, `PartialFailureProceeds`).
- A new question replaces both answers but not the critiques left by an earlier
  question. So stage 3 can run at once and mix new answers with old critiques
  (`NewQuestionKeepsOldCritiques`).

Files: `wrappers.dfy` (Option), `backends.dfy` (Reply, Backend),
`model_selection.dfy`, `prompts.dfy` (error markers and prompt templates),
`pipeline.dfy` (session record, stages, script run, scenarios), `app_state.dfy`
(the session-state class).

## Model

| member | source | states |
|---|---|---|
| `ModelSelection.Available` | app.py:61 | The result is no longer than the listing. A name is in the result exactly when some listed model that supports `generateContent` has that name. The first result is the name of the first such model in listing order. |
| `ModelSelection.FirstPreferred` | app.py:63-69 | Returns None exactly when no preference is available. Otherwise it returns a preference that is available, and no earlier preference is available. |
| `ModelSelection.EarliestPreferenceWins` | app.py:65-69 | If `prefs[i]` is available and no earlier preference is, the search returns `prefs[i]`. Earlier preferences beat later ones. |
| `ModelSelection.SelectModel` | app.py:57-79 | A failed listing gives None. A listing gives None exactly when no model can generate. Any result is an available name. No available preference ranks earlier than the result. With no preference available, the result is the first available model. |
| `ModelSelection.ModelName` | app.py:83-87 | After the fallback the name is never empty. A non-empty selection is the name used. With no selection, or a selection that is the empty string, the name is `"gemini-pro"`; there is no selection when the listing failed or no model can generate. Any other name is an available one. It is the top preference whenever that is available. |
| `ModelSelection.CanGenerate` | app.py:61 | A model counts as available when `generateContent` is among its supported generation methods. |
| `ModelSelection.ModelId` | app.py:119 | The model id is the name with every `"models/"` removed (the same stripping is repeated at app.py:205), and is never longer than the name. |
| `ModelSelection.RemoveAll` | app.py:119 | Removing the `"models/"` occurrences never makes the name longer. |
| `ModelSelection.RemoveAllAbsent` | app.py:119 | A name that does not contain the pattern is left unchanged. |
| `ModelSelection.StripModelsPrefix` | app.py:205 | For a bare id that does not contain `"models/"`, the id of `"models/" + id` is `id`. |
| `ModelSelection.PreferredModelIds` | app.py:63-87 | The three preferred names resolve to the ids `gemini-1.5-flash`, `gemini-pro` and `gemini-1.0-pro`. The default `gemini-pro` resolves to itself. |
| `Prompts.Recorded` | app.py:123-127 | A slot receives the reply text on success. On failure it receives the error marker, after which the message can be read back unchanged. |
| `Prompts.FailureIsRecorded` | app.py:125-127 | A failed call stores its error marker followed by the message, and that text is never empty. |
| `Prompts.FillHole` | app.py:299-349 | In a filled template, hole `i` occupies its start position and is followed directly by fixed piece `i + 1`. |
| `Prompts.HoleStartNext` | app.py:299-349 | Hole `i + 1` starts right after hole `i` and the piece between them. The holes are in order and do not overlap. |
| `Prompts.FillStartsWithPiece` | app.py:299-309 | A filled template starts with its first fixed piece. |
| `Prompts.PieceBeforeHole` | app.py:299-349 | Fixed piece `i`, the heading, stands directly in front of hole `i`. |
| `Prompts.GeminiCritiquePrompt` | app.py:207 | Daon's critique prompt is its fixed introduction followed by Roo's answer, and its length is the sum of the two. |
| `Prompts.GptCritiquePrompt` | app.py:225 | Roo's critique prompt is its fixed introduction followed by Daon's answer, and its length is the sum of the two. |
| `Prompts.SynthesisHoles` | app.py:309-333 | The synthesis prompt embeds five session texts, one fewer than its fixed pieces: the question, Daon's answer, Roo's answer, Daon's critique and Roo's critique, in that order. |
| `Prompts.SynthesisPrompt` | app.py:299-349 | The synthesis prompt is the template whose fixed pieces are the introduction, the four headings and the guide, and whose holes are the question, both answers and both critiques, in that order. Its content is stated by `Prompts.SynthesisPromptSections`. |
| `Prompts.CritiquePromptsEmbed` | app.py:203-229 | Each critique prompt is its fixed introduction followed by the answer under critique. Different answers give different prompts. |
| `Prompts.PieceBeforeFirstHole` | app.py:299-309 | The first hole, the question, starts right after the introduction, which begins the prompt. |
| `Prompts.PieceAfterHole` | app.py:299-349 | Fixed piece `i + 1` lies between hole `i` and hole `i + 1`. |
| `Prompts.FillSection` | app.py:299-349 | Every hole of a filled template is in place: right after its heading, at its start position, in order. |
| `Prompts.SynthesisPromptSections` | app.py:299-349 | The synthesis prompt contains the question, Daon's answer, Roo's answer, Daon's critique and Roo's critique, in that order. Each comes right after its heading. |
| `Pipeline.Initialise` | app.py:43-51 | Afterwards all five result entries exist. Entries that were present keep their values and absent ones become `""`. The question is untouched. On an initialised record it changes nothing. |
| `Pipeline.InitialiseIdempotent` | app.py:43-51 | Initialising twice is the same as initialising once. |
| `Pipeline.Ask` | app.py:105-147 | Stage 1 sets the question. Each answer slot gets that backend's reply to the question, or its own error marker (`❌ 다온 에러: ` / `❌ 루 에러: `) plus the message. Daon is called with the selected model id and Roo with `gpt-4o`. Critiques and conclusion are unchanged. |
| `Pipeline.AskSlotsIndependent` | app.py:115-147 | Each answer slot depends only on its own backend. Changing the other backend leaves it the same. |
| `Pipeline.CrossAnalyse` | app.py:191-233 | Stage 2 is blocked exactly when an answer is empty, and then nothing changes. When it runs, Daon's prompt embeds Roo's answer and Roo's prompt embeds Daon's. A failure stores `분석 실패: ` plus the message in that slot only. Only the two critique slots can change. |
| `Pipeline.ConclusionPrompt` | app.py:299-349 | Stage 3 sends the synthesis prompt over the stored question and the four stored texts. A missing question is sent as the empty string. |
| `Pipeline.RunModelId` | app.py:83-87 | The id every Daon call of a run uses is the fallback model name with `"models/"` removed (app.py:119, 205). It is never longer than that name, and without a usable listing it is `gemini-pro`. |
| `Pipeline.Conclude` | app.py:283-369 | Stage 3 is blocked exactly when a critique is empty. It succeeds exactly when not blocked and the call returns text, and then only the conclusion is set, to that text. When blocked or failed, every entry keeps its value. A failure produces the notice `결론 도출 실패: ` plus the message. |
| `Pipeline.Rerun` | app.py:43-369 | A script run initialises the record and then runs the triggered stages. With nothing triggered, the run only initialises. A non-empty chat message alone gives exactly stage 1 on the initialised record, with the selected model id. The analysis button alone gives exactly stage 2, and the conclusion button alone gives exactly stage 3. The question and answers change only on a non-empty chat message, the critiques only on the analysis button, the conclusion only on the conclusion button. |
| `Pipeline.Submitted` | app.py:105 | A chat message triggers stage 1 only when it is present and non-empty, the truthiness test of the walrus assignment. |
| `Pipeline.AfterQuestion` | app.py:105 | Stage 1 runs exactly when a non-empty chat message was submitted. Otherwise the record is unchanged. |
| `Pipeline.AfterAnalysis` | app.py:191 | Stage 2 runs exactly when its button was clicked, on the record the chat tab left. |
| `Pipeline.RunStages` | app.py:105-369 | The stages run in page order: stage 3, when clicked, runs on the record left by stage 2. Stage 2 runs on the record left by stage 1. The record stays initialised. Each entry changes only through the stage that writes it. |
| `Pipeline.FreshSessionNeedsQuestion` | app.py:193-289 | On a fresh session, stage 2 and stage 3 are both blocked. A run with both buttons pressed only initialises. |
| `Pipeline.PartialFailureProceeds` | app.py:117-229 | If Daon fails and Roo answers with non-empty text, Daon's slot holds the marked error and stage 2 still runs. Daon is then asked to critique Roo's real answer, and Roo is asked to critique Daon's error text. |
| `Pipeline.NewQuestionKeepsOldCritiques` | app.py:107-333 | After a new question, stage 3 is not blocked if earlier critiques exist. Its prompt combines the new answers with the earlier critiques. |
| `Pipeline.ConclusionPromptIsNotQuestion` | app.py:299-333 | The synthesis prompt is never equal to the question it embeds. |
| `Pipeline.EchoAskStep` | app.py:105-147 | Asking the echoing backends the question on a fresh session stores the question and both answers "4". |
| `Pipeline.EchoAnalyseStep` | app.py:191-233 | Pressing the analysis button after that stores both critiques as "looks correct". |
| `Pipeline.EchoConcludeStep` | app.py:283-369 | Pressing the conclusion button after that stores the conclusion "looks correct". |
| `Pipeline.EchoScenario` | app.py:105-363 | Two backends answer "4" to the question and "looks correct" to anything else. Asking "What is 2+2?" gives both answers "4". Pressing the analysis button gives both critiques "looks correct". Pressing the conclusion button gives the conclusion "looks correct". |
| `App.SessionState.constructor` | app.py:43-51 | A new browser session has no entries. |
| `App.SessionState.Initialise` | app.py:43-51 | The new state is `Pipeline.Initialise` of the old one. All result entries exist, and an initialised state is not touched. |
| `App.SessionState.Ask` | app.py:105-147 | The new state is `Pipeline.Ask` of the old one. Critiques and conclusion are untouched. |
| `App.SessionState.CrossAnalyse` | app.py:191-233 | The new state and the outcome are `Pipeline.CrossAnalyse` of the old state. The question, answers and conclusion are untouched. A blocked stage changes nothing. |
| `App.SessionState.Conclude` | app.py:283-369 | The new state and the outcome are `Pipeline.Conclude` of the old state. Only the conclusion can change. A blocked or failed stage changes nothing. |
| `App.SessionState.Rerun` | app.py:57-369 | The new state is `Pipeline.Rerun` of the old one. A stage outcome is reported exactly when that stage's button was pressed. The analysis outcome is that of stage 2 on the record left after stage 1. The conclusion outcome is that of stage 3 on the record left after stage 2. |

## Left out

- Page setup, tabs, columns, spinners and the display of stored texts and warnings (app.py:9-13, 93, 151-183, 237-279, 375-379) are not modelled. They are presentation only. Stage outcomes (`Blocked`, `Failed`) stand in for the warning and error boxes.
- Loading the API keys and stopping on missing secrets (app.py:19-29) are not modelled. They are configuration I/O.
- SDK configuration and the Gemini and OpenAI calls (app.py:35-37, 61, 119-143, 205-229, 355-361) are not modelled. They are network calls into foreign code, so they are injected `Backend` functions and a `Listing` value. A backend is modelled as a deterministic function of model id and prompt, so two identical calls in one run would get identical replies.
- An OpenAI reply whose `content` is `None` is not modelled. In Python that stores `None` rather than a string. Here every successful reply is a string.
- The synthesis template keeps its headings, the order of its sections and its wording, but not the source's indentation and blank lines. Those are prompt layout, not contract.
- Streamlit's rerun mechanics, widget state and concurrent sessions are not modelled. One script run is `Rerun` with an `Event` that says which inputs fired.
- `app.py` has no retry or backoff, no persisted history, no turn list and no multiple named sessions, so none of them is modelled.
