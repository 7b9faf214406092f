# GradeWise grading session, modelled in Dafny

GradeWise is a single-page tool that helps a teacher grade handwritten answer
sheets with AI flows. The teacher uploads a question paper. An extraction flow
splits it into questions, each with a model answer, a mark allocation and
rubric keywords. The teacher picks a question and uploads a student's answer
sheet. A text-extraction flow reads the sheet. Then a similarity flow and a
feedback flow are run together on the same request. The page suggests a final
score of `Math.round(similarity × maxMarks)`, which the teacher can override
before saving.

This project models the page's session state machine in `src/app/page.tsx`:

- the five steps (`initial`, `analyzing`, `questions_ready`, `grading`, `review`);
- the seventeen state cells;
- every handler and inline action that changes them;
- the rubric string the grading flows receive;
- the score suggestion.

The modules are:

- `Outcomes` (`outcomes.dfy`): `Option`, and `Outcome`, the value a flow's promise settles to. It also holds the two error-reporting rules the handlers share. One is `e.message || fallback`. The other is the message `Promise.all` reports when one or both flows reject.
- `Questions` (`questions.dfy`): a question as the extraction flow returns it, a similarity result, a grading request, and a log entry for each AI flow call.
- `RubricStrings` (`rubric_strings.dfy`): JavaScript's `Array.prototype.join` and the rubric string `Keywords: k1, k2, …` built from it.
- `Scoring` (`scoring.dfy`): `Math.round` over the reals and the suggested score.
- `Session` (`session.dfy`): the step, the error notes, the state snapshot `SessionState` and its invariant `Consistent`. It also holds the class `GradingSession`. The class has one field per state cell, one setter per cell (React's `setX`), and one method per handler.
- `SessionScenarios` (`session_scenarios.dfy`): two scenarios, verified from the handlers' contracts alone.

Each handler is a method that `modifies` the session. Its `ensures` gives the
new state as the old one with the named cells replaced, so it also says that
nothing else changes. Every handler keeps `Valid()`, which is
`Consistent(State())`. That invariant says:

- the loading flag is set exactly on the two busy steps;
- the initial and analyzing steps hold no question list and no grading residue;
- from the question list onwards the list is non-empty and contains the active question;
- the grading step has a question and a sheet;
- the review step has a complete grading result.

Each handler requires the step on which its button or input is rendered:

- "Analyze Paper" and the paper and subject inputs: the initial step;
- the question list, "Start Grading" and "Analyze Another Paper": the question list;
- the answer-sheet input: the question list, once a question is active;
- "Save and Finish", "Grade Another" and the final score and feedback fields: the review step.

An async handler is split into the phases the event loop runs:

- the synchronous part up to the first `await` (`BeginAnalysis`, `BeginGrading`);
- one continuation per awaited flow (`SettleAnalysis`, `SettleTextExtraction`, `SettleJoin`);
- a composition that the button runs (`AnalyzePaper`, `Grade`).

So the busy steps are states of the model and fall under the invariant.

The AI flows are function parameters, so their answers are arbitrary. The
composed handlers return the list of flow calls they made, in order. For
example, `calls == []` says that a guard rejected the click before any flow
was called.

The code does less than one might expect; the model follows the code:

- After a failed similarity or feedback flow, the extracted text stays set. It was set before the join was awaited (`page.tsx:128`).
- Selecting another question clears only the answer sheet and its preview. The extracted text, scores and feedback of an earlier grading remain (`page.tsx:161-167`).
- The similarity score is not checked to lie in [0, 1], and the suggested score is not clamped (`Scoring.DerivedScoreUnclamped`).
- "Grade Another" changes only the step (`page.tsx:476`).
- "Analyze Another Paper" is rendered only on the question list (`page.tsx:303`).
- Nothing requires `maxMarks` to be positive or whole (`Scoring.DerivedScoreFractional`).

## Model

| member | source | states |
|---|---|---|
| Outcomes.ErrorText | src/app/page.tsx:98 | The reported text is the rejection's message when that is non-empty and the fallback otherwise, so it is never empty when the fallback is not |
| Outcomes.JoinRejection | src/app/page.tsx:133-136 | `Promise.all` rejects with a message of a flow that rejected: the only one if one rejected, the first to settle if both did |
| RubricStrings.JoinSnoc | src/app/page.tsx:130 | Joining a non-empty list with one more part appends the separator and that part |
| RubricStrings.JoinLength | src/app/page.tsx:130 | A join of n ≥ 1 parts is as long as the parts together plus n − 1 separators |
| RubricStrings.JoinEmptyIff | src/app/page.tsx:130 | With a non-empty separator, a join is empty exactly when there are no parts or a single empty part |
| RubricStrings.RubricString | src/app/page.tsx:130 | The rubric string always begins with `Keywords: ` |
| RubricStrings.RubricStringBare | src/app/page.tsx:130 | The rubric string is exactly `Keywords: ` if and only if there is no keyword or a single empty one |
| RubricStrings.RubricStringAppend | src/app/page.tsx:130 | One more keyword extends the rubric string by `, ` and that keyword, so the keywords appear in order |
| RubricStrings.RubricStringLength | src/app/page.tsx:130 | The rubric string's length is the prefix, the keywords and two characters per separator |
| Scoring.Round | src/app/page.tsx:142 | `Math.round` gives the integer r with r − ½ ≤ x < r + ½, so halves round up |
| Scoring.RoundUnique | src/app/page.tsx:142 | That integer is unique |
| Scoring.RoundMonotone | src/app/page.tsx:142 | Rounding is monotone |
| Scoring.RoundInteger | src/app/page.tsx:142 | Rounding leaves an integer unchanged |
| Scoring.DerivedScoreInRange | src/ai/flows/score-similarity.ts:33-37 | A similarity in [0, 1], as the flow's schema describes it, and whole non-negative marks give a suggested score between 0 and the marks |
| Scoring.DerivedScoreFractional | src/ai/flows/extract-questions-from-paper.ts:28 | Marks need not be whole: a perfect similarity on 2.5 marks suggests 3, more than the marks, which is why the range bound asks for whole marks |
| Scoring.DerivedScoreUnclamped | src/app/page.tsx:142 | Nothing clamps the score: similarity 1.2 on 10 marks suggests 12 |
| Session.FailureShowsMessage | src/app/page.tsx:146-148 | A failed analysis or grading with a non-empty message shows that message |
| Session.ErrorAlwaysShown | src/app/page.tsx:77-99 | Every error the handlers set has a non-empty text, so the error alert appears on any step that renders it |
| Session.GradingSession.constructor | src/app/page.tsx:27-48 | A new session holds the cells' initial values and is consistent |
| Session.GradingSession.SetStep | src/app/page.tsx:27 | Only the step changes |
| Session.GradingSession.SetQuestionFile | src/app/page.tsx:28 | Only the question paper changes |
| Session.GradingSession.SetQuestionFilePreview | src/app/page.tsx:29 | Only the paper's preview changes |
| Session.GradingSession.SetSubject | src/app/page.tsx:30 | Only the subject changes |
| Session.GradingSession.SetExtractedQuestions | src/app/page.tsx:32 | Only the question list changes |
| Session.GradingSession.SetActiveQuestion | src/app/page.tsx:33 | Only the active question changes |
| Session.GradingSession.SetStudentFile | src/app/page.tsx:35 | Only the answer sheet changes |
| Session.GradingSession.SetStudentFilePreview | src/app/page.tsx:36 | Only the sheet's preview changes |
| Session.GradingSession.SetIsLoading | src/app/page.tsx:38 | Only the loading flag changes |
| Session.GradingSession.SetLoadingMessage | src/app/page.tsx:39 | Only the loading message changes |
| Session.GradingSession.SetError | src/app/page.tsx:40 | Only the error changes |
| Session.GradingSession.SetExtractedText | src/app/page.tsx:42 | Only the extracted text changes |
| Session.GradingSession.SetSimilarityScore | src/app/page.tsx:43 | Only the similarity score changes |
| Session.GradingSession.SetJustification | src/app/page.tsx:44 | Only the justification changes |
| Session.GradingSession.SetAiFeedback | src/app/page.tsx:45 | Only the AI feedback changes |
| Session.GradingSession.SetFinalScore | src/app/page.tsx:47 | Only the final score changes |
| Session.GradingSession.SetFinalFeedback | src/app/page.tsx:48 | Only the final feedback changes |
| Session.GradingSession.ChangeFile | src/app/page.tsx:52-64 | No chosen file changes nothing. Otherwise only the chosen input's file and preview are stored and the error is cleared. Consistency is kept |
| Session.GradingSession.EditSubject | src/app/page.tsx:208 | Only the subject changes |
| Session.GradingSession.BeginAnalysis | src/app/page.tsx:75-84 | Starts if and only if a paper is present. Without one only the error is set. Otherwise the session becomes busy on the analyzing step with the error cleared |
| Session.GradingSession.SettleAnalysis | src/app/page.tsx:86-109 | A non-empty list replaces the question list and makes the questions ready. An empty list or a rejection returns to the initial step with its error and the list unchanged. Either way the session is no longer busy |
| Session.GradingSession.AnalyzePaper | src/app/page.tsx:75-110 | Without a paper: no flow is called and only the error is set. Otherwise one extraction call is made with the paper and subject. The outcomes are as in SettleAnalysis, ending not busy with every other cell as before |
| Session.GradingSession.BeginGrading | src/app/page.tsx:112-126 | Starts if and only if a question is active and a sheet is present. Without them only the error is set. Otherwise the session becomes busy on the grading step, awaiting the sheet's text |
| Session.GradingSession.SettleTextExtraction | src/app/page.tsx:127-128 | A rejection returns to the question list with the failure note. A text is stored and the join is awaited |
| Session.GradingSession.SettleJoin | src/app/page.tsx:130-158 | Only if both flows resolve are the score, justification and feedback stored, the final score set to round(similarity × maxMarks) and the review step reached. Otherwise the question list is shown with the join's rejection and the results unchanged |
| Session.GradingSession.Grade | src/app/page.tsx:112-159 | The guard calls no flow. A rejected text extraction calls nothing else. Otherwise similarity and feedback receive the same request built from the text and the active question. The final state is given for each outcome, and the session ends not busy |
| Session.GradingSession.SelectQuestion | src/app/page.tsx:161-167 | The chosen question becomes active and the sheet and its preview are dropped. Nothing else changes |
| Session.GradingSession.Reset | src/app/page.tsx:169-187 | The session is back in its initial state |
| Session.GradingSession.EditFinalScore | src/app/page.tsx:451 | Only the final score changes |
| Session.GradingSession.EditFinalFeedback | src/app/page.tsx:462 | Only the final feedback changes |
| Session.GradingSession.SaveAndFinish | src/app/page.tsx:469-473 | Back to the question list with no active question. Nothing else changes |
| Session.GradingSession.GradeAnother | src/app/page.tsx:476 | Back to the question list. Nothing else changes |

## Left out

- Reading a file as a data URL (`readFileAsDataURL`) and the data URI it produces are not modelled. A file is an opaque token. A failed read is not distinguished from a rejected flow, so it appears as the flow's rejection.
- Preview URLs are opaque tokens. Their creation and revocation (`URL.createObjectURL`, `URL.revokeObjectURL`) are not modelled.
- Toast notifications are presentation and are not modelled.
- The loading texts are presentation. The loading message is an enumeration of which await a handler is at.
- The rendering functions are not modelled beyond the step each control requires.
- The AI flows' prompts and models, and `src/ai/dev.ts`, are not modelled. Each flow is a function parameter returning an arbitrary outcome.
- A rejection without a `message` property is modelled as one with an empty message, which gives the same fallback text.
- Session.GradingSession.EditFinalScore: takes an integer only. `parseInt` of an empty or non-numeric field gives `NaN`, which the model does not represent.
- Scoring.Round: computes over exact reals, so IEEE 754 double rounding in `similarityScore * maxMarks` is not captured.
- Concurrency: each composed handler runs its phases back to back. The steps' preconditions mean no other handler can start while one is busy. A click interleaved with an await is not modelled.
- Session.GradingSession.Grade: which rejection `Promise.all` reports when both flows reject depends on timing. It is the `similaritySettlesFirst` parameter.
