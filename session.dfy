/** The grading session of the GradeWise home page: its state cells and the
    handlers that change them. An async handler is modelled as the phases
    the event loop runs: the synchronous part up to the first `await`, then
    one continuation per awaited AI flow, composed into the handler the
    button runs. The flows' outcomes are parameters; the calls a handler
    issues are returned in order. */
module Session {
  import opened Outcomes
  import opened Questions
  import opened RubricStrings
  import opened Scoring

  datatype Step = Initial | Analyzing | QuestionsReady | Grading | Review

  /** Which file input a change event comes from. */
  datatype FileKind = QuestionPaper | StudentSheet

  /** The error cell's content. The two failure notes carry the rejection's
      message; `Text` gives the string the page shows. */
  datatype SessionError =
    | PaperMissing
    | NoQuestionsFound
    | AnalysisFailed(message: string)
    | SelectionMissing
    | GradingFailed(message: string)
  {
    /** The displayed text. */
    function Text(): string
    {
      match this
      case PaperMissing => PaperMissingText
      case NoQuestionsFound => NoQuestionsFoundText
      case AnalysisFailed(m) => ErrorText(m, AnalysisFallbackText)
      case SelectionMissing => SelectionMissingText
      case GradingFailed(m) => ErrorText(m, GradingFallbackText)
    }
  }

  const PaperMissingText: string := "Please upload a question paper to analyze."
  const NoQuestionsFoundText: string := "Could not find any questions in the uploaded document. Please try another file."
  const AnalysisFallbackText: string := "An unexpected error occurred during analysis."
  const SelectionMissingText: string := "Please select a question and upload a student answer sheet."
  const GradingFallbackText: string := "An unexpected error occurred during the grading process."

  /** A rejection with a message shows that message. */
  lemma FailureShowsMessage(e: SessionError)
    requires e.AnalysisFailed? || e.GradingFailed?
    requires e.message != ""
    ensures e.Text() == e.message
  {
  }

  /** Every error has a non-empty text, so the error alert, which renders
      only a non-empty error, appears on any step that renders it. */
  lemma ErrorAlwaysShown(e: SessionError)
    ensures e.Text() != ""
  {
  }

  /** Which progress text is shown; `NoMessage` is the empty string. While a
      handler awaits, the message also tells which flow it awaits. */
  datatype LoadingMessage = NoMessage | AnalyzingPaper | PreparingSheet | ExtractingText | ScoringAnswer

  /** The value of every state cell at one moment. */
  datatype SessionState = SessionState(
    step: Step,
    questionFile: Option<FileToken>,
    questionFilePreview: Option<PreviewUrl>,
    subject: string,
    extractedQuestions: seq<QuestionDetail>,
    activeQuestion: Option<QuestionDetail>,
    studentFile: Option<FileToken>,
    studentFilePreview: Option<PreviewUrl>,
    isLoading: bool,
    loadingMessage: LoadingMessage,
    error: Option<SessionError>,
    extractedText: Option<string>,
    similarityScore: Option<real>,
    justification: Option<string>,
    aiFeedback: Option<string>,
    finalScore: int,
    finalFeedback: string)

  /** The initial values of the state cells. */
  function InitialState(): SessionState
  {
    SessionState(Initial, None, None, "", [], None, None, None, false, NoMessage, None,
                 None, None, None, None, 0, "")
  }

  /** No question list, selection, answer sheet or grading result. */
  predicate Blank(s: SessionState)
  {
    && s.extractedQuestions == [] && s.activeQuestion == None
    && s.studentFile == None && s.studentFilePreview == None
    && s.extractedText == None && s.similarityScore == None
    && s.justification == None && s.aiFeedback == None
    && s.finalScore == 0 && s.finalFeedback == ""
  }

  /** A non-empty question list that holds the active question, if any. */
  predicate ListReady(s: SessionState)
  {
    && |s.extractedQuestions| > 0
    && (s.activeQuestion.Some? ==> s.activeQuestion.value in s.extractedQuestions)
  }

  /** What holds in every reachable state: the loading flag is set exactly
      while a handler awaits a flow (the analyzing and grading steps); the
      initial and analyzing steps carry no question list or grading residue;
      once questions are ready the list is non-empty and holds the active
      question; grading has a question and a sheet; review has a complete
      grading result. */
  predicate Consistent(s: SessionState)
  {
    && (s.isLoading <==> s.step == Analyzing || s.step == Grading)
    && (s.loadingMessage == NoMessage <==> !s.isLoading)
    && (s.step == Initial || s.step == Analyzing ==> Blank(s))
    && (s.step == Analyzing ==> s.questionFile.Some? && s.loadingMessage == AnalyzingPaper)
    && (s.step == QuestionsReady || s.step == Grading || s.step == Review ==> ListReady(s))
    && (s.step == Grading ==>
          && s.activeQuestion.Some? && s.studentFile.Some?
          && s.loadingMessage != AnalyzingPaper
          && (s.loadingMessage == ScoringAnswer ==> s.extractedText.Some?))
    && (s.step == Review ==>
          && s.activeQuestion.Some? && s.studentFile.Some?
          && s.extractedText.Some? && s.similarityScore.Some?
          && s.justification.Some? && s.aiFeedback.Some?)
  }

  /** The request both grading flows receive for an answer to a question. */
  function RequestFor(studentAnswer: string, q: QuestionDetail): GradingRequest
  {
    GradingRequest(studentAnswer, q.modelAnswer, q.questionText, RubricString(q.rubric.keywords))
  }

  class GradingSession {
    var step: Step
    var questionFile: Option<FileToken>
    var questionFilePreview: Option<PreviewUrl>
    var subject: string
    var extractedQuestions: seq<QuestionDetail>
    var activeQuestion: Option<QuestionDetail>
    var studentFile: Option<FileToken>
    var studentFilePreview: Option<PreviewUrl>
    var isLoading: bool
    var loadingMessage: LoadingMessage
    var error: Option<SessionError>
    var extractedText: Option<string>
    var similarityScore: Option<real>
    var justification: Option<string>
    var aiFeedback: Option<string>
    var finalScore: int
    var finalFeedback: string

    function State(): SessionState
      reads this
    {
      SessionState(step, questionFile, questionFilePreview, subject,
                   extractedQuestions, activeQuestion, studentFile, studentFilePreview,
                   isLoading, loadingMessage, error, extractedText, similarityScore,
                   justification, aiFeedback, finalScore, finalFeedback)
    }

    predicate Valid()
      reads this
    {
      Consistent(State())
    }

    constructor ()
      ensures Valid()
      ensures State() == InitialState()
    {
      step := Initial;
      questionFile, questionFilePreview := None, None;
      subject := "";
      extractedQuestions, activeQuestion := [], None;
      studentFile, studentFilePreview := None, None;
      isLoading, loadingMessage, error := false, NoMessage, None;
      extractedText, similarityScore, justification, aiFeedback := None, None, None, None;
      finalScore, finalFeedback := 0, "";
    }

    // The setters of the state cells: each changes its own cell only.

    method SetStep(v: Step)
      modifies this
      ensures State() == old(State()).(step := v)
    {
      step := v;
    }

    method SetQuestionFile(v: Option<FileToken>)
      modifies this
      ensures State() == old(State()).(questionFile := v)
    {
      questionFile := v;
    }

    method SetQuestionFilePreview(v: Option<PreviewUrl>)
      modifies this
      ensures State() == old(State()).(questionFilePreview := v)
    {
      questionFilePreview := v;
    }

    method SetSubject(v: string)
      modifies this
      ensures State() == old(State()).(subject := v)
    {
      subject := v;
    }

    method SetExtractedQuestions(v: seq<QuestionDetail>)
      modifies this
      ensures State() == old(State()).(extractedQuestions := v)
    {
      extractedQuestions := v;
    }

    method SetActiveQuestion(v: Option<QuestionDetail>)
      modifies this
      ensures State() == old(State()).(activeQuestion := v)
    {
      activeQuestion := v;
    }

    method SetStudentFile(v: Option<FileToken>)
      modifies this
      ensures State() == old(State()).(studentFile := v)
    {
      studentFile := v;
    }

    method SetStudentFilePreview(v: Option<PreviewUrl>)
      modifies this
      ensures State() == old(State()).(studentFilePreview := v)
    {
      studentFilePreview := v;
    }

    method SetIsLoading(v: bool)
      modifies this
      ensures State() == old(State()).(isLoading := v)
    {
      isLoading := v;
    }

    method SetLoadingMessage(v: LoadingMessage)
      modifies this
      ensures State() == old(State()).(loadingMessage := v)
    {
      loadingMessage := v;
    }

    method SetError(v: Option<SessionError>)
      modifies this
      ensures State() == old(State()).(error := v)
    {
      error := v;
    }

    method SetExtractedText(v: Option<string>)
      modifies this
      ensures State() == old(State()).(extractedText := v)
    {
      extractedText := v;
    }

    method SetSimilarityScore(v: Option<real>)
      modifies this
      ensures State() == old(State()).(similarityScore := v)
    {
      similarityScore := v;
    }

    method SetJustification(v: Option<string>)
      modifies this
      ensures State() == old(State()).(justification := v)
    {
      justification := v;
    }

    method SetAiFeedback(v: Option<string>)
      modifies this
      ensures State() == old(State()).(aiFeedback := v)
    {
      aiFeedback := v;
    }

    method SetFinalScore(v: int)
      modifies this
      ensures State() == old(State()).(finalScore := v)
    {
      finalScore := v;
    }

    method SetFinalFeedback(v: string)
      modifies this
      ensures State() == old(State()).(finalFeedback := v)
    {
      finalFeedback := v;
    }

    /** A file input changed. The paper input is shown on the initial step,
        the answer-sheet input once a question is selected. Without a chosen
        file nothing changes; otherwise the file and its preview URL are
        stored and the error is cleared. */
    method ChangeFile(kind: FileKind, file: Option<FileToken>, preview: PreviewUrl)
      requires Valid()
      requires kind == QuestionPaper ==> step == Initial
      requires kind == StudentSheet ==> step == QuestionsReady && activeQuestion.Some?
      modifies this
      ensures Valid()
      ensures file.None? ==> State() == old(State())
      ensures file.Some? && kind == QuestionPaper ==>
        State() == old(State()).(questionFile := file, questionFilePreview := Some(preview), error := None)
      ensures file.Some? && kind == StudentSheet ==>
        State() == old(State()).(studentFile := file, studentFilePreview := Some(preview), error := None)
    {
      if file.Some? {
        if kind == QuestionPaper {
          SetQuestionFile(file);
          SetQuestionFilePreview(Some(preview));
        } else {
          SetStudentFile(file);
          SetStudentFilePreview(Some(preview));
        }
        SetError(None);
      }
    }

    /** The subject field on the initial step was edited. */
    method EditSubject(text: string)
      requires Valid() && step == Initial
      modifies this
      ensures Valid()
      ensures State() == old(State()).(subject := text)
    {
      SetSubject(text);
    }

    /** "Analyze Paper", up to its first `await`: without a paper only the
        error is set; otherwise the session is marked busy on the analyzing
        step. */
    method BeginAnalysis() returns (started: bool)
      requires Valid() && step == Initial
      modifies this
      ensures Valid()
      ensures started <==> old(questionFile).Some?
      ensures !started ==> State() == old(State()).(error := Some(PaperMissing))
      ensures started ==>
        State() == old(State()).(isLoading := true, error := None, step := Analyzing,
                                 loadingMessage := AnalyzingPaper)
    {
      if questionFile.None? {
        SetError(Some(PaperMissing));
        return false;
      }
      SetIsLoading(true);
      SetError(None);
      SetStep(Analyzing);
      SetLoadingMessage(AnalyzingPaper);
      started := true;
    }

    /** "Analyze Paper", once the extraction flow has settled: a non-empty
        list replaces the question list and makes the questions ready; an
        empty list or a rejection returns to the initial step with an error
        and the list as it was. Either way the session is no longer busy. */
    method SettleAnalysis(result: Outcome<seq<QuestionDetail>>)
      requires Valid() && step == Analyzing
      modifies this
      ensures Valid()
      ensures result.Ok? && |result.value| > 0 ==>
        State() == old(State()).(step := QuestionsReady, extractedQuestions := result.value,
                                 isLoading := false, loadingMessage := NoMessage)
      ensures result.Ok? && |result.value| == 0 ==>
        State() == old(State()).(step := Initial, error := Some(NoQuestionsFound),
                                 isLoading := false, loadingMessage := NoMessage)
      ensures result.Err? ==>
        State() == old(State()).(step := Initial, error := Some(AnalysisFailed(result.msg)),
                                 isLoading := false, loadingMessage := NoMessage)
    {
      if result.Ok? && |result.value| > 0 {
        SetExtractedQuestions(result.value);
        SetStep(QuestionsReady);
      } else if result.Ok? {
        SetError(Some(NoQuestionsFound));
        SetStep(Initial);
      } else {
        SetError(Some(AnalysisFailed(result.msg)));
        SetStep(Initial);
      }
      SetIsLoading(false);
      SetLoadingMessage(NoMessage);
    }

    /** The "Analyze Paper" handler. Without a paper only the error is set
        and no flow is called. Otherwise the extraction flow is called once,
        with the paper and the subject: a non-empty list of questions
        replaces the question list, in the order returned, and makes the
        questions ready; an empty list or a rejection returns to the initial
        step with an error and the list as it was. */
    method AnalyzePaper(extractQuestions: (FileToken, string) -> Outcome<seq<QuestionDetail>>)
      returns (calls: seq<Call>)
      requires Valid() && step == Initial
      modifies this
      ensures Valid()
      ensures !isLoading && loadingMessage == NoMessage
      ensures old(questionFile).None? ==>
        calls == [] && State() == old(State()).(error := Some(PaperMissing))
      ensures old(questionFile).Some? ==>
        calls == [ExtractQuestions(old(questionFile).value, old(subject))]
      ensures old(questionFile).Some? ==>
        var result := extractQuestions(old(questionFile).value, old(subject));
        result.Ok? && |result.value| > 0 ==>
          State() == old(State()).(step := QuestionsReady, error := None, extractedQuestions := result.value)
      ensures old(questionFile).Some? ==>
        var result := extractQuestions(old(questionFile).value, old(subject));
        result.Ok? && |result.value| == 0 ==>
          State() == old(State()).(error := Some(NoQuestionsFound))
      ensures old(questionFile).Some? ==>
        var result := extractQuestions(old(questionFile).value, old(subject));
        result.Err? ==>
          State() == old(State()).(error := Some(AnalysisFailed(result.msg)))
    {
      var started := BeginAnalysis();
      if !started {
        return [];
      }
      var paper, subj := questionFile.value, subject;
      calls := [ExtractQuestions(paper, subj)];
      SettleAnalysis(extractQuestions(paper, subj));
    }

    /** "Start Grading", up to its first `await`: without an active question
        or an answer sheet only the error is set; otherwise the session is
        marked busy on the grading step and awaits the text of the sheet. */
    method BeginGrading() returns (started: bool)
      requires Valid() && step == QuestionsReady
      modifies this
      ensures Valid()
      ensures started <==> old(activeQuestion).Some? && old(studentFile).Some?
      ensures !started ==> State() == old(State()).(error := Some(SelectionMissing))
      ensures started ==>
        State() == old(State()).(isLoading := true, error := None, step := Grading,
                                 loadingMessage := ExtractingText)
    {
      if activeQuestion.None? || studentFile.None? {
        SetError(Some(SelectionMissing));
        return false;
      }
      SetIsLoading(true);
      SetError(None);
      SetStep(Grading);
      SetLoadingMessage(PreparingSheet);
      SetLoadingMessage(ExtractingText);
      started := true;
    }

    /** "Start Grading", once text extraction has settled: a rejection ends
        the attempt on the question list with an error; a text is stored and
        the session goes on to await the similarity and feedback flows. */
    method SettleTextExtraction(ocr: Outcome<string>)
      requires Valid() && step == Grading && loadingMessage == ExtractingText
      modifies this
      ensures Valid()
      ensures ocr.Err? ==>
        State() == old(State()).(step := QuestionsReady, error := Some(GradingFailed(ocr.msg)),
                                 isLoading := false, loadingMessage := NoMessage)
      ensures ocr.Ok? ==>
        State() == old(State()).(extractedText := Some(ocr.value), loadingMessage := ScoringAnswer)
    {
      if ocr.Err? {
        SetError(Some(GradingFailed(ocr.msg)));
        SetStep(QuestionsReady);
        SetIsLoading(false);
        SetLoadingMessage(NoMessage);
      } else {
        SetExtractedText(Some(ocr.value));
        SetLoadingMessage(ScoringAnswer);
      }
    }

    /** "Start Grading", once both the similarity and the feedback flow
        have settled: only if both resolved are the score, justification and
        feedback stored, the final score derived from the active question's
        marks and the review step reached; otherwise the attempt ends on the
        question list with the rejection reported and every result cell as
        it was. */
    method SettleJoin(sim: Outcome<SimilarityResult>, fb: Outcome<string>, similaritySettlesFirst: bool)
      requires Valid() && step == Grading && loadingMessage == ScoringAnswer
      modifies this
      ensures Valid()
      ensures sim.Ok? && fb.Ok? ==>
        State() == old(State()).(
          step := Review, isLoading := false, loadingMessage := NoMessage,
          similarityScore := Some(sim.value.similarityScore),
          justification := Some(sim.value.justification),
          aiFeedback := Some(fb.value),
          finalScore := DerivedScore(sim.value.similarityScore, old(activeQuestion).value.maxMarks),
          finalFeedback := fb.value)
      ensures sim.Err? || fb.Err? ==>
        State() == old(State()).(
          step := QuestionsReady, isLoading := false, loadingMessage := NoMessage,
          error := Some(GradingFailed(JoinRejection(sim, fb, similaritySettlesFirst))))
    {
      var q := activeQuestion.value;
      if sim.Ok? && fb.Ok? {
        SetSimilarityScore(Some(sim.value.similarityScore));
        SetJustification(Some(sim.value.justification));
        SetAiFeedback(Some(fb.value));
        SetFinalScore(DerivedScore(sim.value.similarityScore, q.maxMarks));
        SetFinalFeedback(fb.value);
        SetStep(Review);
      } else {
        SetError(Some(GradingFailed(JoinRejection(sim, fb, similaritySettlesFirst))));
        SetStep(QuestionsReady);
      }
      SetIsLoading(false);
      SetLoadingMessage(NoMessage);
    }

    /** The "Start Grading" handler. Without an active question or a sheet
        only the error is set and no flow is called. Otherwise the text is
        extracted first; if that is rejected no other flow is called.
        Otherwise the text is stored, and the similarity and feedback flows
        are both called with the same request, built from that text and the
        active question. Only if both resolve are the results stored, the
        final score derived and the review step reached; if either is
        rejected the session returns to the question list with the extracted
        text kept and every result cell as it was. */
    method Grade(
      extractText: FileToken -> Outcome<string>,
      scoreSimilarity: GradingRequest -> Outcome<SimilarityResult>,
      generateFeedback: GradingRequest -> Outcome<string>,
      similaritySettlesFirst: bool)
      returns (calls: seq<Call>)
      requires Valid() && step == QuestionsReady
      modifies this
      ensures Valid()
      ensures !isLoading && loadingMessage == NoMessage
      ensures old(activeQuestion).None? || old(studentFile).None? ==>
        calls == [] && State() == old(State()).(error := Some(SelectionMissing))
      ensures old(activeQuestion).Some? && old(studentFile).Some? ==>
        var ocr := extractText(old(studentFile).value);
        ocr.Err? ==>
          && calls == [ExtractText(old(studentFile).value)]
          && State() == old(State()).(error := Some(GradingFailed(ocr.msg)))
      ensures old(activeQuestion).Some? && old(studentFile).Some? ==>
        var ocr := extractText(old(studentFile).value);
        ocr.Ok? ==>
          var request := RequestFor(ocr.value, old(activeQuestion).value);
          calls == [ExtractText(old(studentFile).value), ScoreSimilarity(request), GenerateFeedback(request)]
      ensures old(activeQuestion).Some? && old(studentFile).Some? ==>
        var q := old(activeQuestion).value;
        var ocr := extractText(old(studentFile).value);
        ocr.Ok? ==>
          var request := RequestFor(ocr.value, q);
          var sim, fb := scoreSimilarity(request), generateFeedback(request);
          sim.Ok? && fb.Ok? ==>
            State() == old(State()).(
              step := Review, error := None,
              extractedText := Some(ocr.value),
              similarityScore := Some(sim.value.similarityScore),
              justification := Some(sim.value.justification),
              aiFeedback := Some(fb.value),
              finalScore := DerivedScore(sim.value.similarityScore, q.maxMarks),
              finalFeedback := fb.value)
      ensures old(activeQuestion).Some? && old(studentFile).Some? ==>
        var ocr := extractText(old(studentFile).value);
        ocr.Ok? ==>
          var request := RequestFor(ocr.value, old(activeQuestion).value);
          var sim, fb := scoreSimilarity(request), generateFeedback(request);
          sim.Err? || fb.Err? ==>
            State() == old(State()).(
              error := Some(GradingFailed(JoinRejection(sim, fb, similaritySettlesFirst))),
              extractedText := Some(ocr.value))
    {
      var started := BeginGrading();
      if !started {
        return [];
      }
      var file := studentFile.value;
      calls := [ExtractText(file)];
      var ocr := extractText(file);
      SettleTextExtraction(ocr);
      if ocr.Err? {
        return;
      }
      var request := RequestFor(extractedText.value, activeQuestion.value);
      calls := calls + [ScoreSimilarity(request), GenerateFeedback(request)];
      SettleJoin(scoreSimilarity(request), generateFeedback(request), similaritySettlesFirst);
    }

    /** Make one of the listed questions the active one. The answer sheet
        and its preview are dropped; the extracted text, scores and feedback
        of an earlier grading are not. */
    method SelectQuestion(question: QuestionDetail)
      requires Valid() && step == QuestionsReady
      requires question in extractedQuestions
      modifies this
      ensures Valid()
      ensures State() == old(State()).(activeQuestion := Some(question),
                                       studentFile := None, studentFilePreview := None)
    {
      SetActiveQuestion(Some(question));
      SetStudentFile(None);
      SetStudentFilePreview(None);
    }

    /** "Analyze Another Paper": every cell except the loading flag and
        message is given its initial value back; those two already hold
        theirs, since the list is shown only while no handler is busy. */
    method Reset()
      requires Valid() && step == QuestionsReady
      modifies this
      ensures Valid()
      ensures State() == InitialState()
    {
      SetStep(Initial);
      SetQuestionFile(None);
      SetQuestionFilePreview(None);
      SetSubject("");
      SetExtractedQuestions([]);
      SetActiveQuestion(None);
      SetStudentFile(None);
      SetStudentFilePreview(None);
      SetError(None);
      SetExtractedText(None);
      SetSimilarityScore(None);
      SetJustification(None);
      SetAiFeedback(None);
      SetFinalScore(0);
      SetFinalFeedback("");
    }

    /** The final score field was edited on the review step with a whole
        number; the score is not bounded by the question's marks. */
    method EditFinalScore(v: int)
      requires Valid() && step == Review
      modifies this
      ensures Valid()
      ensures State() == old(State()).(finalScore := v)
    {
      SetFinalScore(v);
    }

    /** The final feedback was edited on the review step. */
    method EditFinalFeedback(text: string)
      requires Valid() && step == Review
      modifies this
      ensures Valid()
      ensures State() == old(State()).(finalFeedback := text)
    {
      SetFinalFeedback(text);
    }

    /** "Save and Finish": back to the question list with no active
        question. */
    method SaveAndFinish()
      requires Valid() && step == Review
      modifies this
      ensures Valid()
      ensures State() == old(State()).(step := QuestionsReady, activeQuestion := None)
    {
      SetStep(QuestionsReady);
      SetActiveQuestion(None);
    }

    /** "Grade Another": back to the question list, nothing else changes. */
    method GradeAnother()
      requires Valid() && step == Review
      modifies this
      ensures Valid()
      ensures State() == old(State()).(step := QuestionsReady)
    {
      SetStep(QuestionsReady);
    }
  }
}
