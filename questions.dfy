/** The records exchanged with the AI flows: extracted questions, the
    requests the grading handler builds, and a log of the calls it makes. */
module Questions {

  /** An uploaded file, kept opaque: its bytes are only ever read by a flow. */
  type FileToken = nat

  /** An object URL made for a file preview. */
  type PreviewUrl = nat

  datatype Rubric = Rubric(keywords: seq<string>)

  /** One extracted question (QuestionDetail of the extraction flow). */
  datatype QuestionDetail = QuestionDetail(
    questionId: string,
    questionText: string,
    maxMarks: real,
    modelAnswer: string,
    rubric: Rubric)

  /** The result of the similarity flow. The schema only describes the
      score as lying in [0, 1]; nothing validates it. */
  datatype SimilarityResult = SimilarityResult(similarityScore: real, justification: string)

  /** The common input of the similarity and feedback flows. */
  datatype GradingRequest = GradingRequest(
    studentAnswer: string,
    modelAnswer: string,
    question: string,
    rubric: string)

  /** One call issued to an AI flow, in issue order. */
  datatype Call =
    | ExtractQuestions(paper: FileToken, subject: string)
    | ExtractText(scan: FileToken)
    | ScoreSimilarity(request: GradingRequest)
    | GenerateFeedback(request: GradingRequest)
}
