/** Two scenarios, verified from the handlers' contracts alone: a paper with
    two sub-questions graded end to end, and a grading attempt whose text
    extraction is rejected. */
module SessionScenarios {
  import opened Outcomes
  import opened Questions
  import opened RubricStrings
  import opened Scoring
  import opened Session

  method TwoSubQuestions()
  {
    var q1a := QuestionDetail("Q1a", "State Ohm's law.", 5.0, "V = IR", Rubric(["voltage", "current"]));
    var q1b := QuestionDetail("Q1b", "Define resistivity.", 10.0, "Resistance of a unit cube", Rubric([]));

    var session := new GradingSession();
    session.ChangeFile(QuestionPaper, Some(1), 100);
    var calls := session.AnalyzePaper((paper, subject) => Ok([q1a, q1b]));
    assert calls == [ExtractQuestions(1, "")];
    assert session.step == QuestionsReady && session.extractedQuestions == [q1a, q1b];

    session.SelectQuestion(q1b);
    session.ChangeFile(StudentSheet, Some(2), 101);
    calls := session.Grade(
      scan => Ok("resistance per unit length and area"),
      request => Ok(SimilarityResult(0.8, "close to the model answer")),
      request => Ok("Mention the unit cube."),
      true);
    var request := GradingRequest("resistance per unit length and area", "Resistance of a unit cube",
                                  "Define resistivity.", "Keywords: ");
    assert RubricString([]) == "Keywords: ";
    assert calls == [ExtractText(2), ScoreSimilarity(request), GenerateFeedback(request)];
    RoundUnique(0.8 * 10.0, 8);
    assert session.step == Review && session.finalScore == 8;
    assert session.finalFeedback == "Mention the unit cube.";

    session.SaveAndFinish();
    assert session.step == QuestionsReady && session.activeQuestion == None;
    assert session.extractedQuestions == [q1a, q1b];
  }

  method RejectedTextExtraction()
  {
    var q := QuestionDetail("Q2", "Explain Kirchhoff's current law.", 4.0, "Currents into a node sum to zero",
                            Rubric(["node", "sum"]));
    var session := new GradingSession();
    session.ChangeFile(QuestionPaper, Some(7), 200);
    var calls := session.AnalyzePaper((paper, subject) => Ok([q]));
    session.SelectQuestion(q);
    session.ChangeFile(StudentSheet, Some(8), 201);
    calls := session.Grade(
      scan => Err("scan unreadable"),
      request => Ok(SimilarityResult(1.0, "identical")),
      request => Ok("Well done."),
      false);
    assert calls == [ExtractText(8)];
    assert session.step == QuestionsReady && session.activeQuestion == Some(q);
    assert session.error == Some(GradingFailed("scan unreadable"));
    assert session.extractedText == None && session.similarityScore == None;
  }
}
