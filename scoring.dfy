/** The suggested final score: `Math.round(similarityScore * maxMarks)`. */
module Scoring {

  /** JavaScript's `Math.round` over the reals: the nearest integer, with
      halves rounded up (towards +infinity). */
  function Round(x: real): (r: int)
    ensures r as real - 0.5 <= x < r as real + 0.5
  {
    (x + 0.5).Floor
  }

  /** Only one integer lies that close to x. */
  lemma RoundUnique(x: real, n: int)
    requires n as real - 0.5 <= x < n as real + 0.5
    ensures Round(x) == n
  {
  }

  lemma RoundMonotone(x: real, y: real)
    requires x <= y
    ensures Round(x) <= Round(y)
  {
  }

  /** Rounding leaves an integer where it is. */
  lemma RoundInteger(n: int)
    ensures Round(n as real) == n
  {
    RoundUnique(n as real, n);
  }

  /** The score suggested for a similarity in a question worth maxMarks. */
  function DerivedScore(similarity: real, maxMarks: real): int
  {
    Round(similarity * maxMarks)
  }

  /** A similarity in [0, 1] and a whole, non-negative number of marks give
      a score between 0 and the marks. */
  lemma DerivedScoreInRange(similarity: real, maxMarks: real)
    requires 0.0 <= similarity <= 1.0
    requires 0.0 <= maxMarks && maxMarks == maxMarks.Floor as real
    ensures 0 <= DerivedScore(similarity, maxMarks) <= maxMarks.Floor
  {
    var product := similarity * maxMarks;
    assert 0.0 <= product by {
      if similarity > 0.0 && maxMarks > 0.0 {
        assert similarity * maxMarks > 0.0 * maxMarks;
      }
    }
    assert product <= maxMarks by {
      assert (1.0 - similarity) * maxMarks >= 0.0;
    }
    RoundMonotone(0.0, product);
    RoundMonotone(product, maxMarks);
    RoundInteger(0);
    RoundInteger(maxMarks.Floor);
  }

  /** Marks need not be whole numbers: a perfect answer to a question worth
      2.5 marks is suggested 3, more than the marks. */
  lemma DerivedScoreFractional()
    ensures DerivedScore(1.0, 2.5) == 3
  {
    RoundUnique(2.5, 3);
  }

  /** Nothing clamps the score: a similarity above 1 gives more than the
      marks. */
  lemma DerivedScoreUnclamped()
    ensures DerivedScore(1.2, 10.0) == 12
  {
    RoundUnique(12.0, 12);
  }
}
