/** The score of a game as a function of the number of tries used. */
module Scoring {

  /** calculate_score: 1000 points minus 100 per try, never below zero. */
  function CalculateScore(tries: int): (score: int)
    ensures score >= 0
    ensures tries >= 0 ==> score <= 1000
    ensures score == 0 <==> tries >= 10
    ensures tries <= 10 ==> score == 1000 - 100 * tries
  {
    var score := 1000 - tries * 100;
    if score < 0 then 0 else score
  }

  /** More tries never give a better score. */
  lemma ScoreNonIncreasing(t1: int, t2: int)
    requires t1 <= t2
    ensures CalculateScore(t2) <= CalculateScore(t1)
  {
  }
}
