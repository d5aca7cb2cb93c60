/** The knowledge-test tab: a five-question quiz whose progress lives in the
    session state (`test_score`, `current_question`, `test_completed`). */
module KnowledgeTest {

  /** A question: how many answer options it shows and the index of the
      right one (the wording is presentation). */
  datatype Question = Question(options: nat, correct: nat)

  /** The quiz's questions, in order. Each has four options and its right
      answer is one of them. */
  function Bank(): (qs: seq<Question>)
    ensures |qs| == 5
    ensures forall i :: 0 <= i < |qs| ==> qs[i].options == 4 && qs[i].correct < qs[i].options
  {
    [Question(4, 1), Question(4, 2), Question(4, 1), Question(4, 1), Question(4, 1)]
  }

  /** The verdict shown with the result. */
  datatype Band = Excellent | Good | Review

  /** `score_pct`: the score as a percentage of the number of questions. */
  function ScorePercent(score: int, total: nat): real
    requires total > 0
  {
    (score as real / total as real) * 100.0
  }

  /** The verdict: at least 80% is excellent, at least 60% is good, less
      asks the user to review the material. */
  function Grade(score: int, total: nat): (b: Band)
    requires total > 0
    ensures b == Excellent <==> 80.0 <= ScorePercent(score, total)
    ensures b == Good <==> 60.0 <= ScorePercent(score, total) < 80.0
  {
    var pct := ScorePercent(score, total);
    if pct >= 80.0 then Excellent
    else if pct >= 60.0 then Good
    else Review
  }

  /** With five questions: four or five right answers are excellent, three
      are good, two or fewer ask for review. */
  lemma GradeOfFive(score: int)
    requires 0 <= score <= 5
    ensures Grade(score, 5) == if score >= 4 then Excellent else if score == 3 then Good else Review
  {
  }

  /** The quiz's part of the session state. */
  class Session {
    /** Whether `test_score` is present in the session state. */
    var hasScore: bool
    var score: int
    var current: int
    var completed: bool

    /** What every rerun relies on: the score never exceeds the number of
        questions answered, and the quiz is completed exactly when every
        question is answered, so an unfinished quiz has a current question. */
    ghost predicate Valid()
      reads this
    {
      hasScore ==>
        && 0 <= score <= current <= |Bank()|
        && (completed <==> current == |Bank()|)
    }

    /** A new session, before the tab has run. */
    constructor ()
      ensures Valid() && !hasScore
    {
      hasScore, score, current, completed := false, 0, 0, false;
    }

    /** The tab's first step: set up the quiz state unless `test_score` is
        already present. */
    method Init()
      requires Valid()
      modifies this
      ensures Valid() && hasScore
      ensures old(hasScore) ==> score == old(score) && current == old(current) && completed == old(completed)
      ensures !old(hasScore) ==> score == 0 && current == 0 && !completed
    {
      if !hasScore {
        hasScore := true;
        score := 0;
        completed := false;
        current := 0;
      }
    }

    /** `questions[current_question]`, read while the quiz is unfinished: the
        index is always in bounds. */
    method CurrentQuestion() returns (q: Question)
      requires Valid() && hasScore && !completed
      ensures 0 <= current < |Bank()| && q == Bank()[current]
    {
      q := Bank()[current];
    }

    /** Submitting option `selected`: one point when it is the right one,
        then the next question; the fifth answer completes the quiz. */
    method Answer(selected: nat)
      requires Valid() && hasScore && !completed
      requires selected < Bank()[current].options
      modifies this
      ensures Valid() && hasScore
      ensures current == old(current) + 1
      ensures score == old(score) + (if selected == Bank()[old(current)].correct then 1 else 0)
      ensures completed <==> old(current) == |Bank()| - 1
    {
      var q := Bank()[current];
      if selected == q.correct {
        score := score + 1;
      }
      current := current + 1;
      if current >= |Bank()| {
        completed := true;
      }
    }

    /** The verdict of a completed quiz. */
    function Result(): (b: Band)
      reads this
      requires Valid() && hasScore && completed
      ensures b == Excellent <==> score >= 4
      ensures b == Good <==> score == 3
    {
      GradeOfFive(score);
      Grade(score, |Bank()|)
    }

    /** "Take the test again", offered once the quiz is completed. */
    method Reset()
      requires Valid() && hasScore && completed
      modifies this
      ensures Valid() && hasScore
      ensures score == 0 && current == 0 && !completed
    {
      score := 0;
      completed := false;
      current := 0;
    }
  }
}
