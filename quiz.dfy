/**
  The quiz of src/components/QuizSection.tsx as a state machine: choosing
  an option, pressing Next (which scores the answer and shows feedback), the
  end of the two-second feedback delay (which moves on to the next question
  or to the results), restarting, and the results card's percentage and
  message tier.
*/
module Quiz {
  import opened Wrappers

  datatype Question = Question(
    id: nat,
    question: string,
    options: seq<string>,
    correctAnswer: nat,
    professionalExplanation: string,
    funExplanation: string)

  /** A question list the quiz can run on: at least one question, each answer one of its options. */
  predicate WellFormed(qs: seq<Question>) {
    |qs| > 0 && forall i :: 0 <= i < |qs| ==> qs[i].correctAnswer < |qs[i].options|
  }

  /** The three questions the component asks. */
  function SourceQuestions(): (qs: seq<Question>)
    ensures |qs| == 3 && WellFormed(qs)
    ensures forall i :: 0 <= i < |qs| ==> |qs[i].options| == 4
  {
    [ Question(1, Question1, Options1, 1, Explanation1, FunExplanation1),
      Question(2, Question2, Options2, 2, Explanation2, FunExplanation2),
      Question(3, Question3, Options3, 1, Explanation3, FunExplanation3) ]
  }

  const Question1: string := "What does the 'R-squared' value represent in regression analysis?"
  const Options1: seq<string> := [
    "The correlation between two variables",
    "The proportion of variance explained by the model",
    "The root mean squared error",
    "The regression coefficient" ]
  const Explanation1: string :=
    "R-squared represents the proportion of the variance in the dependent variable that is predictable from the independent variable(s)."
  const FunExplanation1: string :=
    "It's like knowing what percentage of your ice cream melting can be blamed on the hot weather! 🍦☀️"

  const Question2: string := "Which of these is NOT a common clustering algorithm?"
  const Options2: seq<string> := [ "K-means", "DBSCAN", "Random Forest", "Hierarchical clustering" ]
  const Explanation2: string :=
    "Random Forest is a supervised learning algorithm used for classification and regression, not for clustering."
  const FunExplanation2: string :=
    "Random Forest is the odd one out - it's like bringing a chainsaw to a knitting circle! 🌲✂️"

  const Question3: string := "What is the purpose of feature scaling in machine learning?"
  const Options3: seq<string> := [
    "To reduce the number of features",
    "To normalize features to a similar range",
    "To increase model complexity",
    "To visualize data better" ]
  const Explanation3: string :=
    "Feature scaling ensures that features with larger ranges don't dominate the learning process in algorithms sensitive to feature magnitudes."
  const FunExplanation3: string :=
    "It's like making sure all your friends are the same height in a group photo - no one gets to dominate just because they're taller! 📏👨‍👩‍👧‍👦"

  // ---------------------------------------------------------------------
  // Results card
  // ---------------------------------------------------------------------

  /** `Math.round`: the nearest integer, halves rounded up. */
  function Round(x: real): (n: int)
    ensures n as real - 0.5 <= x < n as real + 0.5
  {
    (x + 0.5).Floor
  }

  /** `Math.round((score / questions.length) * 100)`. */
  function Percentage(score: nat, total: nat): (p: int)
    requires 0 < total && score <= total
    ensures 0 <= p <= 100
    ensures p as real - 0.5 <= (score as real / total as real) * 100.0 < p as real + 0.5
    ensures score == total ==> p == 100
    ensures score == 0 ==> p == 0
  {
    var ratio := score as real / total as real;
    assert 0.0 <= ratio <= 1.0;
    assert score == total ==> ratio == 1.0;
    Round(ratio * 100.0)
  }

  /** The three messages of the results card. */
  datatype Tier = Perfect | Good | KeepLearning

  /** A perfect score, at least half (real division), or less than half. */
  function ResultTier(score: nat, total: nat): (t: Tier)
    ensures t == Perfect <==> score == total
    ensures t == Good <==> score != total && 2 * score >= total
    ensures t == KeepLearning <==> score != total && 2 * score < total
  {
    if score == total then Perfect
    else if score as real >= total as real / 2.0 then Good
    else KeepLearning
  }

  function TierRank(t: Tier): nat {
    match t
    case KeepLearning => 0
    case Good => 1
    case Perfect => 2
  }

  /** A higher score never earns a lower tier. */
  lemma ResultTierMonotone(s1: nat, s2: nat, total: nat)
    requires s1 <= s2 <= total
    ensures TierRank(ResultTier(s1, total)) <= TierRank(ResultTier(s2, total))
  {
  }

  // ---------------------------------------------------------------------
  // The quiz state
  // ---------------------------------------------------------------------

  class QuizState {
    const questions: seq<Question>
    var currentQuestion: nat
    var selectedOption: Option<nat>
    var score: nat
    var showResults: bool
    var isFunMode: bool
    var showFeedback: bool

    /** The Next presses since the quiz was (re)started. */
    ghost var answered: nat

    ghost predicate Valid()
      reads this
      ensures Valid() ==> score <= answered <= |questions|
    {
      && WellFormed(questions)
      && currentQuestion < |questions|
      && (selectedOption.Some? ==> selectedOption.value < |questions[currentQuestion].options|)
      && answered == currentQuestion + (if showFeedback || showResults then 1 else 0)
      && score <= answered
      && !(showFeedback && showResults)
      && (showFeedback || showResults ==> selectedOption.Some?)
    }

    /** The `disabled` rule of the Next button, negated. */
    predicate NextEnabled()
      reads this
    {
      selectedOption.Some? && !showFeedback
    }

    /** The initial state: first question, nothing selected, no score, professional mode. */
    constructor (qs: seq<Question>)
      requires WellFormed(qs)
      ensures Valid()
      ensures questions == qs && currentQuestion == 0 && selectedOption == None && score == 0
      ensures !showResults && !isFunMode && !showFeedback && answered == 0
    {
      questions := qs;
      currentQuestion := 0;
      selectedOption := None;
      score := 0;
      showResults := false;
      isFunMode := false;
      showFeedback := false;
      answered := 0;
    }

    /** `handleOptionSelect`: clicking one of the current question's options. */
    method SelectOption(optionIndex: nat)
      requires Valid()
      requires optionIndex < |questions[currentQuestion].options|
      modifies this
      ensures Valid()
      ensures selectedOption == Some(optionIndex)
      ensures currentQuestion == old(currentQuestion) && score == old(score)
      ensures showResults == old(showResults) && showFeedback == old(showFeedback)
      ensures isFunMode == old(isFunMode) && answered == old(answered)
    {
      selectedOption := Some(optionIndex);
    }

    /**
      `handleNextQuestion`, up to the scheduling of the feedback delay: the
      answer is scored and the feedback shown.  The button exists only on the
      question card and is enabled only by `NextEnabled`.
    */
    method PressNext()
      requires Valid() && NextEnabled() && !showResults
      modifies this
      ensures Valid()
      ensures score == old(score) + (if old(selectedOption) == Some(questions[currentQuestion].correctAnswer) then 1 else 0)
      ensures showFeedback && answered == old(answered) + 1
      ensures currentQuestion == old(currentQuestion) && selectedOption == old(selectedOption)
      ensures showResults == old(showResults) && isFunMode == old(isFunMode)
    {
      if selectedOption == Some(questions[currentQuestion].correctAnswer) {
        score := score + 1;
      }
      showFeedback := true;
      answered := answered + 1;
    }

    /**
      The body of the delayed callback scheduled by Next: the feedback is
      hidden, then the quiz moves to the next question with nothing
      selected, or, after the last question, to the results.
    */
    method FeedbackElapsed()
      requires Valid() && showFeedback
      modifies this
      ensures Valid()
      ensures !showFeedback && score == old(score) && isFunMode == old(isFunMode) && answered == old(answered)
      ensures old(currentQuestion) < |questions| - 1 ==>
        currentQuestion == old(currentQuestion) + 1 && selectedOption == None && !showResults
      ensures old(currentQuestion) == |questions| - 1 ==>
        currentQuestion == old(currentQuestion) && selectedOption == old(selectedOption) && showResults
    {
      showFeedback := false;
      if currentQuestion < |questions| - 1 {
        currentQuestion := currentQuestion + 1;
        selectedOption := None;
      } else {
        showResults := true;
      }
    }

    /** `resetQuiz`: back to the first question; the mode switch is left as it is. */
    method Reset()
      requires Valid()
      modifies this
      ensures Valid()
      ensures currentQuestion == 0 && selectedOption == None && score == 0
      ensures !showResults && !showFeedback && answered == 0
      ensures isFunMode == old(isFunMode)
    {
      currentQuestion := 0;
      selectedOption := None;
      score := 0;
      showResults := false;
      showFeedback := false;
      answered := 0;
    }

    /** The fun-mode switch. */
    method SetFunMode(on: bool)
      requires Valid()
      modifies this
      ensures Valid()
      ensures isFunMode == on
      ensures currentQuestion == old(currentQuestion) && selectedOption == old(selectedOption)
      ensures score == old(score) && showResults == old(showResults)
      ensures showFeedback == old(showFeedback) && answered == old(answered)
    {
      isFunMode := on;
    }
  }

  /** A run through the component's questions answering each correctly reaches a perfect result. */
  method PerfectRun() returns (percent: int, tier: Tier)
    ensures percent == 100 && tier == Perfect
  {
    var qs := SourceQuestions();
    var quiz := new QuizState(qs);
    quiz.SelectOption(1);
    quiz.PressNext();
    quiz.FeedbackElapsed();
    quiz.SelectOption(2);
    quiz.PressNext();
    quiz.FeedbackElapsed();
    quiz.SelectOption(1);
    quiz.PressNext();
    quiz.FeedbackElapsed();
    assert quiz.showResults && quiz.score == |quiz.questions| == 3;
    percent := Percentage(quiz.score, |quiz.questions|);
    tier := ResultTier(quiz.score, |quiz.questions|);
  }
}
