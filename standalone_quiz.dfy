/**
 * The standalone quiz page: a question list read once from a static JSON file,
 * the index of the current question and the running score, advanced by one
 * selection handler until the index reaches the end of the list.
 */
module StandaloneQuiz {
  import opened Common
  import opened JsRuntime

  /** One `{question, choices, answer}` record of the static question file. */
  datatype QuizItem = QuizItem(question: string, choices: seq<string>, answer: int)

  /** A choice button: its caption and the index its click handler passes on. */
  datatype ChoiceButton = ChoiceButton(caption: string, index: nat)

  /** What the quiz area shows. */
  datatype Screen =
    | QuestionScreen(question: string, buttons: seq<ChoiceButton>, progressLabel: string)
    | FinishedScreen(html: string)

  /** The number of selections in `picks` that match the answers of the first questions. */
  function Score(items: seq<QuizItem>, picks: seq<int>): nat
    requires |picks| <= |items|
  {
    if picks == [] then 0
    else
      var k := |picks| - 1;
      Score(items, picks[..k]) + (if picks[k] == items[k].answer then 1 else 0)
  }

  lemma {:induction false} ScoreAtMostPicks(items: seq<QuizItem>, picks: seq<int>)
    requires |picks| <= |items|
    ensures Score(items, picks) <= |picks|
  {
    if picks != [] {
      ScoreAtMostPicks(items, picks[..|picks| - 1]);
    }
  }

  /** Picking the right index every time scores one point per question. */
  lemma {:induction false} ScoreAllCorrect(items: seq<QuizItem>, picks: seq<int>)
    requires |picks| <= |items|
    requires forall k :: 0 <= k < |picks| ==> picks[k] == items[k].answer
    ensures Score(items, picks) == |picks|
  {
    if picks != [] {
      ScoreAllCorrect(items, picks[..|picks| - 1]);
    }
  }

  /** Picking a wrong index every time scores nothing. */
  lemma {:induction false} ScoreAllWrong(items: seq<QuizItem>, picks: seq<int>)
    requires |picks| <= |items|
    requires forall k :: 0 <= k < |picks| ==> picks[k] != items[k].answer
    ensures Score(items, picks) == 0
  {
    if picks != [] {
      ScoreAllWrong(items, picks[..|picks| - 1]);
    }
  }

  /** The label "Question X of N" shown for the question at index `current`. */
  function ProgressLabel(current: nat, total: nat): string {
    "Question " + NatToString(current + 1) + " of " + NatToString(total)
  }

  /** The label starts with the 1-based position of the current question. */
  lemma ProgressLabelPosition(current: nat, total: nat)
    ensures ProgressLabel(current, total)[..9] == "Question "
    ensures ParseInt(ProgressLabel(current, total)[9..]) == Some(current + 1)
  {
    var rest := " of " + NatToString(total);
    ParseIntAfterPrefix(ProgressLabel(current, total), "Question ", current + 1, rest);
  }

  /** The label ends with the number of questions. */
  lemma ProgressLabelTotal(current: nat, total: nat)
    ensures |NatToString(total)| <= |ProgressLabel(current, total)|
    ensures ProgressLabel(current, total)[|ProgressLabel(current, total)| - |NatToString(total)|..] == NatToString(total)
  {
    var front := "Question " + NatToString(current + 1) + " of ";
    assert ProgressLabel(current, total) == front + NatToString(total);
  }

  /** The markup that replaces the quiz area once the last question is answered. */
  function FinishedHtml(score: nat, total: nat): string {
    "<h2>Quiz Finished</h2><p>Your score: " + NatToString(score) + "/" + NatToString(total) + "</p>"
  }

  /** The screen shows `item` as the question at index `current` of `total`, one button per choice. */
  ghost predicate ShowsQuestion(screen: Screen, item: QuizItem, current: nat, total: nat) {
    && screen.QuestionScreen?
    && screen.question == item.question
    && screen.progressLabel == ProgressLabel(current, total)
    && |screen.buttons| == |item.choices|
    && forall k :: 0 <= k < |item.choices| ==> screen.buttons[k] == ChoiceButton(item.choices[k], k)
  }

  class Player {
    var questions: seq<QuizItem>
    var currentQuestion: nat
    var score: nat
    /** The indices selected so far, one per answered question. */
    ghost var picks: seq<int>

    ghost predicate Valid()
      reads this
    {
      && currentQuestion <= |questions|
      && |picks| == currentQuestion
      && score == Score(questions, picks)
      && score <= currentQuestion
    }

    /** The state before the question file has arrived. */
    constructor ()
      ensures Valid()
      ensures questions == [] && currentQuestion == 0 && score == 0 && picks == []
    {
      questions := [];
      currentQuestion := 0;
      score := 0;
      picks := [];
    }

    /** The quiz has reached its terminal state: every question has been answered. */
    predicate Finished()
      reads this
    {
      currentQuestion == |questions|
    }

    /**
     * The callback of the question-file fetch. An empty file leaves no first
     * question to show, and the page fails with a TypeError.
     */
    method Load(data: seq<QuizItem>) returns (screen: Result<Screen>)
      requires Valid() && currentQuestion == 0
      modifies this
      ensures Valid()
      ensures questions == data && currentQuestion == 0 && score == 0 && picks == []
      ensures data == [] <==> screen.Failure?
      ensures data != [] ==> ShowsQuestion(screen.value, data[0], 0, |data|)
    {
      questions := data;
      picks := [];
      score := 0;
      if data == [] {
        screen := Failure("TypeError: Cannot read properties of undefined (reading 'question')");
        return;
      }
      var shown := LoadQuestion();
      screen := Success(shown);
    }

    /** Renders the current question: its text, a button per choice and the progress label. */
    method LoadQuestion() returns (screen: Screen)
      requires Valid() && currentQuestion < |questions|
      ensures ShowsQuestion(screen, questions[currentQuestion], currentQuestion, |questions|)
    {
      var q := questions[currentQuestion];
      var buttons: seq<ChoiceButton> := [];
      var index := 0;
      while index < |q.choices|
        invariant index <= |q.choices|
        invariant |buttons| == index
        invariant forall k :: 0 <= k < index ==> buttons[k] == ChoiceButton(q.choices[k], k)
      {
        buttons := buttons + [ChoiceButton(q.choices[index], index)];
        index := index + 1;
      }
      screen := QuestionScreen(q.question, buttons, ProgressLabel(currentQuestion, |questions|));
    }

    /**
     * The click handler of choice `index`: a point when it is the correct index,
     * then the next question, or the final score once the list is exhausted.
     */
    method SelectAnswer(index: int) returns (screen: Screen)
      requires Valid() && currentQuestion < |questions|
      modifies this
      ensures Valid()
      ensures questions == old(questions)
      ensures currentQuestion == old(currentQuestion) + 1
      ensures score == old(score) + (if index == old(questions[currentQuestion].answer) then 1 else 0)
      ensures picks == old(picks) + [index]
      ensures !Finished() ==> ShowsQuestion(screen, questions[currentQuestion], currentQuestion, |questions|)
      ensures Finished() ==> screen == FinishedScreen(FinishedHtml(score, |questions|))
    {
      if index == questions[currentQuestion].answer {
        score := score + 1;
      }
      assert picks + [index] == (picks + [index])[..currentQuestion] + [index];
      assert (picks + [index])[..currentQuestion] == picks;
      picks := picks + [index];
      currentQuestion := currentQuestion + 1;
      ScoreAtMostPicks(questions, picks);
      if currentQuestion < |questions| {
        screen := LoadQuestion();
      } else {
        screen := FinishedScreen(FinishedHtml(score, |questions|));
      }
    }
  }

  /**
   * Once the quiz is finished, the score is the number of questions answered
   * correctly; it is the question count when every pick was right and zero
   * when every pick was wrong.
   */
  lemma FinalScore(items: seq<QuizItem>, picks: seq<int>)
    requires |picks| == |items|
    ensures (forall k :: 0 <= k < |items| ==> picks[k] == items[k].answer) ==> Score(items, picks) == |items|
    ensures (forall k :: 0 <= k < |items| ==> picks[k] != items[k].answer) ==> Score(items, picks) == 0
  {
    if forall k :: 0 <= k < |items| ==> picks[k] == items[k].answer {
      ScoreAllCorrect(items, picks);
    }
    if forall k :: 0 <= k < |items| ==> picks[k] != items[k].answer {
      ScoreAllWrong(items, picks);
    }
  }
}
