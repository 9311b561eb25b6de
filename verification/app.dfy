/** The App component of App.tsx: its state hooks as the fields of a
    `Session` object and its event handlers as methods that update them in
    place. Each method is specified by the transition of the same name in
    `SessionModel`, whose properties are proved there. */
module App {
  import opened Types
  import opened SessionModel

  class Session {
    var gameState: GameState
    var selectedFlower: FlowerType
    var questions: seq<Question>
    var currentQuestionIndex: nat
    var plantedFlowers: seq<PlantedFlower>
    var score: nat
    var isPlanting: bool
    var feedback: Option<Feedback>
    var isLoading: bool
    /** flowers whose 500 ms planting timer is still outstanding, oldest first */
    var pendingPlants: seq<PlantedFlower>

    /** The fields as one value. */
    ghost function State(): SessionState
      reads this
    {
      SessionState(gameState, selectedFlower, questions, currentQuestionIndex, plantedFlowers,
                   score, isPlanting, feedback, isLoading, pendingPlants)
    }

    ghost predicate Valid()
      reads this
    {
      Consistent(State())
    }

    /** The initial values of the state hooks (App.tsx:8-16). */
    constructor ()
      ensures Valid() && State() == Initial
    {
      gameState := Setup;
      selectedFlower := Sunflower;
      questions := [];
      currentQuestionIndex := 0;
      plantedFlowers := [];
      score := 0;
      isPlanting := false;
      feedback := None;
      isLoading := false;
      pendingPlants := [];
    }

    /** A seed button on the setup screen. */
    method SelectFlower(f: FlowerType)
      requires Valid()
      modifies this
      ensures Valid() && State() == SessionModel.SelectFlower(old(State()), f)
    {
      selectedFlower := f;
    }

    /** The start button, up to the `await` of the question fetch. */
    method BeginStart()
      requires Valid() && gameState == Setup
      modifies this
      ensures Valid() && State() == SessionModel.BeginStart(old(State()))
    {
      isLoading := true;
      gameState := Loading;
    }

    /** The rest of the start handler, once the fetch has produced `fetched`. */
    method FinishStart(fetched: seq<Question>)
      requires Valid() && gameState == Loading
      modifies this
      ensures Valid() && State() == SessionModel.FinishStart(old(State()), fetched)
    {
      questions := fetched;
      score := 0;
      plantedFlowers := [];
      currentQuestionIndex := 0;
      isLoading := false;
      gameState := Playing;
    }

    /** An option button; `now` is the clock, `rx` and `ry` the two random
        draws the handler makes. */
    method Answer(optionIndex: int, now: int, rx: real, ry: real)
      requires Valid() && gameState == Playing
      requires feedback.Some? || currentQuestionIndex < |questions|
      requires 0.0 <= rx < 1.0 && 0.0 <= ry < 1.0
      modifies this
      ensures Valid() && State() == SessionModel.Answer(old(State()), optionIndex, now, rx, ry)
    {
      if feedback.Some? {
        return;
      }
      var currentQuestion := questions[currentQuestionIndex];
      var isCorrect := optionIndex == currentQuestion.correctAnswerIndex;
      feedback := Some(FeedbackFor(currentQuestion, optionIndex));
      if isCorrect {
        isPlanting := true;
        score := score + 1;
        var newFlower := PlantedFlower(now, selectedFlower, Coordinate(rx), Coordinate(ry));
        pendingPlants := pendingPlants + [newFlower];
      }
    }

    /** The oldest outstanding planting timer fires. */
    method FirePlant()
      requires Valid() && pendingPlants != []
      modifies this
      ensures Valid() && State() == SessionModel.FirePlant(old(State()))
    {
      plantedFlowers := plantedFlowers + [pendingPlants[0]];
      pendingPlants := pendingPlants[1..];
    }

    /** The "next question" / "show results" button. */
    method NextQuestion()
      requires Valid() && gameState == Playing && currentQuestionIndex < |questions|
      modifies this
      ensures Valid() && State() == SessionModel.NextQuestion(old(State()))
    {
      isPlanting := false;
      feedback := None;
      if currentQuestionIndex < |questions| - 1 {
        currentQuestionIndex := currentQuestionIndex + 1;
      } else {
        gameState := Completed;
      }
    }

    /** The "play again" button on the results screen. */
    method PlayAgain()
      requires Valid() && gameState == Completed
      modifies this
      ensures Valid() && State() == SessionModel.PlayAgain(old(State()))
    {
      gameState := Setup;
      score := 0;
      plantedFlowers := [];
      currentQuestionIndex := 0;
      feedback := None;
    }
  }

  /** Two questions whose answers are options 1 and 0: a right answer, then a
      wrong one, ends a completed session with one point, one flower and
      feedback naming option 0; "play again" then returns to the setup screen
      with the chosen seed kept. */
  method TwoQuestionSession(a: string, b: string, c: string, d: string)
    returns (finalScore: nat, flowers: nat, wrongText: string, phaseAfterReplay: GameState, seedAfterReplay: FlowerType)
    ensures finalScore == 1 && flowers == 1
    ensures wrongText == WrongPrefix + a
    ensures phaseAfterReplay == Setup && seedAfterReplay == Tulip
  {
    var q1 := Question(1, "first", [a, b, c, d], 1, "");
    var q2 := Question(2, "second", [a, b, c, d], 0, "");
    var session := new Session();
    session.SelectFlower(Tulip);
    session.BeginStart();
    session.FinishStart([q1, q2]);
    session.Answer(1, 1000, 0.25, 0.75);
    assert session.score == 1 && session.feedback.value.isCorrect;
    session.FirePlant();
    assert |session.plantedFlowers| == 1 && session.plantedFlowers[0].flowerType == Tulip;
    session.NextQuestion();
    assert session.currentQuestionIndex == 1;
    session.Answer(2, 2000, 0.5, 0.5);
    assert session.score == 1 && !session.feedback.value.isCorrect;
    wrongText := session.feedback.value.text;
    assert wrongText[|WrongPrefix|..] == a;
    assert wrongText == WrongPrefix + wrongText[|WrongPrefix|..];
    session.NextQuestion();
    assert session.gameState == Completed;
    finalScore, flowers := session.score, |session.plantedFlowers|;
    session.PlayAgain();
    assert session.score == 0 && session.plantedFlowers == [] && session.currentQuestionIndex == 0;
    phaseAfterReplay, seedAfterReplay := session.gameState, session.selectedFlower;
  }
}
