/** The quiz session controller of App.tsx as a value: one field per state
    hook, plus the queue of planting timers that have been scheduled and have
    not fired yet, and one transition function per event handler. The class
    `App.Session` runs these transitions in place. */
module SessionModel {
  import opened Types

  /** The feedback record shown after an answer. */
  datatype Feedback = Feedback(isCorrect: bool, text: string)

  datatype SessionState = SessionState(
    phase: GameState,
    selectedFlower: FlowerType,
    questions: seq<Question>,
    currentQuestionIndex: nat,
    plantedFlowers: seq<PlantedFlower>,
    score: nat,
    isPlanting: bool,
    feedback: Option<Feedback>,
    isLoading: bool,
    /** flowers whose 500 ms planting timer is still outstanding, oldest first */
    pendingPlants: seq<PlantedFlower>)

  /** The initial values of the state hooks; no timer is outstanding. */
  const Initial := SessionState(Setup, Sunflower, [], 0, [], 0, false, None, false, [])

  const CorrectText: string := "ถูกต้องครับ! ต้นไม้ของคุณกำลังเติบโต!"
  const WrongPrefix: string := "ยังไม่ใช่นะครับ! คำตอบที่ถูกคือ: "

  /** What a template literal prints for `options[i]`: the option itself, or
      "undefined" when `i` is outside the array. */
  function OptionText(options: seq<string>, i: int): (t: string)
    ensures 0 <= i < |options| ==> t == options[i]
    ensures !(0 <= i < |options|) ==> t == "undefined"
  {
    if 0 <= i < |options| then options[i] else "undefined"
  }

  /** The feedback record for answering `q` with option `optionIndex`. */
  function FeedbackFor(q: Question, optionIndex: int): (fb: Feedback)
    ensures fb.isCorrect <==> optionIndex == q.correctAnswerIndex
    ensures fb.isCorrect ==> fb.text == CorrectText
    ensures !fb.isCorrect ==> WrongPrefix <= fb.text
    ensures !fb.isCorrect && 0 <= q.correctAnswerIndex < |q.options| ==>
              fb.text == WrongPrefix + q.options[q.correctAnswerIndex]
    ensures !fb.isCorrect && !(0 <= q.correctAnswerIndex < |q.options|) ==>
              fb.text == WrongPrefix + "undefined"
  {
    var isCorrect := optionIndex == q.correctAnswerIndex;
    Feedback(isCorrect,
      if isCorrect then CorrectText
      else WrongPrefix + OptionText(q.options, q.correctAnswerIndex))
  }

  /** Every point score has been paid out as a flower, planted or still
      scheduled. */
  predicate Balanced(s: SessionState) {
    s.score == |s.plantedFlowers| + |s.pendingPlants|
  }

  /** What holds of every state the user interface can reach. */
  predicate Consistent(s: SessionState) {
    // before a session: nothing answered yet
    (s.phase == Setup || s.phase == Loading ==> s.currentQuestionIndex == 0 && s.score == 0)
    // while playing the index points at a question (or is 0 for an empty deck)
    && (s.phase == Playing ==>
          s.currentQuestionIndex < |s.questions| || (s.questions == [] && s.currentQuestionIndex == 0))
    // a session is completed only after the last question
    && (s.phase == Completed ==> |s.questions| > 0 && s.currentQuestionIndex == |s.questions| - 1)
    // each question scores at most once
    && (s.phase == Playing ==>
          s.score <= s.currentQuestionIndex + (if s.feedback.Some? then 1 else 0))
    && (s.phase == Completed ==> s.score <= |s.questions|)
    // feedback belongs to the question on screen
    && (s.feedback.Some? ==> s.phase == Playing && s.currentQuestionIndex < |s.questions|)
    && (s.isPlanting ==> s.feedback.Some? && s.feedback.value.isCorrect)
    && (s.isLoading <==> s.phase == Loading)
    && (forall f :: f in s.plantedFlowers ==> InGarden(f))
    && (forall f :: f in s.pendingPlants ==> InGarden(f))
  }

  lemma InitialIsConsistent()
    ensures Consistent(Initial) && Balanced(Initial)
  {
  }

  /** No session ever scores more points than it has questions. */
  lemma ScoreAtMostQuestions(s: SessionState)
    requires Consistent(s)
    ensures s.score <= |s.questions|
  {
  }

  // ----- flower selection (App.tsx:92) -----

  function SelectFlower(s: SessionState, f: FlowerType): (r: SessionState)
    ensures r.selectedFlower == f
    ensures r.(selectedFlower := s.selectedFlower) == s
    ensures Consistent(s) ==> Consistent(r)
    ensures Balanced(r) <==> Balanced(s)
  {
    s.(selectedFlower := f)
  }

  // ----- handleStartGame (App.tsx:18-30), split at its await -----

  /** The part before `await`: the loading screen. */
  function BeginStart(s: SessionState): (r: SessionState)
    ensures r.phase == Loading && r.isLoading
    ensures r.(phase := s.phase, isLoading := s.isLoading) == s
    ensures Consistent(s) && s.phase == Setup ==> Consistent(r)
  {
    s.(isLoading := true, phase := Loading)
  }

  /** The part after `await`, given the fetched questions (not necessarily
      non-empty). Outstanding planting timers are not cancelled. */
  function FinishStart(s: SessionState, fetched: seq<Question>): (r: SessionState)
    ensures r.phase == Playing && !r.isLoading
    ensures r.questions == fetched && r.currentQuestionIndex == 0
    ensures r.score == 0 && r.plantedFlowers == []
    ensures r.selectedFlower == s.selectedFlower && r.feedback == s.feedback
    ensures r.isPlanting == s.isPlanting && r.pendingPlants == s.pendingPlants
    ensures Balanced(r) <==> s.pendingPlants == []
    ensures Consistent(s) && s.phase == Loading ==> Consistent(r)
  {
    s.(questions := fetched, score := 0, plantedFlowers := [], currentQuestionIndex := 0,
       isLoading := false, phase := Playing)
  }

  // ----- handleAnswer (App.tsx:32-58) -----

  /** The question on screen. */
  function CurrentQuestion(s: SessionState): (q: Question)
    requires s.currentQuestionIndex < |s.questions|
  {
    s.questions[s.currentQuestionIndex]
  }

  /** The flower a correct answer schedules: its id is the clock reading
      `now`, its coordinates come from the random draws `rx` and `ry`. */
  function NewFlower(s: SessionState, now: int, rx: real, ry: real): (f: PlantedFlower)
    requires 0.0 <= rx < 1.0 && 0.0 <= ry < 1.0
    ensures f.flowerType == s.selectedFlower && f.id == now && InGarden(f)
  {
    PlantedFlower(now, s.selectedFlower, Coordinate(rx), Coordinate(ry))
  }

  /** Answering with option `optionIndex`. The source reads the current
      question only when no feedback is shown, so that is all it needs. */
  function Answer(s: SessionState, optionIndex: int, now: int, rx: real, ry: real): (r: SessionState)
    requires s.feedback.Some? || s.currentQuestionIndex < |s.questions|
    requires 0.0 <= rx < 1.0 && 0.0 <= ry < 1.0
    // a second answer to the same question changes nothing
    ensures s.feedback.Some? ==> r == s
    ensures s.feedback.None? ==>
      var q := CurrentQuestion(s);
      && r.feedback == Some(FeedbackFor(q, optionIndex))
      && r.phase == s.phase && r.questions == s.questions
      && r.currentQuestionIndex == s.currentQuestionIndex
      && r.selectedFlower == s.selectedFlower && r.isLoading == s.isLoading
      && r.plantedFlowers == s.plantedFlowers
      && (optionIndex == q.correctAnswerIndex ==>
            && r.score == s.score + 1 && r.isPlanting
            && |r.pendingPlants| == |s.pendingPlants| + 1
            && r.pendingPlants[..|s.pendingPlants|] == s.pendingPlants
            && r.pendingPlants[|s.pendingPlants|] == NewFlower(s, now, rx, ry)
            && r.pendingPlants[|s.pendingPlants|].flowerType == s.selectedFlower)
      && (optionIndex != q.correctAnswerIndex ==>
            r.score == s.score && r.isPlanting == s.isPlanting && r.pendingPlants == s.pendingPlants)
    ensures Balanced(s) ==> Balanced(r)
    ensures Consistent(s) && s.phase == Playing ==> Consistent(r)
  {
    if s.feedback.Some? then s
    else
      var q := CurrentQuestion(s);
      var fb := FeedbackFor(q, optionIndex);
      var r := s.(feedback := Some(fb));
      if fb.isCorrect then
        r.(isPlanting := true, score := s.score + 1,
           pendingPlants := s.pendingPlants + [NewFlower(s, now, rx, ry)])
      else r
  }

  // ----- the planting timer (App.tsx:54-56) -----

  /** The oldest outstanding timer fires: its flower is appended to the
      garden. */
  function FirePlant(s: SessionState): (r: SessionState)
    requires s.pendingPlants != []
    ensures |r.plantedFlowers| == |s.plantedFlowers| + 1
    ensures r.plantedFlowers[..|s.plantedFlowers|] == s.plantedFlowers
    ensures r.plantedFlowers[|s.plantedFlowers|] == s.pendingPlants[0]
    ensures r.pendingPlants == s.pendingPlants[1..]
    ensures r.(plantedFlowers := s.plantedFlowers, pendingPlants := s.pendingPlants) == s
    ensures Balanced(r) <==> Balanced(s)
    ensures Consistent(s) ==> Consistent(r)
  {
    s.(plantedFlowers := s.plantedFlowers + [s.pendingPlants[0]],
       pendingPlants := s.pendingPlants[1..])
  }

  // ----- handleNextQuestion (App.tsx:60-69) -----

  function NextQuestion(s: SessionState): (r: SessionState)
    ensures r.feedback.None? && !r.isPlanting
    ensures s.currentQuestionIndex < |s.questions| - 1 ==>
              r.currentQuestionIndex == s.currentQuestionIndex + 1 && r.phase == s.phase
    ensures !(s.currentQuestionIndex < |s.questions| - 1) ==>
              r.currentQuestionIndex == s.currentQuestionIndex && r.phase == Completed
    ensures r.score == s.score && r.plantedFlowers == s.plantedFlowers
    ensures r.pendingPlants == s.pendingPlants && r.questions == s.questions
    ensures r.selectedFlower == s.selectedFlower && r.isLoading == s.isLoading
    ensures Balanced(r) <==> Balanced(s)
    ensures Consistent(s) && s.phase == Playing && s.currentQuestionIndex < |s.questions| ==> Consistent(r)
  {
    var r := s.(isPlanting := false, feedback := None);
    if s.currentQuestionIndex < |s.questions| - 1 then
      r.(currentQuestionIndex := s.currentQuestionIndex + 1)
    else
      r.(phase := Completed)
  }

  // ----- "play again" (App.tsx:293-299) -----

  /** Outstanding planting timers are not cancelled, so the session is
      balanced afterwards exactly when none is outstanding. */
  function PlayAgain(s: SessionState): (r: SessionState)
    ensures r.phase == Setup && r.score == 0 && r.plantedFlowers == []
    ensures r.currentQuestionIndex == 0 && r.feedback.None?
    ensures r.selectedFlower == s.selectedFlower && r.questions == s.questions
    ensures r.pendingPlants == s.pendingPlants && r.isPlanting == s.isPlanting
    ensures r.isLoading == s.isLoading
    ensures Balanced(r) <==> s.pendingPlants == []
    ensures Consistent(s) && s.phase == Completed ==> Consistent(r)
  {
    s.(phase := Setup, score := 0, plantedFlowers := [], currentQuestionIndex := 0, feedback := None)
  }
}
