/** The two decisions the playing and completed screens of App.tsx make from
    the session state: how each answer button looks once feedback is shown,
    and which medal the final score earns. */
module Render {
  import opened Types
  import opened SessionModel

  /** The four button styles of the option grid. */
  datatype OptionLook =
    | Neutral        // no feedback yet
    | Highlighted    // the correct option
    | SelectedWrong  // the option the player picked, if it was wrong
    | Dimmed         // any other option

  /** The two kinds of value the comparison `idx === feedback` can meet. */
  datatype JsValue = JsNumber(n: int) | JsObject(record: Feedback)

  /** JavaScript strict equality with a number on the left: it holds only for
      the same number, never for an object. */
  function StrictEqualsNumber(n: int, v: JsValue): (b: bool)
    ensures b <==> v == JsNumber(n)
  {
    match v
    case JsNumber(m) => n == m
    case JsObject(_) => false
  }

  /** The look of option `idx` of question `q` (App.tsx:184-192). The second
      test compares the index with the feedback record itself. */
  function LookOf(idx: int, q: Question, feedback: Option<Feedback>): (look: OptionLook)
    ensures feedback.None? ==> look == Neutral
    ensures feedback.Some? ==> (look == Highlighted <==> idx == q.correctAnswerIndex)
    ensures feedback.Some? && idx != q.correctAnswerIndex ==> look == Dimmed
    // the "selected but wrong" style is never produced
    ensures look != SelectedWrong
  {
    match feedback
    case None => Neutral
    case Some(fb) =>
      if idx == q.correctAnswerIndex then Highlighted
      else if StrictEqualsNumber(idx, JsObject(fb)) && !fb.isCorrect then SelectedWrong
      else Dimmed
  }

  /** After a wrong answer to a well-formed question, the grid highlights
      exactly the option the feedback text names and dims all others, the
      player's own choice included. */
  lemma WrongAnswerGrid(q: Question, chosen: int, idx: int)
    requires WellFormed(q) && chosen != q.correctAnswerIndex
    requires 0 <= idx < |q.options|
    ensures var fb := FeedbackFor(q, chosen);
      && !fb.isCorrect
      && fb.text == WrongPrefix + q.options[q.correctAnswerIndex]
      && (LookOf(idx, q, Some(fb)) == Highlighted <==> idx == q.correctAnswerIndex)
      && LookOf(chosen, q, Some(fb)) == Dimmed
  {
  }

  /** The end-of-game emoji: trophy, medal or seedling. */
  datatype Medal = Trophy | Badge | Seedling

  /** The medal for a final score (App.tsx:280). */
  function MedalFor(score: int): (m: Medal)
    ensures m == Trophy <==> score > 10
    ensures m == Badge <==> 5 < score <= 10
    ensures m == Seedling <==> score <= 5
  {
    if score > 10 then Trophy else if score > 5 then Badge else Seedling
  }

  function Rank(m: Medal): (k: nat) {
    match m
    case Seedling => 0
    case Badge => 1
    case Trophy => 2
  }

  /** A higher score never earns a lesser medal. */
  lemma MedalMonotone(a: int, b: int)
    requires a <= b
    ensures Rank(MedalFor(a)) <= Rank(MedalFor(b))
  {
  }

  /** A trophy is out of reach with fewer than 11 questions, since a session
      scores each question at most once. */
  lemma TrophyNeedsElevenQuestions(s: SessionState)
    requires Consistent(s) && MedalFor(s.score) == Trophy
    ensures |s.questions| >= 11
  {
    ScoreAtMostQuestions(s);
  }
}
