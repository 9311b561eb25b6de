/** Runs of the session controller: the events the page can deliver, when
    it can deliver them, and what any sequence of them does. */
module SessionTrace {
  import opened Types
  import opened SessionModel

  /** One thing that can happen to the page. An option click carries what the
      handler reads from the environment: the clock and two random draws. */
  datatype Event =
    | FlowerClicked(flower: FlowerType)
    | StartClicked
    | QuestionsArrived(fetched: seq<Question>)
    | OptionClicked(optionIndex: int, now: int, rx: real, ry: real)
    | NextClicked
    | PlayAgainClicked
    | TimerFired

  /** Whether the event can happen in state `s`: a click needs its button on
      screen and enabled; the fetch resolves only while loading; a timer fires
      only when one is outstanding; random draws lie in [0, 1). */
  predicate Enabled(s: SessionState, e: Event) {
    match e
    case FlowerClicked(_) => s.phase == Setup
    case StartClicked => s.phase == Setup
    case QuestionsArrived(_) => s.phase == Loading
    case OptionClicked(i, _, rx, ry) =>
      && s.phase == Playing && s.currentQuestionIndex < |s.questions|
      && 0 <= i < |CurrentQuestion(s).options|
      && s.feedback.None?
      && 0.0 <= rx < 1.0 && 0.0 <= ry < 1.0
    case NextClicked =>
      s.phase == Playing && s.currentQuestionIndex < |s.questions| && s.feedback.Some?
    case PlayAgainClicked => s.phase == Completed
    case TimerFired => s.pendingPlants != []
  }

  /** The handler an enabled event runs; an event that cannot happen leaves
      the state alone. */
  function Step(s: SessionState, e: Event): (r: SessionState)
    ensures !Enabled(s, e) ==> r == s
  {
    if !Enabled(s, e) then s
    else match e
      case FlowerClicked(f) => SelectFlower(s, f)
      case StartClicked => BeginStart(s)
      case QuestionsArrived(qs) => FinishStart(s, qs)
      case OptionClicked(i, now, rx, ry) => Answer(s, i, now, rx, ry)
      case NextClicked => NextQuestion(s)
      case PlayAgainClicked => PlayAgain(s)
      case TimerFired => FirePlant(s)
  }

  function Run(s: SessionState, events: seq<Event>): (t: SessionState)
    decreases |events|
  {
    if events == [] then s else Run(Step(s, events[0]), events[1..])
  }

  lemma StepKeepsConsistent(s: SessionState, e: Event)
    requires Consistent(s)
    ensures Consistent(Step(s, e))
  {
  }

  /** Every state reachable from a consistent one is consistent. */
  lemma {:induction false} RunKeepsConsistent(s: SessionState, events: seq<Event>)
    requires Consistent(s)
    ensures Consistent(Run(s, events))
    decreases |events|
  {
    if events != [] {
      StepKeepsConsistent(s, events[0]);
      RunKeepsConsistent(Step(s, events[0]), events[1..]);
    }
  }

  /** Whatever the user does, the index stays on a question while playing, a
      completed session sits on its last question and the score never exceeds
      the number of questions. */
  lemma {:induction false} Reachable(events: seq<Event>)
    ensures var s := Run(Initial, events);
      && Consistent(s)
      && (s.phase == Playing && s.questions != [] ==> s.currentQuestionIndex < |s.questions|)
      && (s.phase == Completed ==> s.currentQuestionIndex == |s.questions| - 1)
      && s.score <= |s.questions|
  {
    InitialIsConsistent();
    RunKeepsConsistent(Initial, events);
    ScoreAtMostQuestions(Run(Initial, events));
  }

  /** Events that stay inside one session: neither the arrival of a new deck
      nor "play again", the two that zero the score. */
  predicate WithinSession(e: Event) {
    !e.QuestionsArrived? && !e.PlayAgainClicked?
  }

  /** Within a session every point is a flower, planted or scheduled. */
  lemma {:induction false} RunWithinSessionKeepsBalanced(s: SessionState, events: seq<Event>)
    requires Balanced(s)
    requires forall i :: 0 <= i < |events| ==> WithinSession(events[i])
    ensures Balanced(Run(s, events))
    decreases |events|
  {
    if events != [] {
      assert WithinSession(events[0]);
      RunWithinSessionKeepsBalanced(Step(s, events[0]), events[1..]);
    }
  }

  /** `n` timer firings in a row. */
  function Firings(n: nat): (evs: seq<Event>)
    ensures |evs| == n && forall i :: 0 <= i < n ==> evs[i] == TimerFired
  {
    seq(n, _ => TimerFired)
  }

  /** Once every outstanding timer has fired, the garden holds the scheduled
      flowers after the planted ones, in scheduling order, and a balanced
      session has exactly one flower per point. */
  lemma {:induction false} FiringAllTimers(s: SessionState)
    ensures var t := Run(s, Firings(|s.pendingPlants|));
      && t.pendingPlants == []
      && t.plantedFlowers == s.plantedFlowers + s.pendingPlants
      && t.score == s.score
      && (Balanced(s) ==> t.score == |t.plantedFlowers|)
    decreases |s.pendingPlants|
  {
    var evs := Firings(|s.pendingPlants|);
    if evs != [] {
      var s' := FirePlant(s);
      assert Step(s, evs[0]) == s';
      assert evs[1..] == Firings(|s'.pendingPlants|);
      FiringAllTimers(s');
      assert s'.plantedFlowers + s'.pendingPlants == s.plantedFlowers + s.pendingPlants;
    }
  }

  /** Once completed, only "play again" and the timers change anything. */
  lemma CompletedIsFinal(s: SessionState, e: Event)
    requires s.phase == Completed && !e.PlayAgainClicked? && !e.TimerFired?
    ensures Step(s, e) == s
  {
  }

  /** "Play again" does not cancel outstanding timers: answer the only
      question correctly, move on and press "play again" before the 500 ms
      have passed, and the late timer plants a flower in a garden whose score
      is 0. */
  lemma StaleFlowerAfterPlayAgain()
    ensures var q := Question(1, "q", ["a", "b"], 0, "e");
      var s := Run(Initial, [StartClicked, QuestionsArrived([q]), OptionClicked(0, 1, 0.5, 0.5),
                             NextClicked, PlayAgainClicked, TimerFired]);
      && s.phase == Setup && s.score == 0 && |s.plantedFlowers| == 1 && !Balanced(s)
  {
    var q := Question(1, "q", ["a", "b"], 0, "e");
    var s1 := Step(Initial, StartClicked);
    var s2 := Step(s1, QuestionsArrived([q]));
    var s3 := Step(s2, OptionClicked(0, 1, 0.5, 0.5));
    assert s3.score == 1 && |s3.pendingPlants| == 1;
    var s4 := Step(s3, NextClicked);
    assert s4.phase == Completed;
    var s5 := Step(s4, PlayAgainClicked);
    var s6 := Step(s5, TimerFired);
    assert s6.score == 0 && |s6.plantedFlowers| == 1;
    calc {
      Run(Initial, [StartClicked, QuestionsArrived([q]), OptionClicked(0, 1, 0.5, 0.5),
                    NextClicked, PlayAgainClicked, TimerFired]);
      Run(s1, [QuestionsArrived([q]), OptionClicked(0, 1, 0.5, 0.5), NextClicked, PlayAgainClicked, TimerFired]);
      Run(s2, [OptionClicked(0, 1, 0.5, 0.5), NextClicked, PlayAgainClicked, TimerFired]);
      Run(s3, [NextClicked, PlayAgainClicked, TimerFired]);
      Run(s4, [PlayAgainClicked, TimerFired]);
      Run(s5, [TimerFired]);
      Run(s6, []);
    }
  }

  /** Running two sequences one after the other is running their
      concatenation. */
  lemma {:induction false} RunConcat(s: SessionState, a: seq<Event>, b: seq<Event>)
    ensures Run(s, a + b) == Run(Run(s, a), b)
    decreases |a|
  {
    if a == [] {
      assert a + b == b;
    } else {
      assert (a + b)[0] == a[0] && (a + b)[1..] == a[1..] + b;
      RunConcat(Step(s, a[0]), a[1..], b);
    }
  }

  /** From a completed session whose last timer is still outstanding,
      "play again", a new start and the arrival of any deck put the old
      timer's flower into the new session's garden, whose score is 0. */
  lemma RestartKeepsOldTimer(s: SessionState, deck: seq<Question>)
    requires s.phase == Completed && |s.pendingPlants| == 1
    ensures var t := Run(s, [PlayAgainClicked, StartClicked, QuestionsArrived(deck), TimerFired]);
      && t.phase == Playing && t.questions == deck && t.score == 0
      && t.plantedFlowers == s.pendingPlants && !Balanced(t)
  {
    var evs := [PlayAgainClicked, StartClicked, QuestionsArrived(deck), TimerFired];
    var s1 := Step(s, PlayAgainClicked);
    var s2 := Step(s1, StartClicked);
    var s3 := Step(s2, QuestionsArrived(deck));
    var s4 := Step(s3, TimerFired);
    assert s3.phase == Playing && s3.score == 0 && s3.plantedFlowers == [] && s3.pendingPlants == s.pendingPlants;
    calc {
      Run(s, evs);
      Run(s1, evs[1..]);
      Run(s2, evs[2..]);
      Run(s3, evs[3..]);
      Run(s4, []);
    }
  }

  /** A new start does not cancel outstanding timers either: with the timer
      of the previous session still outstanding, the next deck arrives and
      the late flower appears in the new session's garden, whose score is 0. */
  lemma StaleFlowerAfterRestart()
    ensures var q := Question(1, "q", ["a", "b"], 0, "e");
      var s := Run(Initial, [StartClicked, QuestionsArrived([q]), OptionClicked(0, 1, 0.5, 0.5),
                             NextClicked, PlayAgainClicked, StartClicked, QuestionsArrived([q]),
                             TimerFired]);
      && s.phase == Playing && s.score == 0 && |s.plantedFlowers| == 1 && !Balanced(s)
  {
    var q := Question(1, "q", ["a", "b"], 0, "e");
    var first := [StartClicked, QuestionsArrived([q]), OptionClicked(0, 1, 0.5, 0.5), NextClicked];
    var second := [PlayAgainClicked, StartClicked, QuestionsArrived([q]), TimerFired];
    assert first + second == [StartClicked, QuestionsArrived([q]), OptionClicked(0, 1, 0.5, 0.5),
                              NextClicked, PlayAgainClicked, StartClicked, QuestionsArrived([q]),
                              TimerFired];
    RunConcat(Initial, first, second);
    var s1 := Step(Initial, StartClicked);
    var s2 := Step(s1, QuestionsArrived([q]));
    var s3 := Step(s2, OptionClicked(0, 1, 0.5, 0.5));
    var s4 := Step(s3, NextClicked);
    assert s4.phase == Completed && |s4.pendingPlants| == 1;
    calc {
      Run(Initial, first);
      Run(s1, first[1..]);
      Run(s2, first[2..]);
      Run(s3, first[3..]);
      Run(s4, []);
    }
    RestartKeepsOldTimer(s4, [q]);
  }
}
