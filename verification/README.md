# Ethics Garden quiz session, modelled in Dafny

Ethics Garden is a browser quiz game. The player picks a flower seed, answers a
deck of multiple-choice questions on research ethics, and a garden grows one
flower per correct answer. This project models the game's session controller,
the `App` component in `App.tsx`, and the value types of `types.ts`:

- `types.dfy` (module `Types`): `Question`, `FlowerType`, `GameState` and
  `PlantedFlower`, a nullable `Option`, and the garden coordinate
  `Math.random() * 80 + 10`.
- `session_model.dfy` (module `SessionModel`): the session as a value
  (`SessionState`). It has one field per state hook, plus `pendingPlants`, the
  planting timers that were scheduled and have not fired yet. There is one
  transition function per event handler. The module also holds the invariant
  `Consistent`, which holds of every reachable state, and the accounting
  predicate `Balanced`: every point is a flower, planted or scheduled.
- `session_trace.dfy` (module `SessionTrace`): the events the page can deliver,
  when each can happen (`Enabled`: a click needs its button on screen and
  enabled), and `Run`, which applies a sequence of events. Lemmas cover all
  runs: every reachable state is consistent, a session that starts with no
  outstanding timer stays balanced until the next "play again", and firing all
  timers settles the garden.
- `render.dfy` (module `Render`): the two decisions the screens make, the look
  of each answer button after feedback and the end-of-game medal.
- `app.dfy` (module `App`): class `Session`, whose fields are the state hooks
  and whose methods update them in place. Each method is proved to perform the
  `SessionModel` transition of the same name and to keep `Valid()`. A client
  method plays a two-question session through the class.

Events are discrete steps. The question fetch is the `fetched` argument of
`FinishStart`. The 500 ms planting timer is an entry in `pendingPlants` that
`FirePlant` consumes, oldest first. The clock (`Date.now()`) and the two random
draws (`Math.random()`) are parameters of `Answer`.

Behaviour of the code worth knowing:

- `handleStartGame` accepts whatever the fetch returns, including an empty
  deck. The session then enters `Playing`, and the page can only show its
  error placeholder.
- The score and the garden do not always agree. The score rises when the
  answer is given, but the flower is appended only when its 500 ms timer fires.
  "Play again" and a new start zero the score and empty the garden without
  cancelling outstanding timers. A late timer can then plant a flower in a
  garden whose score is 0. Fired on the setup screen
  (`SessionTrace.StaleFlowerAfterPlayAgain`), the flower stays out of sight:
  that screen draws no garden, and the next deck's arrival empties it. Fired
  after the next deck has arrived (`SessionTrace.StaleFlowerAfterRestart`), it
  appears in the next session's garden, which the player sees. What does hold
  is `Balanced`: score equals planted plus scheduled flowers, from a start with
  no outstanding timer until the next "play again".
- `handleNextQuestion` does not check that feedback is shown. Only the page
  keeps its button hidden until then.
- The "selected but wrong" button style compares an option index with the
  feedback record itself, so it is never used (`Render.LookOf`).

## Model

| member | source | states |
|---|---|---|
| `Types.FlowerTypesAreFour` | types.ts:9 | there are exactly four flower types: rose, sunflower, tulip, daisy |
| `Types.GameStatesAreFour` | types.ts:19 | there are exactly four phases: setup, loading, playing, completed |
| `Types.Coordinate` | App.tsx:50-51 | a random draw in [0, 1) gives a coordinate in [10, 90) |
| `SessionModel.FeedbackFor` | App.tsx:36-41 | the feedback is correct iff the chosen index equals `correctAnswerIndex`; correct feedback has the fixed praise text; wrong feedback starts with the fixed prefix, followed by `options[correctAnswerIndex]` whenever that index lies inside the options (any number of options), and by "undefined" when it is outside them |
| `SessionModel.InitialIsConsistent` | App.tsx:8-16 | the initial hook values satisfy the invariant, and score 0 matches an empty garden |
| `SessionModel.ScoreAtMostQuestions` | App.tsx:32-69 | in any consistent state the score is at most the number of questions: each question scores at most once |
| `SessionModel.SelectFlower` | App.tsx:92 | picking a seed changes only the selected flower, and keeps the invariant and the flower accounting |
| `SessionModel.BeginStart` | App.tsx:19-20 | starting shows the loading phase with `isLoading` set and changes nothing else |
| `SessionModel.FinishStart` | App.tsx:22-29 | once the fetch resolves: playing, the fetched questions, index 0, score 0, empty garden, loading flag off; seed, feedback and outstanding timers untouched; balanced iff no timer is outstanding |
| `SessionModel.NewFlower` | App.tsx:47-52 | the scheduled flower has the selected type, the clock reading as id and a position inside the garden margins |
| `SessionModel.Answer` | App.tsx:32-58 | with feedback shown nothing changes; otherwise feedback is set. A correct answer raises the score by exactly 1, sets `isPlanting` and schedules exactly one flower, `NewFlower` of the selected type, clock and draws, after the earlier ones. A wrong answer changes neither score nor flowers. Phase, index and deck are kept; the accounting and the invariant are preserved |
| `SessionModel.FirePlant` | App.tsx:54-56 | a firing appends the oldest scheduled flower at the end of the garden, leaves the earlier flowers and all other fields unchanged, and keeps the accounting |
| `SessionModel.NextQuestion` | App.tsx:60-69 | feedback and `isPlanting` are always cleared; the index rises by one iff it is below the last index, otherwise the phase becomes completed; score, flowers and timers are unchanged; the invariant is kept |
| `SessionModel.PlayAgain` | App.tsx:293-299 | back to setup with score 0, empty garden, index 0 and no feedback; seed, deck and outstanding timers are kept, so the session is balanced iff no timer is outstanding |
| `SessionTrace.StepKeepsConsistent` | App.tsx:18-69 | every event the page can deliver keeps the invariant |
| `SessionTrace.RunKeepsConsistent` | App.tsx:18-69 | any sequence of events keeps the invariant |
| `SessionTrace.Reachable` | App.tsx:60-69 | from the initial state, for any events: while playing a non-empty deck the index is on a question, a completed session sits on its last question, and the score never exceeds the number of questions |
| `SessionTrace.RunWithinSessionKeepsBalanced` | App.tsx:43-56 | from a balanced state (for instance a start with no outstanding timer), any events other than a new deck and "play again" keep the score equal to planted plus scheduled flowers; a state that is not balanced may stay unbalanced |
| `SessionTrace.FiringAllTimers` | App.tsx:54-56 | after all outstanding timers fire, the garden is the old garden followed by the scheduled flowers in order, and a balanced session has exactly one flower per point |
| `SessionTrace.CompletedIsFinal` | App.tsx:292-299 | on the results screen only "play again" and timers change the state |
| `SessionTrace.RestartKeepsOldTimer` | App.tsx:18-30 | from a completed session with one outstanding timer, "play again", a new start and any deck leave that timer's flower in the new, score-0 garden |
| `SessionTrace.StaleFlowerAfterRestart` | App.tsx:54-56 | a concrete run in which a timer from the previous session fires in the next session's playing screen: score 0, one flower, not balanced |
| `SessionTrace.StaleFlowerAfterPlayAgain` | App.tsx:293-299 | a timer outstanding at "play again" later plants a flower into the state while the score is 0, so the state is no longer balanced; the setup screen draws no garden and the next deck empties it, so the player sees such a flower only in the restart case (`StaleFlowerAfterRestart`) |
| `Render.LookOf` | App.tsx:184-192 | without feedback every option is neutral; with feedback the option at `correctAnswerIndex` is highlighted and every other is dimmed; the "selected but wrong" style never occurs |
| `Render.WrongAnswerGrid` | App.tsx:40 | after a wrong answer the grid highlights exactly the option the feedback text names and dims the player's own choice |
| `Render.MedalFor` | App.tsx:280 | trophy iff score > 10, badge iff 5 < score <= 10, seedling iff score <= 5 |
| `Render.MedalMonotone` | App.tsx:280 | a higher score never earns a lesser medal |
| `Render.TrophyNeedsElevenQuestions` | App.tsx:280 | in a consistent state a trophy implies a deck of at least 11 questions |
| `App.Session.constructor` | App.tsx:8-16 | the fields start at the hooks' initial values, which satisfy the invariant |
| `App.Session.SelectFlower` | App.tsx:92 | performs `SessionModel.SelectFlower` in place and keeps `Valid()` |
| `App.Session.BeginStart` | App.tsx:18-20 | performs `SessionModel.BeginStart` in place and keeps `Valid()` |
| `App.Session.FinishStart` | App.tsx:22-29 | performs `SessionModel.FinishStart` in place and keeps `Valid()` |
| `App.Session.Answer` | App.tsx:32-58 | performs `SessionModel.Answer` in place and keeps `Valid()` |
| `App.Session.FirePlant` | App.tsx:54-56 | performs `SessionModel.FirePlant` in place and keeps `Valid()` |
| `App.Session.NextQuestion` | App.tsx:60-69 | performs `SessionModel.NextQuestion` in place and keeps `Valid()` |
| `App.Session.PlayAgain` | App.tsx:293-299 | performs `SessionModel.PlayAgain` in place and keeps `Valid()` |
| `App.TwoQuestionSession` | App.tsx:18-69 | a right then a wrong answer on a two-question deck completes with score 1 and one flower, the wrong feedback names option 0, and "play again" returns to setup with the seed kept |

The `requires` of the handlers state where the page offers their trigger. The
seed and start buttons appear only on the setup screen (App.tsx:73-132). The
option and next buttons appear only while playing, with a current question
(App.tsx:144-146). "Play again" appears only on the results screen
(App.tsx:292-299). `Answer` additionally needs the current question to exist
whenever no feedback is shown, because the handler reads it before anything
else.

## Left out

- All markup, CSS classes and animation of App.tsx and components/Garden.tsx,
  including the depth layout of the garden and the `FLOWERS` lookup. They are
  presentation, and `constants.ts` is not part of this model.
- The next button's label (App.tsx:250) and the letter-badge colour
  (App.tsx:208): these are presentation, not part of the two modelled screen
  decisions.
- `FlowerConfig` (types.ts:11-17): it describes the entries of `FLOWERS`, which
  live in `constants.ts`.
- services/geminiService.ts: the network client, its environment-variable check,
  JSON parsing and fallback deck. Its result is the arbitrary `fetched` argument
  of `FinishStart`, possibly empty. The id renumbering it performs is not modelled.
- The `async`/`await` suspension and the timer mechanism: they are modelled as
  the discrete steps `BeginStart`/`FinishStart` and `FirePlant`. A timer may fire
  between any two steps, including during loading.
- React's batching of state updates: each handler is one atomic step on the
  latest state. A handler reading a stale closure is not modelled. The page
  delivers each click only after the previous one has re-rendered.
- Floating point: coordinates are exact reals computed from the draws.
- Flower ids: `Date.now()` is a parameter, and the model does not claim ids are unique.
- `isLoading` is set and cleared as in the source. Nothing in the core reads it.
