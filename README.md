# Quiz attempt engine

A Dafny model of the attempt engine of the quiz page (`assets/js/quiz.js`).
The page keeps one mutable object, `quizState`. Its handlers drive that
object through a small state machine:

- `initQuiz` fills in who is playing;
- a difficulty button picks the level;
- `startQuizHandler` checks the difficulty and the guest nickname, loads the
  questions and resets the counters;
- `displayQuestion` ends the quiz when no question or no heart is left, and
  otherwise shows the next question, with a 30-second countdown on the expert
  level;
- `handleAnswer` judges a press or a timeout, sends one attempt record,
  takes a heart or adds a point, and moves on;
- `showEndModal` stores the elapsed time and shows the percentage, the
  achievement banner and the leaderboard;
- `restartQuiz` resets the counters for another round.

Around the engine sit pure helpers: the answer evaluator, percentage and
achievement, `formatTime`, `formatTimeAgo` and the rank numbering of
`fetchLeaderboard`.

Files:

- `wrappers.dfy` (`Wrappers`): `Option`.
- `text.dfy` (`Text`): JavaScript's `trim`, `.length` in UTF-16 code units,
  integer-to-string conversion and `padStart`.
- `questions.dfy` (`Questions`): questions and choices as the service
  delivers them, and the evaluator of `handleAnswer`.
- `progression.dfy` (`Progression`): the three counters `current`,
  `hearts` and `score`. It holds one resolution, the termination test, and
  whole runs of resolutions with their invariants.
- `results.dfy` (`Results`): percentage, achievement tier, `formatTime`,
  `formatTimeAgo` and the leaderboard view.
- `session.dfy` (`Session`): the class `QuizPage`, which holds `quizState`.
  Each handler is a method, and `Valid()` is the invariant they all keep.
- `scenarios.dfy` (`Scenarios`): whole rounds driven through the handlers.
  It also proves that a sequence of presses moves the counters exactly as the
  pure run `Progression.Play` does.

How the page's surroundings appear in the model:

- **Visible screen.** The part of the page that is visible is the field
  `screen`. A handler can only fire from the screen that holds its button,
  and the preconditions say so: the difficulty and start buttons live on the
  start screen, the choice buttons on the question screen.
- **Network.** Replies from the services are parameters, with `None` for a
  failed request. Every other request sent is appended to `requests`. Every
  `submitAttempt` body is appended to `attempts`.
- **Clock.** `Date.now()` is the parameter `now`.
- **Intervals.** A live `setInterval` is the field `ticking`. `Tick` is one
  firing of the interval. The 2-second settle delay ends in a call of
  `DisplayQuestion`.

## Model

| member | source | states |
|---|---|---|
| Text.Trim | assets/js/quiz.js:139 | the trimmed nickname is no longer than the input and neither starts nor ends with a character `trim` removes |
| Text.LeadingWhitespace | assets/js/quiz.js:139 | the count of leading characters `trim` removes: they are all whitespace and the next character is not |
| Text.TrailingStart | assets/js/quiz.js:139 | where the trailing whitespace that `trim` removes begins: everything from there on is whitespace and the character before it is not |
| Text.TrimInfix | assets/js/quiz.js:139 | the trimmed text is the infix of the input between a whitespace prefix and a whitespace suffix |
| Text.TrimIdempotent | assets/js/quiz.js:139 | trimming twice gives the same text as trimming once |
| Text.TrimEmptyIffBlank | assets/js/quiz.js:139-143 | the trimmed nickname is empty exactly when the box holds only whitespace |
| Text.Utf16Length | assets/js/quiz.js:144 | `.length` counts at least one and at most two code units per character, and is 0 only for the empty string |
| Text.DecimalString | assets/js/quiz.js:667 | the printed number is a non-empty string of digits with no leading zero |
| Text.DecimalRoundTrip | assets/js/quiz.js:667 | reading the printed digits back gives the number |
| Text.DecimalStringInjective | assets/js/quiz.js:667 | distinct numbers print differently |
| Text.IntString | assets/js/quiz.js:675 | a negative number prints as `-` followed by the digits of its magnitude; any other number prints as its digits |
| Text.PadStart | assets/js/quiz.js:667 | `padStart` keeps the text as a suffix and fills up to the width with the fill character |
| Questions.FindChoice | assets/js/quiz.js:292 | `find` returns the first choice with the id, or nothing exactly when no choice has it |
| Questions.Truthy | assets/js/quiz.js:291 | the truthiness test on the selected id: `null` and `0` are falsy; `RecordedCorrectness` and `Evaluate` state that a falsy selection is never correct |
| Questions.RecordedCorrectness | assets/js/quiz.js:290-302 | the `is_correct` sent is `false` for a timeout or a falsy id; it is undefined exactly when the id matches no choice; it is `true` exactly when the first matching choice is marked 1 |
| Questions.Evaluate | assets/js/quiz.js:289-293 | an answer is correct only when it is not a timeout, the id is truthy and some choice with that id is marked 1; an unknown id is never correct |
| Questions.EvaluateUnique | assets/js/quiz.js:289-293 | when choice ids are unique and the id is not 0, the answer is correct exactly when the choice with that id is marked 1 |
| Session.PressScoresIffFirstMatchMarked | assets/js/quiz.js:289-318 | a press of choice `id` adds a point exactly when `id` is not 0 and the first choice carrying `id` is marked 1, and `is_correct` is sent as `true` exactly then; every other press costs a heart |
| Progression.ResolveStep | assets/js/quiz.js:305-318 | one resolution advances `current` by 1; a correct answer adds 1 to `score` with `hearts` unchanged; otherwise `hearts` drops by 1 with `score` unchanged; `score + (7 - hearts) == current` is kept |
| Progression.PlaySnoc | assets/js/quiz.js:234-237 | one more outcome in a run resolves one more question, unless the quiz has already terminated, in which case the outcome is ignored |
| Progression.PlayPrefix | assets/js/quiz.js:234-237 | the same step, stated on the prefixes of one list of outcomes |
| Progression.PlayMonotone | assets/js/quiz.js:305-318 | over any run, hearts never rise, score never falls, the balance is kept, and each outcome advances at most one question |
| Progression.PlayWithinBounds | assets/js/quiz.js:234-237 | a run never moves the index past the question count and never drives hearts below 0 |
| Progression.PlayStopsOnlyWhenTerminated | assets/js/quiz.js:234-237 | a run stops before using up its outcomes only when `current >= |questions|` or `hearts <= 0` |
| Progression.PlayEnds | assets/js/quiz.js:234-237 | one outcome per remaining question always ends the quiz |
| Progression.PlayTimeouts | assets/js/quiz.js:305-307 | a run of timeouts costs one heart each, scores nothing, and resolves `min(hearts, questions left)` questions |
| Progression.AllTimeoutsFromStart | assets/js/quiz.js:168-171 | from a fresh start, an all-timeout run ends after `min(7, |questions|)` questions with score 0 |
| Progression.Terminated | assets/js/quiz.js:234 | the end test of `displayQuestion`, `current >= |questions|` or `hearts <= 0`; `PlayStopsOnlyWhenTerminated`, `PlayEnds` and `Session.QuizPage.DisplayQuestion` state what it decides |
| Progression.Resolve | assets/js/quiz.js:305-318 | one resolution of `handleAnswer`; `ResolveStep` states how each counter moves and that the balance is kept |
| Progression.Play | assets/js/quiz.js:233-324 | a run of resolutions that stops at the end test; `PlaySnoc`, `PlayMonotone`, `PlayWithinBounds`, `PlayStopsOnlyWhenTerminated`, `PlayEnds` and `PlayTimeouts` state its properties, and `Scenarios.PlayAnswers` ties it to the handlers |
| Results.Percentage | assets/js/quiz.js:449 | the percentage is the integer within half a point of `100 * score / n`; it is absent (NaN) exactly when there are no questions |
| Results.PercentageUnique | assets/js/quiz.js:449 | that rounding condition has exactly one solution |
| Results.PercentageInRange | assets/js/quiz.js:449 | a score no larger than the question count gives a percentage between 0 and 100 |
| Results.PercentageMonotone | assets/js/quiz.js:449 | a higher score never gives a lower percentage |
| Results.AchievementBands | assets/js/quiz.js:452-456 | each banner is won on exactly one band: 90 and up, 75-89, 60-74, 40-59, below 40 |
| Results.AchievementMonotone | assets/js/quiz.js:452-456 | the banner never gets worse as the percentage rises |
| Results.AchievementMonotoneInScore | assets/js/quiz.js:449-456 | the banner never gets worse as the score rises |
| Results.Achievement | assets/js/quiz.js:452-457 | the banner chain, with `NaN` failing every test; `AchievementBands` states the band of each banner and `AchievementMonotone` its order |
| Results.TierTitle | assets/js/quiz.js:453-457 | the five banner texts; `TierTitlesDistinct` states that each tier has its own, and `Session.QuizPage.EndSummary` shows the one of the won tier |
| Results.TierTitlesDistinct | assets/js/quiz.js:453-457 | two tiers show the same banner text exactly when they are the same tier |
| Results.FormatTime | assets/js/quiz.js:664-668 | the text is the whole minutes, a colon, and two digits |
| Results.FormatTimeSeconds | assets/js/quiz.js:666-667 | the two digits after the colon read as `seconds mod 60` |
| Results.PaddedSeconds | assets/js/quiz.js:667 | `padStart(2, '0')` of a seconds count below 60 is two digits that read back as that count |
| Results.FormatTimeRoundTrip | assets/js/quiz.js:664-668 | reading the `m:ss` text back gives the number of seconds |
| Results.Ago | assets/js/quiz.js:673-693 | the unit is chosen by the boundaries 60, 3600, 86400, 604800 and 2592000 seconds; the count is the number of whole units in the age |
| Results.TimeAgoTextShape | assets/js/quiz.js:675-693 | the text is the count, a space, the unit word, an `s` exactly when the count is not 1, and " ago", with nothing else |
| Results.TimeAgoText | assets/js/quiz.js:675-693 | the `"<n> <unit>s ago"` text; `TimeAgoTextShape` states its shape |
| Results.FormatTimeAgo | assets/js/quiz.js:670-694 | the age of a score from two millisecond timestamps; `Ago` states the unit and count it picks and `TimeAgoTextShape` the text |
| Results.RankRows | assets/js/quiz.js:571-579 | row `i` of the listing is rendered from row `i` of the reply, in service order |
| Results.RankRow | assets/js/quiz.js:572-578 | one rendered row; `RankRowsShow` states its rank, podium place, player, age and score |
| Results.RankRowsShow | assets/js/quiz.js:571-577 | rank is the index plus 1; the first three rows carry podium places 1-3; each row keeps its player, its age text and its score |
| Results.Leaderboard | assets/js/quiz.js:568-589 | a successful reply with rows becomes a listing whose first rank is 1; an empty or unsuccessful reply shows "No scores yet"; a failed request shows the error |
| Session.CheckNicknameCases | assets/js/quiz.js:139-147 | the nickname is rejected as empty exactly when the box is all whitespace, rejected as short exactly when it trims to one code unit, and otherwise accepted as the trimmed text |
| Session.CheckNickname | assets/js/quiz.js:139-147 | the guest nickname test on the trimmed box; `CheckNicknameCases` states its three answers |
| Session.DifficultyChosen | assets/js/quiz.js:131 | the falsy test on `quizState.difficulty`; `StartDecisionCases` states that a start without a difficulty fails first |
| Session.StartDecisionCases | assets/js/quiz.js:129-166 | a start fails for a missing difficulty first, then for an empty or a short guest nickname, then for questions that did not load; it succeeds exactly when all four checks pass |
| Session.StartDecision | assets/js/quiz.js:129-166 | the outcome of a press of the start button; `StartDecisionCases` states each outcome through the checks in order |
| Session.StartRequests | assets/js/quiz.js:129-166 | the requests a start sends; `Session.QuizPage.StartQuiz` states that it sends exactly these |
| Session.Opened | assets/js/quiz.js:168-183 | the whole `quizState` after a successful load: reset counters, mode, start time, then the first question or the end at once; `Session.QuizPage.StartQuiz` and `Session.QuizPage.LoadAndBegin` state that this is their new state |
| Session.LogStep | assets/js/quiz.js:297-303 | recording the answer to the next question keeps the log in step with the questions and adds its `is_correct` to the count of correct records |
| Session.CorrectCountAppend | assets/js/quiz.js:297-303 | one more recorded attempt adds one to the count of correct records exactly when its `is_correct` is `true` |
| Session.QuizPage.constructor | assets/js/quiz.js:24-40 | the initial `quizState`, with the id and name from `initQuiz` and `0` or `""` read as absent; a player is a guest exactly when there is no id; the page opens on the welcome screen with nothing sent |
| Session.QuizPage.ShowStartScreen | assets/js/quiz.js:104-109 | the welcome button shows the start screen |
| Session.QuizPage.SelectDifficulty | assets/js/quiz.js:113-118 | a difficulty button sets `difficulty` and nothing else |
| Session.QuizPage.StartQuiz | assets/js/quiz.js:129-184 | the outcome follows the order of the checks; the requests sent are exactly those of the checks passed; a failed start changes nothing but the stored nickname and guest session; a start takes the delivered questions, `current = 0`, `hearts = 7`, `score = 0`, `isExpert` exactly for `'expert'` and the start time, then shows the first question or ends at once for an empty list; every other field of `quizState`, `username` among them, is as before (`Opened` gives the whole new state) |
| Session.QuizPage.ReadNickname | assets/js/quiz.js:136-153 | a guest's nickname is stored trimmed before it is checked; a rejected nickname sends nothing; an accepted one asks for a guest session, whose success flag is not looked at; a signed-in player's nickname is the username |
| Session.QuizPage.LoadAndBegin | assets/js/quiz.js:160-183 | a failed load leaves the state as it was; a load sets the counters, the mode and the start time, then displays the first question, and leaves every other field as it was (`Opened`) |
| Session.QuizPage.CreateGuestSession | assets/js/quiz.js:186-214 | the request names the nickname; the session id is stored exactly when the service made one |
| Session.QuizPage.FetchQuestions | assets/js/quiz.js:216-231 | the request names the difficulty; a delivered list replaces `questions`, and a failure leaves them as they were |
| Session.QuizPage.DisplayQuestion | assets/js/quiz.js:233-262 | with no question or no heart left the quiz ends; otherwise the question screen shows, and only on the expert level a fresh countdown of 30 runs, replacing any earlier one |
| Session.QuizPage.Tick | assets/js/quiz.js:250-257 | a tick of a cleared interval changes nothing; a live tick lowers `timeLeft` by 1 and, at 0 or below, stops the interval and resolves the question as a timeout, one recorded `false` attempt, with no other field of `quizState` changed |
| Session.QuizPage.ScoreAnswer | assets/js/quiz.js:305-318 | the three branches of `handleAnswer` move the counters as one resolution does and pick the matching feedback |
| Session.QuizPage.HandleAnswer | assets/js/quiz.js:281-318 | the countdown stops; exactly one attempt is recorded, naming the current question, the selection and `is_correct`; the counters move as one resolution of the evaluator's outcome; nothing else in `quizState` changes |
| Session.QuizPage.ShowEndModal | assets/js/quiz.js:440-496 | the quiz is marked finished, the elapsed whole seconds are stored, the countdown stops and the all-time leaderboard of the difficulty is requested |
| Session.QuizPage.EndSummary | assets/js/quiz.js:447-457 | the end modal shows the percentage rounded from the exact ratio, between 0 and 100 when there are questions, its tier and that tier's banner text, and an `m:ss` time that reads back as the stored seconds |
| Session.QuizPage.Restart | assets/js/quiz.js:499-519 | back to the start screen with fresh counters, no timer, no times and no difficulty; the questions and `isExpert` are left as they were |
| Scenarios.OutcomesAt | assets/js/quiz.js:289-293 | the outcome of press `k` is the evaluator applied to question `from + k` |
| Scenarios.SignedInStart | assets/js/quiz.js:51-183 | a signed-in player who picks a difficulty and receives questions lands on the first question with fresh counters, no attempts sent, and the countdown running exactly on the expert level |
| Scenarios.SampleJudged | assets/js/quiz.js:289-293 | on a sample question the first choice is judged correct and the second wrong |
| Scenarios.AnswerAndAdvance | assets/js/quiz.js:281-324 | a press and the settle delay move the counters by one resolution and land on the next question, or on the end modal exactly when the quiz has terminated |
| Scenarios.PlayAnswers | assets/js/quiz.js:233-324 | a sequence of presses moves the counters exactly as `Progression.Play` of their outcomes does, records one attempt per resolved question, and ends on the end modal exactly when that run has terminated |
| Scenarios.BeginnerOutcomes | assets/js/quiz.js:289-293 | right, wrong, right on three sample questions are judged correct, wrong, correct |
| Scenarios.BeginnerPlay | assets/js/quiz.js:305-318 | those outcomes leave three questions resolved, six hearts and two points |
| Scenarios.TwoOfThree | assets/js/quiz.js:449-456 | 2 of 3 rounds to 67 percent, the "Rising Star" banner |
| Scenarios.BeginnerAttempt | assets/js/quiz.js:129-324 | that round, played through the handlers, ends on the end modal with six hearts, two points and three attempts sent |
| Scenarios.BeginnerRun | assets/js/quiz.js:440-457 | its end modal shows 67 percent and the banner text "⭐ RISING STAR!" |
| Scenarios.OneCharacterNickname | assets/js/quiz.js:139-147 | `" a "` trims to a one-character nickname, which is rejected as too short |
| Scenarios.ShortGuestNickname | assets/js/quiz.js:136-147 | a guest with that nickname is turned away on the start screen before any request is sent |
| Scenarios.NoDifficultyFirst | assets/js/quiz.js:131-134 | with no difficulty chosen the start is refused first and nothing is sent |
| Scenarios.ExpertTimeout | assets/js/quiz.js:246-257 | on the expert level, 30 ticks resolve the question as a timeout recorded as `false` and costing a heart; a later tick of the cleared interval changes nothing |

## Left out

- The DOM is not modelled: markup, `style.display`, the feedback and
  instructions modals, `updateHearts`, `updateProgress`, `updateTimer`,
  notifications and sounds. Only which screen is visible is kept.
- The `fetch` calls are not modelled. Each reply is an input, and
  `submitAttempt` is an append to `attempts`. `CreateGuestSession` does not
  model the minting of the session id stored in `sessionStorage`.
- The nickname availability check in `initQuiz` is left out. It only shows
  a status text and never blocks a start.
- `exitQuiz` and the leaderboard tabs are left out: they are navigation.
  The leaderboard view is `Results.Leaderboard`, as a function of the reply.
- The `Math.random` choice of feedback messages is left out. It is
  presentation only.
- Real timing is left out. An interval is the flag `ticking`, and the
  2-second settle delay is the later call of `DisplayQuestion`.
  `debounce` is not part of this model.
- Asynchrony is left out. Each handler runs atomically, including its
  `await`s. So an interleaving in which a tick or a press lands while
  `submitAttempt` is still pending is not modelled.
- `quizState` is one datatype value that each handler replaces, not sixteen
  separately updated fields. An update of a single field in place is not
  modelled. This keeps the proofs within the verifier's limits; there is no
  aliasing of `quizState` to lose.
- Results.Percentage: rounds the exact ratio `100 * score / n`, half up. The
  page rounds the floating-point product `score / n * 100`, and on a tie that
  product can land just below `.5`. For 23 of 40 questions the page shows
  57% and the model gives 58%. Up to 200 questions the other such inputs are
  46/80, 69/120, 92/160, 29/200, 57/200, 113/200 and 115/200. None of them
  lies next to a banner threshold, so no banner differs. For an empty
  question list the result is `None`, which the page shows as `NaN%`.
- Session.QuizPage.EndSummary: its percentage is `Results.Percentage`, so it
  shares that rounding difference. It gives no time text for a negative elapsed
  time, which needs a clock that runs backwards; `formatTime` of a negative
  number is not modelled.
- Results.FormatTimeAgo: the timestamps are milliseconds since the epoch.
  Parsing the date string that the service sends is not modelled.
- Results.Leaderboard: it renders an unsuccessful reply as "No scores yet",
  not as an error, as the code does.
- Questions.Evaluate: correctness is judged on the client from the
  `is_correct` flag delivered with each question, as the code does.
  Server-side judging is not modelled.
