/**
 * The attempt engine of the quiz page: the one mutable `quizState` object
 * and the handlers that change it (start, show a question, the expert
 * countdown, answer resolution, the end screen, restart).
 *
 * Network calls become inputs (the replies) and an append-only log of the
 * requests made; `submitAttempt` is the log `attempts`. The clock is a
 * parameter `now` in milliseconds. Which part of the page is visible is the
 * field `screen`: a handler can only fire from the screen that holds its
 * button, which the preconditions say.
 */
module Session {
  import opened Wrappers
  import opened Questions
  import opened Progression
  import Text
  import Results

  datatype FeedbackKind = CorrectFeedback | WrongFeedback | TimeoutFeedback

  /** The visible part of the page: welcome, start screen, a question, the feedback modal, the end modal. */
  datatype Screen = Welcome | StartScreen | QuestionScreen | Feedback(kind: FeedbackKind) | EndModal

  /** How a press of the start button ends: one of the four notices, or a started quiz. */
  datatype StartOutcome = NoDifficulty | EmptyNickname | ShortNickname | QuestionsUnavailable | Started

  /** The body `handleAnswer` posts to the attempt service; `isCorrect == None` is a dropped `undefined`. */
  datatype AnswerEvent = AnswerEvent(
    userId: Option<int>,
    guestSessionId: Option<int>,
    questionId: int,
    selectedChoiceId: Option<int>,
    isCorrect: Option<bool>)

  /** The other requests the engine sends, in the order it sends them. */
  datatype Request =
    | GuestSessionRequest(nickname: string)
    | QuestionsRequest(difficulty: string)
    | LeaderboardRequest(board: Option<string>, scope: string)

  /** Length of the expert countdown, in ticks of one second. */
  const ExpertSeconds: int := 30

  /** `!quizState.difficulty` fails for `null` and for the empty string. */
  predicate DifficultyChosen(d: Option<string>) {
    d.Some? && d.value != ""
  }

  datatype NicknameCheck = Blank | TooShort | Accepted(nickname: string)

  /**
   * The guest checks of `startQuizHandler`: the trimmed nickname must be
   * non-empty and at least two UTF-16 code units long.
   */
  function CheckNickname(input: string): NicknameCheck {
    var nick := Text.Trim(input);
    if nick == [] then Blank
    else if Text.Utf16Length(nick) < 2 then TooShort
    else Accepted(nick)
  }

  /** The three answers of `CheckNickname`, in terms of the box's contents. */
  lemma CheckNicknameCases(input: string)
    ensures CheckNickname(input) == Blank <==> Text.AllWhitespace(input)
    ensures CheckNickname(input) == TooShort <==> Text.Utf16Length(Text.Trim(input)) == 1
    ensures CheckNickname(input).Accepted? ==>
      CheckNickname(input).nickname == Text.Trim(input) && Text.Utf16Length(Text.Trim(input)) >= 2
  {
    Text.TrimEmptyIffBlank(input);
  }

  /**
   * How a press of the start button ends, from whether a difficulty is
   * chosen, whether the player is a guest, the nickname box and whether the
   * questions arrived. The checks come in this order.
   */
  function StartDecision(chosen: bool, isGuest: bool, input: string, loaded: bool): StartOutcome {
    if !chosen then NoDifficulty
    else if isGuest && CheckNickname(input) == Blank then EmptyNickname
    else if isGuest && CheckNickname(input) == TooShort then ShortNickname
    else if !loaded then QuestionsUnavailable
    else Started
  }

  /** Every way a press of the start button can end, stated through the checks it makes, in order. */
  lemma StartDecisionCases(chosen: bool, isGuest: bool, input: string, loaded: bool)
    ensures var o := StartDecision(chosen, isGuest, input, loaded);
      var nameOk := !isGuest || Text.Utf16Length(Text.Trim(input)) >= 2;
      && (o == NoDifficulty <==> !chosen)
      && (o == EmptyNickname <==> chosen && isGuest && Text.AllWhitespace(input))
      && (o == ShortNickname <==> chosen && isGuest && Text.Utf16Length(Text.Trim(input)) == 1)
      && (o == QuestionsUnavailable <==> chosen && nameOk && !loaded)
      && (o == Started <==> chosen && nameOk && loaded)
  {
    CheckNicknameCases(input);
    Text.TrimEmptyIffBlank(input);
  }

  /** The outcome comes after the nickname checks: the requests of a start were sent. */
  predicate Validated(outcome: StartOutcome) {
    outcome == QuestionsUnavailable || outcome == Started
  }

  /**
   * The requests a press of the start button sends: none when a check fails;
   * otherwise the guest session (guests only), the questions, and the
   * leaderboard when an empty list ends the quiz at once.
   */
  function StartRequests(difficulty: Option<string>, isGuest: bool, input: string, loaded: Option<seq<Question>>): seq<Request> {
    if !Validated(StartDecision(DifficultyChosen(difficulty), isGuest, input, loaded.Some?)) then []
    else
      (if isGuest then [GuestSessionRequest(Text.Trim(input))] else [])
      + [QuestionsRequest(difficulty.value)]
      + (if loaded == Some([]) then [LeaderboardRequest(difficulty, "alltime")] else [])
  }

  /** The number of events recorded as correct. */
  function CorrectCount(events: seq<AnswerEvent>): nat {
    if events == [] then 0
    else CorrectCount(events[..|events| - 1]) + (if events[|events| - 1].isCorrect == Some(true) then 1 else 0)
  }

  lemma CorrectCountAppend(events: seq<AnswerEvent>, e: AnswerEvent)
    ensures CorrectCount(events + [e]) == CorrectCount(events) + (if e.isCorrect == Some(true) then 1 else 0)
  {
    assert (events + [e])[..|events|] == events;
  }

  /** The events of an attempt so far name its first `count` questions in order. */
  predicate LogMatches(attempts: seq<AnswerEvent>, start: nat, questions: seq<Question>, count: nat) {
    && start + count == |attempts|
    && count <= |questions|
    && forall i :: 0 <= i < count ==> attempts[start + i].questionId == questions[i].id
  }

  /**
   * A press of choice `id` scores exactly when the first choice carrying that
   * id is marked 1, and `is_correct` is sent as `true` exactly then; any other
   * press costs a heart.
   */
  lemma PressScoresIffFirstMatchMarked(q: Question, id: int, p: Progress)
    ensures var next := Resolve(p, Evaluate(q, Some(id), false));
      && (next.score == p.score + 1 <==> id != 0 && FirstMatchMarked(q.choices, id))
      && (next.hearts == p.hearts - 1 <==> !(id != 0 && FirstMatchMarked(q.choices, id)))
      && (RecordedCorrectness(q, Some(id), false) == Some(true) <==> id != 0 && FirstMatchMarked(q.choices, id))
  {
    var found := FindChoice(q.choices, id);
    if k :| FirstMarkedAt(q.choices, id, k) {
      assert found == Some(k);
    }
    if found.Some? && q.choices[found.value].isCorrect == 1 {
      assert FirstMarkedAt(q.choices, id, found.value);
    }
  }

  /** Recording the event of the next question extends both the match and the correct count by that event. */
  lemma LogStep(attempts: seq<AnswerEvent>, start: nat, questions: seq<Question>, count: nat, e: AnswerEvent)
    requires LogMatches(attempts, start, questions, count)
    requires count < |questions| && e.questionId == questions[count].id
    ensures LogMatches(attempts + [e], start, questions, count + 1)
    ensures CorrectCount((attempts + [e])[start..]) ==
      CorrectCount(attempts[start..]) + (if e.isCorrect == Some(true) then 1 else 0)
  {
    assert (attempts + [e])[start..] == attempts[start..] + [e];
    CorrectCountAppend(attempts[start..], e);
    forall i | 0 <= i < count + 1
      ensures (attempts + [e])[start + i].questionId == questions[i].id
    {
      if i < count {
        assert (attempts + [e])[start + i] == attempts[start + i];
      }
    }
  }

  /**
   * The fields of `quizState`, the one object the page script mutates.
   * `timer` is true when the field holds an interval id; `clearInterval`
   * stops the interval but does not reset the field.
   */
  datatype QuizState = QuizState(
    questions: seq<Question>,
    current: nat,
    hearts: int,
    difficulty: Option<string>,
    timer: bool,
    timeLeft: int,
    userId: Option<int>,
    username: Option<string>,
    guestSessionId: Option<int>,
    nickname: Option<string>,
    isExpert: bool,
    isGuest: bool,
    score: nat,
    finished: bool,
    startTime: Option<int>,
    totalTime: int)
  {
    /** The three counters of the attempt. */
    function Standing(): Progress {
      Progress(current, hearts, score)
    }
  }

  /**
   * The whole `quizState` once a start has loaded `questions` at time `now`:
   * the counters reset, the mode and the start time set, and then the first
   * question shown (a fresh expert countdown) or, for an empty list, the
   * attempt ended at once with no time elapsed.
   */
  function Opened(s: QuizState, questions: seq<Question>, now: int): QuizState {
    var s1 := s.(questions := questions, current := 0, hearts := MaxHearts, score := 0, finished := false,
                 isExpert := s.difficulty == Some("expert"), startTime := Some(now));
    if questions == [] then s1.(finished := true, totalTime := 0)
    else if s1.isExpert then s1.(timeLeft := ExpertSeconds, timer := true)
    else s1
  }

  /**
   * The invariant of the page: the counters stay balanced, the screen agrees
   * with the counters, a countdown runs only on an expert question, and the
   * attempts recorded since the last start name the questions answered so far.
   */
  ghost predicate Coherent(s: QuizState, screen: Screen, ticking: bool, attempts: seq<AnswerEvent>, runStart: nat) {
    && 0 <= s.hearts <= MaxHearts
    && Balanced(s.Standing())
    && (s.isGuest <==> s.userId.None?)
    && (ticking ==> s.timer && s.isExpert && screen == QuestionScreen && 0 < s.timeLeft <= ExpertSeconds)
    && (screen == QuestionScreen ==> !Terminated(s.Standing(), |s.questions|))
    && (s.finished <==> screen == EndModal)
    && (screen == EndModal ==> Terminated(s.Standing(), |s.questions|))
    && (screen.QuestionScreen? || screen.Feedback? || screen == EndModal ==> s.startTime.Some?)
    && (screen == Welcome || screen == StartScreen ==> s.Standing() == Initial)
    && LogMatches(attempts, runStart, s.questions, s.current)
    && s.score == CorrectCount(attempts[runStart..])
  }

  /** The nickname and the guest session take no part in the invariant. */
  lemma CoherentIgnoresNames(s: QuizState, screen: Screen, ticking: bool, attempts: seq<AnswerEvent>, runStart: nat,
                             nickname: Option<string>, guestSessionId: Option<int>)
    requires Coherent(s, screen, ticking, attempts, runStart)
    ensures Coherent(s.(nickname := nickname, guestSessionId := guestSessionId), screen, ticking, attempts, runStart)
  {
  }

  /**
   * The quiz page: `quizState`, the part of the page that is visible, whether
   * the interval is still scheduled, and the logs of what was sent.
   */
  class QuizPage {
    var quizState: QuizState
    var screen: Screen
    /** The interval whose id `quizState.timer` holds is still scheduled and fires once per second. */
    var ticking: bool
    /** Every `submitAttempt` body, in order. */
    var attempts: seq<AnswerEvent>
    /** Every other request, in order. */
    var requests: seq<Request>
    /** Where the current attempt's events start in `attempts`. */
    ghost var runStart: nat

    ghost predicate Valid()
      reads this
    {
      Coherent(quizState, screen, ticking, attempts, runStart)
    }

    /**
     * The initial `quizState` as `initQuiz` completes it from the page's user
     * globals: a falsy id or name (`0`, the empty string) counts as absent.
     */
    constructor (cgUserId: Option<int>, cgUsername: Option<string>)
      ensures Valid()
      ensures var userId := if cgUserId == Some(0) then None else cgUserId;
        var username := if cgUsername == Some("") then None else cgUsername;
        quizState == QuizState([], 0, MaxHearts, None, false, 0, userId, username, None, None,
                               false, userId.None?, 0, false, None, 0)
      ensures screen == Welcome && !ticking && attempts == [] && requests == []
    {
      var userId := if cgUserId == Some(0) then None else cgUserId;
      var username := if cgUsername == Some("") then None else cgUsername;
      quizState := QuizState([], 0, MaxHearts, None, false, 0, userId, username, None, None,
                             false, userId.None?, 0, false, None, 0);
      screen := Welcome;
      ticking := false;
      attempts, requests := [], [];
      runStart := 0;
    }

    /** The welcome button. */
    method ShowStartScreen()
      requires Valid() && screen == Welcome
      modifies this`screen
      ensures Valid() && screen == StartScreen
    {
      screen := StartScreen;
    }

    /** A difficulty button. */
    method SelectDifficulty(d: string)
      requires Valid() && screen == StartScreen
      modifies this`quizState
      ensures Valid() && quizState == old(quizState).(difficulty := Some(d))
    {
      quizState := quizState.(difficulty := Some(d));
    }

    /**
     * `startQuizHandler`. `nickInput` is the nickname box (`None` when the
     * page has none), `guestReply` the guest session the service created
     * (`None` on failure) and `loaded` the question list (`None` on failure).
     */
    method StartQuiz(nickInput: Option<string>, guestReply: Option<int>, loaded: Option<seq<Question>>, now: int)
      returns (outcome: StartOutcome)
      requires Valid() && screen == StartScreen
      modifies this`quizState, this`requests, this`screen, this`ticking
      ensures Valid()
      ensures var s0, input := old(quizState), nickInput.GetOr("");
        && outcome == StartDecision(DifficultyChosen(s0.difficulty), s0.isGuest, input, loaded.Some?)
        && requests == old(requests) + StartRequests(s0.difficulty, s0.isGuest, input, loaded)
        && quizState.nickname ==
             (if outcome == NoDifficulty then s0.nickname else if s0.isGuest then Some(Text.Trim(input)) else s0.username)
        && quizState.guestSessionId ==
             (if Validated(outcome) && s0.isGuest && guestReply.Some? then guestReply else s0.guestSessionId)
      // a start that does not happen changes no other field and stays on the start screen
      ensures outcome != Started ==>
        && quizState.(nickname := old(quizState).nickname, guestSessionId := old(quizState).guestSessionId) == old(quizState)
        && screen == StartScreen && ticking == old(ticking)
      // a start: the delivered questions, fresh counters, the mode, the start time, then the first
      // question (or, for an empty list, the end at once)
      ensures outcome == Started ==>
        var s0, s := old(quizState), quizState;
        && loaded.Some? && s.questions == loaded.value
        && s.Standing() == Initial
        && s.isExpert == (s0.difficulty.value == "expert")
        && s.startTime == Some(now)
        && s.difficulty == s0.difficulty && s.userId == s0.userId && s.isGuest == s0.isGuest
        && (s.questions != [] ==> screen == QuestionScreen && !s.finished && s.totalTime == s0.totalTime)
        && (s.questions != [] ==> (ticking <==> s.isExpert))
        && (s.questions != [] && s.isExpert ==> s.timer && s.timeLeft == ExpertSeconds)
        && (s.questions != [] && !s.isExpert ==> s.timer == s0.timer && s.timeLeft == s0.timeLeft)
        && (s.questions == [] ==> screen == EndModal && s.finished && !ticking && s.totalTime == 0)
        && s == Opened(s0.(nickname := s.nickname, guestSessionId := s.guestSessionId), loaded.value, now)
    {
      if !DifficultyChosen(quizState.difficulty) {
        return NoDifficulty;
      }
      var rejected := ReadNickname(nickInput, guestReply);
      CoherentIgnoresNames(old(quizState), screen, ticking, attempts, runStart, quizState.nickname, quizState.guestSessionId);
      if rejected.Some? {
        return rejected.value;
      }
      outcome := LoadAndBegin(loaded, now);
    }

    /**
     * The nickname part of `startQuizHandler`: a guest's box is trimmed and
     * stored, then checked, and an accepted guest asks for a guest session; a
     * user's nickname is the username. `rejected` is the notice that stops
     * the start, if any.
     */
    method ReadNickname(nickInput: Option<string>, guestReply: Option<int>) returns (rejected: Option<StartOutcome>)
      modifies this`quizState, this`requests
      ensures var s0, input := old(quizState), nickInput.GetOr("");
        var decision := StartDecision(true, s0.isGuest, input, true);
        && rejected == (if Validated(decision) then None else Some(decision))
        && requests == old(requests) + (if s0.isGuest && rejected.None? then [GuestSessionRequest(Text.Trim(input))] else [])
        && quizState == s0.(nickname := if s0.isGuest then Some(Text.Trim(input)) else s0.username,
                            guestSessionId := if s0.isGuest && rejected.None? && guestReply.Some? then guestReply
                                              else s0.guestSessionId)
    {
      var input := nickInput.GetOr("");
      if quizState.isGuest {
        quizState := quizState.(nickname := Some(Text.Trim(input)));
        var check := CheckNickname(input);
        if check == Blank {
          return Some(EmptyNickname);
        }
        if check == TooShort {
          return Some(ShortNickname);
        }
        // the success flag of `createGuestSession` is not looked at
        var created := CreateGuestSession(check.nickname, guestReply);
      } else {
        quizState := quizState.(nickname := quizState.username);
      }
      return None;
    }

    /**
     * The rest of `startQuizHandler`: the questions are fetched; when they
     * arrive the counters restart, the mode and the start time are set and
     * the first question (or, for an empty list, the end) is displayed.
     */
    method LoadAndBegin(loaded: Option<seq<Question>>, now: int) returns (outcome: StartOutcome)
      requires Valid() && screen == StartScreen && DifficultyChosen(quizState.difficulty)
      modifies this`quizState, this`requests, this`screen, this`ticking
      ensures Valid()
      ensures outcome == (if loaded.Some? then Started else QuestionsUnavailable)
      ensures requests == old(requests) + [QuestionsRequest(old(quizState).difficulty.value)]
        + (if loaded == Some([]) then [LeaderboardRequest(old(quizState).difficulty, "alltime")] else [])
      ensures loaded.None? ==> quizState == old(quizState) && screen == StartScreen && ticking == old(ticking)
      ensures loaded.Some? ==>
        var s0, s := old(quizState), quizState;
        && s.questions == loaded.value
        && s.Standing() == Initial
        && s.isExpert == (s0.difficulty.value == "expert")
        && s.startTime == Some(now)
        && s.difficulty == s0.difficulty && s.userId == s0.userId && s.isGuest == s0.isGuest
        && s.nickname == s0.nickname && s.guestSessionId == s0.guestSessionId
        && (s.questions != [] ==> screen == QuestionScreen && !s.finished && s.totalTime == s0.totalTime)
        && (s.questions != [] ==> (ticking <==> s.isExpert))
        && (s.questions != [] && s.isExpert ==> s.timer && s.timeLeft == ExpertSeconds)
        && (s.questions != [] && !s.isExpert ==> s.timer == s0.timer && s.timeLeft == s0.timeLeft)
        && (s.questions == [] ==> screen == EndModal && s.finished && !ticking && s.totalTime == 0)
        && s == Opened(s0, loaded.value, now)
    {
      var success := FetchQuestions(quizState.difficulty.value, loaded);
      if !success {
        return QuestionsUnavailable;
      }
      quizState := quizState.(current := 0, hearts := MaxHearts, score := 0, finished := false,
                              isExpert := quizState.difficulty.value == "expert", startTime := Some(now));
      DisplayQuestion(now);
      outcome := Started;
    }

    /**
     * `createGuestSession`: the request is sent and, when the service
     * created a session, its id is stored; `created` is the success flag.
     */
    method CreateGuestSession(nick: string, reply: Option<int>) returns (created: bool)
      modifies this`requests, this`quizState
      ensures requests == old(requests) + [GuestSessionRequest(nick)]
      ensures created <==> reply.Some?
      ensures quizState == if reply.Some? then old(quizState).(guestSessionId := reply) else old(quizState)
    {
      requests := requests + [GuestSessionRequest(nick)];
      if reply.Some? {
        quizState := quizState.(guestSessionId := reply);
        return true;
      }
      return false;
    }

    /**
     * `fetchQuestions`: the request names the difficulty; a delivered list
     * replaces `questions`, a failure leaves it as it was.
     */
    method FetchQuestions(difficulty: string, reply: Option<seq<Question>>) returns (success: bool)
      modifies this`requests, this`quizState
      ensures requests == old(requests) + [QuestionsRequest(difficulty)]
      ensures success <==> reply.Some?
      ensures quizState == if reply.Some? then old(quizState).(questions := reply.value) else old(quizState)
    {
      requests := requests + [QuestionsRequest(difficulty)];
      if reply.Some? {
        quizState := quizState.(questions := reply.value);
        return true;
      }
      return false;
    }

    /**
     * `displayQuestion`, also the callback of the settle delay after the
     * feedback modal. It ends the quiz when no question or no heart is left;
     * otherwise it shows question `current` and, in expert mode, replaces
     * any countdown with a fresh one of 30 ticks.
     */
    method DisplayQuestion(now: int)
      requires Valid() && quizState.startTime.Some? && (screen == StartScreen || screen.Feedback?)
      modifies this`quizState, this`screen, this`ticking, this`requests
      ensures Valid()
      ensures var s0 := old(quizState);
        Terminated(s0.Standing(), |s0.questions|) ==>
          && quizState == s0.(finished := true, totalTime := (now - s0.startTime.value) / 1000)
          && screen == EndModal && !ticking
          && requests == old(requests) + [LeaderboardRequest(s0.difficulty, "alltime")]
      ensures var s0 := old(quizState);
        !Terminated(s0.Standing(), |s0.questions|) ==>
          && screen == QuestionScreen && requests == old(requests)
          && (ticking <==> s0.isExpert)
          && quizState == (if s0.isExpert then s0.(timeLeft := ExpertSeconds, timer := true) else s0)
    {
      if quizState.current >= |quizState.questions| || quizState.hearts <= 0 {
        ShowEndModal(now);
        return;
      }
      if quizState.isExpert {
        quizState := quizState.(timeLeft := ExpertSeconds);
        if quizState.timer {
          ticking := false;
        }
        quizState := quizState.(timer := true);
        ticking := true;
      } else {
        if quizState.timer {
          ticking := false;
        }
      }
      screen := QuestionScreen;
    }

    /**
     * One second of the expert countdown (the interval callback). A cleared
     * interval never fires again, so a tick after the question was resolved
     * does nothing; the tick that brings the count to 0 clears the interval
     * and resolves the question as a timeout.
     */
    method Tick()
      requires Valid()
      modifies this`quizState, this`ticking, this`attempts, this`screen
      ensures Valid()
      ensures !old(ticking) ==> unchanged(this)
      ensures old(ticking) ==> quizState.timeLeft == old(quizState).timeLeft - 1
      ensures old(ticking) && quizState.timeLeft > 0 ==>
        && quizState == old(quizState).(timeLeft := quizState.timeLeft)
        && ticking && attempts == old(attempts) && screen == QuestionScreen
      ensures var s0 := old(quizState);
        old(ticking) && quizState.timeLeft <= 0 ==>
          && !ticking
          && quizState.Standing() == Resolve(s0.Standing(), false)
          && quizState.(current := s0.current, hearts := s0.hearts, score := s0.score) == s0.(timeLeft := s0.timeLeft - 1)
          && attempts == old(attempts) + [AnswerEvent(s0.userId, s0.guestSessionId, s0.questions[s0.current].id, None, Some(false))]
          && screen == Feedback(TimeoutFeedback)
    {
      if !ticking {
        return;
      }
      quizState := quizState.(timeLeft := quizState.timeLeft - 1);
      if quizState.timeLeft <= 0 {
        ticking := false;
        HandleAnswer(None, true);
      }
    }

    /**
     * The three branches of `handleAnswer`: a timeout and a wrong answer each
     * cost a heart, a correct answer scores; every branch moves to the next question.
     */
    method ScoreAnswer(isTimeout: bool, isCorrect: bool) returns (kind: FeedbackKind)
      requires isTimeout ==> !isCorrect
      modifies this`quizState
      ensures var next := Resolve(old(quizState).Standing(), isCorrect);
        quizState == old(quizState).(current := next.current, hearts := next.hearts, score := next.score)
      ensures kind == if isTimeout then TimeoutFeedback else if isCorrect then CorrectFeedback else WrongFeedback
    {
      if isTimeout {
        quizState := quizState.(hearts := quizState.hearts - 1);
        kind := TimeoutFeedback;
      } else if isCorrect {
        quizState := quizState.(score := quizState.score + 1);
        kind := CorrectFeedback;
      } else {
        quizState := quizState.(hearts := quizState.hearts - 1);
        kind := WrongFeedback;
      }
      quizState := quizState.(current := quizState.current + 1);
    }

    /**
     * `handleAnswer`: a choice button (`selectedId` is that choice's id,
     * `isTimeout` false) or the countdown running out (no id, `isTimeout`).
     * It stops the countdown, records exactly one attempt, charges a heart
     * or adds a point, and moves on to the next index; nothing else changes.
     */
    method HandleAnswer(selectedId: Option<int>, isTimeout: bool)
      requires Valid() && screen == QuestionScreen
      modifies this`quizState, this`ticking, this`attempts, this`screen
      ensures Valid() && !ticking
      ensures var s0 := old(quizState);
        var q := s0.questions[s0.current];
        var correct := Evaluate(q, selectedId, isTimeout);
        && quizState.Standing() == Resolve(s0.Standing(), correct)
        && quizState.(current := s0.current, hearts := s0.hearts, score := s0.score) == s0
        && attempts == old(attempts) + [AnswerEvent(s0.userId, s0.guestSessionId, q.id, selectedId,
                                                    RecordedCorrectness(q, selectedId, isTimeout))]
        && screen == Feedback(if isTimeout then TimeoutFeedback else if correct then CorrectFeedback else WrongFeedback)
    {
      var s := quizState;
      var q := s.questions[s.current];
      if s.timer {
        ticking := false;
      }
      var isCorrect := Evaluate(q, selectedId, isTimeout);
      var event := AnswerEvent(s.userId, s.guestSessionId, q.id, selectedId, RecordedCorrectness(q, selectedId, isTimeout));
      LogStep(attempts, runStart, s.questions, s.current, event);
      // `submitAttempt`
      attempts := attempts + [event];
      var kind := ScoreAnswer(isTimeout, isCorrect);
      screen := Feedback(kind);
    }

    /**
     * The state part of `showEndModal`: the quiz is finished, the elapsed
     * whole seconds are stored (`Math.floor`, which `/` by a positive divisor
     * is), the countdown is stopped and the all-time leaderboard of the
     * difficulty is requested.
     */
    method ShowEndModal(now: int)
      requires Valid() && quizState.startTime.Some? && (screen == StartScreen || screen.Feedback?)
      requires Terminated(quizState.Standing(), |quizState.questions|)
      modifies this`quizState, this`ticking, this`screen, this`requests
      ensures Valid()
      ensures quizState == old(quizState).(finished := true, totalTime := (now - old(quizState).startTime.value) / 1000)
      ensures screen == EndModal && !ticking
      ensures requests == old(requests) + [LeaderboardRequest(quizState.difficulty, "alltime")]
    {
      quizState := quizState.(finished := true, totalTime := (now - quizState.startTime.value) / 1000);
      if quizState.timer {
        ticking := false;
      }
      screen := EndModal;
      requests := requests + [LeaderboardRequest(quizState.difficulty, "alltime")];
    }

    /**
     * What the end modal shows: the rounded percentage (`None` for the NaN
     * of an empty question list), the achievement banner and the elapsed
     * time as `m:ss` (`None` for a negative time, which is not modelled).
     */
    method EndSummary() returns (percentage: Option<int>, tier: Results.Tier, banner: string, time: Option<string>)
      requires Valid()
      ensures percentage == Results.Percentage(quizState.score, |quizState.questions|)
      ensures tier == Results.Achievement(percentage) && banner == Results.TierTitle(tier)
      ensures quizState.questions != [] ==> percentage.Some? && 0 <= percentage.value <= 100
      ensures quizState.questions == [] ==> percentage.None? && tier == Results.KeepTrying
      ensures time.Some? <==> quizState.totalTime >= 0
      ensures time.Some? ==> Results.TimeShaped(time.value) && Results.ParseTime(time.value) == quizState.totalTime
    {
      percentage := Results.Percentage(quizState.score, |quizState.questions|);
      if quizState.questions != [] {
        Results.PercentageInRange(quizState.score, |quizState.questions|);
      }
      tier := Results.Achievement(percentage);
      banner := Results.TierTitle(tier);
      if quizState.totalTime >= 0 {
        time := Some(Results.FormatTime(quizState.totalTime));
        Results.FormatTimeRoundTrip(quizState.totalTime);
      } else {
        time := None;
      }
    }

    /**
     * `restartQuiz`, the "Play Again" button: back to the start screen with
     * fresh counters, no timer id, no times and no difficulty. The question
     * list and `isExpert` are left as they were; the next start replaces both.
     */
    method Restart()
      requires Valid() && screen == EndModal
      modifies this`quizState, this`screen, this`runStart
      ensures Valid() && screen == StartScreen && !ticking && runStart == |attempts|
      ensures quizState == old(quizState).(current := 0, hearts := MaxHearts, score := 0, finished := false,
        timer := false, timeLeft := 0, startTime := None, totalTime := 0, difficulty := None)
    {
      screen := StartScreen;
      quizState := quizState.(current := 0, hearts := MaxHearts, score := 0, finished := false,
        timer := false, timeLeft := 0, startTime := None, totalTime := 0);
      quizState := quizState.(difficulty := None);
      runStart := |attempts|;
    }
  }
}
