/**
 * Whole runs of the quiz page, driven through its handlers as the page's
 * buttons, intervals and delays would drive them.
 */
module Scenarios {
  import opened Wrappers
  import opened Questions
  import opened Session
  import Results
  import Text

  /** A question whose choice `id * 10` is the correct one and `id * 10 + 1` a wrong one. */
  function Sample(id: int): Question {
    Question(id, "", [Choice(id * 10, "", 1), Choice(id * 10 + 1, "", 0)])
  }

  /**
   * `page.Valid()` under a name of its own. The scenarios pass the page's
   * invariant from one helper to the next as this single fact, so the
   * verifier does not unfold it into its conjuncts at every call; that keeps
   * the whole-round proofs small.
   */
  ghost predicate Live(page: QuizPage)
    reads page
  {
    page.Valid()
  }

  /** A signed-in player opens the page, picks a difficulty and starts; the questions arrive. */
  method SignedInStart(difficulty: string, questions: seq<Question>) returns (page: QuizPage)
    requires difficulty != "" && questions != []
    ensures fresh(page) && Live(page) && page.screen == QuestionScreen
    ensures page.quizState.questions == questions && page.quizState.Standing() == Progression.Initial
    ensures page.quizState.isExpert == (difficulty == "expert") && (page.ticking <==> difficulty == "expert")
    ensures page.quizState.isExpert ==> page.quizState.timeLeft == ExpertSeconds
    ensures page.attempts == []
  {
    page := new QuizPage(Some(5), Some("ann"));
    page.ShowStartScreen();
    page.SelectDifficulty(difficulty);
    var outcome := page.StartQuiz(None, None, Some(questions), 0);
  }

  /**
   * A press of a choice button, then the settle delay that shows the next
   * question or, when the attempt is over, the end modal.
   */
  method AnswerAndAdvance(page: QuizPage, selectedId: int, now: int)
    requires Live(page) && page.screen == QuestionScreen
    modifies page
    ensures Live(page)
    ensures var s0 := old(page.quizState);
      var s := page.quizState;
      && s.Standing() == Progression.Resolve(s0.Standing(), Evaluate(s0.questions[s0.current], Some(selectedId), false))
      && s.questions == s0.questions
      && |page.attempts| == |old(page.attempts)| + 1
      && page.screen == (if Progression.Terminated(s.Standing(), |s.questions|) then EndModal else QuestionScreen)
  {
    page.HandleAnswer(Some(selectedId), false);
    page.DisplayQuestion(now);
  }

  /**
   * The outcome each press in `ids` resolves when the presses answer the
   * questions from index `from` on, one after another.
   */
  function Outcomes(questions: seq<Question>, from: nat, ids: seq<int>): (r: seq<bool>)
    ensures |r| == |ids|
    decreases |ids|
  {
    if ids == [] then []
    else [from < |questions| && Evaluate(questions[from], Some(ids[0]), false)] + Outcomes(questions, from + 1, ids[1..])
  }

  lemma {:induction false} OutcomesAt(questions: seq<Question>, from: nat, ids: seq<int>, k: nat)
    requires k < |ids| && from + k < |questions|
    ensures Outcomes(questions, from, ids)[k] == Evaluate(questions[from + k], Some(ids[k]), false)
    decreases k
  {
    if k > 0 {
      OutcomesAt(questions, from + 1, ids[1..], k - 1);
    }
  }

  /**
   * A player presses the choices `ids` one after another, each press followed
   * by the settle delay; presses that come once the end modal is up do
   * nothing. The counters move exactly as the run `Progression.Play` of the
   * outcomes does, and the page ends on the end modal exactly when that run
   * has terminated.
   */
  method PlayAnswers(page: QuizPage, ids: seq<int>, now: int)
    requires Live(page) && page.screen == QuestionScreen
    modifies page
    ensures Live(page) && page.quizState.questions == old(page.quizState.questions)
    ensures var qs := old(page.quizState.questions);
      page.quizState.Standing() ==
        Progression.Play(old(page.quizState.Standing()), Outcomes(qs, old(page.quizState.current), ids), |qs|)
    ensures page.screen == (if Progression.Terminated(page.quizState.Standing(), |page.quizState.questions|) then EndModal else QuestionScreen)
    ensures |page.attempts| == |old(page.attempts)| + (page.quizState.current - old(page.quizState.current))
  {
    ghost var sent := |page.attempts|;
    ghost var p0, qs, from := page.quizState.Standing(), page.quizState.questions, page.quizState.current;
    ghost var outcomes := Outcomes(qs, from, ids);
    var i := 0;
    while i < |ids|
      invariant 0 <= i <= |ids|
      invariant Live(page) && page.quizState.questions == qs
      invariant page.quizState.Standing() == Progression.Play(p0, outcomes[..i], |qs|)
      invariant page.screen == (if Progression.Terminated(page.quizState.Standing(), |qs|) then EndModal else QuestionScreen)
      invariant page.screen == QuestionScreen ==> page.quizState.current == from + i
      invariant from <= page.quizState.current && |page.attempts| == sent + (page.quizState.current - from)
    {
      Progression.PlayPrefix(p0, outcomes, i, |qs|);
      if page.screen == QuestionScreen {
        OutcomesAt(qs, from, ids, i);
        AnswerAndAdvance(page, ids[i], now);
      }
      i := i + 1;
    }
    assert outcomes[..|ids|] == outcomes;
  }

  /** On a sample question the first choice is judged correct and the second wrong. */
  lemma SampleJudged(id: int)
    requires id != 0
    ensures Evaluate(Sample(id), Some(id * 10), false)
    ensures !Evaluate(Sample(id), Some(id * 10 + 1), false)
  {
    assert FindChoice(Sample(id).choices, id * 10) == Some(0);
    assert FindChoice(Sample(id).choices, id * 10 + 1) == Some(1);
  }

  /** The presses right, wrong, right on three sample questions resolve as correct, wrong, correct. */
  lemma BeginnerOutcomes()
    ensures Outcomes([Sample(1), Sample(2), Sample(3)], 0, [10, 21, 30]) == [true, false, true]
  {
    var qs, ids := [Sample(1), Sample(2), Sample(3)], [10, 21, 30];
    SampleJudged(1);
    SampleJudged(2);
    SampleJudged(3);
    OutcomesAt(qs, 0, ids, 0);
    OutcomesAt(qs, 0, ids, 1);
    OutcomesAt(qs, 0, ids, 2);
  }

  /** Those outcomes from the start: three questions resolved, six hearts, two points. */
  lemma BeginnerPlay()
    ensures Progression.Play(Progression.Initial, [true, false, true], 3) == Progression.Progress(3, 6, 2)
  {
    assert [true, false, true][1..] == [false, true] && [false, true][1..] == [true] && [true][1..] == [];
  }

  /** Two points out of three questions: 66.67 percent rounds to 67, the "Rising Star" banner. */
  lemma TwoOfThree()
    ensures Results.Percentage(2, 3) == Some(67) && Results.Achievement(Some(67)) == Results.RisingStar
  {
    assert (200 * 2 + 3) / (2 * 3) == 67;
  }

  /**
   * A signed-in player on the beginner level answers three questions right,
   * wrong, right: the attempt ends on the end modal with three questions
   * resolved, six hearts, two points and one attempt sent per question.
   */
  method BeginnerAttempt() returns (page: QuizPage)
    ensures fresh(page) && Live(page) && page.screen == EndModal
    ensures |page.quizState.questions| == 3 && page.quizState.Standing() == Progression.Progress(3, 6, 2)
    ensures |page.attempts| == 3
  {
    page := SignedInStart("beginner", [Sample(1), Sample(2), Sample(3)]);
    BeginnerOutcomes();
    BeginnerPlay();
    PlayAnswers(page, [10, 21, 30], 6000);
  }

  /** The end modal of that attempt: 67 percent after rounding and the "Rising Star" banner. */
  method BeginnerRun() returns (percentage: Option<int>, tier: Results.Tier, banner: string, hearts: int, sent: nat)
    ensures percentage == Some(67) && tier == Results.RisingStar && banner == "⭐ RISING STAR!"
    ensures hearts == 6 && sent == 3
  {
    var page := BeginnerAttempt();
    TwoOfThree();
    var time;
    percentage, tier, banner, time := page.EndSummary();
    hearts, sent := page.quizState.hearts, |page.attempts|;
  }

  /** `" a "` trims to the one-character nickname `"a"`. */
  lemma OneCharacterNickname()
    ensures CheckNickname(" a ") == TooShort
  {
    assert Text.LeadingWhitespace(" a "[1..]) == 0;
    assert Text.LeadingWhitespace(" a ") == 1;
    assert Text.TrailingStart(" a "[..2]) == 2;
    assert Text.TrailingStart(" a ") == 2;
    assert Text.Trim(" a ") == "a";
    assert Text.Utf16Length("a") == 1;
  }

  /**
   * A guest whose trimmed nickname is one character long is turned away
   * before any request is sent, and stays on the start screen.
   */
  method ShortGuestNickname() returns (outcome: StartOutcome, sent: nat, onStart: bool)
    ensures outcome == ShortNickname && sent == 0 && onStart
  {
    var page := new QuizPage(None, None);
    page.ShowStartScreen();
    page.SelectDifficulty("beginner");
    OneCharacterNickname();
    outcome := page.StartQuiz(Some(" a "), Some(9), Some([Sample(1)]), 0);
    sent, onStart := |page.requests|, page.screen == StartScreen;
  }

  /**
   * A start with no difficulty chosen is refused first, whatever the
   * nickname box holds.
   */
  method NoDifficultyFirst() returns (outcome: StartOutcome, sent: nat)
    ensures outcome == NoDifficulty && sent == 0
  {
    var page := new QuizPage(None, None);
    page.ShowStartScreen();
    outcome := page.StartQuiz(Some(""), None, None, 0);
    sent := |page.requests|;
  }

  /**
   * On the expert level the countdown runs out after 30 ticks and resolves
   * the question as a timeout; a tick of the cleared interval that comes
   * later changes nothing.
   */
  method ExpertTimeout() returns (hearts: int, recorded: Option<bool>, stale: bool)
    ensures hearts == 6 && recorded == Some(false) && stale
  {
    var page := SignedInStart("expert", [Sample(1), Sample(2)]);
    var ticks := 0;
    while page.ticking
      invariant page.Valid() && 0 <= ticks <= 30
      invariant page.ticking ==> page.quizState.timeLeft == 30 - ticks && page.quizState.hearts == 7 && page.attempts == []
      invariant !page.ticking ==> ticks == 30 && page.quizState.hearts == 6 && |page.attempts| == 1
      invariant page.attempts != [] ==> page.attempts[0].isCorrect == Some(false)
      decreases 30 - ticks
    {
      page.Tick();
      ticks := ticks + 1;
    }
    hearts, recorded := page.quizState.hearts, page.attempts[0].isCorrect;
    var before := page.quizState;
    page.Tick();
    stale := page.quizState == before;
  }
}
