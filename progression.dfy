/**
 * The counters of an attempt (`current`, `hearts`, `score`), the effect of one
 * resolution in `handleAnswer`, the termination test of `displayQuestion`, and
 * whole runs of resolutions.
 */
module Progression {

  /** Hearts a quiz starts with, in every difficulty. */
  const MaxHearts: int := 7

  datatype Progress = Progress(current: nat, hearts: int, score: nat)

  /** The counters after a successful start or a restart. */
  const Initial: Progress := Progress(0, MaxHearts, 0)

  /** Every resolved question either scored or cost a heart. */
  predicate Balanced(p: Progress) {
    p.score + (MaxHearts - p.hearts) == p.current
  }

  /** The test at the top of `displayQuestion`: no question left, or no heart left. */
  predicate Terminated(p: Progress, total: nat) {
    p.current >= total || p.hearts <= 0
  }

  /** One resolution: a correct answer scores, a wrong one or a timeout costs a heart; the index advances. */
  function Resolve(p: Progress, correct: bool): Progress {
    if correct then Progress(p.current + 1, p.hearts, p.score + 1)
    else Progress(p.current + 1, p.hearts - 1, p.score)
  }

  /** A resolution moves the counters by exactly one step each way and keeps them balanced. */
  lemma ResolveStep(p: Progress, correct: bool)
    requires Balanced(p)
    ensures var r := Resolve(p, correct);
      && Balanced(r)
      && r.current == p.current + 1
      && (correct ==> r.score == p.score + 1 && r.hearts == p.hearts)
      && (!correct ==> r.hearts == p.hearts - 1 && r.score == p.score)
  {
  }

  /**
   * A run: the outcomes are resolved one after another, each only when the
   * termination test lets a further question be shown.
   */
  function Play(p: Progress, outcomes: seq<bool>, total: nat): Progress
    decreases |outcomes|
  {
    if outcomes == [] || Terminated(p, total) then p
    else Play(Resolve(p, outcomes[0]), outcomes[1..], total)
  }

  /**
   * A run is resolved one outcome at a time: one more outcome resolves one
   * more question, unless the run has already terminated, which it then ignores.
   */
  lemma {:induction false} PlaySnoc(p: Progress, outcomes: seq<bool>, x: bool, total: nat)
    ensures var q := Play(p, outcomes, total);
      Play(p, outcomes + [x], total) == if Terminated(q, total) then q else Resolve(q, x)
    decreases |outcomes|
  {
    if outcomes == [] {
      assert outcomes + [x] == [x];
    } else if !Terminated(p, total) {
      assert (outcomes + [x])[1..] == outcomes[1..] + [x];
      PlaySnoc(Resolve(p, outcomes[0]), outcomes[1..], x, total);
    }
  }

  /** The same step on the prefixes of one list of outcomes. */
  lemma PlayPrefix(p: Progress, outcomes: seq<bool>, i: nat, total: nat)
    requires i < |outcomes|
    ensures var q := Play(p, outcomes[..i], total);
      Play(p, outcomes[..i + 1], total) == if Terminated(q, total) then q else Resolve(q, outcomes[i])
  {
    assert outcomes[..i + 1] == outcomes[..i] + [outcomes[i]];
    PlaySnoc(p, outcomes[..i], outcomes[i], total);
  }

  /**
   * Across any run hearts never rise, score never falls, and the balance
   * `score + (7 - hearts) == current` is kept; each outcome advances at most one question.
   */
  lemma {:induction false} PlayMonotone(p: Progress, outcomes: seq<bool>, total: nat)
    requires Balanced(p)
    ensures var q := Play(p, outcomes, total);
      && Balanced(q)
      && q.hearts <= p.hearts
      && q.score >= p.score
      && p.current <= q.current <= p.current + |outcomes|
    decreases |outcomes|
  {
    if outcomes != [] && !Terminated(p, total) {
      PlayMonotone(Resolve(p, outcomes[0]), outcomes[1..], total);
    }
  }

  /** A run that started inside the bounds stays inside them: no index past the end, no negative hearts. */
  lemma {:induction false} PlayWithinBounds(p: Progress, outcomes: seq<bool>, total: nat)
    requires p.current <= total && p.hearts >= 0
    ensures Play(p, outcomes, total).current <= total && Play(p, outcomes, total).hearts >= 0
    decreases |outcomes|
  {
    if outcomes != [] && !Terminated(p, total) {
      PlayWithinBounds(Resolve(p, outcomes[0]), outcomes[1..], total);
    }
  }

  /** A run stops early (outcomes left over) only because the quiz has terminated. */
  lemma {:induction false} PlayStopsOnlyWhenTerminated(p: Progress, outcomes: seq<bool>, total: nat)
    ensures Play(p, outcomes, total).current < p.current + |outcomes| ==> Terminated(Play(p, outcomes, total), total)
    decreases |outcomes|
  {
    if outcomes != [] && !Terminated(p, total) {
      PlayStopsOnlyWhenTerminated(Resolve(p, outcomes[0]), outcomes[1..], total);
    }
  }

  /** Enough outcomes always end the quiz: one per question left suffices. */
  lemma {:induction false} PlayEnds(p: Progress, outcomes: seq<bool>, total: nat)
    requires p.current + |outcomes| >= total
    ensures Terminated(Play(p, outcomes, total), total)
    decreases |outcomes|
  {
    if outcomes != [] && !Terminated(p, total) {
      PlayEnds(Resolve(p, outcomes[0]), outcomes[1..], total);
    }
  }

  function Min(a: int, b: int): int {
    if a <= b then a else b
  }

  /**
   * A run of timeouts only: each costs a heart and scores nothing, and the run
   * ends after `min(hearts, questions left)` of them.
   */
  lemma {:induction false} PlayTimeouts(p: Progress, outcomes: seq<bool>, total: nat)
    requires p.hearts >= 0 && p.current <= total
    requires forall i :: 0 <= i < |outcomes| ==> !outcomes[i]
    requires |outcomes| >= Min(p.hearts, total - p.current)
    ensures var k := Min(p.hearts, total - p.current);
      Play(p, outcomes, total) == Progress(p.current + k, p.hearts - k, p.score)
    decreases |outcomes|
  {
    if outcomes != [] && !Terminated(p, total) {
      PlayTimeouts(Resolve(p, outcomes[0]), outcomes[1..], total);
    }
  }

  /** From the start, an all-timeout run ends after exactly `min(7, |questions|)` questions with no score. */
  lemma AllTimeoutsFromStart(outcomes: seq<bool>, total: nat)
    requires forall i :: 0 <= i < |outcomes| ==> !outcomes[i]
    requires |outcomes| >= Min(MaxHearts, total)
    ensures Play(Initial, outcomes, total) == Progress(Min(MaxHearts, total), MaxHearts - Min(MaxHearts, total), 0)
    ensures Terminated(Play(Initial, outcomes, total), total)
  {
    PlayTimeouts(Initial, outcomes, total);
  }
}
