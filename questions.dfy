/**
 * Questions as the question service delivers them, and the answer evaluator
 * of `handleAnswer`: the `find` on the choice id and the `is_correct === 1` test.
 */
module Questions {
  import opened Wrappers

  /** A choice; `isCorrect` is the service's numeric flag, correct when it is exactly 1. */
  datatype Choice = Choice(id: int, text: string, isCorrect: int)

  datatype Question = Question(id: int, text: string, choices: seq<Choice>)

  /** Choice ids are unique within a question. */
  predicate UniqueIds(choices: seq<Choice>) {
    forall i, j :: 0 <= i < j < |choices| ==> choices[i].id != choices[j].id
  }

  /** The position of the first choice with the given id, as `Array.prototype.find` picks it. */
  function FindChoice(choices: seq<Choice>, id: int): (r: Option<nat>)
    ensures r.Some? ==> r.value < |choices| && choices[r.value].id == id
    ensures r.Some? ==> forall k :: 0 <= k < r.value ==> choices[k].id != id
    ensures r.None? <==> forall k :: 0 <= k < |choices| ==> choices[k].id != id
  {
    if choices == [] then None
    else if choices[0].id == id then Some(0)
    else
      match FindChoice(choices[1..], id)
      case None => None
      case Some(k) => Some(k + 1)
  }

  /** Choice `k` is the first one carrying `id`, and it is marked correct. */
  predicate FirstMarkedAt(choices: seq<Choice>, id: int, k: int) {
    && 0 <= k < |choices| && choices[k].id == id && choices[k].isCorrect == 1
    && forall j :: 0 <= j < k ==> choices[j].id != id
  }

  /** The first choice carrying `id` is marked correct. */
  predicate FirstMatchMarked(choices: seq<Choice>, id: int) {
    exists k :: 0 <= k < |choices| && FirstMarkedAt(choices, id, k)
  }

  /** JavaScript truthiness of the selected id: `null` and `0` are falsy. */
  predicate Truthy(selected: Option<int>) {
    selected.Some? && selected.value != 0
  }

  /**
   * The value `handleAnswer` sends as `is_correct`. `None` is JavaScript's
   * `undefined`, which `JSON.stringify` leaves out: the selected id matched no choice.
   */
  function RecordedCorrectness(q: Question, selected: Option<int>, isTimeout: bool): (r: Option<bool>)
    ensures r.None? <==> !isTimeout && Truthy(selected) && FindChoice(q.choices, selected.value).None?
    ensures (isTimeout || !Truthy(selected)) ==> r == Some(false)
    ensures r == Some(true) <==>
      && !isTimeout && Truthy(selected)
      && exists k :: 0 <= k < |q.choices| && q.choices[k].id == selected.value && q.choices[k].isCorrect == 1
           && FindChoice(q.choices, selected.value) == Some(k)
  {
    if !isTimeout && Truthy(selected) then
      match FindChoice(q.choices, selected.value)
      case None => None
      case Some(k) => Some(q.choices[k].isCorrect == 1)
    else
      Some(false)
  }

  /** The outcome that decides hearts and score: only a truthy `is_correct` counts. */
  function Evaluate(q: Question, selected: Option<int>, isTimeout: bool): (ok: bool)
    ensures isTimeout ==> !ok
    ensures !Truthy(selected) ==> !ok
    ensures ok ==> exists k :: 0 <= k < |q.choices| && q.choices[k].id == selected.value && q.choices[k].isCorrect == 1
    ensures Truthy(selected) && (forall k :: 0 <= k < |q.choices| ==> q.choices[k].id != selected.value) ==> !ok
  {
    RecordedCorrectness(q, selected, isTimeout) == Some(true)
  }

  /**
   * With unique choice ids the evaluator is exactly "the selected choice is
   * marked correct", for every selection other than a timeout and the falsy id 0.
   */
  lemma EvaluateUnique(q: Question, id: int)
    requires UniqueIds(q.choices)
    requires id != 0
    ensures Evaluate(q, Some(id), false) <==>
      exists k :: 0 <= k < |q.choices| && q.choices[k].id == id && q.choices[k].isCorrect == 1
  {
    if k :| 0 <= k < |q.choices| && q.choices[k].id == id && q.choices[k].isCorrect == 1 {
      assert FindChoice(q.choices, id) == Some(k);
    }
  }
}
