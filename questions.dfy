/**
 * The question record exchanged between the server and the browser, in its two
 * shapes. The `options` object of a multiple-choice question is kept as its list
 * of (key, value) entries in insertion order. `Object.entries` visits string
 * keys in that order only when none of them looks like an array index (such
 * keys come first, in ascending numeric order); option keys are assumed to be
 * letters or other non-integer strings, as the placeholders and the prompt use.
 */
module Questions {

  datatype Question =
    | MultipleChoice(question: string, options: seq<(string, string)>, correctAnswer: string)
    | ShortAnswer(question: string, sampleAnswer: string)

  /** The `type` field of the JSON record. */
  function TypeTag(q: Question): string {
    if q.MultipleChoice? then "multiple_choice" else "short_answer"
  }

  predicate HasKey(options: seq<(string, string)>, key: string) {
    exists j :: 0 <= j < |options| && options[j].0 == key
  }

  predicate DistinctKeys(options: seq<(string, string)>) {
    forall i, j :: 0 <= i < j < |options| ==> options[i].0 != options[j].0
  }

  /** The data-model invariant: `correct_answer` names one of the keys of `options`. */
  predicate WellFormed(q: Question) {
    q.MultipleChoice? ==> DistinctKeys(q.options) && HasKey(q.options, q.correctAnswer)
  }
}
