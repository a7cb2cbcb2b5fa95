/** The answers a document or application form collects, keyed by field
    name, and the two rules both forms apply to them: an edit writes one
    key, and a missing or falsy answer shows as the empty string. */
module SubmissionData {
  import opened WorkflowTypes

  type Answers = map<string, Json>

  /** `{...data, [name]: value}`. */
  function SetAnswer(data: Answers, name: string, value: Json): (r: Answers)
    ensures name in r && r[name] == value
    ensures r.Keys == data.Keys + {name}
    ensures forall k :: k in data && k != name ==> r[k] == data[k]
  {
    data[name := value]
  }

  /** `data[name] || ''`. */
  function ShownAnswer(data: Answers, name: string): (r: Json)
    ensures name in data && Truthy(data[name]) ==> r == data[name]
    ensures !(name in data && Truthy(data[name])) ==> r == JStr("")
  {
    if name in data && Truthy(data[name]) then data[name] else JStr("")
  }

  /** What is typed into a field shows in that field (the empty answer shows
      as itself too); no other field's display changes. */
  lemma EditShows(data: Answers, name: string, other: string, typed: string)
    requires other != name
    ensures ShownAnswer(SetAnswer(data, name, JStr(typed)), name) == JStr(typed)
    ensures ShownAnswer(SetAnswer(data, name, JStr(typed)), other) == ShownAnswer(data, other)
  {
  }

  /** Edits of two different fields commute; a second edit of the same
      field overrides the first. */
  lemma EditsCommute(data: Answers, a: string, va: Json, b: string, vb: Json)
    ensures a != b ==> SetAnswer(SetAnswer(data, a, va), b, vb) == SetAnswer(SetAnswer(data, b, vb), a, va)
    ensures SetAnswer(SetAnswer(data, a, va), a, vb) == SetAnswer(data, a, vb)
  {
  }
}
