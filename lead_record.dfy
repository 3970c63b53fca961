/**
  The lead record as the dashboard receives it from `GET /leads` (one JSON object per
  row of the backend's `leads` table), and the parts of JavaScript's value semantics the
  dashboard relies on: numbers that may be missing, and truthiness.

  A text field that is missing, `null` or empty is modelled as the empty string: every
  use in the dashboard treats these alike (all are falsy, and none equals a stage name).
*/
module LeadRecord {

  /** A JavaScript value that is meant to be a number: a weight typed into an input
      (`parseFloat` yields NaN for an empty or non-numeric input), or a score from a reply. */
  datatype JsNum = Undefined | Null | NaN | Num(value: real)

  /** JavaScript truthiness of such a value: `undefined`, `null`, `NaN` and `0` are falsy. */
  predicate Truthy(n: JsNum)
  {
    n.Num? && n.value != 0.0
  }

  /** JavaScript truthiness of a text field: only the empty string (or a missing value) is falsy. */
  predicate TruthyText(s: string)
  {
    s != ""
  }

  /** One lead as held by the dashboard. `budget` is the text `parseInt` sees. */
  datatype Lead = Lead(
    id: int,
    name: string,
    company: string,
    industry: string,
    budget: string,
    needs: string,
    score: JsNum,
    stage: string,
    lastMessage: string,
    interactionLog: string)
}
