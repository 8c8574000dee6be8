/** One completed prediction and how its displayed fields are derived
    from the classifier's output. */
module Prediction {
  import opened Wrappers

  const Diabetic := "Diabetic"
  const NonDiabetic := "Non-Diabetic"

  /** Shown as the confidence when the loaded model has no probability estimate. */
  const NotAvailable := "N/A"

  /** A history entry, with the five fields the predict handler stores. */
  datatype Record = Record(
    name: string,
    result: string,
    age: int,
    timestamp: string,
    probability: string)

  /** What one click of the predict button hands to the handler: the typed
      patient name, the age from the form, the label the classifier returned,
      the clock reading and the formatted confidence (`None` when the model
      offers no probability estimate). */
  datatype Submission = Submission(
    name: string,
    predictedLabel: int,
    age: int,
    timestamp: string,
    probability: Option<string>)

  /** The label-to-text mapping: only label 1 reads as diabetic. */
  function ResultStr(predictedLabel: int): (r: string)
    ensures r == Diabetic <==> predictedLabel == 1
    ensures r == NonDiabetic <==> predictedLabel != 1
  {
    if predictedLabel == 1 then Diabetic else NonDiabetic
  }

  /** Helper of `BuildRecord`: the confidence text shown for a record. */
  function ProbabilityText(p: Option<string>): (text: string)
  {
    match p
    case Some(text) => text
    case None => NotAvailable
  }

  /** The record the handler builds for an accepted submission. */
  function BuildRecord(sub: Submission): (r: Record)
    ensures r.name == sub.name && r.age == sub.age && r.timestamp == sub.timestamp
    ensures r.result == Diabetic <==> sub.predictedLabel == 1
    ensures r.result == Diabetic || r.result == NonDiabetic
    ensures sub.probability.None? ==> r.probability == NotAvailable
    ensures sub.probability.Some? ==> r.probability == sub.probability.value
  {
    Record(sub.name, ResultStr(sub.predictedLabel), sub.age, sub.timestamp, ProbabilityText(sub.probability))
  }
}
