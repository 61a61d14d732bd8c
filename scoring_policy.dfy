/** The threshold policy that turns the classifier's top score into a
    sample status and a decision. It reads nothing but its arguments. */
module ScoringPolicy {
  import opened Domain

  datatype PolicyResult = PolicyResult(newStatus: SampleStatus, decision: Decision, resultLabel: string)

  /** At or above High: accepted. Otherwise at or below Low: rejected.
      Strictly between: sent to a human. The High test comes first, so it
      wins when the thresholds overlap. The label passes through untouched. */
  function Evaluate(score: real, predictedLabel: string, settings: SystemSettings): (r: PolicyResult)
    ensures r.resultLabel == predictedLabel
    ensures r.decision == AutoAccept <==> score >= settings.autoThresholdHigh
    ensures r.decision == AutoReject <==> score < settings.autoThresholdHigh && score <= settings.autoThresholdLow
    ensures r.decision == Decision.PendingReview <==>
              settings.autoThresholdLow < score < settings.autoThresholdHigh
    ensures r.newStatus == Scored <==> r.decision != Decision.PendingReview
    ensures r.newStatus in {Scored, SampleStatus.PendingReview}
    ensures r.decision !in {Undecided, Alert}
  {
    if score >= settings.autoThresholdHigh then
      PolicyResult(Scored, AutoAccept, predictedLabel)
    else if score <= settings.autoThresholdLow then
      PolicyResult(Scored, AutoReject, predictedLabel)
    else
      PolicyResult(SampleStatus.PendingReview, Decision.PendingReview, predictedLabel)
  }

  /** How favourable a decision is: reject, then review, then accept. */
  function Rank(d: Decision): nat
  {
    match d
    case AutoReject => 0
    case PendingReview => 1
    case AutoAccept => 2
    case _ => 1
  }

  /** A higher score never gets a less favourable decision. */
  lemma EvaluateMonotone(s1: real, s2: real, predictedLabel: string, settings: SystemSettings)
    requires s1 <= s2
    ensures Rank(Evaluate(s1, predictedLabel, settings).decision) <= Rank(Evaluate(s2, predictedLabel, settings).decision)
  {
  }

  /** With ordered thresholds the three outcomes are exactly the three
      score bands, both boundaries inclusive on the automatic side. */
  lemma PolicyBands(score: real, predictedLabel: string, settings: SystemSettings)
    requires settings.autoThresholdLow < settings.autoThresholdHigh
    ensures Evaluate(score, predictedLabel, settings).decision == AutoAccept <==> score >= settings.autoThresholdHigh
    ensures Evaluate(score, predictedLabel, settings).decision == AutoReject <==> score <= settings.autoThresholdLow
    ensures Evaluate(score, predictedLabel, settings).decision == Decision.PendingReview <==>
              settings.autoThresholdLow < score < settings.autoThresholdHigh
  {
  }

  /** The placeholder a classifier without a model returns ("Unknown" at
      0.0) is rejected automatically under the default thresholds; it is not
      sent to review. */
  lemma UnknownIsRejectedByDefault()
    ensures Evaluate(0.0, "Unknown", DefaultSettings()) == PolicyResult(Scored, AutoReject, "Unknown")
  {
  }

  /** Under the defaults: 0.95 is accepted, 0.50 goes to review, and both
      thresholds themselves are decided automatically. */
  lemma DefaultScenarios()
    ensures Evaluate(0.95, PollenLabel, DefaultSettings()) == PolicyResult(Scored, AutoAccept, PollenLabel)
    ensures Evaluate(0.50, PollenLabel, DefaultSettings())
              == PolicyResult(SampleStatus.PendingReview, Decision.PendingReview, PollenLabel)
    ensures Evaluate(0.90, PollenLabel, DefaultSettings()).decision == AutoAccept
    ensures Evaluate(0.15, PollenLabel, DefaultSettings()).decision == AutoReject
  {
  }
}
