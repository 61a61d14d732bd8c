/** The state effects of the admin endpoints: forcing a retrain by setting
    the gold counter, the "will train on the next cycle" flag of the status
    report, and wiping the sample and prediction tables. */
module AdminController {
  import opened Domain
  import opened Store

  /** The number of Reviewed rows, whether or not they carry a label. */
  function CountReviewed(rows: seq<SampleRow>): (n: nat)
    ensures n <= |rows|
    ensures n == 0 <==> forall i :: 0 <= i < |rows| ==> rows[i].status != Reviewed
  {
    if rows == [] then 0
    else (if rows[0].status == Reviewed then 1 else 0) + CountReviewed(rows[1..])
  }

  datatype TriggerOutcome =
    | SettingsNotFound                            // 404
    | NoGoldSamples                               // 400
    | RetrainTriggered(goldSamples: nat, threshold: int)

  /** Trigger-retrain: the counter becomes the number of Reviewed samples,
      so that the retrain agent's counter gate sees all of them at once. */
  method TriggerRetrain(db: AppDb) returns (r: TriggerOutcome)
    modifies db`settings
    ensures old(db.settings).None? ==> r == SettingsNotFound && db.settings == old(db.settings)
    ensures old(db.settings).Some? && CountReviewed(db.Rows()) == 0 ==>
              r == NoGoldSamples && db.settings == old(db.settings)
    ensures old(db.settings).Some? && CountReviewed(db.Rows()) > 0 ==>
              && r == RetrainTriggered(CountReviewed(db.Rows()), old(db.settings).value.retrainGoldThreshold)
              && db.settings == Some(old(db.settings).value.(newGoldSinceLastTrain := CountReviewed(db.Rows())))
  {
    var settings := db.settings;
    if settings.None? {
      return SettingsNotFound;
    }
    var goldCount := CountReviewed(db.Rows());
    if goldCount == 0 {
      return NoGoldSamples;
    }
    db.settings := Some(settings.value.(newGoldSinceLastTrain := goldCount));
    r := RetrainTriggered(goldCount, settings.value.retrainGoldThreshold);
  }

  /** The status report's flag: counter at or above threshold, reading a
      missing record as counter 0 and threshold 50. */
  function WillTrainOnNextCycle(settings: Option<SystemSettings>): (will: bool)
    ensures settings.None? ==> !will
    ensures settings.Some? ==>
              (will <==> settings.value.newGoldSinceLastTrain >= settings.value.retrainGoldThreshold)
  {
    var counter := if settings.Some? then settings.value.newGoldSinceLastTrain else 0;
    var threshold := if settings.Some? then settings.value.retrainGoldThreshold else DefaultRetrainGoldThreshold;
    counter >= threshold
  }

  /** Reset: every prediction and every sample removed, the counter zeroed
      when a settings record exists, everything else about the record kept.
      Returns the numbers of predictions and samples removed. */
  method ResetDatabase(db: AppDb) returns (deletedPredictions: nat, deletedSamples: nat)
    requires db.Valid()
    modifies db`samples, db`predictions, db`settings
    ensures db.Valid()
    ensures db.samples == [] && db.predictions == []
    ensures deletedPredictions == |old(db.predictions)| && deletedSamples == |old(db.samples)|
    ensures old(db.settings).None? ==> db.settings == None
    ensures old(db.settings).Some? ==>
              db.settings == Some(old(db.settings).value.(newGoldSinceLastTrain := 0))
  {
    deletedPredictions := |db.predictions|;
    db.predictions := [];
    deletedSamples := |db.samples|;
    db.samples := [];
    var settings := db.settings;
    if settings.Some? {
      db.settings := Some(settings.value.(newGoldSinceLastTrain := 0));
    }
  }

  /** Right after a reset the flag is off unless the threshold is zero or
      negative. */
  lemma ResetClearsFlag(s: SystemSettings)
    requires s.retrainGoldThreshold > 0
    ensures !WillTrainOnNextCycle(Some(s.(newGoldSinceLastTrain := 0)))
  {
  }

  /** After a successful trigger the flag is on exactly when the number of
      Reviewed samples has reached the threshold. */
  lemma TriggerSetsFlag(s: SystemSettings, rows: seq<SampleRow>)
    requires CountReviewed(rows) > 0
    ensures WillTrainOnNextCycle(Some(s.(newGoldSinceLastTrain := CountReviewed(rows))))
        <==> CountReviewed(rows) >= s.retrainGoldThreshold
  {
  }

  /** Counting the Reviewed rows of two tables together adds their counts. */
  lemma {:induction false} CountReviewedAppend(a: seq<SampleRow>, b: seq<SampleRow>)
    ensures CountReviewed(a + b) == CountReviewed(a) + CountReviewed(b)
  {
    if a == [] {
      assert a + b == b;
    } else {
      assert (a + b)[1..] == a[1..] + b;
      CountReviewedAppend(a[1..], b);
    }
  }
}
