/** The scoring agent's step: claim the oldest Queued sample, classify its
    image, apply the threshold policy, store one prediction and the new
    status. */
module ScoringAgent {
  import opened Domain
  import opened Store
  import ScoringPolicy

  /** One entry of the classifier's label-to-score dictionary; the
      dictionary is given in its enumeration order. */
  datatype ClassScore = ClassScore(className: string, score: real)

  /** What a step reports, for observability only. */
  datatype ScoringTickResult = ScoringTickResult(
    sampleId: Guid, oldStatus: string, newStatus: string, score: real, decision: string)

  datatype StepOutcome =
    | NoWork                             // no Queued sample: the step returns null
    | Ticked(tick: ScoringTickResult)
    | EmptyClassifierResult(sampleId: Guid)  // `First()` on an empty dictionary throws

  /** The query "Queued samples ordered by capture time, first or default":
      the position of a Queued row whose capture time is the earliest among
      the Queued rows, or None when no row is Queued. */
  function OldestQueued(rows: seq<SampleRow>): (r: Option<nat>)
    ensures r.None? <==> forall i :: 0 <= i < |rows| ==> rows[i].status != Queued
    ensures r.Some? ==> r.value < |rows| && rows[r.value].status == Queued
    ensures r.Some? ==> forall i :: 0 <= i < |rows| && rows[i].status == Queued ==>
                          rows[r.value].capturedAt <= rows[i].capturedAt
  {
    if rows == [] then None
    else
      var rest := OldestQueued(rows[1..]);
      if rows[0].status != Queued then
        (match rest case None => None case Some(k) => Some(k + 1))
      else
        match rest
        case None => Some(0)
        case Some(k) => if rows[0].capturedAt <= rows[k + 1].capturedAt then Some(0) else Some(k + 1)
  }

  /** `OrderByDescending(score).First()`: the position of the first entry
      with the largest score (the sort is stable), or None when the
      dictionary is empty. */
  function BestMatch(entries: seq<ClassScore>): (r: Option<nat>)
    ensures r.None? <==> entries == []
    ensures r.Some? ==> r.value < |entries|
    ensures r.Some? ==> forall i :: 0 <= i < |entries| ==> entries[i].score <= entries[r.value].score
    ensures r.Some? ==> forall i :: 0 <= i < r.value ==> entries[i].score < entries[r.value].score
  {
    if entries == [] then None
    else
      var n := |entries| - 1;
      match BestMatch(entries[..n])
      case None => Some(n)
      case Some(b) => if entries[n].score > entries[b].score then Some(n) else Some(b)
  }

  /** The row a finished step leaves behind: the claimed row with the
      policy's status. */
  function ScoredRow(row: SampleRow, d: ScoringPolicy.PolicyResult): (scored: SampleRow)
    ensures scored.status == d.newStatus
    ensures scored.(status := row.status) == row
  {
    row.(status := d.newStatus)
  }

  /** One step of the scoring agent. `classify` is the classifier: the
      label-to-score dictionary it returns for an image path; `now` is the
      clock reading stamped on the prediction. */
  method Step(db: AppDb, classify: string -> seq<ClassScore>, now: int) returns (r: StepOutcome)
    requires db.Valid()
    modifies db, db.samples
    ensures db.Valid()
    ensures db.samples == old(db.samples) && db.settings == old(db.settings)
    ensures match OldestQueued(old(db.Rows()))
      case None =>
        r == NoWork && db.Rows() == old(db.Rows()) && db.predictions == old(db.predictions)
      case Some(k) =>
        var row := old(db.Rows())[k];
        var entries := classify(row.imagePath);
        match BestMatch(entries)
        case None =>
          // the claim is stored before the classifier runs, so it stays
          r == EmptyClassifierResult(row.id)
          && db.Rows() == old(db.Rows())[k := row.(status := Processing)]
          && db.predictions == old(db.predictions)
        case Some(b) =>
          var d := ScoringPolicy.Evaluate(entries[b].score, entries[b].className, SettingsOrDefaults(old(db.settings)));
          && db.Rows() == old(db.Rows())[k := ScoredRow(row, d)]
          && old(db.lastGuid) < db.lastGuid
          && db.predictions == old(db.predictions)
               + [Prediction(db.lastGuid, row.id, EmptyGuid, entries[b].score, entries[b].className, d.decision, now)]
          && r == Ticked(ScoringTickResult(row.id, "Queued", StatusName(d.newStatus), entries[b].score, DecisionName(d.decision)))
  {
    ghost var rows0 := db.Rows();
    var found := OldestQueued(db.Rows());
    if found.None? {
      return NoWork;
    }
    var k := found.value;
    var sample := db.samples[k];
    var claim := sample.MarkProcessing();
    if claim.Fail? {
      assert false;
    }
    assert db.Rows() == rows0[k := rows0[k].(status := Processing)];

    var entries := classify(sample.imagePath);
    var best := BestMatch(entries);
    if best.None? {
      return EmptyClassifierResult(sample.id);
    }
    var top := entries[best.value];
    var settings := SettingsOrDefaults(db.settings);
    var d := ScoringPolicy.Evaluate(top.score, top.className, settings);
    RecordDecision(db, k, sample, top, d, now);
    r := Ticked(ScoringTickResult(sample.id, "Queued", StatusName(d.newStatus), top.score, DecisionName(d.decision)));
  }

  /** The end of a step: a new prediction carrying the top entry and the
      decision (its model version left at Guid.Empty) joins the table, and
      the sample takes the policy's status. */
  method RecordDecision(db: AppDb, k: nat, sample: HiveImageSample, top: ClassScore,
                        d: ScoringPolicy.PolicyResult, now: int)
    requires db.Valid() && k < |db.samples| && db.samples[k] == sample
    modifies db`predictions, db`lastGuid, sample`status
    ensures db.Valid()
    ensures db.Rows() == old(db.Rows())[k := ScoredRow(old(db.Rows())[k], d)]
    ensures old(db.lastGuid) < db.lastGuid
    ensures db.predictions == old(db.predictions)
              + [Prediction(db.lastGuid, db.samples[k].id, EmptyGuid, top.score, top.className, d.decision, now)]
  {
    ghost var rows0 := db.Rows();
    var predictionId := db.NewGuid();
    db.predictions := db.predictions
      + [Prediction(predictionId, sample.id, EmptyGuid, top.score, top.className, d.decision, now)];
    assert db.SampleIds()[k] == sample.id;
    sample.status := d.newStatus;
    assert db.Rows() == rows0[k := ScoredRow(rows0[k], d)];
  }

  /** The claim is a lock: once the chosen sample is in Processing, the
      next selection cannot choose it again. */
  lemma ClaimedSampleIsNotReselected(rows: seq<SampleRow>)
    requires OldestQueued(rows).Some?
    ensures OldestQueued(rows[OldestQueued(rows).value := rows[OldestQueued(rows).value].(status := Processing)])
              != OldestQueued(rows)
  {
    var k := OldestQueued(rows).value;
    var after := rows[k := rows[k].(status := Processing)];
    assert after[k].status != Queued;
  }

  /** FIFO: of two Queued samples, the one captured strictly earlier is the
      one chosen first. */
  lemma OlderSampleFirst(rows: seq<SampleRow>, i: nat, j: nat)
    requires i < |rows| && j < |rows|
    requires rows[i].status == Queued && rows[j].status == Queued
    requires rows[i].capturedAt < rows[j].capturedAt
    ensures OldestQueued(rows).Some? && OldestQueued(rows).value != j
  {
  }
}
