/** How the agents and endpoints fit together on the sample table: which
    writes can add gold data, how the admin count relates to the gold query
    the retrain agent runs, and how the status flag relates to the retrain
    agent's counter gate. */
module Pipeline {
  import opened Domain
  import ScoringPolicy
  import ScoringAgent
  import RetrainAgent
  import SamplesController
  import AdminController
  import Store
  import TrainingService
  import DatabaseSeeder

  /** Every Reviewed row carries a non-empty label. Review writes both
      fields together and the seeder stores labelled Reviewed rows, so the
      tables they build satisfy this. */
  ghost predicate ReviewedAreLabelled(rows: seq<SampleRow>)
  {
    forall i :: 0 <= i < |rows| && rows[i].status == Reviewed ==>
      rows[i].humanLabel.Some? && rows[i].humanLabel.value != ""
  }

  /** On such a table the admin trigger's count of Reviewed rows is the size
      of the gold set the retrain agent hands to the trainer. */
  lemma {:induction false} TriggerCountIsGoldCount(rows: seq<SampleRow>)
    requires ReviewedAreLabelled(rows)
    ensures AdminController.CountReviewed(rows) == |RetrainAgent.GoldSet(rows)|
  {
    if rows != [] {
      assert ReviewedAreLabelled(rows[1..]) by {
        forall i | 0 <= i < |rows[1..]| && rows[1..][i].status == Reviewed
          ensures rows[1..][i].humanLabel.Some? && rows[1..][i].humanLabel.value != ""
        {
          assert rows[1..][i] == rows[i + 1];
        }
      }
      TriggerCountIsGoldCount(rows[1..]);
    }
  }

  /** A review keeps every Reviewed row labelled. */
  lemma ReviewKeepsLabelled(rows: seq<SampleRow>, request: SamplesController.ReviewRequest)
    requires ReviewedAreLabelled(rows)
    ensures ReviewedAreLabelled(SamplesController.ReviewOnce(rows, request))
  {
  }

  /** So does a bulk review, whatever its requests. */
  lemma {:induction false} BulkReviewKeepsLabelled(rows: seq<SampleRow>,
                                                   requests: seq<SamplesController.ReviewRequest>)
    requires ReviewedAreLabelled(rows)
    ensures ReviewedAreLabelled(SamplesController.ApplyReviews(rows, requests))
    decreases |requests|
  {
    if requests != [] {
      BulkReviewKeepsLabelled(rows, requests[..|requests| - 1]);
      ReviewKeepsLabelled(SamplesController.ApplyReviews(rows, requests[..|requests| - 1]),
                          requests[|requests| - 1]);
    }
  }

  /** A scoring step keeps every Reviewed row labelled: the row it writes
      is Scored or PendingReview. */
  lemma ScoringKeepsLabelled(rows: seq<SampleRow>, score: real, predictedLabel: string,
                             settings: SystemSettings)
    requires ScoringAgent.OldestQueued(rows).Some? && ReviewedAreLabelled(rows)
    ensures var k := ScoringAgent.OldestQueued(rows).value;
            var d := ScoringPolicy.Evaluate(score, predictedLabel, settings);
            ReviewedAreLabelled(rows[k := ScoringAgent.ScoredRow(rows[k], d)])
  {
  }

  /** An upload keeps every Reviewed row labelled: the appended row is
      Queued. */
  lemma UploadKeepsLabelled(rows: seq<SampleRow>, added: SampleRow)
    requires added.status == Queued && ReviewedAreLabelled(rows)
    ensures ReviewedAreLabelled(rows + [added])
  {
  }

  /** Replacing a row that is not gold by another row that is not gold
      leaves the gold set as it was. */
  lemma {:induction false} NonGoldUpdateKeepsGold(rows: seq<SampleRow>, k: nat, row: SampleRow)
    requires k < |rows| && !RetrainAgent.IsGold(rows[k]) && !RetrainAgent.IsGold(row)
    ensures RetrainAgent.GoldSet(rows[k := row]) == RetrainAgent.GoldSet(rows)
  {
    var updated := rows[k := row];
    if k == 0 {
      assert updated[1..] == rows[1..];
    } else {
      assert updated[1..] == rows[1..][k - 1 := row];
      NonGoldUpdateKeepsGold(rows[1..], k - 1, row);
    }
  }

  /** A scoring step never creates gold data: it claims a Queued row and
      leaves it Scored or PendingReview, so the gold set the retrain agent
      sees is the same before and after. */
  lemma ScoringAddsNoGold(rows: seq<SampleRow>, score: real, predictedLabel: string,
                          settings: SystemSettings)
    requires ScoringAgent.OldestQueued(rows).Some?
    ensures var k := ScoringAgent.OldestQueued(rows).value;
            var d := ScoringPolicy.Evaluate(score, predictedLabel, settings);
            RetrainAgent.GoldSet(rows[k := ScoringAgent.ScoredRow(rows[k], d)]) == RetrainAgent.GoldSet(rows)
  {
    var k := ScoringAgent.OldestQueued(rows).value;
    var d := ScoringPolicy.Evaluate(score, predictedLabel, settings);
    NonGoldUpdateKeepsGold(rows, k, ScoringAgent.ScoredRow(rows[k], d));
  }

  /** An upload never creates gold data: the appended row is Queued. */
  lemma UploadAddsNoGold(rows: seq<SampleRow>, added: SampleRow)
    requires added.status == Queued
    ensures RetrainAgent.GoldSet(rows + [added]) == RetrainAgent.GoldSet(rows)
  {
    RetrainAgent.GoldSetAppend(rows, [added]);
    assert RetrainAgent.GoldSet([added]) == [];
  }

  /** A review makes the reviewed sample gold: after a review that finds its
      sample, the reviewed row is in the gold set. */
  lemma ReviewMakesGold(rows: seq<SampleRow>, request: SamplesController.ReviewRequest)
    requires Store.FindRow(rows, request.sampleId).Some?
    ensures var k := Store.FindRow(rows, request.sampleId).value;
            SamplesController.ReviewRow(rows[k], request.isPollen)
              in RetrainAgent.GoldSet(SamplesController.ReviewOnce(rows, request))
  {
    var k := Store.FindRow(rows, request.sampleId).value;
    var after := SamplesController.ReviewOnce(rows, request);
    assert after[k] == SamplesController.ReviewRow(rows[k], request.isPollen);
    assert after[k] in after;
  }

  /** The status flag and the retrain agent's counter gate agree whenever
      retraining is enabled; with no settings record neither fires. */
  lemma FlagMatchesGate(settings: Option<SystemSettings>)
    requires settings.None? || settings.value.isRetrainEnabled
    ensures AdminController.WillTrainOnNextCycle(settings) <==> RetrainAgent.CounterGateOpen(settings)
  {
  }

  /** With retraining disabled the flag can still be on while the gate is
      shut: the flag does not look at the enabled switch. */
  lemma FlagIgnoresEnabled(s: SystemSettings)
    requires !s.isRetrainEnabled && s.newGoldSinceLastTrain >= s.retrainGoldThreshold
    ensures AdminController.WillTrainOnNextCycle(Some(s)) && !RetrainAgent.CounterGateOpen(Some(s))
  {
  }

  /** A table of gold rows is its own gold set. */
  lemma {:induction false} AllGoldIsGoldSet(rows: seq<SampleRow>)
    requires forall k :: 0 <= k < |rows| ==> RetrainAgent.IsGold(rows[k])
    ensures RetrainAgent.GoldSet(rows) == rows
  {
    if rows != [] {
      AllGoldIsGoldSet(rows[1..]);
    }
  }

  /** A table that is its own gold set, as a seeded one is, has every
      Reviewed row labelled. */
  lemma GoldTableLabelled(rows: seq<SampleRow>)
    requires RetrainAgent.GoldSet(rows) == rows
    ensures ReviewedAreLabelled(rows)
  {
    forall i | 0 <= i < |rows|
      ensures RetrainAgent.IsGold(rows[i])
    {
      assert rows[i] in RetrainAgent.GoldSet(rows);
    }
  }

  /** Rows laid out as the seeder stores them (the Pollen block, then the
      NoPollen block, all Reviewed and labelled) are all gold and hold both
      classes. */
  lemma SeededRowsTrain(rows: seq<SampleRow>, pollenPaths: seq<string>,
                        keptNoPollen: seq<DatabaseSeeder.ImageEntry>, now: int)
    requires |pollenPaths| == DatabaseSeeder.TargetPerClass && |keptNoPollen| > 0
    requires |rows| == DatabaseSeeder.TargetPerClass + |keptNoPollen|
    requires forall k :: 0 <= k < DatabaseSeeder.TargetPerClass ==>
               DatabaseSeeder.IsSeededRow(rows[k], pollenPaths[k], PollenLabel, now)
    requires forall k :: 0 <= k < |keptNoPollen| ==>
               DatabaseSeeder.IsSeededRow(rows[DatabaseSeeder.TargetPerClass + k], keptNoPollen[k].path,
                                          NoPollenLabel, now)
    ensures RetrainAgent.GoldSet(rows) == rows
    ensures TrainingService.HasBothClasses(RetrainAgent.GoldSet(rows))
  {
    forall k | 0 <= k < |rows|
      ensures RetrainAgent.IsGold(rows[k])
    {
      if k >= DatabaseSeeder.TargetPerClass {
        var m := k - DatabaseSeeder.TargetPerClass;
        assert DatabaseSeeder.IsSeededRow(rows[DatabaseSeeder.TargetPerClass + m], keptNoPollen[m].path,
                                          NoPollenLabel, now);
      }
    }
    AllGoldIsGoldSet(rows);
    assert rows[0].humanLabel == Some(PollenLabel);
    assert DatabaseSeeder.IsSeededRow(rows[DatabaseSeeder.TargetPerClass + 0], keptNoPollen[0].path,
                                      NoPollenLabel, now);
  }

  /** A seeded table is all gold and holds both classes, so the first
      retrain hands the trainer every seeded sample and the trainer's class
      check passes. */
  lemma SeededTableTrains(db: Store.AppDb, pollenImages: seq<DatabaseSeeder.ImageEntry>,
                          keptNoPollen: seq<DatabaseSeeder.ImageEntry>, now: int)
    requires |pollenImages| > 0 && |keptNoPollen| > 0
    requires DatabaseSeeder.SeededTable(db.samples, pollenImages, keptNoPollen, now)
    ensures RetrainAgent.GoldSet(db.Rows()) == db.Rows()
    ensures TrainingService.HasBothClasses(RetrainAgent.GoldSet(db.Rows()))
  {
    var rows := db.Rows();
    var n := |pollenImages|;
    var pollenPaths := seq(DatabaseSeeder.TargetPerClass, k requires 0 <= k => pollenImages[k % n].path);
    assert forall k :: 0 <= k < |rows| ==> rows[k] == db.samples[k].Row();
    SeededRowsTrain(rows, pollenPaths, keptNoPollen, now);
  }
}
