/** The retrain agent's step: when enough new gold data has accumulated,
    hand the gold samples to the trainer and reset the gold counter. */
module RetrainAgent {
  import opened Domain
  import opened Store

  /** What a completed retrain reports: the trainer's version string and
      the number of gold samples it was given. */
  datatype RetrainResult = RetrainResult(newModelVersion: string, trainingCount: int)

  /** Gold data: reviewed by a human and carrying a non-null, non-empty
      label. */
  predicate IsGold(row: SampleRow)
  {
    row.status == Reviewed && row.humanLabel.Some? && row.humanLabel.value != ""
  }

  /** The gold query: the gold rows, in table order. */
  function GoldSet(rows: seq<SampleRow>): (gold: seq<SampleRow>)
    ensures |gold| <= |rows|
    ensures forall row :: row in gold <==> row in rows && IsGold(row)
    ensures rows != [] && IsGold(rows[0]) ==> gold != [] && gold[0] == rows[0]
  {
    if rows == [] then []
    else (if IsGold(rows[0]) then [rows[0]] else []) + GoldSet(rows[1..])
  }

  /** The first two gates: a settings record exists, retraining is
      enabled, and the counter has reached the threshold (equality passes). */
  predicate CounterGateOpen(settings: Option<SystemSettings>)
  {
    settings.Some? && settings.value.isRetrainEnabled
    && settings.value.newGoldSinceLastTrain >= settings.value.retrainGoldThreshold
  }

  /** One step of the retrain agent. `train` is the trainer; `trainedOn`
      records the list it was called with, or None when it was not called. */
  method Step(db: AppDb, train: seq<SampleRow> -> string)
    returns (r: Option<RetrainResult>, trainedOn: Option<seq<SampleRow>>)
    modifies db`settings
    ensures !CounterGateOpen(old(db.settings)) ==>
              r == None && trainedOn == None && db.settings == old(db.settings)
    ensures CounterGateOpen(old(db.settings)) && GoldSet(old(db.Rows())) == [] ==>
              r == None && trainedOn == None && db.settings == old(db.settings)
    ensures CounterGateOpen(old(db.settings)) && GoldSet(old(db.Rows())) != [] ==>
              var gold := GoldSet(old(db.Rows()));
              && trainedOn == Some(gold)
              && (train(gold) == SkippedBadData ==> r == None && db.settings == old(db.settings))
              && (train(gold) != SkippedBadData ==>
                    r == Some(RetrainResult(train(gold), |gold|))
                    && db.settings == Some(old(db.settings).value.(newGoldSinceLastTrain := 0)))
  {
    trainedOn := None;
    var settings := db.settings;
    if settings.None? || !settings.value.isRetrainEnabled {
      return None, trainedOn;
    }
    if settings.value.newGoldSinceLastTrain < settings.value.retrainGoldThreshold {
      return None, trainedOn;
    }
    var goldSamples := GoldSet(db.Rows());
    if |goldSamples| == 0 {
      return None, trainedOn;
    }
    var newModelVersion := train(goldSamples);
    trainedOn := Some(goldSamples);
    if newModelVersion == SkippedBadData {
      return None, trainedOn;
    }
    db.settings := Some(settings.value.(newGoldSinceLastTrain := 0));
    r := Some(RetrainResult(newModelVersion, |goldSamples|));
  }

  /** A non-empty gold set is exactly one that holds a gold row. */
  lemma GoldSetEmptyIff(rows: seq<SampleRow>)
    ensures GoldSet(rows) == [] <==> forall i :: 0 <= i < |rows| ==> !IsGold(rows[i])
  {
    if GoldSet(rows) == [] {
      forall i | 0 <= i < |rows|
        ensures !IsGold(rows[i])
      {
        assert rows[i] in rows;
      }
    } else {
      assert GoldSet(rows)[0] in GoldSet(rows);
    }
  }

  /** Filtering twice changes nothing: the gold set of the gold set is
      itself. */
  lemma {:induction false} GoldSetIdempotent(rows: seq<SampleRow>)
    ensures GoldSet(GoldSet(rows)) == GoldSet(rows)
  {
    if rows != [] {
      var rest := GoldSet(rows[1..]);
      GoldSetIdempotent(rows[1..]);
      if IsGold(rows[0]) {
        var g := [rows[0]] + rest;
        assert GoldSet(rows) == g;
        assert g[0] == rows[0] && g[1..] == rest;
        assert GoldSet(g) == [rows[0]] + GoldSet(rest);
      } else {
        assert GoldSet(rows) == [] + rest == rest;
      }
    }
  }

  /** One row in front: the gold set gains that row exactly when it is
      gold. */
  lemma GoldSetCons(row: SampleRow, rest: seq<SampleRow>)
    ensures GoldSet([row] + rest) == (if IsGold(row) then [row] else []) + GoldSet(rest)
  {
    assert ([row] + rest)[1..] == rest;
  }

  /** The gold set of a concatenation is the concatenation of the gold
      sets. */
  lemma {:induction false} GoldSetAppend(a: seq<SampleRow>, b: seq<SampleRow>)
    ensures GoldSet(a + b) == GoldSet(a) + GoldSet(b)
  {
    if a == [] {
      assert a + b == b;
    } else {
      var head := if IsGold(a[0]) then [a[0]] else [];
      calc {
        GoldSet(a + b);
      == { assert a + b == [a[0]] + (a[1..] + b); }
        GoldSet([a[0]] + (a[1..] + b));
      == { GoldSetCons(a[0], a[1..] + b); }
        head + GoldSet(a[1..] + b);
      == { GoldSetAppend(a[1..], b); }
        head + (GoldSet(a[1..]) + GoldSet(b));
      == { assert head + (GoldSet(a[1..]) + GoldSet(b)) == (head + GoldSet(a[1..])) + GoldSet(b); }
        (head + GoldSet(a[1..])) + GoldSet(b);
      == { GoldSetCons(a[0], a[1..]); assert [a[0]] + a[1..] == a; }
        GoldSet(a) + GoldSet(b);
      }
    }
  }
}
