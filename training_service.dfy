/** The trainer's control flow: two validations that answer with a
    sentinel instead of training, then fit and save, each of which can fail
    with its own sentinel. The machine-learning library, the file system and
    the clock are oracles given as parameters. */
module TrainingService {
  import opened Domain

  /** The answers that are not model versions (with SKIPPED_BAD_DATA). */
  const TrainingFailed: string := "TRAINING_FAILED"
  const SaveFailed: string := "SAVE_FAILED"

  /** Fewer existing image files than this and training is skipped. */
  const MinValidImages: nat := 10

  /** One training example: an image path and its class. */
  datatype ModelInput = ModelInput(imagePath: string, className: string)

  /** The number of samples whose label is exactly `className`. */
  function CountLabel(samples: seq<SampleRow>, className: string): (n: nat)
    ensures n <= |samples|
    ensures n == 0 <==> forall i :: 0 <= i < |samples| ==> samples[i].humanLabel != Some(className)
  {
    if samples == [] then 0
    else (if samples[0].humanLabel == Some(className) then 1 else 0) + CountLabel(samples[1..], className)
  }

  /** The samples whose image file exists, in order. */
  function ExistingImages(samples: seq<SampleRow>, fileExists: string -> bool): (valid: seq<SampleRow>)
    ensures |valid| <= |samples|
    ensures forall s :: s in valid <==> s in samples && fileExists(s.imagePath)
  {
    if samples == [] then []
    else (if fileExists(samples[0].imagePath) then [samples[0]] else [])
         + ExistingImages(samples[1..], fileExists)
  }

  /** The label a training example gets: the sample's label, or NoPollen
      when it has none. */
  function LabelOrNoPollen(humanLabel: Option<string>): (l: string)
    ensures humanLabel.Some? ==> l == humanLabel.value
    ensures humanLabel.None? ==> l == NoPollenLabel
  {
    match humanLabel
    case Some(v) => v
    case None => NoPollenLabel
  }

  /** The training set: one example per sample, same order. */
  function TrainData(samples: seq<SampleRow>): (data: seq<ModelInput>)
    ensures |data| == |samples|
    ensures forall i :: 0 <= i < |samples| ==>
              data[i] == ModelInput(samples[i].imagePath, LabelOrNoPollen(samples[i].humanLabel))
  {
    seq(|samples|, i requires 0 <= i < |samples| =>
      ModelInput(samples[i].imagePath, LabelOrNoPollen(samples[i].humanLabel)))
  }

  /** The version name of a successful run: "v" and the formatted clock
      reading. */
  function VersionName(stamp: string): (v: string)
    ensures |v| == |stamp| + 1 && v[0] == 'v' && v[1..] == stamp
  {
    "v" + stamp
  }

  /** The two validations, in order: both classes present, then enough
      image files on disk. */
  predicate HasBothClasses(samples: seq<SampleRow>)
  {
    CountLabel(samples, PollenLabel) > 0 && CountLabel(samples, NoPollenLabel) > 0
  }

  predicate EnoughImages(samples: seq<SampleRow>, fileExists: string -> bool)
  {
    |ExistingImages(samples, fileExists)| >= MinValidImages
  }

  /** The string a training run answers. `fit` says whether fitting the
      given training set succeeds and `save` whether saving the model fitted
      on it succeeds; `stamp` is the formatted clock reading. */
  function TrainOutcome(samples: seq<SampleRow>, fileExists: string -> bool,
                        fit: seq<ModelInput> -> bool, save: seq<ModelInput> -> bool,
                        stamp: string): (v: string)
    ensures v == SkippedBadData <==> !HasBothClasses(samples) || !EnoughImages(samples, fileExists)
    ensures HasBothClasses(samples) && EnoughImages(samples, fileExists) ==>
              var data := TrainData(ExistingImages(samples, fileExists));
              && (!fit(data) ==> v == TrainingFailed)
              && (fit(data) && !save(data) ==> v == SaveFailed)
              && (fit(data) && save(data) ==> v == VersionName(stamp))
  {
    if !HasBothClasses(samples) then SkippedBadData
    else if !EnoughImages(samples, fileExists) then SkippedBadData
    else
      var data := TrainData(ExistingImages(samples, fileExists));
      if !fit(data) then TrainingFailed
      else if !save(data) then SaveFailed
      else VersionName(stamp)
  }

  /** A training run. Besides the answer it reports the training set it
      fitted (None when it stopped before fitting) and whether it raised
      the model-trained notification. */
  method TrainModel(goldSamples: seq<SampleRow>, fileExists: string -> bool,
                    fit: seq<ModelInput> -> bool, save: seq<ModelInput> -> bool, stamp: string)
    returns (version: string, fitted: Option<seq<ModelInput>>, notified: bool)
    ensures version == TrainOutcome(goldSamples, fileExists, fit, save, stamp)
    ensures fitted.Some? <==> HasBothClasses(goldSamples) && EnoughImages(goldSamples, fileExists)
    ensures fitted.Some? ==> fitted.value == TrainData(ExistingImages(goldSamples, fileExists))
    ensures notified <==> fitted.Some? && fit(fitted.value) && save(fitted.value)
    ensures notified <==> version !in {SkippedBadData, TrainingFailed, SaveFailed}
  {
    fitted := None;
    notified := false;
    var countPollen := CountLabel(goldSamples, PollenLabel);
    var countNoPollen := CountLabel(goldSamples, NoPollenLabel);
    if countPollen == 0 || countNoPollen == 0 {
      return SkippedBadData, fitted, notified;
    }
    var validSamples := ExistingImages(goldSamples, fileExists);
    if |validSamples| < MinValidImages {
      return SkippedBadData, fitted, notified;
    }
    var trainData := TrainData(validSamples);
    fitted := Some(trainData);
    if !fit(trainData) {
      return TrainingFailed, fitted, notified;
    }
    if !save(trainData) {
      return SaveFailed, fitted, notified;
    }
    notified := true;
    version := VersionName(stamp);
  }

  /** A version name is never one of the sentinels. */
  lemma VersionIsNotASentinel(stamp: string)
    ensures VersionName(stamp) !in {SkippedBadData, TrainingFailed, SaveFailed}
  {
    assert VersionName(stamp)[0] == 'v';
  }

  /** On gold data (Reviewed with a non-empty label) no label is missing,
      so the NoPollen fallback never applies: every example carries the
      sample's own label. */
  lemma GoldLabelsKept(samples: seq<SampleRow>)
    requires forall i :: 0 <= i < |samples| ==> samples[i].humanLabel.Some?
    ensures forall i :: 0 <= i < |samples| ==> TrainData(samples)[i].className == samples[i].humanLabel.value
  {
  }

  /** Both classes present means at least two samples. */
  lemma BothClassesNeedTwo(samples: seq<SampleRow>)
    requires HasBothClasses(samples)
    ensures |samples| >= 2
  {
    var i :| 0 <= i < |samples| && samples[i].humanLabel == Some(PollenLabel);
    var j :| 0 <= j < |samples| && samples[j].humanLabel == Some(NoPollenLabel);
    assert i != j;
  }
}
