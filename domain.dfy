/** Entities and enumerations of the hive-image domain: samples, predictions,
    the process-wide settings record and the status/decision enums. */
module Domain {

  datatype Option<+T> = None | Some(value: T)

  /** Identities. Only equality and freshness of identities matter to the
      core; the value 0 plays the part of Guid.Empty. */
  type Guid = nat

  const EmptyGuid: Guid := 0

  datatype TaskType = Pollen | Health

  datatype SampleStatus = Queued | Processing | Scored | PendingReview | Reviewed | Failed

  /** `Undecided` is the enum member the source calls `None` (value 0); it is
      renamed here only because `None` already names the empty Option. */
  datatype Decision = Undecided | AutoAccept | PendingReview | Alert | AutoReject

  /** The enum member name, as `ToString()` prints it. */
  function StatusName(s: SampleStatus): string
  {
    match s
    case Queued => "Queued"
    case Processing => "Processing"
    case Scored => "Scored"
    case PendingReview => "PendingReview"
    case Reviewed => "Reviewed"
    case Failed => "Failed"
  }

  function DecisionName(d: Decision): string
  {
    match d
    case Undecided => "None"
    case AutoAccept => "AutoAccept"
    case PendingReview => "PendingReview"
    case Alert => "Alert"
    case AutoReject => "AutoReject"
  }

  /** The two labels the pollen task uses. */
  const PollenLabel: string := "Pollen"
  const NoPollenLabel: string := "NoPollen"

  /** The trainer's answer when the data cannot be trained on; the only
      answer after which the retrain agent keeps the gold counter. */
  const SkippedBadData: string := "SKIPPED_BAD_DATA"

  /** One scoring event; never changed once stored. */
  datatype Prediction = Prediction(
    id: Guid,
    sampleId: Guid,
    modelVersionId: Guid,
    score: real,
    predictedLabel: string,
    decision: Decision,
    createdAt: int)

  /** The settings singleton. */
  datatype SystemSettings = SystemSettings(
    id: int,
    newGoldSinceLastTrain: int,
    retrainGoldThreshold: int,
    autoThresholdHigh: real,
    autoThresholdLow: real,
    isRetrainEnabled: bool,
    activeModelVersionId: Option<Guid>)

  const DefaultRetrainGoldThreshold: int := 50
  const DefaultAutoThresholdHigh: real := 0.90
  const DefaultAutoThresholdLow: real := 0.15

  /** `new SystemSettings()`: every field at its initialiser. */
  function DefaultSettings(): SystemSettings
  {
    SystemSettings(0, 0, DefaultRetrainGoldThreshold, DefaultAutoThresholdHigh,
                   DefaultAutoThresholdLow, true, None)
  }

  /** The settings record, or the built-in defaults when there is none. */
  function SettingsOrDefaults(settings: Option<SystemSettings>): (s: SystemSettings)
    ensures settings.Some? ==> s == settings.value
    ensures settings.None? ==> s == DefaultSettings()
  {
    match settings
    case Some(v) => v
    case None => DefaultSettings()
  }

  /** The default record: counter 0, threshold 50, High 0.90 above Low 0.15,
      retraining on, no active model. */
  lemma DefaultSettingsValues()
    ensures DefaultSettings().newGoldSinceLastTrain == 0
    ensures DefaultSettings().retrainGoldThreshold == 50
    ensures DefaultSettings().autoThresholdHigh == 0.90 && DefaultSettings().autoThresholdLow == 0.15
    ensures DefaultSettings().autoThresholdLow < DefaultSettings().autoThresholdHigh
    ensures DefaultSettings().isRetrainEnabled
    ensures DefaultSettings().activeModelVersionId == None
  {
  }

  /** The value of every field of a sample at one moment. */
  datatype SampleRow = SampleRow(
    id: Guid,
    hiveId: Guid,
    imagePath: string,
    capturedAt: int,
    humanLabel: Option<string>,
    taskType: TaskType,
    status: SampleStatus)

  /** The exception `MarkProcessing` throws. */
  datatype DomainError = CannotProcess(status: SampleStatus)

  datatype Outcome<+E> = Pass | Fail(error: E)

  /** One image. Its identity, path, capture time and task never change once
      it exists; review and the scoring agent update its label and status. */
  class HiveImageSample {
    const id: Guid
    const hiveId: Guid
    const imagePath: string
    const capturedAt: int
    const taskType: TaskType
    var humanLabel: Option<string>
    var status: SampleStatus

    constructor (id: Guid, hiveId: Guid, imagePath: string, capturedAt: int,
                 humanLabel: Option<string>, taskType: TaskType, status: SampleStatus)
      ensures Row() == SampleRow(id, hiveId, imagePath, capturedAt, humanLabel, taskType, status)
    {
      this.id := id;
      this.hiveId := hiveId;
      this.imagePath := imagePath;
      this.capturedAt := capturedAt;
      this.humanLabel := humanLabel;
      this.taskType := taskType;
      this.status := status;
    }

    function Row(): SampleRow
      reads this
    {
      SampleRow(id, hiveId, imagePath, capturedAt, humanLabel, taskType, status)
    }

    /** The claim: only a Queued sample may move to Processing; any other
        status is refused and left as it was. */
    method MarkProcessing() returns (r: Outcome<DomainError>)
      modifies this`status
      ensures old(status) == Queued ==> r == Pass && status == Processing
      ensures old(status) != Queued ==> r == Fail(CannotProcess(old(status))) && status == old(status)
    {
      if status != Queued {
        return Fail(CannotProcess(status));
      }
      status := Processing;
      r := Pass;
    }
  }

  /** Claiming the same sample twice: the first claim of a Queued sample
      succeeds and the second is refused, leaving the sample in Processing. */
  method ClaimTwice(s: HiveImageSample) returns (first: Outcome<DomainError>, second: Outcome<DomainError>)
    requires s.status == Queued
    modifies s`status
    ensures first == Pass
    ensures second == Fail(CannotProcess(Processing))
    ensures s.status == Processing
  {
    first := s.MarkProcessing();
    second := s.MarkProcessing();
  }
}
