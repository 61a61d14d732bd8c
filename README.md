# BeeHive agent: a Dafny model of the sample lifecycle

BeeHive classifies hive images as `Pollen` or `NoPollen`. Each image is a
*sample*, and its life runs through an in-memory store that holds a table of
samples, a table of predictions and an optional settings record:

- **Upload** queues a sample.
- **The scoring agent** claims the oldest `Queued` sample and asks a
  classifier for label scores. A threshold policy then decides whether the
  top score is accepted, rejected or sent to a human. The agent stores one
  prediction and the sample's new status.
- **Review** by a human turns a sample into *gold data*: it gets a label and
  the `Reviewed` status. Every review advances the gold counter of the
  settings record.
- **The retrain agent** waits until the counter reaches the threshold. It
  then hands the gold samples to the trainer and, unless the trainer
  skipped the data, resets the counter.
- **The trainer** checks that both classes are present and that at least
  ten image files exist. It then fits and saves a model and answers with a
  version name or a failure sentinel.
- **The admin endpoints** can force a retrain, report whether one is due,
  and wipe the tables.
- **The seeder** fills an empty database from the bee image dataset. It
  oversamples the `Pollen` class to exactly 500 samples and draws at most
  500 `NoPollen` samples.

The model follows the code's own form, file by file:

- Samples are objects updated in place (`Domain.HiveImageSample`, a class).
- The store is a class (`Store.AppDb`). Its `Valid()` invariant says:
  - sample identities are unique;
  - every sample and prediction identity has already been issued;
  - every prediction belongs to a stored sample.
- The agents' steps, the controller actions, the trainer and the seeder are
  methods. Each is proved against pure specification functions, such as
  `GoldSet`, `ReviewOnce`, `ApplyReviews`, `TrainOutcome` and `Classified`.
- Pure code is modelled as functions. The threshold policy is one example.

Outside collaborators are parameters:

- the classifier's label-to-score dictionary;
- the trainer;
- fitting and saving a model;
- file existence and the CSV records;
- the stored-path builder;
- the clock;
- the random shuffle, which may be any permutation.

`Pipeline` proves how the pieces fit together:

- Only review and seeding create gold data. Scoring and upload never do.
- On a table where every `Reviewed` row carries a label, the admin
  trigger's count equals the retrain agent's gold count. Review, scoring,
  upload and seeding all keep that condition, and the reset empties the
  table.
- The status flag agrees with the retrain gate whenever retraining is
  enabled.
- A seeded table passes the trainer's class check.

## Behaviour of the code worth knowing

- **Failed training resets the counter.** The trainer answers
  `TRAINING_FAILED` or `SAVE_FAILED` when fitting or saving fails
  (TrainingService.cs:106 and :123). The retrain agent keeps the counter
  only on `SKIPPED_BAD_DATA` (RetrainAgentRunner.cs:57-64), so after these
  two answers it resets the counter like after a success.
  `RetrainAgent.Step` states this.
- **A model-less classifier score is rejected automatically.** Its
  placeholder answer is `Unknown` at score 0 (MLNetBeeClassifier.cs:82).
  Under the default thresholds the policy rejects that automatically
  (ScoringPolicy.cs:20-23) (`ScoringPolicy.UnknownIsRejectedByDefault`);
  it does not send it to review.
- **The status flag ignores the enabled switch.** The `WillTrainOnNextCycle`
  flag does not read `IsRetrainEnabled` (AdminController.cs:82). It can report a retrain that the
  disabled agent will never run (`Pipeline.FlagIgnoresEnabled`).
- **`Failed` is never set.** No core code writes the `Failed` status. It
  exists in the enumeration only (DomainEnums.cs:16).

## Model

| member | source | states |
|---|---|---|
| Domain.SettingsOrDefaults | AiAgents.BeeHiveAgent.Application/Runners/ScoringAgentRunner.cs:45-46 | the stored record when there is one; otherwise exactly the default record |
| Domain.DefaultSettingsValues | AiAgents.BeeHiveAgent.Domain/Entities/SystemSettings.cs:11-19 | a new settings record has counter 0, threshold 50, High 0.90 above Low 0.15, retraining enabled and no active model |
| Domain.StatusName | AiAgents.BeeHiveAgent.Application/Runners/ScoringAgentRunner.cs:69 | the status enum member's name, as `ToString()` prints it |
| Domain.DecisionName | AiAgents.BeeHiveAgent.Application/Runners/ScoringAgentRunner.cs:69 | the decision enum member's name, as `ToString()` prints it, with `None` for `Undecided` |
| Domain.HiveImageSample.constructor | AiAgents.BeeHiveAgent.Domain/Entities/HiveImageSample.cs:8-15 | the new sample holds exactly the given field values |
| Domain.HiveImageSample.MarkProcessing | AiAgents.BeeHiveAgent.Domain/Entities/HiveImageSample.cs:19-25 | a Queued sample becomes Processing; any other status is refused with that status and left unchanged; only the status field may change |
| Domain.ClaimTwice | AiAgents.BeeHiveAgent.Domain/Entities/HiveImageSample.cs:21-24 | the claim is not idempotent: the first claim of a Queued sample succeeds, the second is refused, and the sample stays in Processing |
| Store.FindRow | AiAgents.BeeHiveAgent.Web/Controllers/SamplesController.cs:168 | lookup by primary key: a position holding that identity, or None exactly when no row carries it |
| Store.PredictionsFor | AiAgents.BeeHiveAgent.Domain/Entities/HiveImageSample.cs:17 | the navigation collection holds exactly the predictions carrying the sample's identity |
| Store.NoPredictionsForNewSample | AiAgents.BeeHiveAgent.Domain/Entities/HiveImageSample.cs:17 | a sample whose identity no stored prediction carries has an empty prediction collection |
| Store.AppDb.NewGuid | AiAgents.BeeHiveAgent.Application/Runners/ScoringAgentRunner.cs:54 | each identity issued is new: one above every identity issued before, and the store stays valid |
| Store.AppDb.Add | AiAgents.BeeHiveAgent.Web/Controllers/SamplesController.cs:52 | a sample with an issued identity that no stored sample carries goes to the end of the table, every other row stays as it was, and the store stays valid |
| ScoringPolicy.Evaluate | AiAgents.BeeHiveAgent.Application/Services/ScoringPolicy.cs:8-27 | AutoAccept iff score >= High; AutoReject iff score < High and score <= Low; PendingReview iff Low < score < High; the status is Scored exactly for the two automatic decisions, else PendingReview; never None or Alert; the label is the input label |
| ScoringPolicy.EvaluateMonotone | AiAgents.BeeHiveAgent.Application/Services/ScoringPolicy.cs:14-26 | a higher score never gets a worse decision (AutoReject, then PendingReview, then AutoAccept) |
| ScoringPolicy.PolicyBands | AiAgents.BeeHiveAgent.Application/Services/ScoringPolicy.cs:14-26 | when Low < High the three decisions are the three bands: score >= High, score <= Low, and strictly between |
| ScoringPolicy.UnknownIsRejectedByDefault | AiAgents.BeeHiveAgent.Application/Services/ScoringPolicy.cs:20-23 | the classifier's placeholder Unknown at score 0 is Scored and AutoRejected under the default thresholds |
| ScoringPolicy.DefaultScenarios | AiAgents.BeeHiveAgent.Application/Services/ScoringPolicy.cs:14-26 | under the defaults 0.95 is AutoAccept, 0.50 goes to review, and both boundaries 0.90 and 0.15 are inclusive |
| ScoringAgent.OldestQueued | AiAgents.BeeHiveAgent.Application/Runners/ScoringAgentRunner.cs:27-32 | None iff no row is Queued; otherwise a Queued row whose capture time is the earliest among the Queued rows |
| ScoringAgent.BestMatch | AiAgents.BeeHiveAgent.Application/Runners/ScoringAgentRunner.cs:41-43 | None iff the dictionary is empty; otherwise an entry of maximal score, the first such in enumeration order |
| ScoringAgent.ScoredRow | AiAgents.BeeHiveAgent.Application/Runners/ScoringAgentRunner.cs:65 | the claimed row takes the policy's status and no other field changes |
| ScoringAgent.Step | AiAgents.BeeHiveAgent.Application/Runners/ScoringAgentRunner.cs:24-70 | with no Queued sample, NoWork and nothing changes; with an empty classifier answer the claim stays (Processing) with no prediction; otherwise the oldest Queued sample takes the policy's status under the stored or default settings, exactly one prediction with that sample's identity, the top entry's score and label, the decision and an empty model version is appended, no other sample changes, and the result reports "Queued", the new status and the decision |
| ScoringAgent.RecordDecision | AiAgents.BeeHiveAgent.Application/Runners/ScoringAgentRunner.cs:52-67 | one prediction with a new identity joins the table and only the claimed sample's status changes, to the policy's status; the store stays valid |
| ScoringAgent.ClaimedSampleIsNotReselected | AiAgents.BeeHiveAgent.Application/Runners/ScoringAgentRunner.cs:27-36 | after the claim the next selection does not pick the same sample |
| ScoringAgent.OlderSampleFirst | AiAgents.BeeHiveAgent.Application/Runners/ScoringAgentRunner.cs:27-30 | of two Queued samples, the one captured strictly later is not the one selected |
| RetrainAgent.GoldSet | AiAgents.BeeHiveAgent.Application/Runners/RetrainAgentRunner.cs:43-45 | a row is in the gold set iff it is in the table, Reviewed and labelled with a non-empty label; table order is kept |
| RetrainAgent.IsGold | AiAgents.BeeHiveAgent.Application/Runners/RetrainAgentRunner.cs:44 | gold data: Reviewed and labelled with a non-null, non-empty label |
| RetrainAgent.CounterGateOpen | AiAgents.BeeHiveAgent.Application/Runners/RetrainAgentRunner.cs:28-38 | a record exists, retraining is enabled, and the counter has reached the threshold (equality passes) |
| RetrainAgent.Step | AiAgents.BeeHiveAgent.Application/Runners/RetrainAgentRunner.cs:24-71 | no record, retraining disabled, counter below threshold or no gold: null, trainer not called, nothing changes; otherwise the trainer is called once with the gold set; SKIPPED_BAD_DATA gives null with the counter kept; any other answer, the failure sentinels included, resets the counter to 0 and reports that answer and the gold count; samples and predictions are never written |
| RetrainAgent.GoldSetEmptyIff | AiAgents.BeeHiveAgent.Application/Runners/RetrainAgentRunner.cs:43-51 | the gold set is empty iff no row is gold |
| RetrainAgent.GoldSetIdempotent | AiAgents.BeeHiveAgent.Application/Runners/RetrainAgentRunner.cs:43-45 | filtering the gold set again changes nothing |
| RetrainAgent.GoldSetAppend | AiAgents.BeeHiveAgent.Application/Runners/RetrainAgentRunner.cs:43-45 | the gold set of two tables together is their gold sets together |
| SamplesController.Upload | AiAgents.BeeHiveAgent.Web/Controllers/SamplesController.cs:26-56 | no file or an empty one is rejected with nothing changed; otherwise exactly one new sample is appended: a fresh identity and hive identity, stored under a path made unique by a fresh identity, stamped now, no label, the requested task type, Queued |
| SamplesController.ReviewLabel | AiAgents.BeeHiveAgent.Web/Controllers/SamplesController.cs:173 | Pollen iff the request says pollen, NoPollen otherwise |
| SamplesController.ReviewRow | AiAgents.BeeHiveAgent.Web/Controllers/SamplesController.cs:173-174 | the reviewed row is Reviewed whatever its prior status and carries the non-empty review label; no other field changes |
| SamplesController.BumpCounter | AiAgents.BeeHiveAgent.Web/Controllers/SamplesController.cs:176-180 | with a record the counter rises by n and nothing else changes; without one there stays none |
| SamplesController.BumpTwice | AiAgents.BeeHiveAgent.Web/Controllers/SamplesController.cs:211-214 | raising the counter by a and then by b is raising it by a + b |
| SamplesController.ReviewOnce | AiAgents.BeeHiveAgent.Web/Controllers/SamplesController.cs:168-174 | a review keeps the table's length and every row's identity |
| SamplesController.ApplyReview | AiAgents.BeeHiveAgent.Web/Controllers/SamplesController.cs:205-209 | found iff a stored sample has the identity; the table becomes the reviewed table and no other sample changes |
| SamplesController.ReviewSample | AiAgents.BeeHiveAgent.Web/Controllers/SamplesController.cs:166-191 | unknown identity: not found and nothing changes; otherwise the sample is reviewed with the label the request implies, the counter rises by exactly 1 when a record exists, and the response carries the identity and label |
| SamplesController.ApplyReviews | AiAgents.BeeHiveAgent.Web/Controllers/SamplesController.cs:203-217 | applying the requests in order keeps the table's length and identities |
| SamplesController.ReviewedCount | AiAgents.BeeHiveAgent.Web/Controllers/SamplesController.cs:203-216 | the number of found requests is at most the number of requests |
| SamplesController.ReviewBulk | AiAgents.BeeHiveAgent.Web/Controllers/SamplesController.cs:195-226 | an empty list is rejected with nothing changed; otherwise the requests are applied in order, unknown identities skipped, and the counter rises by the number of found requests, a repeated identity counting each time |
| SamplesController.ReviewNext | AiAgents.BeeHiveAgent.Web/Controllers/SamplesController.cs:203-209 | one pass of the bulk loop over the table: request i is applied to the partly reviewed table, and it finds its sample exactly when the original table holds that identity |
| SamplesController.CountReview | AiAgents.BeeHiveAgent.Web/Controllers/SamplesController.cs:211-216 | one pass of the bulk loop over the counter: it rises by one for a found request and stays put otherwise, with the table untouched |
| SamplesController.ReviewsExtend | AiAgents.BeeHiveAgent.Web/Controllers/SamplesController.cs:203-217 | one more request is one more review step and one more count step, and it finds its sample in the partly reviewed table exactly when it would in the original |
| SamplesController.FoundAgrees | AiAgents.BeeHiveAgent.Web/Controllers/SamplesController.cs:205-206 | tables with the same identities in the same places find the same identities |
| AdminController.CountReviewed | AiAgents.BeeHiveAgent.Web/Controllers/AdminController.cs:30-31 | zero iff no row is Reviewed; never more than the table size |
| AdminController.TriggerRetrain | AiAgents.BeeHiveAgent.Web/Controllers/AdminController.cs:19-48 | no record: not found, nothing changes; no Reviewed sample: rejected, counter kept; otherwise the counter becomes the number of Reviewed samples, labelled or not, and the response carries that number and the threshold |
| AdminController.WillTrainOnNextCycle | AiAgents.BeeHiveAgent.Web/Controllers/AdminController.cs:80-82 | false without a record (counter 0 against 50); with one, true iff counter >= threshold |
| AdminController.ResetDatabase | AiAgents.BeeHiveAgent.Web/Controllers/AdminController.cs:88-113 | every prediction and every sample is removed and their numbers are reported; the counter becomes 0 when a record exists and every other settings field is kept |
| AdminController.ResetClearsFlag | AiAgents.BeeHiveAgent.Web/Controllers/AdminController.cs:100-104 | right after a reset the flag is off whenever the threshold is positive |
| AdminController.TriggerSetsFlag | AiAgents.BeeHiveAgent.Web/Controllers/AdminController.cs:39 | after a trigger the flag is on iff the number of Reviewed samples has reached the threshold |
| AdminController.CountReviewedAppend | AiAgents.BeeHiveAgent.Web/Controllers/AdminController.cs:30-31 | the count over two tables together is the sum of their counts |
| TrainingService.CountLabel | AiAgents.BeeHiveAgent.Infrastructure/ML/TrainingService.cs:44-45 | zero iff no sample carries exactly that label |
| TrainingService.ExistingImages | AiAgents.BeeHiveAgent.Infrastructure/ML/TrainingService.cs:59 | a sample is kept iff its image file exists |
| TrainingService.HasBothClasses | AiAgents.BeeHiveAgent.Infrastructure/ML/TrainingService.cs:44-52 | at least one sample labelled Pollen and one labelled NoPollen |
| TrainingService.EnoughImages | AiAgents.BeeHiveAgent.Infrastructure/ML/TrainingService.cs:59-62 | at least ten samples whose image file exists |
| TrainingService.LabelOrNoPollen | AiAgents.BeeHiveAgent.Infrastructure/ML/TrainingService.cs:72 | the label when there is one, NoPollen when it is null |
| TrainingService.TrainData | AiAgents.BeeHiveAgent.Infrastructure/ML/TrainingService.cs:69-73 | one example per sample, in order, with its path and its label or NoPollen |
| TrainingService.VersionName | AiAgents.BeeHiveAgent.Infrastructure/ML/TrainingService.cs:129 | "v" followed by the clock stamp |
| TrainingService.TrainOutcome | AiAgents.BeeHiveAgent.Infrastructure/ML/TrainingService.cs:37-135 | SKIPPED_BAD_DATA iff a class is missing or fewer than 10 image files exist; otherwise TRAINING_FAILED when fitting fails, SAVE_FAILED when saving fails, the version name when both succeed |
| TrainingService.TrainModel | AiAgents.BeeHiveAgent.Infrastructure/ML/TrainingService.cs:37-135 | answers TrainOutcome; the class check runs first; fits only when both checks pass, and then on the existing-file samples only; notifies iff fit and save succeed, which is iff the answer is not a sentinel |
| TrainingService.VersionIsNotASentinel | AiAgents.BeeHiveAgent.Infrastructure/ML/TrainingService.cs:129-134 | a version name is never one of the three sentinels |
| TrainingService.GoldLabelsKept | AiAgents.BeeHiveAgent.Infrastructure/ML/TrainingService.cs:69-73 | on labelled samples every training example carries the sample's own label |
| TrainingService.BothClassesNeedTwo | AiAgents.BeeHiveAgent.Infrastructure/ML/TrainingService.cs:52-56 | passing the class check needs at least two samples |
| DatabaseSeeder.TrimStart | AiAgents.BeeHiveAgent.Infrastructure/Persistence/DatabaseSeeder.cs:60 | the result is no longer than the value and does not start with white space (what is cut: `TrimStartCuts`) |
| DatabaseSeeder.TrimEnd | AiAgents.BeeHiveAgent.Infrastructure/Persistence/DatabaseSeeder.cs:60 | the result is no longer, keeps the first character and does not end with white space (what is cut: `TrimEndCuts`) |
| DatabaseSeeder.Trim | AiAgents.BeeHiveAgent.Infrastructure/Persistence/DatabaseSeeder.cs:60 | the result is no longer and has white space at neither end (what is cut: `TrimCuts`) |
| DatabaseSeeder.TrimStartCuts | AiAgents.BeeHiveAgent.Infrastructure/Persistence/DatabaseSeeder.cs:60 | leading trim keeps a suffix of the value and everything cut off in front is white space |
| DatabaseSeeder.TrimEndCuts | AiAgents.BeeHiveAgent.Infrastructure/Persistence/DatabaseSeeder.cs:60 | trailing trim keeps a prefix of the value and everything cut off behind is white space |
| DatabaseSeeder.TrimCuts | AiAgents.BeeHiveAgent.Infrastructure/Persistence/DatabaseSeeder.cs:60 | trim keeps a slice of the value with only white space cut off on either side; with `Trim`'s own ensures this determines the result |
| DatabaseSeeder.UpperChar | AiAgents.BeeHiveAgent.Infrastructure/Persistence/DatabaseSeeder.cs:60 | a letter a to z becomes its capital A to Z, every other character is kept, so white space stays white space |
| DatabaseSeeder.ToUpper | AiAgents.BeeHiveAgent.Infrastructure/Persistence/DatabaseSeeder.cs:60 | the same length, each character upper-cased |
| DatabaseSeeder.IsWhiteSpace | AiAgents.BeeHiveAgent.Infrastructure/Persistence/DatabaseSeeder.cs:60 | the characters `Trim` removes: ASCII white space, NEL and NBSP |
| DatabaseSeeder.HasPollen | AiAgents.BeeHiveAgent.Infrastructure/Persistence/DatabaseSeeder.cs:60-61 | the value, trimmed and then upper-cased, is TRUE, 1 or YES; a null value is not pollen |
| DatabaseSeeder.Classified | AiAgents.BeeHiveAgent.Infrastructure/Persistence/DatabaseSeeder.cs:53-67 | every entry of a class has an existing image at the record's path and a flag that parses to that class, and every record with an existing image and that flag has its entry in the class |
| DatabaseSeeder.CountExisting | AiAgents.BeeHiveAgent.Infrastructure/Persistence/DatabaseSeeder.cs:55-58 | never more than the number of records |
| DatabaseSeeder.PartitionRecords | AiAgents.BeeHiveAgent.Infrastructure/Persistence/DatabaseSeeder.cs:53-67 | the two lists are the two classes in record order, and their sizes add up to the number of records with an existing image |
| DatabaseSeeder.PartitionExact | AiAgents.BeeHiveAgent.Infrastructure/Persistence/DatabaseSeeder.cs:58-66 | a record with an existing image is an entry of the class its flag selects and of no other |
| DatabaseSeeder.CeilDiv | AiAgents.BeeHiveAgent.Infrastructure/Persistence/DatabaseSeeder.cs:81 | the oversampling factor times the number of images reaches the target |
| DatabaseSeeder.OversamplePollen | AiAgents.BeeHiveAgent.Infrastructure/Persistence/DatabaseSeeder.cs:79-109 | exactly 500 paths, cycling through the Pollen images in order |
| DatabaseSeeder.SampleNoPollen | AiAgents.BeeHiveAgent.Infrastructure/Persistence/DatabaseSeeder.cs:116-143 | min(500, number of NoPollen images) entries, drawn without repetition from those images |
| DatabaseSeeder.NewReviewedSamples | AiAgents.BeeHiveAgent.Infrastructure/Persistence/DatabaseSeeder.cs:95-104 | one new sample per path, in order, Reviewed, of the pollen task, with the class label and fresh increasing identities |
| DatabaseSeeder.CounterAfterSeeding | AiAgents.BeeHiveAgent.Infrastructure/Persistence/DatabaseSeeder.cs:169-188 | with a record the counter becomes the number of seeded samples when no model file exists and 0 when one does, and nothing else changes; without one there stays none |
| DatabaseSeeder.Seed | AiAgents.BeeHiveAgent.Infrastructure/Persistence/DatabaseSeeder.cs:26-192 | a non-empty table or a missing CSV changes nothing; otherwise, if a class is empty nothing is stored, else the table becomes 500 Pollen samples cycling through the Pollen images then min(500, n) NoPollen samples drawn from theirs, and the counter is set as the model file dictates |
| DatabaseSeeder.BalanceAndStore | AiAgents.BeeHiveAgent.Infrastructure/Persistence/DatabaseSeeder.cs:74-188 | on an empty table: nothing stored iff a class has no images; otherwise the seeded table and counter, with both class counts reported |
| DatabaseSeeder.BatchesFormSeededTable | AiAgents.BeeHiveAgent.Infrastructure/Persistence/DatabaseSeeder.cs:76-141 | the Pollen batch followed by the NoPollen batch is the seeded table |
| DatabaseSeeder.StoreTrainingSet | AiAgents.BeeHiveAgent.Infrastructure/Persistence/DatabaseSeeder.cs:166-188 | the table becomes the training set and the counter is set as the model file dictates, with the store kept valid |
| DatabaseSeeder.ToUpperIdempotent | AiAgents.BeeHiveAgent.Infrastructure/Persistence/DatabaseSeeder.cs:60 | upper-casing twice is upper-casing once |
| DatabaseSeeder.TrimStartAppend | AiAgents.BeeHiveAgent.Infrastructure/Persistence/DatabaseSeeder.cs:60 | leading white space of a concatenation is removed from the first part, and from the second only when the first is all white space |
| DatabaseSeeder.TrimEndPadding | AiAgents.BeeHiveAgent.Infrastructure/Persistence/DatabaseSeeder.cs:60 | trailing white space appended to a value is removed again |
| DatabaseSeeder.TrimPadded | AiAgents.BeeHiveAgent.Infrastructure/Persistence/DatabaseSeeder.cs:60 | a space on either side of a value is trimmed away |
| DatabaseSeeder.TrimStartUpper | AiAgents.BeeHiveAgent.Infrastructure/Persistence/DatabaseSeeder.cs:60 | cutting leading white space commutes with upper-casing |
| DatabaseSeeder.TrimEndUpper | AiAgents.BeeHiveAgent.Infrastructure/Persistence/DatabaseSeeder.cs:60 | cutting trailing white space commutes with upper-casing |
| DatabaseSeeder.TrimUpper | AiAgents.BeeHiveAgent.Infrastructure/Persistence/DatabaseSeeder.cs:60 | trimming then upper-casing equals upper-casing then trimming |
| DatabaseSeeder.PaddedFlag | AiAgents.BeeHiveAgent.Infrastructure/Persistence/DatabaseSeeder.cs:60-61 | a space on either side of the flag does not change its parse |
| DatabaseSeeder.CaseInsensitiveFlag | AiAgents.BeeHiveAgent.Infrastructure/Persistence/DatabaseSeeder.cs:60-61 | the flag's letter case does not change its parse |
| DatabaseSeeder.TrimUnpadded | AiAgents.BeeHiveAgent.Infrastructure/Persistence/DatabaseSeeder.cs:60 | a value without white space at its ends is its own trimmed form |
| DatabaseSeeder.FlagAccepted | AiAgents.BeeHiveAgent.Infrastructure/Persistence/DatabaseSeeder.cs:60-61 | "true" and "Yes" count as pollen, whatever their letter case |
| DatabaseSeeder.FlagRefused | AiAgents.BeeHiveAgent.Infrastructure/Persistence/DatabaseSeeder.cs:60-61 | "false" and a null value do not count as pollen |
| DatabaseSeeder.PartitionSizes | AiAgents.BeeHiveAgent.Infrastructure/Persistence/DatabaseSeeder.cs:53-67 | the two classes together have as many entries as there are records with an existing image |
| Pipeline.TriggerCountIsGoldCount | AiAgents.BeeHiveAgent.Web/Controllers/AdminController.cs:30-39 | when every Reviewed row is labelled, the trigger's count of Reviewed samples equals the size of the retrain agent's gold set |
| Pipeline.ReviewKeepsLabelled | AiAgents.BeeHiveAgent.Web/Controllers/SamplesController.cs:173-174 | a review keeps every Reviewed row labelled |
| Pipeline.BulkReviewKeepsLabelled | AiAgents.BeeHiveAgent.Web/Controllers/SamplesController.cs:203-217 | a bulk review keeps every Reviewed row labelled |
| Pipeline.ScoringKeepsLabelled | AiAgents.BeeHiveAgent.Application/Runners/ScoringAgentRunner.cs:65 | a scoring step keeps every Reviewed row labelled |
| Pipeline.UploadKeepsLabelled | AiAgents.BeeHiveAgent.Web/Controllers/SamplesController.cs:42-53 | an upload keeps every Reviewed row labelled |
| Pipeline.NonGoldUpdateKeepsGold | AiAgents.BeeHiveAgent.Application/Runners/RetrainAgentRunner.cs:43-45 | replacing a non-gold row by a non-gold row leaves the gold set unchanged |
| Pipeline.ScoringAddsNoGold | AiAgents.BeeHiveAgent.Application/Runners/ScoringAgentRunner.cs:65 | the scoring step's status write leaves the gold set the retrain agent sees unchanged |
| Pipeline.UploadAddsNoGold | AiAgents.BeeHiveAgent.Web/Controllers/SamplesController.cs:42-53 | appending a Queued sample leaves the gold set unchanged |
| Pipeline.ReviewMakesGold | AiAgents.BeeHiveAgent.Web/Controllers/SamplesController.cs:173-174 | a review that finds its sample puts the reviewed row into the gold set |
| Pipeline.FlagMatchesGate | AiAgents.BeeHiveAgent.Web/Controllers/AdminController.cs:80-82 | with retraining enabled, or no record at all, the flag is on iff the retrain agent's counter gate is open |
| Pipeline.FlagIgnoresEnabled | AiAgents.BeeHiveAgent.Web/Controllers/AdminController.cs:82 | with retraining disabled and the counter at the threshold, the flag is on while the gate is shut |
| Pipeline.AllGoldIsGoldSet | AiAgents.BeeHiveAgent.Application/Runners/RetrainAgentRunner.cs:43-45 | a table of gold rows is its own gold set |
| Pipeline.GoldTableLabelled | AiAgents.BeeHiveAgent.Infrastructure/Persistence/DatabaseSeeder.cs:95-140 | a table that is its own gold set, as the seeded one is, has every Reviewed row labelled |
| Pipeline.SeededRowsTrain | AiAgents.BeeHiveAgent.Infrastructure/Persistence/DatabaseSeeder.cs:95-140 | rows laid out as the seeder stores them are all gold and hold both classes |
| Pipeline.SeededTableTrains | AiAgents.BeeHiveAgent.Infrastructure/Persistence/DatabaseSeeder.cs:159-166 | a seeded table is its own gold set and passes the trainer's class check |

## Left out

- The worker loops (`ScoringWorker`, `RetrainWorker`) and their delays and
  cancellation are not modelled. Only single sequential steps are.
- Concurrency is not modelled. Two workers could both select the same
  sample before either claims it. `ScoringAgent.Step` is one uninterrupted
  step.
- The classifier (`MLNetBeeClassifier`) is the parameter `classify`. Its
  lock and model hot-swap are not modelled. So is the ML.NET pipeline of the
  trainer. Fitting and saving are the oracles `fit` and `save`, and the
  model-trained event is the `notified` result of `TrainingService.TrainModel`.
- `RetrainAgent.Step` calls its trainer as an oracle returning a string.
  Whether that string comes from `TrainingService.TrainModel` is connected
  through the sentinels only. The model does not wire the two together.
- File I/O is modelled as parameters:
  - Writing the uploaded file, `Path.Combine` and `Directory.CreateDirectory`
    become the `storedPath` and `imagePathOf` functions.
  - `File.Exists` becomes the `fileExists` and `modelFileExists` parameters.
  - Reading the CSV becomes the `csv` parameter, where None means the file
    is missing.
- `DateTime.UtcNow` and `DateTime.Now` are modelled as the `now` and `stamp`
  parameters. The `yyyyMMdd_HHmmss` formatting is not modelled.
- `Random(42)` is not modelled as a fixed shuffle: `DatabaseSeeder.SampleNoPollen`
  takes an arbitrary permutation. The model says which images can be drawn,
  not which ones are.
- `Guid.NewGuid` is modelled as a counter in the store. Only uniqueness
  matters, and `Guid.Empty` is 0, which is never issued.
- Scores and thresholds are real numbers, not 32-bit floats. Float
  rounding, NaN and the percentage formatting of the seeder's console
  output are not modelled.
- The counter is unbounded. The C# `int` counter would wrap after 2^31 - 1
  reviews. This concerns `SamplesController.ReviewSample`,
  `SamplesController.ReviewBulk` and `AdminController.TriggerRetrain`.
- `DatabaseSeeder.UpperChar`: `ToUpper` is modelled on the letters a to z
  only. Upper-casing of other letters is not modelled. That changes the
  parse of some flags: .NET maps a few non-ASCII letters onto A to Z (the
  long s, U+017F, becomes S), so "yeſ" counts as pollen in the code but not
  in the model.
- `DatabaseSeeder.IsWhiteSpace` covers ASCII white space, NEL and NBSP, not
  every Unicode space separator that `Trim` removes.
- `DatabaseSeeder.Seed` computes the Pollen paths and the NoPollen draw
  first and creates the sample objects afterwards. The source creates each
  object as it goes. The stored table, its order and the labels are the
  same.
- `ScoringAgent.OldestQueued` breaks a tie in capture time by table
  position. The code's `OrderBy(CapturedAt).FirstOrDefault()` leaves ties in
  the order the database returns them. The gold query `RetrainAgent.GoldSet`
  likewise keeps table order, where the code's query has no `OrderBy`.
- `DatabaseSeeder.NewReviewedSamples` stamps every seeded sample with one
  clock reading `now`. The code reads `DateTime.UtcNow` once per sample
  (DatabaseSeeder.cs:100 and :136), so its stamps can differ.
- Every `SaveChanges` is modelled as immediate visibility. A change is
  observable as soon as it is made. So the single save at the end of bulk
  review, and the save of the claim before classification, are not
  separate events in the model.
- Entity Framework's navigation fix-up is not modelled. The `Predictions`
  collection of a sample is the derived query `Store.PredictionsFor`. The
  foreign key is part of `Store.AppDb.Valid`.
- A null bulk-review list cannot be expressed, because a Dafny sequence is
  never null. The empty list stands for both.
- The read-only endpoints are not modelled: results, statistics, pending
  reviews and the rest of the status report. `TrainingService.ModelExists`
  is not modelled either, since it is the parameter `modelFileExists`.
- Logging and console output are not modelled.
