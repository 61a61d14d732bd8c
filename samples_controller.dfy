/** The state effects of the samples endpoints: upload queues a new sample,
    review and bulk review turn samples into gold data and advance the gold
    counter. */
module SamplesController {
  import opened Domain
  import opened Store

  /** The uploaded form file: its client-side name and its length in bytes. */
  datatype UploadedFile = UploadedFile(fileName: string, length: int)

  datatype UploadOutcome =
    | NoFileUploaded              // 400: no file, or an empty one
    | ImageQueued(sampleId: Guid)

  /** Upload. The file is written under a name made unique by a fresh
      identity; `storedPath` gives the full path for that identity and the
      client's file name, and `now` is the clock reading. */
  method Upload(db: AppDb, file: Option<UploadedFile>, taskType: TaskType,
                storedPath: (Guid, string) -> string, now: int)
    returns (r: UploadOutcome)
    requires db.Valid()
    modifies db`samples, db`lastGuid
    ensures db.Valid()
    ensures file.None? || file.value.length == 0 ==>
              r == NoFileUploaded && db.samples == old(db.samples) && db.lastGuid == old(db.lastGuid)
    ensures file.Some? && file.value.length != 0 ==>
              && r.ImageQueued?
              && r.sampleId !in old(db.SampleIds())
              && |db.samples| == |old(db.samples)| + 1
              && db.samples[..|old(db.samples)|] == old(db.samples)
              && fresh(db.samples[|old(db.samples)|])
              && var added := db.samples[|old(db.samples)|];
                 && db.Rows() == old(db.Rows()) + [added.Row()]
                 && added.Row() == SampleRow(r.sampleId, added.hiveId,
                      storedPath(old(db.lastGuid) + 1, file.value.fileName), now, None, taskType, Queued)
                 && added.hiveId !in old(db.SampleIds()) && added.hiveId != r.sampleId
  {
    if file.None? || file.value.length == 0 {
      return NoFileUploaded;
    }
    var fileGuid := db.NewGuid();
    var fullPath := storedPath(fileGuid, file.value.fileName);
    var id := db.NewGuid();
    var hiveId := db.NewGuid();
    var sample := new HiveImageSample(id, hiveId, fullPath, now, None, taskType, Queued);
    db.Add(sample);
    r := ImageQueued(id);
  }

  /** A review request: which sample, and whether a human saw pollen. */
  datatype ReviewRequest = ReviewRequest(sampleId: Guid, isPollen: bool)

  /** The label a review assigns. */
  function ReviewLabel(isPollen: bool): (l: string)
    ensures l == PollenLabel <==> isPollen
    ensures l == NoPollenLabel <==> !isPollen
  {
    if isPollen then PollenLabel else NoPollenLabel
  }

  /** A reviewed row: the human label, and Reviewed whatever the prior
      status was; nothing else about the row changes. */
  function ReviewRow(row: SampleRow, isPollen: bool): (reviewed: SampleRow)
    ensures reviewed.status == Reviewed
    ensures reviewed.humanLabel == Some(ReviewLabel(isPollen)) && reviewed.humanLabel.value != ""
    ensures reviewed.(humanLabel := row.humanLabel, status := row.status) == row
  {
    row.(humanLabel := Some(ReviewLabel(isPollen)), status := Reviewed)
  }

  /** `settings.NewGoldSinceLastTrain` raised by `n` when a settings record
      exists; no record means no counter. */
  function BumpCounter(settings: Option<SystemSettings>, n: nat): (bumped: Option<SystemSettings>)
    ensures bumped.None? <==> settings.None?
    ensures settings.Some? ==>
              bumped.value.newGoldSinceLastTrain == settings.value.newGoldSinceLastTrain + n
              && bumped.value.(newGoldSinceLastTrain := settings.value.newGoldSinceLastTrain) == settings.value
  {
    match settings
    case None => None
    case Some(s) => Some(s.(newGoldSinceLastTrain := s.newGoldSinceLastTrain + n))
  }

  /** Raising the counter by `a` and then by `b` raises it by `a + b`. */
  lemma BumpTwice(settings: Option<SystemSettings>, a: nat, b: nat)
    ensures BumpCounter(BumpCounter(settings, a), b) == BumpCounter(settings, a + b)
  {
  }

  /** One request applied to the table: the named row reviewed, or the
      table as it was when no row has that identity. */
  function ReviewOnce(rows: seq<SampleRow>, request: ReviewRequest): (after: seq<SampleRow>)
    ensures |after| == |rows|
    ensures forall i :: 0 <= i < |rows| ==> after[i].id == rows[i].id
  {
    match FindRow(rows, request.sampleId)
    case None => rows
    case Some(k) => rows[k := ReviewRow(rows[k], request.isPollen)]
  }

  /** Look the sample up by identity and, when it exists, give it the
      human label and the Reviewed status. */
  method ApplyReview(db: AppDb, request: ReviewRequest) returns (found: bool)
    requires db.DistinctIds()
    modifies db.samples
    ensures db.samples == old(db.samples)
    ensures found <==> FindRow(old(db.Rows()), request.sampleId).Some?
    ensures db.Rows() == ReviewOnce(old(db.Rows()), request)
  {
    ghost var rows0 := db.Rows();
    var at := FindRow(db.Rows(), request.sampleId);
    if at.None? {
      return false;
    }
    var k := at.value;
    var sample := db.samples[k];
    assert forall i :: 0 <= i < |db.samples| && i != k ==> db.samples[i] != sample by {
      assert forall i :: 0 <= i < |db.samples| && i != k ==> db.samples[i].id != db.samples[k].id;
    }
    sample.humanLabel := Some(ReviewLabel(request.isPollen));
    sample.status := Reviewed;
    assert db.Rows() == rows0[k := ReviewRow(rows0[k], request.isPollen)];
    found := true;
  }

  datatype ReviewOutcome =
    | SampleNotFound                         // 404
    | ReviewSaved(sampleId: Guid, assignedLabel: string)

  /** Review of one sample. */
  method ReviewSample(db: AppDb, request: ReviewRequest) returns (r: ReviewOutcome)
    requires db.Valid()
    modifies db`settings, db.samples
    ensures db.Valid()
    ensures FindRow(old(db.Rows()), request.sampleId).None? ==>
              r == SampleNotFound && db.Rows() == old(db.Rows()) && db.settings == old(db.settings)
    ensures FindRow(old(db.Rows()), request.sampleId).Some? ==>
              && r == ReviewSaved(request.sampleId, ReviewLabel(request.isPollen))
              && db.Rows() == ReviewOnce(old(db.Rows()), request)
              && db.settings == BumpCounter(old(db.settings), 1)
  {
    var found := ApplyReview(db, request);
    if !found {
      return SampleNotFound;
    }
    db.settings := BumpCounter(db.settings, 1);
    r := ReviewSaved(request.sampleId, ReviewLabel(request.isPollen));
  }

  /** The table after the requests are applied one after another: an
      unknown identity is skipped, and a later request for the same sample
      overwrites an earlier one. */
  function ApplyReviews(rows: seq<SampleRow>, requests: seq<ReviewRequest>): (after: seq<SampleRow>)
    decreases |requests|
    ensures |after| == |rows|
    ensures forall i :: 0 <= i < |rows| ==> after[i].id == rows[i].id
  {
    if requests == [] then rows
    else
      ReviewOnce(ApplyReviews(rows, requests[..|requests| - 1]), requests[|requests| - 1])
  }

  /** The number of requests naming a stored sample; a sample named twice
      counts twice. */
  function ReviewedCount(rows: seq<SampleRow>, requests: seq<ReviewRequest>): (n: nat)
    decreases |requests|
    ensures n <= |requests|
  {
    if requests == [] then 0
    else
      ReviewedCount(rows, requests[..|requests| - 1])
      + (if FindRow(rows, requests[|requests| - 1].sampleId).Some? then 1 else 0)
  }

  datatype BulkOutcome =
    | NoReviewsProvided            // 400: an empty list
    | BulkSaved(reviewedCount: nat)

  /** Bulk review: the requests in order, with a single save at the end. */
  method ReviewBulk(db: AppDb, requests: seq<ReviewRequest>) returns (r: BulkOutcome)
    requires db.Valid()
    modifies db`settings, db.samples
    ensures db.Valid()
    ensures requests == [] ==>
              r == NoReviewsProvided && db.Rows() == old(db.Rows()) && db.settings == old(db.settings)
    ensures requests != [] ==>
              && r == BulkSaved(ReviewedCount(old(db.Rows()), requests))
              && db.Rows() == ApplyReviews(old(db.Rows()), requests)
              && db.settings == BumpCounter(old(db.settings), ReviewedCount(old(db.Rows()), requests))
  {
    if requests == [] {
      return NoReviewsProvided;
    }
    ghost var rows0 := db.Rows();
    ghost var settings0 := db.settings;
    var reviewedCount := 0;
    var i := 0;
    while i < |requests|
      invariant 0 <= i <= |requests|
      invariant db.samples == old(db.samples) && db.DistinctIds()
      invariant db.Rows() == ApplyReviews(rows0, requests[..i])
      invariant reviewedCount == ReviewedCount(rows0, requests[..i])
      invariant db.settings == BumpCounter(settings0, reviewedCount)
    {
      var found := ReviewNext(db, rows0, requests, i);
      ReviewsExtend(rows0, requests, i);
      reviewedCount := CountReview(db, settings0, reviewedCount, found);
      i := i + 1;
    }
    assert requests[..i] == requests;
    r := BulkSaved(reviewedCount);
  }

  /** The table step of the bulk loop: request `i` is applied, and it
      finds its sample exactly when that sample was in the original table. */
  method ReviewNext(db: AppDb, ghost rows0: seq<SampleRow>, requests: seq<ReviewRequest>, i: nat)
    returns (found: bool)
    requires i < |requests| && db.DistinctIds()
    requires db.Rows() == ApplyReviews(rows0, requests[..i])
    modifies db.samples
    ensures db.samples == old(db.samples) && db.DistinctIds() && db.settings == old(db.settings)
    ensures db.Rows() == ApplyReviews(rows0, requests[..i + 1])
    ensures found <==> FindRow(rows0, requests[i].sampleId).Some?
  {
    ReviewsExtend(rows0, requests, i);
    found := ApplyReview(db, requests[i]);
  }

  /** The counter step of the bulk loop: one more when the request found
      its sample; the table is left alone. */
  method CountReview(db: AppDb, ghost settings0: Option<SystemSettings>, counted: nat, found: bool)
    returns (countedNext: nat)
    requires db.settings == BumpCounter(settings0, counted)
    modifies db`settings
    ensures countedNext == counted + (if found then 1 else 0)
    ensures db.settings == BumpCounter(settings0, countedNext)
    ensures db.samples == old(db.samples) && db.Rows() == old(db.Rows())
  {
    countedNext := counted;
    if found {
      BumpTwice(settings0, counted, 1);
      db.settings := BumpCounter(db.settings, 1);
      countedNext := counted + 1;
    }
  }

  /** One more request: the fold and the count each take one step, and
      the request finds its sample in the folded table exactly when it
      would have found it in the original one. */
  lemma ReviewsExtend(rows: seq<SampleRow>, requests: seq<ReviewRequest>, i: nat)
    requires i < |requests|
    ensures ApplyReviews(rows, requests[..i + 1]) == ReviewOnce(ApplyReviews(rows, requests[..i]), requests[i])
    ensures ReviewedCount(rows, requests[..i + 1])
              == ReviewedCount(rows, requests[..i]) + (if FindRow(rows, requests[i].sampleId).Some? then 1 else 0)
    ensures (FindRow(rows, requests[i].sampleId).Some?)
        <==> FindRow(ApplyReviews(rows, requests[..i]), requests[i].sampleId).Some?
  {
    assert requests[..i + 1][..i] == requests[..i];
    FoundAgrees(rows, ApplyReviews(rows, requests[..i]), requests[i].sampleId);
  }

  /** Two tables with the same identities at the same positions find the
      same identities. */
  lemma FoundAgrees(a: seq<SampleRow>, b: seq<SampleRow>, id: Guid)
    requires |a| == |b| && forall i :: 0 <= i < |a| ==> a[i].id == b[i].id
    ensures FindRow(a, id).Some? <==> FindRow(b, id).Some?
  {
    if FindRow(a, id).Some? {
      assert b[FindRow(a, id).value].id == id;
    }
    if FindRow(b, id).Some? {
      assert a[FindRow(b, id).value].id == id;
    }
  }
}
