/** Seeding an empty database from the bee image dataset: the CSV records
    are split by their pollen flag, the Pollen class is oversampled to
    exactly 500 samples, at most 500 NoPollen samples are drawn, and the
    result is stored as gold data only when both classes are present. The
    CSV file, the image files, the model file and the random shuffle are
    inputs. */
module DatabaseSeeder {
  import opened Domain
  import opened Store

  /** One CSV line: the image file name and the raw pollen flag (null when
      the column is empty in a way the reader turns into null). */
  datatype BeeCsvRecord = BeeCsvRecord(file: string, pollenCarrying: Option<string>)

  /** An image kept for seeding: its full path and its record. */
  datatype ImageEntry = ImageEntry(path: string, record: BeeCsvRecord)

  const TargetPerClass: nat := 500

  function Min(a: int, b: int): int
  {
    if a <= b then a else b
  }

  /** White space, as far as the flag values can contain it. */
  predicate IsWhiteSpace(c: char)
  {
    c == ' ' || c == '\t' || c == '\n' || c == '\r' || c == '\U{000B}' || c == '\U{000C}'
    || c == '\U{0085}' || c == '\U{00A0}'
  }

  /** `TrimStart()`: white space removed from the front; `TrimStartCuts`
      says what is removed. */
  function TrimStart(s: string): (t: string)
    ensures |t| <= |s|
    ensures t == [] || !IsWhiteSpace(t[0])
  {
    if s != [] && IsWhiteSpace(s[0]) then TrimStart(s[1..]) else s
  }

  /** `TrimEnd()`: white space removed from the back; `TrimEndCuts` says
      what is removed. */
  function TrimEnd(s: string): (t: string)
    ensures |t| <= |s| && (t != [] ==> t[0] == s[0])
    ensures t == [] || !IsWhiteSpace(t[|t| - 1])
  {
    if s != [] && IsWhiteSpace(s[|s| - 1]) then TrimEnd(s[..|s| - 1]) else s
  }

  /** `Trim()`: white space removed from both ends; `TrimCuts` says what is
      removed. */
  function Trim(s: string): (t: string)
    ensures |t| <= |s|
    ensures t == [] || (!IsWhiteSpace(t[0]) && !IsWhiteSpace(t[|t| - 1]))
  {
    TrimEnd(TrimStart(s))
  }

  /** `TrimStart` keeps a suffix and cuts only white space. */
  lemma {:induction false} TrimStartCuts(s: string)
    ensures TrimStart(s) == s[|s| - |TrimStart(s)|..]
    ensures forall i :: 0 <= i < |s| - |TrimStart(s)| ==> IsWhiteSpace(s[i])
  {
    if s != [] && IsWhiteSpace(s[0]) {
      TrimStartCuts(s[1..]);
      assert s[1..][|s| - 1 - |TrimStart(s)|..] == s[|s| - |TrimStart(s)|..];
    }
  }

  /** `TrimEnd` keeps a prefix and cuts only white space. */
  lemma {:induction false} TrimEndCuts(s: string)
    ensures TrimEnd(s) == s[..|TrimEnd(s)|]
    ensures forall i :: |TrimEnd(s)| <= i < |s| ==> IsWhiteSpace(s[i])
  {
    if s != [] && IsWhiteSpace(s[|s| - 1]) {
      TrimEndCuts(s[..|s| - 1]);
    }
  }

  /** `Trim` keeps a middle slice and cuts only white space on either side;
      together with its own ensures this pins the result down. */
  lemma TrimCuts(s: string)
    ensures exists k :: 0 <= k <= |s| - |Trim(s)| && Trim(s) == s[k..][..|Trim(s)|]
                        && (forall i :: 0 <= i < k ==> IsWhiteSpace(s[i]))
                        && (forall i :: k + |Trim(s)| <= i < |s| ==> IsWhiteSpace(s[i]))
  {
    var m := TrimStart(s);
    var t := Trim(s);
    TrimStartCuts(s);
    TrimEndCuts(m);
    var k := |s| - |m|;
    assert m == s[k..] && t == m[..|t|];
    assert forall i :: k + |t| <= i < |s| ==> s[i] == m[i - k];
  }

  /** The upper-case form of a letter a to z; any other character is
      kept. */
  function UpperChar(c: char): (u: char)
    ensures 'a' <= c <= 'z' ==> u as int == c as int - 32 && 'A' <= u <= 'Z'
    ensures !('a' <= c <= 'z') ==> u == c
    ensures IsWhiteSpace(u) <==> IsWhiteSpace(c)
  {
    if 'a' <= c <= 'z' then (c as int - 'a' as int + 'A' as int) as char else c
  }

  /** `ToUpper()` on the letters a to z. */
  function ToUpper(s: string): (u: string)
    ensures |u| == |s|
    ensures forall i :: 0 <= i < |s| ==> u[i] == UpperChar(s[i])
  {
    seq(|s|, i requires 0 <= i < |s| => UpperChar(s[i]))
  }

  /** The parsed flag: the trimmed, upper-cased value is TRUE, 1 or YES; a
      null value is not. */
  predicate HasPollen(raw: Option<string>)
  {
    raw.Some? && ToUpper(Trim(raw.value)) in {"TRUE", "1", "YES"}
  }

  /** The entries of one class, in record order: records whose image file
      exists and whose flag parses to `wantPollen`. */
  function Classified(records: seq<BeeCsvRecord>, imagePathOf: string -> string,
                      fileExists: string -> bool, wantPollen: bool): (entries: seq<ImageEntry>)
    decreases |records|
    ensures |entries| <= |records|
    ensures forall e :: e in entries ==>
              && e.path == imagePathOf(e.record.file) && fileExists(e.path)
              && HasPollen(e.record.pollenCarrying) == wantPollen
    ensures forall i :: 0 <= i < |records| && fileExists(imagePathOf(records[i].file))
                        && HasPollen(records[i].pollenCarrying) == wantPollen ==>
              ImageEntry(imagePathOf(records[i].file), records[i]) in entries
  {
    if records == [] then []
    else
      var init := records[..|records| - 1];
      var before := Classified(init, imagePathOf, fileExists, wantPollen);
      var r := records[|records| - 1];
      assert forall i :: 0 <= i < |init| ==> init[i] == records[i];
      var path := imagePathOf(r.file);
      if fileExists(path) && HasPollen(r.pollenCarrying) == wantPollen
      then before + [ImageEntry(path, r)]
      else before
  }

  /** The number of records whose image file exists. */
  function CountExisting(records: seq<BeeCsvRecord>, imagePathOf: string -> string,
                         fileExists: string -> bool): (n: nat)
    decreases |records|
    ensures n <= |records|
  {
    if records == [] then 0
    else CountExisting(records[..|records| - 1], imagePathOf, fileExists)
         + (if fileExists(imagePathOf(records[|records| - 1].file)) then 1 else 0)
  }

  /** The first loop: the two lists are the two classes, so each record
      with an existing image goes to the list its flag selects and never to
      the other (`PartitionExact`); the others are skipped, and the two sizes
      add up to the number of records kept. */
  method PartitionRecords(records: seq<BeeCsvRecord>, imagePathOf: string -> string,
                          fileExists: string -> bool)
    returns (pollenImages: seq<ImageEntry>, noPollenImages: seq<ImageEntry>)
    ensures pollenImages == Classified(records, imagePathOf, fileExists, true)
    ensures noPollenImages == Classified(records, imagePathOf, fileExists, false)
    ensures |pollenImages| + |noPollenImages| == CountExisting(records, imagePathOf, fileExists)
  {
    pollenImages := [];
    noPollenImages := [];
    var i := 0;
    while i < |records|
      invariant 0 <= i <= |records|
      invariant pollenImages == Classified(records[..i], imagePathOf, fileExists, true)
      invariant noPollenImages == Classified(records[..i], imagePathOf, fileExists, false)
    {
      var r := records[i];
      assert records[..i + 1][..i] == records[..i];
      var fullImgPath := imagePathOf(r.file);
      if fileExists(fullImgPath) {
        if HasPollen(r.pollenCarrying) {
          pollenImages := pollenImages + [ImageEntry(fullImgPath, r)];
        } else {
          noPollenImages := noPollenImages + [ImageEntry(fullImgPath, r)];
        }
      }
      i := i + 1;
    }
    assert records[..i] == records;
    PartitionSizes(records, imagePathOf, fileExists);
  }

  /** A record with an existing image is an entry of the class its flag
      selects and of no other. */
  lemma PartitionExact(records: seq<BeeCsvRecord>, imagePathOf: string -> string,
                       fileExists: string -> bool, i: nat)
    requires i < |records| && fileExists(imagePathOf(records[i].file))
    ensures (ImageEntry(imagePathOf(records[i].file), records[i]) in Classified(records, imagePathOf, fileExists, true))
            <==> HasPollen(records[i].pollenCarrying)
    ensures (ImageEntry(imagePathOf(records[i].file), records[i]) in Classified(records, imagePathOf, fileExists, false))
            <==> !HasPollen(records[i].pollenCarrying)
  {
  }

  /** `(int)Math.Ceiling((double)a / b)` for the small positive values it
      is used with. */
  function CeilDiv(a: nat, b: nat): (q: nat)
    requires b > 0
    ensures q * b >= a
  {
    (a + b - 1) / b
  }

  /** A positive multiple of `n` is at least `n`. */
  lemma {:induction false} MultipleAtLeast(a: int, n: nat)
    requires a >= 1
    ensures a * n >= n
  {
    if a > 1 {
      MultipleAtLeast(a - 1, n);
      assert a * n == (a - 1) * n + n;
    }
  }

  /** Position `i * n + j` of the cycle through `n` images is image `j`. */
  lemma CyclePosition(i: nat, n: nat, j: nat)
    requires j < n
    ensures (i * n + j) % n == j
  {
    var x := i * n + j;
    var q, r := x / n, x % n;
    assert x == q * n + r;
    assert (q - i) * n == j - r;
    if q > i {
      MultipleAtLeast(q - i, n);
    } else if q < i {
      MultipleAtLeast(i - q, n);
      assert false;
    }
  }

  /** The oversampling loops: `factor` passes over the Pollen images, each
      stopping once 500 have been added. The result cycles through the
      images in order until it holds exactly 500 paths. */
  method OversamplePollen(pollenImages: seq<ImageEntry>) returns (paths: seq<string>)
    requires |pollenImages| > 0
    ensures |paths| == TargetPerClass
    ensures forall k :: 0 <= k < |paths| ==> paths[k] == pollenImages[k % |pollenImages|].path
  {
    var n := |pollenImages|;
    var oversampleFactor := CeilDiv(TargetPerClass, n);
    paths := [];
    var addedPollen := 0;
    var i := 0;
    while i < oversampleFactor && addedPollen < TargetPerClass
      invariant 0 <= i <= oversampleFactor
      invariant addedPollen == |paths| == Min(i * n, TargetPerClass)
      invariant forall k :: 0 <= k < |paths| ==> paths[k] == pollenImages[k % n].path
    {
      var j := 0;
      while j < n
        invariant 0 <= j <= n
        invariant addedPollen == |paths| == Min(i * n + j, TargetPerClass)
        invariant forall k :: 0 <= k < |paths| ==> paths[k] == pollenImages[k % n].path
      {
        if addedPollen >= TargetPerClass {
          break;
        }
        CyclePosition(i, n, j);
        paths := paths + [pollenImages[j].path];
        addedPollen := addedPollen + 1;
        j := j + 1;
      }
      assert (i + 1) * n == i * n + n;
      i := i + 1;
    }
  }

  /** The NoPollen draw: a shuffle of the images (any order at all), of
      which the first 500 are kept. */
  method SampleNoPollen(noPollenImages: seq<ImageEntry>) returns (sampled: seq<ImageEntry>)
    ensures |sampled| == Min(|noPollenImages|, TargetPerClass)
    ensures multiset(sampled) <= multiset(noPollenImages)
  {
    assert multiset(noPollenImages) == multiset(noPollenImages);
    var shuffled :| multiset(shuffled) == multiset(noPollenImages);
    assert |shuffled| == |multiset(shuffled)| == |noPollenImages|;
    sampled := shuffled[..Min(|shuffled|, TargetPerClass)];
    assert shuffled == sampled + shuffled[|sampled|..];
    assert multiset(shuffled) == multiset(sampled) + multiset(shuffled[|sampled|..]);
  }

  function PathsOf(entries: seq<ImageEntry>): (paths: seq<string>)
    ensures |paths| == |entries|
    ensures forall k :: 0 <= k < |entries| ==> paths[k] == entries[k].path
  {
    seq(|entries|, k requires 0 <= k < |entries| => entries[k].path)
  }

  /** A seeded sample: gold data of the pollen task for the given image. */
  predicate IsSeededRow(row: SampleRow, path: string, className: string, now: int)
  {
    && row.imagePath == path && row.capturedAt == now && row.humanLabel == Some(className)
    && row.taskType == TaskType.Pollen && row.status == Reviewed
  }

  /** New Reviewed samples of the pollen task, one per path and in order,
      each with two fresh identities and the given label. */
  method NewReviewedSamples(db: AppDb, paths: seq<string>, className: string, now: int)
    returns (made: seq<HiveImageSample>)
    requires db.Valid()
    modifies db`lastGuid
    ensures db.Valid()
    ensures |made| == |paths| && old(db.lastGuid) <= db.lastGuid
    ensures forall k :: 0 <= k < |made| ==> fresh(made[k])
    ensures forall k :: 0 <= k < |made| ==> IsSeededRow(made[k].Row(), paths[k], className, now)
    ensures forall k :: 0 <= k < |made| ==> old(db.lastGuid) < made[k].id <= db.lastGuid
    ensures forall i, j :: 0 <= i < j < |made| ==> made[i].id < made[j].id
  {
    made := [];
    var k := 0;
    while k < |paths|
      invariant 0 <= k <= |paths| && |made| == k
      invariant db.Valid() && old(db.lastGuid) <= db.lastGuid
      invariant forall m :: 0 <= m < k ==> fresh(made[m])
      invariant forall m :: 0 <= m < k ==> IsSeededRow(made[m].Row(), paths[m], className, now)
      invariant forall m :: 0 <= m < k ==> old(db.lastGuid) < made[m].id <= db.lastGuid
      invariant forall i, j :: 0 <= i < j < k ==> made[i].id < made[j].id
    {
      var id := db.NewGuid();
      var hiveId := db.NewGuid();
      var sample := new HiveImageSample(id, hiveId, paths[k], now, Some(className), TaskType.Pollen, Reviewed);
      made := made + [sample];
      k := k + 1;
    }
  }

  /** Two batches of identities drawn one after the other, each increasing,
      are distinct and all issued. */
  lemma FreshBatchesDistinct(a: seq<HiveImageSample>, b: seq<HiveImageSample>, lo: nat, mid: nat, hi: nat)
    requires lo <= mid <= hi
    requires forall k :: 0 <= k < |a| ==> lo < a[k].id <= mid
    requires forall k :: 0 <= k < |b| ==> mid < b[k].id <= hi
    requires forall i, j :: 0 <= i < j < |a| ==> a[i].id < a[j].id
    requires forall i, j :: 0 <= i < j < |b| ==> b[i].id < b[j].id
    ensures forall i, j :: 0 <= i < j < |a + b| ==> (a + b)[i].id < (a + b)[j].id
    ensures forall k :: 0 <= k < |a + b| ==> lo < (a + b)[k].id <= hi
  {
  }

  /** The stored table after a successful seeding: first the 500 Pollen
      samples cycling through the Pollen images, then one NoPollen sample
      per kept NoPollen image. */
  ghost predicate SeededTable(samples: seq<HiveImageSample>, pollenImages: seq<ImageEntry>,
                              keptNoPollen: seq<ImageEntry>, now: int)
    requires |pollenImages| > 0
    reads samples
  {
    && |samples| == TargetPerClass + |keptNoPollen|
    && (forall k :: 0 <= k < TargetPerClass ==>
          IsSeededRow(samples[k].Row(), pollenImages[k % |pollenImages|].path, PollenLabel, now))
    && (forall k :: 0 <= k < |keptNoPollen| ==>
          IsSeededRow(samples[TargetPerClass + k].Row(), keptNoPollen[k].path, NoPollenLabel, now))
  }

  /** The counter after seeding: every seeded sample counts as new gold data
      when no model file exists yet, none does when one exists. */
  function CounterAfterSeeding(settings: Option<SystemSettings>, modelFileExists: bool, seeded: nat)
    : (after: Option<SystemSettings>)
    ensures after.None? <==> settings.None?
    ensures settings.Some? ==>
              && after.value.newGoldSinceLastTrain == (if modelFileExists then 0 else seeded)
              && after.value.(newGoldSinceLastTrain := settings.value.newGoldSinceLastTrain) == settings.value
  {
    match settings
    case None => None
    case Some(s) => Some(s.(newGoldSinceLastTrain := if modelFileExists then 0 else seeded))
  }

  datatype SeedOutcome =
    | AlreadySeeded                      // some sample exists: nothing to do
    | CsvMissing                         // no CSV file
    | MissingClass                       // one class ended up empty: nothing stored
    | Seeded(pollenCount: nat, noPollenCount: nat)

  /** The seeder. `csv` holds the records, or None when the CSV file is
      missing; `imagePathOf` maps a file name to its full path in the image
      folder; `fileExists` and `modelFileExists` stand for the file system;
      `now` is the clock. `keptNoPollen` reports the NoPollen images the
      shuffle kept. */
  method Seed(db: AppDb, csv: Option<seq<BeeCsvRecord>>, imagePathOf: string -> string,
              fileExists: string -> bool, modelFileExists: bool, now: int)
    returns (r: SeedOutcome, keptNoPollen: seq<ImageEntry>)
    requires db.Valid()
    modifies db`samples, db`lastGuid, db`settings
    ensures db.Valid()
    ensures old(db.samples) != [] ==>
              r == AlreadySeeded && db.samples == old(db.samples) && db.settings == old(db.settings)
    ensures old(db.samples) == [] && csv.None? ==>
              r == CsvMissing && db.samples == [] && db.settings == old(db.settings)
    ensures old(db.samples) == [] && csv.Some? ==>
              Balanced(r, keptNoPollen, db.samples, db.settings, old(db.settings),
                       Classified(csv.value, imagePathOf, fileExists, true),
                       Classified(csv.value, imagePathOf, fileExists, false), modelFileExists, now)
  {
    keptNoPollen := [];
    if |db.samples| > 0 {
      return AlreadySeeded, keptNoPollen;
    }
    if csv.None? {
      return CsvMissing, keptNoPollen;
    }
    var pollenImages, noPollenImages := PartitionRecords(csv.value, imagePathOf, fileExists);
    r, keptNoPollen := BalanceAndStore(db, pollenImages, noPollenImages, modelFileExists, now);
  }

  /** What balancing leaves behind: nothing stored when a class is empty;
      otherwise 500 Pollen samples and up to 500 NoPollen ones drawn from
      their images, and the counter set as the model file dictates. */
  ghost predicate Balanced(r: SeedOutcome, keptNoPollen: seq<ImageEntry>, samples: seq<HiveImageSample>,
                           settings: Option<SystemSettings>, settings0: Option<SystemSettings>,
                           pollenImages: seq<ImageEntry>, noPollenImages: seq<ImageEntry>,
                           modelFileExists: bool, now: int)
    reads samples
  {
    && (r == MissingClass <==> pollenImages == [] || noPollenImages == [])
    && (r == MissingClass ==> samples == [] && settings == settings0)
    && (r != MissingClass ==>
          && |pollenImages| > 0
          && r == Seeded(TargetPerClass, Min(|noPollenImages|, TargetPerClass))
          && |keptNoPollen| == Min(|noPollenImages|, TargetPerClass)
          && multiset(keptNoPollen) <= multiset(noPollenImages)
          && SeededTable(samples, pollenImages, keptNoPollen, now)
          && settings == CounterAfterSeeding(settings0, modelFileExists, |samples|))
  }

  /** Oversampling, sampling, the class check and the write, on an empty
      table. */
  method BalanceAndStore(db: AppDb, pollenImages: seq<ImageEntry>, noPollenImages: seq<ImageEntry>,
                         modelFileExists: bool, now: int)
    returns (r: SeedOutcome, keptNoPollen: seq<ImageEntry>)
    requires db.Valid() && db.samples == []
    modifies db`samples, db`lastGuid, db`settings
    ensures db.Valid()
    ensures Balanced(r, keptNoPollen, db.samples, db.settings, old(db.settings),
                     pollenImages, noPollenImages, modelFileExists, now)
  {
    var pollenPaths: seq<string> := [];
    if |pollenImages| > 0 {
      pollenPaths := OversamplePollen(pollenImages);
    }
    keptNoPollen := [];
    if |noPollenImages| > 0 {
      keptNoPollen := SampleNoPollen(noPollenImages);
    }
    ghost var g0 := db.lastGuid;
    var pollenSamples := NewReviewedSamples(db, pollenPaths, PollenLabel, now);
    ghost var g1 := db.lastGuid;
    var noPollenSamples := NewReviewedSamples(db, PathsOf(keptNoPollen), NoPollenLabel, now);

    // Every sample of the first batch is labelled Pollen and every one of
    // the second NoPollen, so the batch sizes are the label counts.
    if |pollenSamples| == 0 || |noPollenSamples| == 0 {
      return MissingClass, keptNoPollen;
    }
    FreshBatchesDistinct(pollenSamples, noPollenSamples, g0, g1, db.lastGuid);
    StoreTrainingSet(db, pollenSamples + noPollenSamples, modelFileExists);
    BatchesFormSeededTable(pollenSamples, noPollenSamples, pollenImages, pollenPaths, keptNoPollen, now);
    r := Seeded(|pollenSamples|, |noPollenSamples|);
  }

  /** The Pollen batch followed by the NoPollen batch is the seeded table. */
  lemma BatchesFormSeededTable(a: seq<HiveImageSample>, b: seq<HiveImageSample>,
                               pollenImages: seq<ImageEntry>, pollenPaths: seq<string>,
                               keptNoPollen: seq<ImageEntry>, now: int)
    requires |pollenImages| > 0 && |pollenPaths| == TargetPerClass
    requires forall k :: 0 <= k < |pollenPaths| ==> pollenPaths[k] == pollenImages[k % |pollenImages|].path
    requires |a| == |pollenPaths| && forall k :: 0 <= k < |a| ==> IsSeededRow(a[k].Row(), pollenPaths[k], PollenLabel, now)
    requires |b| == |keptNoPollen|
    requires forall k :: 0 <= k < |b| ==> IsSeededRow(b[k].Row(), PathsOf(keptNoPollen)[k], NoPollenLabel, now)
    ensures SeededTable(a + b, pollenImages, keptNoPollen, now)
  {
  }

  /** `AddRange` onto the empty table, then the counter. */
  method StoreTrainingSet(db: AppDb, finalTrainingSet: seq<HiveImageSample>, modelFileExists: bool)
    requires db.Valid() && db.samples == []
    requires forall i, j :: 0 <= i < j < |finalTrainingSet| ==> finalTrainingSet[i].id < finalTrainingSet[j].id
    requires forall k :: 0 <= k < |finalTrainingSet| ==> EmptyGuid < finalTrainingSet[k].id <= db.lastGuid
    modifies db`samples, db`settings
    ensures db.Valid()
    ensures db.samples == finalTrainingSet
    ensures db.settings == CounterAfterSeeding(old(db.settings), modelFileExists, |finalTrainingSet|)
  {
    db.samples := finalTrainingSet;
    var settings := db.settings;
    if settings.Some? {
      var counter := if modelFileExists then 0 else |finalTrainingSet|;
      db.settings := Some(settings.value.(newGoldSinceLastTrain := counter));
    }
  }

  /** Upper-casing is idempotent. */
  lemma ToUpperIdempotent(s: string)
    ensures ToUpper(ToUpper(s)) == ToUpper(s)
  {
  }

  /** Leading white space of a concatenation. */
  lemma {:induction false} TrimStartAppend(s: string, t: string)
    ensures TrimStart(s + t) == if TrimStart(s) == [] then TrimStart(t) else TrimStart(s) + t
  {
    if s != [] {
      assert (s + t)[1..] == s[1..] + t;
      if IsWhiteSpace(s[0]) {
        TrimStartAppend(s[1..], t);
      }
    } else {
      assert s + t == t;
    }
  }

  /** Trailing white space added to a value that does not end in white
      space is removed again. */
  lemma TrimEndPadding(s: string, c: char)
    requires IsWhiteSpace(c)
    ensures TrimEnd(s + [c]) == TrimEnd(s)
  {
    assert (s + [c])[..|s|] == s;
  }

  /** Upper-casing keeps white space where it is, so leading white space
      is cut alike before and after it. */
  lemma {:induction false} TrimStartUpper(s: string)
    ensures TrimStart(ToUpper(s)) == ToUpper(TrimStart(s))
  {
    if s != [] {
      assert ToUpper(s)[1..] == ToUpper(s[1..]);
      if IsWhiteSpace(s[0]) {
        TrimStartUpper(s[1..]);
      }
    }
  }

  /** The same for trailing white space. */
  lemma {:induction false} TrimEndUpper(s: string)
    ensures TrimEnd(ToUpper(s)) == ToUpper(TrimEnd(s))
  {
    if s != [] {
      assert ToUpper(s)[..|s| - 1] == ToUpper(s[..|s| - 1]);
      if IsWhiteSpace(s[|s| - 1]) {
        TrimEndUpper(s[..|s| - 1]);
      }
    }
  }

  /** Trimming and upper-casing commute, so the flag parse would not change
      if the two were done the other way round. */
  lemma TrimUpper(s: string)
    ensures Trim(ToUpper(s)) == ToUpper(Trim(s))
  {
    TrimStartUpper(s);
    TrimEndUpper(TrimStart(s));
  }

  /** A space on either side is trimmed away. */
  lemma TrimPadded(s: string)
    ensures Trim(" " + s + " ") == Trim(s)
  {
    assert " " + s + " " == [' '] + (s + " ");
    assert TrimStart(" " + s + " ") == TrimStart(s + " ");
    TrimStartAppend(s, " ");
    if TrimStart(s) == [] {
      assert TrimStart(" ") == [];
    } else {
      TrimEndPadding(TrimStart(s), ' ');
    }
  }

  /** The flag ignores a space on either side. */
  lemma PaddedFlag(s: string)
    ensures HasPollen(Some(" " + s + " ")) == HasPollen(Some(s))
  {
    TrimPadded(s);
  }

  /** The flag ignores the case of its letters. */
  lemma CaseInsensitiveFlag(s: string)
    ensures HasPollen(Some(ToUpper(s))) == HasPollen(Some(s))
  {
    TrimUpper(s);
    ToUpperIdempotent(Trim(s));
  }

  /** A value with no white space at either end is its own trimmed form. */
  lemma TrimUnpadded(s: string)
    requires s != [] && !IsWhiteSpace(s[0]) && !IsWhiteSpace(s[|s| - 1])
    ensures Trim(s) == s
  {
  }

  /** Lower and mixed case are accepted. */
  lemma FlagAccepted()
    ensures HasPollen(Some("true")) && HasPollen(Some("Yes"))
  {
    TrimUnpadded("true");
    assert ToUpper("true") == "TRUE";
    TrimUnpadded("Yes");
    assert ToUpper("Yes") == "YES";
  }

  /** Other words and a missing value are refused. */
  lemma FlagRefused()
    ensures !HasPollen(Some("false")) && !HasPollen(None)
  {
    TrimUnpadded("false");
    assert ToUpper("false") == "FALSE";
  }

  /** Every record with an existing image lands in exactly one class. */
  lemma {:induction false} PartitionSizes(records: seq<BeeCsvRecord>, imagePathOf: string -> string,
                                          fileExists: string -> bool)
    ensures |Classified(records, imagePathOf, fileExists, true)|
            + |Classified(records, imagePathOf, fileExists, false)|
            == CountExisting(records, imagePathOf, fileExists)
  {
    if records != [] {
      PartitionSizes(records[..|records| - 1], imagePathOf, fileExists);
    }
  }
}
