/** The in-memory database the agents and the controllers share: a table of
    samples, a table of predictions and an optional settings row. A change
    becomes visible to the next reader as soon as it is made, so every
    `SaveChanges` of the source is simply the point where the state below
    is observed. */
module Store {
  import opened Domain

  /** The row of the sample with identity `id`, as `FindAsync` looks it up
      by primary key. */
  function FindRow(rows: seq<SampleRow>, id: Guid): (r: Option<nat>)
    ensures r.Some? ==> r.value < |rows| && rows[r.value].id == id
    ensures r.None? <==> forall i :: 0 <= i < |rows| ==> rows[i].id != id
  {
    if rows == [] then None
    else if rows[0].id == id then Some(0)
    else match FindRow(rows[1..], id)
      case None => None
      case Some(k) => Some(k + 1)
  }

  /** The predictions that belong to the sample `id`, in table order: the
      sample's `Predictions` navigation collection. */
  function PredictionsFor(predictions: seq<Prediction>, id: Guid): (r: seq<Prediction>)
    ensures |r| <= |predictions|
    ensures forall p :: p in r <==> p in predictions && p.sampleId == id
  {
    if predictions == [] then []
    else (if predictions[0].sampleId == id then [predictions[0]] else [])
         + PredictionsFor(predictions[1..], id)
  }

  class AppDb {
    var samples: seq<HiveImageSample>
    var predictions: seq<Prediction>
    var settings: Option<SystemSettings>
    /** The last identity handed out; identities are never reused. */
    var lastGuid: Guid

    /** Identities are unique and all handed out already, and every
        prediction belongs to a stored sample (the foreign key). */
    ghost predicate Valid()
      reads this`samples, this`predictions, this`lastGuid
    {
      && DistinctIds()
      && (forall i :: 0 <= i < |samples| ==> EmptyGuid < samples[i].id <= lastGuid)
      && (forall i :: 0 <= i < |predictions| ==> EmptyGuid < predictions[i].id <= lastGuid)
      && (forall i :: 0 <= i < |predictions| ==> predictions[i].sampleId in SampleIds())
    }

    /** No two stored samples share an identity (the primary key). */
    ghost predicate DistinctIds()
      reads this`samples
    {
      forall i, j :: 0 <= i < j < |samples| ==> samples[i].id != samples[j].id
    }

    /** The identities of the stored samples, in table order. */
    function SampleIds(): (ids: seq<Guid>)
      reads this`samples
      ensures |ids| == |samples|
      ensures forall i :: 0 <= i < |samples| ==> ids[i] == samples[i].id
    {
      var s := samples;
      seq(|s|, i requires 0 <= i < |s| => s[i].id)
    }

    /** The sample table as values. */
    function Rows(): (rows: seq<SampleRow>)
      reads this`samples, samples
      ensures |rows| == |samples|
    {
      var s := samples;
      seq(|s|, i reads s requires 0 <= i < |s| => s[i].Row())
    }

    /** An empty database holding only the given settings row (if any). */
    constructor (settings: Option<SystemSettings>)
      ensures Valid()
      ensures samples == [] && predictions == [] && this.settings == settings
    {
      samples := [];
      predictions := [];
      this.settings := settings;
      lastGuid := EmptyGuid;
    }

    /** `Guid.NewGuid()`: an identity never handed out before. */
    method NewGuid() returns (g: Guid)
      requires Valid()
      modifies this`lastGuid
      ensures Valid()
      ensures g == old(lastGuid) + 1 == lastGuid
    {
      lastGuid := lastGuid + 1;
      g := lastGuid;
    }

    /** `ImageSamples.Add`: a sample whose identity was handed out and
        is not yet stored goes to the end of the table. */
    method Add(sample: HiveImageSample)
      requires Valid() && EmptyGuid < sample.id <= lastGuid && sample.id !in SampleIds()
      modifies this`samples
      ensures Valid()
      ensures samples == old(samples) + [sample]
      ensures Rows() == old(Rows()) + [sample.Row()]
    {
      ghost var rows0 := Rows();
      ghost var ids0 := SampleIds();
      samples := samples + [sample];
      assert Rows() == rows0 + [sample.Row()];
      assert ids0 == SampleIds()[..|samples| - 1];
    }
  }

  /** A sample whose identity no prediction carries has an empty
      navigation collection. */
  lemma NoPredictionsForNewSample(predictions: seq<Prediction>, ids: seq<Guid>, id: Guid)
    requires forall i :: 0 <= i < |predictions| ==> predictions[i].sampleId in ids
    requires id !in ids
    ensures PredictionsFor(predictions, id) == []
  {
  }
}
