/** The plot bookkeeping of raster2sensor/plots.py: one Thing per plot feature of a
    plots file, extra Datastreams appended to existing Things, and the plots of a trial
    turned back into a GeoJSON FeatureCollection. Reading the file and the HTTP calls
    are inputs: the features read, the Things fetched and the store's answer. */
module Plots {
  import opened Wrappers
  import opened Text
  import opened SensorThings

  /** The `Plots` record: the trial, the property names of the plot and treatment
      identifiers, and the year. */
  datatype PlotsFile = PlotsFile(trialId: string, plotIdField: string, treatmentIdField: string, year: int)

  /** A feature of the plots file: its properties (values as text) and its geometry. */
  datatype PlotFeature = PlotFeature(properties: map<string, string>, geometry: Json)

  datatype PlotsError =
    | MissingPlotIdField   // KeyError: a feature lacks the plot id property
    | MissingThingField    // KeyError: a fetched Thing lacks `properties.trial_id`, `properties.plot_id` or `@iot.id`
    | BatchRejected        // the `$batch` post raised (re-raised)
    | NoPlotsFound         // ValueError: the trial has no plots
    | MissingGeometry      // KeyError/IndexError: a plot has no `Locations[0].location.geometry`
    | DatastreamRejected   // TypeError (older code only): its `Datastream` class takes no `properties`

  /** The treatment id of a feature: '' when no treatment field is configured or the
      feature lacks it. */
  function TreatmentId(p: PlotsFile, f: PlotFeature): string
  {
    if p.treatmentIdField != "" && p.treatmentIdField in f.properties then f.properties[p.treatmentIdField] else ""
  }

  /** A Datastream template with `{plot_id}` filled in and no Thing link. */
  function Instantiate(ds: Datastream, plotLabel: string): Datastream
  {
    ds.(name := FormatPlotId(ds.name, plotLabel), description := FormatPlotId(ds.description, plotLabel), thing := None)
  }

  function InstantiateAll(templates: seq<Datastream>, plotLabel: string): (r: seq<Datastream>)
    ensures |r| == |templates|
    ensures forall k :: 0 <= k < |r| ==> r[k] == Instantiate(templates[k], plotLabel)
  {
    if templates == [] then [] else [Instantiate(templates[0], plotLabel)] + InstantiateAll(templates[1..], plotLabel)
  }

  /** The Thing body built for one plot feature. */
  /** The plot id of a feature ('' only for a feature the loop never gets past). */
  function PlotId(p: PlotsFile, f: PlotFeature): string
  {
    if p.plotIdField in f.properties then f.properties[p.plotIdField] else ""
  }

  function PlotThing(p: PlotsFile, f: PlotFeature, templates: seq<Datastream>): Thing
  {
    var plotId := PlotId(p, f);
    var treatment := TreatmentId(p, f);
    var plotLabel := p.trialId + "-" + plotId;
    Thing(
      "Trial Plot - " + plotLabel + " ",
      "Agricultural trial plot " + plotId + " belonging to trial " + p.trialId,
      PlotProperties(p.trialId, plotId, if treatment != "" then Some(treatment) else None, p.year),
      [Location(
        "Location of Trial Plot - " + plotLabel,
        "Polygon Geometry for Trial Plot - " + plotLabel,
        "application/geo+json",
        JObj(map["type" := JStr("Feature"), "geometry" := f.geometry]),
        Some(JObj(map["trial_id" := JStr(p.trialId), "plot_id" := JStr(plotId)])))],
      InstantiateAll(templates, plotLabel))
  }

  /** The Thing of a feature carries its plot id, the file's trial id and year, exactly
      one Location holding the feature's geometry, one Datastream per template, and a
      `treatment_id` property exactly when the treatment id is non-empty. */
  lemma PlotThingSpec(p: PlotsFile, f: PlotFeature, templates: seq<Datastream>)
    requires p.plotIdField in f.properties
    ensures var t := PlotThing(p, f, templates);
      && t.properties.plotId == f.properties[p.plotIdField]
      && t.properties.trialId == p.trialId
      && t.properties.year == p.year
      && (t.properties.treatmentId.Some? <==>
            p.treatmentIdField != "" && p.treatmentIdField in f.properties && f.properties[p.treatmentIdField] != "")
      && (t.properties.treatmentId.Some? ==> t.properties.treatmentId.value == f.properties[p.treatmentIdField])
      && |t.locations| == 1
      && t.locations[0].location.JObj? && t.locations[0].location.fields["geometry"] == f.geometry
      && |t.datastreams| == |templates|
  {
  }

  predicate AllHavePlotId(p: PlotsFile, fs: seq<PlotFeature>)
  {
    forall k :: 0 <= k < |fs| ==> p.plotIdField in fs[k].properties
  }

  function PlotThings(p: PlotsFile, fs: seq<PlotFeature>, templates: seq<Datastream>): (things: seq<Thing>)
    ensures |things| == |fs|
  {
    if fs == [] then [] else PlotThings(p, fs[..|fs| - 1], templates) + [PlotThing(p, fs[|fs| - 1], templates)]
  }

  lemma {:induction false} PlotThingsAt(p: PlotsFile, fs: seq<PlotFeature>, templates: seq<Datastream>, k: nat)
    requires k < |fs|
    ensures PlotThings(p, fs, templates)[k] == PlotThing(p, fs[k], templates)
  {
    if k < |fs| - 1 {
      PlotThingsAt(p, fs[..|fs| - 1], templates, k);
    }
  }

  lemma PlotThingsSnoc(p: PlotsFile, fs: seq<PlotFeature>, i: nat, templates: seq<Datastream>)
    requires i < |fs|
    ensures PlotThings(p, fs[..i + 1], templates) == PlotThings(p, fs[..i], templates) + [PlotThing(p, fs[i], templates)]
  {
    assert fs[..i + 1][..i] == fs[..i];
  }

  /** The Things batch has one `post` to `Things` per feature, in file order, whose id
      is the feature's position. */
  lemma ThingsBatchAt(p: PlotsFile, fs: seq<PlotFeature>, templates: seq<Datastream>)
    ensures var batch := PostBatch(PlotThings(p, fs, templates), "Things", 0);
      |batch| == |fs| &&
      forall k :: 0 <= k < |fs| ==> batch[k] == Request(k, "post", "Things", PlotThing(p, fs[k], templates))
  {
    var things := PlotThings(p, fs, templates);
    PostBatchSpec(things, "Things", 0);
    forall k | 0 <= k < |fs|
      ensures PostBatch(things, "Things", 0)[k] == Request(k, "post", "Things", PlotThing(p, fs[k], templates))
    {
      PlotThingsAt(p, fs, templates, k);
    }
  }

  /** `Plots.create_sensorthings_things`: a KeyError when some feature lacks the plot
      id field (nothing is posted), otherwise the `$batch` of the features' Things. */
  method CreateSensorThingsThings(p: PlotsFile, features: seq<PlotFeature>, templates: seq<Datastream>)
    returns (r: Result<seq<Request<Thing>>, PlotsError>)
    ensures r.Failure? <==> !AllHavePlotId(p, features)
    ensures r.Failure? ==> r.error == MissingPlotIdField
    ensures r.Success? ==> r.value == PostBatch(PlotThings(p, features, templates), "Things", 0)
  {
    var things: seq<Thing> := [];
    var i := 0;
    while i < |features|
      invariant 0 <= i <= |features|
      invariant forall k :: 0 <= k < i ==> p.plotIdField in features[k].properties
      invariant things == PlotThings(p, features[..i], templates)
    {
      if p.plotIdField !in features[i].properties {
        r := Failure(MissingPlotIdField);
        return;
      }
      PlotThingsSnoc(p, features, i, templates);
      things := things + [PlotThing(p, features[i], templates)];
      i := i + 1;
    }
    assert features[..i] == features;
    r := Success(PostBatch(things, "Things", 0));
  }

  /** A Thing fetched by trial; None marks a missing `properties.trial_id`,
      `properties.plot_id` or `@iot.id`. */
  datatype TrialThing = TrialThing(iotId: Option<int>, trialId: Option<string>, plotId: Option<string>)

  /** What an appended Datastream needs from its Thing: the `@iot.id` to link to and the
      text that replaces `{plot_id}`. */
  datatype LinkTarget = LinkTarget(iotId: int, plotLabel: string)

  /** The link target of a fetched Thing, None when a looked-up field is missing. */
  function Target(t: TrialThing): (l: Option<LinkTarget>)
    ensures l.Some? <==> t.iotId.Some? && t.trialId.Some? && t.plotId.Some?
    ensures l.Some? ==> l.value == LinkTarget(t.iotId.value, t.trialId.value + "-" + t.plotId.value)
  {
    if t.iotId.Some? && t.trialId.Some? && t.plotId.Some?
    then Some(LinkTarget(t.iotId.value, t.trialId.value + "-" + t.plotId.value))
    else None
  }

  function Links(things: seq<TrialThing>): (ls: seq<Option<LinkTarget>>)
    ensures |ls| == |things|
    ensures forall k :: 0 <= k < |things| ==> ls[k] == Target(things[k])
  {
    if things == [] then [] else Links(things[..|things| - 1]) + [Target(things[|things| - 1])]
  }

  /** The `DatastreamAppend` body for one (Thing, template) pair. */
  function AppendFor(l: LinkTarget, ds: Datastream): Datastream
  {
    Instantiate(ds, l.plotLabel).(thing := Some(l.iotId))
  }

  function AppendsFor(l: LinkTarget, templates: seq<Datastream>): (r: seq<Datastream>)
    ensures |r| == |templates|
    ensures forall j :: 0 <= j < |r| ==> r[j] == AppendFor(l, templates[j])
  {
    if templates == [] then [] else AppendsFor(l, templates[..|templates| - 1]) + [AppendFor(l, templates[|templates| - 1])]
  }

  predicate AllLinked(ls: seq<Option<LinkTarget>>)
  {
    forall k :: 0 <= k < |ls| ==> ls[k].Some?
  }

  /** The row of appended Datastreams of one Thing; a Thing lacking a looked-up field
      never gets this far (the loop raises), so its row is left empty. */
  function Row(l: Option<LinkTarget>, templates: seq<Datastream>): seq<Datastream>
  {
    if l.Some? then AppendsFor(l.value, templates) else []
  }

  /** One row of appended Datastreams per Thing. */
  function Rows(ls: seq<Option<LinkTarget>>, templates: seq<Datastream>): (r: seq<seq<Datastream>>)
    ensures |r| == |ls|
    ensures forall k :: 0 <= k < |r| ==> r[k] == Row(ls[k], templates)
  {
    if ls == [] then [] else Rows(ls[..|ls| - 1], templates) + [Row(ls[|ls| - 1], templates)]
  }

  /** All appended Datastreams, Thing-major and template-minor. */
  function Appends(ls: seq<Option<LinkTarget>>, templates: seq<Datastream>): seq<Datastream>
  {
    Flatten(Rows(ls, templates))
  }

  /** There is one appended Datastream per (Thing, template) pair: the one at
      `i * |templates| + j` is template `j` linked to Thing `i`. */
  lemma AppendsSpec(ls: seq<Option<LinkTarget>>, templates: seq<Datastream>)
    requires AllLinked(ls)
    ensures |Appends(ls, templates)| == |ls| * |templates|
    ensures forall i, j :: 0 <= i < |ls| && 0 <= j < |templates| ==>
      Slot(i, j, |templates|) < |Appends(ls, templates)| &&
      Appends(ls, templates)[Slot(i, j, |templates|)] == AppendFor(ls[i].value, templates[j])
  {
    var rows := Rows(ls, templates);
    var n := |templates|;
    FlattenSpec(rows, n);
  }

  lemma AppendsSnoc(ls: seq<Option<LinkTarget>>, l: Option<LinkTarget>, templates: seq<Datastream>)
    ensures Appends(ls + [l], templates) == Appends(ls, templates) + Row(l, templates)
  {
    assert (ls + [l])[..|ls|] == ls;
    var rows := Rows(ls + [l], templates);
    assert rows[..|ls|] == Rows(ls, templates);
  }

  lemma LinksSnoc(things: seq<TrialThing>, i: nat)
    requires i < |things|
    ensures Links(things[..i + 1]) == Links(things[..i]) + [Target(things[i])]
    ensures AllLinked(Links(things[..i])) && Target(things[i]).Some? ==> AllLinked(Links(things[..i + 1]))
  {
    assert things[..i + 1][..i] == things[..i];
  }

  lemma Unlinked(things: seq<TrialThing>, i: nat)
    requires i < |things| && Target(things[i]).None?
    ensures !AllLinked(Links(things))
  {
    assert Links(things)[i] == Target(things[i]);
  }

  lemma RowStep(l: LinkTarget, templates: seq<Datastream>, j: nat, done: seq<Datastream>)
    requires j < |templates|
    ensures |PostBatch(done + Row(Some(l), templates[..j]), "Datastreams", 1)| == |done| + j
    ensures PostBatch(done + Row(Some(l), templates[..j + 1]), "Datastreams", 1)
      == PostBatch(done + Row(Some(l), templates[..j]), "Datastreams", 1) + [Request(|done| + j + 1, "post", "Datastreams", AppendFor(l, templates[j]))]
  {
    var row := Row(Some(l), templates[..j]);
    assert templates[..j + 1][..j] == templates[..j];
    assert Row(Some(l), templates[..j + 1]) == row + [AppendFor(l, templates[j])];
    assert done + (row + [AppendFor(l, templates[j])]) == (done + row) + [AppendFor(l, templates[j])];
    PostBatchSnoc(done + row, AppendFor(l, templates[j]), "Datastreams", 1);
  }

  /** The inner loop of `add_datastreams`: the posts of one Thing, numbered on from the
      batch so far (`len(post_datastreams) + 1`); `ok` is false when the Thing lacks a
      looked-up field and some template needs it. */
  method PostRow(l: Option<LinkTarget>, templates: seq<Datastream>, posts: seq<Request<Datastream>>, ghost done: seq<Datastream>)
    returns (ok: bool, posts': seq<Request<Datastream>>)
    requires posts == PostBatch(done, "Datastreams", 1)
    ensures ok <==> templates == [] || l.Some?
    ensures ok ==> posts' == PostBatch(done + Row(l, templates), "Datastreams", 1)
    ensures templates == [] ==> posts' == posts
  {
    posts' := posts;
    assert done + Row(l, templates[..0]) == done;
    var j := 0;
    while j < |templates|
      invariant 0 <= j <= |templates|
      invariant j > 0 ==> l.Some?
      invariant posts' == PostBatch(done + Row(l, templates[..j]), "Datastreams", 1)
    {
      if l.None? {
        return false, posts';
      }
      RowStep(l.value, templates, j, done);
      posts' := posts' + [Request(|posts'| + 1, "post", "Datastreams", AppendFor(l.value, templates[j]))];
      j := j + 1;
    }
    assert templates[..j] == templates;
    ok := true;
  }

  /** `Plots.add_datastreams`: one `post` to `Datastreams` per (Thing, template) pair,
      ids contiguous from 1, each body linked to its Thing's `@iot.id`. A Thing lacking a
      looked-up field raises KeyError once some template is used; a rejected post is
      re-raised. `sent` is the batch handed to the store. */
  method AddDatastreams(things: seq<TrialThing>, templates: seq<Datastream>, postAccepted: bool)
    returns (r: Result<seq<Request<Datastream>>, PlotsError>, sent: Option<seq<Request<Datastream>>>)
    ensures templates != [] && !AllLinked(Links(things)) ==> r == Failure(MissingThingField) && sent.None?
    ensures templates == [] ==> sent == Some([]) && r == (if postAccepted then Success([]) else Failure(BatchRejected))
    ensures templates != [] && AllLinked(Links(things)) ==>
      var batch := PostBatch(Appends(Links(things), templates), "Datastreams", 1);
      && sent == Some(batch)
      && r == (if postAccepted then Success(batch) else Failure(BatchRejected))
  {
    sent := None;
    var posts: seq<Request<Datastream>> := [];
    ghost var done: seq<Datastream> := [];
    var i := 0;
    while i < |things|
      invariant 0 <= i <= |things|
      invariant templates != [] ==> AllLinked(Links(things[..i]))
      invariant done == Appends(Links(things[..i]), templates)
      invariant templates == [] ==> posts == []
      invariant posts == PostBatch(done, "Datastreams", 1)
    {
      var l := Target(things[i]);
      var ok;
      ok, posts := PostRow(l, templates, posts, done);
      if !ok {
        r := Failure(MissingThingField);
        Unlinked(things, i);
        return;
      }
      LinksSnoc(things, i);
      AppendsSnoc(Links(things[..i]), l, templates);
      done := done + Row(l, templates);
      i := i + 1;
    }
    assert things[..i] == things;
    sent := Some(posts);
    if postAccepted {
      r := Success(posts);
    } else {
      r := Failure(BatchRejected);
    }
  }

  /** A Thing fetched with its Locations: `locations` holds, per Location, its
      `location.geometry` when present; `properties` is its properties object. */
  datatype FetchedPlot = FetchedPlot(iotId: Option<int>, name: Option<string>, properties: map<string, Json>, locations: seq<Option<Json>>)

  /** A Feature of the plots FeatureCollection: the geometry and the copied properties. */
  datatype PlotGeoFeature = PlotGeoFeature(
    geometry: Json,
    iotId: Option<int>,
    name: Option<string>,
    trialId: Option<Json>,
    plotId: Option<Json>,
    treatmentId: Option<Json>,
    year: Option<Json>)

  function Get(m: map<string, Json>, key: string): Option<Json>
  {
    if key in m then Some(m[key]) else None
  }

  predicate HasGeometry(plot: FetchedPlot)
  {
    |plot.locations| > 0 && plot.locations[0].Some?
  }

  function GeoFeature(plot: FetchedPlot): PlotGeoFeature
    requires HasGeometry(plot)
  {
    PlotGeoFeature(plot.locations[0].value, plot.iotId, plot.name,
      Get(plot.properties, "trial_id"), Get(plot.properties, "plot_id"),
      Get(plot.properties, "treatment_id"), Get(plot.properties, "year"))
  }

  /** The features of the FeatureCollection, one per plot, or the error met first. */
  function GeoFeatures(plots: seq<FetchedPlot>): (r: Result<seq<PlotGeoFeature>, PlotsError>)
    ensures r.Success? <==> forall k :: 0 <= k < |plots| ==> HasGeometry(plots[k])
    ensures r.Failure? ==> r.error == MissingGeometry
    ensures r.Success? ==> |r.value| == |plots|
    ensures r.Success? ==> forall k :: 0 <= k < |plots| ==> r.value[k] == GeoFeature(plots[k])
  {
    if plots == [] then Success([])
    else if !HasGeometry(plots[0]) then Failure(MissingGeometry)
    else
      match GeoFeatures(plots[1..])
      case Failure(e) =>
        assert exists k :: 0 <= k < |plots| - 1 && !HasGeometry(plots[1..][k]);
        Failure(e)
      case Success(rest) =>
        assert forall k :: 0 <= k < |plots| - 1 ==> plots[1..][k] == plots[k + 1];
        Success([GeoFeature(plots[0])] + rest)
  }

  /** `Plots.fetch_plots_geojson` on the plots fetched for the trial: a ValueError when
      none came back, otherwise one Feature per plot, in fetched order, whose `iot_id`
      is the plot's `@iot.id`. */
  function FetchPlotsGeoJson(plots: seq<FetchedPlot>): (r: Result<seq<PlotGeoFeature>, PlotsError>)
    ensures plots == [] ==> r == Failure(NoPlotsFound)
    ensures plots != [] ==> r == GeoFeatures(plots)
  {
    if plots == [] then Failure(NoPlotsFound) else GeoFeatures(plots)
  }

  /** On success the collection has one Feature per fetched plot, in order, carrying
      its `@iot.id`, name and geometry. */
  lemma FetchPlotsGeoJsonSpec(plots: seq<FetchedPlot>)
    ensures var r := FetchPlotsGeoJson(plots);
      && (r.Success? <==> plots != [] && forall k :: 0 <= k < |plots| ==> HasGeometry(plots[k]))
      && (r.Success? ==> |r.value| == |plots|)
      && (r.Success? ==> forall k :: 0 <= k < |plots| ==>
            && r.value[k].iotId == plots[k].iotId
            && r.value[k].name == plots[k].name
            && r.value[k].geometry == plots[k].locations[0].value)
  {
  }
}
