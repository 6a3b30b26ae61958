/** The older plot bookkeeping of uavstats/plots.py: the same Thing, Datastream and
    Observation batches as the raster2sensor version, with plot-only names, a
    `treatment_id` that is always present, a status check instead of an exception after
    the Datastream post, and lookups that raise instead of skipping. */
module LegacyPlots {
  import opened Wrappers
  import opened Text
  import opened SensorThings
  import opened Plots
  import Observations

  /** The Thing body the older code builds for one plot feature: plot-only names, the
      treatment in the description only when non-empty, and the properties object
      inside the Location's GeoJSON Feature. */
  function LegacyThing(p: PlotsFile, f: PlotFeature, templates: seq<Datastream>): Thing
  {
    var plotId := PlotId(p, f);
    var treatment := TreatmentId(p, f);
    Thing(
      "Plot - " + plotId,
      "Plot: " + plotId + (if treatment != "" then " (Treatment: " + treatment + ")" else ""),
      PlotProperties(p.trialId, plotId, Some(treatment), p.year),
      [Location(
        "Location of Plot - " + plotId,
        "Polygon Geometry for Plot - " + plotId,
        "application/geo+json",
        JObj(map[
          "type" := JStr("Feature"),
          "geometry" := f.geometry,
          "properties" := JObj(map[
            "trial_id" := JStr(p.trialId), "plot_id" := JStr(plotId),
            "treatment_id" := JStr(treatment), "year" := JNum(p.year as real)])]),
        None)],
      InstantiateAll(templates, plotId))
  }

  /** The older Thing, as the code means to build it, always carries `treatment_id`
      (possibly ''), names the plot without its trial, mentions the treatment in its
      description exactly when it is non-empty, keeps the feature's geometry in its single
      Location and nests one Datastream per template. */
  lemma LegacyThingSpec(p: PlotsFile, f: PlotFeature, templates: seq<Datastream>)
    requires p.plotIdField in f.properties
    ensures var t := LegacyThing(p, f, templates);
      var plotId := f.properties[p.plotIdField];
      && t.properties.treatmentId == Some(TreatmentId(p, f))
      && t.properties.plotId == plotId
      && t.properties.trialId == p.trialId
      && t.name == "Plot - " + plotId
      && (t.description == "Plot: " + plotId <==> TreatmentId(p, f) == "")
      && |t.locations| == 1
      && t.locations[0].properties.None?
      && t.locations[0].location.JObj? && t.locations[0].location.fields["geometry"] == f.geometry
      && |t.datastreams| == |templates|
  {
    var treatment := TreatmentId(p, f);
    var plotId := f.properties[p.plotIdField];
    if treatment != "" {
      var d := "Plot: " + plotId + " (Treatment: " + treatment + ")";
      assert |d| > |"Plot: " + plotId|;
    }
  }

  function LegacyThings(p: PlotsFile, fs: seq<PlotFeature>, templates: seq<Datastream>): (things: seq<Thing>)
    ensures |things| == |fs|
  {
    if fs == [] then [] else LegacyThings(p, fs[..|fs| - 1], templates) + [LegacyThing(p, fs[|fs| - 1], templates)]
  }

  lemma LegacyThingsSnoc(p: PlotsFile, fs: seq<PlotFeature>, i: nat, templates: seq<Datastream>)
    requires i < |fs|
    ensures LegacyThings(p, fs[..i + 1], templates) == LegacyThings(p, fs[..i], templates) + [LegacyThing(p, fs[i], templates)]
  {
    assert fs[..i + 1][..i] == fs[..i];
  }

  lemma {:induction false} LegacyThingsAt(p: PlotsFile, fs: seq<PlotFeature>, templates: seq<Datastream>, k: nat)
    requires k < |fs|
    ensures LegacyThings(p, fs, templates)[k] == LegacyThing(p, fs[k], templates)
  {
    if k < |fs| - 1 {
      LegacyThingsAt(p, fs[..|fs| - 1], templates, k);
    }
  }

  /** The older Things batch also has one `post` to `Things` per feature, in file order,
      whose id is the feature's position. */
  lemma LegacyThingsBatchAt(p: PlotsFile, fs: seq<PlotFeature>, templates: seq<Datastream>)
    ensures var batch := PostBatch(LegacyThings(p, fs, templates), "Things", 0);
      |batch| == |fs| &&
      forall k :: 0 <= k < |fs| ==> batch[k] == Request(k, "post", "Things", LegacyThing(p, fs[k], templates))
  {
    var things := LegacyThings(p, fs, templates);
    PostBatchSpec(things, "Things", 0);
    forall k | 0 <= k < |fs|
      ensures PostBatch(things, "Things", 0)[k] == Request(k, "post", "Things", LegacyThing(p, fs[k], templates))
    {
      LegacyThingsAt(p, fs, templates, k);
    }
  }

  /** `Plots.create_sensorthings_things` (older) as written: a feature lacking the plot id
      field raises KeyError; otherwise, when there is a template, building its nested
      `Datastream(..., properties=...)` raises TypeError, because that class declares no
      `properties` field. Only with no templates (or no features) is a batch posted. */
  method CreateSensorThingsThings(p: PlotsFile, features: seq<PlotFeature>, templates: seq<Datastream>)
    returns (r: Result<seq<Request<Thing>>, PlotsError>)
    ensures r.Failure? <==> !AllHavePlotId(p, features) || (features != [] && templates != [])
    ensures features != [] && templates != [] ==>
      r == Failure(if p.plotIdField in features[0].properties then DatastreamRejected else MissingPlotIdField)
    ensures templates == [] && r.Failure? ==> r.error == MissingPlotIdField
    ensures r.Success? ==> r.value == PostBatch(LegacyThings(p, features, templates), "Things", 0)
  {
    var things: seq<Thing> := [];
    var i := 0;
    while i < |features|
      invariant 0 <= i <= |features|
      invariant forall k :: 0 <= k < i ==> p.plotIdField in features[k].properties
      invariant templates != [] ==> i == 0
      invariant things == LegacyThings(p, features[..i], templates)
    {
      if p.plotIdField !in features[i].properties {
        r := Failure(MissingPlotIdField);
        return;
      }
      if templates != [] {
        r := Failure(DatastreamRejected);
        return;
      }
      LegacyThingsSnoc(p, features, i, templates);
      things := things + [LegacyThing(p, features[i], templates)];
      i := i + 1;
    }
    assert features[..i] == features;
    r := Success(PostBatch(things, "Things", 0));
  }

  /** `Plots.create_sensorthings_things` (older) as evidently intended: a KeyError when
      some feature lacks the plot id field, otherwise the `$batch` of the features'
      Things, each with its instantiated Datastreams. */
  method CreateSensorThingsThingsIntended(p: PlotsFile, features: seq<PlotFeature>, templates: seq<Datastream>)
    returns (r: Result<seq<Request<Thing>>, PlotsError>)
    ensures r.Failure? <==> !AllHavePlotId(p, features)
    ensures r.Failure? ==> r.error == MissingPlotIdField
    ensures r.Success? ==> r.value == PostBatch(LegacyThings(p, features, templates), "Things", 0)
  {
    var things: seq<Thing> := [];
    var i := 0;
    while i < |features|
      invariant 0 <= i <= |features|
      invariant forall k :: 0 <= k < i ==> p.plotIdField in features[k].properties
      invariant things == LegacyThings(p, features[..i], templates)
    {
      if p.plotIdField !in features[i].properties {
        r := Failure(MissingPlotIdField);
        return;
      }
      LegacyThingsSnoc(p, features, i, templates);
      things := things + [LegacyThing(p, features[i], templates)];
      i := i + 1;
    }
    assert features[..i] == features;
    r := Success(PostBatch(things, "Things", 0));
  }

  /** `Plots.fetch_plots_geojson` (older): one Feature per fetched plot, in order,
      carrying its `@iot.id`, name and geometry; no check for an empty answer, so no
      plots give an empty collection. */
  function FetchPlotsGeoJson(plots: seq<FetchedPlot>): (r: Result<seq<PlotGeoFeature>, PlotsError>)
    ensures plots == [] ==> r == Success([])
    ensures r.Success? <==> forall k :: 0 <= k < |plots| ==> HasGeometry(plots[k])
    ensures r.Failure? ==> r.error == MissingGeometry
    ensures r.Success? ==> |r.value| == |plots|
    ensures r.Success? ==> forall k :: 0 <= k < |plots| ==>
      && r.value[k].iotId == plots[k].iotId
      && r.value[k].name == plots[k].name
      && r.value[k].geometry == plots[k].locations[0].value
  {
    GeoFeatures(plots)
  }

  /** A Thing fetched by trial in the older code: only `properties.plot_id` and
      `@iot.id` are looked up. */
  datatype LegacyTrialThing = LegacyTrialThing(iotId: Option<int>, plotId: Option<string>)

  /** `{plot_id}` is filled with the plot id alone. */
  function LegacyTarget(t: LegacyTrialThing): (l: Option<LinkTarget>)
    ensures l.Some? <==> t.iotId.Some? && t.plotId.Some?
    ensures l.Some? ==> l.value == LinkTarget(t.iotId.value, t.plotId.value)
  {
    if t.iotId.Some? && t.plotId.Some? then Some(LinkTarget(t.iotId.value, t.plotId.value)) else None
  }

  function LegacyLinks(things: seq<LegacyTrialThing>): (ls: seq<Option<LinkTarget>>)
    ensures |ls| == |things|
    ensures forall k :: 0 <= k < |things| ==> ls[k] == LegacyTarget(things[k])
  {
    if things == [] then [] else LegacyLinks(things[..|things| - 1]) + [LegacyTarget(things[|things| - 1])]
  }

  lemma LegacyLinksSnoc(things: seq<LegacyTrialThing>, i: nat)
    requires i < |things|
    ensures LegacyLinks(things[..i + 1]) == LegacyLinks(things[..i]) + [LegacyTarget(things[i])]
    ensures AllLinked(LegacyLinks(things[..i])) && LegacyTarget(things[i]).Some? ==> AllLinked(LegacyLinks(things[..i + 1]))
  {
    assert things[..i + 1][..i] == things[..i];
  }

  lemma LegacyUnlinked(things: seq<LegacyTrialThing>, i: nat)
    requires i < |things| && LegacyTarget(things[i]).None?
    ensures !AllLinked(LegacyLinks(things))
  {
    assert LegacyLinks(things)[i] == LegacyTarget(things[i]);
  }

  /** `Plots.add_datastreams` (older) as written: the first (Thing, template) pair builds
      a `DatastreamAppend(..., properties=...)`, whose class (a uavstats `Datastream`)
      declares no `properties` field, so it raises TypeError, or KeyError first when the
      Thing lacks `properties.plot_id` or `@iot.id`. Only with no Things or no templates is
      the (empty) batch posted; `status` is the store's answer. */
  method AddDatastreams(things: seq<LegacyTrialThing>, templates: seq<Datastream>, status: int)
    returns (r: Result<bool, PlotsError>, sent: Option<seq<Request<Datastream>>>)
    ensures things == [] || templates == [] ==> sent == Some([]) && r == Success(status == 200)
    ensures things != [] && templates != [] ==>
      && sent.None?
      && r == Failure(if LegacyTarget(things[0]).None? then MissingThingField else DatastreamRejected)
  {
    sent := None;
    var i := 0;
    while i < |things|
      invariant 0 <= i <= |things|
      invariant templates != [] ==> i == 0
    {
      if templates != [] {
        r := Failure(if LegacyTarget(things[i]).None? then MissingThingField else DatastreamRejected);
        return;
      }
      i := i + 1;
    }
    sent := Some([]);
    r := Success(status == 200);
  }

  /** `Plots.add_datastreams` (older) as evidently intended: the same
      one-post-per-(Thing, template) batch with ids from 1, always posted once the loops
      finish; `status` is the store's answer and `created` whether it was 200 (otherwise
      the function just returns). A Thing lacking a looked-up field raises KeyError once
      some template is used. */
  method AddDatastreamsIntended(things: seq<LegacyTrialThing>, templates: seq<Datastream>, status: int)
    returns (r: Result<bool, PlotsError>, sent: Option<seq<Request<Datastream>>>)
    ensures templates != [] && !AllLinked(LegacyLinks(things)) ==> r == Failure(MissingThingField) && sent.None?
    ensures templates == [] ==> sent == Some([]) && r == Success(status == 200)
    ensures templates != [] && AllLinked(LegacyLinks(things)) ==>
      && sent == Some(PostBatch(Appends(LegacyLinks(things), templates), "Datastreams", 1))
      && r == Success(status == 200)
  {
    sent := None;
    var posts: seq<Request<Datastream>> := [];
    ghost var done: seq<Datastream> := [];
    var i := 0;
    while i < |things|
      invariant 0 <= i <= |things|
      invariant templates != [] ==> AllLinked(LegacyLinks(things[..i]))
      invariant done == Appends(LegacyLinks(things[..i]), templates)
      invariant templates == [] ==> posts == []
      invariant posts == PostBatch(done, "Datastreams", 1)
    {
      var l := LegacyTarget(things[i]);
      var ok;
      ok, posts := PostRow(l, templates, posts, done);
      if !ok {
        r := Failure(MissingThingField);
        LegacyUnlinked(things, i);
        return;
      }
      LegacyLinksSnoc(things, i);
      AppendsSnoc(LegacyLinks(things[..i]), l, templates);
      done := done + Row(l, templates);
      i := i + 1;
    }
    assert things[..i] == things;
    sent := Some(posts);
    r := Success(status == 200);
  }

  /** `zonal_stats['value']`: None (absent or null), or a dictionary whose `features`
      is None when absent. */
  datatype LegacyValue = ValueNone | ValueWith(features: Option<seq<Observations.StatFeature>>)

  /** The `zonal_stats` dictionary as the older code reads it with `.get`. */
  datatype LegacyZonalStats = LegacyZonalStats(resultTime: Option<string>, value: LegacyValue, rasterData: Option<string>)

  /** A Thing fetched with `$expand=Datastreams`; None marks a missing `@iot.id` or
      `Datastreams` key. */
  datatype LegacyThingStreams = LegacyThingStreams(iotId: Option<int>, datastreams: Option<seq<Observations.FetchedDatastream>>)

  datatype LegacyObsError =
    | ValueMissing        // ValueError: `value` is missing or None
    | RasterDataMissing   // ValueError: `raster_data` is missing or None
    | FetchExited         // the Things fetch failed and the process exited with status 1
    | FeaturesNotIterable // TypeError: `value` has no `features`
    | LookupFailed        // KeyError or AttributeError while reading a feature, Thing or Datastream

  /** What happens to one feature in the older loop. */
  datatype LegacyVerdict = Raise | Skip | Emit(obs: Observation)

  /** A Thing whose `@iot.id` is `id`. */
  predicate WithId(t: LegacyThingStreams, id: int)
  {
    t.iotId == Some(id)
  }

  /** The comprehension's test, as one function value. */
  function IdTest(id: int): LegacyThingStreams -> bool
  {
    t => WithId(t, id)
  }

  /** The first Thing whose `@iot.id` is `id` (`target_thing[0]`). */
  function FirstWithId(things: seq<LegacyThingStreams>, id: int): Option<LegacyThingStreams>
  {
    FirstWhere(things, IdTest(id))
  }

  /** Position `i` holds the first Thing whose `@iot.id` is `id`. */
  predicate ThingAt(things: seq<LegacyThingStreams>, id: int, i: int)
  {
    FirstAt(things, IdTest(id), i)
  }

  predicate SomeThingWithoutId(things: seq<LegacyThingStreams>)
  {
    exists k :: 0 <= k < |things| && things[k].iotId.None?
  }

  predicate SomeTagMissing(dss: seq<Observations.FetchedDatastream>)
  {
    exists k :: 0 <= k < |dss| && !dss[k].tag.TagText?
  }

  /** A Datastream whose tag, lower-cased, is the index name. */
  predicate Tagged(d: Observations.FetchedDatastream, rasterData: string)
  {
    d.tag.TagText? && Lower(d.tag.s) == rasterData
  }

  /** The comprehension's test, as one function value. */
  function TaggedTest(rasterData: string): Observations.FetchedDatastream -> bool
  {
    d => Tagged(d, rasterData)
  }

  /** The Datastreams whose lower-cased tag equals the lower-cased index name, in order. */
  function TagMatches(dss: seq<Observations.FetchedDatastream>, rasterData: string): (m: seq<Observations.FetchedDatastream>)
    ensures forall d :: d in m <==> d in dss && Tagged(d, rasterData)
    ensures m != [] ==> (Tagged(m[0], rasterData) &&
      exists k :: 0 <= k < |dss| && dss[k] == m[0] && forall e :: 0 <= e < k ==> !Tagged(dss[e], rasterData))
  {
    FilterMembers(dss, TaggedTest(rasterData));
    FilterFirst(dss, TaggedTest(rasterData));
    Filter(dss, TaggedTest(rasterData))
  }

  /** One feature of the older loop: every lookup that fails raises (nothing is caught);
      a feature whose Thing is unknown or has no Datastream with the index tag is
      skipped; otherwise the first matching Datastream receives the Observation. */
  function LegacyJudge(f: Observations.StatFeature, things: seq<LegacyThingStreams>, rasterData: string,
                       phenomenonTime: string, resultTime: Option<string>): LegacyVerdict
  {
    if f.properties.None? || f.properties.value.iotId.None? then Raise
    else if SomeThingWithoutId(things) then Raise
    else
      var p := f.properties.value;
      match FirstWithId(things, p.iotId.value)
      case None => Skip
      case Some(t) =>
        if t.datastreams.None? || SomeTagMissing(t.datastreams.value) then Raise
        else
          var m := TagMatches(t.datastreams.value, rasterData);
          if m == [] then Skip
          else if Observations.ReadStats(p).None? || m[0].iotId.None? then Raise
          else Emit(Observation(phenomenonTime, resultTime, Observations.ReadStats(p).value, m[0].iotId.value))
  }

  /** Position `k` holds the first Datastream tagged with the index. */
  predicate TagAt(dss: seq<Observations.FetchedDatastream>, rasterData: string, k: int)
  {
    FirstAt(dss, TaggedTest(rasterData), k)
  }

  /** The lookups before the Thing search succeed: the feature has an `iot_id` and
      every fetched Thing has an `@iot.id`. */
  predicate Searchable(f: Observations.StatFeature, things: seq<LegacyThingStreams>)
  {
    f.properties.Some? && f.properties.value.iotId.Some? && !SomeThingWithoutId(things)
  }

  /** A Thing whose `Datastreams` can be searched: present, each with a `raster_data` tag. */
  predicate Readable(t: LegacyThingStreams)
  {
    t.datastreams.Some? && !SomeTagMissing(t.datastreams.value)
  }

  /** With no Thing carrying the feature's id, a searchable feature is skipped. */
  lemma LegacyJudgeNoThing(f: Observations.StatFeature, things: seq<LegacyThingStreams>, rasterData: string,
                           phenomenonTime: string, resultTime: Option<string>)
    requires Searchable(f, things)
    ensures (forall i :: !ThingAt(things, f.properties.value.iotId.value, i)) <==>
      (forall i :: 0 <= i < |things| ==> !WithId(things[i], f.properties.value.iotId.value))
    ensures (forall i :: !ThingAt(things, f.properties.value.iotId.value, i)) ==>
      LegacyJudge(f, things, rasterData, phenomenonTime, resultTime) == Skip
  {
    var id := f.properties.value.iotId.value;
    var r := FirstWithId(things, id);
    if r.Some? {
      var i :| FirstAt(things, IdTest(id), i) && r.value == things[i];
      assert ThingAt(things, id, i);
    }
  }

  /** The verdict on a searchable feature whose first Thing with that id sits at `i`:
      it is decided by that Thing's Datastreams and its first tagged Datastream. */
  lemma LegacyJudgeCases(f: Observations.StatFeature, things: seq<LegacyThingStreams>, rasterData: string,
                         phenomenonTime: string, resultTime: Option<string>, i: int)
    requires Searchable(f, things) && ThingAt(things, f.properties.value.iotId.value, i)
    ensures forall j :: ThingAt(things, f.properties.value.iotId.value, j) ==> j == i
    ensures var v := LegacyJudge(f, things, rasterData, phenomenonTime, resultTime);
      if !Readable(things[i]) then v == Raise
      else
        var dss := things[i].datastreams.value;
        && ((forall k :: !TagAt(dss, rasterData, k)) <==> (forall k :: 0 <= k < |dss| ==> !Tagged(dss[k], rasterData)))
        && ((forall k :: 0 <= k < |dss| ==> !Tagged(dss[k], rasterData)) ==> v == Skip)
        && forall k :: TagAt(dss, rasterData, k) ==>
             && (forall e :: TagAt(dss, rasterData, e) ==> e == k)
             && v == (if Observations.ReadStats(f.properties.value).None? || dss[k].iotId.None? then Raise
                      else Emit(Observation(phenomenonTime, resultTime, Observations.ReadStats(f.properties.value).value, dss[k].iotId.value)))
  {
    var id := f.properties.value.iotId.value;
    assert FirstWithId(things, id) == Some(things[i]);
    if Readable(things[i]) {
      var dss := things[i].datastreams.value;
      FilterFirst(dss, TaggedTest(rasterData));
      var r := FirstWhere(dss, TaggedTest(rasterData));
      if r.Some? {
        var k :| FirstAt(dss, TaggedTest(rasterData), k) && r.value == dss[k];
        assert TagAt(dss, rasterData, k);
      }
    }
  }

  /** A feature raises exactly when a lookup fails: it has no `properties`/`iot_id`,
      some Thing lacks `@iot.id`, the first Thing with its id lacks `Datastreams` or a
      Datastream lacks its tag, or, once a tagged Datastream is found, a statistic or
      that Datastream's `@iot.id` is missing. */
  lemma LegacyJudgeRaises(f: Observations.StatFeature, things: seq<LegacyThingStreams>, rasterData: string,
                          phenomenonTime: string, resultTime: Option<string>)
    ensures LegacyJudge(f, things, rasterData, phenomenonTime, resultTime) == Raise <==>
      || !Searchable(f, things)
      || exists i :: ThingAt(things, f.properties.value.iotId.value, i) &&
           (|| !Readable(things[i])
            || exists k :: TagAt(things[i].datastreams.value, rasterData, k) &&
                 (Observations.ReadStats(f.properties.value).None? || things[i].datastreams.value[k].iotId.None?))
  {
    if Searchable(f, things) {
      var id := f.properties.value.iotId.value;
      var v := LegacyJudge(f, things, rasterData, phenomenonTime, resultTime);
      LegacyJudgeNoThing(f, things, rasterData, phenomenonTime, resultTime);
      if i :| ThingAt(things, id, i) {
        LegacyJudgeCases(f, things, rasterData, phenomenonTime, resultTime, i);
        if Readable(things[i]) {
          var dss := things[i].datastreams.value;
          if k :| TagAt(dss, rasterData, k) {
            assert v != Skip;
          } else {
            assert v == Skip;
          }
        } else {
          assert v == Raise;
        }
      } else {
        assert v == Skip;
      }
    }
  }

  /** Why the older loop skips a searchable feature: no Thing has its `iot_id`, or the
      first such Thing has no Datastream tagged with the index. */
  ghost predicate SkipReason(f: Observations.StatFeature, things: seq<LegacyThingStreams>, rasterData: string)
    requires Searchable(f, things)
  {
    var id := f.properties.value.iotId.value;
    || (forall i :: 0 <= i < |things| ==> !WithId(things[i], id))
    || exists i :: ThingAt(things, id, i) && Readable(things[i]) &&
         forall k :: 0 <= k < |things[i].datastreams.value| ==> !Tagged(things[i].datastreams.value[k], rasterData)
  }

  /** A feature is skipped exactly when its lookups succeed and either no Thing has its
      `iot_id` or the first such Thing has no Datastream tagged with the index. */
  lemma LegacyJudgeSkips(f: Observations.StatFeature, things: seq<LegacyThingStreams>, rasterData: string,
                         phenomenonTime: string, resultTime: Option<string>)
    ensures LegacyJudge(f, things, rasterData, phenomenonTime, resultTime) == Skip <==>
      && Searchable(f, things)
      && var id := f.properties.value.iotId.value;
         || (forall i :: 0 <= i < |things| ==> !WithId(things[i], id))
         || exists i :: ThingAt(things, id, i) && Readable(things[i]) &&
              forall k :: 0 <= k < |things[i].datastreams.value| ==> !Tagged(things[i].datastreams.value[k], rasterData)
  {
    if Searchable(f, things) {
      SkipsOnlyFor(f, things, rasterData, phenomenonTime, resultTime);
      SkipsWhen(f, things, rasterData, phenomenonTime, resultTime);
      assert SkipReason(f, things, rasterData) <==> LegacyJudge(f, things, rasterData, phenomenonTime, resultTime) == Skip;
    }
  }

  lemma SkipsOnlyFor(f: Observations.StatFeature, things: seq<LegacyThingStreams>, rasterData: string,
                     phenomenonTime: string, resultTime: Option<string>)
    requires Searchable(f, things)
    ensures LegacyJudge(f, things, rasterData, phenomenonTime, resultTime) == Skip ==> SkipReason(f, things, rasterData)
  {
    var id := f.properties.value.iotId.value;
    var v := LegacyJudge(f, things, rasterData, phenomenonTime, resultTime);
    LegacyJudgeNoThing(f, things, rasterData, phenomenonTime, resultTime);
    if i :| ThingAt(things, id, i) {
      LegacyJudgeCases(f, things, rasterData, phenomenonTime, resultTime, i);
      if v == Skip {
        var dss := things[i].datastreams.value;
        assert Readable(things[i]);
        assert forall k :: !TagAt(dss, rasterData, k);
      }
    }
  }

  lemma SkipsWhen(f: Observations.StatFeature, things: seq<LegacyThingStreams>, rasterData: string,
                  phenomenonTime: string, resultTime: Option<string>)
    requires Searchable(f, things)
    ensures SkipReason(f, things, rasterData) ==> LegacyJudge(f, things, rasterData, phenomenonTime, resultTime) == Skip
  {
    var id := f.properties.value.iotId.value;
    LegacyJudgeNoThing(f, things, rasterData, phenomenonTime, resultTime);
    if i :| ThingAt(things, id, i) && Readable(things[i]) &&
           forall k :: 0 <= k < |things[i].datastreams.value| ==> !Tagged(things[i].datastreams.value[k], rasterData) {
      LegacyJudgeCases(f, things, rasterData, phenomenonTime, resultTime, i);
    }
  }

  /** A feature yields Observation `o` exactly when its lookups succeed, a Thing has its
      `iot_id`, the first such Thing has a tagged Datastream, all five statistics are
      present and the first tagged Datastream has an `@iot.id`; `o` then carries the
      call's timestamps, the statistics and that Datastream's id. */
  lemma LegacyJudgeSpec(f: Observations.StatFeature, things: seq<LegacyThingStreams>, rasterData: string,
                        phenomenonTime: string, resultTime: Option<string>, o: Observation)
    ensures LegacyJudge(f, things, rasterData, phenomenonTime, resultTime) == Emit(o) <==>
      && Searchable(f, things)
      && var p := f.properties.value;
         exists i, k :: ThingAt(things, p.iotId.value, i) && Readable(things[i]) &&
           TagAt(things[i].datastreams.value, rasterData, k) &&
           Observations.ReadStats(p).Some? && things[i].datastreams.value[k].iotId.Some? &&
           o == Observation(phenomenonTime, resultTime, Observations.ReadStats(p).value, things[i].datastreams.value[k].iotId.value)
  {
    if Searchable(f, things) {
      var id := f.properties.value.iotId.value;
      var v := LegacyJudge(f, things, rasterData, phenomenonTime, resultTime);
      LegacyJudgeNoThing(f, things, rasterData, phenomenonTime, resultTime);
      if i :| ThingAt(things, id, i) {
        LegacyJudgeCases(f, things, rasterData, phenomenonTime, resultTime, i);
        if Readable(things[i]) {
          var dss := things[i].datastreams.value;
          if k :| TagAt(dss, rasterData, k) {
            assert v != Skip;
          } else {
            assert v == Skip;
          }
        } else {
          assert v == Raise;
        }
      } else {
        assert v == Skip;
      }
    }
  }

  /** The Observations of the features so far, or the failure the first raising
      feature causes. */
  function Collect(fs: seq<Observations.StatFeature>, things: seq<LegacyThingStreams>, rasterData: string,
                   phenomenonTime: string, resultTime: Option<string>): Result<seq<Observation>, LegacyObsError>
  {
    if fs == [] then Success([])
    else
      match Collect(fs[..|fs| - 1], things, rasterData, phenomenonTime, resultTime)
      case Failure(e) => Failure(e)
      case Success(obs) =>
        match LegacyJudge(fs[|fs| - 1], things, rasterData, phenomenonTime, resultTime)
        case Raise => Failure(LookupFailed)
        case Skip => Success(obs)
        case Emit(o) => Success(obs + [o])
  }

  /** The loop fails exactly when some feature raises, and then with a lookup error. */
  lemma {:induction false} CollectOutcome(fs: seq<Observations.StatFeature>, things: seq<LegacyThingStreams>, rasterData: string,
                                          phenomenonTime: string, resultTime: Option<string>)
    ensures var c := Collect(fs, things, rasterData, phenomenonTime, resultTime);
      && (c.Success? <==> forall k :: 0 <= k < |fs| ==> LegacyJudge(fs[k], things, rasterData, phenomenonTime, resultTime) != Raise)
      && (c.Failure? ==> c.error == LookupFailed)
  {
    if fs != [] {
      var init := fs[..|fs| - 1];
      CollectOutcome(init, things, rasterData, phenomenonTime, resultTime);
      assert forall k :: 0 <= k < |fs| - 1 ==> init[k] == fs[k];
    }
  }

  /** When the loop succeeds its Observations are exactly those of the features judged
      `Emit`. */
  lemma {:induction false} CollectEmitted(fs: seq<Observations.StatFeature>, things: seq<LegacyThingStreams>, rasterData: string,
                                          phenomenonTime: string, resultTime: Option<string>)
    ensures var c := Collect(fs, things, rasterData, phenomenonTime, resultTime);
      c.Success? ==> forall o :: o in c.value <==>
        exists k :: 0 <= k < |fs| && LegacyJudge(fs[k], things, rasterData, phenomenonTime, resultTime) == Emit(o)
  {
    if fs != [] {
      var init := fs[..|fs| - 1];
      CollectEmitted(init, things, rasterData, phenomenonTime, resultTime);
      var c := Collect(fs, things, rasterData, phenomenonTime, resultTime);
      var prev := Collect(init, things, rasterData, phenomenonTime, resultTime);
      var v := LegacyJudge(fs[|fs| - 1], things, rasterData, phenomenonTime, resultTime);
      if c.Success? {
        assert prev.Success? && !v.Raise?;
        assert c.value == (if v.Emit? then prev.value + [v.obs] else prev.value);
        forall o | o in c.value
          ensures exists k :: 0 <= k < |fs| && LegacyJudge(fs[k], things, rasterData, phenomenonTime, resultTime) == Emit(o)
        {
          if o !in prev.value {
            assert LegacyJudge(fs[|fs| - 1], things, rasterData, phenomenonTime, resultTime) == Emit(o);
          } else {
            var k :| 0 <= k < |init| && LegacyJudge(init[k], things, rasterData, phenomenonTime, resultTime) == Emit(o);
            assert init[k] == fs[k];
          }
        }
        forall o, k | 0 <= k < |fs| && LegacyJudge(fs[k], things, rasterData, phenomenonTime, resultTime) == Emit(o)
          ensures o in c.value
        {
          if k < |fs| - 1 {
            assert init[k] == fs[k];
          }
        }
      }
    }
  }

  /** Every Observation of a successful loop carries the call's two timestamps. */
  lemma CollectTimestamps(fs: seq<Observations.StatFeature>, things: seq<LegacyThingStreams>, rasterData: string,
                          phenomenonTime: string, resultTime: Option<string>)
    ensures var c := Collect(fs, things, rasterData, phenomenonTime, resultTime);
      c.Success? ==> forall o :: o in c.value ==> o.phenomenonTime == phenomenonTime && o.resultTime == resultTime
  {
    CollectEmitted(fs, things, rasterData, phenomenonTime, resultTime);
    var c := Collect(fs, things, rasterData, phenomenonTime, resultTime);
    if c.Success? {
      forall o | o in c.value ensures o.phenomenonTime == phenomenonTime && o.resultTime == resultTime {
        var k :| 0 <= k < |fs| && LegacyJudge(fs[k], things, rasterData, phenomenonTime, resultTime) == Emit(o);
        LegacyJudgeSpec(fs[k], things, rasterData, phenomenonTime, resultTime, o);
      }
    }
  }

  /** Once a prefix of the features has raised, the whole loop has. */
  lemma {:induction false} CollectPrefixFailure(fs: seq<Observations.StatFeature>, n: nat, things: seq<LegacyThingStreams>, rasterData: string,
                                                phenomenonTime: string, resultTime: Option<string>)
    requires n <= |fs| && Collect(fs[..n], things, rasterData, phenomenonTime, resultTime).Failure?
    ensures Collect(fs, things, rasterData, phenomenonTime, resultTime) == Collect(fs[..n], things, rasterData, phenomenonTime, resultTime)
  {
    if n == |fs| {
      assert fs[..n] == fs;
    } else {
      var init := fs[..|fs| - 1];
      assert init[..n] == fs[..n];
      CollectPrefixFailure(init, n, things, rasterData, phenomenonTime, resultTime);
    }
  }

  lemma CollectSnoc(fs: seq<Observations.StatFeature>, i: nat, things: seq<LegacyThingStreams>, rasterData: string,
                    phenomenonTime: string, resultTime: Option<string>)
    requires i < |fs|
    ensures Collect(fs[..i + 1], things, rasterData, phenomenonTime, resultTime) ==
      match Collect(fs[..i], things, rasterData, phenomenonTime, resultTime)
      case Failure(e) => Failure(e)
      case Success(obs) =>
        match LegacyJudge(fs[i], things, rasterData, phenomenonTime, resultTime)
        case Raise => Failure(LookupFailed)
        case Skip => Success(obs)
        case Emit(o) => Success(obs + [o])
  {
    assert fs[..i + 1][..i] == fs[..i];
  }

  /** `Plots.create_observations` (older). `fetched` is the answer of the Things fetch
      (None when it failed and the process exited). The result is the batch posted, if
      any; `fetchedThings` tells whether the fetch was made. */
  method CreateObservations(zs: LegacyZonalStats, flightTimestamp: string, fetched: Option<seq<LegacyThingStreams>>)
    returns (r: Result<Option<seq<Request<Observation>>>, LegacyObsError>, fetchedThings: bool)
    ensures zs.value.ValueNone? ==> r == Failure(ValueMissing) && !fetchedThings
    ensures zs.value.ValueWith? && zs.rasterData.None? ==> r == Failure(RasterDataMissing) && !fetchedThings
    ensures zs.value.ValueWith? && zs.rasterData.Some? ==> fetchedThings
    ensures zs.value.ValueWith? && zs.rasterData.Some? && fetched.None? ==> r == Failure(FetchExited)
    ensures zs.value.ValueWith? && zs.rasterData.Some? && fetched.Some? ==>
      if zs.value.features.None? then r == Failure(FeaturesNotIterable)
      else
        match Collect(zs.value.features.value, fetched.value, Lower(zs.rasterData.value), flightTimestamp, zs.resultTime)
        case Failure(e) => r == Failure(e)
        case Success(obs) => r == Success(if obs == [] then None else Some(PostBatch(obs, "Observations", 0)))
  {
    fetchedThings := false;
    if zs.value.ValueNone? {
      r := Failure(ValueMissing);
      return;
    }
    if zs.rasterData.None? {
      r := Failure(RasterDataMissing);
      return;
    }
    var rasterData := Lower(zs.rasterData.value);
    fetchedThings := true;
    if fetched.None? {
      r := Failure(FetchExited);
      return;
    }
    var things := fetched.value;
    if zs.value.features.None? {
      r := Failure(FeaturesNotIterable);
      return;
    }
    var items := zs.value.features.value;
    var obs: seq<Observation> := [];
    var i := 0;
    while i < |items|
      invariant 0 <= i <= |items|
      invariant Collect(items[..i], things, rasterData, flightTimestamp, zs.resultTime) == Success(obs)
    {
      CollectSnoc(items, i, things, rasterData, flightTimestamp, zs.resultTime);
      var f := items[i];
      if f.properties.None? || f.properties.value.iotId.None? || SomeThingWithoutId(things) {
        r := Failure(LookupFailed);
        CollectPrefixFailure(items, i + 1, things, rasterData, flightTimestamp, zs.resultTime);
        return;
      }
      var p := f.properties.value;
      var target := FirstWithId(things, p.iotId.value);
      if target.Some? {
        if target.value.datastreams.None? || SomeTagMissing(target.value.datastreams.value) {
          r := Failure(LookupFailed);
          CollectPrefixFailure(items, i + 1, things, rasterData, flightTimestamp, zs.resultTime);
          return;
        }
        var matches := TagMatches(target.value.datastreams.value, rasterData);
        if matches != [] {
          var stats := Observations.ReadStats(p);
          if stats.None? || matches[0].iotId.None? {
            r := Failure(LookupFailed);
            CollectPrefixFailure(items, i + 1, things, rasterData, flightTimestamp, zs.resultTime);
            return;
          }
          obs := obs + [Observation(flightTimestamp, zs.resultTime, stats.value, matches[0].iotId.value)];
        }
      }
      i := i + 1;
    }
    assert items[..i] == items;
    if obs == [] {
      r := Success(None);
    } else {
      r := Success(Some(PostBatch(obs, "Observations", 0)));
    }
  }
}
