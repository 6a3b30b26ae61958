/** `Plots.create_observations` of raster2sensor/plots.py: match each zone's statistics
    to the Datastream of its Thing whose `properties.raster_data` tag names the index
    (case-insensitively) and post one Observation per match in a single batch. */
module Observations {
  import opened Wrappers
  import opened Text
  import opened SensorThings

  /** How a Datastream's `properties.raster_data` reads: absent (read as ''), a string,
      or unreadable (a null `properties` or a non-string tag makes the lookup raise). */
  datatype Tag = TagAbsent | TagText(s: string) | TagUnreadable

  /** A Datastream of a fetched Thing; `iotId` is None when `@iot.id` is missing. */
  datatype FetchedDatastream = FetchedDatastream(iotId: Option<int>, tag: Tag)

  /** A Thing fetched with `$expand=Datastreams`; `iotId` is None when `@iot.id` is
      missing or null, and a missing or null `Datastreams` reads as the empty list. */
  datatype FetchedThing = FetchedThing(iotId: Option<int>, datastreams: seq<FetchedDatastream>)

  /** The `properties` of a zonal-statistics feature; None marks an absent key. */
  datatype FeatureProperties = FeatureProperties(
    iotId: Option<int>,
    mean: Option<StatValue>,
    min: Option<StatValue>,
    max: Option<StatValue>,
    stddev: Option<StatValue>,
    median: Option<StatValue>)

  datatype StatFeature = StatFeature(properties: Option<FeatureProperties>)

  /** `zonal_stats['value']['features']`: falsy (absent, null or empty), some other
      truthy value, or a list. */
  datatype FeaturesField = FeaturesFalsy | FeaturesNotList | FeaturesList(items: seq<StatFeature>)

  /** `zonal_stats['value']`: falsy, a truthy non-dictionary, or a dictionary. */
  datatype ValueField = ValueFalsy | ValueNotDict | ValueDict(features: FeaturesField)

  /** `zonal_stats['raster_data']`: falsy, a truthy non-string, or a string. */
  datatype RasterDataField = RasterDataFalsy | RasterDataNotString | RasterDataString(s: string)

  /** The `zonal_stats` argument; `resultTime` is "" when `result_time` is absent or falsy. */
  datatype ZonalStats =
    | NotADict
    | ZonalStatsDict(resultTime: string, value: ValueField, rasterData: RasterDataField)

  datatype ObsError =
    | ZonalStatsNotDict
    | EmptyFlightTimestamp
    | MissingResultTime
    | MissingValue
    | ValueNotDictError
    | MissingFeatures
    | MissingRasterData
    | RasterDataNotStringError
    | FetchFailed          // RuntimeError: the Things fetch raised or returned no Things
    | FeaturesNotListError // ValueError, raised only after the fetch
    | PostFailed           // the `$batch` post raised; the exception is re-raised

  /** The errors raised as ValueError (the others are RuntimeError or re-raised). */
  predicate IsValueError(e: ObsError)
  {
    !(e.FetchFailed? || e.PostFailed?)
  }

  /** What the argument checks leave: the result time, the (truthy) features field
      and the lower-cased index name. */
  datatype Checked = Checked(resultTime: string, features: FeaturesField, rasterData: string)

  function FeaturesFalsyOrEmpty(f: FeaturesField): bool
  {
    f.FeaturesFalsy? || (f.FeaturesList? && f.items == [])
  }

  /** The checks made before anything is fetched, in source order. */
  function Precheck(zs: ZonalStats, flightTimestamp: string): (r: Result<Checked, ObsError>)
    ensures r.Failure? ==> IsValueError(r.error)
    ensures r.Failure? <==>
      || zs.NotADict?
      || flightTimestamp == ""
      || zs.resultTime == ""
      || !zs.value.ValueDict?
      || FeaturesFalsyOrEmpty(zs.value.features)
      || !zs.rasterData.RasterDataString?
      || zs.rasterData.s == ""
    ensures r.Success? ==>
      && r.value.resultTime == zs.resultTime
      && r.value.features == zs.value.features
      && r.value.rasterData == Lower(zs.rasterData.s)
      && r.value.rasterData != ""
  {
    LowerEmpty(if zs.ZonalStatsDict? && zs.rasterData.RasterDataString? then zs.rasterData.s else "");
    if zs.NotADict? then Failure(ZonalStatsNotDict)
    else if flightTimestamp == "" then Failure(EmptyFlightTimestamp)
    else if zs.resultTime == "" then Failure(MissingResultTime)
    else if zs.value.ValueFalsy? then Failure(MissingValue)
    else if zs.value.ValueNotDict? then Failure(ValueNotDictError)
    else if FeaturesFalsyOrEmpty(zs.value.features) then Failure(MissingFeatures)
    else if zs.rasterData.RasterDataFalsy? || (zs.rasterData.RasterDataString? && zs.rasterData.s == "") then Failure(MissingRasterData)
    else if zs.rasterData.RasterDataNotString? then Failure(RasterDataNotStringError)
    else Success(Checked(zs.resultTime, zs.value.features, Lower(zs.rasterData.s)))
  }

  /** Two arguments that differ only in the case of `raster_data` pass the checks alike. */
  lemma PrecheckCaseInsensitive(resultTime: string, value: ValueField, a: string, b: string, flightTimestamp: string)
    requires Lower(a) == Lower(b)
    ensures Precheck(ZonalStatsDict(resultTime, value, RasterDataString(a)), flightTimestamp)
         == Precheck(ZonalStatsDict(resultTime, value, RasterDataString(b)), flightTimestamp)
  {
    LowerEmpty(a);
    LowerEmpty(b);
  }

  /** The fetched Thing that carries the feature's `iot_id`. */
  predicate HasId(t: FetchedThing, id: int)
  {
    t.iotId == Some(id)
  }

  /** The first fetched Thing whose `@iot.id` equals `id` (`target_thing[0]`). */
  function FindThing(things: seq<FetchedThing>, id: int): (r: Option<FetchedThing>)
    ensures r.None? <==> forall i :: 0 <= i < |things| ==> !HasId(things[i], id)
    ensures r.Some? ==>
      exists i :: 0 <= i < |things| && r.value == things[i] && HasId(things[i], id) &&
        forall e :: 0 <= e < i ==> !HasId(things[e], id)
  {
    FirstWhere(things, (t: FetchedThing) => HasId(t, id))
  }

  /** The tag as the comparison reads it ('' when absent). */
  function TagString(t: Tag): string
    requires !t.TagUnreadable?
  {
    if t.TagText? then t.s else ""
  }

  predicate AnyUnreadable(dss: seq<FetchedDatastream>)
  {
    exists k :: 0 <= k < |dss| && dss[k].tag.TagUnreadable?
  }

  /** A readable Datastream whose lower-cased tag is the index name. */
  predicate Hit(d: FetchedDatastream, rasterData: string)
  {
    !d.tag.TagUnreadable? && Lower(TagString(d.tag)) == rasterData
  }

  /** The comprehension's test, as one function value. */
  function HitTest(rasterData: string): FetchedDatastream -> bool
  {
    d => Hit(d, rasterData)
  }

  /** The Datastreams whose lower-cased tag equals the lower-cased index name, in order;
      the first of them is the first Datastream carrying the tag. */
  function Matching(dss: seq<FetchedDatastream>, rasterData: string): (m: seq<FetchedDatastream>)
    ensures forall d :: d in m <==> d in dss && Hit(d, rasterData)
    ensures m != [] ==>
      exists k :: 0 <= k < |dss| && dss[k] == m[0] && Hit(dss[k], rasterData) &&
        forall e :: 0 <= e < k ==> !Hit(dss[e], rasterData)
  {
    FilterMembers(dss, HitTest(rasterData));
    FilterFirst(dss, HitTest(rasterData));
    Filter(dss, HitTest(rasterData))
  }

  /** Matching distributes over concatenation, so it keeps the Datastreams' order. */
  lemma MatchingAppend(a: seq<FetchedDatastream>, b: seq<FetchedDatastream>, rasterData: string)
    ensures Matching(a + b, rasterData) == Matching(a, rasterData) + Matching(b, rasterData)
  {
    FilterAppend(a, b, HitTest(rasterData));
  }

  /** The five statistics, when every one of `mean`, `min`, `max`, `stddev`, `median` is present. */
  function ReadStats(p: FeatureProperties): (r: Option<StatResult>)
    ensures r.Some? <==> p.mean.Some? && p.min.Some? && p.max.Some? && p.stddev.Some? && p.median.Some?
    ensures r.Some? ==> r.value == StatResult(p.mean.value, p.min.value, p.max.value, p.stddev.value, p.median.value)
  {
    if p.mean.Some? && p.min.Some? && p.max.Some? && p.stddev.Some? && p.median.Some?
    then Some(StatResult(p.mean.value, p.min.value, p.max.value, p.stddev.value, p.median.value))
    else None
  }

  /** What happens to one feature: skipped for one of several reasons, recorded as
      unmatched, or turned into an Observation. */
  datatype Verdict =
    | NoProperties
    | NoIotId
    | UnknownThing(id: int)
    | LookupRaised(id: int)     // reading a tag raised; logged and skipped
    | NoDatastream(id: int)     // recorded in missing_datastreams
    | MissingStats(id: int)
    | NoDatastreamId(id: int)   // the chosen Datastream has no `@iot.id`: KeyError, skipped
    | Emit(obs: Observation)

  function Judge(f: StatFeature, things: seq<FetchedThing>, rasterData: string, phenomenonTime: string, resultTime: string): Verdict
  {
    match f.properties
    case None => NoProperties
    case Some(p) =>
      match p.iotId
      case None => NoIotId
      case Some(id) =>
        match FindThing(things, id)
        case None => UnknownThing(id)
        case Some(t) =>
          if AnyUnreadable(t.datastreams) then LookupRaised(id)
          else
            var m := Matching(t.datastreams, rasterData);
            if m == [] then NoDatastream(id)
            else if ReadStats(p).None? then MissingStats(id)
            else if m[0].iotId.None? then NoDatastreamId(id)
            else Emit(Observation(phenomenonTime, Some(resultTime), ReadStats(p).value, m[0].iotId.value))
  }

  /** A feature yields an Observation exactly when it has properties with an `iot_id`,
      a Thing with that id exists, some Datastream of the first such Thing carries the
      index tag, all five statistics are present and the first matching Datastream has
      an id; the Observation then carries both timestamps, the five statistics and that
      Datastream's id. */
  lemma JudgeEmit(f: StatFeature, things: seq<FetchedThing>, rasterData: string, phenomenonTime: string, resultTime: string, o: Observation)
    ensures Judge(f, things, rasterData, phenomenonTime, resultTime) == Emit(o) <==>
      && f.properties.Some?
      && f.properties.value.iotId.Some?
      && var p := f.properties.value;
         var t := FindThing(things, p.iotId.value);
         && t.Some?
         && !AnyUnreadable(t.value.datastreams)
         && var m := Matching(t.value.datastreams, rasterData);
            && m != []
            && ReadStats(p) == Some(o.result)
            && m[0].iotId == Some(o.datastream)
            && o.phenomenonTime == phenomenonTime
            && o.resultTime == Some(resultTime)
  {
  }

  /** The verdicts of the features, in feature order. */
  function Verdicts(fs: seq<StatFeature>, things: seq<FetchedThing>, rasterData: string, phenomenonTime: string, resultTime: string): (vs: seq<Verdict>)
    ensures |vs| == |fs|
    ensures forall k :: 0 <= k < |fs| ==> vs[k] == Judge(fs[k], things, rasterData, phenomenonTime, resultTime)
  {
    if fs == [] then []
    else Verdicts(fs[..|fs| - 1], things, rasterData, phenomenonTime, resultTime) + [Judge(fs[|fs| - 1], things, rasterData, phenomenonTime, resultTime)]
  }

  /** The Observation a verdict contributes: its own on `Emit`, none otherwise. */
  function EmitOf(v: Verdict): (obs: seq<Observation>)
    ensures |obs| <= 1
  {
    if v.Emit? then [v.obs] else []
  }

  /** The Observations of a run of verdicts, in order. */
  function Emissions(vs: seq<Verdict>): (obs: seq<Observation>)
    ensures |obs| <= |vs|
  {
    if vs == [] then [] else Emissions(vs[..|vs| - 1]) + EmitOf(vs[|vs| - 1])
  }

  /** The ids a run of verdicts records as unmatched, each once, in order of first appearance. */
  function Misses(vs: seq<Verdict>): seq<int>
  {
    if vs == [] then []
    else
      var prev := Misses(vs[..|vs| - 1]);
      var v := vs[|vs| - 1];
      if v.NoDatastream? && v.id !in prev then prev + [v.id] else prev
  }

  /** The Observations of the features judged so far, in feature order. */
  function Emitted(fs: seq<StatFeature>, things: seq<FetchedThing>, rasterData: string, phenomenonTime: string, resultTime: string): seq<Observation>
  {
    Emissions(Verdicts(fs, things, rasterData, phenomenonTime, resultTime))
  }

  /** `missing_datastreams`: the ids of the features whose Thing has no matching
      Datastream, each recorded once, in order of first appearance. */
  function Unmatched(fs: seq<StatFeature>, things: seq<FetchedThing>, rasterData: string, phenomenonTime: string, resultTime: string): seq<int>
  {
    Misses(Verdicts(fs, things, rasterData, phenomenonTime, resultTime))
  }

  lemma {:induction false} EmissionsMembers(vs: seq<Verdict>)
    ensures forall o :: o in Emissions(vs) <==> Emit(o) in vs
  {
    if vs != [] {
      var init := vs[..|vs| - 1];
      EmissionsMembers(init);
      assert vs == init + [vs[|vs| - 1]];
    }
  }

  lemma {:induction false} MissesSpec(vs: seq<Verdict>)
    ensures var u := Misses(vs);
      && (forall i, j :: 0 <= i < j < |u| ==> u[i] != u[j])
      && (forall id :: id in u <==> NoDatastream(id) in vs)
  {
    if vs != [] {
      var init := vs[..|vs| - 1];
      MissesSpec(init);
      assert vs == init + [vs[|vs| - 1]];
    }
  }

  /** Every Observation comes from a feature judged `Emit`, and every such feature
      contributes its Observation; all carry the two timestamps of the call. */
  lemma EmittedSpec(fs: seq<StatFeature>, things: seq<FetchedThing>, rasterData: string, phenomenonTime: string, resultTime: string)
    ensures var obs := Emitted(fs, things, rasterData, phenomenonTime, resultTime);
      && (forall o :: o in obs ==> o.phenomenonTime == phenomenonTime && o.resultTime == Some(resultTime))
      && (forall o :: o in obs <==> exists k :: 0 <= k < |fs| && Judge(fs[k], things, rasterData, phenomenonTime, resultTime) == Emit(o))
  {
    var vs := Verdicts(fs, things, rasterData, phenomenonTime, resultTime);
    EmissionsMembers(vs);
    forall o ensures o in Emissions(vs) <==> exists k :: 0 <= k < |fs| && Judge(fs[k], things, rasterData, phenomenonTime, resultTime) == Emit(o) {
      if Emit(o) in vs {
        var k :| 0 <= k < |vs| && vs[k] == Emit(o);
        assert Judge(fs[k], things, rasterData, phenomenonTime, resultTime) == Emit(o);
      }
    }
    forall o | o in Emissions(vs)
      ensures o.phenomenonTime == phenomenonTime && o.resultTime == Some(resultTime)
    {
      var k :| 0 <= k < |vs| && vs[k] == Emit(o);
      JudgeEmit(fs[k], things, rasterData, phenomenonTime, resultTime, o);
    }
  }

  /** No id is recorded twice as unmatched, and an id is recorded exactly when some
      feature's Thing has no Datastream carrying the index tag. */
  lemma UnmatchedSpec(fs: seq<StatFeature>, things: seq<FetchedThing>, rasterData: string, phenomenonTime: string, resultTime: string)
    ensures var u := Unmatched(fs, things, rasterData, phenomenonTime, resultTime);
      && (forall i, j :: 0 <= i < j < |u| ==> u[i] != u[j])
      && (forall id :: id in u <==> exists k :: 0 <= k < |fs| && Judge(fs[k], things, rasterData, phenomenonTime, resultTime) == NoDatastream(id))
  {
    var vs := Verdicts(fs, things, rasterData, phenomenonTime, resultTime);
    MissesSpec(vs);
    assert Unmatched(fs, things, rasterData, phenomenonTime, resultTime) == Misses(vs);
    forall id ensures NoDatastream(id) in vs <==> exists k :: 0 <= k < |fs| && Judge(fs[k], things, rasterData, phenomenonTime, resultTime) == NoDatastream(id) {
      if NoDatastream(id) in vs {
        var k :| 0 <= k < |vs| && vs[k] == NoDatastream(id);
        assert Judge(fs[k], things, rasterData, phenomenonTime, resultTime) == NoDatastream(id);
      }
    }
  }

  /** What a call returns normally: the unmatched ids, and the batch when one was posted. */
  datatype ObsRun = ObsRun(unmatched: seq<int>, batch: Option<seq<Request<Observation>>>)

  /** One pass of the loop body: the Observation a feature yields, or the id it adds
      to the unmatched list, as its verdict says. */
  method JudgeFeature(f: StatFeature, things: seq<FetchedThing>, rasterData: string, phenomenonTime: string, resultTime: string)
    returns (o: Option<Observation>, miss: Option<int>)
    ensures var v := Judge(f, things, rasterData, phenomenonTime, resultTime);
      && o == (if v.Emit? then Some(v.obs) else None)
      && miss == (if v.NoDatastream? then Some(v.id) else None)
  {
    o, miss := None, None;
    if f.properties.Some? && f.properties.value.iotId.Some? {
      var p := f.properties.value;
      var id := p.iotId.value;
      var target := FindThing(things, id);
      if target.Some? && !AnyUnreadable(target.value.datastreams) {
        var matches := Matching(target.value.datastreams, rasterData);
        if matches == [] {
          miss := Some(id);
        } else {
          var stats := ReadStats(p);
          if stats.Some? && matches[0].iotId.Some? {
            o := Some(Observation(phenomenonTime, Some(resultTime), stats.value, matches[0].iotId.value));
          }
        }
      }
    }
  }

  /** The loop over the zonal-statistics features: the Observations made and the ids
      of the Things without a matching Datastream. */
  method JudgeFeatures(items: seq<StatFeature>, things: seq<FetchedThing>, rasterData: string, phenomenonTime: string, resultTime: string)
    returns (obs: seq<Observation>, missing: seq<int>)
    ensures obs == Emitted(items, things, rasterData, phenomenonTime, resultTime)
    ensures missing == Unmatched(items, things, rasterData, phenomenonTime, resultTime)
  {
    obs, missing := [], [];
    var i := 0;
    while i < |items|
      invariant 0 <= i <= |items|
      invariant obs == Emitted(items[..i], things, rasterData, phenomenonTime, resultTime)
      invariant missing == Unmatched(items[..i], things, rasterData, phenomenonTime, resultTime)
    {
      JudgedStep(items, i, things, rasterData, phenomenonTime, resultTime);
      var o, miss := JudgeFeature(items[i], things, rasterData, phenomenonTime, resultTime);
      if o.Some? {
        obs := obs + [o.value];
      }
      if miss.Some? && miss.value !in missing {
        missing := missing + [miss.value];
      }
      i := i + 1;
    }
    assert items[..i] == items;
  }

  /** Judging one more feature appends its verdict's contribution to both results. */
  lemma JudgedStep(items: seq<StatFeature>, i: nat, things: seq<FetchedThing>, rasterData: string, phenomenonTime: string, resultTime: string)
    requires i < |items|
    ensures var v := Judge(items[i], things, rasterData, phenomenonTime, resultTime);
      && Emitted(items[..i + 1], things, rasterData, phenomenonTime, resultTime)
         == Emitted(items[..i], things, rasterData, phenomenonTime, resultTime) + EmitOf(v)
      && var prev := Unmatched(items[..i], things, rasterData, phenomenonTime, resultTime);
         Unmatched(items[..i + 1], things, rasterData, phenomenonTime, resultTime)
         == if v.NoDatastream? && v.id !in prev then prev + [v.id] else prev
  {
    assert items[..i + 1][..i] == items[..i];
    var vs := Verdicts(items[..i + 1], things, rasterData, phenomenonTime, resultTime);
    assert vs[..i] == Verdicts(items[..i], things, rasterData, phenomenonTime, resultTime);
  }

  /** `Plots.create_observations(zonal_stats, flight_timestamp)`.
      `fetched` is the answer of the Things fetch (None when it raised), `postAccepted`
      whether the `$batch` post returned normally. `fetchedThings` tells whether the
      fetch was made, `sent` the batch handed to the store, if any. */
  method CreateObservations(zs: ZonalStats, flightTimestamp: string, fetched: Option<seq<FetchedThing>>, postAccepted: bool)
    returns (r: Result<ObsRun, ObsError>, fetchedThings: bool, sent: Option<seq<Request<Observation>>>)
    // argument errors are ValueErrors raised before any fetch
    ensures Precheck(zs, flightTimestamp).Failure? ==>
      r == Failure(Precheck(zs, flightTimestamp).error) && !fetchedThings && sent.None?
    ensures Precheck(zs, flightTimestamp).Success? ==> fetchedThings
    // a failed or empty fetch is a RuntimeError, and nothing is posted
    ensures Precheck(zs, flightTimestamp).Success? && (fetched.None? || fetched == Some([])) ==>
      r == Failure(FetchFailed) && sent.None?
    ensures Precheck(zs, flightTimestamp).Success? && fetched.Some? && fetched.value != [] ==>
      var c := Precheck(zs, flightTimestamp).value;
      if c.features.FeaturesNotList? then r == Failure(FeaturesNotListError) && sent.None?
      else
        var obs := Emitted(c.features.items, fetched.value, c.rasterData, flightTimestamp, c.resultTime);
        var unmatched := Unmatched(c.features.items, fetched.value, c.rasterData, flightTimestamp, c.resultTime);
        if obs == [] then r == Success(ObsRun(unmatched, None)) && sent.None?
        else
          && sent == Some(PostBatch(obs, "Observations", 0))
          && r == (if postAccepted then Success(ObsRun(unmatched, sent)) else Failure(PostFailed))
  {
    fetchedThings, sent := false, None;
    var checked := Precheck(zs, flightTimestamp);
    if checked.Failure? {
      r := Failure(checked.error);
      return;
    }
    var c := checked.value;
    fetchedThings := true;
    if fetched.None? || fetched.value == [] {
      r := Failure(FetchFailed);
      return;
    }
    var things := fetched.value;
    if c.features.FeaturesNotList? {
      r := Failure(FeaturesNotListError);
      return;
    }
    var items := c.features.items;
    var obs, missing := JudgeFeatures(items, things, c.rasterData, flightTimestamp, c.resultTime);
    if obs == [] {
      r := Success(ObsRun(missing, None));
      return;
    }
    var batch := PostBatch(obs, "Observations", 0);
    sent := Some(batch);
    if postAccepted {
      r := Success(ObsRun(missing, sent));
    } else {
      r := Failure(PostFailed);
    }
  }
}
