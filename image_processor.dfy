/** raster2sensor/image_processor.py: running every vegetation-index process on every
    raster image, posting the zonal statistics as Observations, and accounting for the
    outcome of each (image, index) pair. The file system, the raster pipeline, the OGC
    API Processes server and the SensorThings server are inputs (`Services`). */
module ImageProcessor {
  import opened Wrappers
  import opened SensorThings
  import opened ConfigParser
  import Utils

  /** The outcome of one (image, index) pair; `errorMessage` is None on success. */
  datatype ProcessingResult = ProcessingResult(
    rasterPath: string,
    timestamp: string,
    processName: string,
    success: bool,
    errorMessage: Option<string>)

  /** What a remote call did: returned a value, returned None, or raised an exception
      with the given text. */
  datatype Call<T> = Returned(value: T) | ReturnedNone | Raised(message: string)

  /** The outside world of the processor:
      - `pathExists`: whether a raster path exists;
      - `prepare`: reading, clipping to the plots and base64-encoding a raster, or the
        text of the exception raised on the way;
      - `execute`: running an OGC API process on its inputs;
      - `observe`: `Plots.create_observations` on the zonal statistics and the image
        timestamp, None when it returns and the exception text when it raises. */
  datatype Services = Services(
    pathExists: string -> bool,
    prepare: string -> Result<string, string>,
    execute: (string, map<string, Json>) -> Call<map<string, Json>>,
    observe: (map<string, Json>, string) -> Option<string>)

  /** `ImageProcessor.__init__`: the explicit URL if non-empty, else the configured one;
      None when both are empty (ValueError). */
  function ServerUrl(argument: string, configured: string): (url: Option<string>)
    ensures url.None? <==> argument == "" && configured == ""
    ensures url.Some? ==> url.value == (if argument != "" then argument else configured) && url.value != ""
  {
    var url := if argument != "" then argument else configured;
    if url == "" then None else Some(url)
  }

  function Failed(img: RasterImage, vi: VegetationIndex, message: string): ProcessingResult
  {
    ProcessingResult(img.path, img.timestamp, vi.process, false, Some(message))
  }

  /** The inputs of an index process: the encoded raster, then the index's band
      numbers (a band entry of the same name replaces the raster). */
  function IndexInputs(encoded: string, vi: VegetationIndex): map<string, Json>
  {
    map["input_value_raster" := JStr(encoded)] + vi.bands
  }

  /** The inputs of `zonal-stats`: the plots, the index output's raster and its id. */
  function ZonalInputs(plots: Json, output: map<string, Json>): map<string, Json>
    requires "value" in output && "id" in output
  {
    map["input_zone_polygon" := plots, "input_value_raster" := output["value"], "raster_data" := output["id"]]
  }

  /** The outcome of one pair and the processes it ran, in order. */
  datatype Outcome = Outcome(result: ProcessingResult, executed: seq<string>)

  /** `_process_single_index(raster_image, vegetation_index, encoded, plots_geojson)`. */
  function ProcessSingleIndex(svc: Services, img: RasterImage, vi: VegetationIndex, encoded: string, plots: Json): Outcome
  {
    var file := Utils.Basename(img.path);
    var prefix := "Error processing " + vi.name + " for " + file + ": ";
    match svc.execute(vi.process, IndexInputs(encoded, vi))
    case Raised(e) => Outcome(Failed(img, vi, prefix + e), [vi.process])
    case ReturnedNone => Outcome(Failed(img, vi, "Error executing process: " + vi.process), [vi.process])
    case Returned(output) =>
      if "value" !in output then Outcome(Failed(img, vi, prefix + "'value'"), [vi.process])
      else if "id" !in output then Outcome(Failed(img, vi, prefix + "'id'"), [vi.process])
      else
        match svc.execute("zonal-stats", ZonalInputs(plots, output))
        case Raised(e) => Outcome(Failed(img, vi, prefix + e), [vi.process, "zonal-stats"])
        case ReturnedNone => Outcome(Failed(img, vi, "Error executing zonal statistics"), [vi.process, "zonal-stats"])
        case Returned(zonalStats) =>
          match svc.observe(zonalStats, img.timestamp)
          case Some(e) => Outcome(Failed(img, vi, prefix + e), [vi.process, "zonal-stats"])
          case None => Outcome(ProcessingResult(img.path, img.timestamp, vi.process, true, None), [vi.process, "zonal-stats"])
  }

  /** Every outcome names the image and the process; a process returning None fails
      with `Error executing process: <process>` and zonal statistics are not run; the
      pair succeeds exactly when the index process returned an output with `value` and
      `id`, zonal statistics returned a value, and creating the observations returned;
      a success has no message and a failure has one. */
  lemma ProcessSingleIndexSpec(svc: Services, img: RasterImage, vi: VegetationIndex, encoded: string, plots: Json)
    ensures var o := ProcessSingleIndex(svc, img, vi, encoded, plots);
      && o.result.rasterPath == img.path && o.result.timestamp == img.timestamp && o.result.processName == vi.process
      && (o.result.success <==> o.result.errorMessage.None?)
      && o.executed[0] == vi.process
    ensures var o := ProcessSingleIndex(svc, img, vi, encoded, plots);
      svc.execute(vi.process, IndexInputs(encoded, vi)).ReturnedNone? ==>
        o.result.errorMessage == Some("Error executing process: " + vi.process) && o.executed == [vi.process]
    ensures var inputs := IndexInputs(encoded, vi);
      var o := ProcessSingleIndex(svc, img, vi, encoded, plots);
      o.result.success <==>
        && svc.execute(vi.process, inputs).Returned?
        && "value" in svc.execute(vi.process, inputs).value
        && "id" in svc.execute(vi.process, inputs).value
        && var output := svc.execute(vi.process, inputs).value;
           && svc.execute("zonal-stats", ZonalInputs(plots, output)).Returned?
           && svc.observe(svc.execute("zonal-stats", ZonalInputs(plots, output)).value, img.timestamp).None?
  {
  }

  /** `[f(x) for x in xs]`. */
  function MapSeq<A, B>(xs: seq<A>, f: A -> B): (ys: seq<B>)
    ensures |ys| == |xs|
    ensures forall j :: 0 <= j < |xs| ==> ys[j] == f(xs[j])
  {
    if xs == [] then [] else MapSeq(xs[..|xs| - 1], f) + [f(xs[|xs| - 1])]
  }

  lemma MapSeqSnoc<A, B>(xs: seq<A>, j: nat, f: A -> B)
    requires j < |xs|
    ensures MapSeq(xs[..j + 1], f) == MapSeq(xs[..j], f) + [f(xs[j])]
  {
    assert xs[..j + 1][..j] == xs[..j];
  }

  /** The results of one image whose raster could not be used: a failure with the same
      message for every index. */
  function FailedRow(img: RasterImage, indices: seq<VegetationIndex>, message: string): seq<ProcessingResult>
  {
    MapSeq(indices, vi => Failed(img, vi, message))
  }

  /** The results of one prepared image: one `_process_single_index` per index. */
  function IndexRow(svc: Services, img: RasterImage, indices: seq<VegetationIndex>, encoded: string, plots: Json): seq<ProcessingResult>
  {
    MapSeq(indices, vi => ProcessSingleIndex(svc, img, vi, encoded, plots).result)
  }

  /** The result for index `j` of one image carries the image's path and timestamp and
      the index's process. A missing image path fails every index with the same
      message; an exception while loading, clipping or encoding fails every index with
      the same message; otherwise the result is that of `_process_single_index`. */
  lemma ImageRowAt(svc: Services, img: RasterImage, indices: seq<VegetationIndex>, plots: Json, j: nat)
    requires j < |indices|
    ensures var r := ImageRow(svc, img, indices, plots)[j];
      && r.rasterPath == img.path && r.timestamp == img.timestamp && r.processName == indices[j].process
      && (!svc.pathExists(img.path) ==> r == Failed(img, indices[j], MissingMessage(img)))
      && (svc.pathExists(img.path) && svc.prepare(img.path).Failure? ==>
            r == Failed(img, indices[j], LoadMessage(img, svc.prepare(img.path).error)))
      && (svc.pathExists(img.path) && svc.prepare(img.path).Success? ==>
            r == ProcessSingleIndex(svc, img, indices[j], svc.prepare(img.path).value, plots).result)
  {
    if svc.pathExists(img.path) && svc.prepare(img.path).Success? {
      ProcessSingleIndexSpec(svc, img, indices[j], svc.prepare(img.path).value, plots);
    }
  }

  function MissingMessage(img: RasterImage): string
  {
    "Raster image path does not exist: " + img.path
  }

  function LoadMessage(img: RasterImage, e: string): string
  {
    "Failed to load/clip raster " + img.path + ": " + e
  }

  /** The results of one image. */
  function ImageRow(svc: Services, img: RasterImage, indices: seq<VegetationIndex>, plots: Json): (row: seq<ProcessingResult>)
    ensures |row| == |indices|
  {
    if !svc.pathExists(img.path) then FailedRow(img, indices, MissingMessage(img))
    else match svc.prepare(img.path)
      case Failure(e) => FailedRow(img, indices, LoadMessage(img, e))
      case Success(encoded) => IndexRow(svc, img, indices, encoded, plots)
  }

  function ImageRows(svc: Services, images: seq<RasterImage>, indices: seq<VegetationIndex>, plots: Json): (rows: seq<seq<ProcessingResult>>)
    ensures |rows| == |images|
    ensures forall i :: 0 <= i < |images| ==> rows[i] == ImageRow(svc, images[i], indices, plots)
  {
    if images == [] then []
    else ImageRows(svc, images[..|images| - 1], indices, plots) + [ImageRow(svc, images[|images| - 1], indices, plots)]
  }

  /** All results of a run once the plots are fetched, image-major and index-minor. */
  function AllResults(svc: Services, images: seq<RasterImage>, indices: seq<VegetationIndex>, plots: Json): seq<ProcessingResult>
  {
    Flatten(ImageRows(svc, images, indices, plots))
  }

  /** There is one result per (image, index) pair, image-major and index-minor: the
      one for image `i` and index `j` sits at `i * |indices| + j` and is entry `j` of
      image `i`'s results (described by `ImageRowAt`). */
  lemma AllResultsSpec(svc: Services, images: seq<RasterImage>, indices: seq<VegetationIndex>, plots: Json)
    ensures |AllResults(svc, images, indices, plots)| == |images| * |indices|
    ensures forall i, j :: 0 <= i < |images| && 0 <= j < |indices| ==>
      && Slot(i, j, |indices|) < |AllResults(svc, images, indices, plots)|
      && AllResults(svc, images, indices, plots)[Slot(i, j, |indices|)] == ImageRow(svc, images[i], indices, plots)[j]
  {
    FlattenSpec(ImageRows(svc, images, indices, plots), |indices|);
  }

  lemma ImageRowsSnoc(svc: Services, images: seq<RasterImage>, i: nat, indices: seq<VegetationIndex>, plots: Json)
    requires i < |images|
    ensures AllResults(svc, images[..i + 1], indices, plots) == AllResults(svc, images[..i], indices, plots) + ImageRow(svc, images[i], indices, plots)
  {
    assert images[..i + 1][..i] == images[..i];
  }

  /** The results of the indices of one image, built as the inner loop does. */
  method ProcessImage(svc: Services, img: RasterImage, indices: seq<VegetationIndex>, plots: Json) returns (row: seq<ProcessingResult>)
    ensures row == ImageRow(svc, img, indices, plots)
  {
    var message := "";
    if !svc.pathExists(img.path) {
      message := MissingMessage(img);
    } else {
      var prepared := svc.prepare(img.path);
      if prepared.Failure? {
        message := LoadMessage(img, prepared.error);
      } else {
        row := [];
        var j := 0;
        while j < |indices|
          invariant 0 <= j <= |indices|
          invariant row == IndexRow(svc, img, indices[..j], prepared.value, plots)
        {
          MapSeqSnoc(indices, j, vi => ProcessSingleIndex(svc, img, vi, prepared.value, plots).result);
          row := row + [ProcessSingleIndex(svc, img, indices[j], prepared.value, plots).result];
          j := j + 1;
        }
        assert indices[..j] == indices;
        return;
      }
    }
    row := [];
    var j := 0;
    while j < |indices|
      invariant 0 <= j <= |indices|
      invariant row == FailedRow(img, indices[..j], message)
    {
      MapSeqSnoc(indices, j, vi => Failed(img, vi, message));
      row := row + [Failed(img, indices[j], message)];
      j := j + 1;
    }
    assert indices[..j] == indices;
  }

  datatype RunError = PlotsFetchFailed | TrialIdMissing

  /** `process_images(trial_id, raster_images, vegetation_indices)`; `plots` is the
      outcome of fetching the trial's plots (None when that raised, which is re-raised). */
  method ProcessImages(svc: Services, plots: Option<Json>, images: seq<RasterImage>, indices: seq<VegetationIndex>)
    returns (r: Result<seq<ProcessingResult>, RunError>)
    ensures plots.None? <==> r.Failure?
    ensures plots.None? ==> r == Failure(PlotsFetchFailed)
    ensures plots.Some? ==> r == Success(AllResults(svc, images, indices, plots.value))
  {
    if plots.None? {
      return Failure(PlotsFetchFailed);
    }
    var results: seq<ProcessingResult> := [];
    var i := 0;
    while i < |images|
      invariant 0 <= i <= |images|
      invariant results == AllResults(svc, images[..i], indices, plots.value)
    {
      var row := ProcessImage(svc, images[i], indices, plots.value);
      ImageRowsSnoc(svc, images, i, indices, plots.value);
      results := results + row;
      i := i + 1;
    }
    assert images[..i] == images;
    return Success(results);
  }

  /** `process_from_config(config)`: a falsy `trial_id` is refused before anything is
      fetched; `plots` is the outcome of fetching that trial's plots. */
  method ProcessFromConfig(svc: Services, plots: Option<Json>, config: Config) returns (r: Result<seq<ProcessingResult>, RunError>)
    ensures config.trialId.None? || !Truthy(config.trialId.value) ==> r == Failure(TrialIdMissing)
    ensures config.trialId.Some? && Truthy(config.trialId.value) ==>
      r == (if plots.None? then Failure(PlotsFetchFailed)
            else Success(AllResults(svc, config.rasterImages, config.vegetationIndices, plots.value)))
  {
    if config.trialId.None? || !Truthy(config.trialId.value) {
      return Failure(TrialIdMissing);
    }
    r := ProcessImages(svc, plots, config.rasterImages, config.vegetationIndices);
  }

  // ---------------------------------------------------------------------------
  // Summary

  /** The closing line of the summary. */
  datatype Verdict = AllCompleted | SomeFailed | AllFailed

  /** What `print_results_summary` reports: the counts, the failed results it lists
      (in order), and the closing verdict. */
  datatype Summary = Summary(total: nat, successful: nat, failed: int, failures: seq<ProcessingResult>, verdict: Verdict)

  function Successes(results: seq<ProcessingResult>): nat
  {
    if results == [] then 0 else Successes(results[..|results| - 1]) + (if results[|results| - 1].success then 1 else 0)
  }

  function Failures(results: seq<ProcessingResult>): seq<ProcessingResult>
  {
    if results == [] then []
    else Failures(results[..|results| - 1]) + (if results[|results| - 1].success then [] else [results[|results| - 1]])
  }

  /** `print_results_summary(results)`. */
  function Summarize(results: seq<ProcessingResult>): Summary
  {
    var total := |results|;
    var successful := Successes(results);
    var failed := total - successful;
    Summary(total, successful, failed, if failed > 0 then Failures(results) else [],
      if successful == total then AllCompleted else if successful > 0 then SomeFailed else AllFailed)
  }

  lemma CountsSpec(results: seq<ProcessingResult>)
    ensures Successes(results) + |Failures(results)| == |results|
    ensures forall r :: r in Failures(results) <==> r in results && !r.success
    ensures Successes(results) == |results| <==> forall k :: 0 <= k < |results| ==> results[k].success
    ensures Successes(results) == 0 <==> forall k :: 0 <= k < |results| ==> !results[k].success
  {
    FailuresSpec(results);
    SuccessesExtremes(results);
  }

  lemma {:induction false} FailuresSpec(results: seq<ProcessingResult>)
    ensures Successes(results) + |Failures(results)| == |results|
    ensures forall r :: r in Failures(results) <==> r in results && !r.success
  {
    if results != [] {
      var n := |results| - 1;
      FailuresSpec(results[..n]);
      assert results == results[..n] + [results[n]];
    }
  }

  lemma {:induction false} SuccessesExtremes(results: seq<ProcessingResult>)
    ensures Successes(results) <= |results|
    ensures Successes(results) == |results| <==> forall k :: 0 <= k < |results| ==> results[k].success
    ensures Successes(results) == 0 <==> forall k :: 0 <= k < |results| ==> !results[k].success
  {
    if results != [] {
      var n := |results| - 1;
      SuccessesExtremes(results[..n]);
      assert forall k :: 0 <= k < n ==> results[..n][k] == results[k];
    }
  }


  /** Successful plus failed is the total; the failures listed are exactly the failed
      results; "all completed" is reported exactly when every result succeeded (so also
      for no results), "all failed" exactly when there are results and none succeeded. */
  lemma SummarizeSpec(results: seq<ProcessingResult>)
    ensures var s := Summarize(results);
      && s.successful + s.failed == s.total == |results|
      && s.failed >= 0
      && (forall r :: r in s.failures <==> r in results && !r.success)
      && (s.verdict == AllCompleted <==> s.successful == s.total)
      && (s.verdict == AllCompleted <==> forall k :: 0 <= k < |results| ==> results[k].success)
      && (s.verdict == AllFailed <==> results != [] && forall k :: 0 <= k < |results| ==> !results[k].success)
  {
    CountsSpec(results);
    if results != [] && Successes(results) == 0 {
      assert !results[0].success;
    }
  }
}
