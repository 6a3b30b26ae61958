/** raster2sensor/cli.py: the option checks, override precedence and list filters of the
    `plots fetch`, `plots create`, `processes` and `process-images` commands. A command
    that stops with `typer.Exit(code)` is a `Failure(code)`; what the command goes on to
    do with the accepted options (HTTP calls, processing) is not part of this module. */
module Cli {
  import opened Wrappers
  import opened Text
  import opened SensorThings
  import opened ConfigParser
  import ImageProcessor

  /** A command-line value as Python sees it: a string option, `None` when not given
      (the empty string stands for both, since the commands only test truthiness). */
  function StrArg(s: string): Json
  {
    if s == "" then JNull else JStr(s)
  }

  /** An optional config field as a JSON value (`None` reads as `null`). */
  function OrNull(o: Option<Json>): Json
  {
    match o
    case None => JNull
    case Some(j) => j
  }

  /** Python's `a or b`. */
  function Or(a: Json, b: Json): (r: Json)
    ensures Truthy(r) <==> Truthy(a) || Truthy(b)
  {
    if Truthy(a) then a else b
  }

  // ---------------------------------------------------------------------------
  // plots fetch

  /** The URL and trial id `fetch_plots` passes on. */
  datatype Target = Target(url: Json, trialId: Json)

  /** `fetch_plots` as written: `--config` excludes both individual options, and without
      it both are needed. With `--config` the command reads `config.sensorthingsapi_url`,
      an attribute the `Config` record does not have, and the resulting error (like a
      failed load) is caught and turned into exit code 1. */
  function FetchPlotsTarget(trialId: string, url: string, configFile: string): Result<Target, int>
  {
    if configFile != "" && (trialId != "" || url != "") then Failure(1)
    else if configFile == "" && !(trialId != "" && url != "") then Failure(1)
    else if configFile != "" then Failure(1)
    else Success(Target(JStr(url), JStr(trialId)))
  }

  /** The command accepts its options exactly when the two individual options are given
      and `--config` is not; it then uses them as given. Every rejection exits with 1. */
  lemma FetchPlotsTargetSpec(trialId: string, url: string, configFile: string)
    ensures var r := FetchPlotsTarget(trialId, url, configFile);
      && (r.Success? <==> configFile == "" && trialId != "" && url != "")
      && (r.Success? ==> r.value == Target(JStr(url), JStr(trialId)))
      && (r.Failure? ==> r.error == 1)
  {
  }

  /** A configuration file never gets as far as fetching: as written, the
      `--config` route of `fetch_plots` always exits with code 1. */
  lemma FetchPlotsConfigAlwaysExits(configFile: string)
    requires configFile != ""
    ensures FetchPlotsTarget("", "", configFile) == Failure(1)
  {
  }

  /** `fetch_plots` as its help text describes it: the configuration file supplies
      `trial_id` and `sensorthingsapi_url`. `configUrl` is the file's
      `sensorthingsapi_url` entry, which the `Config` record would have to carry. */
  function FetchPlotsTargetIntended(trialId: string, url: string, configFile: string,
                                    loaded: Result<Config, ConfigError>, configUrl: Option<Json>): Result<Target, int>
  {
    if configFile != "" && (trialId != "" || url != "") then Failure(1)
    else if configFile == "" && !(trialId != "" && url != "") then Failure(1)
    else if configFile != "" then
      match loaded
      case Failure(_) => Failure(1)
      case Success(c) => Success(Target(OrNull(configUrl), OrNull(c.trialId)))
    else Success(Target(JStr(url), JStr(trialId)))
  }

  /** The corrected command agrees with the written one whenever no configuration file
      is given, keeps the mutual exclusion, and with a configuration file alone takes
      both values from the loaded configuration. */
  lemma FetchPlotsTargetIntendedSpec(trialId: string, url: string, configFile: string,
                                     loaded: Result<Config, ConfigError>, configUrl: Option<Json>)
    ensures var r := FetchPlotsTargetIntended(trialId, url, configFile, loaded, configUrl);
      && (configFile == "" ==> r == FetchPlotsTarget(trialId, url, configFile))
      && (configFile != "" && (trialId != "" || url != "") ==> r == Failure(1))
      && (configFile != "" && trialId == "" && url == "" ==>
            (r.Success? <==> loaded.Success?)
            && (loaded.Success? ==> r.value == Target(OrNull(configUrl), OrNull(loaded.value.trialId))))
  {
  }

  // ---------------------------------------------------------------------------
  // processes fetch / describe / execute

  /** The URL the `processes` commands use, as written: exactly one of `--config` and
      `--pygeoapi-url` must be given; the `--config` route reads `config.pygeoapi_url`,
      which `Config` does not have, and so exits with code 1 too. */
  function ProcessesUrl(pygeoapiUrl: string, configFile: string): Result<string, int>
  {
    if configFile != "" && pygeoapiUrl != "" then Failure(1)
    else if configFile == "" && pygeoapiUrl == "" then Failure(1)
    else if configFile != "" then Failure(1)
    else Success(pygeoapiUrl)
  }

  /** Both options, or neither, exit with 1; the URL option alone is used as given; as
      written a configuration file alone exits with 1 as well. */
  lemma ProcessesUrlSpec(pygeoapiUrl: string, configFile: string)
    ensures var r := ProcessesUrl(pygeoapiUrl, configFile);
      && ((configFile != "") == (pygeoapiUrl != "") ==> r == Failure(1))
      && (r.Success? <==> configFile == "" && pygeoapiUrl != "")
      && (r.Success? ==> r.value == pygeoapiUrl)
      && (configFile != "" ==> r == Failure(1))
  {
  }

  /** The `processes` commands as their help text describes them: the configuration
      file's `pygeoapi_url` entry (`configUrl`) is used, and an empty one exits with 1. */
  function ProcessesUrlIntended(pygeoapiUrl: string, configFile: string,
                                loaded: Result<Config, ConfigError>, configUrl: Option<Json>): Result<Json, int>
  {
    if configFile != "" && pygeoapiUrl != "" then Failure(1)
    else if configFile == "" && pygeoapiUrl == "" then Failure(1)
    else if configFile != "" then
      if loaded.Failure? || !Truthy(OrNull(configUrl)) then Failure(1)
      else Success(OrNull(configUrl))
    else Success(JStr(pygeoapiUrl))
  }

  /** The corrected commands keep the exactly-one rule, agree with the written ones on
      the `--pygeoapi-url` route, and with a configuration file succeed exactly when it
      loads and carries a non-empty URL, which they then use. */
  lemma ProcessesUrlIntendedSpec(pygeoapiUrl: string, configFile: string,
                                 loaded: Result<Config, ConfigError>, configUrl: Option<Json>)
    ensures var r := ProcessesUrlIntended(pygeoapiUrl, configFile, loaded, configUrl);
      && ((configFile != "") == (pygeoapiUrl != "") ==> r == Failure(1))
      && (configFile == "" && pygeoapiUrl != "" ==> r == Success(JStr(pygeoapiUrl)))
      && (configFile != "" && pygeoapiUrl == "" ==>
            (r.Success? <==> loaded.Success? && Truthy(OrNull(configUrl)))
            && (r.Success? ==> r.value == OrNull(configUrl)))
  {
  }

  // ---------------------------------------------------------------------------
  // plots create

  /** The values `create_plots` hands to `Plots`. */
  datatype PlotSettings = PlotSettings(url: Json, trialId: Json, plotIdField: Json, year: Json)

  /** `--year`: an integer option, `None` when not given. */
  function YearArg(year: Option<int>): Json
  {
    match year
    case None => JNull
    case Some(y) => JNum(y as real)
  }

  /** `create_plots` after the configuration file has been loaded (`loaded`). Each value
      is the command-line one if truthy, else the configuration's; the year falls back to
      `currentYear`. Without `--sensorthingsapi-url` the fallback reads the missing
      `config.sensorthingsapi_url` attribute, so that route exits with code 1. */
  function CreatePlotsSettings(url: string, trialId: string, plotIdField: string, year: Option<int>,
                               loaded: Result<Config, ConfigError>, currentYear: int): Result<PlotSettings, int>
  {
    match loaded
    case Failure(_) => Failure(1)
    case Success(c) =>
      if url == "" then Failure(1)
      else
        var t := Or(StrArg(trialId), OrNull(c.trialId));
        var p := Or(StrArg(plotIdField), OrNull(c.plotIdField));
        var y := Or(Or(YearArg(year), OrNull(c.year)), JNum(currentYear as real));
        if !Truthy(t) || !Truthy(p) then Failure(1)
        else Success(PlotSettings(JStr(url), t, p, y))
  }

  /** The command goes on exactly when the configuration loads, a URL is given and both
      the trial id and the plot id field are non-empty on the command line or in the
      configuration; a command-line value overrides the configuration's, and the year
      is the option, else the configuration's, else the current year. */
  lemma CreatePlotsSettingsSpec(url: string, trialId: string, plotIdField: string, year: Option<int>,
                                loaded: Result<Config, ConfigError>, currentYear: int)
    ensures var r := CreatePlotsSettings(url, trialId, plotIdField, year, loaded, currentYear);
      && (r.Failure? ==> r.error == 1)
      && (r.Success? <==>
            loaded.Success? && url != ""
            && (trialId != "" || Truthy(OrNull(loaded.value.trialId)))
            && (plotIdField != "" || Truthy(OrNull(loaded.value.plotIdField))))
      && (r.Success? ==>
            && r.value.url == JStr(url)
            && r.value.trialId == (if trialId != "" then JStr(trialId) else loaded.value.trialId.value)
            && r.value.plotIdField == (if plotIdField != "" then JStr(plotIdField) else loaded.value.plotIdField.value)
            && r.value.year == (if year.Some? && year.value != 0 then JNum(year.value as real)
                                else if Truthy(OrNull(loaded.value.year)) then loaded.value.year.value
                                else JNum(currentYear as real)))
  {
  }

  // ---------------------------------------------------------------------------
  // process-images

  /** `[s.strip() for s in option.split(',')]` */
  function Requested(option: string): (names: seq<string>)
    ensures |names| >= 1
  {
    ImageProcessor.MapSeq(Split(option, ','), s => Strip(s))
  }

  /** The pieces of a comma-separated option are its comma-free parts, each stripped. */
  lemma RequestedSpec(option: string)
    ensures var parts := Split(option, ',');
      && |Requested(option)| == |parts|
      && (forall k :: 0 <= k < |parts| ==> Requested(option)[k] == Strip(parts[k]) && ',' !in parts[k])
      && Join(parts, ',') == option
  {
    SplitJoin(option, ',');
    SplitNoSep(option, ',');
  }

  /** The configured indices whose `process` is one of the requested names. */
  function KeepIndices(vis: seq<VegetationIndex>, requested: seq<string>): seq<VegetationIndex>
  {
    Filter(vis, (vi: VegetationIndex) => vi.process in requested)
  }

  /** A raster image is selected when its path contains one of the requested strings. */
  predicate Matches(img: RasterImage, requested: seq<string>)
  {
    exists k :: 0 <= k < |requested| && Contains(img.path, requested[k])
  }

  /** The configured images selected by `Matches`. */
  function KeepImages(imgs: seq<RasterImage>, requested: seq<string>): seq<RasterImage>
  {
    Filter(imgs, (img: RasterImage) => Matches(img, requested))
  }

  /** The index filter keeps exactly the configured indices whose process is requested,
      in configuration order, and keeps them all when all are requested. */
  lemma KeepIndicesSpec(vis: seq<VegetationIndex>, more: seq<VegetationIndex>, requested: seq<string>)
    ensures forall vi :: vi in KeepIndices(vis, requested) <==> vi in vis && vi.process in requested
    ensures KeepIndices(vis + more, requested) == KeepIndices(vis, requested) + KeepIndices(more, requested)
    ensures (forall k :: 0 <= k < |vis| ==> vis[k].process in requested) ==> KeepIndices(vis, requested) == vis
  {
    var keep := (vi: VegetationIndex) => vi.process in requested;
    FilterMembers(vis, keep);
    FilterAppend(vis, more, keep);
    if forall k :: 0 <= k < |vis| ==> vis[k].process in requested {
      FilterAll(vis, keep);
    }
  }

  /** The image filter keeps exactly the configured images whose path contains a
      requested string, in configuration order. */
  lemma KeepImagesSpec(imgs: seq<RasterImage>, more: seq<RasterImage>, requested: seq<string>)
    ensures forall img :: img in KeepImages(imgs, requested) <==> img in imgs && Matches(img, requested)
    ensures KeepImages(imgs + more, requested) == KeepImages(imgs, requested) + KeepImages(more, requested)
    ensures (forall k :: 0 <= k < |imgs| ==> Matches(imgs[k], requested)) ==> KeepImages(imgs, requested) == imgs
  {
    var keep := (img: RasterImage) => Matches(img, requested);
    FilterMembers(imgs, keep);
    FilterAppend(imgs, more, keep);
    if forall k :: 0 <= k < |imgs| ==> Matches(imgs[k], requested) {
      FilterAll(imgs, keep);
    }
  }

  /** The number of (image, index) processes a plan runs. */
  function Total(images: nat, indices: nat): nat
  {
    images * indices
  }

  /** What a dry run of `process_images` shows. */
  datatype Plan = Plan(trialId: Json, images: seq<RasterImage>, indices: seq<VegetationIndex>, total: nat)

  /** The trial id after the `--trial-id` override. */
  function EffectiveTrial(c: Config, trialId: string): Json
  {
    if trialId != "" then JStr(trialId) else OrNull(c.trialId)
  }

  /** The indices left by `--indices` (all of them when the option is not given). */
  function SelectedIndices(c: Config, indices: string): seq<VegetationIndex>
  {
    if indices != "" then KeepIndices(c.vegetationIndices, Requested(indices)) else c.vegetationIndices
  }

  /** The images left by `--images` (all of them when the option is not given). */
  function SelectedImages(c: Config, images: string): seq<RasterImage>
  {
    if images != "" then KeepImages(c.rasterImages, Requested(images)) else c.rasterImages
  }

  /** `process_images` after the configuration file has been loaded (`loaded`).
      `--trial-id`, `--indices` and `--images` narrow the loaded configuration in turn,
      each exiting with 1 when nothing is left; a dry run then reports its plan. A real
      run asks for confirmation (`proceed`): refusing raises `typer.Exit(0)` inside the
      `try`, whose `except Exception` turns it into exit 1, and going on reads the
      missing `config.pygeoapi_url` attribute, which exits with 1 as well. */
  method ProcessImagesCommand(loaded: Result<Config, ConfigError>, trialId: string, indices: string,
                              images: string, dryRun: bool, proceed: bool) returns (r: Result<Plan, int>)
    ensures loaded.Failure? ==> r == Failure(1)
    ensures loaded.Success? ==>
      var t := EffectiveTrial(loaded.value, trialId);
      var vis := SelectedIndices(loaded.value, indices);
      var imgs := SelectedImages(loaded.value, images);
      if !Truthy(t) || (indices != "" && vis == []) || (images != "" && imgs == []) then r == Failure(1)
      else if dryRun then r == Success(Plan(t, imgs, vis, Total(|imgs|, |vis|)))
      else r == Failure(1)
  {
    if loaded.Failure? {
      return Failure(1);
    }
    var config := loaded.value;
    if trialId != "" {
      config := config.(trialId := Some(JStr(trialId)));
    }
    if !Truthy(OrNull(config.trialId)) {
      return Failure(1);
    }
    if indices != "" {
      var filtered := KeepIndices(config.vegetationIndices, Requested(indices));
      if filtered == [] {
        return Failure(1);
      }
      config := config.(vegetationIndices := filtered);
    }
    if images != "" {
      var filtered := KeepImages(config.rasterImages, Requested(images));
      if filtered == [] {
        return Failure(1);
      }
      config := config.(rasterImages := filtered);
    }
    var total := Total(|config.rasterImages|, |config.vegetationIndices|);
    if dryRun {
      return Success(Plan(OrNull(config.trialId), config.rasterImages, config.vegetationIndices, total));
    }
    if !proceed {
      // typer.Exit(0) is a RuntimeError, caught by the enclosing `except Exception`
      return Failure(1);
    }
    return Failure(1);
  }
}
