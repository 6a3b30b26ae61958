# raster2sensor in Dafny

This project models the bookkeeping core of raster2sensor in Dafny. raster2sensor is a
pipeline that does four things:
- it clips UAV raster images to the plots of a field trial;
- it has vegetation indices (NDVI and others) computed by OGC API Processes;
- it reduces each index raster to per-plot zonal statistics;
- it records those statistics in an OGC SensorThings API server as Observations of per-plot
  Datastreams.

The plots themselves are created there as Things beforehand.

The model covers the parts of that work that are sequential logic around the remote and raster
calls:

- **Observations** (`observations.dfy`, raster2sensor/plots.py `create_observations`). The
  argument checks run first. Then each zonal-statistics feature is matched to its Thing, and to
  the first Datastream whose `raster_data` tag equals the index name, ignoring case. Skipped
  features and unmatched ids are recorded. The observations go out in one OData JSON batch
  (section 19 of OData JSON Format 4.01) with ids `0..M-1`.
- **Things and Datastreams** (`plots.dfy`). This covers one Thing per plot feature with its
  Location and instantiated Datastream templates, and one Datastream-append request per
  (Thing, template) pair with ids from 1. It also covers the plot FeatureCollection built from
  fetched Things. `sensorthings.dfy` holds the entity records and the batch numbering they
  share.
- **The older variant** (`legacy_plots.dfy`, uavstats/plots.py). It is laxer: any failed lookup
  raises, and nothing is caught.
- **Zonal statistics and NDVI** (`processes.dfy`, uavstats/processes.py). For each zone, one
  mask buffer is refilled, the zone is burnt into it, and the statistics of the selected pixels
  are computed. The NDVI band maths has its nodata rule.
- **Paths and pagination** (`utils.dfy`, uavstats/utils.py and the identical helpers of
  rasterstats/utils.py). This covers POSIX `splitext`/`basename`, directory filtering, and
  following `@iot.nextLink` pages.
- **Orchestration** (`image_processor.dfy`, raster2sensor/image_processor.py). The run produces
  one result per (image, index) pair, image-major. It records which failure happened where,
  and how the results are summarised.
- **Configuration** (`config_parser.dfy`, raster2sensor/config_parser.py). The loader dispatches
  on the file suffix, maps the parsed document to the `Config` record, and turns `datastreams`
  entries into Datastream templates.
- **Clipping** (`spatial_tools.dfy`, uavstats/spatial_tools.py). An extent is buffered from
  metres to degrees. The clip decides whether to reproject and which window to use.
- **Zone windows** (`zonalstats.dfy`, the draft uavstats/zonalstats.py). This covers the
  bounding box of a zone's exterior rings and the raster read window.
- **Command line** (`cli.dfy`, raster2sensor/cli.py). This covers the option checks, override
  precedence and list filters of the commands.

Several things outside the model are parameters instead:
- HTTP requests, GDAL/OGR and the file system. An HTTP call is an `Option` or `Result`
  oracle, or a page function `url -> Option<Page>`. GDAL steps such as rasterisation, warp and
  translate are functions passed in. File existence and parsed documents are plain inputs.
- The cosine of the mid-latitude, which is an uninterpreted function.
- The current year.

Pixels and coordinates are reals. Python's truthiness, `dict.get`, `int()` truncation toward
zero and `str.lower` (restricted to ASCII) are written out. Where a Python call is wrapped in
`try`, the exception becomes an error variant of a `Result`.

Where a specification of the system and the code differ, the model follows the code:
- NDVI maps `+inf` and NaN to −999. A negative numerator over a zero denominator gives `-inf`,
  which `nan_to_num` turns into the lowest float64, not −999. The model keeps that third case
  (`Processes.NdviPixelSpec`).
- When several Datastreams match, the first is used; the feature is not rejected.
- The draft `zonal_stats` ignores its `feat` argument, so every FID gets the first feature's
  window.

## Model

| member | source | states |
|---|---|---|
| Observations.Precheck | raster2sensor/plots.py:257-291 | A ValueError is raised before any fetch exactly when: the argument is not a dict; the flight timestamp is empty; `result_time` is falsy; `value` is falsy or not a dict; `features` is falsy; or `raster_data` is falsy or not a string. Otherwise the result time and features pass through, with `raster_data` lower-cased |
| Observations.PrecheckCaseInsensitive | raster2sensor/plots.py:285-291 | Two arguments whose `raster_data` differ only in case pass the checks alike and give the same lower-cased tag |
| Observations.FindThing | raster2sensor/plots.py:328-333 | The Thing found is the first fetched Thing carrying the feature's `iot_id`; none is found exactly when no fetched Thing has that id |
| Observations.Matching | raster2sensor/plots.py:335-340 | A Datastream is kept exactly when its readable `raster_data` tag, lower-cased, equals the index name; the first kept is the earliest such Datastream |
| Observations.MatchingAppend | raster2sensor/plots.py:335-340 | Matching distributes over concatenation of Datastream lists, so the kept Datastreams stay in their original order |
| Observations.ReadStats | raster2sensor/plots.py:349-367 | The statistics are read exactly when all five (mean, min, max, stddev, median) are present, and the result copies them |
| Observations.JudgeEmit | raster2sensor/plots.py:312-370 | A feature yields an Observation exactly when all of these hold: it has properties with an `iot_id`; a Thing has that id; the first such Thing has a Datastream that matches; all five statistics are present; the first matching Datastream has an `@iot.id`. The Observation then holds the copied statistics, that Datastream's id and the call's two timestamps |
| Observations.EmittedSpec | raster2sensor/plots.py:358-370 | Each Observation carries `phenomenonTime = flight_timestamp` and `resultTime = result_time`. An Observation is produced exactly when some feature is judged to emit it |
| Observations.UnmatchedSpec | raster2sensor/plots.py:342-346 | An unmatched id is recorded at most once, and exactly when some feature's Thing has no matching Datastream |
| Observations.JudgeFeature | raster2sensor/plots.py:313-374 | One pass of the feature loop yields an Observation exactly when the feature's verdict is to emit one, and reports the id as unmatched exactly when the Thing has no tagged Datastream |
| Observations.JudgeFeatures | raster2sensor/plots.py:306-374 | The feature loop produces exactly the Observations of the features judged to emit one, and the unmatched ids, each once, in order of first appearance |
| Observations.CreateObservations | raster2sensor/plots.py:245-406 | Argument errors come before any fetch; an empty or failed fetch is a RuntimeError with nothing posted; features that are not a list are a ValueError; with no observations nothing is posted and the call returns normally; otherwise exactly the batch `PostBatch(observations, "Observations", 0)` is posted and a rejected post is re-raised |
| Plots.InstantiateAll | raster2sensor/plots.py:104-116 | One Datastream per template, in template order, each with the `{plot_id}` placeholder replaced by `trial_id-plot_id` |
| Plots.PlotThingSpec | raster2sensor/plots.py:64-103 | A plot Thing has these parts: the feature's plot id; the trial id and year; a `treatment_id` key exactly when the treatment field is configured and its value is non-empty; one Location holding the feature's geometry; one Datastream per template |
| Plots.ThingsBatchAt | raster2sensor/plots.py:118-121 | The Things batch has one `post` to `Things` per feature, and the k-th request has id k and carries the k-th feature's Thing |
| Plots.CreateSensorThingsThings | raster2sensor/plots.py:53-123 | A KeyError is raised exactly when some feature lacks the plot id field; otherwise the batch posted is the Things batch of all features, ids from 0 |
| Plots.Target | raster2sensor/plots.py:193-203 | A fetched Thing can be linked exactly when it has `@iot.id`, `trial_id` and `plot_id`; its placeholder value is `trial_id-plot_id` |
| Plots.AppendsSpec | raster2sensor/plots.py:189-212 | With every Thing linkable, there is exactly one append per (Thing, template) pair, Thing-major, and the pair (i, j) sits at position i·\|templates\| + j |
| Plots.AddDatastreams | raster2sensor/plots.py:176-237 | A Thing lacking a field used by the appends raises before anything is posted. Otherwise exactly one batch `PostBatch(appends, "Datastreams", 1)` is posted, with ids contiguous from 1, and a rejected post is re-raised. With no templates an empty batch is posted |
| Plots.GeoFeatures | raster2sensor/plots.py:150-165 | The features are built exactly when every plot has a Location geometry; one Feature per plot, in fetched order |
| Plots.FetchPlotsGeoJsonSpec | raster2sensor/plots.py:143-165 | No plots raises ValueError; otherwise there is one Feature per plot in fetched order, with `iot_id`, `name` and the first Location's geometry copied |
| LegacyPlots.LegacyThingSpec | uavstats/plots.py:60-109 | The older plot Thing, as the code means to build it, always carries `treatment_id`, possibly empty; its name is `Plot - <plot_id>`; its description carries the treatment suffix exactly when the treatment id is non-empty; its Location has no `properties` field and holds the feature geometry; it nests one Datastream per template |
| LegacyPlots.LegacyThingsBatchAt | uavstats/plots.py:112-113 | The older Things batch has one `post` per feature, with id k for the k-th feature |
| LegacyPlots.CreateSensorThingsThings | uavstats/plots.py:52-116 | As written, with a template and a feature, the first feature raises: KeyError when it lacks the plot id field, else TypeError from the nested `Datastream(..., properties=...)`. With no template, a KeyError is raised exactly when some feature lacks the plot id field, and otherwise the Things batch with ids from 0 is posted |
| LegacyPlots.CreateSensorThingsThingsIntended | uavstats/plots.py:52-116 | As evidently intended: a KeyError is raised exactly when some feature lacks the plot id field; otherwise the Things batch with ids from 0 is posted, each Thing carrying its instantiated Datastreams |
| LegacyPlots.FetchPlotsGeoJson | uavstats/plots.py:119-148 | There is no empty-result check (no plots gives no features); one Feature per plot in fetched order, with id, name and geometry copied |
| LegacyPlots.LegacyTarget | uavstats/plots.py:168-179 | An older Thing can be linked exactly when it has `@iot.id` and `plot_id`; the placeholder value is the plot id alone |
| LegacyPlots.AddDatastreams | uavstats/plots.py:150-205 | As written, with a fetched Thing and a template, the first pair raises and nothing is posted: KeyError when the first Thing lacks `plot_id` or `@iot.id`, else TypeError from `DatastreamAppend(..., properties=...)`. Otherwise the empty batch is posted, and success is reported exactly when the status is 200 |
| LegacyPlots.AddDatastreamsIntended | uavstats/plots.py:150-205 | As evidently intended: one append per (Thing, template) pair, ids from 1. A Thing lacking a used field raises before posting. The call reports success exactly when the status is 200 and otherwise just returns |
| SensorThings.FirstWhere | uavstats/plots.py:235-239 | The result is the element at the first position satisfying the test; there is none exactly when no element satisfies it |
| LegacyPlots.TagMatches | uavstats/plots.py:238-241 | A Datastream is kept exactly when its tag, lower-cased, equals the lower-cased index name; the first kept is the earliest such Datastream |
| LegacyPlots.LegacyJudgeCases | uavstats/plots.py:233-256 | Once the feature's `iot_id` and every Thing's `@iot.id` are readable, the verdict is decided by the first Thing with that id and its first tagged Datastream |
| LegacyPlots.LegacyJudgeRaises | uavstats/plots.py:233-256 | A feature raises exactly when one of these lookups fails: its `properties`/`iot_id`; some Thing's `@iot.id`; the first matching Thing's `Datastreams` or a Datastream's tag; or, once a tagged Datastream is found, a statistic or that Datastream's `@iot.id` |
| LegacyPlots.LegacyJudgeSkips | uavstats/plots.py:233-243 | A feature is skipped exactly when its lookups succeed and either no Thing has its `iot_id` or the first such Thing has no tagged Datastream |
| LegacyPlots.LegacyJudgeSpec | uavstats/plots.py:233-256 | A feature yields Observation o exactly when its lookups succeed, the first Thing with its `iot_id` has a tagged Datastream, all five statistics are present and the first tagged Datastream has an `@iot.id`. o then holds the call's timestamps, the statistics and that Datastream's id |
| LegacyPlots.CollectOutcome | uavstats/plots.py:233-256 | The loop finishes exactly when no feature raises; otherwise it fails with the lookup error |
| LegacyPlots.CollectEmitted | uavstats/plots.py:233-256 | When the loop finishes, an Observation is collected exactly when some feature is judged to emit it |
| LegacyPlots.CollectTimestamps | uavstats/plots.py:246-248 | Every collected Observation carries the flight timestamp and the `result_time` given |
| LegacyPlots.CreateObservations | uavstats/plots.py:208-266 | A missing `value` or `raster_data` is a ValueError before any fetch, and a failed fetch exits. When no observation is made nothing is posted. Otherwise the batch `PostBatch(observations, "Observations", 0)` is posted |
| SensorThings.PostBatchSpec | raster2sensor/plots.py:392-393 | Request k of a batch is a `post` to the given URL with id `start + k` carrying body k, and unwrapping the batch gives the bodies back |
| SensorThings.PostBatchIds | raster2sensor/plots.py:392-393 | Batch ids are pairwise distinct and are exactly `start .. start + n - 1` |
| SensorThings.PostBatchSnoc | raster2sensor/plots.py:206-212 | Appending a body appends a request whose id is `start` plus the number of earlier requests (the `len(post_datastreams) + 1` numbering) |
| Processes.MinMaxSpec | uavstats/processes.py:127-128 | The minimum and maximum of a non-empty selection are values in it and bound every value |
| Processes.MeanBounds | uavstats/processes.py:126-129 | The mean of a non-empty selection lies between its minimum and maximum, and mean × count equals the sum |
| Processes.SelectionSpec | uavstats/processes.py:115-118 | The selection has one value per mask cell equal to 1: the value of every pixel whose mask is 1 is selected, and every selected value is the value of such a pixel |
| Processes.SelectionAppend | uavstats/processes.py:115-118 | Selecting from two rasters laid end to end is selecting from each in turn, so the selection keeps raster order |
| Processes.SummarizeSpec | uavstats/processes.py:122-131 | FID, name and iot_id are copied. count is the selection size. mean is None exactly when count is 0, and then min, max and sum are None too. Otherwise min ≤ mean ≤ max, sum = mean·count, and min and max occur in the selection |
| Processes.ZoneResultSpec | uavstats/processes.py:105-138 | A zone's feature keeps its geometry, and its count is the number of covered pixels. Its min and max are values of covered pixels, so they depend on that zone's coverage alone |
| Processes.Fill | uavstats/processes.py:108 | Every mask cell is set to the fill value |
| Processes.Burn | uavstats/processes.py:111-112 | Covered cells become 1 and the others keep their value |
| Processes.SelectPixels | uavstats/processes.py:115-118 | The pixels returned are exactly the selection of the raster under the current mask |
| Processes.ZonalStatistics | uavstats/processes.py:72-142 | One output feature per zone, in zone order. Because the mask is refilled for each zone, feature f is the result for zone f's coverage alone |
| Processes.NdviPixelSpec | uavstats/processes.py:168-171 | NDVI is (nir−red)/(nir+red) where the denominator is non-zero. Where it is zero: −999 when nir−red ≥ 0, otherwise the lowest float64 |
| Processes.NdviRange | uavstats/processes.py:169 | For non-negative bands with a non-zero sum, NDVI is in [−1, 1] and is never the nodata value |
| Processes.CalculateNdvi | uavstats/processes.py:145-186 | The call fails exactly when a band number is outside 1..bands. Otherwise the output keeps the input's size, geotransform and projection, has one band with nodata −999, and pixel k is the NDVI of nir[k] and red[k] |
| Utils.Basename | uavstats/utils.py:28-29 | The basename has no '/' and is a suffix of the path |
| Utils.BasenameSpec | uavstats/utils.py:28-29 | The basename is the suffix of the path that starts at its beginning or right after a '/', and holds no '/': everything after the last '/' |
| Utils.SplitExtSpec | uavstats/utils.py:32-33 | root + extension is the path. The extension is non-empty exactly when the basename has a '.' preceded by a non-dot character, and then it is a '.' followed by neither '.' nor '/', so it starts at the path's last '.' |
| Utils.SplitExtDotted | uavstats/utils.py:32-33 | `splitext`'s test on the whole path (last '.' after the last '/', with a non-dot between them) holds exactly when the basename has a '.' preceded by a non-dot character |
| Utils.FileExtension | uavstats/utils.py:32-33 | The extension ends the path; it is non-empty exactly when the basename has a '.' preceded by a non-dot character, and then it is a '.' followed by neither '.' nor '/' |
| Utils.FileName | uavstats/utils.py:28-29 | The file name has no '/' and, followed by the basename's extension, gives back the basename; it is the whole basename exactly when the basename has no '.' after a non-dot character. `rasterstats/utils.py` lines 26-27 hold the same helper |
| Utils.KeptSpec | uavstats/utils.py:36-42 | A path is returned exactly when it is `input_dir` joined with a listed entry ending in one of the extensions; an empty extension list keeps nothing; `get_files` of rasterstats/utils.py lines 30-36 is the same code |
| Utils.KeptAppend | uavstats/utils.py:38-41 | Filtering distributes over concatenation of listings, so listing order is kept |
| Utils.GetFiles | uavstats/utils.py:36-42 | The loop returns the filtered, joined listing |
| Utils.FollowChained | uavstats/utils.py:75-76 | Each requested URL after the first is the `@iot.nextLink` of the page before it |
| Utils.FollowValues | uavstats/utils.py:72-79 | On success the entities are the pages' `value` lists concatenated in request order, and the last page's `@iot.nextLink` is empty |
| Utils.FollowFailure | uavstats/utils.py:53-59 | A failure comes from the last requested page: a failed request, or a page without `value`; no partial list is returned |
| Utils.FollowStep | uavstats/utils.py:72-77 | One step of the chain: a failed first request or missing `value` ends the run there; otherwise the first page's values are followed by those of its `@iot.nextLink` chain |
| Utils.FetchSensorThingsApi | uavstats/utils.py:62-79 | The while loop returns the entities and the requests of the whole page chain from the given URL |
| ImageProcessor.ServerUrl | raster2sensor/image_processor.py:40-49 | The argument is used when non-empty, else the configured URL; both being empty is the ValueError |
| ImageProcessor.ProcessSingleIndexSpec | raster2sensor/image_processor.py:131-217 | The result carries the image path, timestamp and process, and succeeds exactly when it has no message. An index process returning None gives `Error executing process: <process>` with no zonal request. Success needs four steps: the index output has `value` and `id`, zonal stats return, and creating observations does not raise |
| ImageProcessor.ImageRowAt | raster2sensor/image_processor.py:83-127 | Result j of an image is one of three things. A missing path gives a failure with the shared message. A load/clip/encode error gives a failure with the shared message. Otherwise it is the single-index result for index j |
| ImageProcessor.AllResultsSpec | raster2sensor/image_processor.py:83-129 | A run yields \|images\|·\|indices\| results, image-major: pair (i, j) sits at i·\|indices\| + j |
| ImageProcessor.ProcessImage | raster2sensor/image_processor.py:84-127 | The inner loop produces the image's row of results |
| ImageProcessor.ProcessImages | raster2sensor/image_processor.py:55-129 | A failed plots fetch ends the run with no results; otherwise the results are all rows laid end to end |
| ImageProcessor.ProcessFromConfig | raster2sensor/image_processor.py:219-236 | A falsy `trial_id` is a ValueError; otherwise the run uses the configured images and indices |
| ImageProcessor.CountsSpec | raster2sensor/image_processor.py:246-248 | successful + failed = total; the failures listed are exactly the failed results |
| ImageProcessor.SummarizeSpec | raster2sensor/image_processor.py:238-266 | "All completed" is reported exactly when every result succeeded, and "all failed" exactly when there are results and none succeeded |
| ConfigParser.Suffix | raster2sensor/config_parser.py:71 | `Path.suffix` is empty or a '.' followed by at least one character |
| ConfigParser.SuffixSpec | raster2sensor/config_parser.py:71 | `Path.suffix` is non-empty exactly when the final component's last '.' is neither its first nor its last character, and it is then the component from that '.' on |
| ConfigParser.Lookup | raster2sensor/config_parser.py:113-115 | `.get` gives a value exactly when the key is present and not null |
| ConfigParser.Section | raster2sensor/config_parser.py:91-107 | An absent section is the empty list, a list section is used as is, and anything else fails |
| ConfigParser.ToRasterImage | raster2sensor/config_parser.py:18-23 | A raster image is built exactly from an object with string `path` and `timestamp` and no other key than the optional `description`; it copies both strings and takes `description` as `.get` reads it |
| ConfigParser.ToVegetationIndex | raster2sensor/config_parser.py:26-32 | A vegetation index is built exactly from an object with string `name` and `process`, an object `bands` and no other key than the optional `description`; it copies all four |
| ConfigParser.ParsedSpec | raster2sensor/config_parser.py:97-107 | A section parses exactly when every entry does, giving one record per entry in order; otherwise the first bad entry is reported |
| ConfigParser.ParseEntries | raster2sensor/config_parser.py:99-101 | The append loop computes the parsed section |
| ConfigParser.ConfigOfAccepts | raster2sensor/config_parser.py:91-107 | A document whose sections are absent or lists of well-formed entries parses, with one record per image and index entry |
| ConfigParser.ConfigOfSpec | raster2sensor/config_parser.py:87-116 | Absent sections become empty lists and present ones keep their length; datastreams are copied; `trial_id`, `plot_id_field` and `year` are None exactly when absent or null |
| ConfigParser.ParseConfig | raster2sensor/config_parser.py:87-116 | A document that is not a mapping fails; otherwise the config is its mapping |
| ConfigParser.LoadedSpec | raster2sensor/config_parser.py:64-84 | A missing file is FileNotFound before reading. The lower-cased suffix `.yml`/`.yaml` reads YAML and `.json` reads JSON; a syntax error is the matching ValueError. Any other suffix is unsupported |
| ConfigParser.ConfigOfNotSyntax | raster2sensor/config_parser.py:72-84 | Parsing a mapping never reports a syntax error |
| ConfigParser.LoadConfig | raster2sensor/config_parser.py:50-84 | The loader computes the suffix dispatch |
| ConfigParser.DatastreamOfSpec | raster2sensor/config_parser.py:343-360 | A template copies its fields. Missing strings default to '' and missing objects to {}, and the template has no Thing link |
| ConfigParser.DatastreamOfAccepts | raster2sensor/config_parser.py:343-360 | A template is built exactly when the entry is an object, its `unitOfMeasurement` is absent or an object, and its string fields and its unit's are absent or strings |
| ConfigParser.DatastreamsAccepted | raster2sensor/config_parser.py:341-362 | Well-formed entries load as one template each, in order |
| ConfigParser.LoadDatastreamsFromConfig | raster2sensor/config_parser.py:329-364 | A load error passes through; otherwise there is one template per `datastreams` entry, in order |
| SpatialTools.ApplyBufferSpec | uavstats/spatial_tools.py:21-45 | y moves out by d/111320 and x by d/(111320·cos(mid-latitude)). The centre is kept, d = 0 changes nothing, and d ≥ 0 with a positive cosine contains the original. A zero cosine is a division error |
| SpatialTools.ClipRaster | uavstats/spatial_tools.py:48-89 | The raster is warped exactly when the layer has a spatial reference differing from the raster's projection. The window is `[xmin, ymax, xmax, ymin]` of the extent buffered by 2 m |
| ZonalStats.Exteriors | uavstats/zonalstats.py:118-126 | The exterior rings of a multipolygon are collected exactly when every member has one |
| ZonalStats.ExteriorsSnoc | uavstats/zonalstats.py:118-126 | Each member polygon appends its exterior ring, in order |
| ZonalStats.AppendRing | uavstats/zonalstats.py:122-125 | The x and y lists grow by the ring's coordinates in point order |
| ZonalStats.CollectPoints | uavstats/zonalstats.py:113-140 | The x and y lists come from the exterior ring(s) of a polygon or multipolygon; another geometry is the ProcessorExecuteError |
| ZonalStats.Trunc | uavstats/zonalstats.py:148-151 | `int()` truncates toward zero |
| ZonalStats.ExtentOfSpec | uavstats/zonalstats.py:142-145 | The extent bounds every point and each bound is attained |
| ZonalStats.WindowOfSpec | uavstats/zonalstats.py:148-151 | Both counts are at least 1 and cover the span at the pixel width (used for y as well) |
| ZonalStats.ZoneWindowIgnoresFeat | uavstats/zonalstats.py:93-108 | The window does not depend on the `feat` argument; it is the first feature's |
| ZonalStats.LoopZonalStats | uavstats/zonalstats.py:186-199 | The keys are exactly the FIDs 0..count−1, each with the window `zonal_stats` computes; the loop fails exactly when that computation fails |
| ZonalStats.LoopZonalStatsSame | uavstats/zonalstats.py:192-199 | Every FID gets the same entry |
| Cli.FetchPlotsTargetSpec | raster2sensor/cli.py:121-151 | `--config` with either individual option exits 1, and no `--config` without both options exits 1. The options are accepted exactly when both individual options are given without `--config` |
| Cli.FetchPlotsConfigAlwaysExits | raster2sensor/cli.py:131-137 | As written, `--config` alone always exits 1 |
| Cli.FetchPlotsTargetIntendedSpec | raster2sensor/cli.py:131-145 | With the config carrying the URL, the mutual exclusion is kept and `--config` alone takes both values from the loaded file |
| Cli.ProcessesUrlSpec | raster2sensor/cli.py:341-367 | Both or neither of `--config` and `--pygeoapi-url` exits 1; the URL alone is used as given |
| Cli.ProcessesUrlIntendedSpec | raster2sensor/cli.py:351-367 | With the config carrying the URL, a loaded non-empty URL is used and an empty one exits 1 |
| Cli.Or | raster2sensor/cli.py:206-209 | Python `a or b` is truthy exactly when either operand is |
| Cli.CreatePlotsSettingsSpec | raster2sensor/cli.py:200-222 | Each value is the CLI value when given, else the config's, and the year falls back to the current year. The command goes on exactly when the config loads, a URL is given, and the effective trial id and plot id field are non-empty; otherwise it exits 1 |
| Cli.RequestedSpec | raster2sensor/cli.py:604 | A comma-separated option gives its comma-free parts, each stripped |
| Cli.KeepIndicesSpec | raster2sensor/cli.py:603-613 | The index filter keeps exactly the configured indices whose process is requested, in config order, and keeps all of them when all are requested |
| Cli.KeepImagesSpec | raster2sensor/cli.py:618-628 | The image filter keeps exactly the configured images whose path contains a requested string, in config order |
| Cli.ProcessImagesCommand | raster2sensor/cli.py:586-695 | A `--trial-id` override replaces the trial id, and an empty one exits 1. Each filter that leaves nothing exits 1. A dry run returns the plan with total \|images\|·\|indices\| before any processor. A real run exits 1 either way: a declined prompt's `typer.Exit(0)` is caught by `except Exception` (cli.py:693-695), and a confirmed one fails on the missing `pygeoapi_url` |

## Left out

- HTTP and the OGC API Processes client are oracles, with no retries or status codes beyond what the code branches on. GDAL/OGR/geopandas reading, rasterising, warping, translating and base64 GTiff encoding are left out as well.
- Logging, `rich` output and `clear`/`timeit` are left out, and so are the DEBUG GeoJSON dump (raster2sensor/plots.py:171-173) and the unconditional dump of uavstats/plots.py:145-147.
- IEEE-754 detail is out of scope: the Float32 output band of NDVI, numpy rounding, and float64 constants beyond their decimal values. Reals stand for floats.
- Processes.ZonalStatistics: the per-zone rasterisation is an input coverage grid, and the layer's attribute filter is not modelled.
- ZonalStats.LoopZonalStats: the draft computes only the read window; the masked numpy statistics (uavstats/zonalstats.py:173-183) and the `breakpoint()` at line 172 are not modelled.
- ConfigParser.ToRasterImage: the dataclass accepts any JSON value; the model accepts strings, and any other type is the BadEntry error.
- ConfigParser.ToVegetationIndex: the dataclass accepts any JSON value; the model accepts strings (and an object for `bands`), and any other type is the BadEntry error.
- ConfigParser.DatastreamOfSpec: only string values of `name`, `description`, `observationType` and the `unitOfMeasurement` fields are modelled. A value of another type, or null, is refused as BadEntry, where `.get` would copy it into the Datastream.
- ConfigParser.LoadDatastreamsFromConfig: an entry with such a non-string field fails the whole load with BadEntry, where the code returns a template holding the value.
- ConfigParser.Section: iterating a string or a mapping section is refused as NotAList rather than iterated.
- ConfigParser.Suffix: pathlib's normalisation of trailing slashes and `.` components is not modelled.
- `create_sample_config` (raster2sensor/config_parser.py:119-326) writes a file. The legacy aliases at lines 369-386 only forward to the modelled members.
- Utils.FetchSensorThingsApi: it requires the `@iot.nextLink` chain to end; an endless chain of pages is not modelled.
- The `sys.exit(1)` inside `fetch_data` is a failed-request error value.
- LegacyPlots.CreateSensorThingsThingsIntended: the templates are a parameter of Datastream records. The default `DATASTREAMS` of uavstats/config.py:37-42 is a list of dicts of `string.Template`, on which the attribute reads `ds.name` and `ds.properties` would raise AttributeError. The as-written member fails on every non-empty template list either way.
- `create_sensorthingsapi_thing`/`create_sensorthingsapi_entity` are HTTP calls, and the post result of the Things batch is not modelled.
- Cli.ProcessImagesCommand: the `ImageProcessor(...)` call and `process()`/`log_results_summary` have signatures that do not exist in raster2sensor/image_processor.py. They are never reached, because reading `config.pygeoapi_url` fails first.
- Cli.CreatePlotsSettingsSpec: it states which settings pass the checks, not the command's end. After the checks the command calls `Plots(sensorthingsapi_url=..., datastreams=...)`, keywords the `Plots` dataclass of raster2sensor/plots.py:24-37 does not declare. The TypeError is caught and exits 1, so `plots create` exits 1 on every route as written. `Plots.CreateSensorThingsThings` models the library call as if it were reached.
- Cli.FetchPlotsTargetSpec: it states which options are accepted, not the command's end. The accepted values go to `Plots.fetch_plots_geojson(url, trial_id)` (raster2sensor/cli.py:150-151), a two-argument call to the one-parameter static method of raster2sensor/plots.py:133. The TypeError is caught and exits 1, so `plots fetch` exits 1 on every route as written, the corrected configuration route included.
- The `add_datastreams` command (raster2sensor/cli.py:289-294) reads `config.sensorthingsapi_url` as `create_plots` does. Its option handling is the same and is not modelled separately.
- The `processes` commands after the URL check (listing, describing and executing processes) are remote calls and are not modelled.
- The confirm prompt of `process-images` is a boolean input.
- `Path(...).name` in messages and log text are not modelled. Observation message strings are modelled only where a result carries them.
- Text.FormatPlotId: only the `{plot_id}` field is substituted. `str.format`'s errors on other fields (KeyError, IndexError), its `{{`/`}}` escapes and format specs are not modelled.
- Text.Strip: whitespace is the ASCII set (space, tab, newline, carriage return, vertical tab, form feed). Python's `strip` also removes `\x1c`-`\x1f`, `\x85`, `\xa0` and other Unicode spaces.
- Text.Lower: only ASCII letters are folded; Python's `lower` folds every cased Unicode letter.
- ImageProcessor.ProcessSingleIndexSpec: the `create_observations` call is the `observe` oracle, an input not tied to `Observations.CreateObservations`. That member models the call separately.

## Findings

| source | as written | input that shows it | evidently intended | confidence | as-written member | corrected member |
|---|---|---|---|---|---|---|
| raster2sensor/cli.py:137 | `fetch_plots --config` reads `config.sensorthingsapi_url`, which the `Config` record of raster2sensor/config_parser.py:36-43 does not have; the AttributeError is caught and the command exits 1 (every route then also fails at the two-argument `fetch_plots_geojson` call of lines 150-151, see Left out) | `plots fetch --config trial.yml` with a valid file | the URL and trial id are taken from the configuration file, as the command's help text says | high, not executed | Cli.FetchPlotsConfigAlwaysExits | Cli.FetchPlotsTargetIntendedSpec |
| raster2sensor/cli.py:356 | the `processes` commands with `--config` read `config.pygeoapi_url`, absent from `Config`, and exit 1 | `processes fetch --config trial.yml` with a valid file | the PyGeoAPI URL is taken from the configuration file, and an empty one exits 1 | high, not executed | Cli.ProcessesUrlSpec | Cli.ProcessesUrlIntendedSpec |
| uavstats/plots.py:96-107 | each template becomes `Datastream(..., properties=ds.properties)`, but the `Datastream` of uavstats/sensorthingsapi.py:22-29 declares no `properties` field, so the first feature with the plot id raises TypeError and no Thing is posted | one plot feature carrying the plot id field and one Datastream template | one Thing per plot, each nesting one Datastream per template with `{plot_id}` filled in | high, not executed | LegacyPlots.CreateSensorThingsThings | LegacyPlots.CreateSensorThingsThingsIntended |
| uavstats/plots.py:168-180 | `DatastreamAppend(..., properties=ds.properties, Thing=...)` subclasses that same `Datastream`, so the first (Thing, template) pair raises TypeError and nothing is posted | one fetched Thing with `@iot.id` and `properties.plot_id`, and one template | one append per (Thing, template) pair, posted in one batch with ids from 1 | high, not executed | LegacyPlots.AddDatastreams | LegacyPlots.AddDatastreamsIntended |
