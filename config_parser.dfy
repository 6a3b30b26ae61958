/** raster2sensor/config_parser.py: loading a YAML or JSON configuration file into the
    `Config` record, and turning its `datastreams` entries into Datastream templates.
    Whether the file exists and what the YAML or JSON reader returns are inputs. */
module ConfigParser {
  import opened Wrappers
  import opened Text
  import opened SensorThings
  import Utils

  datatype RasterImage = RasterImage(path: string, timestamp: string, description: Option<Json>)

  datatype VegetationIndex = VegetationIndex(name: string, process: string, bands: map<string, Json>, description: Option<Json>)

  /** `trial_id`, `plot_id_field` and `year` are None when the key is absent or null. */
  datatype Config = Config(
    datastreams: seq<Json>,
    rasterImages: seq<RasterImage>,
    vegetationIndices: seq<VegetationIndex>,
    trialId: Option<Json>,
    plotIdField: Option<Json>,
    year: Option<Json>)

  datatype ConfigError =
    | FileNotFound              // FileNotFoundError
    | InvalidYaml               // ValueError wrapping a YAML syntax error
    | InvalidJson               // ValueError wrapping a JSON syntax error
    | UnsupportedFormat(suffix: string)  // ValueError
    | NotAMapping               // the document is not an object: AttributeError on `.get`
    | NotAList(key: string)     // the section is not a list
    | BadEntry(key: string, index: nat)  // TypeError from the record constructor, or `.get` on a non-object

  /** Python truthiness of a JSON value. */
  predicate Truthy(j: Json)
  {
    match j
    case JNull => false
    case JBool(b) => b
    case JNum(n) => n != 0.0
    case JStr(s) => s != ""
    case JArr(items) => items != []
    case JObj(fields) => fields != map[]
  }

  /** Position `i` of a final path component holds its last '.', which is neither its
      first nor its last character. */
  predicate InnerLastDot(name: string, i: int)
  {
    0 < i < |name| - 1 && name[i] == '.' && forall j :: i < j < |name| ==> name[j] != '.'
  }

  /** `Path(p).suffix`: from the last '.' of the final component, unless that dot is its
      first or last character. */
  function Suffix(p: string): (s: string)
    ensures s == [] || (s[0] == '.' && |s| >= 2)
  {
    var name := Utils.Basename(p);
    var i := RFind(name, '.');
    if 0 < i < |name| - 1 then name[i..] else ""
  }

  /** The suffix is non-empty exactly when the final component has a dot that is
      neither its first nor its last character and is its last dot, and it then runs
      from that dot to the end. */
  lemma SuffixSpec(p: string)
    ensures Suffix(p) != [] <==> exists i :: InnerLastDot(Utils.Basename(p), i)
    ensures forall i :: InnerLastDot(Utils.Basename(p), i) ==> Suffix(p) == Utils.Basename(p)[i..]
  {
    var name := Utils.Basename(p);
    var i := RFind(name, '.');
    forall k | InnerLastDot(name, k) ensures k == i {
      assert i >= k;
    }
    if 0 < i < |name| - 1 {
      assert InnerLastDot(name, i);
    }
  }

  /** `d.get(key)`: a null value reads as None like an absent one. */
  function Lookup(d: map<string, Json>, key: string): (r: Option<Json>)
    ensures r.Some? <==> key in d && d[key] != JNull
  {
    if key in d && d[key] != JNull then Some(d[key]) else None
  }

  /** `d.get(key, [])` iterated: absent gives no entries. */
  function Section(d: map<string, Json>, key: string): (r: Result<seq<Json>, ConfigError>)
    ensures key !in d ==> r == Success([])
    ensures key in d && d[key].JArr? ==> r == Success(d[key].items)
    ensures r.Failure? <==> key in d && !d[key].JArr?
  {
    if key !in d then Success([])
    else match d[key]
      case JArr(items) => Success(items)
      case _ => Failure(NotAList(key))
  }

  predicate IsString(d: map<string, Json>, key: string)
  {
    key in d && d[key].JStr?
  }

  /** A well-formed `raster_images` entry: an object with string `path` and `timestamp`
      and no key beyond those and `description`. */
  predicate RasterImageEntry(entry: Json)
  {
    && entry.JObj? && IsString(entry.fields, "path") && IsString(entry.fields, "timestamp")
    && forall k :: k in entry.fields ==> k in {"path", "timestamp", "description"}
  }

  /** A well-formed `vegetation_indices` entry: an object with string `name` and
      `process`, an object `bands`, and no key beyond those and `description`. */
  predicate VegetationIndexEntry(entry: Json)
  {
    && entry.JObj? && IsString(entry.fields, "name") && IsString(entry.fields, "process")
    && "bands" in entry.fields && entry.fields["bands"].JObj?
    && forall k :: k in entry.fields ==> k in {"name", "process", "bands", "description"}
  }

  /** `RasterImage(**entry)`: an object with `path` and `timestamp`, an optional
      `description` and no other key. */
  function ToRasterImage(entry: Json): (r: Option<RasterImage>)
    ensures r.Some? ==> entry.JObj? && "path" in entry.fields && "timestamp" in entry.fields
    ensures r.Some? ==> entry.fields["path"] == JStr(r.value.path) && entry.fields["timestamp"] == JStr(r.value.timestamp)
    ensures r.Some? ==> forall k :: k in entry.fields ==> k in {"path", "timestamp", "description"}
    ensures r.Some? ==> r.value.description == Lookup(entry.fields, "description")
    ensures RasterImageEntry(entry) ==> r.Some?
  {
    match entry
    case JObj(m) =>
      if (forall k :: k in m ==> k in {"path", "timestamp", "description"}) && IsString(m, "path") && IsString(m, "timestamp")
      then Some(RasterImage(m["path"].s, m["timestamp"].s, Lookup(m, "description")))
      else None
    case _ => None
  }

  /** `VegetationIndex(**entry)`: an object with `name`, `process` and `bands`, an
      optional `description` and no other key. */
  function ToVegetationIndex(entry: Json): (r: Option<VegetationIndex>)
    ensures r.Some? ==> entry.JObj? && "name" in entry.fields && "process" in entry.fields && "bands" in entry.fields
    ensures r.Some? ==> entry.fields["process"] == JStr(r.value.process) && entry.fields["bands"] == JObj(r.value.bands)
    ensures r.Some? ==> forall k :: k in entry.fields ==> k in {"name", "process", "bands", "description"}
    ensures r.Some? ==> entry.fields["name"] == JStr(r.value.name) && r.value.description == Lookup(entry.fields, "description")
    ensures VegetationIndexEntry(entry) ==> r.Some?
  {
    match entry
    case JObj(m) =>
      if (forall k :: k in m ==> k in {"name", "process", "bands", "description"})
        && IsString(m, "name") && IsString(m, "process") && "bands" in m && m["bands"].JObj?
      then Some(VegetationIndex(m["name"].s, m["process"].s, m["bands"].fields, Lookup(m, "description")))
      else None
    case _ => None
  }

  /** Each entry of a section built into a record, stopping at the first that fails. */
  function Parsed<T>(items: seq<Json>, build: Json -> Option<T>, key: string): Result<seq<T>, ConfigError>
  {
    if items == [] then Success([])
    else
      match Parsed(items[..|items| - 1], build, key)
      case Failure(e) => Failure(e)
      case Success(done) =>
        match build(items[|items| - 1])
        case None => Failure(BadEntry(key, |items| - 1))
        case Some(x) => Success(done + [x])
  }

  /** The section parses exactly when every entry does; the records keep the entries'
      number and order; a failure names the first entry that does not build. */
  lemma {:induction false} ParsedSpec<T>(items: seq<Json>, build: Json -> Option<T>, key: string)
    ensures Parsed(items, build, key).Success? <==> forall k :: 0 <= k < |items| ==> build(items[k]).Some?
    ensures Parsed(items, build, key).Success? ==>
      && |Parsed(items, build, key).value| == |items|
      && forall k :: 0 <= k < |items| ==> Parsed(items, build, key).value[k] == build(items[k]).value
    ensures Parsed(items, build, key).Failure? ==>
      exists k :: 0 <= k < |items| && Parsed(items, build, key).error == BadEntry(key, k)
        && build(items[k]).None? && forall e :: 0 <= e < k ==> build(items[e]).Some?
  {
    if items != [] {
      var n := |items| - 1;
      var init := items[..n];
      ParsedSpec(init, build, key);
      assert forall k :: 0 <= k < n ==> items[k] == init[k];
    }
  }

  /** One loop of `_parse_config`: build a record from each entry, in order. */
  method ParseEntries<T>(items: seq<Json>, build: Json -> Option<T>, key: string) returns (r: Result<seq<T>, ConfigError>)
    ensures r == Parsed(items, build, key)
  {
    var records: seq<T> := [];
    var k := 0;
    while k < |items|
      invariant 0 <= k <= |items|
      invariant Parsed(items[..k], build, key) == Success(records)
    {
      assert items[..k + 1][..k] == items[..k];
      var x := build(items[k]);
      if x.None? {
        assert Parsed(items[..k + 1], build, key) == Failure(BadEntry(key, k));
        PrefixFailure(items, build, key, k + 1);
        return Failure(BadEntry(key, k));
      }
      records := records + [x.value];
      k := k + 1;
    }
    assert items[..k] == items;
    return Success(records);
  }

  /** A failing prefix makes the whole section fail the same way. */
  lemma {:induction false} PrefixFailure<T>(items: seq<Json>, build: Json -> Option<T>, key: string, n: nat)
    requires n <= |items|
    requires Parsed(items[..n], build, key).Failure?
    ensures Parsed(items, build, key) == Parsed(items[..n], build, key)
    decreases |items| - n
  {
    if n < |items| {
      assert items[..n + 1][..n] == items[..n];
      PrefixFailure(items, build, key, n + 1);
    } else {
      assert items[..n] == items;
    }
  }

  /** The configuration a document maps to. */
  function ConfigOf(d: map<string, Json>): Result<Config, ConfigError>
  {
    match Section(d, "datastreams")
    case Failure(e) => Failure(e)
    case Success(datastreams) =>
      match Section(d, "raster_images")
      case Failure(e) => Failure(e)
      case Success(images) =>
        match Parsed(images, ToRasterImage, "raster_images")
        case Failure(e) => Failure(e)
        case Success(rasterImages) =>
          match Section(d, "vegetation_indices")
          case Failure(e) => Failure(e)
          case Success(indices) =>
            match Parsed(indices, ToVegetationIndex, "vegetation_indices")
            case Failure(e) => Failure(e)
            case Success(vegetationIndices) =>
              Success(Config(datastreams, rasterImages, vegetationIndices,
                Lookup(d, "trial_id"), Lookup(d, "plot_id_field"), Lookup(d, "year")))
  }

  /** Absent sections map to empty lists and present ones keep their length and order;
      the scalar fields are None exactly when absent or null. */
  lemma ConfigOfSpec(d: map<string, Json>)
    ensures ConfigOf(d).Success? ==>
      var c := ConfigOf(d).value;
      && (Section(d, "datastreams").Success? && c.datastreams == Section(d, "datastreams").value)
      && ("datastreams" !in d ==> c.datastreams == [])
      && ("raster_images" !in d ==> c.rasterImages == [])
      && ("vegetation_indices" !in d ==> c.vegetationIndices == [])
      && ("raster_images" in d ==> |c.rasterImages| == |d["raster_images"].items|)
      && ("vegetation_indices" in d ==> |c.vegetationIndices| == |d["vegetation_indices"].items|)
      && (c.trialId.None? <==> "trial_id" !in d || d["trial_id"] == JNull)
      && (c.plotIdField.None? <==> "plot_id_field" !in d || d["plot_id_field"] == JNull)
      && (c.year.None? <==> "year" !in d || d["year"] == JNull)
    ensures Section(d, "datastreams").Failure? ==> ConfigOf(d) == Failure(NotAList("datastreams"))
  {
    var images := Section(d, "raster_images");
    if images.Success? {
      ParsedSpec(images.value, ToRasterImage, "raster_images");
    }
    var indices := Section(d, "vegetation_indices");
    if indices.Success? {
      ParsedSpec(indices.value, ToVegetationIndex, "vegetation_indices");
    }
  }

  /** A document whose sections are absent or lists of well-formed entries parses, with
      one record per entry: in particular `description` is optional in both kinds. */
  lemma ConfigOfAccepts(d: map<string, Json>)
    requires "datastreams" !in d || d["datastreams"].JArr?
    requires "raster_images" !in d || d["raster_images"].JArr?
    requires "vegetation_indices" !in d || d["vegetation_indices"].JArr?
    requires "raster_images" in d ==> forall k :: 0 <= k < |d["raster_images"].items| ==> RasterImageEntry(d["raster_images"].items[k])
    requires "vegetation_indices" in d ==> forall k :: 0 <= k < |d["vegetation_indices"].items| ==> VegetationIndexEntry(d["vegetation_indices"].items[k])
    ensures ConfigOf(d).Success?
    ensures "raster_images" in d ==> |ConfigOf(d).value.rasterImages| == |d["raster_images"].items|
    ensures "vegetation_indices" in d ==> |ConfigOf(d).value.vegetationIndices| == |d["vegetation_indices"].items|
  {
    var images := Section(d, "raster_images").value;
    ParsedSpec(images, ToRasterImage, "raster_images");
    var indices := Section(d, "vegetation_indices").value;
    ParsedSpec(indices, ToVegetationIndex, "vegetation_indices");
  }

  /** `ConfigParser._parse_config` on a parsed document. */
  method ParseConfig(doc: Json) returns (r: Result<Config, ConfigError>)
    ensures !doc.JObj? ==> r == Failure(NotAMapping)
    ensures doc.JObj? ==> r == ConfigOf(doc.fields)
  {
    if !doc.JObj? {
      return Failure(NotAMapping);
    }
    var d := doc.fields;
    var datastreamsData := Section(d, "datastreams");
    if datastreamsData.Failure? {
      return Failure(datastreamsData.error);
    }
    var datastreams: seq<Json> := [];
    var k := 0;
    while k < |datastreamsData.value|
      invariant 0 <= k <= |datastreamsData.value|
      invariant datastreams == datastreamsData.value[..k]
    {
      datastreams := datastreams + [datastreamsData.value[k]];
      k := k + 1;
    }
    assert datastreamsData.value[..k] == datastreamsData.value;
    var imagesData := Section(d, "raster_images");
    if imagesData.Failure? {
      return Failure(imagesData.error);
    }
    var rasterImages := ParseEntries(imagesData.value, ToRasterImage, "raster_images");
    if rasterImages.Failure? {
      return Failure(rasterImages.error);
    }
    var indicesData := Section(d, "vegetation_indices");
    if indicesData.Failure? {
      return Failure(indicesData.error);
    }
    var vegetationIndices := ParseEntries(indicesData.value, ToVegetationIndex, "vegetation_indices");
    if vegetationIndices.Failure? {
      return Failure(vegetationIndices.error);
    }
    r := Success(Config(datastreams, rasterImages.value, vegetationIndices.value,
      Lookup(d, "trial_id"), Lookup(d, "plot_id_field"), Lookup(d, "year")));
  }

  /** The outcome of `ConfigParser.load_config(path)`. `found` is whether the path
      exists; `yamlDoc` and `jsonDoc` are what the YAML and JSON readers return for the
      file (None for a syntax error); only the reader the suffix selects is consulted. */
  function Loaded(path: string, found: bool, yamlDoc: Option<Json>, jsonDoc: Option<Json>): Result<Config, ConfigError>
  {
    if !found then Failure(FileNotFound)
    else
      var suffix := Lower(Suffix(path));
      var doc: Result<Json, ConfigError> :=
        if suffix in [".yml", ".yaml"] then (if yamlDoc.None? then Failure(InvalidYaml) else Success(yamlDoc.value))
        else if suffix == ".json" then (if jsonDoc.None? then Failure(InvalidJson) else Success(jsonDoc.value))
        else Failure(UnsupportedFormat(Suffix(path)));
      match doc
      case Failure(e) => Failure(e)
      case Success(JObj(d)) => ConfigOf(d)
      case Success(_) => Failure(NotAMapping)
  }

  /** A missing file is reported before any reader is consulted; the lower-cased
      suffix `.yml` or `.yaml` selects YAML and `.json` JSON, a syntax error in either
      surfaces as its own error, and any other suffix is unsupported. */
  lemma LoadedSpec(path: string, found: bool, yamlDoc: Option<Json>, jsonDoc: Option<Json>)
    ensures !found ==> Loaded(path, found, yamlDoc, jsonDoc) == Failure(FileNotFound)
    ensures found && Lower(Suffix(path)) in [".yml", ".yaml"] ==>
      && (yamlDoc.None? <==> Loaded(path, found, yamlDoc, jsonDoc) == Failure(InvalidYaml))
      && forall j :: Loaded(path, found, yamlDoc, j) == Loaded(path, found, yamlDoc, jsonDoc)
    ensures found && Lower(Suffix(path)) == ".json" ==>
      && (jsonDoc.None? <==> Loaded(path, found, yamlDoc, jsonDoc) == Failure(InvalidJson))
      && forall y :: Loaded(path, found, y, jsonDoc) == Loaded(path, found, yamlDoc, jsonDoc)
    ensures found && Lower(Suffix(path)) !in [".yml", ".yaml", ".json"] ==>
      Loaded(path, found, yamlDoc, jsonDoc) == Failure(UnsupportedFormat(Suffix(path)))
    ensures found && yamlDoc.Some? && yamlDoc.value.JObj? && Lower(Suffix(path)) in [".yml", ".yaml"] ==>
      Loaded(path, found, yamlDoc, jsonDoc) == ConfigOf(yamlDoc.value.fields)
  {
    if found && Lower(Suffix(path)) in [".yml", ".yaml"] && yamlDoc.Some? {
      ConfigOfNotSyntax(yamlDoc.value);
    }
    if found && Lower(Suffix(path)) == ".json" && jsonDoc.Some? {
      ConfigOfNotSyntax(jsonDoc.value);
    }
  }

  /** Parsing a document never reports a syntax error. */
  lemma ConfigOfNotSyntax(doc: Json)
    ensures doc.JObj? ==> ConfigOf(doc.fields) != Failure(InvalidYaml) && ConfigOf(doc.fields) != Failure(InvalidJson)
  {
    if doc.JObj? {
      var d := doc.fields;
      var images := Section(d, "raster_images");
      if images.Success? {
        ParsedSpec(images.value, ToRasterImage, "raster_images");
      }
      var indices := Section(d, "vegetation_indices");
      if indices.Success? {
        ParsedSpec(indices.value, ToVegetationIndex, "vegetation_indices");
      }
    }
  }

  /** `ConfigParser.load_config(path)`. */
  method LoadConfig(path: string, found: bool, yamlDoc: Option<Json>, jsonDoc: Option<Json>) returns (r: Result<Config, ConfigError>)
    ensures r == Loaded(path, found, yamlDoc, jsonDoc)
  {
    if !found {
      return Failure(FileNotFound);
    }
    var ext := Suffix(path);
    var suffix := Lower(ext);
    var doc: Json;
    if suffix in [".yml", ".yaml"] {
      if yamlDoc.None? {
        return Failure(InvalidYaml);
      }
      doc := yamlDoc.value;
    } else if suffix == ".json" {
      if jsonDoc.None? {
        return Failure(InvalidJson);
      }
      doc := jsonDoc.value;
    } else {
      return Failure(UnsupportedFormat(ext));
    }
    r := ParseConfig(doc);
  }

  /** `d.get(key, '')` for a string field. */
  function StringOr(d: map<string, Json>, key: string): Option<string>
  {
    if key !in d then Some("") else match d[key] case JStr(s) => Some(s) case _ => None
  }

  /** `d.get(key, {})` for an object-valued field. */
  function JsonOr(d: map<string, Json>, key: string): Json
  {
    if key in d then d[key] else JObj(map[])
  }

  /** The Datastream template one `datastreams` entry describes. */
  function DatastreamOf(entry: Json): (r: Option<Datastream>)
  {
    match entry
    case JObj(m) =>
      var uom := JsonOr(m, "unitOfMeasurement");
      if !uom.JObj? then None
      else
        var name := StringOr(m, "name");
        var description := StringOr(m, "description");
        var observationType := StringOr(m, "observationType");
        var uomName := StringOr(uom.fields, "name");
        var symbol := StringOr(uom.fields, "symbol");
        var definition := StringOr(uom.fields, "definition");
        if name.None? || description.None? || observationType.None? || uomName.None? || symbol.None? || definition.None? then None
        else Some(Datastream(name.value, description.value, observationType.value,
          UnitOfMeasurement(uomName.value, symbol.value, definition.value),
          JsonOr(m, "Sensor"), JsonOr(m, "ObservedProperty"), JsonOr(m, "properties"), None))
    case _ => None
  }

  /** `d.get(key, '')` yields a string: the key is absent or holds one. */
  predicate StringOrAbsent(d: map<string, Json>, key: string)
  {
    key !in d || d[key].JStr?
  }

  /** A `datastreams` entry whose `.get` lookups all yield the expected kinds: an object
      whose `unitOfMeasurement` is absent or an object and whose string fields, its own
      and its unit's, are absent or strings. */
  predicate DatastreamEntry(entry: Json)
  {
    && entry.JObj?
    && ("unitOfMeasurement" !in entry.fields || entry.fields["unitOfMeasurement"].JObj?)
    && StringOrAbsent(entry.fields, "name")
    && StringOrAbsent(entry.fields, "description")
    && StringOrAbsent(entry.fields, "observationType")
    && ("unitOfMeasurement" in entry.fields ==>
      && StringOrAbsent(entry.fields["unitOfMeasurement"].fields, "name")
      && StringOrAbsent(entry.fields["unitOfMeasurement"].fields, "symbol")
      && StringOrAbsent(entry.fields["unitOfMeasurement"].fields, "definition"))
  }

  /** An entry builds exactly when it is well-formed. */
  lemma DatastreamOfAccepts(entry: Json)
    ensures DatastreamOf(entry).Some? <==> DatastreamEntry(entry)
  {
  }

  /** Well-formed entries load as one template each, in order. */
  lemma DatastreamsAccepted(items: seq<Json>)
    requires forall k :: 0 <= k < |items| ==> DatastreamEntry(items[k])
    ensures Parsed(items, DatastreamOf, "datastreams").Success?
    ensures |Parsed(items, DatastreamOf, "datastreams").value| == |items|
    ensures forall k :: 0 <= k < |items| ==>
      DatastreamOf(items[k]) == Some(Parsed(items, DatastreamOf, "datastreams").value[k])
  {
    forall k | 0 <= k < |items| ensures DatastreamOf(items[k]).Some? {
      DatastreamOfAccepts(items[k]);
    }
    ParsedSpec(items, DatastreamOf, "datastreams");
  }

  /** Missing string fields default to "" and missing object fields to {}; present
      fields are copied; the template is not linked to a Thing. */
  lemma DatastreamOfSpec(m: map<string, Json>)
    requires DatastreamOf(JObj(m)).Some?
    ensures var ds := DatastreamOf(JObj(m)).value;
      && ds.thing.None?
      && ("name" !in m ==> ds.name == "") && ("name" in m ==> m["name"] == JStr(ds.name))
      && ("description" !in m ==> ds.description == "") && ("description" in m ==> m["description"] == JStr(ds.description))
      && ("observationType" !in m ==> ds.observationType == "")
      && ("unitOfMeasurement" !in m ==> ds.unitOfMeasurement == UnitOfMeasurement("", "", ""))
      && ds.sensor == (if "Sensor" in m then m["Sensor"] else JObj(map[]))
      && ds.observedProperty == (if "ObservedProperty" in m then m["ObservedProperty"] else JObj(map[]))
      && ds.properties == (if "properties" in m then m["properties"] else JObj(map[]))
  {
  }

  /** `load_datastreams_from_config(path)`: the file's configuration, then one
      Datastream per `datastreams` entry, in order. */
  method LoadDatastreamsFromConfig(path: string, found: bool, yamlDoc: Option<Json>, jsonDoc: Option<Json>)
    returns (r: Result<seq<Datastream>, ConfigError>)
    ensures Loaded(path, found, yamlDoc, jsonDoc).Failure? ==> r == Failure(Loaded(path, found, yamlDoc, jsonDoc).error)
    ensures Loaded(path, found, yamlDoc, jsonDoc).Success? ==>
      r == Parsed(Loaded(path, found, yamlDoc, jsonDoc).value.datastreams, DatastreamOf, "datastreams")
  {
    var config := LoadConfig(path, found, yamlDoc, jsonDoc);
    if config.Failure? {
      return Failure(config.error);
    }
    r := ParseEntries(config.value.datastreams, DatastreamOf, "datastreams");
  }
}
