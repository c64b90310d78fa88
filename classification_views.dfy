/**
 * The classifier endpoints' own logic: the per-model configuration, the renaming of
 * the `Temp` input to `Temperature` for the models trained on that name, the one-row
 * feature table handed to a trained pipeline, and the caches that keep each pipeline
 * and its label encoder once they are loaded.
 *
 * The trained pipelines and encoders stay opaque: loading one is the injected `load`,
 * and a prediction stops at the call it would make.
 */
module ClassificationViews {
  import opened Wrappers
  import opened Json

  /** The files and the feature columns of one model, in the order the pipeline expects them. */
  datatype ModelConfig = ModelConfig(pipeline: string, encoder: string, features: seq<string>)

  /** `MODEL_CONFIGS` */
  const ModelConfigs: map<string, ModelConfig> := map[
    "GINI_CART" := ModelConfig("decision_tree_gini_pipeline.joblib", "gini_target_encoder.joblib",
                               ["Outlook", "Temperature", "Humidity", "Wind"]),
    "ID3_Entropy" := ModelConfig("decision_tree_id3_pipeline.joblib", "id3_target_encoder.joblib",
                                 ["Outlook", "Temp", "Humidity", "Wind"]),
    "NAIVE_BAYES" := ModelConfig("naive_bayes_pipeline.joblib", "nb_target_encoder.joblib",
                                 ["Outlook", "Temperature", "Humidity", "Wind"])]

  /** The order of `MODEL_CONFIGS.keys()`. */
  const ConfigOrder: seq<string> := ["GINI_CART", "ID3_Entropy", "NAIVE_BAYES"]

  /** The names `_normalize_input_data` renames `Temp` for. */
  predicate RenamesTemp(modelName: string)
  {
    modelName == "GINI_CART" || modelName == "NAIVE_BAYES"
  }

  /** The configured models are exactly the names the import-time loop visits, each once. */
  lemma ConfigOrderCoversConfigs()
    ensures forall name :: name in ModelConfigs <==> name in ConfigOrder
    ensures forall i, j :: 0 <= i < j < |ConfigOrder| ==> ConfigOrder[i] != ConfigOrder[j]
  {
  }

  // ---------------------------------------------------------------------------
  // The request dictionary

  /** A Python dict of request fields; key order plays no part in what is modelled. */
  class Dict {
    var entries: map<string, JsonValue>

    constructor(entries: map<string, JsonValue>)
      ensures this.entries == entries
    {
      this.entries := entries;
    }

    /** `d.copy()`: a new dict with the same entries. */
    method Copy() returns (d: Dict)
      ensures fresh(d) && d.entries == entries
    {
      d := new Dict(entries);
    }

    /** `d.pop(key)` on a key that is present: its value, and the key is gone. */
    method Pop(key: string) returns (v: JsonValue)
      requires key in entries
      modifies this
      ensures v == old(entries)[key] && entries == old(entries) - {key}
    {
      v := entries[key];
      entries := entries - {key};
    }

    /** `d[key] = v` */
    method Set(key: string, v: JsonValue)
      modifies this
      ensures entries == old(entries)[key := v]
    {
      entries := entries[key := v];
    }
  }

  // ---------------------------------------------------------------------------
  // _normalize_input_data

  /** The entries `_normalize_input_data` returns for `data`. */
  function Normalized(modelName: string, data: map<string, JsonValue>): map<string, JsonValue>
  {
    if RenamesTemp(modelName) && "Temp" in data then (data - {"Temp"})["Temperature" := data["Temp"]] else data
  }

  /**
   * `_normalize_input_data`: on a copy of the caller's dict, move a `Temp` value to
   * `Temperature` for the models that were trained on that name.
   */
  method NormalizeInputData(modelName: string, rawData: Dict) returns (normalized: Dict)
    ensures fresh(normalized) && normalized.entries == Normalized(modelName, rawData.entries)
  {
    normalized := rawData.Copy();
    if RenamesTemp(modelName) {
      if "Temp" in normalized.entries {
        var tempValue := normalized.Pop("Temp");
        normalized.Set("Temperature", tempValue);
      }
    }
  }

  /**
   * For `GINI_CART` and `NAIVE_BAYES` a `Temp` entry moves to `Temperature`, replacing
   * any value already there; every other entry stays as it was.
   */
  lemma NormalizeRenamesTemp(modelName: string, data: map<string, JsonValue>)
    requires RenamesTemp(modelName) && "Temp" in data
    ensures var r := Normalized(modelName, data);
      && "Temp" !in r && "Temperature" in r && r["Temperature"] == data["Temp"]
      && r.Keys == data.Keys - {"Temp"} + {"Temperature"}
      && forall key :: key in data && key != "Temp" && key != "Temperature" ==> key in r && r[key] == data[key]
  {
  }

  /** For `ID3_Entropy`, and for any request without `Temp`, normalising changes nothing. */
  lemma NormalizeIdentity(modelName: string, data: map<string, JsonValue>)
    requires !RenamesTemp(modelName) || "Temp" !in data
    ensures Normalized(modelName, data) == data
  {
  }

  // ---------------------------------------------------------------------------
  // The feature row

  /**
   * `{col: [raw_data.get(col, '')] for col in features}` as the one-row table built on
   * it: one cell per feature, in the configured order, holding the request's value or
   * the empty string.
   */
  function FeatureRow(features: seq<string>, data: map<string, JsonValue>): (row: seq<(string, JsonValue)>)
    ensures |row| == |features|
    ensures forall i :: 0 <= i < |features| ==> row[i].0 == features[i]
    ensures forall i :: 0 <= i < |features| && features[i] in data ==> row[i].1 == data[features[i]]
    ensures forall i :: 0 <= i < |features| && features[i] !in data ==> row[i].1 == JStr("")
  {
    seq(|features|, i requires 0 <= i < |features| =>
      (features[i], if features[i] in data then data[features[i]] else JStr("")))
  }

  /** The row depends on the request only through the configured features: other keys are ignored. */
  lemma FeatureRowIgnoresExtraKeys(features: seq<string>, a: map<string, JsonValue>, b: map<string, JsonValue>)
    requires forall f :: f in features ==> (f in a <==> f in b) && (f in a ==> a[f] == b[f])
    ensures FeatureRow(features, a) == FeatureRow(features, b)
  {
    var ra := FeatureRow(features, a);
    var rb := FeatureRow(features, b);
    forall i | 0 <= i < |features|
      ensures ra[i] == rb[i]
    {
      assert features[i] in features;
    }
  }

  /** A feature the request lacks is sent as the empty string. */
  lemma MissingFeatureIsEmpty(features: seq<string>, data: map<string, JsonValue>, i: nat)
    requires i < |features| && features[i] !in data
    ensures FeatureRow(features, data)[i] == (features[i], JStr(""))
  {
  }

  /**
   * A request carrying `Temp` fills the second feature of every model with that value:
   * `Temperature` for `GINI_CART` and `NAIVE_BAYES` after normalising, `Temp` for
   * `ID3_Entropy`. With both `Temp` and `Temperature` present, `Temp` wins for the
   * renaming models.
   */
  lemma TempFillsTemperatureFeature(data: map<string, JsonValue>)
    requires "Temp" in data
    ensures var gini := ModelConfigs["GINI_CART"].features;
      FeatureRow(gini, Normalized("GINI_CART", data))[1] == ("Temperature", data["Temp"])
    ensures var bayes := ModelConfigs["NAIVE_BAYES"].features;
      FeatureRow(bayes, Normalized("NAIVE_BAYES", data))[1] == ("Temperature", data["Temp"])
    ensures var id3 := ModelConfigs["ID3_Entropy"].features;
      FeatureRow(id3, Normalized("ID3_Entropy", data))[1] == ("Temp", data["Temp"])
  {
    NormalizeRenamesTemp("GINI_CART", data);
    NormalizeRenamesTemp("NAIVE_BAYES", data);
    NormalizeIdentity("ID3_Entropy", data);
  }

  /** `ID3_Entropy` reads only `Temp`: a request that names the feature `Temperature` sends it an empty cell. */
  lemma Id3IgnoresTemperature(data: map<string, JsonValue>)
    requires "Temp" !in data && "Temperature" in data
    ensures FeatureRow(ModelConfigs["ID3_Entropy"].features, data)[1] == ("Temp", JStr(""))
  {
  }

  /**
   * The ID3 view hands the pipeline the raw request instead of the normalised one;
   * the row is the same, because normalising is the identity for `ID3_Entropy`.
   */
  lemma Id3RawRowIsNormalizedRow(data: map<string, JsonValue>)
    ensures var features := ModelConfigs["ID3_Entropy"].features;
      FeatureRow(features, data) == FeatureRow(features, Normalized("ID3_Entropy", data))
  {
    NormalizeIdentity("ID3_Entropy", data);
  }

  // ---------------------------------------------------------------------------
  // Loading and caching the trained models

  /** What `joblib.load` read from a file: opaque here beyond its bytes. */
  datatype Artifact = Artifact(bytes: seq<bv8>)

  /** `_load_model` raises a ValueError for an unknown name and a RuntimeError when a file does not load. */
  datatype LoadError = NotConfigured | LoadFailed

  /** `os.path.join(BASE_DIR, 'data_mining', 'models', file)` */
  function ModelPath(baseDir: string, file: string): (path: string)
    ensures |path| == |baseDir| + |"/data_mining/models/"| + |file|
    ensures path[..|baseDir|] == baseDir
    ensures path[|baseDir|..|path| - |file|] == "/data_mining/models/"
    ensures path[|path| - |file|..] == file
  {
    baseDir + "/data_mining/models/" + file
  }

  /** Different model files are read from different paths under the same directory. */
  lemma ModelPathInjective(baseDir: string, file1: string, file2: string)
    ensures ModelPath(baseDir, file1) == ModelPath(baseDir, file2) <==> file1 == file2
  {
    var p1, p2 := ModelPath(baseDir, file1), ModelPath(baseDir, file2);
    if p1 == p2 {
      assert file1 == p1[|p1| - |file1|..] == p2[|p2| - |file2|..] == file2;
    }
  }

  /** Everything a prediction hands to the trained objects: the pipeline, the encoder and the feature row. */
  datatype PipelineCall = PipelineCall(pipeline: Artifact, encoder: Artifact, row: seq<(string, JsonValue)>)

  /** The three classifier endpoints. */
  datatype Classifier = Gini | Id3 | Bayes

  function ModelName(c: Classifier): (name: string)
    ensures name in ModelConfigs
  {
    match c
    case Gini => "GINI_CART"
    case Id3 => "ID3_Entropy"
    case Bayes => "NAIVE_BAYES"
  }

  /** The two pairs of caches hold the same pipeline and the same encoder for `name`. */
  predicate SameEntry(name: string, m0: map<string, Artifact>, e0: map<string, Artifact>,
                    m1: map<string, Artifact>, e1: map<string, Artifact>)
  {
    && (name in m0 <==> name in m1) && (name in m0 ==> m0[name] == m1[name])
    && (name in e0 <==> name in e1) && (name in e0 ==> e0[name] == e1[name])
  }

  /** Storing under `name` changes nothing once `name` is removed. */
  lemma StoreBesides(name: string, m: map<string, Artifact>, v: Artifact)
    ensures m[name := v] - {name} == m - {name}
  {
    assert (m[name := v] - {name}).Keys == (m - {name}).Keys;
  }

  /** Two caches that agree once `name` is removed agree on every other name. */
  lemma KeptBesides(name: string, other: string, m0: map<string, Artifact>, m1: map<string, Artifact>)
    requires other != name && m1 - {name} == m0 - {name}
    ensures other in m0 <==> other in m1
    ensures other in m0 ==> m0[other] == m1[other]
  {
    assert other in m0 <==> other in m0 - {name};
    assert other in m1 <==> other in m1 - {name};
    if other in m0 {
      assert m0[other] == (m0 - {name})[other];
      assert m1[other] == (m1 - {name})[other];
    }
  }

  /**
   * `MODEL_CACHE` and `ENCODER_CACHE`, with the directory the files live under and
   * the loader that reads them.
   */
  class ModelStore {
    const baseDir: string
    const load: string -> Option<Artifact>
    var modelCache: map<string, Artifact>
    var encoderCache: map<string, Artifact>

    function PipelinePath(name: string): string
      requires name in ModelConfigs
    {
      ModelPath(baseDir, ModelConfigs[name].pipeline)
    }

    function EncoderPath(name: string): string
      requires name in ModelConfigs
    {
      ModelPath(baseDir, ModelConfigs[name].encoder)
    }

    /**
     * Only configured models are cached, each with what its files load as, and an
     * encoder is never cached without its pipeline (the pipeline is loaded first).
     */
    predicate Valid()
      reads this
    {
      && encoderCache.Keys <= modelCache.Keys
      && (forall name :: name in modelCache ==> name in ModelConfigs && load(PipelinePath(name)) == Some(modelCache[name]))
      && (forall name :: name in encoderCache ==> name in ModelConfigs && load(EncoderPath(name)) == Some(encoderCache[name]))
    }

    constructor(baseDir: string, load: string -> Option<Artifact>)
      ensures Valid() && this.baseDir == baseDir && this.load == load
      ensures modelCache == map[] && encoderCache == map[]
    {
      this.baseDir := baseDir;
      this.load := load;
      modelCache := map[];
      encoderCache := map[];
    }

    /** Both caches hold `name`. */
    predicate Cached(name: string)
      reads this
    {
      name in modelCache && name in encoderCache
    }

    /** `name` is configured and both of its files load. */
    predicate Loadable(name: string)
    {
      name in ModelConfigs && load(PipelinePath(name)).Some? && load(EncoderPath(name)).Some?
    }

    /** The caches hold for `name` exactly what they held before. */
    twostate predicate Untouched(name: string)
      reads this
    {
      SameEntry(name, old(modelCache), old(encoderCache), modelCache, encoderCache)
    }

    /**
     * What `_load_model(name)` leaves behind: every other name is untouched, the
     * pipeline is cached once it loads and the encoder once both load.
     */
    twostate predicate LoadedOnly(name: string)
      reads this
    {
      LoadedOnlyFrom(name, old(modelCache), old(encoderCache))
    }

    /** `LoadedOnly`, from the caches `m0` and `e0`. */
    predicate LoadedOnlyFrom(name: string, m0: map<string, Artifact>, e0: map<string, Artifact>)
      reads this
    {
      && modelCache - {name} == m0 - {name} && encoderCache - {name} == e0 - {name}
      && (name in modelCache <==> name in m0 || (name in ModelConfigs && load(PipelinePath(name)).Some?))
      && (name in encoderCache <==> name in e0 || Loadable(name))
    }

    /** The models from position `i` of the loop order on hold what they held in `m0` and `e0`. */
    predicate UntouchedFrom(i: nat, m0: map<string, Artifact>, e0: map<string, Artifact>)
      reads this
    {
      forall j :: i <= j < |ConfigOrder| ==> SameEntry(ConfigOrder[j], m0, e0, modelCache, encoderCache)
    }

    /** The models before position `i` of the loop order are cached. */
    predicate CachedUpTo(i: nat)
      reads this
    {
      forall j :: 0 <= j < i && j < |ConfigOrder| ==> Cached(ConfigOrder[j])
    }

    /**
     * `_load_model`: nothing happens when both caches hold the name; an unknown name
     * raises; otherwise the pipeline is loaded and cached, then the encoder. When the
     * encoder fails to load, the pipeline stays cached.
     */
    method LoadModel(modelName: string) returns (err: Option<LoadError>)
      requires Valid()
      modifies this
      ensures Valid()
      ensures err.None? <==> Cached(modelName)
      ensures err.None? <==> old(Cached(modelName)) || Loadable(modelName)
      ensures LoadedOnly(modelName)
      ensures old(Cached(modelName)) ==> err.None? && unchanged(this)
      ensures !old(Cached(modelName)) && modelName !in ModelConfigs ==> err == Some(NotConfigured) && unchanged(this)
      ensures !old(Cached(modelName)) && modelName in ModelConfigs ==>
        var pipeline := load(PipelinePath(modelName));
        var encoder := load(EncoderPath(modelName));
        && (err.None? <==> pipeline.Some? && encoder.Some?)
        && (err.Some? ==> err.value == LoadFailed)
        && modelCache == (if pipeline.Some? then old(modelCache)[modelName := pipeline.value] else old(modelCache))
        && encoderCache == (if pipeline.Some? && encoder.Some? then old(encoderCache)[modelName := encoder.value]
                            else old(encoderCache))
    {
      if modelName in modelCache && modelName in encoderCache {
        return None;
      }
      if modelName !in ModelConfigs {
        return Some(NotConfigured);
      }
      var pipeline := load(PipelinePath(modelName));
      if pipeline.None? {
        return Some(LoadFailed);
      }
      StoreBesides(modelName, modelCache, pipeline.value);
      modelCache := modelCache[modelName := pipeline.value];
      var encoder := load(EncoderPath(modelName));
      if encoder.None? {
        return Some(LoadFailed);
      }
      StoreBesides(modelName, encoderCache, encoder.value);
      encoderCache := encoderCache[modelName := encoder.value];
      err := None;
    }

    /**
     * The import-time loop over `MODEL_CONFIGS`: load each model in turn, stopping at
     * the first failure, which is swallowed. It gets through exactly when every
     * configured model was cached or loads; then every one is cached. Otherwise the
     * models before the one that failed are cached and those after it are untouched.
     */
    method LoadAll() returns (err: Option<LoadError>)
      requires Valid()
      modifies this
      ensures Valid()
      ensures old(modelCache).Keys <= modelCache.Keys && old(encoderCache).Keys <= encoderCache.Keys
      ensures err.None? <==> forall name :: name in ModelConfigs ==> Cached(name)
      ensures err.None? <==> forall name :: name in ModelConfigs ==> old(Cached(name)) || Loadable(name)
      ensures err.Some? ==> err == Some(LoadFailed) && exists i :: 0 <= i < |ConfigOrder| && StoppedAt(i)
    {
      ConfigOrderCoversConfigs();
      for i := 0 to |ConfigOrder|
        invariant Valid()
        invariant old(modelCache).Keys <= modelCache.Keys && old(encoderCache).Keys <= encoderCache.Keys
        invariant CachedUpTo(i)
        invariant UntouchedFrom(i, old(modelCache), old(encoderCache))
      {
        ghost var m1, e1 := modelCache, encoderCache;
        assert forall j :: 0 <= j < i ==> Cached(ConfigOrder[j]);
        err := LoadModel(ConfigOrder[i]);
        LoadStep(i, old(modelCache), old(encoderCache), m1, e1);
        if err.Some? {
          assert StoppedAt(i);
          assert ConfigOrder[i] in ModelConfigs && !Loadable(ConfigOrder[i]) && !Cached(ConfigOrder[i]);
          return;
        }
      }
      AllVisitedAllCached();
      CachedIsLoadable();
      err := None;
    }

    /**
     * Loading the model at position `i` of the loop order, from `m1` and `e1`, keeps the
     * models after it as they were in `m0` and `e0`.
     */
    lemma LoadStep(i: nat, m0: map<string, Artifact>, e0: map<string, Artifact>,
                   m1: map<string, Artifact>, e1: map<string, Artifact>)
      requires i < |ConfigOrder| && LoadedOnlyFrom(ConfigOrder[i], m1, e1)
      requires forall j :: i <= j < |ConfigOrder| ==> SameEntry(ConfigOrder[j], m0, e0, m1, e1)
      requires forall j :: 0 <= j < i ==> ConfigOrder[j] in m1 && ConfigOrder[j] in e1
      ensures UntouchedFrom(i + 1, m0, e0)
      ensures SameEntry(ConfigOrder[i], m0, e0, m1, e1)
      ensures Cached(ConfigOrder[i]) ==> CachedUpTo(i + 1)
      ensures CachedUpTo(i)
    {
      ConfigOrderCoversConfigs();
      forall j | 0 <= j < i ensures Cached(ConfigOrder[j]) {
        KeptBesides(ConfigOrder[i], ConfigOrder[j], m1, modelCache);
        KeptBesides(ConfigOrder[i], ConfigOrder[j], e1, encoderCache);
      }
      forall j | i + 1 <= j < |ConfigOrder|
        ensures SameEntry(ConfigOrder[j], m0, e0, modelCache, encoderCache)
      {
        KeptBesides(ConfigOrder[i], ConfigOrder[j], m1, modelCache);
        KeptBesides(ConfigOrder[i], ConfigOrder[j], e1, encoderCache);
      }
    }

    /**
     * The loop stopped at `ConfigOrder[i]`: the models before it are cached, it was
     * not cached and does not load, and the models after it are untouched.
     */
    twostate predicate StoppedAt(i: nat)
      requires i < |ConfigOrder|
      reads this
    {
      && CachedUpTo(i)
      && !old(Cached(ConfigOrder[i])) && !Loadable(ConfigOrder[i]) && !Cached(ConfigOrder[i])
      && UntouchedFrom(i + 1, old(modelCache), old(encoderCache))
    }

    /** A cached model is one whose files load. */
    lemma CachedIsLoadable()
      requires Valid()
      ensures forall name :: Cached(name) ==> Loadable(name)
    {
    }

    /** Every name the loop visits being cached is every configured model being cached. */
    lemma AllVisitedAllCached()
      requires forall j :: 0 <= j < |ConfigOrder| ==> Cached(ConfigOrder[j])
      ensures forall name :: name in ModelConfigs ==> Cached(name)
    {
      ConfigOrderCoversConfigs();
    }

    /**
     * `_run_single_prediction` up to the pipeline: load the model if needed, then take
     * its cached pipeline and encoder and build the feature row from `rawData`.
     */
    method RunSinglePrediction(modelName: string, rawData: Dict) returns (r: Result<PipelineCall, LoadError>)
      requires Valid()
      modifies this
      ensures Valid()
      ensures r.Success? <==> Cached(modelName)
      ensures r.Success? <==> old(Cached(modelName)) || Loadable(modelName)
      ensures LoadedOnly(modelName)
      ensures old(Cached(modelName)) ==> unchanged(this)
      ensures r.Success? ==> r.value == PipelineCall(modelCache[modelName], encoderCache[modelName],
                                                     FeatureRow(ModelConfigs[modelName].features, rawData.entries))
      ensures r.Success? ==> && load(PipelinePath(modelName)) == Some(r.value.pipeline)
                             && load(EncoderPath(modelName)) == Some(r.value.encoder)
    {
      var err := LoadModel(modelName);
      if err.Some? {
        return Failure(err.value);
      }
      var features := ModelConfigs[modelName].features;
      var row := FeatureRow(features, rawData.entries);
      r := Success(PipelineCall(modelCache[modelName], encoderCache[modelName], row));
    }

    /**
     * `predict_gini_view`, `predict_id3_view` and `predict_bayes_view` on a request
     * dict: normalise, then run the prediction. The ID3 view passes the raw dict on;
     * all three hand the pipeline the row of the normalised request.
     */
    method PredictView(c: Classifier, rawData: Dict) returns (r: Result<PipelineCall, LoadError>)
      requires Valid()
      modifies this
      ensures Valid()
      ensures r.Success? <==> Cached(ModelName(c))
      ensures r.Success? <==> old(Cached(ModelName(c))) || Loadable(ModelName(c))
      ensures LoadedOnly(ModelName(c))
      ensures old(Cached(ModelName(c))) ==> unchanged(this)
      ensures r.Success? ==> && load(PipelinePath(ModelName(c))) == Some(r.value.pipeline)
                             && load(EncoderPath(ModelName(c))) == Some(r.value.encoder)
      ensures r.Success? ==>
        r.value.row == FeatureRow(ModelConfigs[ModelName(c)].features, Normalized(ModelName(c), rawData.entries))
    {
      var processed := NormalizeInputData(ModelName(c), rawData);
      assert modelCache == old(modelCache) && encoderCache == old(encoderCache);
      if c == Id3 {
        Id3RawRowIsNormalizedRow(rawData.entries);
        r := RunSinglePrediction(ModelName(c), rawData);
      } else {
        r := RunSinglePrediction(ModelName(c), processed);
      }
    }
  }
}
