/**
 * mltemplate/backend/deployment/deployment_server.py: the cache of loaded models, the
 * `load-model` route, the named-then-default lookups and the image-format choice of
 * `classify-image`. MLflow's `pyfunc.load_model` is passed in as a function from model URI to
 * handle, or to the message of the exception it raises; model and dataset handles are opaque.
 */
module DeploymentServer {
  import opened Wrappers
  import opened Snapshots
  import Registries
  import opened ModelCache
  import opened Conversions

  /**
   * FastAPI's HTTPException, the ValueError a lookup raises, or the exception `mlflow.pyfunc.load_model`
   * raises for a model URI it cannot load.
   */
  datatype ServerError = HttpError(status: int, detail: string) | ValueError(message: string) | LoadError(message: string)

  /**
   * The cache key a `load-model` request resolves to: a run id, when given, is looked up in the
   * registry's models snapshot and takes precedence; otherwise the key is "<model>/<version>".
   */
  function LoadKey(p: LoadModelInput, models: OrderedMap<Registries.ModelRecord>): (r: Result<string, ServerError>)
    ensures Underspecified(p) ==> r == Failure(HttpError(400, UnderspecifiedMessage))
    ensures !Underspecified(p) && p.runId.Some? ==> (r.Success? <==> p.runId.value in models.values)
    ensures !Underspecified(p) && p.runId.Some? && r.Success? ==>
      r.value == models.values[p.runId.value].name + "/" + models.values[p.runId.value].version
    ensures !Underspecified(p) && p.runId.Some? && r.Failure? ==>
      r.error == HttpError(400, "No model found with run_id: " + p.runId.value)
    ensures !Underspecified(p) && p.runId.None? ==> r == Success(p.model.value + "/" + p.version.value)
  {
    if Underspecified(p) then Failure(HttpError(400, UnderspecifiedMessage))
    else if p.runId.Some? then
      match Registries.NameAndVersion(models, p.runId.value)
      case Failure(err) => Failure(HttpError(400, err.message))
      case Success(key) => Success(key)
    else Success(p.model.value + "/" + p.version.value)
  }

  /** `classify-image` reads grey images (with or without alpha) as "L" and everything else as "RGB". */
  function ClassifyFormat(mode: Mode): (f: string)
    ensures f == "L" <==> mode in {L, LA}
    ensures f != "L" ==> f == "RGB"
  {
    if mode in {L, LA} then "L" else "RGB"
  }

  /** The chosen format is always one `pil_to_ndarray` handles, so classify-image always gets an array. */
  lemma ClassifyFormatConverts(image: Image, convert: (Image, Mode) -> Image)
    ensures PilToNdarray(image, ClassifyFormat(image.mode), convert).Some?
  {
  }

  class Server<M, D> {
    var loadedModels: map<string, M>
    var defaultModel: Option<string>
    const loadedDatasets: map<string, D>
    const defaultDataset: Option<string>
    const registry: Registries.Registry

    /** The datasets are fixed at construction: "MNIST" is loaded and is the default. */
    ghost predicate Valid()
      reads this
    {
      "MNIST" in loadedDatasets && defaultDataset == Some("MNIST")
    }

    constructor (registry: Registries.Registry, mnist: D)
      ensures Valid()
      ensures loadedModels == map[] && defaultModel == None
      ensures loadedDatasets == map["MNIST" := mnist] && this.registry == registry
    {
      loadedModels := map[];
      defaultModel := None;
      loadedDatasets := map["MNIST" := mnist];
      defaultDataset := Some("MNIST");
      this.registry := registry;
    }

    /** `_retrieve_model`: the named model if it is loaded, else the default one, else ValueError. */
    function RetrieveModel(name: Option<string>): (r: Result<M, ServerError>)
      reads this
      ensures r.Success? <==> Retrieve(loadedModels, name, defaultModel).Some?
      ensures r.Success? ==> r.value == Retrieve(loadedModels, name, defaultModel).value
      ensures r.Failure? ==> r.error == ValueError("No model loaded or given.")
    {
      match Retrieve(loadedModels, name, defaultModel)
      case None => Failure(ValueError("No model loaded or given."))
      case Some(m) => Success(m)
    }

    /** `_retrieve_dataset`: the named dataset if loaded, else the default one, else ValueError. */
    function RetrieveDataset(name: Option<string>): (r: Result<D, ServerError>)
      reads this
      ensures Valid() ==> r.Success?
      ensures r.Success? <==> Retrieve(loadedDatasets, name, defaultDataset).Some?
      ensures r.Success? ==> r.value == Retrieve(loadedDatasets, name, defaultDataset).value
      ensures r.Failure? ==> r.error == ValueError("No dataset loaded or given.")
    {
      match Retrieve(loadedDatasets, name, defaultDataset)
      case None => Failure(ValueError("No dataset loaded or given."))
      case Some(d) => Success(d)
    }

    /**
     * The `load-model` route: a rejected request, or a model URI the loader cannot load, changes
     * nothing; otherwise the model loaded from "models:/<key>" is stored under its key
     * (overwriting, never removing) and the key becomes the default.
     */
    method LoadModel(p: LoadModelInput, load: string -> Result<M, string>) returns (r: Result<bool, ServerError>)
      modifies this
      ensures LoadKey(p, old(registry.models)).Failure? ==>
        (r == Failure(LoadKey(p, old(registry.models)).error)
         && loadedModels == old(loadedModels) && defaultModel == old(defaultModel))
      ensures LoadKey(p, old(registry.models)).Success? && load("models:/" + LoadKey(p, old(registry.models)).value).Failure? ==>
        (r == Failure(LoadError(load("models:/" + LoadKey(p, old(registry.models)).value).error))
         && loadedModels == old(loadedModels) && defaultModel == old(defaultModel))
      ensures LoadKey(p, old(registry.models)).Success? && load("models:/" + LoadKey(p, old(registry.models)).value).Success? ==>
        var key := LoadKey(p, old(registry.models)).value;
        (r == Success(true)
         && loadedModels == old(loadedModels)[key := load("models:/" + key).value]
         && defaultModel == Some(key))
    {
      var key := LoadKey(p, registry.models);
      if key.Failure? {
        return Failure(key.error);
      }
      var model := load("models:/" + key.value);
      if model.Failure? {
        return Failure(LoadError(model.error));
      }
      loadedModels := loadedModels[key.value := model.value];
      defaultModel := Some(key.value);
      return Success(true);
    }

    /** `classify-image` up to the prediction: the model used and the array handed to it. */
    function ClassifyImage(image: Image, name: Option<string>, convert: (Image, Mode) -> Image)
      : (r: Result<(M, NdArray), ServerError>)
      reads this
      ensures r.Success? <==> RetrieveModel(name).Success?
      ensures r.Success? ==> r.value.0 == RetrieveModel(name).value
      ensures r.Success? ==> Some(r.value.1) == PilToNdarray(image, ClassifyFormat(image.mode), convert)
    {
      match RetrieveModel(name)
      case Failure(err) => Failure(err)
      case Success(m) =>
        ClassifyFormatConverts(image, convert);
        Success((m, PilToNdarray(image, ClassifyFormat(image.mode), convert).value))
    }
  }

  /**
   * Loading by model and version makes that model the one classify requests get, whether they name
   * nothing or a model that is not loaded; a second load replaces the default but keeps the first.
   */
  method LoadTwice<M, D>(registry: Registries.Registry, mnist: D, load: string -> Result<M, string>, other: string)
    returns (byDefault: Result<M, ServerError>, byOther: Result<M, ServerError>, first: Result<M, ServerError>)
    requires other != "mlp/1" && other != "cnn/2"
    requires load("models:/mlp/1").Success? && load("models:/cnn/2").Success?
    ensures byDefault == Success(load("models:/cnn/2").value) && byOther == Success(load("models:/cnn/2").value)
    ensures first == Success(load("models:/mlp/1").value)
  {
    var server := new Server(registry, mnist);
    assert "mlp" + "/" + "1" == "mlp/1" && "models:/" + "mlp/1" == "models:/mlp/1";
    assert "cnn" + "/" + "2" == "cnn/2" && "models:/" + "cnn/2" == "models:/cnn/2";
    var _ := server.LoadModel(LoadModelInput(Some("mlp"), Some("1"), None), load);
    assert server.loadedModels == map["mlp/1" := load("models:/mlp/1").value];
    var _ := server.LoadModel(LoadModelInput(Some("cnn"), Some("2"), None), load);
    assert server.loadedModels == map["mlp/1" := load("models:/mlp/1").value, "cnn/2" := load("models:/cnn/2").value];
    byDefault := server.RetrieveModel(None);
    byOther := server.RetrieveModel(Some(other));
    first := server.RetrieveModel(Some("mlp/1"));
  }

  /** Before any load, classify requests fail with "No model loaded or given." while datasets resolve. */
  method NothingLoaded<M, D>(registry: Registries.Registry, mnist: D, name: Option<string>)
    returns (model: Result<M, ServerError>, dataset: Result<D, ServerError>)
    ensures model == Failure(ValueError("No model loaded or given."))
    ensures dataset == Success(mnist)
  {
    var server := new Server<M, D>(registry, mnist);
    model := server.RetrieveModel(name);
    dataset := server.RetrieveDataset(name);
  }

  /** A request with only a model name is rejected with status 400 and nothing is cached. */
  method RejectUnderspecified<M, D>(registry: Registries.Registry, mnist: D, load: string -> Result<M, string>)
    returns (r: Result<bool, ServerError>, cached: map<string, M>)
    ensures r == Failure(HttpError(400, "Must specify either (1) model and version or (2) run_id."))
    ensures cached == map[]
  {
    var server := new Server<M, D>(registry, mnist);
    r := server.LoadModel(LoadModelInput(Some("mlp"), None, None), load);
    cached := server.loadedModels;
  }

  /**
   * A model and version the loader cannot load (one MLflow does not hold) fail the request with the
   * loader's exception; the earlier model stays cached and stays the default.
   */
  method LoadFailureKeepsDefault<M, D>(registry: Registries.Registry, mnist: D, load: string -> Result<M, string>)
    returns (r: Result<bool, ServerError>, byDefault: Result<M, ServerError>)
    requires load("models:/mlp/1").Success? && load("models:/no-such-model/99").Failure?
    ensures r == Failure(LoadError(load("models:/no-such-model/99").error))
    ensures byDefault == Success(load("models:/mlp/1").value)
  {
    var server := new Server(registry, mnist);
    assert "mlp" + "/" + "1" == "mlp/1" && "models:/" + "mlp/1" == "models:/mlp/1";
    assert "no-such-model" + "/" + "99" == "no-such-model/99" && "models:/" + "no-such-model/99" == "models:/no-such-model/99";
    var _ := server.LoadModel(LoadModelInput(Some("mlp"), Some("1"), None), load);
    r := server.LoadModel(LoadModelInput(Some("no-such-model"), Some("99"), None), load);
    byDefault := server.RetrieveModel(None);
  }
}
