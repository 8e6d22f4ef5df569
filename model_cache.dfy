/**
 * The load-model request and the named-then-default lookup that the deployment server and the
 * gateway server each define (`_retrieve_model`, `_retrieve_dataset`).
 */
module ModelCache {
  import opened Wrappers

  /** The `load-model` payload: a model name and version, or a run id. */
  datatype LoadModelInput = LoadModelInput(model: Option<string>, version: Option<string>, runId: Option<string>)

  /** Neither a complete (model, version) pair nor a run id. */
  function Underspecified(p: LoadModelInput): (b: bool)
    ensures !b <==> p.runId.Some? || (p.model.Some? && p.version.Some?)
  {
    (p.model.None? || p.version.None?) && p.runId.None?
  }

  const UnderspecifiedMessage := "Must specify either (1) model and version or (2) run_id."

  /**
   * The entry under `name` when a name is given and present, otherwise the entry under the default
   * name when that is set and present, otherwise nothing.
   */
  function Retrieve<V>(cache: map<string, V>, name: Option<string>, default: Option<string>): (r: Option<V>)
    ensures name.Some? && name.value in cache ==> r == Some(cache[name.value])
    ensures !(name.Some? && name.value in cache) && default.Some? && default.value in cache ==> r == Some(cache[default.value])
    ensures r.None? <==> !(name.Some? && name.value in cache) && !(default.Some? && default.value in cache)
  {
    if name.Some? && name.value in cache then Some(cache[name.value])
    else if default.Some? && default.value in cache then Some(cache[default.value])
    else None
  }

  /** The lookup never invents an entry: whatever it finds is stored under the given or the default name. */
  lemma RetrieveFromCache<V>(cache: map<string, V>, name: Option<string>, default: Option<string>)
    requires Retrieve(cache, name, default).Some?
    ensures (name.Some? && name.value in cache && Retrieve(cache, name, default).value == cache[name.value])
         || (default.Some? && default.value in cache && Retrieve(cache, name, default).value == cache[default.value])
  {
  }
}
