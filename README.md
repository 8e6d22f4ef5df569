# mltemplate, modelled in Dafny

mltemplate is a small machine-learning platform. It has four parts:

- an MLflow-backed model **registry** that snapshots registered models and experiments;
- a **deployment server** that loads registered models and classifies images;
- a **training server** that launches `rye run train ...` for a request;
- a **gateway** and a **Discord client** that sit in front of both.

These support pieces are modelled too:

- the INI **config** loader;
- a **timer** and a **timer collection**;
- image **conversions** between PIL, numpy and cv2 layouts;
- Hydra-style **target splitting** and `ifnone`.

This project models the deterministic logic of these parts. Calls to MLflow, OpenAI, PIL, the clock, the file system and `subprocess` are passed in as parameters (values or functions):

- a registered model arrives with its versions and their fetched run data already decoded;
- `time.time()` becomes a `now` argument;
- `os.path.exists` becomes a set of existing paths;
- `shlex.split`, `subprocess.run`, `Image.convert` and `mlflow.pyfunc.load_model` become function parameters.

Stateful objects are classes whose methods modify their fields:

- the timer (`Timing.Timer`);
- the timer collection (`TimerCollections.TimerCollection`);
- the registry (`Registries.Registry`), whose `refresh` reassigns its models and experiments snapshots;
- the deployment server and the gateway server.

Dict-building loops are methods with loop invariants, proved equal to a specification function, and the properties are proved about that function.

Python dicts keep insertion order, and the registry's results depend on it (`experiment_names`, `max`). A snapshot is therefore an `OrderedMap`: a key sequence plus a map. Assigning an existing key keeps its position, and assigning a new key appends it.

The class `Registry` in `mltemplate/modules/registry.py` (lines 12-127) and the class of the same name in `mltemplate/core/registry.py` (lines 12-128) are the same code. The core copy is one line longer from line 36 on, and it adds the `MLFlow` helper class. Both are modelled once, by `Registries.Registry`. The helper class is modelled by module `MLFlowHelper`.

Where the code and its documentation disagree, the model keeps both. The docstring of `best_model_for_experiment` promises the best model "for the specified experiment, or None". The code returns another experiment's model when the experiment exists but has no models. `Registries.BestModelAsWritten` models the code as written. `Registries.Registry.BestModelForExperiment` follows the documented intent through `Registries.BestModel` (see Findings).

## Model

| member | source | states |
|---|---|---|
| Checks.IfNone | mltemplate/utils/checks.py:5-7 | The value when present, otherwise the default. The result is None only when both are None. |
| Checks.IfNoneIdempotent | mltemplate/utils/checks.py:7 | Applying the same default a second time changes nothing. |
| Checks.IfNoneKeepsFalsy | mltemplate/utils/checks.py:7 | Only None is replaced: falsy values such as False and 0 are returned as given. |
| Dynamic.LastIndexOf | mltemplate/utils/dynamic.py:30 | The position of the last dot. It is None exactly when the target has no dot. |
| Dynamic.SplitTarget | mltemplate/utils/dynamic.py:30 | Fails (the unpacking ValueError) exactly when the target has no dot. Otherwise module + "." + class rebuilds the target, and the class part holds no dot. |
| Dynamic.SplitTargetUnique | mltemplate/utils/dynamic.py:30 | Any (module, class) pair that rebuilds the target with a dot-free class is the result, so the split is determined. |
| Dynamic.SplitTargetExample | mltemplate/utils/dynamic.py:25-28 | The docstring's target splits into ("mltemplate.data.mnist", "MNISTDataModule"). |
| Config.ConfigPath | mltemplate/core/config.py:41-43 | The given path, or otherwise a path inside the module's directory that ends in "config.ini", joined with "/" when the directory does not end in one. |
| Config.Loaded | mltemplate/core/config.py:45-53 | Succeeds iff the file exists and no value is empty. A missing file gives FileNotFoundError 'No such file "<path>".', and an empty value gives IndexError. |
| Config.ExpandedEntries | mltemplate/core/config.py:51-53 | Keeps every key, in order. Each value is expanded on its own. |
| Config.ExpandedSections | mltemplate/core/config.py:50-53 | Keeps every section name and its entries, in order. |
| Config.Load | mltemplate/core/config.py:45-53 | The nested in-place rewrite loop yields exactly the loaded configuration, or the FileNotFoundError / IndexError it raises. |
| Config.LoadedMeaning | mltemplate/core/config.py:45-53 | Loading succeeds iff the file exists and no value is empty. A missing file gives FileNotFoundError. Sections and keys survive in order. A value not starting with "~" is unchanged. A value starting with "~" keeps no "~" when the home path has none. |
| Config.ConfigText | mltemplate/core/config.py:58-59 | `str(config)` contains no single quote. |
| Config.DictText | mltemplate/core/config.py:59 | The dict repr is the sections' text enclosed in braces. |
| Config.QuotedSwap | mltemplate/core/config.py:59 | A single-quoted string without inner quotes becomes the double-quoted string. |
| Config.ReplaceCharPunctuation | mltemplate/core/config.py:59 | The dict punctuation of the repr is untouched by the quote replacement. |
| Config.EntriesTextSwap | mltemplate/core/config.py:59 | The quote replacement turns the single-quoted repr of one section's entries into its double-quoted form. |
| Config.SectionsTextSwap | mltemplate/core/config.py:59 | The same holds for the whole list of sections. |
| Config.ConfigTextDoubleQuoted | mltemplate/core/config.py:58-62 | When no name, key or value holds a single quote, `str(config)` is exactly the text of the nested dict with every string in double quotes. |
| Text.ContainsFrom | mltemplate/backend/discord/discord_client.py:137 | True iff the substring occurs at or after the given index. |
| Text.Find | mltemplate/backend/discord/discord_client.py:137 | `sub in s`: true iff some window of s equals sub. |
| Text.LowerChar | mltemplate/backend/discord/discord_client.py:137 | An upper-case ASCII letter becomes the matching lower-case letter (the same offset from 'a' as from 'A'). Every other character is unchanged. |
| Text.Lower | mltemplate/backend/discord/discord_client.py:137 | Same length as the input, lowered character by character. |
| Text.NatToString | mltemplate/utils/conversions.py:187-188 | `str(n)`: a non-empty string of decimal digits whose value (`DigitsValue`) is n, without a leading zero, one digit for n < 10. |
| Text.Join | mltemplate/backend/gateway/gateway_server.py:187-191 | `os.path.join` of a directory and a relative name: adds "/" unless the directory is empty or ends in one. |
| Text.ReplaceCharAbsent | mltemplate/core/config.py:53 | Replacing a character that does not occur leaves the string unchanged. |
| Text.ReplaceCharRemovesAll | mltemplate/core/config.py:53 | When the replacement does not contain the character, no occurrence remains. |
| Text.ReplaceCharLength | mltemplate/core/config.py:53 | Each occurrence adds (replacement length - 1) characters. |
| Text.ReplaceCharPointwise | mltemplate/core/config.py:59 | A one-character replacement changes exactly the matching positions. |
| Text.ReplaceCharConcat | mltemplate/core/config.py:59 | Replacement distributes over concatenation. |
| Timing.Started | mltemplate/utils/timer.py:33-36 | The timer runs from `now`, keeping the earlier total. |
| Timing.Stopped | mltemplate/utils/timer.py:38-42 | The timer no longer runs and keeps its start. An already stopped timer is unchanged. A running one adds its interval, so the new total is its duration at the stop time. |
| Timing.DurationAt | mltemplate/utils/timer.py:44-49 | While running: the total plus now - start. Otherwise: the total. |
| Timing.FreshIsZero | mltemplate/utils/timer.py:28-31 | A new timer is not running and reports 0 at any time. |
| Timing.StartedRuns | mltemplate/utils/timer.py:33-47 | After start the timer runs and reports the earlier total plus the time since the start. |
| Timing.StopFreezes | mltemplate/utils/timer.py:38-49 | After stop the timer is not running, and its duration stays what it was at the stop time. |
| Timing.StopIdempotent | mltemplate/utils/timer.py:40-42 | A second stop without a start changes nothing and does not fail. |
| Timing.RestartDiscards | mltemplate/utils/timer.py:33-36 | Starting a running timer again discards the interval in progress. |
| Timing.Accumulates | mltemplate/utils/timer.py:38-42 | Two start/stop cycles add up both intervals. |
| Timing.Timer.constructor | mltemplate/utils/timer.py:28-31 | No start time, no stop time, accumulated 0. |
| Timing.Timer.Start | mltemplate/utils/timer.py:33-36 | Records now as the start time and clears the stop time, keeping the total. |
| Timing.Timer.Stop | mltemplate/utils/timer.py:38-42 | When not yet stopped, records the stop time and adds stop - start. It fails (TypeError) exactly on a timer never started, after the stop time is written. |
| Timing.Timer.Duration | mltemplate/utils/timer.py:44-49 | The reading `DurationAt` gives for the timer's state at `now`. |
| Timing.Timer.Reset | mltemplate/utils/timer.py:51-55 | Back to the fresh state. |
| Timing.TwoCycles | mltemplate/utils/timer.py:33-49 | Two cycles with a repeated stop report exactly the sum of the two intervals. |
| Timing.StopBeforeStart | mltemplate/utils/timer.py:38-42 | Stopping a never-started timer fails, yet the stop time is set. |
| TimerCollections.TimerCollection.constructor | mltemplate/utils/timer_collection.py:41-42 | No timers. |
| TimerCollections.TimerCollection.Start | mltemplate/utils/timer_collection.py:44-48 | Creates a fresh timer for a new name, then starts it. Other timers are unchanged. |
| TimerCollections.TimerCollection.Stop | mltemplate/utils/timer_collection.py:50-54 | An unknown name gives KeyError and changes nothing. Otherwise only that timer is stopped, failing exactly as Timer.stop does. |
| TimerCollections.TimerCollection.Duration | mltemplate/utils/timer_collection.py:56-60 | KeyError iff the name is unknown. Otherwise the named timer's duration. |
| TimerCollections.TimerCollection.Reset | mltemplate/utils/timer_collection.py:62-66 | KeyError iff the name is unknown. Otherwise only the named timer becomes fresh. |
| TimerCollections.TimerCollection.ResetAll | mltemplate/utils/timer_collection.py:68-72 | Every timer is fresh and the set of names is unchanged. |
| TimerCollections.TimerCollection.Names | mltemplate/utils/timer_collection.py:74-76 | Exactly the names of the timers held. |
| TimerCollections.SideBySide | mltemplate/utils/timer_collection.py:44-60 | Stopping one timer leaves another running; each reports its own interval. |
| TimerCollections.UnknownName | mltemplate/utils/timer_collection.py:50-66 | Stop, duration and reset of an unknown name all raise, and no timer is created. |
| TimerCollections.ResetAllKeepsNames | mltemplate/utils/timer_collection.py:68-76 | After reset_all both timers report 0 and both names are still listed. |
| Snapshots.Empty | mltemplate/core/registry.py:49 | An empty dict: no keys, no entries. |
| Snapshots.Put | mltemplate/core/registry.py:54 | `d[k] = v`: the entry is set. An existing key keeps its position, a new key goes last, and the keys stay distinct. |
| Snapshots.FromPairs | mltemplate/core/registry.py:49-65 | Assigning pairs in order gives a well-formed dict. |
| Snapshots.Values | mltemplate/core/registry.py:80 | `d.values()`: one value per key, in key order. |
| Snapshots.FirstIndexOf | mltemplate/core/registry.py:49-65 | The first pair with the key, or the length when there is none. |
| Snapshots.FromPairsDomain | mltemplate/core/registry.py:49-65 | A key is in the dict iff some pair assigned it. |
| Snapshots.FromPairsLastWins | mltemplate/core/registry.py:54 | A key holds the value of the last pair that assigned it. |
| Snapshots.FromPairsValues | mltemplate/core/registry.py:54 | Every stored value was assigned under its key by some pair. |
| Snapshots.FromPairsOrder | mltemplate/core/registry.py:49-65 | Keys are ordered by their first assignment. |
| Registries.Metric | mltemplate/core/registry.py:59-61 | `metrics.get(name, 0.0)`. |
| Registries.KeptParams | mltemplate/core/registry.py:62 | The "model" parameters minus "_target_" and "name", with their values unchanged. |
| Registries.MakeRecord | mltemplate/core/registry.py:52-65 | Succeeds iff the run has both the "model" and "dataset_name" parameters. The record carries the version's run id, name and version, and no "_target_" or "name" parameter. |
| Registries.EntriesOf | mltemplate/core/registry.py:50-51 | One (model name, version) entry per version, in order. |
| Registries.Records | mltemplate/core/registry.py:50-65 | When it succeeds, one record per fetched version. |
| Registries.ByRunId | mltemplate/core/registry.py:54 | Each record paired with its run id, in order. |
| Registries.ExperimentPairs | mltemplate/core/registry.py:71-73 | Only fetched experiments, never one named "Default". |
| Registries.RecordsMeaning | mltemplate/core/registry.py:50-65 | Records succeed iff every version is complete. Each record is then that version's record. |
| Registries.RecordsFailureSticks | mltemplate/core/registry.py:50-65 | The first raising version decides the error, whatever follows. |
| Registries.ModelsFromSucceeds | mltemplate/core/registry.py:47-66 | The models snapshot is built iff every fetched version's run has both parameters. |
| Registries.ModelsFromKeys | mltemplate/core/registry.py:47-66 | The snapshot's keys are exactly the fetched run ids. |
| Registries.ModelsFromRecords | mltemplate/core/registry.py:54-64 | Every record is stored under its own run id and has no "_target_" or "name" parameter. |
| Registries.ModelsFromLastWins | mltemplate/core/registry.py:54 | A run id holds the record of the last version that has it. |
| Registries.ModelsFromOrder | mltemplate/core/registry.py:49-54 | Snapshot keys are in the order their run ids were first fetched. |
| Registries.ModelsSnapshot | mltemplate/core/registry.py:47-66 | Built iff every version of every registered model has a run with both the "model" and "dataset_name" parameters. |
| Registries.EntriesComplete | mltemplate/core/registry.py:50-51 | Every fetched entry is complete iff every version of every registered model is. |
| Registries.ExperimentsSnapshot | mltemplate/core/registry.py:68-74 | An id is present iff a non-"Default" experiment has it. The name stored under it belongs to a fetched experiment with that id, and is never "Default". |
| Registries.ExperimentPairsMeaning | mltemplate/core/registry.py:68-74 | The same two facts for the map built from the experiment pairs. |
| Registries.VersionsNamed | mltemplate/core/registry.py:79-80 | A version is listed iff some record with that model name has it. |
| Registries.VersionsNamedConcat | mltemplate/core/registry.py:79-80 | The listing of a concatenation is the two listings concatenated, so versions are listed in record order. |
| Registries.NameAndVersion | mltemplate/core/registry.py:82-86 | ValueError "No model found with run_id: ..." iff the run id is unknown. Otherwise "name/version". |
| Registries.NameOf | mltemplate/core/registry.py:76-77 | KeyError iff the run id is unknown. Otherwise the record's name. |
| Registries.FirstMaxIndex | mltemplate/core/registry.py:107-112 | Python `max` with a key: a maximal score, and the first position holding it. |
| Registries.BestModelAsWritten | mltemplate/modules/registry.py:101-112 | None iff there are no models or the id is not an experiment id. Otherwise the first record with the highest key. |
| Registries.BestIndex | mltemplate/core/registry.py:102-113 | Among the experiment's records, the first with the highest test accuracy. None iff the experiment has no record. |
| Registries.BestModel | mltemplate/core/registry.py:102-113 | None iff the id is unknown or the experiment has no models. Otherwise a record of that experiment whose test accuracy is maximal among its records. |
| Registries.BestModelAgrees | mltemplate/core/registry.py:105-112 | When the experiment has a model with test accuracy above -1.0, the code as written returns the corrected answer. |
| Registries.BestModelAsWrittenCounterexample | mltemplate/modules/registry.py:104-112 | A known experiment without models gets another experiment's model as written, but None from the corrected version. |
| Registries.BestModelAsWrittenNoModels | mltemplate/modules/registry.py:104-112 | As written, a known experiment without records always gets the first record of all (every record ties at -1.0). |
| Registries.FirstTagged | mltemplate/core/registry.py:121-123 | The first run tagged with the request id, or None iff no run is. |
| Registries.RunIdFor | mltemplate/core/registry.py:120-128 | A run id iff the first run tagged with the request id is FINISHED, and then it is that run's id. No tagged run gives None. |
| Registries.Registry.constructor | mltemplate/core/registry.py:31-40 | The fields hold a fresh snapshot of models and experiments. |
| Registries.Registry.FetchModelsInfo | mltemplate/modules/registry.py:46-65 | The nested loops produce exactly the models snapshot, or the first error raised. |
| Registries.Registry.FetchExperimentsInfo | mltemplate/modules/registry.py:67-73 | The loop produces exactly the experiments snapshot. |
| Registries.Registry.Refresh | mltemplate/modules/registry.py:41-44 | On success both fields are replaced by fresh snapshots. When a fetch raises, nothing changes. |
| Registries.Registry.ModelName | mltemplate/modules/registry.py:75-76 | KeyError for an unknown run id, otherwise the model name. |
| Registries.Registry.ModelVersions | mltemplate/modules/registry.py:78-79 | `VersionsNamed` over the snapshot's records: a version is listed iff a record with that name has it, in record order (`VersionsNamedConcat`). |
| Registries.Registry.ModelNameAndVersion | mltemplate/modules/registry.py:81-85 | "name/version", or ValueError for an unknown run id. |
| Registries.Registry.ExperimentNames | mltemplate/modules/registry.py:87-90 | One name per experiment id, in the same order as the ids. |
| Registries.Registry.ExperimentIds | mltemplate/modules/registry.py:92-95 | The experiment ids in insertion order. |
| Registries.Registry.BestModelForExperiment | mltemplate/modules/registry.py:101-112 | Refreshes first, then answers with the corrected best model over the refreshed snapshot. A failing refresh is reported. |
| Registries.Registry.RunIdFromRequestId | mltemplate/modules/registry.py:119-127 | The early-return scan equals `RunIdFor`: the first tagged run decides, and only a FINISHED one yields its run id. |
| MLFlowHelper.KeptExperiments | mltemplate/core/registry.py:141-147 | Never more experiments than fetched. |
| MLFlowHelper.KeptExperimentsMembers | mltemplate/core/registry.py:145 | An experiment is listed iff it was fetched and is not "Default", unless Default is included. |
| MLFlowHelper.KeptExperimentsAll | mltemplate/core/registry.py:145 | With include_default, or without any "Default", the listing is the whole fetch. |
| MLFlowHelper.KeptExperimentsConcat | mltemplate/core/registry.py:144-146 | Filtering keeps relative order: filtering a concatenation concatenates the filtered parts. |
| MLFlowHelper.FetchExperiments | mltemplate/core/registry.py:141-147 | The append loop yields exactly the kept experiments. |
| MLFlowHelper.IdsOf | mltemplate/core/registry.py:158 | The ids of the experiments, in order. |
| MLFlowHelper.SearchedIds | mltemplate/core/registry.py:151-158 | One name gives its id. A list gives the ids of its names in order. None gives the ids of the listed experiments. |
| MLFlowHelper.Summaries | mltemplate/core/registry.py:160-162 | One (run id, metrics) summary per run, in order. |
| MLFlowHelper.FetchRuns | mltemplate/core/registry.py:149-163 | The summaries of the runs found for exactly the resolved experiment ids. |
| MLFlowHelper.ModelEntries | mltemplate/core/registry.py:170-172 | One (model, version, run id) entry per fetched version, in order. |
| MLFlowHelper.FetchModels | mltemplate/core/registry.py:165-173 | The nested append loops yield one entry per (registered model, version), in fetch order. |
| ModelCache.Retrieve | mltemplate/backend/deployment/deployment_server.py:49-57 | The named entry if present, else the default one if present, else nothing. |
| ModelCache.Underspecified | mltemplate/backend/deployment/deployment_server.py:75-78 | False iff a run id is given or both model and version are. |
| ModelCache.RetrieveFromCache | mltemplate/backend/gateway/gateway_server.py:80-88 | What is found is stored under the given or the default name. |
| Conversions.SwapRB | mltemplate/utils/conversions.py:141 | Same dtype and shape. The first and third channel of every pixel with three or more channels are exchanged, and other pixels are unchanged. |
| Conversions.SwapRBInvolution | mltemplate/utils/conversions.py:194-196 | Swapping twice restores the array (BGR to RGB undoes RGB to BGR). |
| Conversions.ToArray | mltemplate/utils/conversions.py:135 | The same pixels. L is a two-dimensional integer array, RGB and RGBA have 3 and 4 channels, and "1" is a two-dimensional bool array. |
| Conversions.FromArray | mltemplate/utils/conversions.py:191 | `PIL.Image.fromarray`: succeeds iff the layout has a mode and a size. That means a 1-D or 2-D bool, integer or float array, or an integer array with 3 or 4 channels. Other layouts raise TypeError "Cannot handle this data type: <typekey>", and a 0-D array raises IndexError. On success the pixels are kept, a 1-D array is one column wide, and the mode is "1", "F", L, RGB or RGBA by dtype and channels. |
| Conversions.ByteArray | mltemplate/utils/conversions.py:180-181 | Shape and pixels are kept. A float array becomes an integer array, any other keeps its dtype. |
| Conversions.ToBytes | mltemplate/utils/conversions.py:180-181 | A float array becomes an integer array of the same shape. |
| Conversions.NdarrayToPil | mltemplate/utils/conversions.py:155-197 | AssertionError for an unknown dtype and for a channel count other than 1, 3 or 4. Otherwise it succeeds iff (the array has one channel, is bool, or the format is "RGB" or "BGR") and `fromarray` has a mode for the byte array. When only the latter fails, the error is fromarray's: TypeError with the typekey, or IndexError for a 0-D array. It keeps the pixel count. |
| Conversions.PilToNdarray | mltemplate/utils/conversions.py:120-152 | An array iff the format is "L", "RGB" or "BGR". |
| Conversions.PilToNdarrayChannels | mltemplate/utils/conversions.py:132-152 | "L" gives one channel. Otherwise an image with alpha gives 4 channels and one without gives 3. |
| Conversions.ConvertedIsAccepted | mltemplate/utils/conversions.py:120-197 | Every array pil_to_ndarray makes in "RGB" or "BGR" is accepted back by ndarray_to_pil in the same format. |
| Conversions.NdarrayRoundTrip | mltemplate/utils/conversions.py:120-191 | An RGB or RGBA image survives ndarray_to_pil(pil_to_ndarray(image)) unchanged. |
| Conversions.Cv2RoundTrip | mltemplate/utils/conversions.py:200-243 | An RGB or RGBA image survives cv2_to_pil(pil_to_cv2(image)) unchanged. |
| Conversions.PassThrough | mltemplate/utils/conversions.py:190-191 | Single-channel, "RGB" and bool arrays of a layout `fromarray` handles reach PIL with unchanged pixels. |
| Conversions.TrailingSingleChannelRejected | mltemplate/utils/conversions.py:185-191 | An (H, W, 1) array passes the channel check but fails with fromarray's TypeError, whose typekey is (1, 1, 1) with the uint8 or bool typestr, in any format. |
| Conversions.OneDimensionalColumn | mltemplate/utils/conversions.py:185-191 | A 1-D array counts as one channel and becomes a single-column L (or "1") image with its pixels, in any format. |
| Conversions.ZeroDimensionalRejected | mltemplate/utils/conversions.py:185-191 | A 0-D array passes every check of ndarray_to_pil and fails with fromarray's IndexError. |
| Conversions.BoolColourRejected | mltemplate/utils/conversions.py:190-191 | A bool array with 3 or 4 channels skips the format check but fails with fromarray's TypeError, whose typekey is (1, 1, C) with the bool typestr. |
| Conversions.PilToCv2 | mltemplate/utils/conversions.py:200-220 | The image converted to RGB, or to RGBA when it has alpha, as an array with red and blue exchanged. |
| Conversions.Cv2ToPil | mltemplate/utils/conversions.py:223-243 | Succeeds iff the dtype is known, there are 1, 3 or 4 channels and `fromarray` handles the layout. A colour array comes back with red and blue exchanged, and a single-channel one unchanged. |
| Conversions.BgrReordered | mltemplate/utils/conversions.py:192-196 | A BGR(A) array reaches PIL with red and blue exchanged in every pixel. |
| Conversions.TwoChannelsRejected | mltemplate/utils/conversions.py:185-189 | A two-channel array is rejected in any format. |
| Conversions.UnknownFormatRejected | mltemplate/utils/conversions.py:197 | A three-channel array in a format other than RGB or BGR is rejected. |
| DeploymentServer.LoadKey | mltemplate/backend/deployment/deployment_server.py:75-87 | An underspecified request gets HTTP 400 with the fixed message. A run id gets "name/version" from the registry, or HTTP 400 when the run id is unknown. Otherwise the key is "model/version". |
| DeploymentServer.ClassifyFormat | mltemplate/backend/deployment/deployment_server.py:123-126 | "L" iff the mode is L or LA, else "RGB". |
| DeploymentServer.ClassifyFormatConverts | mltemplate/backend/deployment/deployment_server.py:122-127 | The chosen format always converts to an array. |
| DeploymentServer.Server.constructor | mltemplate/backend/deployment/deployment_server.py:41-47 | No model loaded. MNIST is the only dataset and the default one. |
| DeploymentServer.Server.RetrieveModel | mltemplate/backend/deployment/deployment_server.py:49-57 | The named model if loaded, else the default one, else ValueError "No model loaded or given.". |
| DeploymentServer.Server.RetrieveDataset | mltemplate/backend/deployment/deployment_server.py:59-67 | The same lookup for datasets. It always succeeds while MNIST is loaded as the default. |
| DeploymentServer.Server.LoadModel | mltemplate/backend/deployment/deployment_server.py:72-93 | On an invalid request, or when loading "models:/<key>" fails, the error is returned and neither the cache nor the default changes. Otherwise the loaded model is cached under the key, and the key becomes the default. |
| DeploymentServer.Server.ClassifyImage | mltemplate/backend/deployment/deployment_server.py:116-130 | Fails iff no model resolves. Otherwise it uses the resolved model on the image converted in the chosen format. |
| DeploymentServer.LoadTwice | mltemplate/backend/deployment/deployment_server.py:72-93 | After two loads the last one is the default, and a named lookup still finds the first. |
| DeploymentServer.NothingLoaded | mltemplate/backend/deployment/deployment_server.py:49-67 | Before any load, model lookups fail while dataset lookups give MNIST. |
| DeploymentServer.LoadFailureKeepsDefault | mltemplate/backend/deployment/deployment_server.py:89-91 | A load that fails after a successful one reports the loader's error, and the default is still the earlier model. |
| DeploymentServer.RejectUnderspecified | mltemplate/backend/deployment/deployment_server.py:75-78 | A request with only a model name gets HTTP 400, and nothing is cached. |
| GatewayServer.LogPaths | mltemplate/backend/gateway/gateway_server.py:187-191 | The five log paths, in the fixed order. |
| GatewayServer.Existing | mltemplate/backend/gateway/gateway_server.py:193-203 | A path is kept iff it is a candidate that exists. |
| GatewayServer.ExistingExtremes | mltemplate/backend/gateway/gateway_server.py:193-203 | With all candidates present all are kept in order; with none, the list is empty. |
| GatewayServer.ExistingConcat | mltemplate/backend/gateway/gateway_server.py:193-203 | Filtering a concatenation concatenates the filtered parts, so kept paths stay in candidate order. |
| GatewayServer.DebugQuestion | mltemplate/backend/gateway/gateway_server.py:213 | The payload's text, or the default debugging question. |
| GatewayServer.Server.constructor | mltemplate/backend/gateway/gateway_server.py:53-68 | The four base commands come first. "chat" and "debug" are added iff the OpenAI key does not contain the placeholder. MNIST is the default dataset and no model is loaded. |
| GatewayServer.Server.RetrieveModel | mltemplate/backend/gateway/gateway_server.py:70-78 | The named model if loaded, else the default one, else ValueError. |
| GatewayServer.Server.RetrieveDataset | mltemplate/backend/gateway/gateway_server.py:80-88 | The named dataset if loaded, else the default one, else ValueError. |
| GatewayServer.Server.Chat | mltemplate/backend/gateway/gateway_server.py:97-105 | The assistant's reply when there is one, else the fixed apology from "mltemplate". |
| GatewayServer.DebugLogFiles | mltemplate/backend/gateway/gateway_server.py:187-203 | The conditional appends yield exactly the existing log paths, in order. |
| GatewayServer.FreshGatewayLookups | mltemplate/backend/gateway/gateway_server.py:50-88 | The gateway's own model cache is never filled, so its model lookup always fails, while the dataset lookup gives MNIST. |
| GatewayServer.PlaceholderGateway | mltemplate/backend/gateway/gateway_server.py:59-64 | With the placeholder key only the four base commands are offered, and chat apologises. |
| TrainingServer.ArgumentString | mltemplate/backend/training/training_server.py:46 | The payload's arguments followed by ` request_id="<id>"`, with None printed for a missing id. |
| TrainingServer.RequestIdText | mltemplate/backend/training/training_server.py:46 | The f-string text of the request id: the id itself, or "None". |
| TrainingServer.FirstIndex | mltemplate/backend/training/training_server.py:50 | The first occurrence of the element. |
| TrainingServer.RemoveFirst | mltemplate/backend/training/training_server.py:50 | `list.remove`: only the first occurrence is dropped, and the rest is kept in order. |
| TrainingServer.Arranged | mltemplate/backend/training/training_server.py:47-51 | "run", "train", then the tokens. The first "--multirun" is moved last, with the other tokens in order. Nothing is added or lost (same multiset). |
| TrainingServer.BuildArguments | mltemplate/backend/training/training_server.py:47-51 | The in-place list building yields the arranged vector. |
| TrainingServer.TrainBackgroundTask | mltemplate/backend/training/training_server.py:42-59 | When `shlex.split` raises, its ValueError is raised and nothing runs. Otherwise it runs "rye" followed by the arranged vector of the split argument string, and fails with CalledProcessError iff the exit code is non-zero. |
| TrainingServer.StartTrainingRun | mltemplate/backend/training/training_server.py:65-71 | Queues the task and returns the fixed acknowledgement at once. |
| TrainingServer.DefaultArgumentString | mltemplate/backend/training/types.py:8-9 | The default payload gives `--config-name train.yaml model=mlp dataset=mnist request_id="None"`. |
| TrainingServer.MultirunMovedLast | mltemplate/backend/training/training_server.py:49-51 | A "--multirun" after other tokens ends up last. The tokens before and after it keep their order. |
| DiscordClient.NumChunks | mltemplate/backend/discord/discord_client.py:119 | max(ceil(n/2000), 1): at least one chunk. The chunks hold n characters and one fewer chunk would not. |
| DiscordClient.Slice | mltemplate/backend/discord/discord_client.py:121-123 | Python slicing with clamped bounds: never longer than end - start, and exactly that within the text. |
| DiscordClient.Chunks | mltemplate/backend/discord/discord_client.py:118-123 | One chunk per index of the loop. |
| DiscordClient.ChunkSizes | mltemplate/backend/discord/discord_client.py:120-123 | Every chunk holds at most 2000 characters, all but the last exactly 2000. The last is empty only for an empty text. |
| DiscordClient.ChunksConcat | mltemplate/backend/discord/discord_client.py:293-298 | Sending the chunks in order delivers exactly the text. |
| DiscordClient.EmptyTextOneChunk | mltemplate/backend/discord/discord_client.py:294-298 | An empty text is sent as one empty chunk. |
| DiscordClient.Route | mltemplate/backend/discord/discord_client.py:105-137 | First match decides: own message → ignore; a command prefix → commands; a DM → chat; a guild message containing "mltemplate" in any case → help reply; otherwise nothing. Each action holds iff its conditions hold. |
| DiscordClient.HasCommandPrefix | mltemplate/backend/discord/discord_client.py:109 | True iff the content starts with one of the prefixes, so never with no prefixes. |
| DiscordClient.CommandPrefixes | mltemplate/backend/discord/discord_client.py:49 | The given prefixes, or [">", "mltemplate "]. |
| DiscordClient.MentionGetsHelp | mltemplate/backend/discord/discord_client.py:137 | "Hi MLtemplate" in a guild gets the help reply, so the mention is case-insensitive. |
| DiscordClient.PrefixedMentionIsCommand | mltemplate/backend/discord/discord_client.py:109-111 | "mltemplate ..." is a command under the default prefixes, in a guild or a DM. |
| DiscordClient.DirectMessageChats | mltemplate/backend/discord/discord_client.py:114-117 | A DM from someone else without a prefix always goes to chat. |
| DiscordClient.LoadModelCommand | mltemplate/backend/discord/discord_client.py:248-255 | Rejected with the fixed message, and no gateway call, iff (model or version is None) and the run id is None. Otherwise the arguments are forwarded unchanged, and the success message is sent iff the gateway call returns (the gateway client raises on a non-200 status, mltemplate/backend/gateway/connection_client.py:84-85). |
| DiscordClient.LoadModelArguments | mltemplate/backend/discord/discord_client.py:248-255 | A run id alone is forwarded. A model without a version is rejected. A forwarded request whose gateway call fails sends no confirmation. |

## Left out

- Network and HTTP: the FastAPI routing, the connection clients and `requests`. Handlers are modelled by the logic they run.
- The gateway's `/models`, `/experiments`, `/best-model-for-experiment`, `/load-model`, `/classify-id`, `/classify-image`, `/train` and `/training-complete` forward to the registry or to the other servers. Only the registry operations and the servers' own logic are modelled.
- MLflow calls (`search_*`, `get_run`, `get_experiment_by_name`, `pyfunc.load_model`) and the `json.loads` of the "model" parameter are not modelled. Their results are inputs: runs arrive with decoded parameters, and the model loader is a function that returns the loaded handle or the message of the exception it raises.
- `experiment_id` and `best_model_for_experiment_name` are not modelled. They are a single MLflow lookup by name followed by `best_model_for_experiment`.
- `Registries.ModelRecord`: the version number is kept as the string `str(version.version)` produces. The parameter values are kept as strings rather than JSON values.
- `Registries.BestModel` (and `Registries.Registry.BestModelForExperiment`, which answers with it): the corrected behaviour, which the model uses, ranks records by test accuracy directly. It does not need the -1.0 sentinel. It agrees with the code when the experiment has a model scoring above -1.0 (`Registries.BestModelAgrees`).
- `Registries.Registry.constructor`: it requires a successful fetch. In the source a failing fetch raises and no registry exists.
- The OpenAI assistant (`modules/gpt.py`) is a function parameter. The text of the debug instructions is not modelled.
- Discord I/O (async handlers, replies, file uploads, image attachments) is not modelled. Neither are `check_training_jobs` or the shared `training_requests` list it mutates while iterating. The `model_summary` and `list_*` tables depend on float `.4f` formatting and are not modelled.
- PNG and base64 codecs (`pil_to_ascii`, `ascii_to_pil`, `pil_to_bytes`, `bytes_to_pil`) and `pil_to_tensor`/`tensor_to_pil` are library codecs or float scaling.
- `Conversions.ToBytes`: the float `* 255` scaling of values is not modelled, only the dtype change.
- `Conversions.PilToNdarray`: PIL's `convert` is a function parameter. Its colour formulas are not modelled, and the lemmas assume it yields the requested mode.
- `classify-id` and the `argmax` of the logits need datasets and torch models, which are not modelled.
- Concurrency: the background task queue of the training server runs nothing here. `StartTrainingRun` only records the queued payload.
- The class-level `loaded_models` dict is shared by all instances of a server class in the source, since `load_model` mutates it in place. The model keeps it per instance. `default_model` is assigned through `self` (deployment_server.py:90) and so is per instance in the source too.
- `TimerCollections.TimerCollection`: it holds each timer's state as a value rather than a `Timer` object. Aliasing of a timer object returned to a caller is not modelled.
- The clock is an integer argument. Float timestamps and the `__str__` formatting of timers are not modelled.
- `Text.Lower`: it lowers ASCII letters only. Python's `str.lower` also handles other scripts.
- `Config.ConfigTextDoubleQuoted`: `as_dict` (mltemplate/core/config.py:61-62) passes this text to `json.loads`. Parsing it is not modelled, and the text is JSON only when no value also holds a double quote or a backslash.
- `DiscordClient.LoadModelCommand`: the gateway call is a predicate (true iff it returns). The HTTP status and the exception's content are not modelled.
- `Config.ConfigText`: it renders keys and values as plain quoted strings. Python's repr escapes of backslashes and quotes inside values are not modelled.
- `Config.ConfigPath`: the module's directory is an argument. Resolving it from `os.getcwd()` and `__file__` with `os.path.realpath` is not modelled.
- `Conversions.FromArray`: all integer arrays are taken as 8-bit and all float arrays as 32-bit, both for the mode and for the typestr in the TypeError message. Pillow also rejects 2-D integer arrays of some other widths, and it maps 16- and 32-bit ones to other modes.
- `Config.Load`: the INI parser and `${}` interpolation are not modelled. The parsed sections are an input, and a "~" value is expanded with the home directory given as an argument.
- `dynamic_instantiation` (import and instantiate) is not modelled beyond splitting the target.
- The `shlex.split` tokenisation is a function parameter. It returns the tokens, or the message of the ValueError it raises on input it cannot tokenise. Which strings those are (an unclosed quotation, a trailing backslash) is not modelled.

## Findings

| source | as written | input that shows it | evidently intended | confidence | as-written member | corrected member |
|---|---|---|---|---|---|---|
| mltemplate/modules/registry.py:101-112 (same code at mltemplate/core/registry.py:102-113) | `max` over all records, ranking other experiments' records at -1.0. A known experiment without models therefore gets the first record of some other experiment. | One record of experiment "1", experiment ids ["1", "2"], query "2": the record of experiment "1" is returned. | None when the experiment has no models; otherwise its record with the highest test accuracy. | not executed | Registries.BestModelAsWritten (shown by Registries.BestModelAsWrittenCounterexample and Registries.BestModelAsWrittenNoModels) | Registries.BestModel |
