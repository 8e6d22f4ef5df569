/**
 * mltemplate/modules/registry.py (and the identical Registry class in mltemplate/core/registry.py):
 * a snapshot of the MLflow tracking server's registered models and experiments, and queries over it.
 * Whatever the MLflow client returns is passed in as a parameter.
 */
module Registries {
  import opened Wrappers
  import opened Snapshots

  /** What `search_experiments` yields for one experiment. */
  datatype Experiment = Experiment(experimentId: string, name: string)

  /**
   * What `get_run` yields for a model version's run: its experiment, its "dataset_name" parameter
   * and its "model" parameter (already decoded from JSON), when present, and its metrics.
   */
  datatype RunData = RunData(experimentId: string, datasetName: Option<string>,
                             modelParams: Option<map<string, string>>, metrics: map<string, real>)

  datatype ModelVersion = ModelVersion(version: string, status: string, runId: string, run: RunData)

  /** A registered model with the versions `search_model_versions` finds for its name. */
  datatype RegisteredModel = RegisteredModel(name: string, versions: seq<ModelVersion>)

  /** One entry of the models snapshot. */
  datatype ModelRecord = ModelRecord(name: string, version: string, dataset: string, status: string,
                                     trainAcc: real, valAcc: real, testAcc: real,
                                     params: map<string, string>, experimentId: string, runId: string)

  /** What `search_runs` yields for one run. */
  datatype Run = Run(runId: string, status: string, tags: map<string, string>, metrics: map<string, real>)

  datatype RegistryError = KeyError(message: string) | ValueError(message: string)

  /** `metrics.get(name, 0.0)`. */
  function Metric(metrics: map<string, real>, name: string): (x: real)
    ensures name in metrics ==> x == metrics[name]
    ensures name !in metrics ==> x == 0.0
  {
    if name in metrics then metrics[name] else 0.0
  }

  /** The "model" parameters without the keys "_target_" and "name". */
  function KeptParams(p: map<string, string>): (q: map<string, string>)
    ensures q.Keys == p.Keys - {"_target_", "name"}
    ensures forall k :: k in q ==> q[k] == p[k]
  {
    map k | k in p && k != "_target_" && k != "name" :: p[k]
  }

  /** The version's run has both parameters the record is built from. */
  predicate Complete(v: ModelVersion)
  {
    v.run.modelParams.Some? && v.run.datasetName.Some?
  }

  /** The record for one version; a run without a "model" or a "dataset_name" parameter raises KeyError. */
  function MakeRecord(name: string, v: ModelVersion): (r: Result<ModelRecord, RegistryError>)
    ensures r.Success? <==> Complete(v)
    ensures r.Success? ==> r.value.runId == v.runId && r.value.name == name && r.value.version == v.version
    ensures r.Success? ==> "_target_" !in r.value.params && "name" !in r.value.params
  {
    if v.run.modelParams.None? then Failure(KeyError("'model'"))
    else if v.run.datasetName.None? then Failure(KeyError("'dataset_name'"))
    else Success(ModelRecord(name, v.version, v.run.datasetName.value, v.status,
                             Metric(v.run.metrics, "train_acc_epoch"), Metric(v.run.metrics, "val_acc_epoch"),
                             Metric(v.run.metrics, "test_acc_epoch"), KeptParams(v.run.modelParams.value),
                             v.run.experimentId, v.runId))
  }

  /** Every (registered model name, version) pair, in the nested fetch order. */
  function Entries(registered: seq<RegisteredModel>): (es: seq<(string, ModelVersion)>)
  {
    if registered == [] then []
    else Entries(registered[..|registered| - 1]) + EntriesOf(registered[|registered| - 1])
  }

  function EntriesOf(rm: RegisteredModel): (es: seq<(string, ModelVersion)>)
    ensures |es| == |rm.versions|
    ensures forall j :: 0 <= j < |es| ==> es[j] == (rm.name, rm.versions[j])
  {
    seq(|rm.versions|, j requires 0 <= j < |rm.versions| => (rm.name, rm.versions[j]))
  }

  /** The records of all entries in order, or the first entry's failure. */
  function Records(es: seq<(string, ModelVersion)>): (r: Result<seq<ModelRecord>, RegistryError>)
    ensures r.Success? ==> |r.value| == |es|
  {
    if es == [] then Success([])
    else
      var init := es[..|es| - 1];
      match Records(init)
      case Failure(e) => Failure(e)
      case Success(rs) =>
        match MakeRecord(es[|es| - 1].0, es[|es| - 1].1)
        case Failure(e) => Failure(e)
        case Success(rec) => Success(rs + [rec])
  }

  /** Each record paired with its run id. */
  function ByRunId(rs: seq<ModelRecord>): (ps: seq<(string, ModelRecord)>)
    ensures |ps| == |rs|
    ensures forall i :: 0 <= i < |rs| ==> ps[i] == (rs[i].runId, rs[i])
  {
    seq(|rs|, i requires 0 <= i < |rs| => (rs[i].runId, rs[i]))
  }

  /** `_fetch_models_info`: the models snapshot, each record assigned under its run id in fetch order. */
  function ModelsSnapshot(registered: seq<RegisteredModel>): (r: Result<OrderedMap<ModelRecord>, RegistryError>)
    ensures r.Success? <==> forall k, j :: 0 <= k < |registered| && 0 <= j < |registered[k].versions| ==>
                                             Complete(registered[k].versions[j])
  {
    ModelsFromSucceeds(Entries(registered));
    EntriesComplete(registered);
    ModelsFrom(Entries(registered))
  }

  /** Every fetched entry is complete exactly when every version of every registered model is. */
  lemma {:induction false} EntriesComplete(registered: seq<RegisteredModel>)
    ensures (forall i :: 0 <= i < |Entries(registered)| ==> Complete(Entries(registered)[i].1))
        <==> forall k, j :: 0 <= k < |registered| && 0 <= j < |registered[k].versions| ==> Complete(registered[k].versions[j])
  {
    if registered != [] {
      var init := registered[..|registered| - 1];
      var last := registered[|registered| - 1];
      EntriesComplete(init);
      var a := Entries(init);
      var b := EntriesOf(last);
      var es := Entries(registered);
      assert es == a + b;
      assert forall k :: 0 <= k < |init| ==> init[k] == registered[k];
      if forall i :: 0 <= i < |es| ==> Complete(es[i].1) {
        assert forall i :: 0 <= i < |a| ==> es[i] == a[i];
        forall k, j | 0 <= k < |registered| && 0 <= j < |registered[k].versions|
          ensures Complete(registered[k].versions[j])
        {
          if k == |registered| - 1 {
            assert es[|a| + j] == b[j];
          }
        }
      } else {
        var i :| 0 <= i < |es| && !Complete(es[i].1);
        if i >= |a| {
          assert es[i] == b[i - |a|];
        } else {
          assert es[i] == a[i];
        }
      }
    }
  }

  /** The snapshot built from the given entries, or the first entry's failure. */
  function ModelsFrom(es: seq<(string, ModelVersion)>): Result<OrderedMap<ModelRecord>, RegistryError>
  {
    match Records(es)
    case Failure(e) => Failure(e)
    case Success(rs) => Success(FromPairs(ByRunId(rs)))
  }

  /** The (id, name) pairs of the experiments not named "Default". */
  function ExperimentPairs(exps: seq<Experiment>): (ps: seq<(string, string)>)
    ensures forall i :: 0 <= i < |ps| ==> ps[i].1 != "Default"
    ensures forall i :: 0 <= i < |ps| ==> Experiment(ps[i].0, ps[i].1) in exps
  {
    if exps == [] then []
    else
      var e := exps[|exps| - 1];
      ExperimentPairs(exps[..|exps| - 1]) + (if e.name != "Default" then [(e.experimentId, e.name)] else [])
  }

  /** `_fetch_experiments_info`: the experiments snapshot, experiment name by experiment id. */
  function ExperimentsSnapshot(exps: seq<Experiment>): (m: OrderedMap<string>)
    ensures forall id :: id in m.values <==> exists e :: e in exps && e.name != "Default" && e.experimentId == id
    ensures forall id :: id in m.values ==> m.values[id] != "Default" && Experiment(id, m.values[id]) in exps
  {
    var m := FromPairs(ExperimentPairs(exps));
    ExperimentPairsMeaning(exps, m);
    m
  }

  lemma EntriesSnoc(registered: seq<RegisteredModel>, i: nat, j: nat)
    requires i < |registered| && j < |registered[i].versions|
    ensures Entries(registered[..i]) + EntriesOf(RegisteredModel(registered[i].name, registered[i].versions[..j + 1]))
         == Entries(registered[..i]) + EntriesOf(RegisteredModel(registered[i].name, registered[i].versions[..j]))
            + [(registered[i].name, registered[i].versions[j])]
  {
  }

  lemma RecordsSnoc(es: seq<(string, ModelVersion)>, e: (string, ModelVersion))
    ensures Records(es + [e]) ==
      match Records(es)
      case Failure(err) => Failure(err)
      case Success(rs) =>
        match MakeRecord(e.0, e.1)
        case Failure(err) => Failure(err)
        case Success(rec) => Success(rs + [rec])
  {
    assert (es + [e])[..|es|] == es;
  }

  lemma ExperimentPairsSnoc(exps: seq<Experiment>, i: nat)
    requires i < |exps|
    ensures ExperimentPairs(exps[..i + 1]) ==
      ExperimentPairs(exps[..i]) + (if exps[i].name != "Default" then [(exps[i].experimentId, exps[i].name)] else [])
  {
    assert exps[..i + 1][..i] == exps[..i];
  }

  /** Records succeed exactly when every entry is complete, and then hold one record per entry. */
  lemma {:induction false} RecordsMeaning(es: seq<(string, ModelVersion)>)
    ensures Records(es).Success? <==> forall i :: 0 <= i < |es| ==> Complete(es[i].1)
    ensures Records(es).Success? ==>
      forall i :: 0 <= i < |es| ==> Success(Records(es).value[i]) == MakeRecord(es[i].0, es[i].1)
  {
    if es != [] {
      var init := es[..|es| - 1];
      RecordsMeaning(init);
      if Records(init).Success? && Complete(es[|es| - 1].1) {
        forall i | 0 <= i < |es|
          ensures Success(Records(es).value[i]) == MakeRecord(es[i].0, es[i].1)
        {
          if i < |init| {
            assert es[i] == init[i];
          }
        }
      } else if Records(init).Failure? {
        var i :| 0 <= i < |init| && !Complete(init[i].1);
        assert es[i] == init[i];
      }
    }
  }

  /** Once a prefix of the entries fails, every extension fails with the same error. */
  lemma {:induction false} RecordsFailureSticks(es: seq<(string, ModelVersion)>, fs: seq<(string, ModelVersion)>)
    requires Records(es).Failure?
    ensures Records(es + fs) == Records(es)
  {
    if fs == [] {
      assert es + fs == es;
    } else {
      var init := fs[..|fs| - 1];
      RecordsFailureSticks(es, init);
      assert es + fs == (es + init) + [fs[|fs| - 1]];
      RecordsSnoc(es + init, fs[|fs| - 1]);
    }
  }

  /** The models snapshot is built exactly when every fetched version's run has both parameters. */
  lemma ModelsFromSucceeds(es: seq<(string, ModelVersion)>)
    ensures ModelsFrom(es).Success? <==> forall i :: 0 <= i < |es| ==> Complete(es[i].1)
  {
    RecordsMeaning(es);
  }

  /** A built models snapshot holds exactly the fetched run ids. */
  lemma ModelsFromKeys(es: seq<(string, ModelVersion)>)
    requires ModelsFrom(es).Success?
    ensures forall k :: k in ModelsFrom(es).value.values <==> exists i :: 0 <= i < |es| && es[i].1.runId == k
  {
    RecordsMeaning(es);
    var rs := Records(es).value;
    var ps := ByRunId(rs);
    FromPairsDomain(ps);
    forall i | 0 <= i < |es|
      ensures ps[i].0 == es[i].1.runId
    {
      assert Success(rs[i]) == MakeRecord(es[i].0, es[i].1);
    }
  }

  /** Every record of a built models snapshot is stored under its own run id and keeps no "_target_" or "name" parameter. */
  lemma ModelsFromRecords(es: seq<(string, ModelVersion)>)
    requires ModelsFrom(es).Success?
    ensures var m := ModelsFrom(es).value;
      forall k :: k in m.values ==>
        (m.values[k].runId == k && "_target_" !in m.values[k].params && "name" !in m.values[k].params)
  {
    RecordsMeaning(es);
    var rs := Records(es).value;
    var ps := ByRunId(rs);
    FromPairsValues(ps);
    forall k | k in FromPairs(ps).values
      ensures FromPairs(ps).values[k].runId == k
      ensures "_target_" !in FromPairs(ps).values[k].params && "name" !in FromPairs(ps).values[k].params
    {
      var i :| 0 <= i < |ps| && ps[i] == (k, FromPairs(ps).values[k]);
      assert Success(rs[i]) == MakeRecord(es[i].0, es[i].1);
    }
  }

  /** A run id fetched for more than one version holds the record of the last of them. */
  lemma ModelsFromLastWins(es: seq<(string, ModelVersion)>, i: nat)
    requires ModelsFrom(es).Success?
    requires i < |es|
    requires forall j :: i < j < |es| ==> es[j].1.runId != es[i].1.runId
    ensures es[i].1.runId in ModelsFrom(es).value.values
    ensures MakeRecord(es[i].0, es[i].1) == Success(ModelsFrom(es).value.values[es[i].1.runId])
  {
    RecordsMeaning(es);
    var rs := Records(es).value;
    var ps := ByRunId(rs);
    forall j | i < j < |es|
      ensures ps[j].0 != ps[i].0
    {
      assert Success(rs[j]) == MakeRecord(es[j].0, es[j].1);
      assert Success(rs[i]) == MakeRecord(es[i].0, es[i].1);
    }
    FromPairsLastWins(ps, i);
  }

  /** Keys of the models snapshot appear in the order their run ids are first fetched. */
  lemma ModelsFromOrder(es: seq<(string, ModelVersion)>)
    requires ModelsFrom(es).Success?
    ensures var ps := ByRunId(Records(es).value); var m := ModelsFrom(es).value;
      forall a, b :: 0 <= a < b < |m.keys| ==> FirstIndexOf(ps, m.keys[a]) < FirstIndexOf(ps, m.keys[b])
  {
    FromPairsOrder(ByRunId(Records(es).value));
  }

  /**
   * The map built from the experiment pairs holds exactly the ids of the experiments not named
   * "Default", each with the name of the last such experiment fetched with that id.
   */
  lemma ExperimentPairsMeaning(exps: seq<Experiment>, m: OrderedMap<string>)
    requires m == FromPairs(ExperimentPairs(exps))
    ensures forall id :: id in m.values <==> exists e :: e in exps && e.name != "Default" && e.experimentId == id
    ensures forall id :: id in m.values ==> m.values[id] != "Default" && Experiment(id, m.values[id]) in exps
  {
    var ps := ExperimentPairs(exps);
    FromPairsDomain(ps);
    FromPairsValues(ps);
    forall id
      ensures id in m.values <==> exists e :: e in exps && e.name != "Default" && e.experimentId == id
    {
      if exists e :: e in exps && e.name != "Default" && e.experimentId == id {
        var e :| e in exps && e.name != "Default" && e.experimentId == id;
        ExperimentPairsHas(exps, e);
      }
    }
  }

  lemma {:induction false} ExperimentPairsHas(exps: seq<Experiment>, e: Experiment)
    requires e in exps && e.name != "Default"
    ensures exists i :: 0 <= i < |ExperimentPairs(exps)| && ExperimentPairs(exps)[i].0 == e.experimentId
  {
    var init := exps[..|exps| - 1];
    var ps := ExperimentPairs(exps);
    if e == exps[|exps| - 1] {
      assert ps[|ps| - 1].0 == e.experimentId;
    } else {
      assert e in init;
      ExperimentPairsHas(init, e);
      var i :| 0 <= i < |ExperimentPairs(init)| && ExperimentPairs(init)[i].0 == e.experimentId;
      assert ps[i].0 == e.experimentId;
    }
  }

  /** `model_versions`: the versions of the records with the given name, in snapshot order. */
  function VersionsNamed(rs: seq<ModelRecord>, name: string): (vs: seq<string>)
    ensures |vs| <= |rs|
    ensures forall v :: v in vs <==> exists i :: 0 <= i < |rs| && rs[i].name == name && rs[i].version == v
  {
    if rs == [] then []
    else
      var init := rs[..|rs| - 1];
      var last := rs[|rs| - 1];
      assert forall i :: 0 <= i < |init| ==> init[i] == rs[i];
      VersionsNamed(init, name) + (if last.name == name then [last.version] else [])
  }

  /** Listing the versions of a concatenation lists those of each part, in order. */
  lemma {:induction false} VersionsNamedConcat(a: seq<ModelRecord>, b: seq<ModelRecord>, name: string)
    ensures VersionsNamed(a + b, name) == VersionsNamed(a, name) + VersionsNamed(b, name)
  {
    if b == [] {
      assert a + b == a;
    } else {
      var init := b[..|b| - 1];
      assert (a + b)[..|a + b| - 1] == a + init;
      VersionsNamedConcat(a, init, name);
    }
  }

  /** `model_name_and_version`: "<name>/<version>" of a known run, ValueError for an unknown one. */
  function NameAndVersion(m: OrderedMap<ModelRecord>, runId: string): (r: Result<string, RegistryError>)
    ensures r.Failure? <==> runId !in m.values
    ensures r.Failure? ==> r.error == ValueError("No model found with run_id: " + runId)
    ensures r.Success? ==> r.value == m.values[runId].name + "/" + m.values[runId].version
  {
    if runId !in m.values then Failure(ValueError("No model found with run_id: " + runId))
    else Success(m.values[runId].name + "/" + m.values[runId].version)
  }

  /** `model_name`: the record's name; an unknown run id raises KeyError. */
  function NameOf(m: OrderedMap<ModelRecord>, runId: string): (r: Result<string, RegistryError>)
    ensures r.Failure? <==> runId !in m.values
    ensures r.Success? ==> r.value == m.values[runId].name
  {
    if runId !in m.values then Failure(KeyError("'" + runId + "'")) else Success(m.values[runId].name)
  }

  /** The key `max` ranks records by: the test accuracy for the wanted experiment, -1.0 otherwise. */
  function Score(rec: ModelRecord, experimentId: string): real
  {
    if rec.experimentId == experimentId then rec.testAcc else -1.0
  }

  /** Python `max` over the records with `Score` as key: the first record with the highest score. */
  function FirstMaxIndex(rs: seq<ModelRecord>, experimentId: string): (i: nat)
    requires |rs| > 0
    ensures i < |rs|
    ensures forall j :: 0 <= j < |rs| ==> Score(rs[j], experimentId) <= Score(rs[i], experimentId)
    ensures forall j :: 0 <= j < i ==> Score(rs[j], experimentId) < Score(rs[i], experimentId)
  {
    if |rs| == 1 then 0
    else
      var b := FirstMaxIndex(rs[..|rs| - 1], experimentId);
      if Score(rs[|rs| - 1], experimentId) > Score(rs[b], experimentId) then |rs| - 1 else b
  }

  /** `best_model_for_experiment` as written: the first record with the highest score. */
  function BestModelAsWritten(rs: seq<ModelRecord>, experimentIds: seq<string>, experimentId: string): (r: Option<ModelRecord>)
    ensures r.None? <==> |rs| == 0 || experimentId !in experimentIds
  {
    if |rs| == 0 || experimentId !in experimentIds then None
    else Some(rs[FirstMaxIndex(rs, experimentId)])
  }

  /** The first record of the experiment with the highest test accuracy, if the experiment has any. */
  function BestIndex(rs: seq<ModelRecord>, experimentId: string): (r: Option<nat>)
    ensures r.None? <==> forall j :: 0 <= j < |rs| ==> rs[j].experimentId != experimentId
    ensures r.Some? ==> r.value < |rs| && rs[r.value].experimentId == experimentId
    ensures r.Some? ==> forall j :: 0 <= j < |rs| && rs[j].experimentId == experimentId ==> rs[j].testAcc <= rs[r.value].testAcc
    ensures r.Some? ==> forall j :: 0 <= j < r.value && rs[j].experimentId == experimentId ==> rs[j].testAcc < rs[r.value].testAcc
  {
    if rs == [] then None
    else
      var n := |rs| - 1;
      var b := BestIndex(rs[..n], experimentId);
      if rs[n].experimentId != experimentId then b
      else if b.None? || rs[n].testAcc > rs[b.value].testAcc then Some(n)
      else b
  }

  /**
   * `best_model_for_experiment` as evidently intended: None for an unknown experiment or one without
   * models, otherwise the experiment's first model with the highest test accuracy.
   */
  function BestModel(rs: seq<ModelRecord>, experimentIds: seq<string>, experimentId: string): (r: Option<ModelRecord>)
    ensures r.None? <==> experimentId !in experimentIds || forall j :: 0 <= j < |rs| ==> rs[j].experimentId != experimentId
    ensures r.Some? ==> r.value in rs && r.value.experimentId == experimentId
    ensures r.Some? ==> forall j :: 0 <= j < |rs| && rs[j].experimentId == experimentId ==> rs[j].testAcc <= r.value.testAcc
  {
    if experimentId !in experimentIds then None
    else match BestIndex(rs, experimentId)
      case None => None
      case Some(i) => Some(rs[i])
  }

  /**
   * The two agree whenever the experiment has a model whose test accuracy beats the -1.0 given to
   * other experiments' models: then the first highest score belongs to a model of the experiment.
   */
  lemma BestModelAgrees(rs: seq<ModelRecord>, experimentIds: seq<string>, experimentId: string, k: nat)
    requires k < |rs| && rs[k].experimentId == experimentId && rs[k].testAcc > -1.0
    ensures BestModelAsWritten(rs, experimentIds, experimentId) == BestModel(rs, experimentIds, experimentId)
  {
    if experimentId in experimentIds {
      var i := FirstMaxIndex(rs, experimentId);
      var b := BestIndex(rs, experimentId).value;
      assert Score(rs[b], experimentId) == rs[b].testAcc >= rs[k].testAcc;
      assert Score(rs[i], experimentId) >= Score(rs[b], experimentId);
      assert rs[i].experimentId == experimentId;
    }
  }

  /** As written, a known experiment that has no records gets the first record of all. */
  lemma BestModelAsWrittenNoModels(rs: seq<ModelRecord>, experimentIds: seq<string>, experimentId: string)
    requires |rs| > 0 && experimentId in experimentIds
    requires forall j :: 0 <= j < |rs| ==> rs[j].experimentId != experimentId
    ensures BestModelAsWritten(rs, experimentIds, experimentId) == Some(rs[0])
  {
  }

  /** A known experiment without models gets another experiment's model from the code as written. */
  lemma BestModelAsWrittenCounterexample()
    ensures var rec := ModelRecord("MNIST-mlp", "1", "MNIST", "READY", 0.9, 0.9, 0.9, map[], "1", "run-a");
      BestModelAsWritten([rec], ["1", "2"], "2") == Some(rec)
      && BestModel([rec], ["1", "2"], "2") == None
  {
    var rec := ModelRecord("MNIST-mlp", "1", "MNIST", "READY", 0.9, 0.9, 0.9, map[], "1", "run-a");
    assert FirstMaxIndex([rec], "2") == 0;
  }

  predicate Tagged(run: Run, requestId: string)
  {
    "request_id" in run.tags && run.tags["request_id"] == requestId
  }

  /** The position of the first run tagged with the request id, if any. */
  function FirstTagged(runs: seq<Run>, requestId: string): (r: Option<nat>)
    ensures r.None? <==> forall i :: 0 <= i < |runs| ==> !Tagged(runs[i], requestId)
    ensures r.Some? ==> r.value < |runs| && Tagged(runs[r.value], requestId)
    ensures r.Some? ==> forall j :: 0 <= j < r.value ==> !Tagged(runs[j], requestId)
  {
    if runs == [] then None
    else if Tagged(runs[0], requestId) then Some(0)
    else match FirstTagged(runs[1..], requestId)
      case None => None
      case Some(i) => Some(i + 1)
  }

  /** `run_id_from_request_id`: the first tagged run decides; only a finished one yields its id. */
  function RunIdFor(runs: seq<Run>, requestId: string): (r: Option<string>)
    ensures (forall i :: 0 <= i < |runs| ==> !Tagged(runs[i], requestId)) ==> r.None?
    ensures r.Some? <==> exists i :: 0 <= i < |runs| && Tagged(runs[i], requestId) && runs[i].status == "FINISHED"
                                       && forall j :: 0 <= j < i ==> !Tagged(runs[j], requestId)
    ensures r.Some? ==> exists i :: 0 <= i < |runs| && Tagged(runs[i], requestId) && runs[i].runId == r.value
                                    && forall j :: 0 <= j < i ==> !Tagged(runs[j], requestId)
  {
    match FirstTagged(runs, requestId)
    case None => None
    case Some(i) => if runs[i].status == "FINISHED" then Some(runs[i].runId) else None
  }

  class Registry {
    var models: OrderedMap<ModelRecord>
    var experiments: OrderedMap<string>

    ghost predicate Valid()
      reads this
    {
      models.Valid() && experiments.Valid()
    }

    /** The constructor's own refresh; a fetch that raises leaves no registry, so it must succeed. */
    constructor (registered: seq<RegisteredModel>, exps: seq<Experiment>)
      requires ModelsSnapshot(registered).Success?
      ensures Valid()
      ensures models == ModelsSnapshot(registered).value && experiments == ExperimentsSnapshot(exps)
    {
      models := ModelsSnapshot(registered).value;
      experiments := ExperimentsSnapshot(exps);
    }

    /** `_fetch_models_info`: nested loops over registered models and their versions. */
    method FetchModelsInfo(registered: seq<RegisteredModel>) returns (r: Result<OrderedMap<ModelRecord>, RegistryError>)
      ensures r == ModelsSnapshot(registered)
    {
      var m: OrderedMap<ModelRecord> := Empty();
      ghost var done: seq<(string, ModelVersion)> := [];
      ghost var rs: seq<ModelRecord> := [];
      for i := 0 to |registered|
        invariant done == Entries(registered[..i])
        invariant Records(done) == Success(rs)
        invariant m == FromPairs(ByRunId(rs))
      {
        var rm := registered[i];
        for j := 0 to |rm.versions|
          invariant done == Entries(registered[..i]) + EntriesOf(RegisteredModel(rm.name, rm.versions[..j]))
          invariant Records(done) == Success(rs)
          invariant m == FromPairs(ByRunId(rs))
        {
          var v := rm.versions[j];
          EntriesSnoc(registered, i, j);
          RecordsSnoc(done, (rm.name, v));
          var rec := MakeRecord(rm.name, v);
          if rec.Failure? {
            FetchFailure(registered, i, j + 1);
            return Failure(rec.error);
          }
          FetchStep(rs, rec.value);
          m := Put(m, rec.value.runId, rec.value);
          rs := rs + [rec.value];
          done := done + [(rm.name, v)];
        }
        EntriesStep(registered, i);
      }
      assert registered[..|registered|] == registered;
      return Success(m);
    }

    /** `_fetch_experiments_info`: one loop skipping experiments named "Default". */
    method FetchExperimentsInfo(exps: seq<Experiment>) returns (r: OrderedMap<string>)
      ensures r == ExperimentsSnapshot(exps)
    {
      r := Empty();
      for i := 0 to |exps|
        invariant r == FromPairs(ExperimentPairs(exps[..i]))
      {
        ExperimentPairsSnoc(exps, i);
        if exps[i].name != "Default" {
          FromPairsSnoc(ExperimentPairs(exps[..i]), (exps[i].experimentId, exps[i].name));
          r := Put(r, exps[i].experimentId, exps[i].name);
        } else {
          assert ExperimentPairs(exps[..i]) + [] == ExperimentPairs(exps[..i]);
        }
      }
      assert exps[..|exps|] == exps;
    }

    /**
     * `refresh`: both snapshots are replaced by the fetched ones; when fetching the models raises,
     * neither field is assigned.
     */
    method Refresh(registered: seq<RegisteredModel>, exps: seq<Experiment>) returns (r: Outcome<RegistryError>)
      requires Valid()
      modifies this
      ensures Valid()
      ensures r.Pass? <==> ModelsSnapshot(registered).Success?
      ensures r.Pass? ==> models == ModelsSnapshot(registered).value && experiments == ExperimentsSnapshot(exps)
      ensures r.Fail? ==> r.error == ModelsSnapshot(registered).error
      ensures r.Fail? ==> models == old(models) && experiments == old(experiments)
    {
      var fetched := FetchModelsInfo(registered);
      if fetched.Failure? {
        return Fail(fetched.error);
      }
      models := fetched.value;
      experiments := FetchExperimentsInfo(exps);
      return Pass;
    }

    function ModelName(runId: string): (r: Result<string, RegistryError>)
      reads this
      ensures r == NameOf(models, runId)
    {
      NameOf(models, runId)
    }

    function ModelVersions(name: string): (vs: seq<string>)
      requires Valid()
      reads this
      ensures vs == VersionsNamed(Values(models), name)
    {
      VersionsNamed(Values(models), name)
    }

    function ModelNameAndVersion(runId: string): (r: Result<string, RegistryError>)
      reads this
      ensures r == NameAndVersion(models, runId)
    {
      NameAndVersion(models, runId)
    }

    /** `experiment_names` and `experiment_ids` list the same experiments in the same order. */
    function ExperimentNames(): (names: seq<string>)
      requires Valid()
      reads this
      ensures |names| == |experiments.keys|
      ensures forall i :: 0 <= i < |names| ==> names[i] == experiments.values[ExperimentIds()[i]]
    {
      Values(experiments)
    }

    function ExperimentIds(): (ids: seq<string>)
      reads this
      ensures ids == experiments.keys
    {
      experiments.keys
    }

    /**
     * `best_model_for_experiment`: refreshes, then picks from the fresh snapshot (with the
     * corrected choice; see BestModelAsWritten for the code as written).
     */
    method BestModelForExperiment(registered: seq<RegisteredModel>, exps: seq<Experiment>, experimentId: string)
      returns (r: Result<Option<ModelRecord>, RegistryError>)
      requires Valid()
      modifies this
      ensures Valid()
      ensures r.Failure? <==> ModelsSnapshot(registered).Failure?
      ensures r.Success? ==> models == ModelsSnapshot(registered).value && experiments == ExperimentsSnapshot(exps)
      ensures r.Success? ==> r.value == BestModel(Values(models), experiments.keys, experimentId)
    {
      var refreshed := Refresh(registered, exps);
      if refreshed.Fail? {
        return Failure(refreshed.error);
      }
      return Success(BestModel(Values(models), experiments.keys, experimentId));
    }

    /** `run_id_from_request_id` over the runs `search_runs` returns for the snapshot's experiments. */
    method RunIdFromRequestId(runs: seq<Run>, requestId: string) returns (r: Option<string>)
      ensures r == RunIdFor(runs, requestId)
    {
      for i := 0 to |runs|
        invariant forall j :: 0 <= j < i ==> !Tagged(runs[j], requestId)
      {
        if "request_id" in runs[i].tags && runs[i].tags["request_id"] == requestId {
          if runs[i].status == "FINISHED" {
            return Some(runs[i].runId);
          } else {
            return None;
          }
        }
      }
      return None;
    }
  }

  /** A failing prefix of the fetch decides the whole fetch's failure. */
  lemma FetchFailure(registered: seq<RegisteredModel>, i: nat, j: nat)
    requires i < |registered| && j <= |registered[i].versions|
    requires Records(Entries(registered[..i]) + EntriesOf(RegisteredModel(registered[i].name, registered[i].versions[..j]))).Failure?
    ensures ModelsSnapshot(registered)
         == Failure(Records(Entries(registered[..i]) + EntriesOf(RegisteredModel(registered[i].name, registered[i].versions[..j]))).error)
  {
    var done := Entries(registered[..i]) + EntriesOf(RegisteredModel(registered[i].name, registered[i].versions[..j]));
    EntriesPrefix(registered, i, j);
    var all := Entries(registered);
    assert all == done + all[|done|..];
    RecordsFailureSticks(done, all[|done|..]);
  }

  lemma FetchStep(rs: seq<ModelRecord>, rec: ModelRecord)
    ensures FromPairs(ByRunId(rs + [rec])) == Put(FromPairs(ByRunId(rs)), rec.runId, rec)
  {
    assert ByRunId(rs + [rec]) == ByRunId(rs) + [(rec.runId, rec)];
    FromPairsSnoc(ByRunId(rs), (rec.runId, rec));
  }

  lemma EntriesStep(registered: seq<RegisteredModel>, i: nat)
    requires i < |registered|
    ensures Entries(registered[..i + 1])
         == Entries(registered[..i]) + EntriesOf(RegisteredModel(registered[i].name, registered[i].versions[..|registered[i].versions|]))
  {
    assert registered[i].versions[..|registered[i].versions|] == registered[i].versions;
    assert registered[..i + 1][..i] == registered[..i];
  }

  lemma {:induction false} EntriesPrefix(registered: seq<RegisteredModel>, i: nat, j: nat)
    requires i < |registered| && j <= |registered[i].versions|
    ensures var es := Entries(registered[..i]) + EntriesOf(RegisteredModel(registered[i].name, registered[i].versions[..j]));
      es <= Entries(registered)
  {
    EntriesGrow(registered, i + 1);
    assert registered[..i + 1][..i] == registered[..i];
    assert Entries(registered[..i + 1]) == Entries(registered[..i]) + EntriesOf(registered[i]);
  }

  lemma {:induction false} EntriesGrow(registered: seq<RegisteredModel>, n: nat)
    requires n <= |registered|
    ensures Entries(registered[..n]) <= Entries(registered)
    decreases |registered| - n
  {
    if n < |registered| {
      EntriesGrow(registered, n + 1);
      assert registered[..n + 1][..n] == registered[..n];
    } else {
      assert registered[..n] == registered;
    }
  }
}
