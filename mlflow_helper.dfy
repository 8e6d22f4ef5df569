/**
 * The MLFlow helper class of mltemplate/core/registry.py: listings built by appending in loops.
 * The client's searches and `get_experiment_by_name` are passed in.
 */
module MLFlowHelper {
  import opened Registries

  /** Which experiments `fetch_runs` searches: one name, a list of names, or (None) all but "Default". */
  datatype RunsArgument = ByName(name: string) | ByNames(names: seq<string>) | AllExperiments

  datatype RunSummary = RunSummary(runId: string, metrics: map<string, real>)

  datatype ModelEntry = ModelEntry(model: string, version: string, runId: string)

  /** The experiments `fetch_experiments` keeps, in fetch order. */
  function KeptExperiments(exps: seq<Experiment>, includeDefault: bool): (r: seq<Experiment>)
    ensures |r| <= |exps|
  {
    if exps == [] then []
    else
      var e := exps[|exps| - 1];
      KeptExperiments(exps[..|exps| - 1], includeDefault) + (if e.name != "Default" || includeDefault then [e] else [])
  }

  /** An experiment is listed exactly when it was fetched and is not "Default" (unless that is included). */
  lemma {:induction false} KeptExperimentsMembers(exps: seq<Experiment>, includeDefault: bool)
    ensures forall e :: e in KeptExperiments(exps, includeDefault) <==> e in exps && (e.name != "Default" || includeDefault)
  {
    if exps != [] {
      var init := exps[..|exps| - 1];
      KeptExperimentsMembers(init, includeDefault);
      assert exps == init + [exps[|exps| - 1]];
    }
  }

  /** Only "Default" is ever dropped: with it included, or without any, the listing is the fetch. */
  lemma {:induction false} KeptExperimentsAll(exps: seq<Experiment>, includeDefault: bool)
    requires includeDefault || forall i :: 0 <= i < |exps| ==> exps[i].name != "Default"
    ensures KeptExperiments(exps, includeDefault) == exps
  {
    if exps != [] {
      var init := exps[..|exps| - 1];
      KeptExperimentsAll(init, includeDefault);
      assert init + [exps[|exps| - 1]] == exps;
    }
  }

  /** Dropping "Default" keeps the relative order of everything else: kept in two steps, kept as one. */
  lemma {:induction false} KeptExperimentsConcat(a: seq<Experiment>, b: seq<Experiment>, includeDefault: bool)
    ensures KeptExperiments(a + b, includeDefault) == KeptExperiments(a, includeDefault) + KeptExperiments(b, includeDefault)
  {
    if b == [] {
      assert a + b == a;
    } else {
      var init := b[..|b| - 1];
      var e := b[|b| - 1];
      var tail := if e.name != "Default" || includeDefault then [e] else [];
      KeptExperimentsConcat(a, init, includeDefault);
      assert (a + b)[..|a + b| - 1] == a + init && (a + b)[|a + b| - 1] == e;
      assert KeptExperiments(a + b, includeDefault) == KeptExperiments(a + init, includeDefault) + tail;
      assert KeptExperiments(b, includeDefault) == KeptExperiments(init, includeDefault) + tail;
    }
  }

  /** `fetch_experiments`. */
  method FetchExperiments(exps: seq<Experiment>, includeDefault: bool) returns (r: seq<Experiment>)
    ensures r == KeptExperiments(exps, includeDefault)
  {
    r := [];
    for i := 0 to |exps|
      invariant r == KeptExperiments(exps[..i], includeDefault)
    {
      assert exps[..i + 1][..i] == exps[..i];
      if exps[i].name != "Default" || includeDefault {
        r := r + [exps[i]];
      }
    }
    assert exps[..|exps|] == exps;
  }

  function IdsOf(exps: seq<Experiment>): (ids: seq<string>)
    ensures |ids| == |exps|
    ensures forall i :: 0 <= i < |exps| ==> ids[i] == exps[i].experimentId
  {
    seq(|exps|, i requires 0 <= i < |exps| => exps[i].experimentId)
  }

  /** The experiment ids `fetch_runs` searches, given how names resolve to ids. */
  function SearchedIds(arg: RunsArgument, idOf: string -> string, exps: seq<Experiment>): (ids: seq<string>)
    ensures arg.ByName? ==> ids == [idOf(arg.name)]
    ensures arg.ByNames? ==> |ids| == |arg.names| && forall i :: 0 <= i < |ids| ==> ids[i] == idOf(arg.names[i])
    ensures arg.AllExperiments? ==> ids == IdsOf(KeptExperiments(exps, false))
  {
    match arg
    case ByName(name) => [idOf(name)]
    case ByNames(names) => seq(|names|, i requires 0 <= i < |names| => idOf(names[i]))
    case AllExperiments => IdsOf(KeptExperiments(exps, false))
  }

  function Summaries(runs: seq<Run>): (r: seq<RunSummary>)
    ensures |r| == |runs|
    ensures forall i :: 0 <= i < |runs| ==> r[i] == RunSummary(runs[i].runId, runs[i].metrics)
  {
    seq(|runs|, i requires 0 <= i < |runs| => RunSummary(runs[i].runId, runs[i].metrics))
  }

  /** `fetch_runs`: resolves the argument to experiment ids, then lists one summary per run found. */
  method FetchRuns(arg: RunsArgument, idOf: string -> string, exps: seq<Experiment>, searchRuns: seq<string> -> seq<Run>)
    returns (r: seq<RunSummary>)
    ensures r == Summaries(searchRuns(SearchedIds(arg, idOf, exps)))
  {
    var ids: seq<string>;
    match arg {
      case ByName(name) =>
        ids := [idOf(name)];
      case ByNames(names) =>
        ids := seq(|names|, i requires 0 <= i < |names| => idOf(names[i]));
      case AllExperiments =>
        var kept := FetchExperiments(exps, false);
        ids := IdsOf(kept);
    }
    var runs := searchRuns(ids);
    r := [];
    for i := 0 to |runs|
      invariant r == Summaries(runs[..i])
    {
      r := r + [RunSummary(runs[i].runId, runs[i].metrics)];
    }
    assert runs[..|runs|] == runs;
  }

  function ModelEntries(es: seq<(string, ModelVersion)>): (r: seq<ModelEntry>)
    ensures |r| == |es|
    ensures forall i :: 0 <= i < |es| ==> r[i] == ModelEntry(es[i].0, es[i].1.version, es[i].1.runId)
  {
    seq(|es|, i requires 0 <= i < |es| => ModelEntry(es[i].0, es[i].1.version, es[i].1.runId))
  }

  /** `fetch_models`: one entry per (registered model, version) pair, in the nested fetch order. */
  method FetchModels(registered: seq<RegisteredModel>) returns (r: seq<ModelEntry>)
    ensures r == ModelEntries(Entries(registered))
  {
    r := [];
    for i := 0 to |registered|
      invariant r == ModelEntries(Entries(registered[..i]))
    {
      var rm := registered[i];
      for j := 0 to |rm.versions|
        invariant r == ModelEntries(Entries(registered[..i]) + EntriesOf(RegisteredModel(rm.name, rm.versions[..j])))
      {
        EntriesSnoc(registered, i, j);
        r := r + [ModelEntry(rm.name, rm.versions[j].version, rm.versions[j].runId)];
      }
      EntriesStep(registered, i);
    }
    assert registered[..|registered|] == registered;
  }
}
