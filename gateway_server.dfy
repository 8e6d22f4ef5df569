/**
 * mltemplate/backend/gateway/gateway_server.py: the command list, the gateway's own
 * named-then-default lookups, the chat fallback and the choice of log files for `debug`.
 * The GPT assistant is passed in as a function from question to reply.
 */
module GatewayServer {
  import opened Wrappers
  import opened Text
  import opened Checks
  import opened ModelCache

  datatype GatewayError = ValueError(message: string)

  /** A chat reply: its sender and its text. */
  datatype Message = Message(sender: string, text: string)

  /** The key placeholder that means "no OpenAI key configured". */
  const PlaceholderKey := "XXXXXXXXXX"

  const BaseCommands := ["commands", "models", "load-model", "classify-by-id"]

  /** The five log files, in the order `debug` considers them. */
  const LogFileNames := ["discord_logs.txt", "gateway_server_logs.txt", "deployment_server_logs.txt",
                         "training_server_logs.txt", "train_logs.txt"]

  const DefaultDebugQuestion := "Please help me debug the most recent command I ran."

  /** The candidate paths, in order. */
  function LogPaths(logsDir: string): (paths: seq<string>)
    ensures |paths| == 5
    ensures forall i :: 0 <= i < 5 ==> paths[i] == Join(logsDir, LogFileNames[i])
  {
    seq(5, i requires 0 <= i < 5 => Join(logsDir, LogFileNames[i]))
  }

  /** The paths among `paths` that exist, in their order. */
  function Existing(paths: seq<string>, exists_: set<string>): (r: seq<string>)
    ensures |r| <= |paths|
    ensures forall p :: p in r <==> p in paths && p in exists_
  {
    if paths == [] then []
    else
      var init := paths[..|paths| - 1];
      var last := paths[|paths| - 1];
      assert paths == init + [last];
      Existing(init, exists_) + (if last in exists_ then [last] else [])
  }

  /** Filtering a concatenation filters each part, keeping the order. */
  lemma {:induction false} ExistingConcat(a: seq<string>, b: seq<string>, exists_: set<string>)
    ensures Existing(a + b, exists_) == Existing(a, exists_) + Existing(b, exists_)
  {
    if b == [] {
      assert a + b == a;
    } else {
      var init := b[..|b| - 1];
      assert (a + b)[..|a + b| - 1] == a + init;
      ExistingConcat(a, init, exists_);
    }
  }

  /** With every candidate present, all are kept in order; with none, the list is empty. */
  lemma {:induction false} ExistingExtremes(paths: seq<string>, exists_: set<string>)
    ensures (forall p :: p in paths ==> p in exists_) ==> Existing(paths, exists_) == paths
    ensures (forall p :: p in paths ==> p !in exists_) ==> Existing(paths, exists_) == []
  {
    if paths != [] {
      var init := paths[..|paths| - 1];
      ExistingExtremes(init, exists_);
      assert paths == init + [paths[|paths| - 1]];
    }
  }

  /** `debug`'s question: the payload's text, or the default question when there is none. */
  function DebugQuestion(text: Option<string>): (q: string)
    ensures text.Some? ==> q == text.value
    ensures text.None? ==> q == DefaultDebugQuestion
  {
    IfNone(text, Some(DefaultDebugQuestion)).value
  }

  class Server<M, D> {
    var commands: seq<string>
    var hasGpt: bool
    const loadedModels: map<string, M>
    const defaultModel: Option<string>
    const loadedDatasets: map<string, D>
    const defaultDataset: Option<string>

    /**
     * The command list always begins with the four base commands; "chat" and "debug" follow, and
     * a GPT assistant exists, exactly when the key is not the placeholder. The gateway never loads a
     * model into its own cache; "MNIST" is its only dataset and the default.
     */
    constructor (openAiKey: string, mnist: D)
      ensures |commands| >= 4 && commands[..4] == BaseCommands
      ensures hasGpt <==> !Contains(openAiKey, PlaceholderKey)
      ensures hasGpt ==> commands == BaseCommands + ["chat", "debug"]
      ensures !hasGpt ==> commands == BaseCommands
      ensures loadedModels == map[] && defaultModel == None
      ensures loadedDatasets == map["MNIST" := mnist] && defaultDataset == Some("MNIST")
    {
      commands := BaseCommands;
      hasGpt := false;
      if !Find(openAiKey, PlaceholderKey) {
        hasGpt := true;
        commands := commands + ["chat"];
        commands := commands + ["debug"];
      }
      loadedModels := map[];
      defaultModel := None;
      loadedDatasets := map["MNIST" := mnist];
      defaultDataset := Some("MNIST");
    }

    /** `_retrieve_model`: the named model if loaded, else the default one, else ValueError. */
    function RetrieveModel(name: Option<string>): (r: Result<M, GatewayError>)
      reads this
      ensures r.Success? <==> Retrieve(loadedModels, name, defaultModel).Some?
      ensures r.Success? ==> r.value == Retrieve(loadedModels, name, defaultModel).value
      ensures r.Failure? ==> r.error == ValueError("No model loaded or given.")
    {
      match Retrieve(loadedModels, name, defaultModel)
      case None => Failure(ValueError("No model loaded or given."))
      case Some(m) => Success(m)
    }

    /** `_retrieve_dataset`: the named dataset if loaded, else the default one, else ValueError. */
    function RetrieveDataset(name: Option<string>): (r: Result<D, GatewayError>)
      reads this
      ensures r.Success? <==> Retrieve(loadedDatasets, name, defaultDataset).Some?
      ensures r.Success? ==> r.value == Retrieve(loadedDatasets, name, defaultDataset).value
      ensures r.Failure? ==> r.error == ValueError("No dataset loaded or given.")
    {
      match Retrieve(loadedDatasets, name, defaultDataset)
      case None => Failure(ValueError("No dataset loaded or given."))
      case Some(d) => Success(d)
    }

    /** `/chat`: the assistant's reply, or a fixed apology from "mltemplate" when there is none. */
    function Chat(text: string, gpt: string -> Message): (r: Message)
      reads this
      ensures hasGpt ==> r == gpt(text)
      ensures !hasGpt ==> r == Message("mltemplate", "Sorry, I don't know how to chat yet.")
    {
      if hasGpt then gpt(text) else Message("mltemplate", "Sorry, I don't know how to chat yet.")
    }
  }

  /** `debug`'s log files: each of the five paths, in order, appended when it exists. */
  method DebugLogFiles(logsDir: string, exists_: set<string>) returns (files: seq<string>)
    ensures files == Existing(LogPaths(logsDir), exists_)
  {
    var paths := LogPaths(logsDir);
    files := [];
    for i := 0 to 5
      invariant files == Existing(paths[..i], exists_)
    {
      assert paths[..i + 1][..i] == paths[..i];
      if paths[i] in exists_ {
        files := files + [paths[i]];
      }
    }
    assert paths[..5] == paths;
  }

  /**
   * On a fresh gateway, classify lookups by the gateway itself never find a model (loads go to the
   * deployment server), while datasets always resolve to "MNIST".
   */
  method FreshGatewayLookups<M, D>(openAiKey: string, mnist: D, model: Option<string>, dataset: Option<string>)
    returns (m: Result<M, GatewayError>, d: Result<D, GatewayError>)
    ensures m == Failure(ValueError("No model loaded or given."))
    ensures d == Success(mnist)
  {
    var server := new Server<M, D>(openAiKey, mnist);
    m := server.RetrieveModel(model);
    d := server.RetrieveDataset(dataset);
  }

  /** With the placeholder key the gateway offers exactly the four base commands and apologises in chat. */
  method PlaceholderGateway<M, D>(mnist: D, text: string, gpt: string -> Message)
    returns (commands: seq<string>, reply: Message)
    ensures commands == ["commands", "models", "load-model", "classify-by-id"]
    ensures reply == Message("mltemplate", "Sorry, I don't know how to chat yet.")
  {
    var key := "sk-XXXXXXXXXX";
    assert MatchesAt(key, PlaceholderKey, 3);
    var server := new Server<M, D>(key, mnist);
    commands := server.commands;
    reply := server.Chat(text, gpt);
  }
}
