/**
 * mltemplate/backend/training/training_server.py: building the `rye run train ...` command of a
 * training request. `shlex.split` and `subprocess.run` are passed in as functions (the tokens of a
 * string or the message of the ValueError it raises; the exit code of a command).
 */
module TrainingServer {
  import opened Wrappers

  datatype TrainingRunInput = TrainingRunInput(commandLineArguments: string, requestId: Option<string>)

  const DefaultArguments := "--config-name train.yaml model=mlp dataset=mnist"

  const Multirun := "--multirun"

  const Acknowledgement := "Server received request for start_training_run"

  /**
   * `shlex.split` raising on malformed input (an unclosed quotation, a trailing escape), and
   * `subprocess.run(..., check=True)` raising on a non-zero exit.
   */
  datatype TrainingError =
    | ValueError(message: string)
    | CalledProcessError(returnCode: int, command: seq<string>)

  /** How the request id prints inside an f-string: its text, or "None". */
  function RequestIdText(requestId: Option<string>): (r: string)
    ensures requestId.Some? ==> r == requestId.value
    ensures requestId.None? ==> r == "None"
  {
    if requestId.Some? then requestId.value else "None"
  }

  /** The payload's arguments followed by ` request_id="<id>"`. */
  function ArgumentString(p: TrainingRunInput): (s: string)
    ensures |s| == |p.commandLineArguments| + 14 + |RequestIdText(p.requestId)|
    ensures s[..|p.commandLineArguments|] == p.commandLineArguments
    ensures s[|p.commandLineArguments|..] == " request_id=\"" + RequestIdText(p.requestId) + "\""
  {
    p.commandLineArguments + " request_id=\"" + RequestIdText(p.requestId) + "\""
  }

  /** Position of the first occurrence of `x`. */
  function FirstIndex(s: seq<string>, x: string): (i: nat)
    requires x in s
    ensures i < |s| && s[i] == x && x !in s[..i]
  {
    if s[0] == x then 0 else 1 + FirstIndex(s[1..], x)
  }

  /** `list.remove(x)`: drops the first occurrence only. */
  function RemoveFirst(s: seq<string>, x: string): (r: seq<string>)
    requires x in s
    ensures r == s[..FirstIndex(s, x)] + s[FirstIndex(s, x) + 1..]
    ensures |r| == |s| - 1
    ensures multiset(r) == multiset(s) - multiset{x}
  {
    var i := FirstIndex(s, x);
    assert s == s[..i] + [x] + s[i + 1..];
    s[..i] + s[i + 1..]
  }

  /**
   * The argument vector: "run", "train", then the tokens, with the first "--multirun" (if any)
   * moved to the end. Nothing is added or lost, and the other tokens keep their order.
   */
  function Arranged(tokens: seq<string>): (r: seq<string>)
    ensures |r| == 2 + |tokens| && r[..2] == ["run", "train"]
    ensures multiset(r) == multiset(["run", "train"] + tokens)
    ensures Multirun !in tokens ==> r == ["run", "train"] + tokens
    ensures Multirun in tokens ==> r[|r| - 1] == Multirun && r[2..|r| - 1] == RemoveFirst(tokens, Multirun)
  {
    var built := ["run", "train"] + tokens;
    if Multirun in built then
      RemoveFirstSkipsPrefix(["run", "train"], tokens, Multirun);
      var r := RemoveFirst(built, Multirun) + [Multirun];
      assert multiset(r) == multiset(built) - multiset{Multirun} + multiset{Multirun};
      r
    else built
  }

  /** Removing an element that the prefix does not contain only touches the suffix. */
  lemma RemoveFirstSkipsPrefix(a: seq<string>, b: seq<string>, x: string)
    requires x !in a && x in b
    ensures x in a + b && RemoveFirst(a + b, x) == a + RemoveFirst(b, x)
  {
    var i := FirstIndex(b, x);
    var s := a + b;
    assert s[|a| + i] == x;
    assert x !in s[..|a| + i] by {
      assert s[..|a| + i] == a + b[..i];
    }
    FirstIndexUnique(s, x, |a| + i);
    assert s[..|a| + i] + s[|a| + i + 1..] == a + (b[..i] + b[i + 1..]);
  }

  lemma {:induction false} FirstIndexUnique(s: seq<string>, x: string, k: nat)
    requires k < |s| && s[k] == x && x !in s[..k]
    ensures FirstIndex(s, x) == k
  {
    if k > 0 {
      assert s[..k][0] == s[0];
      assert s[1..][..k - 1] == s[..k][1..];
      FirstIndexUnique(s[1..], x, k - 1);
    }
  }

  /** `train_background_task`'s list building: `+=` of the tokens, then remove and re-append "--multirun". */
  method BuildArguments(tokens: seq<string>) returns (arguments: seq<string>)
    ensures arguments == Arranged(tokens)
  {
    arguments := ["run", "train"];
    arguments := arguments + tokens;
    if Multirun in arguments {
      arguments := RemoveFirst(arguments, Multirun);
      arguments := arguments + [Multirun];
    }
  }

  /**
   * `train_background_task`: runs "rye" with the arranged vector of the split argument string;
   * a string `shlex.split` cannot tokenise raises its ValueError before anything runs, and a
   * non-zero exit is raised as CalledProcessError. `command` is what was run, empty when nothing was.
   */
  method TrainBackgroundTask(p: TrainingRunInput, split: string -> Result<seq<string>, string>, run: seq<string> -> int)
    returns (command: seq<string>, r: Outcome<TrainingError>)
    ensures split(ArgumentString(p)).Failure? ==>
      command == [] && r == Fail(ValueError(split(ArgumentString(p)).error))
    ensures split(ArgumentString(p)).Success? ==>
      command == ["rye"] + Arranged(split(ArgumentString(p)).value)
      && (r.Fail? <==> run(command) != 0)
      && (r.Fail? ==> r.error == CalledProcessError(run(command), command))
  {
    var tokens := split(ArgumentString(p));
    if tokens.Failure? {
      command := [];
      r := Fail(ValueError(tokens.error));
    } else {
      var arguments := BuildArguments(tokens.value);
      command := ["rye"] + arguments;
      var code := run(command);
      if code != 0 {
        r := Fail(CalledProcessError(code, command));
      } else {
        r := Pass;
      }
    }
  }

  /** `start_training_run`: queues the task and acknowledges at once, without waiting for it. */
  method StartTrainingRun(p: TrainingRunInput, queue: seq<TrainingRunInput>)
    returns (queued: seq<TrainingRunInput>, response: string)
    ensures queued == queue + [p]
    ensures response == Acknowledgement
  {
    queued := queue + [p];
    response := Acknowledgement;
  }

  /** A request id is quoted at the end of the argument string; a missing one prints as None. */
  lemma DefaultArgumentString()
    ensures ArgumentString(TrainingRunInput(DefaultArguments, None))
         == "--config-name train.yaml model=mlp dataset=mnist request_id=\"None\""
  {
  }

  /** A "--multirun" after other tokens ends up last, those before and after it keeping their order. */
  lemma MultirunMovedLast(before: seq<string>, after: seq<string>)
    requires Multirun !in before
    ensures Arranged(before + [Multirun] + after) == ["run", "train"] + before + after + [Multirun]
  {
    var tokens := before + [Multirun] + after;
    assert tokens[|before|] == Multirun;
    assert tokens[..|before|] == before;
    FirstIndexUnique(tokens, Multirun, |before|);
    assert tokens[|before| + 1..] == after;
    assert RemoveFirst(tokens, Multirun) == before + after;
    var r := Arranged(tokens);
    assert r == r[..2] + r[2..|r| - 1] + [r[|r| - 1]];
  }
}
