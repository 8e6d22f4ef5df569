/**
 * mltemplate/backend/discord/discord_client.py: the decisions the Discord client makes before it
 * talks to Discord or the gateway. These are splitting a reply into 2000-character messages,
 * choosing how to answer an incoming message, the default command prefixes and the argument check
 * of `load_model`.
 */
module DiscordClient {
  import opened Wrappers
  import opened Text
  import opened Checks
  import opened ModelCache

  /** Discord's limit on the length of one message. */
  const MaxLen := 2000

  const DefaultPrefixes := [">", "mltemplate "]

  const LoadedMessage := "The model has been successfully loaded and is ready for use."

  /* ---------------------------------------------------------------- chunking */

  /** `max(ceil(n / 2000), 1)`: enough chunks to hold `n` characters, and never none. */
  function NumChunks(n: nat): (k: nat)
    ensures k >= 1
    ensures n == 0 ==> k == 1
    ensures n > 0 ==> (k - 1) * MaxLen < n <= k * MaxLen
  {
    if n == 0 then 1 else (n + MaxLen - 1) / MaxLen
  }

  /** Python's `s[start:end]` for `0 <= start <= end`: indices past the end are clamped. */
  function Slice(s: string, start: nat, end: nat): (r: string)
    requires start <= end
    ensures |r| <= end - start
    ensures end <= |s| ==> |r| == end - start
  {
    var hi := if end <= |s| then end else |s|;
    var lo := if start <= hi then start else hi;
    s[lo..hi]
  }

  /** The messages sent for one reply: chunk `i` is `text[i*2000:(i+1)*2000]`. */
  function Chunks(text: string): (cs: seq<string>)
    ensures |cs| == NumChunks(|text|)
  {
    seq(NumChunks(|text|), i requires 0 <= i => Slice(text, i * MaxLen, (i + 1) * MaxLen))
  }

  /** The chunks joined in order. */
  function Concat(cs: seq<string>): string
  {
    if cs == [] then "" else Concat(cs[..|cs| - 1]) + cs[|cs| - 1]
  }

  /** No chunk is over the limit, every chunk but the last is full, and the last is empty only for an empty text. */
  lemma ChunkSizes(text: string, i: nat)
    requires i < |Chunks(text)|
    ensures |Chunks(text)[i]| <= MaxLen
    ensures i < |Chunks(text)| - 1 ==> |Chunks(text)[i]| == MaxLen
    ensures i == |Chunks(text)| - 1 ==> (|Chunks(text)[i]| == 0 <==> |text| == 0)
  {
  }

  /** The first `k` chunks spell the first `k * 2000` characters (or all of them). */
  lemma {:induction false} ChunksPrefix(text: string, k: nat)
    requires k <= |Chunks(text)|
    ensures Concat(Chunks(text)[..k]) == text[..if k * MaxLen <= |text| then k * MaxLen else |text|]
  {
    var cs := Chunks(text);
    if k > 0 {
      ChunksPrefix(text, k - 1);
      assert cs[..k][..k - 1] == cs[..k - 1];
      var lo := if (k - 1) * MaxLen <= |text| then (k - 1) * MaxLen else |text|;
      var hi := if k * MaxLen <= |text| then k * MaxLen else |text|;
      assert cs[k - 1] == text[lo..hi];
      assert text[..lo] + text[lo..hi] == text[..hi];
    }
  }

  /** Sending the chunks in order delivers exactly the original text. */
  lemma ChunksConcat(text: string)
    ensures Concat(Chunks(text)) == text
  {
    var cs := Chunks(text);
    ChunksPrefix(text, |cs|);
    assert cs[..|cs|] == cs;
  }

  /** An empty reply is still sent, as one empty message. */
  lemma EmptyTextOneChunk()
    ensures Chunks("") == [""]
  {
  }

  /* ---------------------------------------------------------------- routing */

  datatype DiscordMessage = DiscordMessage(authorId: int, content: string, inGuild: bool)

  /** What `on_message` does with a message. */
  datatype Action = Ignore | ProcessCommands | Chat | HelpReply | NoReply

  /** The content starts with one of the command prefixes. */
  function HasCommandPrefix(content: string, prefixes: seq<string>): (b: bool)
    ensures b <==> exists p :: p in prefixes && StartsWith(content, p)
    ensures prefixes == [] ==> !b
  {
    exists i :: 0 <= i < |prefixes| && StartsWith(content, prefixes[i])
  }

  /** `on_message`: the first rule that applies decides. */
  function Route(msg: DiscordMessage, botId: int, prefixes: seq<string>): (a: Action)
    ensures a == Ignore <==> msg.authorId == botId
    ensures a == ProcessCommands <==> msg.authorId != botId && HasCommandPrefix(msg.content, prefixes)
    ensures a == Chat <==> msg.authorId != botId && !HasCommandPrefix(msg.content, prefixes) && !msg.inGuild
    ensures a == HelpReply <==>
      (msg.authorId != botId && !HasCommandPrefix(msg.content, prefixes) && msg.inGuild
       && Contains(Lower(msg.content), "mltemplate"))
    ensures a == NoReply <==>
      (msg.authorId != botId && !HasCommandPrefix(msg.content, prefixes) && msg.inGuild
       && !Contains(Lower(msg.content), "mltemplate"))
  {
    if msg.authorId == botId then Ignore
    else if HasCommandPrefix(msg.content, prefixes) then ProcessCommands
    else if !msg.inGuild then Chat
    else if Find(Lower(msg.content), "mltemplate") then HelpReply
    else NoReply
  }

  /** `ifnone(command_prefixes, default=[">", "mltemplate "])` */
  function CommandPrefixes(given: Option<seq<string>>): (prefixes: seq<string>)
    ensures given.None? ==> prefixes == DefaultPrefixes
    ensures given.Some? ==> prefixes == given.value
  {
    IfNone(given, Some(DefaultPrefixes)).value
  }

  /** A guild message that names the bot in any letter case, without a prefix, gets the help reply. */
  lemma MentionGetsHelp(authorId: int, botId: int)
    requires authorId != botId
    ensures Route(DiscordMessage(authorId, "Hi MLtemplate", true), botId, CommandPrefixes(None)) == HelpReply
  {
    var content := "Hi MLtemplate";
    assert !StartsWith(content, DefaultPrefixes[0]) by {
      assert content[0] == 'H';
    }
    assert !StartsWith(content, DefaultPrefixes[1]) by {
      assert content[0] == 'H';
    }
    var low := Lower(content);
    assert low[3..13] == "mltemplate";
    assert MatchesAt(low, "mltemplate", 3);
  }

  /** With the default prefixes, "mltemplate " starts a command even in a guild: prefixes win over the help reply. */
  lemma PrefixedMentionIsCommand(authorId: int, botId: int, rest: string, inGuild: bool)
    requires authorId != botId
    ensures Route(DiscordMessage(authorId, "mltemplate " + rest, inGuild), botId, CommandPrefixes(None)) == ProcessCommands
  {
    var content := "mltemplate " + rest;
    assert StartsWith(content, DefaultPrefixes[1]) by {
      assert content[..|DefaultPrefixes[1]|] == "mltemplate ";
    }
  }

  /** A direct message without a prefix is chatted with, whatever it says. */
  lemma DirectMessageChats(authorId: int, botId: int, content: string, prefixes: seq<string>)
    requires authorId != botId && !HasCommandPrefix(content, prefixes)
    ensures Route(DiscordMessage(authorId, content, false), botId, prefixes) == Chat
  {
  }

  /* ---------------------------------------------------------------- load_model */

  /** The reply of the `load_model` command, and whether it reached the gateway. */
  /** What `load_model` sends: the error alone, or the gateway call and then the confirmation, if any. */
  datatype LoadReply = Rejected(message: string) | Forwarded(payload: LoadModelInput, confirmation: Option<string>)

  /**
   * `load_model`: without a (model, version) pair or a run id the command only sends the error;
   * otherwise it passes the arguments unchanged to the gateway. `gatewayLoads` says whether that
   * call returns; when the gateway answers with an error status the client raises, and the
   * confirmation is never sent.
   */
  function LoadModelCommand(model: Option<string>, version: Option<string>, runId: Option<string>,
                            gatewayLoads: LoadModelInput -> bool): (r: LoadReply)
    ensures r.Rejected? <==> Underspecified(LoadModelInput(model, version, runId))
    ensures r.Rejected? ==> r.message == UnderspecifiedMessage
    ensures r.Forwarded? ==> r.payload == LoadModelInput(model, version, runId)
    ensures r.Forwarded? ==> (r.confirmation == Some(LoadedMessage) <==> gatewayLoads(r.payload))
    ensures r.Forwarded? ==> (r.confirmation.None? <==> !gatewayLoads(r.payload))
  {
    var p := LoadModelInput(model, version, runId);
    if Underspecified(p) then Rejected(UnderspecifiedMessage)
    else Forwarded(p, if gatewayLoads(p) then Some(LoadedMessage) else None)
  }

  /** A run id alone is enough; a model without a version is not; a failed load is not confirmed. */
  lemma LoadModelArguments(name: string, runId: string, gatewayLoads: LoadModelInput -> bool)
    ensures LoadModelCommand(None, None, Some(runId), gatewayLoads).Forwarded?
    ensures LoadModelCommand(Some(name), None, None, gatewayLoads) == Rejected(UnderspecifiedMessage)
    ensures !gatewayLoads(LoadModelInput(None, None, Some(runId))) ==>
      LoadModelCommand(None, None, Some(runId), gatewayLoads) == Forwarded(LoadModelInput(None, None, Some(runId)), None)
  {
  }
}
