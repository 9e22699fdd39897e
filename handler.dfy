/**
 * The message handler's decision (src/main.rs:291-479): ignore the message, run a `!` command
 * on the channel's conversation, or add the message as a human turn and answer with a
 * completion. Who may talk to the bot and who may run commands are given as flags.
 */
module Handler {
  import opened Wrappers
  import opened Text
  import opened ChatState
  import opened ChatHistories
  import opened Commands
  import opened Completion
  import opened Registry

  /** The name the bot answers as while it does not know its own (src/main.rs:270-276). */
  function AiName(known: Option<string>): string
  {
    if known.Some? then known.value else "AI"
  }

  /** What the channel is told when the completion fails (src/main.rs:470-476). */
  const FailureNotice: string := "Failed to complete, try resetting (check channel description to find out how)"

  /**
   * The text the handler works with (src/main.rs:324-325): newlines made spaces, then trimmed.
   * It holds no newline and neither starts nor ends with whitespace.
   */
  function Cleaned(content: string): (text: string)
    ensures '\n' !in text
    ensures text == [] || (!IsWhitespace(text[0]) && !IsWhitespace(text[|text| - 1]))
  {
    var flat := ReplaceNewlines(content);
    NewlinesReplaced(content);
    TrimWithin(flat, '\n');
    TrimShape(flat);
    Trim(flat)
  }

  /** What a message that passed the gate leads to. */
  datatype Action = Ignore | RunCommand(command: Command) | Chat(text: string)

  /**
   * The branch of `message` (src/main.rs:326-328, 433-434): text starting with `!` is a command,
   * run only for the users allowed to; any other text becomes a human turn. A turn's text is
   * never a command, holds no newline and is trimmed.
   */
  function Classify(content: string, mayCommand: bool): (a: Action)
    ensures a.Chat? ==> a.text == Cleaned(content) && !StartsWith(a.text, "!")
    ensures a.Chat? ==> '\n' !in a.text && (a.text == [] || (!IsWhitespace(a.text[0]) && !IsWhitespace(a.text[|a.text| - 1])))
    ensures a.RunCommand? ==> mayCommand && StartsWith(Cleaned(content), "!") && a.command == Parse(Cleaned(content))
    ensures a.Ignore? ==> !mayCommand && StartsWith(Cleaned(content), "!")
  {
    var text := Cleaned(content);
    if StartsWith(text, "!") then
      if mayCommand then RunCommand(Parse(text)) else Ignore
    else Chat(text)
  }

  /** A command typed as it is spelled, by a user allowed to, runs as itself. */
  lemma TypedCommandRuns(command: Command)
    requires command != Unrecognised
    requires Cleaned(Unparse(command)) == Unparse(command)
    ensures Classify(Unparse(command), true) == RunCommand(command)
  {
    ParseUnparse(command);
    SpelledWithBang(command);
  }

  /** Every command is spelled starting with `!`. */
  lemma SpelledWithBang(command: Command)
    ensures StartsWith(Unparse(command), "!")
  {
    var text := Unparse(command);
    match command
    case Adjust(knob, arg) =>
      assert text[..|KnobPrefix(knob)|] == KnobPrefix(knob);
    case SetContext(t) =>
      assert text[..|ContextPrefix|] == ContextPrefix;
    case _ =>
  }

  /**
   * The conversation after a human turn and its answer: the author joins the seen names, the
   * turn is charged and appended, and the completion loop records its chunks.
   */
  ghost predicate Exchanged(after: ChatState, before: ChatState, author: string, text: string, replies: seq<ServiceReply>)
  {
    after == AfterChunks(AfterHumanLog(before.(seenNames := before.seenNames + {author}), author, text),
                         Converse(replies).chunks)
  }

  /** The answer to a human turn: the reply, or the failure notice when the loop aborted. */
  function Answer(replies: seq<ServiceReply>): string
  {
    var e := Converse(replies);
    if e.Finished? then Concat(e.chunks) else FailureNotice
  }

  /** After an exchange the message is the newest human entry and its author a seen name. */
  lemma NewestHumanEntry(after: ChatState, before: ChatState, author: string, text: string, replies: seq<ServiceReply>)
    requires Exchanged(after, before, author, text, replies)
    ensures after.humanChatLog != [] && after.humanChatLog[|after.humanChatLog| - 1] == HumanChatLog(text, author)
    ensures author in after.seenNames
  {
    var named := before.(seenNames := before.seenNames + {author});
    var turn := AfterHumanLog(named, author, text);
    HumanLogAppends(named, author, text);
    var chunks := Converse(replies).chunks;
    if chunks != [] {
      ChunksOpen(turn, chunks);
      SuffixLast(after.humanChatLog, turn.humanChatLog);
    }
  }

  /** The human-turn branch (src/main.rs:436-478). */
  method Respond(history: ChatHistory, author: string, text: string, aiName: string, replies: seq<ServiceReply>)
    returns (message: string)
    modifies history
    ensures Exchanged(history.State(), old(history.State()), author, text, replies)
    ensures message == Answer(replies)
  {
    ghost var start := history.State();
    if author !in history.seenNames {
      history.seenNames := history.seenNames + {author};
    }
    assert history.State() == start.(seenNames := start.seenNames + {author});
    history.AddHumanLog(author, text);
    var result, _, _ := GenerateResponse(history, aiName, replies);
    message := if result.Success? then result.value else FailureNotice;
  }

  /**
   * `message` (src/main.rs:291-479). A message from the bot itself or from outside the allowed
   * channels and users is ignored. Otherwise the channel's conversation is found or created,
   * and the message is run as a command or answered as a human turn.
   */
  method OnMessage(registry: HistoryMap, guild: Option<GuildId>, channel: ChannelId, isPrivate: bool,
                   fromSelf: bool, permitted: bool, mayCommand: bool, author: string, content: string,
                   botName: Option<string>, replies: seq<ServiceReply>,
                   parseFloat: string -> Option<Float64>, parseCount: string -> Option<nat>)
    returns (answer: Reply, history: ChatHistory?, ghost before: ChatState)
    modifies registry, registry.histories.Values
    ensures fromSelf || !permitted ==> answer == Silent && history == null && registry.histories == old(registry.histories)
    ensures forall h :: h in old(registry.histories.Values) && h != history ==> h.State() == old(h.State())
    ensures !fromSelf && permitted ==>
      && history != null
      && (exists m :: m in registry.histories && m.IsChannel(channel) && registry.histories[m] == history)
      && (old(registry.Known(channel)) ==>
            && registry.histories == old(registry.histories)
            && old(allocated(history)) && before == old(history.State()))
      && (!old(registry.Known(channel)) ==> fresh(history) && before == NewChat(isPrivate))
      && match Classify(content, mayCommand)
         case Ignore => answer == Silent && history.State() == before
         case RunCommand(command) =>
           && answer == ReplyTo(before, command, AiName(botName))
           && history.State() == AfterCommand(before, command, parseFloat, parseCount)
         case Chat(text) =>
           answer == Text(Answer(replies)) && Exchanged(history.State(), before, author, text, replies)
  {
    if fromSelf || !permitted {
      return Silent, null, NewChat(isPrivate);
    }
    history := registry.Resolve(guild, channel, isPrivate);
    before := history.State();
    var action := Classify(content, mayCommand);
    match action
    case Ignore =>
      answer := Silent;
    case RunCommand(command) =>
      answer := Execute(history, command, AiName(botName), parseFloat, parseCount);
    case Chat(text) =>
      var message := Respond(history, author, text, AiName(botName), replies);
      answer := Text(message);
  }
}
