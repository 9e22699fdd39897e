/**
 * The `!`-command interpreter (src/main.rs:326-434): a prefix parser producing a `Command`,
 * and its effect on a conversation's configuration, preamble and logs.
 */
module Commands {
  import opened Wrappers
  import opened Tokens
  import opened Text
  import opened ChatState
  import opened Rendering
  import opened ChatHistories

  /** The four sampling options a command can adjust. */
  datatype Knob = Temperature | FrequencyPenalty | PresencePenalty | TopP

  function KnobPrefix(knob: Knob): string
  {
    match knob
    case Temperature => "!temperature"
    case FrequencyPenalty => "!frequency_penalty"
    case PresencePenalty => "!presence_penalty"
    case TopP => "!top_p"
  }

  const ResetPrefix: string := "!reset"
  const LogPrefix: string := "!log"
  const ContextPrefix: string := "!context="
  const InfoPrefix: string := "!info"

  datatype Command =
    | Adjust(knob: Knob, argument: Option<string>)   // None: the bare command, which clears the option
    | Reset
    | Log
    | SetContext(preamble: string)
    | Info
    | Unrecognised

  /** A knob command: bare clears; otherwise the argument is what follows the prefix and one more character. */
  function AdjustCommand(knob: Knob, text: string): Command
    requires StartsWith(text, KnobPrefix(knob))
  {
    var prefix := KnobPrefix(knob);
    if |text| == |prefix| then Adjust(knob, None) else Adjust(knob, Some(text[|prefix| + 1..]))
  }

  /** Prefix matching in the source's order (src/main.rs:329-431). */
  function Parse(text: string): Command
  {
    if StartsWith(text, KnobPrefix(Temperature)) then AdjustCommand(Temperature, text)
    else if StartsWith(text, KnobPrefix(FrequencyPenalty)) then AdjustCommand(FrequencyPenalty, text)
    else if StartsWith(text, KnobPrefix(PresencePenalty)) then AdjustCommand(PresencePenalty, text)
    else if StartsWith(text, KnobPrefix(TopP)) then AdjustCommand(TopP, text)
    else if StartsWith(text, ResetPrefix) then Reset
    else if StartsWith(text, LogPrefix) then Log
    else if StartsWith(text, ContextPrefix) then SetContext(text[|ContextPrefix|..])
    else if StartsWith(text, InfoPrefix) then Info
    else Unrecognised
  }

  /** The canonical text of each command, as an operator would type it. */
  function Unparse(command: Command): string
  {
    match command
    case Adjust(knob, None) => KnobPrefix(knob)
    case Adjust(knob, Some(v)) => KnobPrefix(knob) + " " + v
    case Reset => ResetPrefix
    case Log => LogPrefix
    case SetContext(t) => ContextPrefix + t
    case Info => InfoPrefix
    case Unrecognised => "!"
  }

  /** Two prefixes that differ at a position both reach cannot both start the same text. */
  lemma PrefixesClash(text: string, p: string, q: string, k: nat)
    requires k < |p| && k < |q| && p[k] != q[k]
    requires StartsWith(text, p)
    ensures !StartsWith(text, q)
  {
    assert text[k] == p[k];
  }

  lemma StartsWithAppend(p: string, rest: string)
    ensures StartsWith(p + rest, p)
  {
    assert (p + rest)[..|p|] == p;
  }

  /** A text starting with a knob's prefix is that knob's command, whatever follows. */
  lemma ParseKnob(text: string, knob: Knob)
    requires StartsWith(text, KnobPrefix(knob))
    ensures Parse(text) == AdjustCommand(knob, text)
  {
    match knob
    case Temperature =>
    case FrequencyPenalty =>
      PrefixesClash(text, KnobPrefix(knob), KnobPrefix(Temperature), 1);
    case PresencePenalty =>
      PrefixesClash(text, KnobPrefix(knob), KnobPrefix(Temperature), 1);
      PrefixesClash(text, KnobPrefix(knob), KnobPrefix(FrequencyPenalty), 1);
    case TopP =>
      PrefixesClash(text, KnobPrefix(knob), KnobPrefix(Temperature), 2);
      PrefixesClash(text, KnobPrefix(knob), KnobPrefix(FrequencyPenalty), 1);
      PrefixesClash(text, KnobPrefix(knob), KnobPrefix(PresencePenalty), 1);
  }

  /** No knob prefix starts a text that starts with `p`, when `p` already differs from each in its first two characters. */
  lemma NoKnobPrefix(text: string, p: string)
    requires |p| >= 2 && StartsWith(text, p)
    requires p[1] != 't' && p[1] != 'f' && p[1] != 'p'
    ensures forall knob :: !StartsWith(text, KnobPrefix(knob))
  {
    forall knob
      ensures !StartsWith(text, KnobPrefix(knob))
    {
      PrefixesClash(text, p, KnobPrefix(knob), 1);
    }
  }

  /** Parsing the canonical text of a command gives that command back. */
  lemma ParseUnparse(command: Command)
    ensures Parse(Unparse(command)) == command
  {
    var text := Unparse(command);
    match command
    case Adjust(knob, arg) =>
      if arg.Some? {
        StartsWithAppend(KnobPrefix(knob), " " + arg.value);
        assert text == KnobPrefix(knob) + (" " + arg.value);
        assert text[|KnobPrefix(knob)| + 1..] == arg.value;
      }
      ParseKnob(text, knob);
    case Reset =>
      NoKnobPrefix(text, ResetPrefix);
    case Log =>
      NoKnobPrefix(text, LogPrefix);
    case SetContext(t) =>
      StartsWithAppend(ContextPrefix, t);
      NoKnobPrefix(text, ContextPrefix);
      PrefixesClash(text, ContextPrefix, ResetPrefix, 1);
      PrefixesClash(text, ContextPrefix, LogPrefix, 1);
    case Info =>
      NoKnobPrefix(text, InfoPrefix);
      PrefixesClash(text, InfoPrefix, ResetPrefix, 1);
      PrefixesClash(text, InfoPrefix, LogPrefix, 1);
      PrefixesClash(text, InfoPrefix, ContextPrefix, 1);
    case Unrecognised =>
  }

  // ---------------------------------------------------------------------------------------------
  // Effect on the configuration.
  // ---------------------------------------------------------------------------------------------

  /** The value an option holds: top_p is a count, the other three are doubles. */
  datatype KnobValue = Double(double: Float64) | Count(count: nat)

  function Get(c: Configuration, knob: Knob): Option<KnobValue>
  {
    match knob
    case Temperature => if c.temperature.Some? then Some(Double(c.temperature.value)) else None
    case FrequencyPenalty => if c.frequencyPenalty.Some? then Some(Double(c.frequencyPenalty.value)) else None
    case PresencePenalty => if c.presencePenalty.Some? then Some(Double(c.presencePenalty.value)) else None
    case TopP => if c.topP.Some? then Some(Count(c.topP.value)) else None
  }

  /** `parse::<usize>` for top_p, `parse::<f64>` for the others; both are given, not modelled. */
  function ParseValue(knob: Knob, text: string, parseFloat: string -> Option<Float64>, parseCount: string -> Option<nat>): Option<KnobValue>
  {
    if knob == TopP then
      (match parseCount(text) case Some(n) => Some(Count(n)) case None => None)
    else
      (match parseFloat(text) case Some(f) => Some(Double(f)) case None => None)
  }

  /**
   * A knob command: bare clears the option; a value that parses sets it; a value that does not
   * parse leaves it as it was. The other three options are untouched.
   */
  function ApplyAdjust(c: Configuration, knob: Knob, argument: Option<string>,
                       parseFloat: string -> Option<Float64>, parseCount: string -> Option<nat>): (r: Configuration)
    ensures forall other :: other != knob ==> Get(r, other) == Get(c, other)
    ensures Get(r, knob) == match argument
                            case None => None
                            case Some(v) => (match ParseValue(knob, v, parseFloat, parseCount)
                                             case Some(x) => Some(x)
                                             case None => Get(c, knob))
  {
    match argument
    case None =>
      (match knob
       case Temperature => c.(temperature := None)
       case FrequencyPenalty => c.(frequencyPenalty := None)
       case PresencePenalty => c.(presencePenalty := None)
       case TopP => c.(topP := None))
    case Some(v) =>
      (match knob
       case Temperature => (match parseFloat(v) case Some(f) => c.(temperature := Some(f)) case None => c)
       case FrequencyPenalty => (match parseFloat(v) case Some(f) => c.(frequencyPenalty := Some(f)) case None => c)
       case PresencePenalty => (match parseFloat(v) case Some(f) => c.(presencePenalty := Some(f)) case None => c)
       case TopP => (match parseCount(v) case Some(n) => c.(topP := Some(n)) case None => c))
  }

  /** A configuration is determined by what its four options hold. */
  lemma ConfigurationByKnobs(a: Configuration, b: Configuration)
    requires forall knob :: Get(a, knob) == Get(b, knob)
    ensures a == b
  {
    assert Get(a, Temperature) == Get(b, Temperature);
    assert Get(a, FrequencyPenalty) == Get(b, FrequencyPenalty);
    assert Get(a, PresencePenalty) == Get(b, PresencePenalty);
    assert Get(a, TopP) == Get(b, TopP);
  }

  /** A value that does not parse changes nothing at all. */
  lemma UnparsableKeepsConfiguration(c: Configuration, knob: Knob, v: string,
                                     parseFloat: string -> Option<Float64>, parseCount: string -> Option<nat>)
    requires ParseValue(knob, v, parseFloat, parseCount).None?
    ensures ApplyAdjust(c, knob, Some(v), parseFloat, parseCount) == c
  {
    ConfigurationByKnobs(ApplyAdjust(c, knob, Some(v), parseFloat, parseCount), c);
  }

  // ---------------------------------------------------------------------------------------------
  // Effect on the conversation.
  // ---------------------------------------------------------------------------------------------

  /** What the bot answers to a command; the `!info` text is kept as the values it shows. */
  datatype Reply = Silent | Text(text: string) | InfoReport(configuration: Configuration, preamble: string, tokensSoFar: nat)

  /** The state after a command. */
  function AfterCommand(s: ChatState, command: Command,
                        parseFloat: string -> Option<Float64>, parseCount: string -> Option<nat>): ChatState
  {
    match command
    case Adjust(knob, arg) => s.(configuration := ApplyAdjust(s.configuration, knob, arg, parseFloat, parseCount))
    case Reset => AfterReset(s)
    case SetContext(t) => AfterReset(s.(startContext := t))
    case _ => s
  }

  function ReplyTo(s: ChatState, command: Command, aiName: string): Reply
  {
    match command
    case Reset => Text("[Chatlog Cleared]")
    case Log => Text("```" + Render(s, aiName) + "```")
    case SetContext(t) => Text("Context set to:\n```" + t + "```")
    case Info => InfoReport(s.configuration, s.startContext, s.tokensSoFar)
    case _ => Silent
  }

  /**
   * `!context=<text>` makes `<text>` the preamble, empties the logs and seen names, and recounts
   * the estimate from the new preamble alone.
   */
  lemma ContextReplacesPreamble(s: ChatState, text: string,
                                parseFloat: string -> Option<Float64>, parseCount: string -> Option<nat>)
    ensures var r := AfterCommand(s, Parse(ContextPrefix + text), parseFloat, parseCount);
      && r.startContext == text && r.humanChatLog == [] && r.aiChatLog == [] && r.seenNames == {}
      && r.tokensSoFar == TokenCount(text) && r.configuration == s.configuration
  {
    ParseUnparse(SetContext(text));
  }

  /** Knob commands change only the configuration; `!log`, `!info` and unknown commands change nothing. */
  lemma CommandsKeepLogs(s: ChatState, command: Command,
                         parseFloat: string -> Option<Float64>, parseCount: string -> Option<nat>)
    requires !command.Reset? && !command.SetContext?
    ensures AfterCommand(s, command, parseFloat, parseCount).(configuration := s.configuration) == s
    ensures !command.Adjust? ==> AfterCommand(s, command, parseFloat, parseCount) == s
  {
  }

  /** Runs a parsed command against a conversation (src/main.rs:329-431). */
  method Execute(history: ChatHistory, command: Command, aiName: string,
                 parseFloat: string -> Option<Float64>, parseCount: string -> Option<nat>) returns (reply: Reply)
    modifies history
    ensures history.State() == AfterCommand(old(history.State()), command, parseFloat, parseCount)
    ensures reply == ReplyTo(old(history.State()), command, aiName)
  {
    match command
    case Adjust(knob, arg) =>
      history.configuration := ApplyAdjust(history.configuration, knob, arg, parseFloat, parseCount);
      reply := Silent;
    case Reset =>
      history.Reset();
      reply := Text("[Chatlog Cleared]");
    case Log =>
      var prompt := history.ToString(aiName);
      reply := Text("```" + prompt + "```");
    case SetContext(t) =>
      history.startContext := t;
      reply := Text("Context set to:\n```" + t + "```");
      history.Reset();
    case Info =>
      reply := InfoReport(history.configuration, history.startContext, history.tokensSoFar);
    case Unrecognised =>
      reply := Silent;
  }
}
