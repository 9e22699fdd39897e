/**
 * The per-conversation chat state of `ChatHistory` (src/main.rs:19-123) as a value,
 * with the budget policy and every state change as a pure transition. The class in
 * chat_history.dfy is proved to perform exactly these transitions.
 */
module ChatState {
  import opened Wrappers
  import opened Tokens

  /** Ceiling of the running token estimate (src/main.rs:83). */
  const TokenBudget: nat := 1500

  /** The estimate a new conversation starts with; taken as given, not derived from the preamble. */
  const InitialTokenEstimate: nat := 20

  const DefaultPreamble: string := "The following is a conversation with an AI named Dorothy. Dorothy has short, red hair, red eyes and extremely pale (almost white) skin. Dorothy appears to have a bubbly, joyful and somewhat flirtatious attitude. She often greets every patron politely and doesn't at any point seem overly aggressive or violent. She takes great pride in her work"

  /** An IEEE-754 double kept as its bit pattern: the model never computes with it. */
  datatype Float64 = Float64(bits: bv64)

  /** The four optional sampling knobs (src/main.rs:207-212). */
  datatype Configuration = Configuration(
    topP: Option<nat>,
    temperature: Option<Float64>,
    presencePenalty: Option<Float64>,
    frequencyPenalty: Option<Float64>)

  /** top_p 1, temperature 0.9, frequency_penalty 0.0, presence_penalty 0.6 (src/main.rs:196-205). */
  const DefaultConfiguration: Configuration :=
    Configuration(Some(1), Some(Float64(0x3FEC_CCCC_CCCC_CCCD)), Some(Float64(0x3FE3_3333_3333_3333)), Some(Float64(0)))

  /** One human turn: what was said and who said it. */
  datatype HumanChatLog = HumanChatLog(line: string, name: string)

  datatype ChatState = ChatState(
    isPrivate: bool,
    humanChatLog: seq<HumanChatLog>,
    aiChatLog: seq<string>,
    seenNames: set<string>,
    tokensSoFar: nat,
    startContext: string,
    configuration: Configuration)
  {
    /** The estimate a from-scratch recount gives for this state. */
    function FullRecount(): nat
    {
      TokenCount(startContext) + HumanLogCost(humanChatLog, isPrivate) + AiLogCost(aiChatLog)
    }

    /** How far the running estimate lags behind a full recount (negative when it runs ahead). */
    function Lag(): int
    {
      FullRecount() - tokensSoFar
    }
  }

  /** What a recount charges for one human turn: its line, plus 1 for "Human" or the speaker name. */
  function HumanEntryCost(entry: HumanChatLog, isPrivate: bool): nat
  {
    TokenCount(entry.line) + (if isPrivate then 1 else TokenCount(entry.name))
  }

  /** What a recount charges for one AI turn: its line plus 1 for the AI's name. */
  function AiEntryCost(line: string): nat
  {
    TokenCount(line) + 1
  }

  function HumanLogCost(log: seq<HumanChatLog>, isPrivate: bool): nat
  {
    if log == [] then 0
    else HumanLogCost(log[..|log| - 1], isPrivate) + HumanEntryCost(log[|log| - 1], isPrivate)
  }

  function AiLogCost(log: seq<string>): nat
  {
    if log == [] then 0 else AiLogCost(log[..|log| - 1]) + AiEntryCost(log[|log| - 1])
  }

  /** `ChatHistory::new` (src/main.rs:35-45). */
  function NewChat(isPrivate: bool): ChatState
  {
    ChatState(isPrivate, [], [], {}, InitialTokenEstimate, DefaultPreamble, DefaultConfiguration)
  }

  /** The entries `drain(0..len / 2)` leaves behind. */
  function DropOldestHalf<T>(log: seq<T>): seq<T>
  {
    log[|log| / 2..]
  }

  /** `purge_half_chat_logs`: each log loses its oldest half, independently (src/main.rs:90-93). */
  function AfterPurge(s: ChatState): ChatState
  {
    s.(humanChatLog := DropOldestHalf(s.humanChatLog), aiChatLog := DropOldestHalf(s.aiChatLog))
  }

  /** `recalculate_tokens` (src/main.rs:95-108). */
  function AfterRecount(s: ChatState): ChatState
  {
    s.(tokensSoFar := s.FullRecount())
  }

  /** Whether charging `line` to `s` goes over the budget and so purges first. */
  predicate OverBudget(s: ChatState, line: string)
  {
    TokenCount(line) + s.tokensSoFar > TokenBudget
  }

  /** `calculate_new_tokens` (src/main.rs:81-88). */
  function AfterCharge(s: ChatState, line: string): ChatState
  {
    var base := if OverBudget(s, line) then AfterRecount(AfterPurge(s)) else s;
    base.(tokensSoFar := base.tokensSoFar + TokenCount(line))
  }

  /** `add_human_log` (src/main.rs:59-65). */
  function AfterHumanLog(s: ChatState, name: string, line: string): ChatState
  {
    var c := AfterCharge(s, line);
    c.(humanChatLog := c.humanChatLog + [HumanChatLog(line, name)])
  }

  /** `add_ai_log` (src/main.rs:67-70). */
  function AfterAiLog(s: ChatState, line: string): ChatState
  {
    var c := AfterCharge(s, line);
    c.(aiChatLog := c.aiChatLog + [line])
  }

  /** `continue_last_ai_log`: the line is charged even when there is no AI turn to extend (src/main.rs:72-79). */
  function AfterContinuation(s: ChatState, line: string): ChatState
  {
    var c := AfterCharge(s, line);
    var n := |c.aiChatLog|;
    if n == 0 then c else c.(aiChatLog := c.aiChatLog[..n - 1] + [c.aiChatLog[n - 1] + line])
  }

  /** `reset` (src/main.rs:52-57). */
  function AfterReset(s: ChatState): ChatState
  {
    AfterRecount(s.(humanChatLog := [], aiChatLog := [], seenNames := {}))
  }

  /** `part` is what is left of `whole` after dropping some of its oldest entries. */
  predicate IsSuffix<T(==)>(part: seq<T>, whole: seq<T>)
  {
    |part| <= |whole| && part == whole[|whole| - |part|..]
  }

  /** Dropping oldest entries of a suffix leaves a suffix. */
  lemma SuffixDrop<T>(part: seq<T>, whole: seq<T>, d: nat)
    requires IsSuffix(part, whole) && d <= |part|
    ensures IsSuffix(part[d..], whole)
  {
    assert part[d..] == whole[|whole| - |part| + d..];
  }

  /** A non-empty suffix ends with the last entry of the whole. */
  lemma SuffixLast<T>(part: seq<T>, whole: seq<T>)
    requires IsSuffix(part, whole) && part != []
    ensures whole != [] && part[|part| - 1] == whole[|whole| - 1]
  {
  }

  /** Privacy, seen names, preamble and configuration agree: none of the log operations touches them. */
  predicate SameSettings(a: ChatState, b: ChatState)
  {
    a.isPrivate == b.isPrivate && a.seenNames == b.seenNames
    && a.startContext == b.startContext && a.configuration == b.configuration
  }

  // ---------------------------------------------------------------------------------------------
  // Properties of the budget step, the purge and the recount.
  // ---------------------------------------------------------------------------------------------

  /** How many oldest entries of a log of length `n` the budget step drops. */
  function Dropped(s: ChatState, line: string, n: nat): nat
  {
    if OverBudget(s, line) then n / 2 else 0
  }

  /**
   * The budget step: within budget the logs stay and the estimate grows by the line's cost;
   * over budget each log keeps its newest entries and the estimate is a fresh recount plus that cost.
   * A non-empty log is never emptied, and everything but logs and estimate is untouched.
   */
  lemma ChargeShape(s: ChatState, line: string)
    ensures var c := AfterCharge(s, line);
      && c.humanChatLog == s.humanChatLog[Dropped(s, line, |s.humanChatLog|)..]
      && c.aiChatLog == s.aiChatLog[Dropped(s, line, |s.aiChatLog|)..]
      && (s.aiChatLog != [] ==> c.aiChatLog != [] && c.aiChatLog[|c.aiChatLog| - 1] == s.aiChatLog[|s.aiChatLog| - 1])
      && (s.humanChatLog != [] ==> c.humanChatLog != [])
      && c.tokensSoFar == (if OverBudget(s, line) then c.FullRecount() else s.tokensSoFar) + TokenCount(line)
      && c.(humanChatLog := s.humanChatLog, aiChatLog := s.aiChatLog, tokensSoFar := s.tokensSoFar) == s
  {
    var c := AfterCharge(s, line);
    if OverBudget(s, line) {
      var p := AfterPurge(s);
      PurgeKeepsNewest(s.humanChatLog);
      PurgeKeepsNewest(s.aiChatLog);
      assert c == p.(tokensSoFar := p.FullRecount() + TokenCount(line));
    } else {
      assert c == s.(tokensSoFar := s.tokensSoFar + TokenCount(line));
    }
  }

  /** Purging keeps the newest ceil(n/2) entries, in order. */
  lemma PurgeKeepsNewest<T>(log: seq<T>)
    ensures |DropOldestHalf(log)| == |log| - |log| / 2
    ensures forall k :: 0 <= k < |DropOldestHalf(log)| ==> DropOldestHalf(log)[k] == log[|log| / 2 + k]
    ensures log != [] ==> DropOldestHalf(log) != [] && DropOldestHalf(log)[|DropOldestHalf(log)| - 1] == log[|log| - 1]
  {
  }

  /** The recount of a log with one more entry adds exactly that entry's cost. */
  lemma HumanLogCostAppend(log: seq<HumanChatLog>, e: HumanChatLog, isPrivate: bool)
    ensures HumanLogCost(log + [e], isPrivate) == HumanLogCost(log, isPrivate) + HumanEntryCost(e, isPrivate)
  {
    assert (log + [e])[..|log|] == log;
  }

  lemma AiLogCostAppend(log: seq<string>, line: string)
    ensures AiLogCost(log + [line]) == AiLogCost(log) + AiEntryCost(line)
  {
    assert (log + [line])[..|log|] == log;
  }

  /** Extending the last AI turn by `line` adds the spaces of `line` to the recount. */
  lemma AiLogCostExtendLast(log: seq<string>, line: string)
    requires log != []
    ensures AiLogCost(log[..|log| - 1] + [log[|log| - 1] + line]) == AiLogCost(log) + Occurrences(line, ' ')
  {
    var n := |log|;
    var init := log[..n - 1];
    var last := log[n - 1];
    assert log == init + [last];
    AiLogCostAppend(init, last + line);
    AiLogCostAppend(init, last);
    TokenCountAppend(last, line);
    assert AiEntryCost(last + line) == AiEntryCost(last) + Occurrences(line, ' ');
  }

  /**
   * After `reset` the logs and seen names are empty and the estimate is exactly the preamble's cost;
   * preamble, privacy and configuration are kept.
   */
  lemma ResetRecountsPreamble(s: ChatState)
    ensures var r := AfterReset(s);
      && r.humanChatLog == [] && r.aiChatLog == [] && r.seenNames == {}
      && r.tokensSoFar == TokenCount(s.startContext) && r.Lag() == 0
      && r.startContext == s.startContext && r.isPrivate == s.isPrivate && r.configuration == s.configuration
  {
  }

  /**
   * The running estimate after `add_human_log` lags a full recount by the speaker label's cost
   * more than before, or by exactly that cost when the step purged: the incremental charge counts the
   * line only, while a recount also counts "Human" or the speaker's name.
   */
  lemma HumanLogLag(s: ChatState, name: string, line: string)
    ensures var r := AfterHumanLog(s, name, line);
      var labelCost := if s.isPrivate then 1 else TokenCount(name);
      r.Lag() == (if OverBudget(s, line) then 0 else s.Lag()) + labelCost
  {
    var c := AfterCharge(s, line);
    HumanLogCostAppend(c.humanChatLog, HumanChatLog(line, name), s.isPrivate);
  }

  /** The same for `add_ai_log`: the AI name's cost (1) is left out of the incremental charge. */
  lemma AiLogLag(s: ChatState, line: string)
    ensures AfterAiLog(s, line).Lag() == (if OverBudget(s, line) then 0 else s.Lag()) + 1
  {
    var c := AfterCharge(s, line);
    AiLogCostAppend(c.aiChatLog, line);
  }

  /**
   * `continue_last_ai_log` charges the whole line although appending it to the last turn adds only
   * its spaces to a recount, so the estimate runs one ahead; with no AI turn the text is dropped and
   * the estimate runs ahead by the whole charge.
   */
  lemma ContinuationLag(s: ChatState, line: string)
    ensures var c := AfterCharge(s, line);
      AfterContinuation(s, line).Lag()
        == (if OverBudget(s, line) then 0 else s.Lag()) - (if c.aiChatLog == [] then TokenCount(line) else 1)
  {
    var c := AfterCharge(s, line);
    if c.aiChatLog != [] {
      AiLogCostExtendLast(c.aiChatLog, line);
    }
  }

  /** A step within budget leaves the estimate within budget. */
  lemma ChargeWithinBudget(s: ChatState, line: string)
    requires !OverBudget(s, line)
    ensures AfterCharge(s, line).tokensSoFar <= TokenBudget
    ensures AfterCharge(s, line) == s.(tokensSoFar := s.tokensSoFar + TokenCount(line))
  {
  }

  /** `add_human_log` appends exactly one entry at the end, beside what the purge drops. */
  lemma HumanLogAppends(s: ChatState, name: string, line: string)
    ensures var r := AfterHumanLog(s, name, line);
      var d := Dropped(s, line, |s.humanChatLog|);
      && r.humanChatLog == s.humanChatLog[d..] + [HumanChatLog(line, name)]
      && r.aiChatLog == s.aiChatLog[Dropped(s, line, |s.aiChatLog|)..]
      && SameSettings(r, s)
  {
    ChargeShape(s, line);
  }

  /** `add_ai_log` appends exactly one entry at the end, beside what the purge drops. */
  lemma AiLogAppends(s: ChatState, line: string)
    ensures var r := AfterAiLog(s, line);
      var d := Dropped(s, line, |s.aiChatLog|);
      && r.aiChatLog == s.aiChatLog[d..] + [line]
      && r.humanChatLog == s.humanChatLog[Dropped(s, line, |s.humanChatLog|)..]
      && SameSettings(r, s)
  {
    ChargeShape(s, line);
  }

  /** Continuation never changes the AI log's length (beside the purge) and only extends its last entry. */
  lemma ContinuationExtendsLast(s: ChatState, line: string)
    ensures var r := AfterContinuation(s, line);
      var d := Dropped(s, line, |s.aiChatLog|);
      && |r.aiChatLog| == |s.aiChatLog| - d
      && (s.aiChatLog == [] ==> r.aiChatLog == [])
      && (s.aiChatLog != [] ==>
            r.aiChatLog == s.aiChatLog[d..|s.aiChatLog| - 1] + [s.aiChatLog[|s.aiChatLog| - 1] + line])
      && r.humanChatLog == s.humanChatLog[Dropped(s, line, |s.humanChatLog|)..]
      && SameSettings(r, s)
  {
    ChargeShape(s, line);
    var n := |s.aiChatLog|;
    var d := Dropped(s, line, n);
    if n != 0 {
      var c := AfterCharge(s, line);
      assert c.aiChatLog[..|c.aiChatLog| - 1] == s.aiChatLog[d..n - 1];
    }
  }
}
