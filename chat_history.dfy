/**
 * `ChatHistory` (src/main.rs:19-175): the mutable per-conversation state. Each method is proved
 * to perform the pure transition of the same name in chat_state.dfy.
 */
module ChatHistories {
  import opened Tokens
  import opened ChatState
  import opened Rendering

  class ChatHistory {
    const isPrivate: bool
    var humanChatLog: seq<HumanChatLog>
    var aiChatLog: seq<string>
    var seenNames: set<string>
    var tokensSoFar: nat
    var startContext: string
    var configuration: Configuration

    /** The value of every field. */
    function State(): ChatState
      reads this
    {
      ChatState(isPrivate, humanChatLog, aiChatLog, seenNames, tokensSoFar, startContext, configuration)
    }

    /** `ChatHistory::new` (src/main.rs:35-45). */
    constructor (isPrivate: bool)
      ensures State() == NewChat(isPrivate)
    {
      this.isPrivate := isPrivate;
      humanChatLog := [];
      aiChatLog := [];
      seenNames := {};
      tokensSoFar := InitialTokenEstimate;
      startContext := DefaultPreamble;
      configuration := DefaultConfiguration;
    }

    /** `reset` (src/main.rs:52-57). */
    method Reset()
      modifies this
      ensures State() == AfterReset(old(State()))
    {
      humanChatLog := [];
      aiChatLog := [];
      seenNames := {};
      RecalculateTokens();
    }

    /** `add_human_log` (src/main.rs:59-65). */
    method AddHumanLog(name: string, line: string)
      modifies this
      ensures State() == AfterHumanLog(old(State()), name, line)
    {
      CalculateNewTokens(line);
      humanChatLog := humanChatLog + [HumanChatLog(line, name)];
    }

    /** `add_ai_log` (src/main.rs:67-70). */
    method AddAiLog(line: string)
      modifies this
      ensures State() == AfterAiLog(old(State()), line)
    {
      CalculateNewTokens(line);
      aiChatLog := aiChatLog + [line];
    }

    /** `continue_last_ai_log` (src/main.rs:72-79); with no AI turn the text is dropped. */
    method ContinueLastAiLog(line: string)
      modifies this
      ensures State() == AfterContinuation(old(State()), line)
    {
      CalculateNewTokens(line);
      if |aiChatLog| > 0 {
        var n := |aiChatLog|;
        aiChatLog := aiChatLog[..n - 1] + [aiChatLog[n - 1] + line];
      }
    }

    /** `calculate_new_tokens` (src/main.rs:81-88). */
    method CalculateNewTokens(line: string)
      modifies this
      ensures State() == AfterCharge(old(State()), line)
    {
      var newTokens := TokenCount(line);
      if newTokens + tokensSoFar > TokenBudget {
        PurgeHalfChatLogs();
        RecalculateTokens();
      }
      tokensSoFar := tokensSoFar + newTokens;
    }

    /** `purge_half_chat_logs` (src/main.rs:90-93). */
    method PurgeHalfChatLogs()
      modifies this
      ensures State() == AfterPurge(old(State()))
    {
      humanChatLog := humanChatLog[|humanChatLog| / 2..];
      aiChatLog := aiChatLog[|aiChatLog| / 2..];
    }

    /** `recalculate_tokens`: the estimate is recounted over preamble and both logs (src/main.rs:95-108). */
    method RecalculateTokens()
      modifies this
      ensures State() == AfterRecount(old(State()))
    {
      var human, ai := humanChatLog, aiChatLog;
      var total := TokenCount(startContext);
      var i := 0;
      while i < |human|
        invariant 0 <= i <= |human|
        invariant total == TokenCount(startContext) + HumanLogCost(human[..i], isPrivate)
      {
        assert human[..i + 1][..i] == human[..i];
        total := total + TokenCount(human[i].line) + if isPrivate then 1 else TokenCount(human[i].name);
        i := i + 1;
      }
      assert human[..i] == human;
      var j := 0;
      while j < |ai|
        invariant 0 <= j <= |ai|
        invariant total == TokenCount(startContext) + HumanLogCost(human, isPrivate) + AiLogCost(ai[..j])
      {
        assert ai[..j + 1][..j] == ai[..j];
        total := total + TokenCount(ai[j]) + 1;
        j := j + 1;
      }
      assert ai[..j] == ai;
      tokensSoFar := total;
    }

    /** `get_stop_tokens` (src/main.rs:110-122), picking names in the set's own order. */
    method GetStopTokens(aiName: string) returns (tokens: seq<string>)
      ensures StopTokensFor(tokens, State(), aiName)
    {
      tokens := ["\n", aiName + ":"];
      if isPrivate {
        tokens := tokens + ["Human:"];
      } else {
        var unvisited := seenNames;
        ghost var picked: seq<string> := [];
        while |tokens| < 4 && unvisited != {}
          invariant unvisited <= seenNames
          invariant 2 <= |tokens| <= 4 && |picked| == |tokens| - 2
          invariant |picked| + |unvisited| == |seenNames|
          invariant tokens[0] == "\n" && tokens[1] == aiName + ":"
          invariant forall k :: 0 <= k < |picked| ==> picked[k] in seenNames - unvisited && tokens[k + 2] == picked[k] + ":"
          invariant forall k, l :: 2 <= k < l < |tokens| ==> tokens[k] != tokens[l]
          decreases unvisited
        {
          var name :| name in unvisited;
          forall k | 2 <= k < |tokens|
            ensures tokens[k] != name + ":"
          {
            if tokens[k] == name + ":" {
              ColonSuffixInjective(picked[k - 2], name);
            }
          }
          tokens := tokens + [name + ":"];
          picked := picked + [name];
          unvisited := unvisited - {name};
        }
        forall k | 2 <= k < |tokens|
          ensures exists n :: n in seenNames && tokens[k] == n + ":"
        {
          assert picked[k - 2] in seenNames;
        }
      }
    }

    /** `to_string` (src/main.rs:126-174): reads the state and writes the prompt. */
    method ToString(aiName: string) returns (buf: string)
      ensures buf == Render(State(), aiName)
    {
      // The two peekable iterators, as the entries each has still to yield.
      var human, ai, priv := humanChatLog, aiChatLog, isPrivate;
      ghost var prompt := Render(State(), aiName);
      buf := startContext + "\n\n";
      var humanTalking := true;
      while human != [] || ai != []
        invariant buf + Pending(human, ai, priv, aiName, humanTalking) == prompt
        decreases |human| + |ai|, if (humanTalking && human == []) || (!humanTalking && ai == []) then 1 else 0
      {
        if humanTalking {
          if human != [] {
            HumanStepKeepsPending(buf, prompt, human, ai, priv, aiName);
            buf := buf + HumanLineText(human[0], priv);
            human := human[1..];
          } else {
            PendingSkip(human, ai, priv, aiName, humanTalking);
          }
        } else {
          if ai != [] {
            AiStepKeepsPending(buf, prompt, human, ai, priv, aiName);
            buf := buf + AiLineText(aiName, ai[0], |ai| == 1 && human == []);
            ai := ai[1..];
          } else {
            PendingSkip(human, ai, priv, aiName, humanTalking);
          }
        }
        humanTalking := !humanTalking;
      }
    }
  }

  /**
   * The stop tokens of the conversation `s`: a newline and "<aiName>:", then "Human:" when
   * private, otherwise "<name>:" for min(2, seen) distinct seen names.
   */
  ghost predicate StopTokensFor(tokens: seq<string>, s: ChatState, aiName: string)
  {
    && |tokens| >= 2 && tokens[0] == "\n" && tokens[1] == aiName + ":"
    && (s.isPrivate ==> tokens == ["\n", aiName + ":", "Human:"])
    && (!s.isPrivate ==>
          && |tokens| == 2 + Min(2, |s.seenNames|)
          && (forall k :: 2 <= k < |tokens| ==> exists n :: n in s.seenNames && tokens[k] == n + ":")
          && (forall k, l :: 2 <= k < l < |tokens| ==> tokens[k] != tokens[l]))
  }

  lemma ColonSuffixInjective(a: string, b: string)
    requires a + ":" == b + ":"
    ensures a == b
  {
    assert a == (a + ":")[..|a|];
    assert b == (b + ":")[..|b|];
  }
}
