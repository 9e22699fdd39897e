/**
 * The prompt that `ChatHistory::to_string` produces (src/main.rs:126-174), as a recursive
 * function over the two logs, and an independent view of it as a merged sequence of turns.
 */
module Rendering {
  import opened Text
  import opened ChatState

  /** A human line: the label ("Human" when private, else the stored name), the trimmed line, a newline. */
  function HumanLineText(entry: HumanChatLog, isPrivate: bool): string
  {
    (if isPrivate then "Human" else entry.name) + ": " + Trim(entry.line) + "\n"
  }

  /** An AI line: the AI's name, the trimmed line, then " " when it is the final line, else a newline. */
  function AiLineText(aiName: string, line: string, isFinal: bool): string
  {
    aiName + ": " + Trim(line) + (if isFinal then " " else "\n")
  }

  /** The turns after the preamble: human and AI alternate, human first, then the rest of the longer log. */
  function Transcript(human: seq<HumanChatLog>, ai: seq<string>, isPrivate: bool, aiName: string): string
    decreases |human| + |ai|
  {
    if human == [] && ai == [] then ""
    else if ai == [] then HumanLineText(human[0], isPrivate) + Transcript(human[1..], ai, isPrivate, aiName)
    else if human == [] then AiLineText(aiName, ai[0], |ai| == 1) + Transcript(human, ai[1..], isPrivate, aiName)
    else
      HumanLineText(human[0], isPrivate) + AiLineText(aiName, ai[0], |human| == 1 && |ai| == 1)
      + Transcript(human[1..], ai[1..], isPrivate, aiName)
  }

  /** The whole prompt: the preamble, a blank line, then the transcript. */
  function Render(s: ChatState, aiName: string): string
  {
    s.startContext + "\n\n" + Transcript(s.humanChatLog, s.aiChatLog, s.isPrivate, aiName)
  }

  // ---------------------------------------------------------------------------------------------
  // The same output seen as a sequence of turns.
  // ---------------------------------------------------------------------------------------------

  datatype Turn = HumanTurn(entry: HumanChatLog) | AiTurn(line: string)

  /** The order in which the turns are written. */
  function Interleave(human: seq<HumanChatLog>, ai: seq<string>): seq<Turn>
    decreases |human| + |ai|
  {
    if human == [] && ai == [] then []
    else if ai == [] then [HumanTurn(human[0])] + Interleave(human[1..], ai)
    else if human == [] then [AiTurn(ai[0])] + Interleave(human, ai[1..])
    else [HumanTurn(human[0]), AiTurn(ai[0])] + Interleave(human[1..], ai[1..])
  }

  /** One turn's text; `isFinal` says whether any turn follows it. */
  function TurnText(turn: Turn, isFinal: bool, isPrivate: bool, aiName: string): string
  {
    match turn
    case HumanTurn(e) => HumanLineText(e, isPrivate)
    case AiTurn(l) => AiLineText(aiName, l, isFinal)
  }

  /** Writes each turn in order; an AI turn is final exactly when no turn follows it. */
  function RenderTurns(turns: seq<Turn>, isPrivate: bool, aiName: string): string
  {
    if turns == [] then ""
    else TurnText(turns[0], |turns| == 1, isPrivate, aiName) + RenderTurns(turns[1..], isPrivate, aiName)
  }

  lemma RenderTurnsPair(x: Turn, y: Turn, rest: seq<Turn>, isPrivate: bool, aiName: string)
    ensures RenderTurns([x, y] + rest, isPrivate, aiName)
            == TurnText(x, false, isPrivate, aiName) + TurnText(y, rest == [], isPrivate, aiName)
               + RenderTurns(rest, isPrivate, aiName)
  {
    assert ([x, y] + rest)[1..] == [y] + rest;
    RenderTurnsCons(y, rest, isPrivate, aiName);
  }

  lemma RenderTurnsCons(turn: Turn, rest: seq<Turn>, isPrivate: bool, aiName: string)
    ensures RenderTurns([turn] + rest, isPrivate, aiName)
            == TurnText(turn, rest == [], isPrivate, aiName) + RenderTurns(rest, isPrivate, aiName)
  {
    assert ([turn] + rest)[1..] == rest;
  }

  function Min(a: nat, b: nat): nat { if a <= b then a else b }

  /**
   * The k-th written turn: while both logs last, even positions are human turns and odd ones AI
   * turns, in their original order; after that come the remaining entries of the longer log.
   */
  lemma {:induction false} InterleaveAt(human: seq<HumanChatLog>, ai: seq<string>, k: nat)
    requires k < |human| + |ai|
    ensures |Interleave(human, ai)| == |human| + |ai|
    ensures var m := Min(|human|, |ai|);
      Interleave(human, ai)[k] ==
        if k < 2 * m then (if k % 2 == 0 then HumanTurn(human[k / 2]) else AiTurn(ai[k / 2]))
        else if |human| > |ai| then HumanTurn(human[k - m])
        else AiTurn(ai[k - m])
    decreases |human| + |ai|
  {
    if ai == [] {
      if k > 0 {
        InterleaveAt(human[1..], ai, k - 1);
      } else if |human| > 1 {
        InterleaveAt(human[1..], ai, 0);
      }
    } else if human == [] {
      if k > 0 {
        InterleaveAt(human, ai[1..], k - 1);
      } else if |ai| > 1 {
        InterleaveAt(human, ai[1..], 0);
      }
    } else {
      var rest := Interleave(human[1..], ai[1..]);
      if |human| + |ai| > 2 {
        InterleaveAt(human[1..], ai[1..], if k >= 2 then k - 2 else 0);
      } else {
        assert rest == [];
      }
      assert Interleave(human, ai) == [HumanTurn(human[0]), AiTurn(ai[0])] + rest;
    }
  }

  lemma {:induction false} InterleaveLength(human: seq<HumanChatLog>, ai: seq<string>)
    ensures |Interleave(human, ai)| == |human| + |ai|
    decreases |human| + |ai|
  {
    if human != [] && ai == [] {
      InterleaveLength(human[1..], ai);
    } else if human == [] && ai != [] {
      InterleaveLength(human, ai[1..]);
    } else if human != [] {
      InterleaveLength(human[1..], ai[1..]);
    }
  }

  /** The transcript is the rendering of the interleaved turns, with the trailing-space rule on the final one. */
  lemma {:induction false} TranscriptIsInterleaving(human: seq<HumanChatLog>, ai: seq<string>, isPrivate: bool, aiName: string)
    ensures Transcript(human, ai, isPrivate, aiName) == RenderTurns(Interleave(human, ai), isPrivate, aiName)
    decreases |human| + |ai|
  {
    if human == [] && ai == [] {
    } else if ai == [] {
      TranscriptIsInterleaving(human[1..], ai, isPrivate, aiName);
      RenderTurnsCons(HumanTurn(human[0]), Interleave(human[1..], ai), isPrivate, aiName);
    } else if human == [] {
      TranscriptIsInterleaving(human, ai[1..], isPrivate, aiName);
      InterleaveLength(human, ai[1..]);
      RenderTurnsCons(AiTurn(ai[0]), Interleave(human, ai[1..]), isPrivate, aiName);
    } else {
      var rest := Interleave(human[1..], ai[1..]);
      TranscriptIsInterleaving(human[1..], ai[1..], isPrivate, aiName);
      InterleaveLength(human[1..], ai[1..]);
      RenderTurnsPair(HumanTurn(human[0]), AiTurn(ai[0]), rest, isPrivate, aiName);
    }
  }

  /**
   * How the prompt ends: with the trailing space of a final AI line exactly when the AI log is
   * non-empty and at least as long as the human log; otherwise with a human line's newline.
   */
  lemma {:induction false} TranscriptEnding(human: seq<HumanChatLog>, ai: seq<string>, isPrivate: bool, aiName: string)
    requires human != [] || ai != []
    ensures EndsWith(Transcript(human, ai, isPrivate, aiName), if |ai| >= |human| then ' ' else '\n')
    decreases |human| + |ai|
  {
    if ai == [] {
      if |human| > 1 {
        TranscriptEnding(human[1..], ai, isPrivate, aiName);
      }
      HumanFirstEnding(human, isPrivate, aiName);
    } else if human == [] {
      if |ai| > 1 {
        TranscriptEnding(human, ai[1..], isPrivate, aiName);
      }
      AiFirstEnding(ai, isPrivate, aiName);
    } else {
      if |human| > 1 || |ai| > 1 {
        TranscriptEnding(human[1..], ai[1..], isPrivate, aiName);
      }
      PairEnding(human, ai, isPrivate, aiName);
    }
  }

  predicate EndsWith(t: string, c: char)
  {
    t != [] && t[|t| - 1] == c
  }

  /** Only human turns: the last one's newline ends the transcript. */
  lemma HumanFirstEnding(human: seq<HumanChatLog>, isPrivate: bool, aiName: string)
    requires human != []
    requires |human| > 1 ==> EndsWith(Transcript(human[1..], [], isPrivate, aiName), '\n')
    ensures EndsWith(Transcript(human, [], isPrivate, aiName), '\n')
  {
    var line := HumanLineText(human[0], isPrivate);
    var rest := Transcript(human[1..], [], isPrivate, aiName);
    assert Transcript(human, [], isPrivate, aiName) == line + rest;
    HumanLineEnds(human[0], isPrivate);
    EndsWithAppend(line, rest, '\n');
  }

  /** Only AI turns: the final one's space ends the transcript. */
  lemma AiFirstEnding(ai: seq<string>, isPrivate: bool, aiName: string)
    requires ai != []
    requires |ai| > 1 ==> EndsWith(Transcript([], ai[1..], isPrivate, aiName), ' ')
    ensures EndsWith(Transcript([], ai, isPrivate, aiName), ' ')
  {
    var line := AiLineText(aiName, ai[0], |ai| == 1);
    var rest := Transcript([], ai[1..], isPrivate, aiName);
    assert Transcript([], ai, isPrivate, aiName) == line + rest;
    AiLineEnds(aiName, ai[0], |ai| == 1);
    EndsWithAppend(line, rest, ' ');
  }

  /** A human turn and an AI turn, then the rest: the rest decides, or the pair's final AI line. */
  lemma PairEnding(human: seq<HumanChatLog>, ai: seq<string>, isPrivate: bool, aiName: string)
    requires human != [] && ai != []
    requires |human| > 1 || |ai| > 1 ==>
      EndsWith(Transcript(human[1..], ai[1..], isPrivate, aiName), if |ai| - 1 >= |human| - 1 then ' ' else '\n')
    ensures EndsWith(Transcript(human, ai, isPrivate, aiName), if |ai| >= |human| then ' ' else '\n')
  {
    var final := |human| == 1 && |ai| == 1;
    var line := AiLineText(aiName, ai[0], final);
    var pair := HumanLineText(human[0], isPrivate) + line;
    var rest := Transcript(human[1..], ai[1..], isPrivate, aiName);
    assert Transcript(human, ai, isPrivate, aiName) == pair + rest;
    var mark := if |ai| >= |human| then ' ' else '\n';
    if final {
      AiLineEnds(aiName, ai[0], true);
      EndsWithAppend(HumanLineText(human[0], isPrivate), line, mark);
    }
    EndsWithAppend(pair, rest, mark);
  }

  /** A concatenation ends with what its second part ends with, or, when that is empty, the first. */
  lemma EndsWithAppend(a: string, b: string, c: char)
    requires if b == [] then EndsWith(a, c) else EndsWith(b, c)
    ensures EndsWith(a + b, c)
  {
    if b == [] {
      assert a + b == a;
    }
  }

  lemma HumanLineEnds(entry: HumanChatLog, isPrivate: bool)
    ensures var h := HumanLineText(entry, isPrivate); h != [] && h[|h| - 1] == '\n'
  {
  }

  lemma AiLineEnds(aiName: string, line: string, isFinal: bool)
    ensures var a := AiLineText(aiName, line, isFinal); a != [] && a[|a| - 1] == (if isFinal then ' ' else '\n')
  {
  }

  /** The prompt starts with the preamble followed by a blank line. */
  lemma RenderStartsWithPreamble(s: ChatState, aiName: string)
    ensures StartsWith(Render(s, aiName), s.startContext + "\n\n")
  {
  }

  /** A lone human turn is written with its newline: the trailing space belongs to AI lines only. */
  lemma RenderLoneHumanExample()
    ensures Render(ChatState(false, [HumanChatLog("hi", "Alice")], [], {}, 0, "Hello.", DefaultConfiguration), "Bot")
            == "Hello.\n\nAlice: hi\n"
  {
    var e := HumanChatLog("hi", "Alice");
    TrimKeeps("hi");
    assert HumanLineText(e, false) == "Alice: hi\n";
    assert [e][1..] == [];
    assert Transcript([e], [], false, "Bot") == "Alice: hi\n";
  }

  /** One human and one AI turn: the AI line is final and ends with a space. */
  lemma RenderExchangeExample()
    ensures Render(ChatState(false, [HumanChatLog("hi", "A")], ["hey"], {}, 0, "P", DefaultConfiguration), "Bot")
            == "P\n\nA: hi\nBot: hey "
  {
    var h: seq<HumanChatLog> := [HumanChatLog("hi", "A")];
    var a: seq<string> := ["hey"];
    ExampleLines();
    assert Transcript(h[1..], a[1..], false, "Bot") == "";
  }

  lemma ExampleLines()
    ensures HumanLineText(HumanChatLog("hi", "A"), false) == "A: hi\n"
    ensures AiLineText("Bot", "hey", true) == "Bot: hey "
  {
    TrimKeeps("hi");
    TrimKeeps("hey");
  }

  /**
   * What the rendering loop has still to write when the unread entries are `human` and `ai` and
   * `humanTurn` says whose turn it is; this is the loop invariant of `ChatHistory.ToString`.
   */
  ghost function Pending(human: seq<HumanChatLog>, ai: seq<string>, isPrivate: bool, aiName: string, humanTurn: bool): string
  {
    if humanTurn || ai == [] then Transcript(human, ai, isPrivate, aiName)
    else AiLineText(aiName, ai[0], human == [] && |ai| == 1) + Transcript(human, ai[1..], isPrivate, aiName)
  }

  /** A human step of the loop writes the next human line and hands the turn to the AI. */
  lemma PendingHumanStep(human: seq<HumanChatLog>, ai: seq<string>, isPrivate: bool, aiName: string)
    requires human != []
    ensures Pending(human, ai, isPrivate, aiName, true)
            == HumanLineText(human[0], isPrivate) + Pending(human[1..], ai, isPrivate, aiName, false)
  {
  }

  /** An AI step of the loop writes the next AI line, final when nothing is left after it. */
  lemma PendingAiStep(human: seq<HumanChatLog>, ai: seq<string>, isPrivate: bool, aiName: string)
    requires ai != []
    ensures Pending(human, ai, isPrivate, aiName, false)
            == AiLineText(aiName, ai[0], human == [] && |ai| == 1) + Pending(human, ai[1..], isPrivate, aiName, true)
  {
  }

  /** A step whose log is exhausted writes nothing and only passes the turn. */
  lemma PendingSkip(human: seq<HumanChatLog>, ai: seq<string>, isPrivate: bool, aiName: string, humanTurn: bool)
    requires if humanTurn then human == [] else ai == []
    ensures Pending(human, ai, isPrivate, aiName, humanTurn) == Pending(human, ai, isPrivate, aiName, !humanTurn)
  {
  }

  /** The rendering loop's human step keeps its invariant. */
  lemma HumanStepKeepsPending(done: string, prompt: string, human: seq<HumanChatLog>, ai: seq<string>,
                              isPrivate: bool, aiName: string)
    requires human != []
    requires done + Pending(human, ai, isPrivate, aiName, true) == prompt
    ensures (done + HumanLineText(human[0], isPrivate)) + Pending(human[1..], ai, isPrivate, aiName, false) == prompt
  {
    PendingHumanStep(human, ai, isPrivate, aiName);
  }

  /** The rendering loop's AI step keeps its invariant. */
  lemma AiStepKeepsPending(done: string, prompt: string, human: seq<HumanChatLog>, ai: seq<string>,
                           isPrivate: bool, aiName: string)
    requires ai != []
    requires done + Pending(human, ai, isPrivate, aiName, false) == prompt
    ensures (done + AiLineText(aiName, ai[0], |ai| == 1 && human == []))
            + Pending(human, ai[1..], isPrivate, aiName, true) == prompt
  {
    PendingAiStep(human, ai, isPrivate, aiName);
  }
}
