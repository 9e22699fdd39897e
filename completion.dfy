/**
 * `generate_response` (src/main.rs:488-537): the completion loop. The remote service is a given
 * sequence of replies, one per call; the loop stops on a `Stop` finish reason or an empty choice
 * list, continues on `Length`, and aborts on a failed call.
 */
module Completion {
  import opened Wrappers
  import opened Text
  import opened ChatState
  import opened Rendering
  import opened ChatHistories

  datatype FinishReason = Length | Stop

  datatype Choice = Choice(text: string, finishReason: FinishReason)

  /** What one call to the service yields: its choices, or a transport or decoding failure. */
  datatype ServiceReply = Answered(choices: seq<Choice>) | Failed(message: string)

  /** The parameters of one call (src/main.rs:503-517). */
  datatype Request = Request(prompt: string, configuration: Configuration, maxTokens: nat,
                             choicesPerPrompt: nat, stopTokens: seq<string>)

  /** A failed call, or a call the given replies do not answer. */
  datatype CompletionError = Transport(message: string) | NoMoreReplies

  const MaxTokensPerCall: nat := 50
  const ChoicesPerCall: nat := 1

  /** The loop's outcome: the chunks it received, the calls it made, and how it ended. */
  datatype Exchange =
    | Finished(chunks: seq<string>, calls: nat)
    | Aborted(error: CompletionError, chunks: seq<string>, calls: nat)

  /** The choice taken from a reply (`choices.pop()`, the last one), with newlines made spaces. */
  function ChosenText(choices: seq<Choice>): string
    requires choices != []
  {
    ReplaceNewlines(choices[|choices| - 1].text)
  }

  /** What one reply means to the loop: a chunk (the last one when its choice stopped), no choice, or a failure. */
  datatype Step = Chunk(text: string, last: bool) | NoChoice | Halt(error: CompletionError)

  function Receive(reply: ServiceReply): Step
  {
    match reply
    case Failed(m) => Halt(Transport(m))
    case Answered(choices) =>
      if choices == [] then NoChoice
      else Chunk(ChosenText(choices), choices[|choices| - 1].finishReason == Stop)
  }

  /** A reply after which the loop calls again: a choice cut short by the length cap. */
  predicate Continues(reply: ServiceReply)
  {
    reply.Answered? && reply.choices != [] && reply.choices[|reply.choices| - 1].finishReason == Length
  }

  /** The outcome of the loop, as a function of the replies. */
  function Converse(replies: seq<ServiceReply>): (e: Exchange)
    ensures 1 <= e.calls <= |replies| + 1
    ensures e.calls - 1 <= |e.chunks| <= e.calls
    ensures |e.chunks| <= |replies|
  {
    if replies == [] then Aborted(NoMoreReplies, [], 1)
    else match Receive(replies[0])
      case Halt(error) => Aborted(error, [], 1)
      case NoChoice => Finished([], 1)
      case Chunk(text, last) => if last then Finished([text], 1) else Resume([text], Converse(replies[1..]))
  }

  /** An outcome preceded by rounds that each produced one chunk. */
  function Resume(done: seq<string>, e: Exchange): Exchange
  {
    e.(chunks := done + e.chunks, calls := |done| + e.calls)
  }

  /** The chunks joined in order. */
  function Concat(chunks: seq<string>): string
  {
    if chunks == [] then "" else Concat(chunks[..|chunks| - 1]) + chunks[|chunks| - 1]
  }

  lemma ConcatSnoc(chunks: seq<string>, t: string)
    ensures Concat(chunks + [t]) == Concat(chunks) + t
  {
    assert (chunks + [t])[..|chunks|] == chunks;
  }

  /**
   * The loop makes one call per reply it reads. Every reply before the last one read continued
   * (a `Length` choice); it finishes exactly when the last one read has no choice or a `Stop`
   * choice, and aborts exactly on a failed reply or when the replies run out. The chunks are the
   * chosen texts of the replies that had a choice, in order.
   */
  lemma ConverseShape(replies: seq<ServiceReply>)
    ensures var e := Converse(replies);
      var last := e.calls - 1;
      && 1 <= e.calls <= |replies| + 1
      && (forall i :: 0 <= i < last ==> Continues(replies[i]))
      && (e.Finished? <==> last < |replies| && replies[last].Answered? && !Continues(replies[last]))
      && (e.Aborted? ==> (last == |replies| && e.error == NoMoreReplies)
                         || (last < |replies| && replies[last].Failed? && e.error == Transport(replies[last].message)))
      && |e.chunks| == (if e.Finished? && replies[last].choices != [] then e.calls else last)
      && (forall i :: 0 <= i < |e.chunks| ==>
            replies[i].Answered? && replies[i].choices != [] && e.chunks[i] == ChosenText(replies[i].choices))
  {
    ConverseRounds(replies);
    ConverseChunks(replies);
  }

  /** The rounds: all but the last one read continued, and the last one decides the ending. */
  lemma {:induction false} ConverseRounds(replies: seq<ServiceReply>)
    ensures var e := Converse(replies);
      var last := e.calls - 1;
      && (forall i :: 0 <= i < last ==> Continues(replies[i]))
      && (e.Finished? <==> last < |replies| && replies[last].Answered? && !Continues(replies[last]))
      && (e.Aborted? ==> (last == |replies| && e.error == NoMoreReplies)
                         || (last < |replies| && replies[last].Failed? && e.error == Transport(replies[last].message)))
  {
    if replies != [] && Continues(replies[0]) {
      ConverseRounds(replies[1..]);
      var e := Converse(replies);
      var rest := Converse(replies[1..]);
      assert e == Resume([ChosenText(replies[0].choices)], rest);
      forall i | 1 <= i < e.calls - 1
        ensures Continues(replies[i])
      {
        assert replies[1..][i - 1] == replies[i];
      }
      if e.calls - 1 < |replies| {
        assert replies[1..][e.calls - 2] == replies[e.calls - 1];
      }
    }
  }

  /** The chunks: one per round whose reply had a choice, its chosen text. */
  lemma ConverseChunks(replies: seq<ServiceReply>)
    ensures var e := Converse(replies);
      var last := e.calls - 1;
      && |e.chunks| == (if e.Finished? && last < |replies| && replies[last].Answered? && replies[last].choices != []
                        then e.calls else last)
      && (forall i :: 0 <= i < |e.chunks| ==>
            replies[i].Answered? && replies[i].choices != [] && e.chunks[i] == ChosenText(replies[i].choices))
  {
    ChunkCount(replies);
    ChunkTexts(replies);
  }

  lemma {:induction false} ChunkCount(replies: seq<ServiceReply>)
    ensures var e := Converse(replies);
      var last := e.calls - 1;
      |e.chunks| == (if e.Finished? && last < |replies| && replies[last].Answered? && replies[last].choices != []
                     then e.calls else last)
  {
    if replies != [] && Continues(replies[0]) {
      ChunkCount(replies[1..]);
      var e := Converse(replies);
      var rest := Converse(replies[1..]);
      assert e.chunks == [ChosenText(replies[0].choices)] + rest.chunks && e.calls == 1 + rest.calls;
      assert e.Finished? == rest.Finished?;
      if e.calls - 1 < |replies| {
        assert replies[1..][e.calls - 2] == replies[e.calls - 1];
      }
    }
  }

  lemma {:induction false} ChunkTexts(replies: seq<ServiceReply>)
    ensures var e := Converse(replies);
      forall i :: 0 <= i < |e.chunks| ==>
        replies[i].Answered? && replies[i].choices != [] && e.chunks[i] == ChosenText(replies[i].choices)
  {
    if replies != [] && Continues(replies[0]) {
      ChunkTexts(replies[1..]);
      var e := Converse(replies);
      var rest := Converse(replies[1..]);
      assert e.chunks == [ChosenText(replies[0].choices)] + rest.chunks;
      forall i | 1 <= i < |e.chunks|
        ensures replies[i].Answered? && replies[i].choices != [] && e.chunks[i] == ChosenText(replies[i].choices)
      {
        assert e.chunks[i] == rest.chunks[i - 1];
        assert replies[1..][i - 1] == replies[i];
      }
    }
  }

  /** The reply never contains a newline. */
  lemma {:induction false} ConverseChunksFlat(replies: seq<ServiceReply>)
    ensures '\n' !in Concat(Converse(replies).chunks)
  {
    ConverseChunks(replies);
    var chunks := Converse(replies).chunks;
    forall i | 0 <= i < |chunks|
      ensures '\n' !in chunks[i]
    {
      NewlinesReplaced(replies[i].choices[|replies[i].choices| - 1].text);
    }
    ConcatFlat(chunks);
  }

  lemma {:induction false} ConcatFlat(chunks: seq<string>)
    requires forall i :: 0 <= i < |chunks| ==> '\n' !in chunks[i]
    ensures '\n' !in Concat(chunks)
  {
    if chunks != [] {
      ConcatFlat(chunks[..|chunks| - 1]);
    }
  }

  /** A reply cut short by the length cap and then a stopped one make one reply of both texts. */
  lemma LengthThenStop(first: string, second: string)
    ensures var e := Converse([Answered([Choice(first, Length)]), Answered([Choice(second, Stop)])]);
      e == Finished([ReplaceNewlines(first), ReplaceNewlines(second)], 2)
      && Concat(e.chunks) == ReplaceNewlines(first) + ReplaceNewlines(second)
  {
    var t1, t2 := ReplaceNewlines(first), ReplaceNewlines(second);
    var replies := [Answered([Choice(first, Length)]), Answered([Choice(second, Stop)])];
    assert Receive(replies[0]) == Chunk(t1, false);
    assert replies[1..] == [Answered([Choice(second, Stop)])];
    assert Receive(replies[1..][0]) == Chunk(t2, true);
    assert Converse(replies[1..]) == Finished([t2], 1);
    assert Converse(replies) == Resume([t1], Finished([t2], 1));
    assert [t1] + [t2] == [t1, t2];
    ConcatPair(t1, t2);
  }

  lemma ConcatPair(a: string, b: string)
    ensures Concat([a, b]) == a + b
  {
    assert [a, b][..1] == [a];
    assert [a][..0] == [];
    assert Concat([a]) == "" + a == a;
  }

  /**
   * Rounds that each continued contribute their chunk, in order, and leave the outcome to the
   * replies after them.
   */
  lemma {:induction false} Continued(replies: seq<ServiceReply>, k: nat, done: seq<string>)
    requires k <= |replies| && |done| == k
    requires forall i :: 0 <= i < k ==> Receive(replies[i]) == Chunk(done[i], false)
    ensures Converse(replies) == Resume(done, Converse(replies[k..]))
  {
    if k == 0 {
      assert replies[k..] == replies;
      ResumeNothing(Converse(replies));
    } else {
      var tail := replies[1..];
      forall i | 0 <= i < k - 1
        ensures Receive(tail[i]) == Chunk(done[1..][i], false)
      {
        assert tail[i] == replies[i + 1];
      }
      Continued(tail, k - 1, done[1..]);
      assert tail[k - 1..] == replies[k..];
      ContinueOnce(replies, done[0]);
      ResumeTwice([done[0]], done[1..], Converse(replies[k..]));
      assert [done[0]] + done[1..] == done;
    }
  }

  /** A round that continues contributes its chunk and hands over to the next reply. */
  lemma ContinueOnce(replies: seq<ServiceReply>, text: string)
    requires replies != [] && Receive(replies[0]) == Chunk(text, false)
    ensures Converse(replies) == Resume([text], Converse(replies[1..]))
  {
  }

  lemma ResumeNothing(e: Exchange)
    ensures Resume([], e) == e
  {
    assert [] + e.chunks == e.chunks;
  }

  lemma ResumeTwice(a: seq<string>, b: seq<string>, e: Exchange)
    ensures Resume(a, Resume(b, e)) == Resume(a + b, e)
  {
    assert a + (b + e.chunks) == (a + b) + e.chunks;
  }

  /** The outcome when a round's reply ends the loop, after `done` from the rounds before. */
  function Closing(done: seq<string>, step: Step): Exchange
  {
    match step
    case Halt(error) => Aborted(error, done, |done| + 1)
    case NoChoice => Finished(done, |done| + 1)
    case Chunk(text, _) => Finished(done + [text], |done| + 1)
  }

  /** The outcome of the loop when the `k`-th reply ends it, after `done` from the rounds before. */
  lemma Settle(replies: seq<ServiceReply>, k: nat, done: seq<string>)
    requires k <= |replies| && |done| == k
    requires forall i :: 0 <= i < k ==> Receive(replies[i]) == Chunk(done[i], false)
    requires k < |replies| ==> !(Receive(replies[k]).Chunk? && !Receive(replies[k]).last)
    ensures Converse(replies) ==
      if k == |replies| then Aborted(NoMoreReplies, done, k + 1) else Closing(done, Receive(replies[k]))
  {
    Continued(replies, k, done);
    var rest := replies[k..];
    if k < |replies| {
      assert rest[0] == replies[k];
      CloseOnce(rest);
      ResumeClosing(done, Receive(replies[k]));
    } else {
      assert rest == [];
      assert done + [] == done;
    }
  }

  /** A reply that does not continue ends the loop in its own round. */
  lemma CloseOnce(replies: seq<ServiceReply>)
    requires replies != [] && !(Receive(replies[0]).Chunk? && !Receive(replies[0]).last)
    ensures Converse(replies) == Closing([], Receive(replies[0]))
  {
    var step := Receive(replies[0]);
    if step.Chunk? {
      assert [] + [step.text] == [step.text];
    }
  }

  lemma ResumeClosing(done: seq<string>, step: Step)
    ensures Resume(done, Closing([], step)) == Closing(done, step)
  {
    assert done + [] == done;
  }

  /** Replies accumulated chunk by chunk are the concatenations of the chunks' prefixes. */
  lemma {:induction false} Accumulated(partials: seq<string>, chunks: seq<string>)
    requires |partials| == |chunks| + 1 && partials[0] == ""
    requires forall r {:trigger chunks[r]} :: 0 <= r < |chunks| ==> partials[r + 1] == partials[r] + chunks[r]
    ensures forall r :: 0 <= r <= |chunks| ==> partials[r] == Concat(chunks[..r])
  {
    if chunks != [] {
      var n := |chunks| - 1;
      Accumulated(partials[..n + 1], chunks[..n]);
      forall r | 0 <= r <= |chunks|
        ensures partials[r] == Concat(chunks[..r])
      {
        if r <= n {
          assert partials[..n + 1][r] == partials[r];
          assert chunks[..n][..r] == chunks[..r];
        } else {
          assert chunks[..r] == chunks[..n] + [chunks[n]];
          ConcatSnoc(chunks[..n], chunks[n]);
          assert partials[..n + 1][n] == partials[n];
        }
      }
    }
  }

  /**
   * The conversation after the loop has opened an AI turn: the settings are those of `origin`,
   * each log has lost some of its oldest entries to purges (a purge never empties the human log),
   * and the AI log ends with `reply`.
   */
  ghost predicate Opened(s: ChatState, origin: ChatState, reply: string)
  {
    && SameSettings(s, origin)
    && IsSuffix(s.humanChatLog, origin.humanChatLog) && (origin.humanChatLog != [] ==> s.humanChatLog != [])
    && s.aiChatLog != [] && s.aiChatLog[|s.aiChatLog| - 1] == reply
    && IsSuffix(s.aiChatLog[..|s.aiChatLog| - 1], origin.aiChatLog)
  }

  /** The first round's `add_ai_log` opens the turn with its chunk. */
  lemma OpenTurn(s: ChatState, text: string)
    ensures Opened(AfterAiLog(s, text), s, text)
  {
    AiLogAppends(s, text);
    var r := AfterAiLog(s, text);
    assert r.aiChatLog[..|r.aiChatLog| - 1] == s.aiChatLog[Dropped(s, text, |s.aiChatLog|)..];
  }

  /** A later round's `continue_last_ai_log` extends the open turn by its chunk. */
  lemma ExtendTurn(s: ChatState, origin: ChatState, reply: string, text: string)
    requires Opened(s, origin, reply)
    ensures Opened(AfterContinuation(s, text), origin, reply + text)
  {
    ContinuationExtendsLast(s, text);
    var r := AfterContinuation(s, text);
    var earlier := s.aiChatLog[..|s.aiChatLog| - 1];
    var d := Dropped(s, text, |s.aiChatLog|);
    assert d <= |earlier| by { assert d <= |s.aiChatLog| / 2; }
    assert s.aiChatLog[d..|s.aiChatLog| - 1] == earlier[d..];
    assert r.aiChatLog[..|r.aiChatLog| - 1] == earlier[d..];
    SuffixDrop(earlier, origin.aiChatLog, d);
    SuffixDrop(s.humanChatLog, origin.humanChatLog, Dropped(s, text, |s.humanChatLog|));
  }

  /**
   * The conversation after the loop has recorded `chunks` into `s` (src/main.rs:520-527):
   * `add_ai_log` with the first chunk, `continue_last_ai_log` with each later one.
   */
  function AfterChunks(s: ChatState, chunks: seq<string>): ChatState
  {
    if chunks == [] then s
    else if |chunks| == 1 then AfterAiLog(s, chunks[0])
    else AfterContinuation(AfterChunks(s, chunks[..|chunks| - 1]), chunks[|chunks| - 1])
  }

  /** One more chunk is one more `add_ai_log` (the first) or `continue_last_ai_log` (any later one). */
  lemma AfterChunksSnoc(s: ChatState, chunks: seq<string>, t: string)
    ensures AfterChunks(s, chunks + [t])
      == if chunks == [] then AfterAiLog(s, t) else AfterContinuation(AfterChunks(s, chunks), t)
  {
    assert (chunks + [t])[..|chunks|] == chunks;
  }

  /**
   * Recording chunks opens exactly one AI turn, holding their concatenation: the settings stay,
   * and the logs lose only oldest entries to the purges.
   */
  lemma {:induction false} ChunksOpen(s: ChatState, chunks: seq<string>)
    requires chunks != []
    ensures Opened(AfterChunks(s, chunks), s, Concat(chunks))
    decreases |chunks|
  {
    var init, t := chunks[..|chunks| - 1], chunks[|chunks| - 1];
    assert chunks == init + [t];
    ConcatSnoc(init, t);
    if init == [] {
      OpenTurn(s, t);
    } else {
      ChunksOpen(s, init);
      ExtendTurn(AfterChunks(s, init), s, Concat(init), t);
    }
  }

  /** A single reply with a `Stop` choice leaves the conversation as one `add_ai_log` of its text. */
  lemma SingleStopReply(s: ChatState, text: string)
    ensures var e := Converse([Answered([Choice(text, Stop)])]);
      e == Finished([ReplaceNewlines(text)], 1) && AfterChunks(s, e.chunks) == AfterAiLog(s, ReplaceNewlines(text))
  {
    var replies := [Answered([Choice(text, Stop)])];
    assert Receive(replies[0]) == Chunk(ReplaceNewlines(text), true);
  }

  /**
   * The history update of one round (src/main.rs:520-527): the first chunk opens a new AI turn,
   * every later one extends it.
   */
  method RecordChunk(history: ChatHistory, first: bool, text: string)
    modifies history
    ensures history.State()
      == if first then AfterAiLog(old(history.State()), text) else AfterContinuation(old(history.State()), text)
  {
    if first {
      history.AddAiLog(text);
    } else {
      history.ContinueLastAiLog(text);
    }
  }

  /**
   * A request for the conversation `s`: the fixed limits, its configuration, the stop tokens of
   * `get_stop_tokens`, and its rendering as the prompt, primed with "<aiName>:" on the first round.
   */
  ghost predicate RequestFor(q: Request, s: ChatState, aiName: string, first: bool)
  {
    && q.maxTokens == MaxTokensPerCall && q.choicesPerPrompt == ChoicesPerCall
    && q.configuration == s.configuration
    && StopTokensFor(q.stopTokens, s, aiName)
    && q.prompt == if first then Render(s, aiName) + aiName + ":" else Render(s, aiName)
  }

  /** The request of one round (src/main.rs:496-517). */
  method BuildRequest(history: ChatHistory, aiName: string, first: bool) returns (request: Request)
    ensures RequestFor(request, history.State(), aiName, first)
  {
    var rendered := history.ToString(aiName);
    var prompt := if first then rendered + aiName + ":" else rendered;
    var stopTokens := history.GetStopTokens(aiName);
    request := Request(prompt, history.configuration, MaxTokensPerCall, ChoicesPerCall, stopTokens);
  }

  /**
   * The request of the round after the rounds that produced `done`, sent for the conversation
   * `s`: the conversation that started as `origin` with those chunks recorded.
   */
  ghost predicate RoundRequest(q: Request, s: ChatState, done: seq<string>, origin: ChatState, aiName: string)
  {
    RequestFor(q, s, aiName, done == []) && s == AfterChunks(origin, done)
  }

  /** The rounds that produced `chunks` all continued. */
  ghost predicate Continuing(replies: seq<ServiceReply>, chunks: seq<string>)
  {
    |chunks| <= |replies| && forall i :: 0 <= i < |chunks| ==> Receive(replies[i]) == Chunk(chunks[i], false)
  }

  /** `partials` holds the reply as it stood before each round. */
  ghost predicate Accumulates(partials: seq<string>, chunks: seq<string>)
  {
    && |partials| == |chunks| + 1 && partials[0] == ""
    && forall r {:trigger chunks[r]} :: 0 <= r < |chunks| ==> partials[r + 1] == partials[r] + chunks[r]
  }

  /** Every request sent so far is the one for its round. */
  ghost predicate Requested(requests: seq<Request>, promptStates: seq<ChatState>, chunks: seq<string>,
                            origin: ChatState, aiName: string)
  {
    && |requests| == |promptStates| <= |chunks| + 1
    && forall r :: 0 <= r < |requests| ==> RoundRequest(requests[r], promptStates[r], chunks[..r], origin, aiName)
  }

  /**
   * What the loop knows after its first rounds: the rounds that produced `chunks` all continued,
   * `partials` holds the reply as it stood before each round, and every request sent so far is
   * the one for its round.
   */
  ghost predicate Progress(replies: seq<ServiceReply>, origin: ChatState, aiName: string, chunks: seq<string>,
                           partials: seq<string>, requests: seq<Request>, promptStates: seq<ChatState>)
  {
    Continuing(replies, chunks) && Accumulates(partials, chunks) && Requested(requests, promptStates, chunks, origin, aiName)
  }

  /** Sending the request of the current round. */
  lemma Sent(replies: seq<ServiceReply>, origin: ChatState, aiName: string, chunks: seq<string>,
             partials: seq<string>, requests: seq<Request>, promptStates: seq<ChatState>, q: Request, s: ChatState)
    requires Progress(replies, origin, aiName, chunks, partials, requests, promptStates)
    requires |requests| == |chunks|
    requires RoundRequest(q, s, chunks, origin, aiName)
    ensures Progress(replies, origin, aiName, chunks, partials, requests + [q], promptStates + [s])
  {
    RequestedSnoc(requests, promptStates, chunks, origin, aiName, q, s);
  }

  lemma RequestedSnoc(requests: seq<Request>, promptStates: seq<ChatState>, chunks: seq<string>,
                      origin: ChatState, aiName: string, q: Request, s: ChatState)
    requires Requested(requests, promptStates, chunks, origin, aiName)
    requires |requests| == |chunks|
    requires RoundRequest(q, s, chunks, origin, aiName)
    ensures Requested(requests + [q], promptStates + [s], chunks, origin, aiName)
  {
    var requests', promptStates' := requests + [q], promptStates + [s];
    assert requests'[|requests|] == q && promptStates'[|requests|] == s;
    assert chunks[..|requests|] == chunks;
    forall r | 0 <= r < |requests|
      ensures RoundRequest(requests'[r], promptStates'[r], chunks[..r], origin, aiName)
    {
      assert requests'[r] == requests[r] && promptStates'[r] == promptStates[r];
    }
  }

  /** A round whose reply continued adds its chunk. */
  lemma Received(replies: seq<ServiceReply>, origin: ChatState, aiName: string, chunks: seq<string>,
                 partials: seq<string>, requests: seq<Request>, promptStates: seq<ChatState>, text: string)
    requires Progress(replies, origin, aiName, chunks, partials, requests, promptStates)
    requires |requests| == |chunks| + 1 && |chunks| < |replies|
    requires Receive(replies[|chunks|]) == Chunk(text, false)
    ensures Progress(replies, origin, aiName, chunks + [text], partials + [partials[|chunks|] + text],
                     requests, promptStates)
  {
    ContinuingSnoc(replies, chunks, text);
    AccumulatesSnoc(partials, chunks, text);
    RequestedKept(requests, promptStates, chunks, chunks + [text], origin, aiName);
  }

  lemma ContinuingSnoc(replies: seq<ServiceReply>, chunks: seq<string>, text: string)
    requires Continuing(replies, chunks) && |chunks| < |replies|
    requires Receive(replies[|chunks|]) == Chunk(text, false)
    ensures Continuing(replies, chunks + [text])
  {
    var chunks' := chunks + [text];
    forall i | 0 <= i < |chunks'|
      ensures Receive(replies[i]) == Chunk(chunks'[i], false)
    {
      if i < |chunks| {
        assert chunks'[i] == chunks[i];
      }
    }
  }

  lemma AccumulatesSnoc(partials: seq<string>, chunks: seq<string>, text: string)
    requires Accumulates(partials, chunks)
    ensures Accumulates(partials + [partials[|chunks|] + text], chunks + [text])
  {
    var chunks', partials' := chunks + [text], partials + [partials[|chunks|] + text];
    forall r | 0 <= r < |chunks'|
      ensures partials'[r + 1] == partials'[r] + chunks'[r]
    {
      if r < |chunks| {
        assert chunks'[r] == chunks[r];
      }
    }
  }

  /** The requests sent stay the ones for their rounds when later chunks arrive. */
  lemma RequestedKept(requests: seq<Request>, promptStates: seq<ChatState>, chunks: seq<string>,
                      chunks': seq<string>, origin: ChatState, aiName: string)
    requires Requested(requests, promptStates, chunks, origin, aiName)
    requires |chunks| <= |chunks'| && chunks'[..|chunks|] == chunks
    ensures Requested(requests, promptStates, chunks', origin, aiName)
  {
    forall r | 0 <= r < |requests|
      ensures RoundRequest(requests[r], promptStates[r], chunks'[..r], origin, aiName)
    {
      assert chunks'[..r] == chunks[..r];
    }
  }

  /** The round that ends the loop: the outcome and the reply so far. */
  lemma Finish(replies: seq<ServiceReply>, origin: ChatState, aiName: string, chunks: seq<string>,
               partials: seq<string>, requests: seq<Request>, promptStates: seq<ChatState>)
    requires Progress(replies, origin, aiName, chunks, partials, requests, promptStates)
    requires |chunks| < |replies| ==> !(Receive(replies[|chunks|]).Chunk? && !Receive(replies[|chunks|]).last)
    ensures Ending(replies, chunks, Converse(replies))
    ensures |chunks| <= |Converse(replies).chunks| && Converse(replies).chunks[..|chunks|] == chunks
    ensures partials[|chunks|] == Concat(chunks)
  {
    Accumulated(partials, chunks);
    assert chunks[..|chunks|] == chunks;
    Ended(replies, chunks);
  }

  /**
   * How the loop ends after the continuing rounds that produced `chunks`: one more call, then
   * the error of a failed or missing reply, or success with the last reply's chunk, if it had one.
   */
  ghost predicate Ending(replies: seq<ServiceReply>, chunks: seq<string>, e: Exchange)
  {
    var k := |chunks|;
    && k <= |replies|
    && e.calls == k + 1
    && (e.Aborted? <==> k == |replies| || Receive(replies[k]).Halt?)
    && (e.Aborted? ==> e.error == if k == |replies| then NoMoreReplies else Receive(replies[k]).error)
    && e.chunks == if k < |replies| && Receive(replies[k]).Chunk? then chunks + [Receive(replies[k]).text] else chunks
  }

  lemma Ended(replies: seq<ServiceReply>, chunks: seq<string>)
    requires Continuing(replies, chunks)
    requires |chunks| < |replies| ==> !(Receive(replies[|chunks|]).Chunk? && !Receive(replies[|chunks|]).last)
    ensures Ending(replies, chunks, Converse(replies))
    ensures |chunks| <= |Converse(replies).chunks| && Converse(replies).chunks[..|chunks|] == chunks
  {
    Settle(replies, |chunks|, chunks);
    var e := Converse(replies);
    if |chunks| < |replies| && Receive(replies[|chunks|]).Chunk? {
      assert e.chunks[..|chunks|] == chunks;
    } else {
      assert e.chunks[..|chunks|] == chunks;
    }
  }

  /**
   * The loop. The first round primes the prompt with "<aiName>:" and opens a new AI turn with the
   * first chunk; later rounds send the plain prompt, which already ends with that partial turn,
   * and extend it. The reply is the concatenation of the chunks, and the conversation ends as
   * the old one with every chunk recorded.
   */
  method GenerateResponse(history: ChatHistory, aiName: string, replies: seq<ServiceReply>)
    returns (result: Result<string, CompletionError>, requests: seq<Request>, ghost promptStates: seq<ChatState>)
    modifies history
    ensures var e := Converse(replies);
      && |requests| == e.calls == |promptStates|
      && result == (if e.Finished? then Success(Concat(e.chunks)) else Failure(e.error))
    ensures forall r :: 0 <= r < |requests| ==>
      RoundRequest(requests[r], promptStates[r], Converse(replies).chunks[..r], old(history.State()), aiName)
    ensures history.State() == AfterChunks(old(history.State()), Converse(replies).chunks)
  {
    ghost var start := history.State();
    ghost var chunks: seq<string> := [];
    ghost var partials: seq<string> := [""];
    var buffer := "";
    var first := true;
    var k := 0;
    requests, promptStates := [], [];
    while true
      invariant k == |chunks| == |requests| && (first <==> k == 0)
      invariant Progress(replies, start, aiName, chunks, partials, requests, promptStates)
      invariant partials[k] == buffer
      invariant history.State() == AfterChunks(start, chunks)
      decreases |replies| - k
    {
      var request := BuildRequest(history, aiName, first);
      Sent(replies, start, aiName, chunks, partials, requests, promptStates, request, history.State());
      requests := requests + [request];
      promptStates := promptStates + [history.State()];
      // `get_completion(..).await?` and `choices.pop()`; a call past the given replies fails.
      var step := if k == |replies| then Halt(NoMoreReplies) else Receive(replies[k]);
      if step.Chunk? && !step.last {
        Received(replies, start, aiName, chunks, partials, requests, promptStates, step.text);
        RecordChunk(history, first, step.text);
        AfterChunksSnoc(start, chunks, step.text);
        first := false;
        buffer := buffer + step.text;
        chunks := chunks + [step.text];
        partials := partials + [buffer];
        k := k + 1;
      } else {
        Finish(replies, start, aiName, chunks, partials, requests, promptStates);
        RequestedKept(requests, promptStates, chunks, Converse(replies).chunks, start, aiName);
        if step.Chunk? {
          ConcatSnoc(chunks, step.text);
          RecordChunk(history, first, step.text);
          AfterChunksSnoc(start, chunks, step.text);
          buffer := buffer + step.text;
        }
        result := if step.Halt? then Failure(step.error) else Success(buffer);
        break;
      }
    }
  }
}
