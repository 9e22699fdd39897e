# dorothy chat core in Dafny

dorothy is a Discord bot that chats through a text-completion service. Each Discord channel
has one conversation, a `ChatHistory`, which holds:

- a human log of (line, speaker) entries and an AI log of lines;
- the speaker names seen so far;
- a preamble ("start context");
- four optional sampling options;
- a running token estimate. When a new line's cost would take it over 1500, the oldest half of
  each log is dropped and the estimate is recounted before the cost is added. Nothing bounds the
  result, so a single long line can leave it above 1500.

This project models that conversation state and the logic around it:

- the budget and token estimate;
- the appends, continuation, purge, recount and reset;
- the stop-token list;
- the prompt rendering;
- the `!` command interpreter;
- the completion loop `generate_response`;
- the registry that maps chat media to conversations;
- the message handler's choice between ignoring a message, running a command and answering a
  human turn.

Layout:

- `tokens.dfy`: the token estimate of a line, checked against a reference `split(' ')`.
- `text.dfy`: `trim`, `starts_with` and `replace("\n", " ")`.
- `chat_state.dfy`: the conversation as a value, with every state change as a pure transition
  and the properties of the budget step.
- `rendering.dfy`: the prompt as a recursive function over the two logs, plus an independent view
  of it as a merged sequence of turns.
- `chat_history.dfy`: the class `ChatHistory`. Each method is proved to perform its transition;
  `to_string` is proved to produce the rendering above.
- `commands.dfy`: the command parser, its inverse, and the commands' effects.
- `completion.dfy`: the completion loop against a given sequence of service replies. The loop's
  method is proved against `Converse`, the outcome as a function of the replies.
- `registry.dfy`: `ChatMedium`, `is_channel` and the `HistoryMap` class.
- `handler.dfy`: the decision in `message` and the human-turn branch.

Three behaviours of the code worth knowing:

- A lone human line is written with its newline: `"Hello.\n\nAlice: hi\n"`, not with a trailing
  space. Only a final AI line ends with `" "` (`Rendering.RenderLoneHumanExample`,
  `Rendering.TranscriptEnding`).
- The running estimate is not the preamble's cost plus the cost of every turn.
  - `add_human_log` and `add_ai_log` charge only the line, while a recount also charges the speaker
    label (1 for "Human" or the AI name, or the cost of the speaker's name).
  - `continue_last_ai_log` charges the whole continuation, although it adds only the
    continuation's spaces to a recount.
  - `ChatState.HumanLogLag`, `ChatState.AiLogLag` and `ChatState.ContinuationLag` give the exact
    drift. Only a purge, which recounts, or `reset` brings the estimate back in line
    (`ChatState.ResetRecountsPreamble`).
- `generate_response` takes `choices.pop()`, which is the last choice of a reply, not the first.
  With one choice per call the two agree.

## Model

| member | source | states |
|---|---|---|
| Tokens.TokenCount | src/main.rs:82 | a line costs its spaces plus one; `Tokens.TokenCountIsSplitCount` ties this to `split(' ')` |
| Tokens.SplitCount | src/main.rs:82 | the number of pieces `split(c)` yields is the number of `c` in the line plus one |
| Tokens.TokenCountIsSplitCount | src/main.rs:82 | a line's estimated cost is the piece count of `split(' ')`, so an empty line costs 1 |
| Tokens.SplitPiecesFree | src/main.rs:82 | no piece of a split contains the separator |
| Tokens.SplitJoin | src/main.rs:82 | joining the pieces with the separator gives the line back |
| Tokens.TokenCountAppend | src/main.rs:82 | the cost of two joined lines is the sum of their costs minus one |
| Text.Trim | src/main.rs:325 | `str::trim`; `Text.TrimShape` states what it keeps |
| Text.ReplaceNewlines | src/main.rs:324 | `replace("\n", " ")`; `Text.NewlinesReplaced` states it character by character |
| Text.FirstKept | src/main.rs:325 | the forward search stops at the first non-whitespace character, with only whitespace before it |
| Text.LastKeptEnd | src/main.rs:325 | the backward search stops after the last non-whitespace character, with only whitespace after it |
| Text.TrimShape | src/main.rs:325 | `trim` keeps a slice of its input, drops only whitespace on both sides, and the slice neither starts nor ends with whitespace |
| Text.TrimWithin | src/main.rs:325 | a character absent from a string is absent from its trim |
| Text.TrimKeeps | src/main.rs:145 | a line that neither starts nor ends with whitespace is its own trim |
| Text.TrimIdempotent | src/main.rs:325 | trimming twice is trimming once |
| Text.NewlinesReplaced | src/main.rs:324 | `replace("\n", " ")` keeps the length, turns each newline into a space, keeps every other character, and leaves no newline |
| ChatState.NewChat | src/main.rs:35-45 | the state of `ChatHistory::new`: empty logs and names, estimate 20, the Dorothy preamble, the default configuration |
| ChatState.AfterCharge | src/main.rs:81-88 | `calculate_new_tokens` on the state; `ChatState.ChargeShape` states its effect |
| ChatState.AfterPurge | src/main.rs:90-93 | `purge_half_chat_logs` on the state; `ChatState.PurgeKeepsNewest` states what survives |
| ChatState.AfterRecount | src/main.rs:95-108 | `recalculate_tokens` on the state: the estimate becomes `FullRecount` |
| ChatState.AfterReset | src/main.rs:52-57 | `reset` on the state; `ChatState.ResetRecountsPreamble` states its effect |
| ChatState.AfterHumanLog | src/main.rs:59-65 | `add_human_log` on the state; `ChatState.HumanLogAppends` and `ChatState.HumanLogLag` state its effect |
| ChatState.AfterAiLog | src/main.rs:67-70 | `add_ai_log` on the state; `ChatState.AiLogAppends` and `ChatState.AiLogLag` state its effect |
| ChatState.AfterContinuation | src/main.rs:72-79 | `continue_last_ai_log` on the state; `ChatState.ContinuationExtendsLast` and `ChatState.ContinuationLag` state its effect |
| ChatState.ChargeShape | src/main.rs:81-88 | within budget the logs stay and the estimate grows by the line's cost; over budget each log keeps its newest ⌈n/2⌉ entries and the estimate is a full recount plus that cost; nothing else changes |
| ChatState.ChargeWithinBudget | src/main.rs:83-87 | a charge within budget is only the estimate growing by the line's cost, and stays within 1500 |
| ChatState.PurgeKeepsNewest | src/main.rs:90-93 | the purge removes exactly the first ⌊n/2⌋ entries; the survivors are the original suffix in order, and a non-empty log keeps its last entry |
| ChatState.HumanLogCostAppend | src/main.rs:97-104 | the recount of a human log with one more entry adds that entry's line cost plus 1 (private) or its name's cost |
| ChatState.AiLogCostAppend | src/main.rs:105-107 | the recount of an AI log with one more entry adds its cost plus 1 |
| ChatState.AiLogCostExtendLast | src/main.rs:105-107 | extending the last AI entry adds exactly the continuation's spaces to the recount |
| ChatState.ResetRecountsPreamble | src/main.rs:52-57 | after `reset` both logs and the seen names are empty, the estimate is the preamble's cost, and preamble, privacy and configuration are kept |
| ChatState.HumanLogAppends | src/main.rs:59-65 | `add_human_log` appends exactly one entry at the end of the human log, apart from what the purge drops |
| ChatState.AiLogAppends | src/main.rs:67-70 | `add_ai_log` appends exactly one entry at the end of the AI log, apart from the purge; the settings are kept |
| ChatState.ContinuationExtendsLast | src/main.rs:72-79 | continuation never changes the AI log's length beyond the purge; it extends only the last entry and leaves an empty log empty |
| ChatState.HumanLogLag | src/main.rs:59-65 | after `add_human_log` the estimate lags a full recount by the speaker label's cost more than before, or exactly that after a purge |
| ChatState.AiLogLag | src/main.rs:67-70 | after `add_ai_log` the estimate lags a full recount by one more than before, or exactly one after a purge |
| ChatState.ContinuationLag | src/main.rs:72-79 | starting from the old lag, or from none after a purge, continuation moves the estimate one further ahead of a recount, or the whole charge further ahead when there is no AI turn |
| ChatHistories.ChatHistory.constructor | src/main.rs:35-45 | a new conversation: empty logs and names, estimate 20, the Dorothy preamble and the default configuration |
| ChatHistories.ChatHistory.Reset | src/main.rs:52-57 | the new state is the reset transition of the old one |
| ChatHistories.ChatHistory.AddHumanLog | src/main.rs:59-65 | the new state is the budget step, then the entry appended |
| ChatHistories.ChatHistory.AddAiLog | src/main.rs:67-70 | the new state is the budget step, then the line appended |
| ChatHistories.ChatHistory.ContinueLastAiLog | src/main.rs:72-79 | the new state is the budget step, then the last AI entry extended, or no extension when there is none |
| ChatHistories.ChatHistory.CalculateNewTokens | src/main.rs:81-88 | the new state is the budget-step transition |
| ChatHistories.ChatHistory.PurgeHalfChatLogs | src/main.rs:90-93 | the new state is the purge transition |
| ChatHistories.ChatHistory.RecalculateTokens | src/main.rs:95-108 | the two loops set the estimate to the preamble's cost plus each human entry's cost plus each AI entry's cost plus one; nothing else changes |
| ChatHistories.ChatHistory.GetStopTokens | src/main.rs:110-122 | `StopTokensFor` holds of the list and the state: the list is a newline and `aiName:`, then `Human:` when private, otherwise min(2, number of seen names) distinct `name:` tokens from the seen names |
| ChatHistories.ChatHistory.ToString | src/main.rs:126-174 | the peekable-iterator loop with its toggling flag writes exactly the recursive rendering of the state |
| Rendering.Render | src/main.rs:126-174 | the prompt: the preamble, a blank line, then the transcript; `ChatHistories.ChatHistory.ToString` is proved to compute it |
| Rendering.Transcript | src/main.rs:131-172 | the turns, human first, alternating while both logs last; `Rendering.TranscriptIsInterleaving` and `Rendering.InterleaveAt` state the order |
| Rendering.HumanLineText | src/main.rs:136-149 | `label: trim(line)` and a newline, where the label is `Human` in private chats and the speaker's name otherwise |
| Rendering.AiLineText | src/main.rs:153-168 | `aiName: trim(line)`, then a space for the final line and a newline otherwise |
| Rendering.RenderStartsWithPreamble | src/main.rs:128-129 | the prompt starts with the preamble and a blank line |
| Rendering.InterleaveLength | src/main.rs:134-172 | every entry of both logs is written once |
| Rendering.InterleaveAt | src/main.rs:134-172 | while both logs last, human and AI turns alternate, human first, each log in order; then the rest of the longer log follows in order |
| Rendering.TranscriptIsInterleaving | src/main.rs:134-172 | the transcript is the interleaved turns, each written as its line, with only the final AI line ending in a space |
| Rendering.TranscriptEnding | src/main.rs:154-164 | a non-empty transcript ends with a space exactly when the AI log is at least as long as the human log, otherwise with a newline |
| Rendering.PendingHumanStep | src/main.rs:135-149 | a human step writes `label: trim(line)` and a newline, then hands the turn to the AI |
| Rendering.PendingAiStep | src/main.rs:153-169 | an AI step writes `aiName: trim(line)`, then a space if nothing remains after it, otherwise a newline |
| Rendering.PendingSkip | src/main.rs:150-152 | a step whose log is exhausted writes nothing and only passes the turn |
| Rendering.RenderLoneHumanExample | src/main.rs:137-149 | a lone human turn renders as `"Hello.\n\nAlice: hi\n"` |
| Rendering.RenderExchangeExample | src/main.rs:154-164 | one human and one AI turn render as `"P\n\nA: hi\nBot: hey "` |
| Commands.Parse | src/main.rs:329-431 | the prefix tests of the command branch, in source order; `Commands.ParseUnparse` and `Commands.ParseKnob` state what it recognises |
| Commands.AfterCommand | src/main.rs:329-431 | each command's effect on the conversation; `Commands.ApplyAdjust`, `Commands.ContextReplacesPreamble` and `Commands.CommandsKeepLogs` state them |
| Commands.ReplyTo | src/main.rs:385-431 | each command's reply: `[Chatlog Cleared]`, the fenced prompt, the new context, or the info values |
| Commands.ParseKnob | src/main.rs:329-384 | a text starting with an option's prefix is that option's command, whatever follows |
| Commands.ParseUnparse | src/main.rs:326-431 | parsing the typed form of any command gives the command back, so the prefix tests in source order tell every command apart |
| Commands.ApplyAdjust | src/main.rs:329-384 | a bare option command clears the option; a value that parses sets it; one that does not parse keeps the old value; the other three options are untouched |
| Commands.UnparsableKeepsConfiguration | src/main.rs:334-341 | a value that does not parse leaves the whole configuration as it was |
| Commands.ContextReplacesPreamble | src/main.rs:396-408 | `!context=<t>` makes `t` the preamble, empties the logs and seen names, recounts from `t` alone, and keeps the configuration |
| Commands.CommandsKeepLogs | src/main.rs:329-431 | option commands change only the configuration; `!log`, `!info` and unknown commands change nothing |
| Commands.Execute | src/main.rs:329-431 | running a command performs its transition on the conversation and gives its reply: `[Chatlog Cleared]`, the fenced prompt, the new context, or the info values |
| Completion.ChosenText | src/main.rs:520-521 | the last choice's text with newlines made spaces; `Completion.ChunkTexts` ties each chunk to it |
| Completion.Receive | src/main.rs:518-534 | what one reply means to the loop: a failure, no choice, or a chunk that is last when its choice stopped; `Completion.ConverseRounds` states its role |
| Completion.AfterChunks | src/main.rs:520-527 | the conversation with the chunks recorded: `add_ai_log` for the first, `continue_last_ai_log` for each later one; `Completion.ChunksOpen` states its shape |
| Completion.Converse | src/main.rs:495-535 | the loop makes at least one and at most one more call than there are replies, and yields one chunk per call, except possibly the last |
| Completion.ConverseShape | src/main.rs:495-535 | each reply before the last one read had a `Length` choice; the loop finishes exactly on a reply with no choice or a `Stop` choice, and aborts exactly on a failed call; the chunks are the chosen texts in order |
| Completion.ConverseRounds | src/main.rs:518-534 | which replies continue the loop, and how its last reply decides between finishing and aborting |
| Completion.ConverseChunks | src/main.rs:520-528 | one chunk per round whose reply had a choice, being that choice's text with newlines made spaces |
| Completion.ChunkCount | src/main.rs:520-534 | the number of chunks |
| Completion.ChunkTexts | src/main.rs:520-528 | the text of each chunk |
| Completion.ConverseChunksFlat | src/main.rs:521 | the reply never contains a newline |
| Completion.LengthThenStop | src/main.rs:520-531 | a `Length` reply followed by a `Stop` reply finishes after two calls with both texts, newlines made spaces, joined as the reply |
| Completion.Continued | src/main.rs:520-531 | rounds that continued contribute their chunks in order and leave the outcome to the replies after them |
| Completion.Settle | src/main.rs:518-534 | the reply that does not continue decides the outcome: abort on failure or no reply, finish otherwise, with its chunk when it had a choice |
| Completion.Accumulated | src/main.rs:528 | the buffer before each round is the concatenation of the chunks so far |
| Completion.OpenTurn | src/main.rs:522-524 | the first chunk opens one new AI turn holding it |
| Completion.ExtendTurn | src/main.rs:525-527 | a later chunk extends that turn and adds none |
| Completion.RecordChunk | src/main.rs:520-527 | a round's chunk is recorded with `add_ai_log` in the first round and `continue_last_ai_log` in every later one |
| Completion.AfterChunksSnoc | src/main.rs:520-527 | recording one more chunk is one more `add_ai_log` if it is the first, otherwise one more `continue_last_ai_log` |
| Completion.ChunksOpen | src/main.rs:520-528 | recording chunks opens exactly one AI turn, which holds their concatenation; the settings stay, and each log loses only oldest entries to purges |
| Completion.SingleStopReply | src/main.rs:520-531 | one reply with a `Stop` choice finishes after one call, and the conversation is the old one after one `add_ai_log` of the text |
| Completion.BuildRequest | src/main.rs:496-517 | the request carries the rendered prompt, with `aiName:` added in the first round only, the configuration, 50 tokens, one choice, and the full `get_stop_tokens` list for the conversation, as `StopTokensFor` states it |
| Completion.GenerateResponse | src/main.rs:488-537 | it returns the concatenated chunks or the error, as `Converse` says; request r is sent for the old conversation with the first r chunks recorded; the conversation ends as the old one with every chunk recorded (`AfterChunks`) |
| Registry.ChatMedium.IsChannel | src/main.rs:183-190 | `is_channel`; `Registry.IsChannelExactly` states it |
| Registry.IsChannelExactly | src/main.rs:183-190 | a medium matches a channel id exactly when it is that medium's channel, guild or not |
| Registry.MediumFor | src/main.rs:245-249 | a message from a guild gets a guild medium, otherwise a channel medium, and its channel always matches |
| Registry.HistoryMap.constructor | src/main.rs:255-261 | the registry starts empty |
| Registry.HistoryMap.ContainsMedium | src/main.rs:238-241 | true exactly when some key matches the channel |
| Registry.HistoryMap.CreateFromInitialMessage | src/main.rs:243-252 | a fresh conversation is stored under the message's medium, and only that key changes |
| Registry.HistoryMap.Find | src/main.rs:318-322 | finds the conversation of a key that matches the channel, or none exactly when no key matches |
| Registry.HistoryMap.Resolve | src/main.rs:313-323 | afterwards a key matches the channel, so the `unwrap` cannot fail; a known channel leaves the map as it was; an unknown one gains exactly one fresh, new conversation |
| Handler.AiName | src/main.rs:270-276 | the bot's name once known, `AI` until then |
| Handler.Cleaned | src/main.rs:324-325 | the cleaned text holds no newline and neither starts nor ends with whitespace |
| Handler.Classify | src/main.rs:326-434 | a text starting with `!` is a command, run only when the author may run commands and ignored otherwise; any other text becomes a human turn |
| Handler.TypedCommandRuns | src/main.rs:326-431 | a command typed in its canonical form, by an author allowed to, runs as itself |
| Handler.NewestHumanEntry | src/main.rs:436-445 | after an exchange the message is the newest human entry and its author a seen name |
| Handler.Respond | src/main.rs:436-478 | the new state is the old one with the author added to the seen names, `add_human_log` of the turn, then every chunk recorded; the answer is the loop's reply or the failure notice |
| Handler.OnMessage | src/main.rs:291-479 | messages from the bot or from outside the allow-lists are ignored; otherwise the channel's conversation is found or created, and the message is ignored, run as a command, or answered; no other conversation in the registry changes |

## Left out

- Discord plumbing is not modelled: `reply`, `send_message`, `broadcast_typing`, `content_safe`,
  the cache, `ready` and `main`. The message content arrives already sanitised; the answer is
  returned as a `Reply` value instead of being sent; send failures are not modelled.
- Handler.OnMessage: the hard-coded channel and user allow-lists are the flags `permitted` and
  `mayCommand`, because their identifiers are deployment data.
- Handler.AiName: the bot's own name is a parameter; `ready`, which records it, is not modelled.
- src/api.rs and src/types.rs are not part of this model. The service is a given sequence of
  replies; `Choice` and `FinishReason` mirror the response shapes.
- Completion.GenerateResponse: a call beyond the given replies fails with `NoMoreReplies`. This
  stands for the unbounded remote service and is not a behaviour of the source.
- Floating-point values are kept as opaque bit patterns, and `parse::<f64>` and `parse::<usize>`
  are function parameters, because the model never computes with them.
- Commands.ReplyTo: the `!info` text and the `Configuration::*_str` helpers are display only, so
  the reply carries the values shown rather than the formatted text.
- Async, `RwLock` and concurrency are not modelled: everything runs single-threaded, so the
  race between `contains_medium` and `create_from_initial_message` cannot arise.
- ChatHistories.ChatHistory.GetStopTokens: `HashSet` iteration order is a nondeterministic
  choice, so the contract names some two distinct seen names, not a particular pair.
- `tokens_so_far` is a `usize` in the source and a `nat` here: an overflow would need more
  than 2^64 spaces.
- The initial estimate 20 is taken as given and not related to the preamble's cost.
- `has_logs` is never called and is not modelled.
- Logging (`eprintln!`, `println!`, `dbg!`) and the write failures of `to_string`, which cannot
  happen when writing to a `String`, are not modelled.
